/**
 * The first screen: a catalog of tiers to click, a ticket count chosen from
 * 1 to 10, and a continue button that hands `{type, count}` to the app.
 */
module Selection {
  import opened Wrappers
  import opened Text
  import Summary

  /** One button of the catalog. */
  datatype CatalogEntry = CatalogEntry(ticketType: string, price: string, description: string)

  const Catalog: seq<CatalogEntry> := [
    CatalogEntry("Standard", "$50", "General admission ticket."),
    CatalogEntry("VIP", "$100", "Access to VIP lounge & front-row seating."),
    CatalogEntry("Interns", "$10", "Discounted ticket for Interns (ID required).")
  ]

  predicate IsCatalogType(t: string) {
    exists i | 0 <= i < |Catalog| :: Catalog[i].ticketType == t
  }

  /** The payload `{type, count}` of the continue event. */
  datatype Choice = Choice(ticketType: string, count: nat)

  /** The values offered by the count drop-down: `[...Array(10).keys()].map(n => n + 1)`. */
  function CountOptions(): (r: seq<nat>)
    ensures |r| == 10
    ensures forall v :: v in r <==> 1 <= v <= 10
  {
    var r := seq(10, i requires 0 <= i < 10 => i + 1);
    assert r == [1, 2, 3, 4, 5, 6, 7, 8, 9, 10];
    r
  }

  /** The catalog's price labels agree with the summary's price rule. */
  lemma CatalogMatchesPriceRule()
    ensures forall i | 0 <= i < |Catalog| ::
      Catalog[i].price == "$" + Decimal(Summary.UnitPrice(Catalog[i].ticketType))
  {
  }

  /** The tiers are Standard, VIP and Interns, each listed once. */
  lemma CatalogTiers()
    ensures |Catalog| == 3
    ensures Catalog[0].ticketType == "Standard" && Catalog[1].ticketType == "VIP"
         && Catalog[2].ticketType == "Interns"
    ensures forall i, j | 0 <= i < |Catalog| && 0 <= j < |Catalog| ::
      Catalog[i].ticketType == Catalog[j].ticketType ==> i == j
  {
  }

  /** The state of the selection screen. */
  class TicketSelection {
    var selectedTicket: Option<string>
    var ticketCount: nat

    /** The count is one of the offered values and a chosen tier is from the catalog. */
    ghost predicate Valid()
      reads this
    {
      ticketCount in CountOptions()
      && (selectedTicket.Some? ==> IsCatalogType(selectedTicket.value))
    }

    constructor ()
      ensures Valid()
      ensures selectedTicket == None && ticketCount == 1
    {
      selectedTicket := None;
      ticketCount := 1;
    }

    /** Clicking the button of catalog entry `i`. */
    method SelectTier(i: nat)
      requires Valid() && i < |Catalog|
      modifies this
      ensures Valid()
      ensures selectedTicket == Some(Catalog[i].ticketType) && ticketCount == old(ticketCount)
    {
      selectedTicket := Some(Catalog[i].ticketType);
    }

    /** Picking value `v` in the count drop-down. */
    method ChangeCount(v: nat)
      requires Valid() && v in CountOptions()
      modifies this
      ensures Valid()
      ensures ticketCount == v && selectedTicket == old(selectedTicket)
    {
      ticketCount := v;
    }

    /**
     * The continue button is shown: a tier is chosen (truthy) and the count is
     * positive. Every catalog tier is truthy, so on a valid screen this is
     * just "a tier has been clicked".
     */
    predicate CanContinue()
      reads this
      ensures CanContinue() ==> selectedTicket.Some? && 1 <= ticketCount
      ensures Valid() && selectedTicket.Some? ==> CanContinue()
    {
      selectedTicket.Some? && selectedTicket.value != "" && ticketCount > 0
    }

    /** On a valid screen the button is shown exactly when a tier has been chosen. */
    lemma ContinueOnceTierChosen()
      requires Valid()
      ensures CanContinue() <==> selectedTicket.Some?
      ensures CanContinue() ==> 1 <= ticketCount <= 10
    {
      if selectedTicket.Some? {
        var i :| 0 <= i < |Catalog| && Catalog[i].ticketType == selectedTicket.value;
        assert |Catalog[i].ticketType| > 0;
      }
    }

    /** Clicking continue: the payload is exactly the current tier and count. */
    method Continue() returns (emitted: Option<Choice>)
      ensures emitted.Some? <==> CanContinue()
      ensures emitted.Some? ==> emitted.value == Choice(selectedTicket.value, ticketCount)
    {
      if CanContinue() {
        emitted := Some(Choice(selectedTicket.value, ticketCount));
      } else {
        emitted := None;
      }
    }
  }
}
