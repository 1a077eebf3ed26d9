/**
 * The flow controller: which tier and count were chosen, the tickets the form
 * produced, and which screen is shown.
 */
module Flow {
  import opened Wrappers
  import opened Form
  import opened Selection

  datatype Screen = SelectionScreen | FormScreen

  class App {
    var selectedTicket: Option<string>
    var ticketCount: nat
    var tickets: seq<Ticket>

    constructor ()
      ensures selectedTicket == None && ticketCount == 1 && tickets == []
      ensures CurrentScreen() == SelectionScreen
    {
      selectedTicket := None;
      ticketCount := 1;
      tickets := [];
    }

    /**
     * `!selectedTicket ? selection : form`: the form is shown once a (truthy)
     * tier is set, and always for a tier from the catalog.
     */
    function CurrentScreen(): (screen: Screen)
      reads this
      ensures screen == FormScreen ==> selectedTicket.Some?
      ensures selectedTicket.Some? && IsCatalogType(selectedTicket.value) ==> screen == FormScreen
    {
      if selectedTicket.None? || selectedTicket.value == "" then SelectionScreen else FormScreen
    }

    /** The selection screen's continue event. */
    method HandleSelectTicket(choice: Choice)
      modifies this
      ensures selectedTicket == Some(choice.ticketType) && ticketCount == choice.count
      ensures tickets == old(tickets)
      ensures CurrentScreen() == FormScreen <==> choice.ticketType != ""
    {
      selectedTicket := Some(choice.ticketType);
      ticketCount := choice.count;
    }

    /** The form's submit event: the generated tickets replace the old ones. */
    method HandleFormSubmit(generated: seq<Ticket>)
      modifies this
      ensures tickets == generated
      ensures selectedTicket == old(selectedTicket) && ticketCount == old(ticketCount)
    {
      tickets := generated;
    }

    /** The form's back button: no tier, no tickets, and the count is kept. */
    method HandleBack()
      modifies this
      ensures selectedTicket == None && tickets == [] && ticketCount == old(ticketCount)
      ensures CurrentScreen() == SelectionScreen
    {
      selectedTicket := None;
      tickets := [];
    }
  }

  const Ada := Attendee("Ada Lovelace", "ada@example.com", "")
  const Alan := Attendee("Alan Turing", "alan@example.org", "")

  lemma LowercaseIsPlain(t: string)
    requires forall i | 0 <= i < |t| :: 'a' <= t[i] <= 'z'
    ensures Plain(t)
  {
  }

  /** An email whose characters other than the `@` and one later `.` are lower-case letters matches the pattern. */
  lemma LowercaseEmail(s: string, at: nat, dot: nat)
    requires 0 < at && at + 1 < dot && dot + 1 < |s| && s[at] == '@' && s[dot] == '.'
    requires forall i | 0 <= i < |s| && i != at && i != dot :: 'a' <= s[i] <= 'z'
    ensures IsEmail(s)
  {
    var local, head, tail := s[..at], s[at + 1..dot], s[dot + 1..];
    assert forall i | 0 <= i < |local| :: local[i] == s[i];
    assert forall i | 0 <= i < |head| :: head[i] == s[at + 1 + i];
    assert forall i | 0 <= i < |tail| :: tail[i] == s[dot + 1 + i];
    LowercaseIsPlain(local);
    LowercaseIsPlain(head);
    LowercaseIsPlain(tail);
  }

  lemma AdaEmail()
    ensures IsEmail(Ada.email)
  {
    LowercaseEmail(Ada.email, 3, 11);
  }

  lemma AlanEmail()
    ensures IsEmail(Alan.email)
  {
    LowercaseEmail(Alan.email, 4, 12);
  }

  /** Two records: a missing field in the second one fails the required-field check. */
  lemma SecondOfTwoMissing(a: Attendee, b: Attendee, tier: string)
    requires !Filled(b)
    ensures Submit([a, b], tier) == Err(RequiredMessage)
  {
    assert !Filled([a, b][1]);
  }

  /** Two records that both pass come back tagged, in order. */
  lemma TwoAccepted(a: Attendee, b: Attendee, tier: string)
    requires Acceptable(a) && Acceptable(b)
    ensures Submit([a, b], tier) == Ok([Tag(a, tier), Tag(b, tier)])
  {
    var data := [a, b];
    assert forall i | 0 <= i < |data| :: Acceptable(data[i]);
    assert Submit(data, tier).Ok?;
    var tagged := TagAll(data, tier);
    assert Submit(data, tier).value == tagged;
    assert tagged[0] == Tag(a, tier) && tagged[1] == Tag(b, tier);
    assert tagged == [Tag(a, tier), Tag(b, tier)];
  }

  /** With the second record still empty, the required-field check fails. */
  lemma SecondRecordMissing()
    ensures Submit([Ada, EmptyAttendee], "VIP") == Err(RequiredMessage)
  {
    SecondOfTwoMissing(Ada, EmptyAttendee, "VIP");
  }

  /** With both records complete, both come back tagged VIP. */
  lemma BothRecordsComplete()
    ensures Submit([Ada, Alan], "VIP")
         == Ok([Ticket("Ada Lovelace", "ada@example.com", "", "VIP"),
                Ticket("Alan Turing", "alan@example.org", "", "VIP")])
  {
    AdaEmail();
    AlanEmail();
    assert Ada.fullName != "" && Alan.fullName != "";
    TwoAccepted(Ada, Alan, "VIP");
  }

  /**
   * A whole booking: VIP, two tickets, a first submit with the second record
   * empty, then a second submit once it is filled in.
   */
  method VipBooking() returns (first: Option<seq<Ticket>>, firstError: string,
                               second: Option<seq<Ticket>>, booked: seq<Ticket>)
    ensures first == None && firstError == RequiredMessage
    ensures second.Some? && booked == second.value && |booked| == 2
    ensures booked[0] == Ticket("Ada Lovelace", "ada@example.com", "", "VIP")
    ensures booked[1] == Ticket("Alan Turing", "alan@example.org", "", "VIP")
  {
    var app := new App();
    var selection := new TicketSelection();
    selection.SelectTier(1);
    assert 2 == CountOptions()[1];
    selection.ChangeCount(2);
    var choice := selection.Continue();
    app.HandleSelectTicket(choice.value);
    assert app.CurrentScreen() == FormScreen;

    var form := new TicketForm(app.selectedTicket.value, app.ticketCount, []);
    assert form.formData == [EmptyAttendee, EmptyAttendee];
    form.HandleChange(0, FullName, Ada.fullName);
    form.HandleChange(0, Email, Ada.email);
    assert form.formData == [Ada, EmptyAttendee];
    SecondRecordMissing();
    first := form.HandleSubmit();
    firstError := form.error;

    form.HandleChange(1, FullName, Alan.fullName);
    form.HandleChange(1, Email, Alan.email);
    assert form.formData == [Ada, Alan];
    BothRecordsComplete();
    second := form.HandleSubmit();
    app.HandleFormSubmit(second.value);
    booked := app.tickets;
  }
}
