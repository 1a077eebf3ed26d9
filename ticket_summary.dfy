/**
 * The values the summary screen computes from the tickets: the total price,
 * the per-ticket reference and QR payload, the download file names and the
 * avatar placeholder.
 */
module Summary {
  import opened Text
  import opened Form

  // ---------------------------------------------------------------------------
  // Price
  // ---------------------------------------------------------------------------

  /** Price of one ticket of a tier: VIP 100, Interns 10, anything else 50. */
  function UnitPrice(tier: string): (p: nat)
    ensures 10 <= p <= 100
    ensures p == 50 <==> tier != "VIP" && tier != "Interns"
  {
    if tier == "VIP" then 100 else if tier == "Interns" then 10 else 50
  }

  /** `tickets.length * price(selectedTicket)`. */
  function TotalAmount(tickets: seq<Ticket>, selectedTicket: string): (r: nat)
    ensures r == 0 <==> tickets == []
    ensures 10 * |tickets| <= r <= 100 * |tickets|
  {
    |tickets| * UnitPrice(selectedTicket)
  }

  /** The sum of what each ticket costs by its own tagged type. */
  function OwnPrices(tickets: seq<Ticket>): nat {
    if tickets == [] then 0 else UnitPrice(tickets[0].ticketType) + OwnPrices(tickets[1..])
  }

  /**
   * When every ticket carries the selected tier (as the submit handler tags
   * them), the total is the sum of the tickets' own prices.
   */
  lemma {:induction false} TotalAmountIsSumOfOwnPrices(tickets: seq<Ticket>, selectedTicket: string)
    requires forall i :: 0 <= i < |tickets| ==> tickets[i].ticketType == selectedTicket
    ensures TotalAmount(tickets, selectedTicket) == OwnPrices(tickets)
  {
    if tickets != [] {
      TotalAmountIsSumOfOwnPrices(tickets[1..], selectedTicket);
    }
  }

  /** More tickets never cost less. */
  lemma TotalAmountMonotone(a: seq<Ticket>, b: seq<Ticket>, selectedTicket: string)
    requires |a| <= |b|
    ensures TotalAmount(a, selectedTicket) <= TotalAmount(b, selectedTicket)
  {
    var p := UnitPrice(selectedTicket);
    assert |b| * p == |a| * p + (|b| - |a|) * p;
  }

  // ---------------------------------------------------------------------------
  // Per-ticket reference and QR payload
  // ---------------------------------------------------------------------------

  const EventName := "HNG FEST 2025"
  const EventDate := "July 15, 2025"
  const EventVenue := "Eko Hotel & Suites, Lagos"

  /**
   * `${bookingReference}-${index + 1}`: the booking reference, a `-`, and the
   * ticket's number counted from 1, in digits.
   */
  function TicketReference(bookingReference: string, index: nat): (r: string)
    ensures |r| > |bookingReference| + 1
    ensures r[..|bookingReference|] == bookingReference && r[|bookingReference|] == '-'
    ensures AllDigits(r[|bookingReference| + 1..]) && r[|bookingReference| + 1] != '0'
  {
    bookingReference + "-" + Decimal(index + 1)
  }

  /** The number after the reference's last separator reads back as `index + 1`. */
  lemma TicketReferenceNumber(bookingReference: string, index: nat)
    ensures var r := TicketReference(bookingReference, index);
      |r| > |bookingReference| + 1
      && r[..|bookingReference| + 1] == bookingReference + "-"
      && AllDigits(r[|bookingReference| + 1..])
      && ParseDecimal(r[|bookingReference| + 1..]) == index + 1
  {
    var r := TicketReference(bookingReference, index);
    assert r[|bookingReference| + 1..] == Decimal(index + 1);
    ParseDecimalOfDecimal(index + 1);
  }

  /** Different tickets of one booking have different references. */
  lemma TicketReferencesDistinct(bookingReference: string, i: nat, j: nat)
    requires i != j
    ensures TicketReference(bookingReference, i) != TicketReference(bookingReference, j)
  {
    var k := |bookingReference| + 1;
    assert TicketReference(bookingReference, i)[k..] == Decimal(i + 1);
    assert TicketReference(bookingReference, j)[k..] == Decimal(j + 1);
    if Decimal(i + 1) == Decimal(j + 1) {
      DecimalInjective(i + 1, j + 1);
    }
  }

  /** The fields of the JSON object encoded in a ticket's QR code. */
  datatype QRPayload = QRPayload(
    bookingRef: string, name: string, email: string, ticketType: string,
    event: string, date: string, venue: string)

  /** `generateQRData(ticket, index)`; the type is the summary's selected tier. */
  function QRData(bookingReference: string, selectedTicket: string, ticket: Ticket, index: nat): (q: QRPayload)
    ensures q.name == ticket.fullName && q.email == ticket.email && q.ticketType == selectedTicket
    ensures q.event == EventName && q.date == EventDate && q.venue == EventVenue
    ensures |q.bookingRef| > |bookingReference| + 1
    ensures q.bookingRef[..|bookingReference| + 1] == bookingReference + "-"
    ensures AllDigits(q.bookingRef[|bookingReference| + 1..])
         && ParseDecimal(q.bookingRef[|bookingReference| + 1..]) == index + 1
  {
    TicketReferenceNumber(bookingReference, index);
    QRPayload(TicketReference(bookingReference, index), ticket.fullName, ticket.email,
              selectedTicket, EventName, EventDate, EventVenue)
  }

  /** No two tickets of a booking share a QR payload, even for identical attendees. */
  lemma QRPayloadsDistinct(bookingReference: string, selectedTicket: string, s: Ticket, t: Ticket, i: nat, j: nat)
    requires i != j
    ensures QRData(bookingReference, selectedTicket, s, i) != QRData(bookingReference, selectedTicket, t, j)
  {
    TicketReferencesDistinct(bookingReference, i, j);
  }

  /** The footer text of a card: `#`, the booking reference, `-`, the ticket's number. */
  function CardFooterReference(bookingReference: string, index: nat): (r: string)
    ensures |r| > 1 && r[0] == '#' && r[1..] == TicketReference(bookingReference, index)
  {
    "#" + bookingReference + "-" + Decimal(index + 1)
  }

  /** The card footer shows the same reference as the QR payload. */
  lemma CardFooterMatchesQR(bookingReference: string, selectedTicket: string, ticket: Ticket, index: nat)
    ensures CardFooterReference(bookingReference, index)
         == "#" + QRData(bookingReference, selectedTicket, ticket, index).bookingRef
  {
  }

  /**
   * For the tickets the form emits, every QR payload's name, email and type
   * are those of its record and of the tier it was tagged with.
   */
  lemma QRDataOfSubmittedTickets(data: seq<Attendee>, tier: string, bookingReference: string, i: nat)
    requires Submit(data, tier).Ok? && i < |data|
    ensures var q := QRData(bookingReference, tier, Submit(data, tier).value[i], i);
      q.name == data[i].fullName && q.email == data[i].email
      && q.ticketType == Submit(data, tier).value[i].ticketType
      && q.event == EventName && q.date == EventDate && q.venue == EventVenue
  {
    var t := Submit(data, tier).value[i];
    assert Untag(t) == data[i];
  }

  // ---------------------------------------------------------------------------
  // Download file names: `HNG2025_${fullName.replace(/\s+/g, "_")}_ID.png`
  // ---------------------------------------------------------------------------

  /** Length of the run of white space that `s` starts with. */
  function LeadingSpaces(s: string): (k: nat)
    ensures k <= |s|
    ensures forall i :: 0 <= i < k ==> IsSpace(s[i])
    ensures k < |s| ==> !IsSpace(s[k])
  {
    if s != [] && IsSpace(s[0]) then 1 + LeadingSpaces(s[1..]) else 0
  }

  /** `s.replace(/\s+/g, "_")`: every maximal run of white space becomes one `_`. */
  function ReplaceSpaceRuns(s: string): (r: string)
    ensures |r| <= |s|
    ensures r == [] <==> s == []
    decreases |s|
  {
    if s == [] then []
    else if IsSpace(s[0]) then "_" + ReplaceSpaceRuns(s[LeadingSpaces(s)..])
    else [s[0]] + ReplaceSpaceRuns(s[1..])
  }

  /** The replaced name contains no white space. */
  lemma {:induction false} ReplaceSpaceRunsRemovesSpace(s: string)
    ensures NoSpace(ReplaceSpaceRuns(s))
    decreases |s|
  {
    if s == [] {
    } else if IsSpace(s[0]) {
      var rest := s[LeadingSpaces(s)..];
      ReplaceSpaceRunsRemovesSpace(rest);
      NoSpaceAppend("_", ReplaceSpaceRuns(rest));
    } else {
      ReplaceSpaceRunsRemovesSpace(s[1..]);
      NoSpaceAppend([s[0]], ReplaceSpaceRuns(s[1..]));
    }
  }

  /** A name without white space is left as it is. */
  lemma {:induction false} ReplaceSpaceRunsKeepsPlainText(s: string)
    requires NoSpace(s)
    ensures ReplaceSpaceRuns(s) == s
  {
    if s != [] {
      assert NoSpace(s[1..]) by {
        forall i | 0 <= i < |s[1..]| ensures !IsSpace(s[1..][i]) {
          assert s[1..][i] == s[i + 1];
        }
      }
      ReplaceSpaceRunsKeepsPlainText(s[1..]);
    }
  }

  /** Replacing twice is replacing once. */
  lemma ReplaceSpaceRunsIdempotent(s: string)
    ensures ReplaceSpaceRuns(ReplaceSpaceRuns(s)) == ReplaceSpaceRuns(s)
  {
    ReplaceSpaceRunsRemovesSpace(s);
    ReplaceSpaceRunsKeepsPlainText(ReplaceSpaceRuns(s));
  }

  lemma {:induction false} LeadingSpacesAppend(a: string, b: string)
    requires LeadingSpaces(a) < |a|
    ensures LeadingSpaces(a + b) == LeadingSpaces(a)
  {
    if IsSpace(a[0]) {
      assert (a + b)[1..] == a[1..] + b;
      LeadingSpacesAppend(a[1..], b);
    }
  }

  lemma {:induction false} LeadingSpacesOfRun(run: string, rest: string)
    requires forall i :: 0 <= i < |run| ==> IsSpace(run[i])
    requires rest == [] || !IsSpace(rest[0])
    ensures LeadingSpaces(run + rest) == |run|
  {
    if run != [] {
      assert (run + rest)[1..] == run[1..] + rest;
      LeadingSpacesOfRun(run[1..], rest);
    }
  }

  lemma ReplaceSpaceRunsAtSpace(s: string)
    requires s != [] && IsSpace(s[0])
    ensures ReplaceSpaceRuns(s) == "_" + ReplaceSpaceRuns(s[LeadingSpaces(s)..])
  {
  }

  lemma ReplaceSpaceRunsAtWord(s: string)
    requires s != [] && !IsSpace(s[0])
    ensures ReplaceSpaceRuns(s) == [s[0]] + ReplaceSpaceRuns(s[1..])
  {
  }

  /** Replacement works piece by piece when the first piece ends inside a word. */
  lemma {:induction false} ReplaceSpaceRunsAppend(a: string, b: string)
    requires a == [] || !IsSpace(a[|a| - 1])
    ensures ReplaceSpaceRuns(a + b) == ReplaceSpaceRuns(a) + ReplaceSpaceRuns(b)
    decreases |a|, 1
  {
    if a == [] {
      assert a + b == b;
    } else if IsSpace(a[0]) {
      ReplaceSpaceRunsAppendAtSpace(a, b);
    } else {
      ReplaceSpaceRunsAppendAtWord(a, b);
    }
  }

  /** The case of ReplaceSpaceRunsAppend where the first piece starts with a word. */
  lemma {:induction false} ReplaceSpaceRunsAppendAtWord(a: string, b: string)
    requires a != [] && !IsSpace(a[0]) && !IsSpace(a[|a| - 1])
    ensures ReplaceSpaceRuns(a + b) == ReplaceSpaceRuns(a) + ReplaceSpaceRuns(b)
    decreases |a|, 0
  {
    var rest := a[1..];
    assert rest == [] || rest[|rest| - 1] == a[|a| - 1];
    calc {
      ReplaceSpaceRuns(a + b);
    == { assert (a + b)[0] == a[0]; ReplaceSpaceRunsAtWord(a + b); assert (a + b)[1..] == rest + b; }
      [a[0]] + ReplaceSpaceRuns(rest + b);
    == { ReplaceSpaceRunsAppend(rest, b); }
      [a[0]] + (ReplaceSpaceRuns(rest) + ReplaceSpaceRuns(b));
    == { ReplaceSpaceRunsAtWord(a); }
      ReplaceSpaceRuns(a) + ReplaceSpaceRuns(b);
    }
  }

  /** Splitting off the leading run of a piece that ends inside a word, before and after appending. */
  lemma SpaceRunSplit(a: string, b: string)
    requires a != [] && !IsSpace(a[|a| - 1])
    ensures LeadingSpaces(a) < |a|
    ensures LeadingSpaces(a + b) == LeadingSpaces(a)
    ensures (a + b)[LeadingSpaces(a)..] == a[LeadingSpaces(a)..] + b
    ensures !IsSpace(a[LeadingSpaces(a)..][|a| - LeadingSpaces(a) - 1])
  {
    LeadingSpacesAppend(a, b);
  }

  /** The case of ReplaceSpaceRunsAppend where the first piece starts with white space. */
  lemma {:induction false} ReplaceSpaceRunsAppendAtSpace(a: string, b: string)
    requires a != [] && IsSpace(a[0]) && !IsSpace(a[|a| - 1])
    ensures ReplaceSpaceRuns(a + b) == ReplaceSpaceRuns(a) + ReplaceSpaceRuns(b)
    decreases |a|, 0
  {
    SpaceRunSplit(a, b);
    var k := LeadingSpaces(a);
    var rest := a[k..];
    calc {
      ReplaceSpaceRuns(a + b);
    == { assert (a + b)[0] == a[0]; ReplaceSpaceRunsAtSpace(a + b); }
      "_" + ReplaceSpaceRuns(rest + b);
    == { ReplaceSpaceRunsAppend(rest, b); }
      "_" + (ReplaceSpaceRuns(rest) + ReplaceSpaceRuns(b));
    == { ReplaceSpaceRunsAtSpace(a); }
      ReplaceSpaceRuns(a) + ReplaceSpaceRuns(b);
    }
  }

  /** A whole run of white space in front of a word becomes exactly one `_`. */
  lemma ReplaceSpaceRunOfSpaces(run: string, rest: string)
    requires run != [] && forall i :: 0 <= i < |run| ==> IsSpace(run[i])
    requires rest == [] || !IsSpace(rest[0])
    ensures ReplaceSpaceRuns(run + rest) == "_" + ReplaceSpaceRuns(rest)
  {
    LeadingSpacesOfRun(run, rest);
    assert (run + rest)[|run|..] == rest;
  }

  /** The characters that are neither white space nor `_`, in order. */
  function Visible(s: string): string {
    if s == [] then []
    else (if IsSpace(s[0]) || s[0] == '_' then [] else [s[0]]) + Visible(s[1..])
  }

  lemma {:induction false} VisibleSkipsSpaces(s: string, k: nat)
    requires k <= |s| && forall i :: 0 <= i < k ==> IsSpace(s[i])
    ensures Visible(s) == Visible(s[k..])
  {
    if k > 0 {
      VisibleSkipsSpaces(s[1..], k - 1);
      assert s[1..][k - 1..] == s[k..];
    }
  }

  /** The name's characters other than white space and `_` survive, in order. */
  lemma {:induction false} ReplaceSpaceRunsKeepsVisible(s: string)
    ensures Visible(ReplaceSpaceRuns(s)) == Visible(s)
    decreases |s|
  {
    if s == [] {
    } else if IsSpace(s[0]) {
      var k := LeadingSpaces(s);
      var r := ReplaceSpaceRuns(s[k..]);
      assert ("_" + r)[1..] == r;
      VisibleSkipsSpaces(s, k);
      ReplaceSpaceRunsKeepsVisible(s[k..]);
    } else {
      var r := ReplaceSpaceRuns(s[1..]);
      assert ([s[0]] + r)[1..] == r;
      ReplaceSpaceRunsKeepsVisible(s[1..]);
    }
  }

  const FilePrefix := "HNG2025_"

  /**
   * `HNG2025_${fullName.replace(/\s+/g, "_")}_ID.${ext}`: no white space, and at
   * most the name plus the prefix, `_ID.` and the extension.
   */
  function DownloadFilename(fullName: string, ext: string): (r: string)
    requires NoSpace(ext)
    ensures NoSpace(r)
    ensures |r| <= |fullName| + 12 + |ext|
  {
    var stem := ReplaceSpaceRuns(fullName);
    ReplaceSpaceRunsRemovesSpace(fullName);
    NoSpaceAppend(FilePrefix, stem);
    NoSpaceAppend(FilePrefix + stem, "_ID.");
    NoSpaceAppend(FilePrefix + stem + "_ID.", ext);
    FilePrefix + stem + "_ID." + ext
  }

  /** The name of the PNG download for a ticket holder. */
  function PngFilename(fullName: string): (r: string)
    ensures NoSpace(r)
    ensures |r| <= |fullName| + 15
  {
    DownloadFilename(fullName, "png")
  }

  /** The name of the PDF download for a ticket holder. */
  function PdfFilename(fullName: string): (r: string)
    ensures NoSpace(r)
    ensures |r| <= |fullName| + 15
  {
    DownloadFilename(fullName, "pdf")
  }

  lemma NoSpaceAppend(a: string, b: string)
    requires NoSpace(a) && NoSpace(b)
    ensures NoSpace(a + b)
  {
    forall i | 0 <= i < |a + b| ensures !IsSpace((a + b)[i]) {
      if i < |a| {
        assert (a + b)[i] == a[i];
      } else {
        assert (a + b)[i] == b[i - |a|];
      }
    }
  }

  /**
   * Both file names contain no white space, share everything but the
   * three-letter extension, and keep the name's visible characters.
   */
  lemma DownloadFilenames(fullName: string)
    ensures NoSpace(PngFilename(fullName)) && NoSpace(PdfFilename(fullName))
    ensures var png, pdf := PngFilename(fullName), PdfFilename(fullName);
      |png| == |pdf| && png[..|png| - 3] == pdf[..|pdf| - 3]
      && png[|png| - 3..] == "png" && pdf[|pdf| - 3..] == "pdf"
    ensures var stem := PngFilename(fullName)[|FilePrefix|..|PngFilename(fullName)| - 7];
      Visible(stem) == Visible(fullName)
  {
    var r := ReplaceSpaceRuns(fullName);
    var png := PngFilename(fullName);
    assert png[|FilePrefix|..|png| - 7] == r;
    ReplaceSpaceRunsKeepsVisible(fullName);
  }

  // ---------------------------------------------------------------------------
  // Avatar placeholder
  // ---------------------------------------------------------------------------

  /** What the photo box of a card shows. */
  datatype AvatarView = Photo(url: string) | Placeholder(initial: string)

  /** `fullName?.charAt(0) || "?"`. */
  function AvatarInitial(fullName: string): (r: string)
    ensures |r| == 1
    ensures fullName != [] ==> r[0] == fullName[0]
    ensures fullName == [] ==> r == "?"
  {
    if fullName == [] then "?" else fullName[..1]
  }

  /** A card shows the photo when the avatar is set and the initial otherwise. */
  function CardAvatar(ticket: Ticket): (v: AvatarView)
    ensures v.Photo? <==> ticket.avatar != ""
    ensures v.Photo? ==> v.url == ticket.avatar
    ensures v.Placeholder? ==> v.initial == AvatarInitial(ticket.fullName)
  {
    if ticket.avatar != "" then Photo(ticket.avatar) else Placeholder(AvatarInitial(ticket.fullName))
  }
}
