/**
 * The attendee form: the records the user fills in, one per ticket, how they
 * are kept in step with the ticket count, edited and given an uploaded avatar,
 * and the two checks that gate submission.
 */
module Form {
  import opened Wrappers
  import opened Text

  /** One attendee record `{fullName, email, avatar}`. */
  datatype Attendee = Attendee(fullName: string, email: string, avatar: string)

  /** The `name` attribute of the three inputs of a record. */
  datatype Field = FullName | Email | Avatar

  /** A record tagged with the ticket type, as handed to the submit callback. */
  datatype Ticket = Ticket(fullName: string, email: string, avatar: string, ticketType: string)

  /** How an avatar upload ended: no file picked, a hosted URL, or any failure. */
  datatype UploadOutcome = NoFile | Uploaded(url: string) | UploadFailed

  const EmptyAttendee := Attendee("", "", "")

  const RequiredMessage := "Full Name and Email are required."
  const InvalidEmailMessage := "Please enter a valid email."
  const UploadFailedMessage := "Failed to upload image. Please try again."

  function Get(a: Attendee, f: Field): string {
    match f
    case FullName => a.fullName
    case Email => a.email
    case Avatar => a.avatar
  }

  /** `{ ...a, [f]: v }`: the record with one field replaced. */
  function WithField(a: Attendee, f: Field, v: string): (r: Attendee)
    ensures Get(r, f) == v
    ensures forall g :: g != f ==> Get(r, g) == Get(a, g)
  {
    match f
    case FullName => a.(fullName := v)
    case Email => a.(email := v)
    case Avatar => a.(avatar := v)
  }

  // ---------------------------------------------------------------------------
  // Keeping the records in step with the ticket count
  // ---------------------------------------------------------------------------

  /**
   * `Array.from({length: n}, (_, i) => prev[i] || empty)`: exactly `n` records,
   * the old ones kept by index, fresh empty ones after them.
   */
  function Resized(prev: seq<Attendee>, n: nat): (r: seq<Attendee>)
    ensures |r| == n
    ensures forall i :: 0 <= i < n && i < |prev| ==> r[i] == prev[i]
    ensures forall i :: |prev| <= i < n ==> r[i] == EmptyAttendee
  {
    seq(n, i requires 0 <= i < n => if i < |prev| then prev[i] else EmptyAttendee)
  }

  /** Shrinking keeps a prefix. */
  lemma ResizedShrinkIsPrefix(prev: seq<Attendee>, n: nat)
    requires n <= |prev|
    ensures Resized(prev, n) == prev[..n]
  {
  }

  /** Resizing to the current length changes nothing. */
  lemma ResizedToSameLength(prev: seq<Attendee>)
    ensures Resized(prev, |prev|) == prev
  {
  }

  /** Two resizes are one when the first one dropped nothing the second one keeps. */
  lemma ResizedTwice(prev: seq<Attendee>, m: nat, n: nat)
    requires n <= m || |prev| <= m
    ensures Resized(Resized(prev, m), n) == Resized(prev, n)
  {
  }

  /** Records dropped by shrinking come back empty when the count grows again. */
  lemma ShrinkThenGrowForgets(prev: seq<Attendee>, m: nat, n: nat, i: nat)
    requires m <= i < n
    ensures Resized(Resized(prev, m), n)[i] == EmptyAttendee
  {
  }

  // ---------------------------------------------------------------------------
  // Editing one slot
  // ---------------------------------------------------------------------------

  /** `newData[index] = { ...newData[index], [field]: value }` on a copy of `data`. */
  function Edited(data: seq<Attendee>, index: nat, field: Field, value: string): (r: seq<Attendee>)
    requires index < |data|
    ensures |r| == |data|
    ensures forall j :: 0 <= j < |data| && j != index ==> r[j] == data[j]
    ensures Get(r[index], field) == value
    ensures forall g :: g != field ==> Get(r[index], g) == Get(data[index], g)
  {
    data[index := WithField(data[index], field, value)]
  }

  /** Of two writes to the same field of the same slot, the last one wins. */
  lemma EditedLastWriteWins(data: seq<Attendee>, index: nat, field: Field, v: string, w: string)
    requires index < |data|
    ensures Edited(Edited(data, index, field, v), index, field, w) == Edited(data, index, field, w)
  {
  }

  /** Writes to different fields, or to different slots, commute. */
  lemma EditsCommute(data: seq<Attendee>, i: nat, f: Field, v: string, j: nat, g: Field, w: string)
    requires i < |data| && j < |data|
    requires i != j || f != g
    ensures Edited(Edited(data, i, f, v), j, g, w) == Edited(Edited(data, j, g, w), i, f, v)
  {
  }

  // ---------------------------------------------------------------------------
  // The email pattern /^[^\s@]+@[^\s@]+\.[^\s@]+$/
  // ---------------------------------------------------------------------------

  /** Every character is matched by `[^\s@]`. */
  predicate Plain(t: string) {
    forall i :: 0 <= i < |t| ==> !IsSpace(t[i]) && t[i] != '@'
  }

  /**
   * `s` is in the language of the anchored pattern: it splits as
   * local `@` domain-head `.` domain-tail, the three parts non-empty and `Plain`.
   */
  predicate IsEmail(s: string)
    ensures IsEmail(s) ==> 5 <= |s| && s[0] != '@' && !IsSpace(s[0]) && s[|s| - 1] != '@'
  {
    exists at, dot | 0 < at < |s| && 0 < dot < |s| ::
      at + 1 < dot && dot + 1 < |s| && s[at] == '@' && s[dot] == '.'
      && Plain(s[..at]) && Plain(s[at + 1..dot]) && Plain(s[dot + 1..])
  }

  /**
   * The pattern in words: no white space, exactly one `@`, a non-empty part
   * before it, and a `.` after it with at least one character on each side.
   */
  ghost predicate EmailShape(s: string) {
    NoSpace(s)
    && exists at, dot | 0 < at < |s| && 0 < dot < |s| ::
      s[at] == '@' && (forall k | 0 <= k < |s| && s[k] == '@' :: k == at)
      && at + 1 < dot < |s| - 1 && s[dot] == '.'
  }

  /** A string the pattern matches has the shape. */
  lemma PatternGivesShape(s: string)
    requires IsEmail(s)
    ensures EmailShape(s)
  {
    var at, dot :| 0 < at < |s| && 0 < dot < |s|
      && at + 1 < dot && dot + 1 < |s| && s[at] == '@' && s[dot] == '.'
      && Plain(s[..at]) && Plain(s[at + 1..dot]) && Plain(s[dot + 1..]);
    forall i | 0 <= i < |s| ensures !IsSpace(s[i]) && (s[i] == '@' ==> i == at) {
      if i < at {
        assert s[..at][i] == s[i];
      } else if at < i < dot {
        assert s[at + 1..dot][i - at - 1] == s[i];
      } else if dot < i {
        assert s[dot + 1..][i - dot - 1] == s[i];
      }
    }
  }

  /** A string of the shape is matched by the pattern. */
  lemma ShapeGivesPattern(s: string)
    requires EmailShape(s)
    ensures IsEmail(s)
  {
    var at, dot :| 0 < at < |s| && 0 < dot < |s|
      && s[at] == '@' && (forall k | 0 <= k < |s| && s[k] == '@' :: k == at)
      && at + 1 < dot < |s| - 1 && s[dot] == '.';
    assert Plain(s[..at]) by {
      forall i | 0 <= i < at ensures !IsSpace(s[..at][i]) && s[..at][i] != '@' {
        assert s[..at][i] == s[i];
      }
    }
    var head, tail := s[at + 1..dot], s[dot + 1..];
    assert Plain(head) by {
      forall i | 0 <= i < |head| ensures !IsSpace(head[i]) && head[i] != '@' {
        assert head[i] == s[at + 1 + i];
      }
    }
    assert Plain(tail) by {
      forall i | 0 <= i < |tail| ensures !IsSpace(tail[i]) && tail[i] != '@' {
        assert tail[i] == s[dot + 1 + i];
      }
    }
  }

  lemma EmailPatternMeansShape(s: string)
    ensures IsEmail(s) <==> EmailShape(s)
  {
    if IsEmail(s) {
      PatternGivesShape(s);
    }
    if EmailShape(s) {
      ShapeGivesPattern(s);
    }
  }

  /** The empty string is not an email, so an empty email fails both checks. */
  lemma EmptyIsNotEmail()
    ensures !IsEmail("")
  {
  }

  // ---------------------------------------------------------------------------
  // Submission
  // ---------------------------------------------------------------------------

  /**
   * Both required fields are non-empty (`fullName` and `email` are truthy).
   * A record that fails this check has no name or an email that fails the pattern.
   */
  predicate Filled(a: Attendee)
    ensures !Filled(a) ==> a.fullName == "" || !IsEmail(a.email)
  {
    a.fullName != "" && a.email != ""
  }

  /**
   * A record that passes both checks of the submit handler. The first check's
   * demand for a non-empty email adds nothing to the pattern's.
   */
  predicate Acceptable(a: Attendee)
    ensures Acceptable(a) <==> a.fullName != "" && IsEmail(a.email)
  {
    Filled(a) && IsEmail(a.email)
  }

  /** `{ ...a, type }`: the record tagged with the ticket type and nothing else changed. */
  function Tag(a: Attendee, ticketType: string): (t: Ticket)
    ensures Untag(t) == a && t.ticketType == ticketType
  {
    Ticket(a.fullName, a.email, a.avatar, ticketType)
  }

  function Untag(t: Ticket): Attendee {
    Attendee(t.fullName, t.email, t.avatar)
  }

  /** `data.map(d => ({ ...d, type }))`. */
  function TagAll(data: seq<Attendee>, ticketType: string): (r: seq<Ticket>)
    ensures |r| == |data|
    ensures forall i :: 0 <= i < |data| ==> Untag(r[i]) == data[i] && r[i].ticketType == ticketType
  {
    seq(|data|, i requires 0 <= i < |data| => Tag(data[i], ticketType))
  }

  /**
   * The checks of the submit handler, in order: the required-field check over
   * every record, then the pattern check over every email; on success every
   * record is tagged with the ticket type.
   */
  function Submit(data: seq<Attendee>, ticketType: string): (r: Result<seq<Ticket>, string>)
    ensures r.Ok? <==> forall i :: 0 <= i < |data| ==> Acceptable(data[i])
    ensures r.Ok? ==> r.value == TagAll(data, ticketType)
    ensures r.Err? ==> (r.error == RequiredMessage <==> exists i :: 0 <= i < |data| && !Filled(data[i]))
    ensures r.Err? ==> r.error == RequiredMessage || r.error == InvalidEmailMessage
  {
    if exists i | 0 <= i < |data| :: data[i].fullName == "" || data[i].email == "" then
      Err(RequiredMessage)
    else if exists i | 0 <= i < |data| :: !IsEmail(data[i].email) then
      Err(InvalidEmailMessage)
    else
      Ok(TagAll(data, ticketType))
  }

  /** Submission is all-or-nothing: a list passes iff both of its halves pass. */
  lemma SubmitAppend(a: seq<Attendee>, b: seq<Attendee>, ticketType: string)
    ensures Submit(a + b, ticketType).Ok? <==> Submit(a, ticketType).Ok? && Submit(b, ticketType).Ok?
    ensures Submit(a + b, ticketType).Ok? ==> Submit(a + b, ticketType).value == Submit(a, ticketType).value + Submit(b, ticketType).value
  {
    var ab := a + b;
    if Submit(ab, ticketType).Ok? {
      forall i | 0 <= i < |a| ensures Acceptable(a[i]) {
        assert ab[i] == a[i];
      }
      forall i | 0 <= i < |b| ensures Acceptable(b[i]) {
        assert ab[|a| + i] == b[i];
      }
      assert TagAll(ab, ticketType) == TagAll(a, ticketType) + TagAll(b, ticketType);
    }
    if Submit(a, ticketType).Ok? && Submit(b, ticketType).Ok? {
      forall i | 0 <= i < |ab| ensures Acceptable(ab[i]) {
        if i < |a| {
          assert ab[i] == a[i];
        } else {
          assert ab[i] == b[i - |a|];
        }
      }
    }
  }

  /** Fresh empty slots left by growing the count always block submission. */
  lemma GrownFormIsRejected(prev: seq<Attendee>, n: nat, ticketType: string)
    requires |prev| < n
    ensures Submit(Resized(prev, n), ticketType) == Err(RequiredMessage)
  {
    assert !Filled(Resized(prev, n)[|prev|]);
  }

  /** Only non-emptiness is asked of a name: a one-letter name passes. */
  lemma OneLetterNameIsAccepted()
    ensures Submit([Attendee("A", "a@b.c", "")], "Standard").Ok?
  {
    var s := "a@b.c";
    assert s[1] == '@' && s[3] == '.';
    assert Plain(s[..1]) && Plain(s[2..3]) && Plain(s[4..]);
    assert IsEmail(s);
  }

  // ---------------------------------------------------------------------------
  // The form component
  // ---------------------------------------------------------------------------

  /**
   * The state of the form: the ticket type and count it was given, the
   * records, the single error line, and whether the cards view is shown.
   */
  class TicketForm {
    const selectedTicket: string
    var ticketCount: nat
    var formData: seq<Attendee>
    var error: string
    var submitted: bool

    /** There is one record per ticket. */
    ghost predicate Valid()
      reads this
    {
      |formData| == ticketCount
    }

    /**
     * Mounting the form: the records restored from storage (`stored`), then the
     * resize effect that runs for the initial ticket count.
     */
    constructor (selectedTicket: string, ticketCount: nat, stored: seq<Attendee>)
      ensures Valid()
      ensures this.selectedTicket == selectedTicket && this.ticketCount == ticketCount
      ensures formData == Resized(stored, ticketCount)
      ensures error == "" && !submitted
    {
      this.selectedTicket := selectedTicket;
      this.ticketCount := ticketCount;
      formData := stored;
      error := "";
      submitted := false;
      new;
      SyncCount(ticketCount);
    }

    /** The resize effect that runs when the ticket count changes. */
    method SyncCount(n: nat)
      modifies this
      ensures Valid() && ticketCount == n
      ensures formData == Resized(old(formData), n)
      ensures error == old(error) && submitted == old(submitted)
    {
      ticketCount := n;
      formData := Resized(formData, n);
    }

    /** One input of one record changed. */
    method HandleChange(index: nat, field: Field, value: string)
      requires Valid() && index < ticketCount
      modifies this
      ensures Valid() && ticketCount == old(ticketCount)
      ensures formData == Edited(old(formData), index, field, value)
      ensures error == old(error) && submitted == old(submitted)
    {
      formData := Edited(formData, index, field, value);
    }

    /**
     * The effect of an avatar upload for record `index` once it has finished:
     * a hosted URL goes into that record's avatar, a failure sets the error line
     * and leaves the records alone.
     */
    method HandleImageUpload(index: nat, outcome: UploadOutcome)
      requires Valid()
      requires outcome.Uploaded? ==> index < ticketCount
      modifies this
      ensures Valid() && ticketCount == old(ticketCount) && submitted == old(submitted)
      ensures match outcome
        case NoFile => formData == old(formData) && error == old(error)
        case Uploaded(url) => formData == Edited(old(formData), index, Avatar, url) && error == old(error)
        case UploadFailed => formData == old(formData) && error == UploadFailedMessage
    {
      match outcome
      case NoFile =>
      case Uploaded(url) =>
        formData := Edited(formData, index, Avatar, url);
      case UploadFailed =>
        error := UploadFailedMessage;
    }

    /**
     * The submit handler: clears the error line, runs the two checks, and either
     * shows the failing check's message or switches to the cards view and
     * emits the tagged records.
     */
    method HandleSubmit() returns (emitted: Option<seq<Ticket>>)
      requires Valid()
      modifies this
      ensures Valid() && formData == old(formData) && ticketCount == old(ticketCount)
      ensures match Submit(formData, selectedTicket)
        case Ok(tickets) => emitted == Some(tickets) && error == "" && submitted
        case Err(message) => emitted == None && error == message && submitted == old(submitted)
    {
      error := "";
      var checked := Submit(formData, selectedTicket);
      match checked
      case Err(message) =>
        error := message;
        emitted := None;
      case Ok(tickets) =>
        submitted := true;
        emitted := Some(tickets);
    }
  }
}
