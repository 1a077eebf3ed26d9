# Ticket generator: a verified model of the booking flow

This project models the logic behind a client-side event-ticket registration app. The user first picks a ticket tier (Standard, VIP or Interns) and a count from 1 to 10. They then fill in one attendee record `{fullName, email, avatar}` per ticket and can upload an avatar. On a successful submit the records come back tagged with the tier. A summary view prices the booking and gives each ticket a reference, a QR payload, download file names and an avatar placeholder.

Modules, one per source file, plus two helpers:

- `Form` (`ticket_form.dfy`) models the attendee form, and is partly pure and partly stateful.
  - The pure functions are the resize of the record list to the ticket count, the one-field edit, the email pattern, and the two submit checks with their tagging.
  - The class `TicketForm` holds the records, the error line and the submitted flag. Its handlers (`SyncCount`, `HandleChange`, `HandleImageUpload`, `HandleSubmit`) replace those fields.
- `Summary` (`ticket_summary.dfy`) is pure. It covers the price rule, the per-ticket reference and QR payload, the card footer, the `\s+` to `_` file names and the avatar placeholder.
- `Selection` (`ticket_selection.dfy`) models the selection screen.
  - It defines the catalog and the offered counts.
  - The class `TicketSelection` has the tier click, the count change and the guarded continue event.
- `Flow` (`app.dfy`) models the app controller.
  - The class `App` holds tier, count and tickets, with its select, submit and back handlers and the screen choice.
  - `VipBooking` drives the whole flow once through a failed and then a successful submit.
- `Text` (`text.dfy`) holds two helpers. One is the white-space class `\s` of JavaScript regular expressions, written out as a finite set. The other is the decimal text of a whole number, with its inverse.
- `Wrappers` (`wrappers.dfy`) holds `Option` for `null` and `Result` for the handlers' early returns.

JavaScript's `null` is `None`. A tier's truthiness is modelled exactly: `None` and `""` are falsy. Strings are `seq<char>`.

What the code does, where a reader might expect more:
- The name is checked only for being non-empty. A one-letter name passes (`Form.OneLetterNameIsAccepted`).
- A record has exactly three fields: `fullName`, `email` and `avatar`. The form keeps one error string, set to the message of the first check that fails.
- Shrinking the count truncates the records. Growing it again brings back empty records, not the dropped ones (`Form.ShrinkThenGrowForgets`).
- `src/App.jsx` neither generates a booking reference nor renders the summary component. The summary's functions are modelled as the pure functions they are, with the booking reference as a parameter.
- The QR payload has exactly these seven fields: `bookingRef`, `name`, `email`, `type`, `event`, `date` and `venue`. Its `type` is the summary's selected tier, not the ticket's tagged type.

## Model

| member | source | states |
|---|---|---|
| `Text.Decimal` | src/TicketSummary.jsx:22 | the template-literal text of a whole number is non-empty, all digits, and has no leading zero unless the number is 0 |
| `Text.ParseDecimalOfDecimal` | src/TicketSummary.jsx:22 | reading the decimal text back gives the number: the text determines the number |
| `Text.DecimalInjective` | src/TicketSummary.jsx:22 | different numbers never have the same decimal text |
| `Text.IsSpace` | src/TicketSummary.jsx:45 | the `\s` class holds space, tab and newline, and no digit, ASCII letter or any of `@ . _ - #` |
| `Form.WithField` | src/TicketForm.jsx:44 | the spread-and-override sets the named field to the value and keeps the other two fields |
| `Form.Resized` | src/TicketForm.jsx:30-38 | after resizing to n there are exactly n records; record i is the old one for i below the old length, otherwise the empty record |
| `Form.ResizedShrinkIsPrefix` | src/TicketForm.jsx:32-35 | shrinking keeps exactly the first n old records |
| `Form.ResizedToSameLength` | src/TicketForm.jsx:32-35 | resizing to the current length changes nothing |
| `Form.ResizedTwice` | src/TicketForm.jsx:32-35 | two resizes equal one when the first dropped nothing the second keeps |
| `Form.ShrinkThenGrowForgets` | src/TicketForm.jsx:32-35 | records dropped by a shrink come back empty when the count grows again |
| `Form.Edited` | src/TicketForm.jsx:42-46 | an edit changes only the named field of the indexed record; the length, every other record and the other fields are unchanged |
| `Form.EditedLastWriteWins` | src/TicketForm.jsx:42-46 | of two writes to one field of one record, the later one is what remains |
| `Form.EditsCommute` | src/TicketForm.jsx:42-46 | writes to different records, or to different fields, can be done in either order |
| `Form.IsEmail` | src/TicketForm.jsx:87 | a string matching the pattern has at least five characters, and neither starts with `@` or white space nor ends with `@` |
| `Form.PatternGivesShape` | src/TicketForm.jsx:87 | a string the pattern matches has no white space, exactly one `@` with a non-empty part before it, and a later `.` with a character on each side |
| `Form.ShapeGivesPattern` | src/TicketForm.jsx:87 | a string of that shape is matched by the pattern |
| `Form.EmailPatternMeansShape` | src/TicketForm.jsx:87 | a string matches the email pattern iff it has no white space, exactly one `@` with a non-empty part before it, and a `.` after the `@` with at least one character on each side |
| `Form.EmptyIsNotEmail` | src/TicketForm.jsx:87 | the empty string fails the pattern |
| `Form.Filled` | src/TicketForm.jsx:82 | a record failing the required-field check has an empty name or an email that fails the pattern |
| `Form.Acceptable` | src/TicketForm.jsx:82-90 | a record passes both checks iff its name is non-empty and its email matches the pattern; the first check's email test adds nothing |
| `Form.Tag` | src/TicketForm.jsx:93 | tagging adds the ticket type; removing the tag gives back the original record |
| `Form.TagAll` | src/TicketForm.jsx:93 | the tagged list has the same length, and entry i is record i with the type added and nothing else changed |
| `Form.Submit` | src/TicketForm.jsx:78-94 | submission succeeds iff every record has a name, an email and an email matching the pattern; on success the result is the tagged list; on failure the message is the required-field one exactly when some record lacks a name or email, otherwise the invalid-email one |
| `Form.SubmitAppend` | src/TicketForm.jsx:82-93 | submission is all-or-nothing: a list passes iff both of its parts pass, and the tagged result is the concatenation of the parts' results |
| `Form.GrownFormIsRejected` | src/TicketForm.jsx:30-38 | after growing the count, the fresh empty slots make submission fail with the required-field message |
| `Form.OneLetterNameIsAccepted` | src/TicketForm.jsx:82 | a one-letter name with a valid email passes; only non-emptiness is checked |
| `Form.TicketForm.constructor` | src/TicketForm.jsx:12-38 | mounting starts from the stored records, resized to the ticket count, with an empty error line and the form view shown |
| `Form.TicketForm.SyncCount` | src/TicketForm.jsx:30-38 | the count effect replaces the records by their resize to the new count and changes nothing else |
| `Form.TicketForm.HandleChange` | src/TicketForm.jsx:40-47 | an input change replaces the records by the one-field edit; count, error line and view are unchanged |
| `Form.TicketForm.HandleImageUpload` | src/TicketForm.jsx:49-76 | no file leaves everything unchanged; a hosted URL sets only that record's avatar; a failure leaves the records unchanged and sets the upload-failed message |
| `Form.TicketForm.HandleSubmit` | src/TicketForm.jsx:78-94 | submit keeps the records; when the checks pass it clears the error, switches to the cards view and emits the tagged list, otherwise it emits nothing and shows the failing check's message |
| `Summary.UnitPrice` | src/TicketSummary.jsx:16 | a tier costs between 10 and 100, and exactly 50 for any tier other than VIP and Interns |
| `Summary.TotalAmount` | src/TicketSummary.jsx:14-16 | the total is 0 exactly for no tickets, and lies between 10 and 100 per ticket |
| `Summary.TotalAmountIsSumOfOwnPrices` | src/TicketSummary.jsx:14-16 | when every ticket carries the selected tier, the total equals the sum of each ticket's own tier price |
| `Summary.TotalAmountMonotone` | src/TicketSummary.jsx:14-16 | more tickets never cost less |
| `Summary.TicketReference` | src/TicketSummary.jsx:22 | a ticket reference is the booking reference, a `-`, and a non-empty run of digits with no leading zero |
| `Summary.TicketReferenceNumber` | src/TicketSummary.jsx:22 | a ticket reference is the booking reference, a `-`, then digits that read back as index + 1 |
| `Summary.TicketReferencesDistinct` | src/TicketSummary.jsx:22 | two tickets of one booking never share a reference |
| `Summary.QRData` | src/TicketSummary.jsx:20-30 | the payload carries the ticket's name and email, the selected tier as its type, the fixed event, date and venue, and a reference whose number reads back as index + 1 |
| `Summary.QRPayloadsDistinct` | src/TicketSummary.jsx:20-30 | two tickets of one booking never share a QR payload, even with identical attendee data |
| `Summary.CardFooterReference` | src/TicketSummary.jsx:215-217 | the footer is `#` followed by the ticket reference |
| `Summary.CardFooterMatchesQR` | src/TicketSummary.jsx:215-217 | the card footer shows `#` followed by the same reference as the QR payload |
| `Summary.QRDataOfSubmittedTickets` | src/TicketSummary.jsx:20-30 | for tickets from a successful submit, the payload's name and email are the record's, its type is the tagged tier, and event, date and venue are the fixed constants |
| `Summary.ReplaceSpaceRuns` | src/TicketSummary.jsx:45 | the replaced name is never longer than the name, and is empty only for the empty name |
| `Summary.ReplaceSpaceRunsRemovesSpace` | src/TicketSummary.jsx:45 | the replaced name contains no white space |
| `Summary.ReplaceSpaceRunsKeepsPlainText` | src/TicketSummary.jsx:45 | a name without white space is unchanged |
| `Summary.ReplaceSpaceRunsIdempotent` | src/TicketSummary.jsx:45 | applying the replacement twice is the same as once |
| `Summary.ReplaceSpaceRunsAppend` | src/TicketSummary.jsx:45 | the replacement works piece by piece across a split that falls right after a non-space character |
| `Summary.ReplaceSpaceRunOfSpaces` | src/TicketSummary.jsx:45 | a whole run of white space before a word becomes exactly one `_` |
| `Summary.ReplaceSpaceRunsKeepsVisible` | src/TicketSummary.jsx:45 | the name's characters other than white space and `_` are kept, in order |
| `Summary.DownloadFilename` | src/TicketSummary.jsx:45-72 | a download name with a white-space-free extension has no white space and is at most the name plus 12 characters plus the extension |
| `Summary.PngFilename` | src/TicketSummary.jsx:45 | the PNG name has no white space and is at most 15 characters longer than the name |
| `Summary.PdfFilename` | src/TicketSummary.jsx:72 | the PDF name has no white space and is at most 15 characters longer than the name |
| `Summary.DownloadFilenames` | src/TicketSummary.jsx:45-72 | the PNG and PDF names contain no white space, differ only in the three-letter extension, and their stem keeps the name's visible characters |
| `Summary.AvatarInitial` | src/TicketSummary.jsx:158 | the placeholder is one character: the first character of the name, or `?` when the name is empty |
| `Summary.CardAvatar` | src/TicketSummary.jsx:142-159 | a card shows the photo exactly when the avatar is set, otherwise the placeholder initial |
| `Selection.CountOptions` | src/TicketSelection.jsx:51-55 | the drop-down offers ten values, exactly the numbers 1 to 10 |
| `Selection.CatalogMatchesPriceRule` | src/TicketSelection.jsx:8-12 | each catalog entry's price label is `$` followed by the summary's price for that tier |
| `Selection.CatalogTiers` | src/TicketSelection.jsx:8-12 | the catalog lists Standard, VIP and Interns, each once |
| `Selection.TicketSelection.constructor` | src/TicketSelection.jsx:5-6 | the screen starts with no tier and count 1 |
| `Selection.TicketSelection.SelectTier` | src/TicketSelection.jsx:34 | clicking a tier sets it to that catalog entry's type and keeps the count |
| `Selection.TicketSelection.ChangeCount` | src/TicketSelection.jsx:48 | choosing a count sets it and keeps the tier; the count stays one of 1 to 10 |
| `Selection.TicketSelection.CanContinue` | src/TicketSelection.jsx:60 | the continue button shows only with a tier and a count of at least 1, and on a valid screen always once a tier is chosen |
| `Selection.TicketSelection.ContinueOnceTierChosen` | src/TicketSelection.jsx:60 | on a valid screen the continue button shows exactly when a tier is chosen, and the count is then between 1 and 10 |
| `Selection.TicketSelection.Continue` | src/TicketSelection.jsx:60-63 | continue emits a payload exactly when a tier is chosen and the count is positive, and the payload is exactly the current tier and count |
| `Flow.App.constructor` | src/App.jsx:6-8 | the app starts with no tier, count 1 and no tickets, on the selection screen |
| `Flow.App.CurrentScreen` | src/App.jsx:26 | the form screen shows only with a tier set, and always for a catalog tier |
| `Flow.App.HandleSelectTicket` | src/App.jsx:10-13 | selecting sets tier and count from the payload and keeps the tickets; the form screen shows iff the tier is non-empty |
| `Flow.App.HandleFormSubmit` | src/App.jsx:15-17 | submitting replaces only the tickets; tier and count are unchanged |
| `Flow.App.HandleBack` | src/App.jsx:19-22 | going back clears the tier and the tickets, keeps the count, and shows the selection screen |
| `Flow.SecondOfTwoMissing` | src/TicketForm.jsx:82-85 | with two records where the second lacks a name or an email, submission fails with the required-field message, whatever the first record is |
| `Flow.TwoAccepted` | src/TicketForm.jsx:82-93 | two records that both pass the checks come back as the two tagged tickets, in order |
| `Flow.VipBooking` | src/App.jsx:24-35 | booking two VIP tickets with the second record empty is rejected with the required-field message; once filled in, both records come back tagged VIP |

## Left out

- Local-storage persistence (src/TicketForm.jsx:8-10, 26-28): the stored records are a parameter of the form's constructor. Malformed stored values (non-arrays, records missing fields) are not modelled.
- The upload request itself (src/TicketForm.jsx:53-66) is left out. Only its outcome is modelled: no file, a URL, or a failure. It is applied to the state that exists when the upload completes.
- Rasterisation, PDF generation, printing, QR rendering and link clicks (src/TicketSummary.jsx:32-78, src/TicketForm.jsx:96-103) are calls into external libraries. This includes the form's own `ticket_N.png` download name.
- `JSON.stringify` of the QR payload: the payload is modelled as a record of fields, not as text.
- src/indexedDBService.js and tailwind.config.js are not part of this model.
- JSX markup, styling, animations and the browser's own checks of `required` and `type="email"` inputs, which can stop a submit before the handler runs.
- `Form.TicketForm.HandleChange` and `Form.TicketForm.HandleImageUpload` require the index to be below the ticket count, which is the number of records. The page only offers inputs for existing records. An out-of-range write in JavaScript would make a sparse array or throw.
- `Summary.AvatarInitial` gives the first Unicode scalar value. JavaScript's `charAt(0)` gives the first UTF-16 code unit, which differs for characters outside the Basic Multilingual Plane.
- `Text.Decimal` models number-to-text only for whole non-negative numbers. JavaScript's exponent notation from 1e21 up is not modelled. Indices and totals here are small.
- Counts, indices and amounts are unbounded integers. JavaScript numbers are doubles, which are exact at these sizes.
