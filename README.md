# Appointment notification tasks of the Lutece workflow-appointment module, in Dafny

This project models the notification core of the Lutece `workflow-appointment`
module and proves properties of that model.

- **The calendar encoder** (`ICalService`) builds an iCalendar (RFC 5545)
  invitation for an appointment and hands it to the mail transport. It reads a
  time-zone calendar file, then builds a VEVENT with these properties, in order:
  - DTSTART, DTEND, SUMMARY and a UID of `"appointment" + id`;
  - one ATTENDEE per address of the required list, then one per address of
    the optional list, each list split on the configured separator;
  - ORGANIZER, LOCATION and DESCRIPTION;
  - X-ALT-DESC with `FMTTYPE=text/html`, present only when the description
    looks like HTML.

  The description is folded by the module's own folding routine. The calendar
  gets METHOD (REQUEST when the appointment is created, CANCEL otherwise),
  PRODID, VERSION:2.0 and CALSCALE:GREGORIAN.
- **The base notification task** (`AbstractTaskNotifyAppointment`):
  - checks its inputs;
  - normalises the sender of its configuration object in place: the no-reply
    address replaces an empty or invalid one, and a blank name becomes the
    address;
  - renders the subject and the body from a template model;
  - makes at most one call: a calendar invitation, an HTML mail with copies, or
    a plain HTML mail. No call is made when the calendar invitation aborts on
    the time-zone file.

  The template model maps marker names to values (the last marker of a name
  wins). It includes a recap of the appointment's form responses. The task can
  also derive an SMS gateway address from the first phone-number answer.
- **The administrator task** (`TaskNotifyAdminAppointment`):
  - chooses the administrator: the one of the task configuration when its id is
    positive, otherwise the one assigned to the appointment;
  - notifies that administrator;
  - adds a cancel URL and a validate URL to the model.
- **The CRM task** (`TaskNotifyAppointementCrm`) creates a CRM demand for the
  appointment's user. When a demand id comes back, it notifies that demand with
  a message. The message's `${firstName}`, `${lastName}`, `${reference}` and
  `${date_appointment}` placeholders are substituted one after the other.

Java's mutable objects keep their form:
- The event, the calendar, the string tokenizer, the notification settings
  object and the template model map are classes. Their methods append to
  their fields or rewrite them.
- Each method is proved equal to a specification function. Properties are
  proved about that function.
- Null references are `Option` values.
- An exception that escapes is an outcome of its own (`Raised`, `Threw`,
  `NullDereference`).
- Calls to the mail transport and the CRM client are recorded as values, in
  order.
- Template rendering, repositories, configuration properties, `checkEmail`,
  URI syntax and URL building are function-typed parameters.

Files:
- `wrappers.dfy`: `Option`.
- `sequences.dfy`: filtering.
- `text.dfy`: Java string helpers (`isEmpty`, `isBlank`, `String.valueOf(int)`,
  `String.replace`).
- `tokenizer.dfy`: `java.util.StringTokenizer`.
- `ical_model.dfy`: the iCalendar objects.
- `ical_folding.dfy`: the description folding.
- `ical_service.dfy`: the invitation.
- `domain.dfy`: the records the tasks read.
- `transport.dfy`: the mail calls.
- `notify.dfy`, `notify_admin.dfy`, `notify_crm.dfy`: the three tasks.

Where the code and its documentation differ, the model follows the code:
- The fold sequence is a carriage return and a space. It is not CRLF and a
  space.
- The number of folded lines is decided by the description's length BEFORE
  its newlines are replaced by that two-character sequence. So the last line
  takes everything that is left, and can be longer than 75 characters
  (`ICalFolding.LastPieceCanExceedLineLength`).
- The HTML test and X-ALT-DESC both use the folded description, not the
  original body.
- A `URISyntaxException` from the ORGANIZER is caught. The event then ends after
  its attendees, and the mail is still sent.
- The `IllegalArgumentException` of `URI.create` on an attendee address is not
  caught, and escapes the task. The model keeps both paths. The predicate that
  says which strings are URIs is a parameter.

## Model

| member | source | states |
|---|---|---|
| ICalFolding.FormatICalendarDescription | src/java/fr/paris/lutece/plugins/workflow/modules/appointment/service/ICalService.java:248-281 | the loop's result is `FoldedDescription`; a description of at most 75 characters comes back unchanged |
| ICalFolding.ShortDescriptionUnchanged | src/java/fr/paris/lutece/plugins/workflow/modules/appointment/service/ICalService.java:256-259 | a description of at most 75 characters is not folded, newlines included |
| ICalFolding.LongDescriptionFolded | src/java/fr/paris/lutece/plugins/workflow/modules/appointment/service/ICalService.java:261-280 | a longer one is its pieces joined by "\r "; its length grows by 1 per newline and 2 per fold, with ceil(L/75)-1 folds |
| ICalFolding.FoldPiecesShape | src/java/fr/paris/lutece/plugins/workflow/modules/appointment/service/ICalService.java:263-279 | ceil(L/75) pieces: all but the last exactly 75 characters; the last is the rest; together they are the substituted text |
| ICalFolding.LastPieceLength | src/java/fr/paris/lutece/plugins/workflow/modules/appointment/service/ICalService.java:266-279 | the last piece has 1 to 75 characters of the original count plus one per newline of the description |
| ICalFolding.WithoutNewlinesPiecesFit | src/java/fr/paris/lutece/plugins/workflow/modules/appointment/service/ICalService.java:261-279 | without newlines, no folded line is longer than 75 characters |
| ICalFolding.LastPieceCanExceedLineLength | src/java/fr/paris/lutece/plugins/workflow/modules/appointment/service/ICalService.java:266-276 | some description (76 newlines) gives a last line longer than 75 characters |
| ICalFolding.ReplaceNewlinesLength | src/java/fr/paris/lutece/plugins/workflow/modules/appointment/service/ICalService.java:261 | replacing newlines by "\r " adds one character per newline |
| ICalFolding.ReplaceNewlinesRemovesNewlines | src/java/fr/paris/lutece/plugins/workflow/modules/appointment/service/ICalService.java:261 | no newline survives; text without a newline is unchanged |
| ICalFolding.ReplaceNewlinesIsReplaceAll | src/java/fr/paris/lutece/plugins/workflow/modules/appointment/service/ICalService.java:261 | the newline substitution is `String.replace` of "\n" by the fold sequence "\r " |
| ICalFolding.JoinWithLength | src/java/fr/paris/lutece/plugins/workflow/modules/appointment/service/ICalService.java:263-276 | joining n pieces adds n-1 separators to their total length |
| ICalService.LooksLikeHtml | src/java/fr/paris/lutece/plugins/workflow/modules/appointment/service/ICalService.java:294-297 | text matching the HTML pattern has at least seven characters, as `<a></a>` does |
| ICalService.ParagraphIsHtml | src/java/fr/paris/lutece/plugins/workflow/modules/appointment/service/ICalService.java:294-297 | `<p>Bonjour</p>` matches the HTML pattern |
| ICalService.HtmlInContext | src/java/fr/paris/lutece/plugins/workflow/modules/appointment/service/ICalService.java:294-297 | text matching the pattern still matches with any text before and after it |
| ICalService.WithoutTagsNotHtml | src/java/fr/paris/lutece/plugins/workflow/modules/appointment/service/ICalService.java:294-297 | text whose every `<` is followed by a digit does not match (`\D` refuses digits) |
| ICalService.WithoutClosingTagNotHtml | src/java/fr/paris/lutece/plugins/workflow/modules/appointment/service/ICalService.java:294-297 | text without any `</` does not match, whatever opening tags it holds |
| ICalService.UnclosedTagNotHtml | src/java/fr/paris/lutece/plugins/workflow/modules/appointment/service/ICalService.java:294-297 | `RDV <b>demain`, with an opening tag and no closing one, does not match |
| ICalService.AddAlternativeHtmlDescription | src/java/fr/paris/lutece/plugins/workflow/modules/appointment/service/ICalService.java:291-308 | the event gains X-ALT-DESC (FMTTYPE=text/html, the description) exactly when the description matches, and nothing else |
| ICalService.AddAttendee | src/java/fr/paris/lutece/plugins/workflow/modules/appointment/service/ICalService.java:231-238 | succeeds exactly when `MAILTO:`+address is a URI, and then appends one ATTENDEE with the role, NEEDS-ACTION and RSVP=FALSE |
| ICalService.AllAddressesValidMeans | src/java/fr/paris/lutece/plugins/workflow/modules/appointment/service/ICalService.java:185-196 | a list's addresses are all accepted exactly when each `MAILTO:`+token is a URI |
| ICalService.InvalidAddressFound | src/java/fr/paris/lutece/plugins/workflow/modules/appointment/service/ICalService.java:185-196 | one rejected address anywhere makes the whole list fail |
| ICalService.AttendeePropertiesAppend | src/java/fr/paris/lutece/plugins/workflow/modules/appointment/service/ICalService.java:185-188 | one more token adds one attendee at the end |
| ICalService.AllAddressesValidAppend | src/java/fr/paris/lutece/plugins/workflow/modules/appointment/service/ICalService.java:185-188 | a valid address after valid ones keeps the list valid |
| ICalService.AddNextAttendee | src/java/fr/paris/lutece/plugins/workflow/modules/appointment/service/ICalService.java:187 | one loop iteration: takes the next token, adds its attendee or reports the rejected address |
| ICalService.AddRemainingAttendees | src/java/fr/paris/lutece/plugins/workflow/modules/appointment/service/ICalService.java:185-188 | the `hasMoreTokens` loop completes exactly when all remaining addresses are valid, and then appends one attendee per token, in order |
| ICalService.AddAttendees | src/java/fr/paris/lutece/plugins/workflow/modules/appointment/service/ICalService.java:182-197 | an empty or null list adds nothing; otherwise as above on its tokens |
| ICalService.DistinctUids | src/java/fr/paris/lutece/plugins/workflow/modules/appointment/service/ICalService.java:180 | two different appointment ids never give the same UID |
| ICalService.AddOrganizerAndDescription | src/java/fr/paris/lutece/plugins/workflow/modules/appointment/service/ICalService.java:198-209 | with a valid sender URI: ORGANIZER (with CN), LOCATION, DESCRIPTION and maybe X-ALT-DESC; otherwise the caught exception leaves the event as it was |
| ICalService.BuildEvent | src/java/fr/paris/lutece/plugins/workflow/modules/appointment/service/ICalService.java:163-209 | a fresh event, built in full exactly when both attendee lists are accepted; its properties are `InviteEvent` |
| ICalService.SendAppointment | src/java/fr/paris/lutece/plugins/workflow/modules/appointment/service/ICalService.java:135-219 | the outcome is `Invite`: aborted on an unreadable file, raised on a rejected attendee, otherwise the calendar mail |
| ICalService.InviteOutcomes | src/java/fr/paris/lutece/plugins/workflow/modules/appointment/service/ICalService.java:139-218 | no mail exactly when the time-zone file cannot be used; an exception exactly when an attendee is rejected; otherwise a calendar mail: attendees in to, optional ones in cc, no bcc, subject or "" |
| ICalService.InviteEventHead | src/java/fr/paris/lutece/plugins/workflow/modules/appointment/service/ICalService.java:170-180 | the event begins with DTSTART, DTEND, SUMMARY (subject or "") and the UID, in that order |
| ICalService.InviteAttendees | src/java/fr/paris/lutece/plugins/workflow/modules/appointment/service/ICalService.java:181-197 | the event's attendees are exactly the required tokens, then the optional ones, in list order |
| ICalService.FilterAttendeesOfParts | src/java/fr/paris/lutece/plugins/workflow/modules/appointment/service/ICalService.java:181-205 | attendees placed between properties that are not attendees are all the attendees |
| ICalService.AttendeesAreNotAlternatives | src/java/fr/paris/lutece/plugins/workflow/modules/appointment/service/ICalService.java:231-238 | attendee properties are never an X-ALT-DESC |
| ICalService.InviteAltDescription | src/java/fr/paris/lutece/plugins/workflow/modules/appointment/service/ICalService.java:198-205 | the event carries one X-ALT-DESC exactly when the organizer was added and the folded description is HTML, else none |
| ICalService.TailAlternatives | src/java/fr/paris/lutece/plugins/workflow/modules/appointment/service/ICalService.java:198-205 | the same for the statements after the attendees |
| ICalService.InviteCalendar | src/java/fr/paris/lutece/plugins/workflow/modules/appointment/service/ICalService.java:211-215 | the parsed calendar, with METHOD, PRODID, VERSION:2.0 and CALSCALE:GREGORIAN appended, and exactly one more VEVENT (the last), carrying the UID |
| ICalService.CreateAndCancelShareEvent | src/java/fr/paris/lutece/plugins/workflow/modules/appointment/service/ICalService.java:211-217 | creation and cancellation send the same event and differ only by METHOD:REQUEST against METHOD:CANCEL |
| Tokenizer.StringTokenizer.HasMoreTokens | src/java/fr/paris/lutece/plugins/workflow/modules/appointment/service/ICalService.java:185 | true exactly when a token remains |
| Tokenizer.StringTokenizer.NextToken | src/java/fr/paris/lutece/plugins/workflow/modules/appointment/service/ICalService.java:187 | returns the first remaining token and drops it |
| Tokenizer.StringTokenizer.SkipDelimiters | src/java/fr/paris/lutece/plugins/workflow/modules/appointment/service/ICalService.java:185-187 | moves to the next non-delimiter without changing the remaining tokens |
| Tokenizer.StringTokenizer.ScanToken | src/java/fr/paris/lutece/plugins/workflow/modules/appointment/service/ICalService.java:187 | moves over one maximal run of non-delimiters |
| Tokenizer.TokensConcat | src/java/fr/paris/lutece/plugins/workflow/modules/appointment/service/ICalService.java:184-196 | the tokens of a list, concatenated, are the list without its separator characters |
| Tokenizer.TokensAreNonEmptyRuns | src/java/fr/paris/lutece/plugins/workflow/modules/appointment/service/ICalService.java:184-196 | no token is empty or holds a separator character |
| Tokenizer.NoDelimiterSingleToken | src/java/fr/paris/lutece/plugins/workflow/modules/appointment/service/ICalService.java:184-196 | a single address without a separator is one token |
| Text.IntToStringInjective | src/java/fr/paris/lutece/plugins/workflow/modules/appointment/service/ICalService.java:180 | different ids print differently |
| NotifyAppointment.NormalizeSender | src/java/fr/paris/lutece/plugins/workflow/modules/appointment/service/AbstractTaskNotifyAppointment.java:122-129 | the settings afterwards have a sender address and a sender name; no other setting changes |
| NotifyAppointment.NormalizeSenderCases | src/java/fr/paris/lutece/plugins/workflow/modules/appointment/service/AbstractTaskNotifyAppointment.java:122-129 | an empty or `checkEmail`-rejected address becomes the no-reply address, any other is kept; a blank name becomes the resulting address, any other is kept |
| NotifyAppointment.NormalizeSenderKeepsValidSender | src/java/fr/paris/lutece/plugins/workflow/modules/appointment/service/AbstractTaskNotifyAppointment.java:122-129 | a valid address with a non-blank name is kept, whatever the no-reply address |
| NotifyAppointment.NormalizeSenderIdempotent | src/java/fr/paris/lutece/plugins/workflow/modules/appointment/service/AbstractTaskNotifyAppointment.java:122-129 | normalising twice is normalising once when the no-reply address is itself non-empty and valid |
| NotifyAppointment.NormalizeDtoSender | src/java/fr/paris/lutece/plugins/workflow/modules/appointment/service/AbstractTaskNotifyAppointment.java:122-129 | the DTO's settings become `NormalizeSender` of what they were |
| NotifyAppointment.Notification | src/java/fr/paris/lutece/plugins/workflow/modules/appointment/service/AbstractTaskNotifyAppointment.java:113-155 | null is returned exactly when the history or the appointment is missing or the history is not about an appointment |
| NotifyAppointment.Dispatch | src/java/fr/paris/lutece/plugins/workflow/modules/appointment/service/AbstractTaskNotifyAppointment.java:137-154 | after the guard the e-mail is always returned (or the exception escapes) |
| NotifyAppointment.Deliver | src/java/fr/paris/lutece/plugins/workflow/modules/appointment/service/AbstractTaskNotifyAppointment.java:132-154 | the transport branch: equals `Dispatch` |
| NotifyAppointment.SendEmail | src/java/fr/paris/lutece/plugins/workflow/modules/appointment/service/AbstractTaskNotifyAppointment.java:113-155 | null without a DTO; otherwise the result is `Notification`; the DTO is normalised in place exactly when the guard passes |
| NotifyAppointment.NotificationDispatch | src/java/fr/paris/lutece/plugins/workflow/modules/appointment/service/AbstractTaskNotifyAppointment.java:132-153 | at most one call: with iCal, the invitation (cc as optional attendees, no bcc, the create flag), none when the time-zone file fails; without iCal, the variant with copies exactly when cc or bcc is not blank |
| NotifyAppointment.NotificationContent | src/java/fr/paris/lutece/plugins/workflow/modules/appointment/service/AbstractTaskNotifyAppointment.java:130-154 | the returned e-mail is the subject template and the twice-rendered mail or SMS template; each call carries that subject and body, the target address and the normalised sender |
| NotifyAppointment.ModelOfKeys | src/java/fr/paris/lutece/plugins/workflow/modules/appointment/service/AbstractTaskNotifyAppointment.java:295-304 | the keys of the model are exactly the marker names |
| NotifyAppointment.ModelOfLastWins | src/java/fr/paris/lutece/plugins/workflow/modules/appointment/service/AbstractTaskNotifyAppointment.java:299-302 | a name is bound to the value of its last marker |
| NotifyAppointment.MarkersToModel | src/java/fr/paris/lutece/plugins/workflow/modules/appointment/service/AbstractTaskNotifyAppointment.java:295-304 | the loop's map is `ModelOf` the markers |
| NotifyAppointment.ResponseRecaps | src/java/fr/paris/lutece/plugins/workflow/modules/appointment/service/AbstractTaskNotifyAppointment.java:257-268 | one recap per response, in order, pairing each response with its rendering |
| NotifyAppointment.GetAppointmentResponseList | src/java/fr/paris/lutece/plugins/workflow/modules/appointment/service/AbstractTaskNotifyAppointment.java:257-268 | the loop's list is `ResponseRecaps` |
| NotifyAppointment.AppointmentRecap | src/java/fr/paris/lutece/plugins/workflow/modules/appointment/service/AbstractTaskNotifyAppointment.java:279-286 | the recap template rendered over a model whose only entry is the response-list marker bound to the recaps |
| NotifyAppointment.FillModel | src/java/fr/paris/lutece/plugins/workflow/modules/appointment/service/AbstractTaskNotifyAppointment.java:170-188 | the model's keys are exactly the names of the markers with the recap added, each bound to the value of the last marker of that name |
| NotifyAppointment.FirstResponseFor | src/java/fr/paris/lutece/plugins/workflow/modules/appointment/service/AbstractTaskNotifyAppointment.java:213-220 | a found value is not blank |
| NotifyAppointment.FirstPhoneNumber | src/java/fr/paris/lutece/plugins/workflow/modules/appointment/service/AbstractTaskNotifyAppointment.java:208-226 | a found phone number is not blank |
| NotifyAppointment.FirstResponseForIsFirst | src/java/fr/paris/lutece/plugins/workflow/modules/appointment/service/AbstractTaskNotifyAppointment.java:213-220 | none exactly when no response to the entry is non-blank; otherwise the first non-blank response to it |
| NotifyAppointment.FirstPhoneNumberNone | src/java/fr/paris/lutece/plugins/workflow/modules/appointment/service/AbstractTaskNotifyAppointment.java:208-226 | no number exactly when no phone entry has a non-blank response |
| NotifyAppointment.FirstPhoneNumberIsFirst | src/java/fr/paris/lutece/plugins/workflow/modules/appointment/service/AbstractTaskNotifyAppointment.java:208-226 | a number found belongs to the first phone entry that has one |
| NotifyAppointment.FindResponse | src/java/fr/paris/lutece/plugins/workflow/modules/appointment/service/AbstractTaskNotifyAppointment.java:213-220 | the inner loop finds `FirstResponseFor` |
| NotifyAppointment.GetEmailForSmsFromAppointment | src/java/fr/paris/lutece/plugins/workflow/modules/appointment/service/AbstractTaskNotifyAppointment.java:197-232 | the nested loops give `EmailForSms`: the first phone number followed by the SMS server, or null |
| NotifyAdmin.AdminValuesSet | src/java/fr/paris/lutece/plugins/workflow/modules/appointment/service/TaskNotifyAdminAppointment.java:162-171 | both URL keys set (cancel action, validate action, the configured admin id, the appointment id), overwriting; every other key unchanged |
| NotifyAdmin.AddAdminValuesToModel | src/java/fr/paris/lutece/plugins/workflow/modules/appointment/service/TaskNotifyAdminAppointment.java:162-171 | the map filled in place equals `AdminValues` of the old map |
| NotifyAdmin.AdminFillModel | src/java/fr/paris/lutece/plugins/workflow/modules/appointment/service/TaskNotifyAdminAppointment.java:139-148 | the admin model has the base model's keys and the two URL keys, nothing else; the validate URL is set, the cancel URL too unless the keys coincide, and every other base entry is kept |
| NotifyAdmin.ProcessTask | src/java/fr/paris/lutece/plugins/workflow/modules/appointment/service/TaskNotifyAdminAppointment.java:81-108 | nothing without a configuration; otherwise the result is `AdminProcess`, and the configuration's sender is normalised exactly when a mail is built |
| NotifyAdmin.AdminNothingSent | src/java/fr/paris/lutece/plugins/workflow/modules/appointment/service/TaskNotifyAdminAppointment.java:83-106 | nothing is sent exactly when the history, the appointment or the admin user is missing, or the history is not about an appointment |
| NotifyAdmin.AdminRecipient | src/java/fr/paris/lutece/plugins/workflow/modules/appointment/service/TaskNotifyAdminAppointment.java:92-104 | the admin used is the configured one when its id is > 0, else the appointment's; every call goes to that admin's address; the subject is rendered from the admin model |
| NotifyAdmin.GetTitle | src/java/fr/paris/lutece/plugins/workflow/modules/appointment/service/TaskNotifyAdminAppointment.java:123-133 | the configuration's subject, or "" without one |
| NotifyCrm.MessageAppointment | src/java/fr/paris/lutece/plugins/workflow/modules/appointment/service/TaskNotifyAppointementCrm.java:99-107 | a message without the four substituted placeholders is sent unchanged |
| NotifyCrm.UnsubstitutedPlaceholders | src/java/fr/paris/lutece/plugins/workflow/modules/appointment/service/TaskNotifyAppointementCrm.java:99-107 | a message that is just `${email}` or just `${time_appointment}` is sent verbatim |
| NotifyCrm.UnsubstitutedInContext | src/java/fr/paris/lutece/plugins/workflow/modules/appointment/service/TaskNotifyAppointementCrm.java:99-107 | wherever `${email}` or `${time_appointment}` occurs, it stays, and the text before and after it is substituted as if it were on its own |
| NotifyCrm.SubstitutionAroundMark | src/java/fr/paris/lutece/plugins/workflow/modules/appointment/service/TaskNotifyAppointementCrm.java:101-103 | one `replace` of a placeholder leaves another placeholder with a different third character in place, working on each side of it separately |
| NotifyCrm.MarkReplaced | src/java/fr/paris/lutece/plugins/workflow/modules/appointment/service/TaskNotifyAppointementCrm.java:101-103 | each of the four substitution steps replaces an occurrence of its placeholder wherever it is, the text before and after it being substituted on its own |
| NotifyCrm.StepAroundMark | src/java/fr/paris/lutece/plugins/workflow/modules/appointment/service/TaskNotifyAppointementCrm.java:101-103 | one step on `x + p + y` with no `$` in `x` and `y`: the placeholder `p` is replaced by the value when it is the step's target, kept when it is another placeholder |
| NotifyCrm.SinglePlaceholderReplaced | src/java/fr/paris/lutece/plugins/workflow/modules/appointment/service/TaskNotifyAppointementCrm.java:99-107 | a message whose only placeholder is one of the four, with no other `$` and none in the values, comes out with that placeholder replaced by the first name, last name, reference or date, and nothing else changed |
| NotifyCrm.SequentialSubstitution | src/java/fr/paris/lutece/plugins/workflow/modules/appointment/service/TaskNotifyAppointementCrm.java:101-103 | a first name equal to `${lastName}` is itself replaced by the last name |
| NotifyCrm.ProcessTask | src/java/fr/paris/lutece/plugins/workflow/modules/appointment/service/TaskNotifyAppointementCrm.java:49-74 | the calls made and the outcome are `CrmProcess` |
| NotifyCrm.CrmCalls | src/java/fr/paris/lutece/plugins/workflow/modules/appointment/service/TaskNotifyAppointementCrm.java:57-71 | no call without a configuration; first the creation for the appointment's user; a notification exactly when a demand id came back and the message exists, to that demand, with the substituted message |
| NotifyCrm.CrmNullDereference | src/java/fr/paris/lutece/plugins/workflow/modules/appointment/service/TaskNotifyAppointementCrm.java:52-68 | the null dereference happens exactly when the history is missing, when the appointment is missing with a configuration, or when the message is null once a demand was created |
| NotifyCrm.GetTitle | src/java/fr/paris/lutece/plugins/workflow/modules/appointment/service/TaskNotifyAppointementCrm.java:77-88 | the configuration's demand type, or "" without one |
| Text.ReplaceAllAbsent | src/java/fr/paris/lutece/plugins/workflow/modules/appointment/service/TaskNotifyAppointementCrm.java:101-103 | `String.replace` leaves a string without the target unchanged |
| Text.ReplaceAllLeadingOccurrence | src/java/fr/paris/lutece/plugins/workflow/modules/appointment/service/TaskNotifyAppointementCrm.java:101-103 | an occurrence at the start is replaced and the scan resumes after it |
| Text.ReplaceAllSkipsPrefix | src/java/fr/paris/lutece/plugins/workflow/modules/appointment/service/TaskNotifyAppointementCrm.java:101-103 | text without the target's first character passes through `String.replace` unchanged, and the scan goes on after it |
| Text.ReplaceAllSplitsBefore | src/java/fr/paris/lutece/plugins/workflow/modules/appointment/service/TaskNotifyAppointementCrm.java:101-103 | when the target's first character occurs only at its start, `String.replace` on `x + z`, with `z` starting with that character, is the replacement on `x` followed by the one on `z` |
| Text.ReplaceAllAfterBarrier | src/java/fr/paris/lutece/plugins/workflow/modules/appointment/service/TaskNotifyAppointementCrm.java:101-103 | a string starting with the target's first character, holding it nowhere else and differing from the target, is left in place and the scan resumes after it |
| Text.ReplaceAllAroundBarrier | src/java/fr/paris/lutece/plugins/workflow/modules/appointment/service/TaskNotifyAppointementCrm.java:101-103 | no occurrence straddles such a string: `replace` on `x + p + y` is `replace` on `x`, then `p`, then `replace` on `y` |
| Text.ReplaceAllWithoutFirstCharacter | src/java/fr/paris/lutece/plugins/workflow/modules/appointment/service/TaskNotifyAppointementCrm.java:101-103 | text without the target's first character is left unchanged by `String.replace` |
| Text.ReplaceAllAtOccurrence | src/java/fr/paris/lutece/plugins/workflow/modules/appointment/service/TaskNotifyAppointementCrm.java:101-103 | when the target's first character occurs in it only at its start, `replace` on `x + target + y` is `replace` on `x`, the replacement, then `replace` on `y` |

## Left out

- Reading the time-zone file and parsing it with ical4j are not modelled. Only the outcome is: not found, a format problem, or a parsed calendar with its known zones.
- The registry lookup of the default time zone is a lookup in the set of known zones. An unknown id gives no zone.
- Date and time conversion through `ZoneId.systemDefault()` is not modelled. DTSTART and DTEND hold the start and end as opaque numbers.
- ical4j's `toString()` serialisation and escaping are not modelled. The calendar handed to the transport is the calendar object itself.
- Which strings `URI.create` and the `Organizer` constructor accept is a parameter (`validUri`). Their grammar is library behaviour.
- One `validUri` predicate stands for both `java.net.URI.create` (on `MAILTO:` plus an attendee address) and ical4j's `new Organizer(String)` (on the sender address as it is). The model takes the two parsers to accept the same strings.
- A null `strBodyContent` in `sendAppointment` throws a `NullPointerException`. This is not modelled: the body is a string.
- `sendEmail` always renders the subject to a string. The invitation's own null-subject fallback is modelled but never reached from there.
- `MailService.getNoReplyEmail()` is a string. A missing no-reply property, which would leave the sender null, is not modelled.
- The template engine, the marker provider `AppointmentNotificationMarkers`, the repositories, the entry-type recap renderers, `StringUtil.checkEmail`, `ExecuteWorkflowAction.getExecuteWorkflowActionUrl`, `AppointmentService.computeRefAppointment`, the CRM client and the configuration properties are function parameters. Their behaviour is not part of this model.
- `AppointmentWorkflowConstants` is not part of this model. `MARK_LIST_RESPONSE`, `MARK_URL_CANCEL` and `MARK_URL_VALIDATE` are parameters.
- `addAppointmentRecap` adds to the marker collection in place. It is modelled as a function that returns the new collection.
- Locales, HTTP requests, Spring bean lookups, lazy singletons (`getService`, `getICalService`), dependency injection, logging and `doRemoveConfig` are left out. None of them change what is computed.
- The configuration lookup `findByPrimaryKey(getId())` is replaced by the configuration it finds, passed as a parameter.
- The phone-entry test (`instanceof EntryTypePhone`) is a flag on the entry. Responses are the records `ResponseHome.findByPrimaryKey` found. A missing record, which the Java code would dereference, is not modelled.
- The email-for-SMS lookup takes the form's entries and the appointment's responses as inputs, instead of querying them by the appointment's ids.
- In the CRM task, null fields of the appointment (names, date) are not modelled. They would make `String.replace` or `toString()` throw. The date is its printed text.
- `NotifyAdmin.GetTitle`: the configuration subject is a string, so the null subject Java could return is not modelled.
- `ManualAppointmentNotificationHistory` is a bean without behaviour. It is not part of this model.
- Character encodings, surrogate pairs and Unicode whitespace beyond Java's `Character.isWhitespace` on single chars are left out. Strings are sequences of chars.
