/**
 * `AbstractTaskNotifyAppointment`: the e-mail notification of an appointment.
 * `SendEmail` checks its inputs, normalises the sender of the task's DTO in
 * place, renders the subject and the body from the template model, and makes
 * at most one transport call: an iCalendar invitation, an HTML mail with
 * copies, or a plain HTML mail; none when the invitation aborts on the
 * time-zone file. The model is built from the appointment's notification
 * markers, to which a recap of the form responses is added.
 *
 * The template engine, the marker provider, the repositories, `checkEmail`
 * and the configuration properties are functions of `NotifyEnvironment`.
 */
module NotifyAppointment {
  import opened Wrappers
  import opened Text
  import opened ICalService
  import opened Domain
  import opened Transport

  const MailTemplate: string := "admin/plugins/workflow/modules/appointment/task_notify_appointment_mail.html"
  const SmsTemplate: string := "admin/plugins/workflow/modules/appointment/task_notify_appointment_sms.html"
  const RecapTemplate: string := "admin/plugins/workflow/modules/appointment/task_notify_appointment_recap.html"

  /** The values held by a `NotifyAppointmentDTO`. */
  datatype NotifySettings = NotifySettings(
    senderName: Option<string>,
    senderEmail: Option<string>,
    subject: string,
    recipientsCc: Option<string>,
    recipientsBcc: Option<string>,
    isSms: bool,
    sendICalNotif: bool,
    location: Option<string>,
    createNotif: bool)

  /** The task configuration handed to `sendEmail`; its sender is rewritten in place. */
  class NotifyAppointmentDTO {
    var senderName: Option<string>
    var senderEmail: Option<string>
    const subject: string
    const recipientsCc: Option<string>
    const recipientsBcc: Option<string>
    const isSms: bool
    const sendICalNotif: bool
    const location: Option<string>
    const createNotif: bool

    constructor (settings: NotifySettings)
      ensures Settings() == settings
    {
      senderName := settings.senderName;
      senderEmail := settings.senderEmail;
      subject := settings.subject;
      recipientsCc := settings.recipientsCc;
      recipientsBcc := settings.recipientsBcc;
      isSms := settings.isSms;
      sendICalNotif := settings.sendICalNotif;
      location := settings.location;
      createNotif := settings.createNotif;
    }

    function Settings(): NotifySettings
      reads this
    {
      NotifySettings(senderName, senderEmail, subject, recipientsCc, recipientsBcc, isSms, sendICalNotif,
                     location, createNotif)
    }
  }

  /** What the notification reads outside the task. */
  datatype NotifyEnvironment = NotifyEnvironment(
    /** `MailService.getNoReplyEmail()` */
    noReplyEmail: string,
    /** `StringUtil.checkEmail` */
    checkEmail: string -> bool,
    /** `AppTemplateService.getTemplateFromStringFtl(template, locale, model).getHtml()` */
    renderString: (string, Model) -> string,
    /** `AppTemplateService.getTemplate(path, locale, model).getHtml()` */
    renderTemplate: (string, Model) -> string,
    /** `new AppointmentNotificationMarkers(appointment, dto).getMarkerValues()` */
    notificationMarkers: (Appointment, NotifySettings) -> seq<InfoMarker>,
    /** `AppointmentNotificationMarkers.addAppointmentRecap` */
    addAppointmentRecap: (seq<InfoMarker>, string) -> seq<InfoMarker>,
    /** `AppointmentWorkflowConstants.MARK_LIST_RESPONSE` */
    markListResponse: string,
    /** `AppointmentResponseService.findListResponse` */
    responsesOf: int -> seq<Response>,
    /** `getResponseValueForRecap` of the response's entry type */
    recapValue: Response -> string,
    /** the calendar encoder's configuration */
    ical: ICalSettings)

  /** `sendEmail` returned null; or it returned the rendered e-mail after the
      transport calls `calls`; or the exception of the calendar encoder escaped. */
  datatype SendResult = NotSent | Returned(email: EmailDTO, calls: seq<MailCall>) | Threw

  // ---------------------------------------------------------------------------
  // Sender normalisation

  /** The no-reply address replaces an empty or malformed sender address, and
      a blank sender name becomes the (new) sender address. */
  function NormalizeSender(settings: NotifySettings, noReplyEmail: string, checkEmail: string -> bool)
    : (r: NotifySettings)
    ensures r.senderEmail.Some? && r.senderName.Some?
    ensures r.(senderName := settings.senderName, senderEmail := settings.senderEmail) == settings
  {
    var email := if IsEmpty(settings.senderEmail) || !checkEmail(settings.senderEmail.value)
                 then Some(noReplyEmail) else settings.senderEmail;
    var name := if IsBlank(settings.senderName) then email else settings.senderName;
    settings.(senderEmail := email, senderName := name)
  }

  /** The two replacements, case by case: an empty or malformed address becomes
      the no-reply address and any other address is kept; a blank name becomes
      the resulting address and any other name is kept. */
  lemma NormalizeSenderCases(settings: NotifySettings, noReplyEmail: string, checkEmail: string -> bool)
    ensures var r := NormalizeSender(settings, noReplyEmail, checkEmail);
            && (IsEmpty(settings.senderEmail) || !checkEmail(settings.senderEmail.value) ==>
                  r.senderEmail == Some(noReplyEmail))
            && (!IsEmpty(settings.senderEmail) && checkEmail(settings.senderEmail.value) ==>
                  r.senderEmail == settings.senderEmail)
            && (IsBlank(settings.senderName) ==> r.senderName == r.senderEmail)
            && (!IsBlank(settings.senderName) ==> r.senderName == settings.senderName)
  {
  }

  /** A sender that is already valid, with a name that is not blank, is kept. */
  lemma NormalizeSenderKeepsValidSender(settings: NotifySettings, noReplyEmail: string, checkEmail: string -> bool)
    requires !IsEmpty(settings.senderEmail) && checkEmail(settings.senderEmail.value)
    requires !IsBlank(settings.senderName)
    ensures NormalizeSender(settings, noReplyEmail, checkEmail) == settings
  {
  }

  /** Normalising twice is normalising once as soon as the no-reply address is
      itself a valid address. */
  lemma NormalizeSenderIdempotent(settings: NotifySettings, noReplyEmail: string, checkEmail: string -> bool)
    requires noReplyEmail != "" && checkEmail(noReplyEmail)
    ensures var once := NormalizeSender(settings, noReplyEmail, checkEmail);
            NormalizeSender(once, noReplyEmail, checkEmail) == once
  {
    var once := NormalizeSender(settings, noReplyEmail, checkEmail);
    assert !IsEmpty(once.senderEmail) && checkEmail(once.senderEmail.value);
  }

  // ---------------------------------------------------------------------------
  // The template model

  /** `markersToModel`: each marker's name bound to its value, later markers
      overwriting earlier ones. */
  function ModelOf(markers: seq<InfoMarker>): Model {
    if markers == [] then map[]
    else ModelOf(markers[..|markers| - 1])[markers[|markers| - 1].name := markers[|markers| - 1].value]
  }

  /** The keys of the model are exactly the marker names. */
  lemma {:induction false} ModelOfKeys(markers: seq<InfoMarker>)
    ensures ModelOf(markers).Keys == set k | 0 <= k < |markers| :: markers[k].name
  {
    if markers != [] {
      var init := markers[..|markers| - 1];
      ModelOfKeys(init);
      var names := set k | 0 <= k < |markers| :: markers[k].name;
      var initNames := set k | 0 <= k < |init| :: init[k].name;
      forall x | x in names ensures x in initNames + {markers[|markers| - 1].name} {
        var k :| 0 <= k < |markers| && markers[k].name == x;
        if k < |init| {
          assert init[k].name == x;
        }
      }
      forall x | x in initNames ensures x in names {
        var k :| 0 <= k < |init| && init[k].name == x;
        assert markers[k].name == x;
      }
      assert names == initNames + {markers[|markers| - 1].name};
    }
  }

  /** A name is bound to the value of the last marker that has it. */
  lemma {:induction false} ModelOfLastWins(markers: seq<InfoMarker>, k: nat)
    requires k < |markers|
    requires forall j | k < j < |markers| :: markers[j].name != markers[k].name
    ensures markers[k].name in ModelOf(markers)
    ensures ModelOf(markers)[markers[k].name] == markers[k].value
  {
    if k < |markers| - 1 {
      var init := markers[..|markers| - 1];
      assert init[k] == markers[k];
      forall j | k < j < |init| ensures init[j].name != init[k].name {
        assert init[j] == markers[j];
      }
      ModelOfLastWins(init, k);
    }
  }

  method MarkersToModel(markers: seq<InfoMarker>) returns (model: Model)
    ensures model == ModelOf(markers)
  {
    model := map[];
    for i := 0 to |markers|
      invariant model == ModelOf(markers[..i])
    {
      assert markers[..i + 1][..i] == markers[..i];
      model := model[markers[i].name := markers[i].value];
    }
    assert markers[..|markers|] == markers;
  }

  /** One recap per response, in the order of the responses. */
  function ResponseRecaps(responses: seq<Response>, recapValue: Response -> string): (r: seq<ResponseRecap>)
    ensures |r| == |responses|
    ensures forall k | 0 <= k < |r| :: r[k] == ResponseRecap(responses[k], recapValue(responses[k]))
  {
    if responses == [] then []
    else ResponseRecaps(responses[..|responses| - 1], recapValue)
         + [ResponseRecap(responses[|responses| - 1], recapValue(responses[|responses| - 1]))]
  }

  /** `getAppointmentResponseList`, over the responses of the appointment. */
  method GetAppointmentResponseList(responses: seq<Response>, recapValue: Response -> string)
    returns (recaps: seq<ResponseRecap>)
    ensures recaps == ResponseRecaps(responses, recapValue)
  {
    recaps := [];
    for i := 0 to |responses|
      invariant recaps == ResponseRecaps(responses[..i], recapValue)
    {
      assert responses[..i + 1][..i] == responses[..i];
      recaps := recaps + [ResponseRecap(responses[i], recapValue(responses[i]))];
    }
    assert responses[..|responses|] == responses;
  }

  /** `buildAppointmentRecap`: the recap template rendered over a model whose
      only entry is the response-list marker, bound to the recaps in order. */
  function AppointmentRecap(env: NotifyEnvironment, recaps: seq<ResponseRecap>): (r: string)
    ensures exists model: Model ::
              && model.Keys == {env.markListResponse}
              && model[env.markListResponse] == RecapList(recaps)
              && r == env.renderTemplate(RecapTemplate, model)
  {
    var model := map[env.markListResponse := RecapList(recaps)];
    assert model.Keys == {env.markListResponse};
    env.renderTemplate(RecapTemplate, model)
  }

  /** The markers of the appointment with the recap of its responses added. */
  function MarkersWithRecap(env: NotifyEnvironment, settings: NotifySettings, appointment: Appointment)
    : seq<InfoMarker>
  {
    var recap := AppointmentRecap(env, ResponseRecaps(env.responsesOf(appointment.id), env.recapValue));
    env.addAppointmentRecap(env.notificationMarkers(appointment, settings), recap)
  }

  /** No later marker has the name of the marker at `k`. */
  predicate LastOfName(markers: seq<InfoMarker>, k: nat)
    requires k < |markers|
  {
    forall j | k < j < |markers| :: markers[j].name != markers[k].name
  }

  /** `fillModel` of the base task: the model holds the name of every marker,
      the recap included, and nothing else; each name is bound to the value of
      the last marker of that name. */
  function FillModel(env: NotifyEnvironment, settings: NotifySettings, appointment: Appointment): (r: Model)
    ensures var markers := MarkersWithRecap(env, settings, appointment);
            && r.Keys == (set k | 0 <= k < |markers| :: markers[k].name)
            && forall k | 0 <= k < |markers| && LastOfName(markers, k) :: r[markers[k].name] == markers[k].value
  {
    var markers := MarkersWithRecap(env, settings, appointment);
    ModelOfKeys(markers);
    assert forall k | 0 <= k < |markers| && LastOfName(markers, k) :: ModelOf(markers)[markers[k].name] == markers[k].value by {
      forall k | 0 <= k < |markers| && LastOfName(markers, k)
        ensures ModelOf(markers)[markers[k].name] == markers[k].value
      {
        ModelOfLastWins(markers, k);
      }
    }
    ModelOf(markers)
  }

  // ---------------------------------------------------------------------------
  // sendEmail

  /** The guard of `sendEmail` (the DTO itself is checked by the method). */
  predicate Rejected(history: Option<ResourceHistory>, appointment: Option<Appointment>) {
    history.None? || appointment.None? || history.value.resourceType != AppointmentResourceType
  }

  /** The body: the mail or SMS template rendered with the model, and its
      output rendered once more as a template with the same model. */
  function RenderBody(env: NotifyEnvironment, settings: NotifySettings, model: Model): string {
    env.renderString(env.renderTemplate(if settings.isSms then SmsTemplate else MailTemplate, model), model)
  }

  /** The transport call for a normalised sender. */
  function Dispatch(settings: NotifySettings, email: Option<string>, subject: string, content: string,
                    appointment: Appointment, ical: ICalSettings): (r: SendResult)
    requires settings.senderEmail.Some? && settings.senderName.Some?
    ensures !r.NotSent?
  {
    var name := settings.senderName.value;
    var sender := settings.senderEmail.value;
    if settings.sendICalNotif then
      var invitation := Invitation(email, settings.recipientsCc, Some(subject), content, settings.location,
                                   name, sender, appointment, settings.createNotif);
      match Invite(invitation, ical)
      case Sent(mail) => Returned(EmailDTO(subject, content), [mail])
      case Aborted(_) => Returned(EmailDTO(subject, content), [])
      case Raised => Threw
    else if !IsBlank(settings.recipientsBcc) || !IsBlank(settings.recipientsCc) then
      Returned(EmailDTO(subject, content),
               [HtmlMailWithCopies(email, settings.recipientsCc, settings.recipientsBcc, name, sender, subject, content)])
    else
      Returned(EmailDTO(subject, content), [HtmlMail(email, name, sender, subject, content)])
  }

  /** What `sendEmail` returns for a DTO holding `settings`. */
  function Notification(settings: NotifySettings, history: Option<ResourceHistory>, appointment: Option<Appointment>,
                        email: Option<string>, env: NotifyEnvironment,
                        fill: (NotifySettings, Appointment) -> Model): (r: SendResult)
    ensures r.NotSent? <==> Rejected(history, appointment)
  {
    if Rejected(history, appointment) then NotSent
    else
      var normalized := NormalizeSender(settings, env.noReplyEmail, env.checkEmail);
      var model := fill(normalized, appointment.value);
      Dispatch(normalized, email, env.renderString(normalized.subject, model), RenderBody(env, normalized, model),
               appointment.value, env.ical)
  }

  /** The sender normalisation of `sendEmail`, on the DTO in place. */
  method NormalizeDtoSender(dto: NotifyAppointmentDTO, noReplyEmail: string, checkEmail: string -> bool)
    modifies dto
    ensures dto.Settings() == NormalizeSender(old(dto.Settings()), noReplyEmail, checkEmail)
  {
    if IsEmpty(dto.senderEmail) || !checkEmail(dto.senderEmail.value) {
      dto.senderEmail := Some(noReplyEmail);
    }
    if IsBlank(dto.senderName) {
      dto.senderName := dto.senderEmail;
    }
  }

  /** The transport call of `sendEmail`. */
  method Deliver(settings: NotifySettings, email: Option<string>, subject: string, content: string,
                 appointment: Appointment, ical: ICalSettings) returns (result: SendResult)
    requires settings.senderEmail.Some? && settings.senderName.Some?
    ensures result == Dispatch(settings, email, subject, content, appointment, ical)
  {
    var hasRecipients := !IsBlank(settings.recipientsBcc) || !IsBlank(settings.recipientsCc);
    var calls: seq<MailCall>;
    if settings.sendICalNotif {
      var outcome := SendAppointment(
        Invitation(email, settings.recipientsCc, Some(subject), content, settings.location,
                   settings.senderName.value, settings.senderEmail.value, appointment, settings.createNotif),
        ical);
      match outcome
      case Raised =>
        return Threw;
      case Aborted(_) =>
        calls := [];
      case Sent(mail) =>
        calls := [mail];
    } else if hasRecipients {
      calls := [HtmlMailWithCopies(email, settings.recipientsCc, settings.recipientsBcc, settings.senderName.value,
                                   settings.senderEmail.value, subject, content)];
    } else {
      calls := [HtmlMail(email, settings.senderName.value, settings.senderEmail.value, subject, content)];
    }
    result := Returned(EmailDTO(subject, content), calls);
  }

  /** `sendEmail`. `fill` is the task's `fillModel`, which a subclass may override. */
  method SendEmail(dto: NotifyAppointmentDTO?, history: Option<ResourceHistory>, appointment: Option<Appointment>,
                   email: Option<string>, env: NotifyEnvironment, fill: (NotifySettings, Appointment) -> Model)
    returns (result: SendResult)
    modifies dto
    ensures dto == null ==> result == NotSent
    ensures dto != null ==> result == Notification(old(dto.Settings()), history, appointment, email, env, fill)
    ensures dto != null ==> dto.Settings() == if Rejected(history, appointment) then old(dto.Settings())
                                              else NormalizeSender(old(dto.Settings()), env.noReplyEmail, env.checkEmail)
  {
    if dto == null || history.None? || appointment.None? || history.value.resourceType != AppointmentResourceType {
      return NotSent;
    }
    NormalizeDtoSender(dto, env.noReplyEmail, env.checkEmail);
    var settings := dto.Settings();
    var model := fill(settings, appointment.value);
    var subject := env.renderString(settings.subject, model);
    var content := env.renderString(env.renderTemplate(if settings.isSms then SmsTemplate else MailTemplate, model),
                                    model);
    result := Deliver(settings, email, subject, content, appointment.value, env.ical);
  }

  // ---------------------------------------------------------------------------
  // Properties of sendEmail

  /** At most one transport call, and which one: the calendar invitation when
      iCal is on (with the copies as optional attendees, no blind copies, and
      no call when the time-zone file is unusable); otherwise the variant with
      copies exactly when there is a non-blank copy or blind-copy list. */
  lemma NotificationDispatch(settings: NotifySettings, history: Option<ResourceHistory>, appointment: Option<Appointment>,
                             email: Option<string>, env: NotifyEnvironment, fill: (NotifySettings, Appointment) -> Model)
    requires !Rejected(history, appointment)
    ensures var r := Notification(settings, history, appointment, email, env, fill);
            && (r.Threw? ==> settings.sendICalNotif && env.ical.timeZoneFile.Parsed?)
            && (r.Returned? ==> |r.calls| <= 1)
            && (settings.sendICalNotif && r.Returned? ==>
                  && (r.calls == [] <==> !env.ical.timeZoneFile.Parsed?)
                  && forall k | 0 <= k < |r.calls| ::
                       && r.calls[k].CalendarMail?
                       && r.calls[k].cc == settings.recipientsCc && r.calls[k].bcc == None
                       && r.calls[k].create == settings.createNotif)
            && (!settings.sendICalNotif ==>
                  && r.Returned? && |r.calls| == 1
                  && (r.calls[0].HtmlMailWithCopies? <==> !IsBlank(settings.recipientsBcc) || !IsBlank(settings.recipientsCc))
                  && (r.calls[0].HtmlMailWithCopies? || r.calls[0].HtmlMail?)
                  && (r.calls[0].HtmlMailWithCopies? ==>
                        r.calls[0].cc == settings.recipientsCc && r.calls[0].bcc == settings.recipientsBcc))
  {
    var normalized := NormalizeSender(settings, env.noReplyEmail, env.checkEmail);
    var model := fill(normalized, appointment.value);
    var subject := env.renderString(normalized.subject, model);
    var content := RenderBody(env, normalized, model);
    InviteOutcomes(Invitation(email, normalized.recipientsCc, Some(subject), content, normalized.location,
                              normalized.senderName.value, normalized.senderEmail.value, appointment.value,
                              normalized.createNotif), env.ical);
  }

  /** The e-mail returned is the one handed to the transport: same subject,
      same body, sent to `email` from the normalised sender. */
  lemma NotificationContent(settings: NotifySettings, history: Option<ResourceHistory>, appointment: Option<Appointment>,
                            email: Option<string>, env: NotifyEnvironment, fill: (NotifySettings, Appointment) -> Model)
    requires Notification(settings, history, appointment, email, env, fill).Returned?
    ensures var r := Notification(settings, history, appointment, email, env, fill);
            var normalized := NormalizeSender(settings, env.noReplyEmail, env.checkEmail);
            var model := fill(normalized, appointment.value);
            && r.email == EmailDTO(env.renderString(normalized.subject, model), RenderBody(env, normalized, model))
            && forall k | 0 <= k < |r.calls| ::
                 && r.calls[k].to == email
                 && r.calls[k].subject == r.email.subject && r.calls[k].body == r.email.content
                 && r.calls[k].senderName == normalized.senderName.value
                 && r.calls[k].senderEmail == normalized.senderEmail.value
  {
  }

  // ---------------------------------------------------------------------------
  // getEmailForSmsFromAppointment

  /** The first non-blank value among the responses to the entry `idEntry`. */
  function FirstResponseFor(idEntry: int, responses: seq<Response>): (r: Option<string>)
    ensures r.Some? ==> !IsBlank(r)
  {
    if responses == [] then None
    else if responses[0].idEntry == idEntry && !IsBlank(responses[0].value) then responses[0].value
    else FirstResponseFor(idEntry, responses[1..])
  }

  /** The phone number: the first response found for the first phone entry that has one. */
  function FirstPhoneNumber(entries: seq<Entry>, responses: seq<Response>): (r: Option<string>)
    ensures r.Some? ==> !IsBlank(r)
  {
    if entries == [] then None
    else if entries[0].isPhone && FirstResponseFor(entries[0].idEntry, responses).Some?
    then FirstResponseFor(entries[0].idEntry, responses)
    else FirstPhoneNumber(entries[1..], responses)
  }

  /** The SMS address: the phone number followed by the SMS server (Java prints
      a missing server property as "null"), or none without a phone number. */
  function EmailForSms(entries: seq<Entry>, responses: seq<Response>, smsServer: Option<string>): Option<string> {
    match FirstPhoneNumber(entries, responses)
    case Some(phone) => Some(JavaConcat(phone, smsServer))
    case None => None
  }

  /** `FirstResponseFor` is the response value at the first index that answers
      the entry with a non-blank value. */
  lemma {:induction false} FirstResponseForIsFirst(idEntry: int, responses: seq<Response>)
    ensures FirstResponseFor(idEntry, responses).None? <==>
              forall j | 0 <= j < |responses| :: responses[j].idEntry == idEntry ==> IsBlank(responses[j].value)
    ensures FirstResponseFor(idEntry, responses).Some? ==>
              exists j | 0 <= j < |responses| ::
                && responses[j].idEntry == idEntry && responses[j].value == FirstResponseFor(idEntry, responses)
                && forall i | 0 <= i < j :: responses[i].idEntry == idEntry ==> IsBlank(responses[i].value)
  {
    if responses != [] {
      var rest := responses[1..];
      FirstResponseForIsFirst(idEntry, rest);
      assert forall j | 1 <= j < |responses| :: responses[j] == rest[j - 1];
      if !(responses[0].idEntry == idEntry && !IsBlank(responses[0].value)) && FirstResponseFor(idEntry, rest).Some? {
        var j :| 0 <= j < |rest| && rest[j].idEntry == idEntry && rest[j].value == FirstResponseFor(idEntry, rest)
                 && forall i | 0 <= i < j :: rest[i].idEntry == idEntry ==> IsBlank(rest[i].value);
        assert responses[j + 1] == rest[j];
      }
    }
  }

  /** No phone number is found exactly when no phone entry has a non-blank response. */
  lemma {:induction false} FirstPhoneNumberNone(entries: seq<Entry>, responses: seq<Response>)
    ensures FirstPhoneNumber(entries, responses).None? <==>
              forall i | 0 <= i < |entries| :: entries[i].isPhone ==> FirstResponseFor(entries[i].idEntry, responses).None?
  {
    if entries != [] {
      FirstPhoneNumberNone(entries[1..], responses);
      assert forall i | 1 <= i < |entries| :: entries[i] == entries[1..][i - 1];
    }
  }

  /** A phone number found is the first response of the first phone entry
      that has one. */
  lemma {:induction false} FirstPhoneNumberIsFirst(entries: seq<Entry>, responses: seq<Response>)
    requires FirstPhoneNumber(entries, responses).Some?
    ensures exists i | 0 <= i < |entries| ::
              && entries[i].isPhone
              && FirstResponseFor(entries[i].idEntry, responses) == FirstPhoneNumber(entries, responses)
              && forall j | 0 <= j < i :: entries[j].isPhone ==> FirstResponseFor(entries[j].idEntry, responses).None?
  {
    if !(entries[0].isPhone && FirstResponseFor(entries[0].idEntry, responses).Some?) {
      var rest := entries[1..];
      FirstPhoneNumberIsFirst(rest, responses);
      var i :| 0 <= i < |rest| && rest[i].isPhone
               && FirstResponseFor(rest[i].idEntry, responses) == FirstPhoneNumber(rest, responses)
               && forall j | 0 <= j < i :: rest[j].isPhone ==> FirstResponseFor(rest[j].idEntry, responses).None?;
      assert entries[i + 1] == rest[i];
      forall j | 0 <= j < i + 1 && entries[j].isPhone
        ensures FirstResponseFor(entries[j].idEntry, responses).None?
      {
        if j > 0 {
          assert entries[j] == rest[j - 1];
        }
      }
    }
  }

  /** The inner loop: scans the responses for the entry `idEntry`. */
  method FindResponse(idEntry: int, responses: seq<Response>) returns (phone: Option<string>)
    ensures phone == FirstResponseFor(idEntry, responses)
  {
    phone := None;
    var j := 0;
    while j < |responses|
      invariant 0 <= j <= |responses|
      invariant FirstResponseFor(idEntry, responses) == FirstResponseFor(idEntry, responses[j..])
    {
      assert responses[j..][1..] == responses[j + 1..];
      if responses[j].idEntry == idEntry && !IsBlank(responses[j].value) {
        phone := responses[j].value;
        break;
      }
      j := j + 1;
    }
  }

  /** `getEmailForSmsFromAppointment`, over the form's entries and the
      appointment's responses. */
  method GetEmailForSmsFromAppointment(entries: seq<Entry>, responses: seq<Response>, smsServer: Option<string>)
    returns (address: Option<string>)
    ensures address == EmailForSms(entries, responses, smsServer)
  {
    var phone: Option<string> := None;
    var i := 0;
    while i < |entries|
      invariant 0 <= i <= |entries|
      invariant phone.None?
      invariant FirstPhoneNumber(entries, responses) == FirstPhoneNumber(entries[i..], responses)
    {
      assert entries[i..][1..] == entries[i + 1..];
      assert entries[i..][0] == entries[i];
      if entries[i].isPhone {
        phone := FindResponse(entries[i].idEntry, responses);
        if !IsEmpty(phone) {
          assert FirstPhoneNumber(entries, responses) == phone;
          break;
        }
      }
      i := i + 1;
    }
    if !IsBlank(phone) {
      phone := Some(JavaConcat(phone.value, smsServer));
    }
    address := phone;
  }
}
