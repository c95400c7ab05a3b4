/**
 * `TaskNotifyAppointementCrm`: creates a CRM demand for the user of the
 * appointment and, when a demand id comes back, notifies it with the
 * configured message in which some placeholders are substituted. The calls to
 * the CRM client are recorded in order; a null dereference of the Java code is
 * an outcome of its own, with the calls made before it.
 */
module NotifyCrm {
  import opened Wrappers
  import opened Text
  import opened Domain

  const MarkFirstName: string := "${firstName}"
  const MarkLastName: string := "${lastName}"
  const MarkEmail: string := "${email}"
  const MarkReference: string := "${reference}"
  const MarkDateAppointment: string := "${date_appointment}"
  const MarkTimeAppointment: string := "${time_appointment}"

  /** `TaskNotifyCrmConfig`; the message is the only field the task dereferences. */
  datatype CrmConfig = CrmConfig(
    demandType: string,
    idStatusCrm: int,
    statusText: string,
    data: string,
    message: Option<string>,
    messageObject: string,
    sender: string)

  /** A call to the CRM client. */
  datatype CrmCall =
      /** `sendCreateDemandByUserGuid(demandType, idUser, idStatus, statusText, data)` */
    | CreateDemand(demandType: string, idUser: int, idStatusCrm: int, statusText: string, data: string)
      /** `notify(idDemand, messageObject, message, sender)` */
    | NotifyDemand(idDemand: string, messageObject: string, message: string, sender: string)

  /** The answer of the CRM client to a creation: a demand id (null allowed),
      or a `CRMException`. */
  datatype CrmReply = Created(idDemand: Option<string>) | CrmError

  datatype CrmOutcome = Completed(calls: seq<CrmCall>) | NullDereference(calls: seq<CrmCall>)

  datatype CrmEnvironment = CrmEnvironment(
    /** `IResourceHistoryService.findByPrimaryKey` */
    findHistory: int -> Option<ResourceHistory>,
    /** `AppointmentHome.findByPrimaryKey` */
    findAppointment: int -> Option<Appointment>,
    /** the CRM client's reply to a creation request */
    createDemand: CrmCall -> CrmReply,
    /** `AppointmentService.computeRefAppointment` */
    computeRef: Appointment -> string)

  // ---------------------------------------------------------------------------
  // getMessageAppointment

  /** The message with every occurrence of the first-name, last-name,
      reference and date placeholders replaced, one placeholder after the other;
      a message without any of them is sent as it is. */
  function MessageAppointment(msg: string, appointment: Appointment, reference: string): (r: string)
    ensures NoPlaceholder(msg) ==> r == msg
  {
    var message := ReplaceAll(ReplaceAll(msg, MarkFirstName, appointment.firstName), MarkLastName, appointment.lastName);
    var m := ReplaceAll(message, MarkReference, reference);
    var r := ReplaceAll(m, MarkDateAppointment, appointment.dateText);
    assert NoPlaceholder(msg) ==> r == msg by {
      if NoPlaceholder(msg) {
        ReplaceAllAbsent(msg, MarkFirstName, appointment.firstName);
        ReplaceAllAbsent(msg, MarkLastName, appointment.lastName);
        ReplaceAllAbsent(msg, MarkReference, reference);
        ReplaceAllAbsent(msg, MarkDateAppointment, appointment.dateText);
      }
    }
    r
  }

  /** None of the four substituted placeholders occurs in `s`. */
  predicate NoPlaceholder(s: string) {
    && !Occurs(s, MarkFirstName) && !Occurs(s, MarkLastName)
    && !Occurs(s, MarkReference) && !Occurs(s, MarkDateAppointment)
  }

  /** The shape every placeholder has: `${` then no further `$`. */
  predicate MarkShape(s: string) {
    && |s| > 2 && s[0] == '$' && s[1] == '{'
    && forall i | 0 < i < |s| :: s[i] != '$'
  }

  lemma MarksHaveShape()
    ensures MarkShape(MarkFirstName) && MarkShape(MarkLastName) && MarkShape(MarkEmail)
    ensures MarkShape(MarkReference) && MarkShape(MarkDateAppointment) && MarkShape(MarkTimeAppointment)
  {
  }

  /** One substitution leaves a placeholder `p` of a different third character
      in place and works on each side of it separately. */
  lemma SubstitutionAroundMark(x: string, p: string, y: string, target: string, replacement: string)
    requires MarkShape(p) && MarkShape(target) && p[2] != target[2]
    ensures ReplaceAll(x + p + y, target, replacement)
              == ReplaceAll(x, target, replacement) + p + ReplaceAll(y, target, replacement)
  {
    ReplaceAllAroundBarrier(x, p, y, target, replacement, 2);
  }

  /** `${email}` and `${time_appointment}` stay in the message wherever they
      occur: the substitution works on the text before and after them as if
      they were not there. */
  lemma UnsubstitutedInContext(x: string, p: string, y: string, appointment: Appointment, reference: string)
    requires p == MarkEmail || p == MarkTimeAppointment
    ensures MessageAppointment(x + p + y, appointment, reference)
              == MessageAppointment(x, appointment, reference) + p + MessageAppointment(y, appointment, reference)
  {
    MarksHaveShape();
    SubstitutionAroundMark(x, p, y, MarkFirstName, appointment.firstName);
    var x1 := ReplaceAll(x, MarkFirstName, appointment.firstName);
    var y1 := ReplaceAll(y, MarkFirstName, appointment.firstName);
    SubstitutionAroundMark(x1, p, y1, MarkLastName, appointment.lastName);
    var x2 := ReplaceAll(x1, MarkLastName, appointment.lastName);
    var y2 := ReplaceAll(y1, MarkLastName, appointment.lastName);
    SubstitutionAroundMark(x2, p, y2, MarkReference, reference);
    var x3 := ReplaceAll(x2, MarkReference, reference);
    var y3 := ReplaceAll(y2, MarkReference, reference);
    SubstitutionAroundMark(x3, p, y3, MarkDateAppointment, appointment.dateText);
  }

  /** A message that is just `${email}` or just `${time_appointment}` is sent verbatim. */
  lemma UnsubstitutedPlaceholders(appointment: Appointment, reference: string)
    ensures MessageAppointment(MarkEmail, appointment, reference) == MarkEmail
    ensures MessageAppointment(MarkTimeAppointment, appointment, reference) == MarkTimeAppointment
  {
    assert "" + MarkEmail + "" == MarkEmail && "" + MarkTimeAppointment + "" == MarkTimeAppointment;
    UnsubstitutedInContext("", MarkEmail, "", appointment, reference);
    UnsubstitutedInContext("", MarkTimeAppointment, "", appointment, reference);
  }

  /** Each of the four substitution steps replaces an occurrence of its
      placeholder wherever it is, and works on the text before and after it
      separately. The four steps run one after the other, so a value inserted
      by one step can complete a placeholder for a later step: a text
      `x` ending in `${last` and a first name `Name}` give a `${lastName}` that
      the second step replaces. */
  lemma MarkReplaced(x: string, y: string, target: string, replacement: string)
    requires target == MarkFirstName || target == MarkLastName || target == MarkReference
             || target == MarkDateAppointment
    ensures ReplaceAll(x + target + y, target, replacement)
              == ReplaceAll(x, target, replacement) + replacement + ReplaceAll(y, target, replacement)
  {
    MarksHaveShape();
    ReplaceAllAtOccurrence(x, y, target, replacement);
  }

  /** No `$` in `s`: no placeholder can start in it. */
  predicate DollarFree(s: string) {
    forall i | 0 <= i < |s| :: s[i] != '$'
  }

  /** The value the substitution puts in place of placeholder `p`. */
  function MarkValue(p: string, appointment: Appointment, reference: string): string {
    if p == MarkFirstName then appointment.firstName
    else if p == MarkLastName then appointment.lastName
    else if p == MarkReference then reference
    else appointment.dateText
  }

  /** One substitution step on `x + p + y`, where `x` and `y` hold no `$`:
      the placeholder is replaced when it is the step's target, and kept when
      it is another placeholder. */
  lemma StepAroundMark(x: string, p: string, y: string, target: string, replacement: string)
    requires MarkShape(p) && MarkShape(target) && (p == target || p[2] != target[2])
    requires DollarFree(x) && DollarFree(y)
    ensures ReplaceAll(x + p + y, target, replacement)
              == if p == target then x + replacement + y else x + p + y
  {
    ReplaceAllWithoutFirstCharacter(x, target, replacement);
    ReplaceAllWithoutFirstCharacter(y, target, replacement);
    if p == target {
      ReplaceAllAtOccurrence(x, y, target, replacement);
    } else {
      SubstitutionAroundMark(x, p, y, target, replacement);
    }
  }

  /** A substitution step leaves text without `$` as it is. */
  lemma StepWithoutDollar(s: string, target: string, replacement: string)
    requires MarkShape(target) && DollarFree(s)
    ensures ReplaceAll(s, target, replacement) == s
  {
    ReplaceAllWithoutFirstCharacter(s, target, replacement);
  }

  lemma DollarFreeAround(x: string, v: string, y: string)
    requires DollarFree(x) && DollarFree(v) && DollarFree(y)
    ensures DollarFree(x + v + y)
  {
  }

  /** A message whose only placeholder is one of the four substituted ones,
      with no `$` elsewhere and none in the values, gets that placeholder
      replaced by its value and is otherwise unchanged. */
  lemma SinglePlaceholderReplaced(x: string, p: string, y: string, appointment: Appointment, reference: string)
    requires p == MarkFirstName || p == MarkLastName || p == MarkReference || p == MarkDateAppointment
    requires DollarFree(x) && DollarFree(y)
    requires DollarFree(appointment.firstName) && DollarFree(appointment.lastName)
    requires DollarFree(reference) && DollarFree(appointment.dateText)
    ensures MessageAppointment(x + p + y, appointment, reference) == x + MarkValue(p, appointment, reference) + y
  {
    MarksHaveShape();
    var v := MarkValue(p, appointment, reference);
    DollarFreeAround(x, v, y);
    var done := x + v + y;
    StepAroundMark(x, p, y, MarkFirstName, appointment.firstName);
    if p == MarkFirstName {
      StepWithoutDollar(done, MarkLastName, appointment.lastName);
      StepWithoutDollar(done, MarkReference, reference);
      StepWithoutDollar(done, MarkDateAppointment, appointment.dateText);
    } else {
      StepAroundMark(x, p, y, MarkLastName, appointment.lastName);
      if p == MarkLastName {
        StepWithoutDollar(done, MarkReference, reference);
        StepWithoutDollar(done, MarkDateAppointment, appointment.dateText);
      } else {
        StepAroundMark(x, p, y, MarkReference, reference);
        if p == MarkReference {
          StepWithoutDollar(done, MarkDateAppointment, appointment.dateText);
        } else {
          StepAroundMark(x, p, y, MarkDateAppointment, appointment.dateText);
        }
      }
    }
  }

  /** The substitution is sequential: a first name that is itself the
      last-name placeholder ends up as the last name. */
  lemma SequentialSubstitution(appointment: Appointment, reference: string)
    requires appointment.firstName == MarkLastName
    requires !Occurs(appointment.lastName, MarkReference) && !Occurs(appointment.lastName, MarkDateAppointment)
    ensures MessageAppointment(MarkFirstName, appointment, reference) == appointment.lastName
  {
    ReplaceAllLeadingOccurrence(MarkFirstName, "", MarkLastName);
    assert MarkFirstName + "" == MarkFirstName;
    assert MarkLastName + "" == MarkLastName;
    ReplaceAllLeadingOccurrence(MarkLastName, "", appointment.lastName);
    assert appointment.lastName + "" == appointment.lastName;
    ReplaceAllAbsent(appointment.lastName, MarkReference, reference);
    ReplaceAllAbsent(appointment.lastName, MarkDateAppointment, appointment.dateText);
  }

  // ---------------------------------------------------------------------------
  // processTask

  /** The creation request for the appointment's user. */
  function CreateRequest(config: CrmConfig, appointment: Appointment): CrmCall {
    CreateDemand(config.demandType, appointment.idUser, config.idStatusCrm, config.statusText, config.data)
  }

  /** The demand id obtained: null when the client failed or returned none. */
  function DemandId(reply: CrmReply): Option<string> {
    if reply.Created? then reply.idDemand else None
  }

  /** What `processTask` does: the history record is dereferenced first; with
      a configuration, a demand is created for the appointment's user (which
      must then exist); with a demand id, the demand is notified with the
      substituted message. */
  function CrmProcess(idResourceHistory: int, config: Option<CrmConfig>, env: CrmEnvironment): CrmOutcome {
    match env.findHistory(idResourceHistory)
    case None => NullDereference([])
    case Some(history) =>
      var appointment := env.findAppointment(history.idResource);
      if config.None? then Completed([])
      else if appointment.None? then NullDereference([])
      else
        var create := CreateRequest(config.value, appointment.value);
        match DemandId(env.createDemand(create))
        case None => Completed([create])
        case Some(idDemand) =>
          match config.value.message
          case None => NullDereference([create])
          case Some(msg) =>
            var message := MessageAppointment(msg, appointment.value, env.computeRef(appointment.value));
            Completed([create, NotifyDemand(idDemand, config.value.messageObject, message, config.value.sender)])
  }

  method ProcessTask(idResourceHistory: int, config: Option<CrmConfig>, env: CrmEnvironment)
    returns (outcome: CrmOutcome)
    ensures outcome == CrmProcess(idResourceHistory, config, env)
  {
    var history := env.findHistory(idResourceHistory);
    if history.None? {
      return NullDereference([]);
    }
    var appointment := env.findAppointment(history.value.idResource);
    var idDemand: Option<string> := None;
    var calls: seq<CrmCall> := [];
    if config.Some? {
      if appointment.None? {
        return NullDereference([]);
      }
      var create := CreateDemand(config.value.demandType, appointment.value.idUser, config.value.idStatusCrm,
                                 config.value.statusText, config.value.data);
      calls := calls + [create];
      var reply := env.createDemand(create);
      if reply.Created? {
        idDemand := reply.idDemand;
      }
    }
    if idDemand.Some? {
      if config.value.message.None? {
        return NullDereference(calls);
      }
      var message := MessageAppointment(config.value.message.value, appointment.value,
                                        env.computeRef(appointment.value));
      calls := calls + [NotifyDemand(idDemand.value, config.value.messageObject, message, config.value.sender)];
    }
    outcome := Completed(calls);
  }

  /** At most a creation then a notification: no call without a configuration;
      the creation is for the appointment's user with the configured demand;
      a notification follows exactly when the creation gave a demand id and the
      configured message exists, and goes to that demand. */
  lemma CrmCalls(idResourceHistory: int, config: Option<CrmConfig>, env: CrmEnvironment)
    ensures var o := CrmProcess(idResourceHistory, config, env);
            && |o.calls| <= 2
            && (config.None? ==> o.calls == [])
            && (o.calls != [] ==>
                  && config.Some? && env.findHistory(idResourceHistory).Some?
                  && var appointment := env.findAppointment(env.findHistory(idResourceHistory).value.idResource);
                     && appointment.Some?
                     && o.calls[0] == CreateRequest(config.value, appointment.value)
                     && (|o.calls| == 2 <==>
                           DemandId(env.createDemand(o.calls[0])).Some? && config.value.message.Some?)
                     && (|o.calls| == 2 ==>
                           && o.calls[1].NotifyDemand?
                           && Some(o.calls[1].idDemand) == DemandId(env.createDemand(o.calls[0]))
                           && o.calls[1].message == MessageAppointment(config.value.message.value, appointment.value,
                                                                       env.computeRef(appointment.value))))
  {
  }

  /** The Java code dereferences null exactly when the history record is
      missing, when a configuration exists but the appointment does not, or
      when a demand id was obtained but the configured message is null. */
  lemma CrmNullDereference(idResourceHistory: int, config: Option<CrmConfig>, env: CrmEnvironment)
    ensures CrmProcess(idResourceHistory, config, env).NullDereference? <==>
              || env.findHistory(idResourceHistory).None?
              || (config.Some? && env.findAppointment(env.findHistory(idResourceHistory).value.idResource).None?)
              || (config.Some? && config.value.message.None? &&
                  DemandId(env.createDemand(CreateRequest(config.value,
                    env.findAppointment(env.findHistory(idResourceHistory).value.idResource).value))).Some?)
  {
  }

  /** `getTitle`: the demand type of the configuration, or "" without one. */
  function GetTitle(config: Option<CrmConfig>): (title: string)
    ensures config.Some? ==> title == config.value.demandType
    ensures config.None? ==> title == ""
  {
    match config
    case Some(c) => c.demandType
    case None => ""
  }
}
