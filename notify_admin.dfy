/**
 * `TaskNotifyAdminAppointment`: the notification sent to an administrator.
 * The administrator is the one named in the task configuration when its id is
 * positive, and otherwise the one the appointment is assigned to. The template
 * model is the base model with two workflow-action URLs added: one to cancel
 * the appointment and one to validate it.
 */
module NotifyAdmin {
  import opened Wrappers
  import opened Domain
  import opened NotifyAppointment

  /** The part of an `AdminUser` the task reads. */
  datatype AdminUser = AdminUser(email: Option<string>)

  /** `TaskNotifyAdminAppointmentConfig`: the notification settings with the
      administrator and the two workflow actions. */
  datatype AdminTaskConfig = AdminTaskConfig(
    notification: NotifyAppointmentDTO,
    idAdminUser: int,
    idActionCancel: int,
    idActionValidate: int)

  /** What the admin task reads outside itself. */
  datatype AdminEnvironment = AdminEnvironment(
    base: NotifyEnvironment,
    /** `AppointmentWorkflowConstants.MARK_URL_CANCEL` and `MARK_URL_VALIDATE` */
    markUrlCancel: string,
    markUrlValidate: string,
    /** `AppPathService.getBaseUrl(request)` */
    baseUrl: string,
    /** `ExecuteWorkflowAction.getExecuteWorkflowActionUrl(baseUrl, idAction, idAdminUser, idAppointment)` */
    actionUrl: (string, int, int, int) -> string,
    /** `IResourceHistoryService.findByPrimaryKey` */
    findHistory: int -> Option<ResourceHistory>,
    /** `AppointmentService.buildAppointmentDTOFromIdAppointment` */
    buildAppointment: int -> Option<Appointment>,
    /** `AdminUserHome.findByPrimaryKey` */
    findAdminUser: int -> Option<AdminUser>)

  /** A template model being filled in place, as a Java `Map` passed to a helper is. */
  class TemplateModel {
    var entries: Model

    constructor (entries: Model)
      ensures this.entries == entries
    {
      this.entries := entries;
    }

    method Put(key: string, value: Value)
      modifies this
      ensures entries == old(entries)[key := value]
    {
      entries := entries[key := value];
    }
  }

  // ---------------------------------------------------------------------------
  // The model

  function CancelUrl(env: AdminEnvironment, config: AdminTaskConfig, appointment: Appointment): string {
    env.actionUrl(env.baseUrl, config.idActionCancel, config.idAdminUser, appointment.id)
  }

  function ValidateUrl(env: AdminEnvironment, config: AdminTaskConfig, appointment: Appointment): string {
    env.actionUrl(env.baseUrl, config.idActionValidate, config.idAdminUser, appointment.id)
  }

  /** The model after `addAdminValuesToModel`. */
  function AdminValues(model: Model, env: AdminEnvironment, config: AdminTaskConfig, appointment: Appointment): Model {
    model[env.markUrlCancel := TextValue(CancelUrl(env, config, appointment))]
         [env.markUrlValidate := TextValue(ValidateUrl(env, config, appointment))]
  }

  /** Both URL keys are set, overwriting what was there (the validate URL wins
      should the two keys coincide), and every other key keeps its value. */
  lemma AdminValuesSet(model: Model, env: AdminEnvironment, config: AdminTaskConfig, appointment: Appointment)
    ensures var r := AdminValues(model, env, config, appointment);
            && r.Keys == model.Keys + {env.markUrlCancel, env.markUrlValidate}
            && r[env.markUrlValidate] == TextValue(ValidateUrl(env, config, appointment))
            && (env.markUrlCancel != env.markUrlValidate ==>
                  r[env.markUrlCancel] == TextValue(CancelUrl(env, config, appointment)))
            && forall k | k in model && k != env.markUrlCancel && k != env.markUrlValidate :: r[k] == model[k]
  {
  }

  /** `addAdminValuesToModel`, on the model map in place: the in-place form of
      the step `AdminFillModel` performs with `AdminValues`. */
  method AddAdminValuesToModel(model: TemplateModel, env: AdminEnvironment, config: AdminTaskConfig,
                               appointment: Appointment)
    modifies model
    ensures model.entries == AdminValues(old(model.entries), env, config, appointment)
  {
    model.Put(env.markUrlCancel,
              TextValue(env.actionUrl(env.baseUrl, config.idActionCancel, config.idAdminUser, appointment.id)));
    model.Put(env.markUrlValidate,
              TextValue(env.actionUrl(env.baseUrl, config.idActionValidate, config.idAdminUser, appointment.id)));
  }

  /** `fillModel` of the admin task: the base model with both URL keys set,
      the validate URL winning should the two keys coincide, and every other
      key of the base model keeping its value. */
  function AdminFillModel(env: AdminEnvironment, config: AdminTaskConfig, settings: NotifySettings,
                          appointment: Appointment): (r: Model)
    ensures var base := FillModel(env.base, settings, appointment);
            && r.Keys == base.Keys + {env.markUrlCancel, env.markUrlValidate}
            && r[env.markUrlValidate] == TextValue(ValidateUrl(env, config, appointment))
            && (env.markUrlCancel != env.markUrlValidate ==>
                  r[env.markUrlCancel] == TextValue(CancelUrl(env, config, appointment)))
            && forall k | k in base && k != env.markUrlCancel && k != env.markUrlValidate :: r[k] == base[k]
  {
    AdminValuesSet(FillModel(env.base, settings, appointment), env, config, appointment);
    AdminValues(FillModel(env.base, settings, appointment), env, config, appointment)
  }

  /** The admin `fillModel` as the function `sendEmail` calls back. */
  function AdminFill(env: AdminEnvironment, config: AdminTaskConfig): (NotifySettings, Appointment) -> Model {
    (settings: NotifySettings, appointment: Appointment) => AdminFillModel(env, config, settings, appointment)
  }

  // ---------------------------------------------------------------------------
  // processTask

  /** The administrator to notify. */
  function AdminIdFor(config: AdminTaskConfig, appointment: Appointment): int {
    if config.idAdminUser > 0 then config.idAdminUser else appointment.idAdminUser
  }

  /** What `processTask` does for a configuration whose notification settings
      are `settings`: nothing without a history record, an appointment or an
      administrator; otherwise `sendEmail` to the administrator's address. */
  function AdminProcess(settings: NotifySettings, config: AdminTaskConfig, idResourceHistory: int,
                        env: AdminEnvironment): SendResult {
    match env.findHistory(idResourceHistory)
    case None => NotSent
    case Some(history) =>
      match env.buildAppointment(history.idResource)
      case None => NotSent
      case Some(appointment) =>
        match env.findAdminUser(AdminIdFor(config, appointment))
        case None => NotSent
        case Some(admin) =>
          Notification(settings, Some(history), Some(appointment), admin.email, env.base, AdminFill(env, config))
  }

  /** `processTask`; the configuration is the one found for the task, if any. */
  method ProcessTask(config: Option<AdminTaskConfig>, idResourceHistory: int, env: AdminEnvironment)
    returns (result: SendResult)
    modifies if config.Some? then {config.value.notification} else {}
    ensures config.None? ==> result == NotSent
    ensures config.Some? ==>
              result == AdminProcess(old(config.value.notification.Settings()), config.value, idResourceHistory, env)
    ensures config.Some? ==>
              config.value.notification.Settings()
                == if result.NotSent? then old(config.value.notification.Settings())
                   else NormalizeSender(old(config.value.notification.Settings()), env.base.noReplyEmail,
                                        env.base.checkEmail)
  {
    if config.None? {
      return NotSent;
    }
    var c := config.value;
    var history := env.findHistory(idResourceHistory);
    if history.None? {
      return NotSent;
    }
    var appointment := env.buildAppointment(history.value.idResource);
    if appointment.None? {
      return NotSent;
    }
    var adminUser: Option<AdminUser>;
    if c.idAdminUser > 0 {
      adminUser := env.findAdminUser(c.idAdminUser);
    } else {
      adminUser := env.findAdminUser(appointment.value.idAdminUser);
    }
    if adminUser.None? {
      return NotSent;
    }
    result := SendEmail(c.notification, history, appointment, adminUser.value.email, env.base, AdminFill(env, c));
  }

  /** Nothing is sent exactly when a lookup fails or the history record is not
      about an appointment. */
  lemma AdminNothingSent(settings: NotifySettings, config: AdminTaskConfig, idResourceHistory: int,
                         env: AdminEnvironment)
    ensures AdminProcess(settings, config, idResourceHistory, env).NotSent? <==>
              || env.findHistory(idResourceHistory).None?
              || env.buildAppointment(env.findHistory(idResourceHistory).value.idResource).None?
              || env.findAdminUser(AdminIdFor(config, env.buildAppointment(env.findHistory(idResourceHistory).value.idResource).value)).None?
              || env.findHistory(idResourceHistory).value.resourceType != AppointmentResourceType
  {
  }

  /** Every mail goes to the address of the administrator chosen by
      `AdminIdFor`, and its content is rendered from the admin model. */
  lemma AdminRecipient(settings: NotifySettings, config: AdminTaskConfig, idResourceHistory: int,
                       env: AdminEnvironment)
    requires AdminProcess(settings, config, idResourceHistory, env).Returned?
    ensures env.findHistory(idResourceHistory).Some?
    ensures var history := env.findHistory(idResourceHistory).value;
            env.buildAppointment(history.idResource).Some?
    ensures var history := env.findHistory(idResourceHistory).value;
            var appointment := env.buildAppointment(history.idResource).value;
            var r := AdminProcess(settings, config, idResourceHistory, env);
            var normalized := NormalizeSender(settings, env.base.noReplyEmail, env.base.checkEmail);
            && env.findAdminUser(AdminIdFor(config, appointment)).Some?
            && r.email.subject == env.base.renderString(normalized.subject,
                                                         AdminFillModel(env, config, normalized, appointment))
            && forall k | 0 <= k < |r.calls| ::
                 r.calls[k].to == env.findAdminUser(AdminIdFor(config, appointment)).value.email
  {
    var history := env.findHistory(idResourceHistory).value;
    var appointment := env.buildAppointment(history.idResource).value;
    var admin := env.findAdminUser(AdminIdFor(config, appointment)).value;
    NotificationContent(settings, Some(history), Some(appointment), admin.email, env.base, AdminFill(env, config));
  }

  /** `getTitle`: the subject of the configuration, or "" without one. */
  function GetTitle(config: Option<AdminTaskConfig>): (title: string)
    ensures config.Some? ==> title == config.value.notification.subject
    ensures config.None? ==> title == ""
  {
    match config
    case Some(c) => c.notification.subject
    case None => ""
  }
}
