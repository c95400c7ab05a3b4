/**
 * The records the notification tasks read: the appointment, the workflow
 * history entry that triggered the task, form entries and responses, the
 * markers of the template model, and the rendered e-mail.
 */
module Domain {
  import opened Wrappers

  /** `Appointment.APPOINTMENT_RESOURCE_TYPE`, the workflow resource type of an appointment. */
  const AppointmentResourceType: string := "appointment"

  /** The fields of an appointment (`AppointmentDTO` and the business `Appointment`)
      that the tasks read. Start and end are the epoch milliseconds the encoder
      computes from the local date-times. */
  datatype Appointment = Appointment(
    id: int,
    idForm: int,
    idAdminUser: int,
    idUser: int,
    firstName: string,
    lastName: string,
    dateText: string,
    start: int,
    end: int)

  /** A workflow resource-history record. */
  datatype ResourceHistory = ResourceHistory(idResource: int, resourceType: string)

  /** A form question; `isPhone` says its entry-type service is the phone type. */
  datatype Entry = Entry(idEntry: int, isPhone: bool)

  /** An answer to one form question. */
  datatype Response = Response(idResponse: int, idEntry: int, value: Option<string>)

  /** A response paired with its human-readable recap rendering. */
  datatype ResponseRecap = ResponseRecap(response: Response, recapValue: string)

  /** A value of the template model (a Java `Object`): text, or a list of recaps. */
  datatype Value = TextValue(text: string) | RecapList(recaps: seq<ResponseRecap>)

  /** A named marker contributed to the template model. */
  datatype InfoMarker = InfoMarker(name: string, value: Value)

  /** The template model: marker name to value. */
  type Model = map<string, Value>

  /** The rendered subject and body of a notification. */
  datatype EmailDTO = EmailDTO(subject: string, content: string)
}
