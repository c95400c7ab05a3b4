/**
 * The calls made to the mail transport (`MailService`), recorded as values:
 * nothing here is delivered; a task's effect is the list of calls it made.
 */
module Transport {
  import opened Wrappers
  import opened ICalModel

  datatype MailCall =
      /** `sendMailHtml(to, senderName, senderEmail, subject, body)` */
    | HtmlMail(to: Option<string>, senderName: string, senderEmail: string, subject: string, body: string)
      /** `sendMailHtml(to, cc, bcc, senderName, senderEmail, subject, body)` */
    | HtmlMailWithCopies(to: Option<string>, cc: Option<string>, bcc: Option<string>,
                         senderName: string, senderEmail: string, subject: string, body: string)
      /** `sendMailCalendar(to, cc, bcc, senderName, senderEmail, subject, body, calendar, create)` */
    | CalendarMail(to: Option<string>, cc: Option<string>, bcc: Option<string>,
                   senderName: string, senderEmail: string, subject: string, body: string,
                   calendar: CalendarDoc, create: bool)
}
