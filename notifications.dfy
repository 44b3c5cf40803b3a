/** The e-mail simulator (fake-backends/routers/notifications.py). */
module Notifications {
  import opened Results
  import opened Models
  import opened Store

  /** `not to or "@" not in to`. */
  predicate InvalidAddress(to: string) {
    to == [] || '@' !in to
  }

  /** What `POST /email` answers: 400 for an empty address or one without '@', otherwise
      the message as given, with missing attachments as an empty list. */
  function EmailOutcome(to: string, subject: string, body: string, attachments: Option<seq<string>>,
                        emailId: string, now: Timestamp): (r: Result<EmailNotification>)
    ensures r.Err? <==> to == [] || '@' !in to
    ensures r.Err? ==> r.error == HttpError(400, "Invalid email address")
    ensures r.Ok? ==> && r.value.emailId == emailId && r.value.to == to && r.value.subject == subject
                      && r.value.body == body && r.value.sentAt == now
                      && r.value.attachments == (if attachments.Some? then attachments.value else [])
  {
    if InvalidAddress(to) then Err(HttpError(400, "Invalid email address"))
    else Ok(EmailNotification(emailId, to, subject, body, attachments.GetOr([]), now))
  }

  /** `POST /email`: on success exactly one notification is appended, and it is the one returned. */
  method SendEmail(store: DataStore, to: string, subject: string, body: string, attachments: Option<seq<string>>,
                   uuidHex: string, now: Timestamp) returns (r: Result<EmailNotification>)
    requires IsUuidHex(uuidHex)
    modifies store
    ensures r == EmailOutcome(to, subject, body, attachments, GenerateId("EML", uuidHex), now)
    ensures store.State() == old(store.State()).(emailNotifications := old(store.emailNotifications) + Appended(r))
    ensures r.Ok? ==> store.emailNotifications[|store.emailNotifications| - 1] == r.value
  {
    if InvalidAddress(to) {
      return Err(HttpError(400, "Invalid email address"));
    }
    var email := EmailNotification(GenerateId("EML", uuidHex), to, subject, body, attachments.GetOr([]), now);
    store.emailNotifications := store.emailNotifications + [email];
    r := Ok(email);
  }
}
