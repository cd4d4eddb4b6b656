/** Values shared by every layer of the throttler: the message being delivered,
    what a delivery attempt returns, and the events the pipeline leaves behind. */
module Messages {

  datatype Option<+T> = None | Some(value: T)

  /** A raised Python exception; only its message is observable. */
  datatype Exception = Exception(message: string)

  /** What a vendor's `send_email` returns: Python's `None` or a string. */
  datatype Value = Nothing | Text(text: string)

  /** A call that either returns a value or raises. */
  datatype Result<+T> = Ok(value: T) | Err(error: Exception)

  /** The email entity: plain data, only read by the pipeline. */
  datatype EmailMessage = EmailMessage(
    subject: string,
    body: string,
    to: seq<string>,
    fromEmail: string,
    cc: seq<string>,
    bcc: seq<string>,
    attachments: seq<string>,
    isHtml: bool,
    links: seq<string>)

  /** What an observer of one delivery sees, in order: a middleware's `call`
      being entered (by its position in the list), the vendor being called,
      and the retry middleware sleeping. */
  datatype Event = Entered(index: nat) | VendorCalled | Slept(seconds: nat)
}
