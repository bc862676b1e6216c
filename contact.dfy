/** The submit handler of the contact form. */
module Contact {
  import opened Repos

  /** `formData.get(...)` for the four fields: a string, or `null` when the field is absent. */
  datatype ContactForm = ContactForm(
    name: Option<string>,
    email: Option<string>,
    subject: Option<string>,
    message: Option<string>)

  /** What the POST to `/api/contact` turns into: an exception thrown by `fetch` or by
      `response.json()`, or a parsed response with its `ok` flag and its `error` field. */
  datatype PostResult = Threw(message: string) | Responded(ok: bool, error: Option<string>)

  datatype ToastKind = Success | Error

  datatype Toast = Toast(message: string, kind: ToastKind)

  /** The request body the handler posted, if any, the toast it showed and whether it reset the form. */
  datatype Submission = Submission(posted: Option<ContactForm>, toast: Toast, reset: bool)

  /** A form value is truthy: present and not the empty string. */
  predicate Filled(v: Option<string>)
  {
    v.Some? && v.value != ""
  }

  /** The handler's validation: name, email and message are required, the subject is not. */
  predicate RequiredFilled(form: ContactForm)
  {
    Filled(form.name) && Filled(form.email) && Filled(form.message)
  }

  const RequiredMessage := "Please fill in all required fields"
  const FailedMessage := "Failed to send message"
  const RetryMessage := "Failed to send message. Please try again."
  const SentMessage := "Message sent successfully!"

  /** `error.message || 'Failed to send message. Please try again.'`, the catch block's toast. */
  function CaughtToast(message: string): Toast
  {
    Toast(if message != "" then message else RetryMessage, Error)
  }

  /** The submit handler for a form and the outcome of the POST it would make. */
  function Submit(form: ContactForm, post: PostResult): (s: Submission)
    ensures s.posted.None? <==> !RequiredFilled(form)
    ensures s.posted.Some? ==> s.posted.value == form
    ensures !RequiredFilled(form) ==> s.toast == Toast(RequiredMessage, Error)
    ensures s.toast.kind == Success <==> RequiredFilled(form) && post.Responded? && post.ok
    ensures s.reset <==> s.toast.kind == Success
    ensures s.toast.message != ""
  {
    if !RequiredFilled(form) then Submission(None, CaughtToast(RequiredMessage), false)
    else match post
      case Threw(m) => Submission(Some(form), CaughtToast(m), false)
      case Responded(ok, error) =>
        if !ok then Submission(Some(form), CaughtToast(if Filled(error) then error.value else FailedMessage), false)
        else Submission(Some(form), Toast(SentMessage, Success), true)
  }

  /** The subject neither blocks nor enables sending. */
  lemma SubjectIsOptional(form: ContactForm, subject: Option<string>, post: PostResult)
    ensures Submit(form.(subject := subject), post).posted.Some? == Submit(form, post).posted.Some?
    ensures Submit(form.(subject := subject), post).toast == Submit(form, post).toast
  {
  }
}
