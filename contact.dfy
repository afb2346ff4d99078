/** The contact form: three text fields, a submission that goes through an
    email relay (a notification to the page's owner, then an auto-reply to
    the sender), and the status shown under the form. */
module Contact {
  import opened Wrappers

  /** The name attribute of the form's inputs. */
  datatype Field = Name | Email | Message

  datatype FormData = FormData(name: string, email: string, message: string)

  const EmptyForm: FormData := FormData("", "", "")

  /** The value of one field. */
  function FieldValue(form: FormData, field: Field): string
  {
    match field
    case Name => form.name
    case Email => form.email
    case Message => form.message
  }

  /** The form after one input changed: that field holds the new value and the
      other two are as before. */
  function WithField(form: FormData, field: Field, value: string): (r: FormData)
    ensures FieldValue(r, field) == value
    ensures forall other :: other != field ==> FieldValue(r, other) == FieldValue(form, other)
  {
    match field
    case Name => form.(name := value)
    case Email => form.(email := value)
    case Message => form.(message := value)
  }

  /** The status line under the form. */
  datatype SubmitStatus = Idle | Success | Error

  /** The relay's settings as read from the environment; each may be unset. */
  datatype RelayConfig = RelayConfig(
    serviceId: Option<string>,
    notificationTemplateId: Option<string>,
    autoReplyTemplateId: Option<string>,
    publicKey: Option<string>)

  /** A setting counts as given when it is set and not the empty string
      (an unset value and "" are both falsy). */
  function IsGiven(setting: Option<string>): (given: bool)
    ensures !given <==> setting == None || setting == Some("")
  {
    setting.Some? && setting.value != ""
  }

  /** The relay is used only when both the service id and the public key are given. */
  function IsConfigured(config: RelayConfig): (configured: bool)
    ensures configured ==> config.serviceId.Some? && config.publicKey.Some?
    ensures !configured <==> config.serviceId in {None, Some("")} || config.publicKey in {None, Some("")}
  {
    IsGiven(config.serviceId) && IsGiven(config.publicKey)
  }

  /** How one send to the relay settles. */
  datatype Delivery = Resolves | Rejects

  /** The template parameters of the two messages. */
  datatype TemplateParams =
    | NotificationParams(name: string, message: string)
    | AutoReplyParams(name: string, toEmail: string)

  /** One call of the relay's send. */
  datatype SendRequest = SendRequest(
    serviceId: string,
    templateId: Option<string>,
    params: TemplateParams,
    publicKey: string)

  /** Joins the sender's email and the message text in the notification. */
  const Separator: string := " messaged you - "

  /** The notification to the owner: the sender's name, and a body that reads
      as the sender's email, the separator, then the message text. */
  function Notification(form: FormData): (p: TemplateParams)
    ensures p.NotificationParams? && p.name == form.name
    ensures |p.message| == |form.email| + |Separator| + |form.message|
    ensures p.message[..|form.email|] == form.email
    ensures p.message[|form.email|..|form.email| + |Separator|] == Separator
    ensures p.message[|form.email| + |Separator|..] == form.message
  {
    var body := form.email + Separator + form.message;
    assert body[..|form.email|] == form.email;
    assert body[|form.email|..|form.email| + |Separator|] == Separator;
    assert body[|form.email| + |Separator|..] == form.message;
    NotificationParams(form.name, body)
  }

  /** The auto-reply: addressed to the sender's email, carrying the sender's name. */
  function AutoReply(form: FormData): (p: TemplateParams)
    ensures p.AutoReplyParams? && p.name == form.name && p.toEmail == form.email
  {
    AutoReplyParams(form.name, form.email)
  }

  /** The first send: the notification template of the configured service,
      carrying the notification built from the submitted form. */
  function NotificationRequest(config: RelayConfig, form: FormData): (r: SendRequest)
    requires IsConfigured(config)
    ensures Some(r.serviceId) == config.serviceId && Some(r.publicKey) == config.publicKey
    ensures r.templateId == config.notificationTemplateId
    ensures r.params.NotificationParams? && r.params == Notification(form)
  {
    SendRequest(config.serviceId.value, config.notificationTemplateId, Notification(form), config.publicKey.value)
  }

  /** The second send: the auto-reply template of the configured service,
      addressed to the submitted email. */
  function AutoReplyRequest(config: RelayConfig, form: FormData): (r: SendRequest)
    requires IsConfigured(config)
    ensures Some(r.serviceId) == config.serviceId && Some(r.publicKey) == config.publicKey
    ensures r.templateId == config.autoReplyTemplateId
    ensures r.params.AutoReplyParams? && r.params.toEmail == form.email && r.params.name == form.name
  {
    SendRequest(config.serviceId.value, config.autoReplyTemplateId, AutoReply(form), config.publicKey.value)
  }

  /** What a submission leaves behind: the status shown, the form's fields,
      and the sends attempted, in order. */
  datatype Settlement = Settlement(status: SubmitStatus, form: FormData, attempts: seq<SendRequest>)

  /** How a submission of `form` settles, given how each relay send settles. */
  function Settle(form: FormData, config: RelayConfig, notify: Delivery, reply: Delivery): (s: Settlement)
    ensures s.status != Idle
    ensures s.status == Success <==> !IsConfigured(config) || (notify == Resolves && reply == Resolves)
    ensures s.status == Success ==> s.form == EmptyForm
    ensures s.status == Error ==> s.form == form
    ensures !IsConfigured(config) ==> s.attempts == []
    ensures IsConfigured(config) ==> 1 <= |s.attempts| && s.attempts[0] == NotificationRequest(config, form)
    ensures |s.attempts| == 2 <==> IsConfigured(config) && notify == Resolves
    ensures |s.attempts| <= 2
    ensures |s.attempts| == 2 ==> s.attempts[1] == AutoReplyRequest(config, form)
  {
    if !IsConfigured(config) then
      Settlement(Success, EmptyForm, [])
    else if notify.Rejects? then
      Settlement(Error, form, [NotificationRequest(config, form)])
    else if reply.Rejects? then
      Settlement(Error, form, [NotificationRequest(config, form), AutoReplyRequest(config, form)])
    else
      Settlement(Success, EmptyForm, [NotificationRequest(config, form), AutoReplyRequest(config, form)])
  }

  /** A failed submission keeps the draft, so submitting again sends the
      owner the same notification as the failed attempt did. */
  lemma RetryAfterErrorResendsDraft(form: FormData, config: RelayConfig, notify: Delivery, reply: Delivery,
                                    notify': Delivery, reply': Delivery)
    requires Settle(form, config, notify, reply).status == Error
    ensures IsConfigured(config)
    ensures Settle(Settle(form, config, notify, reply).form, config, notify', reply').attempts[0]
            == Settle(form, config, notify, reply).attempts[0]
  {
  }

  class ContactForm {
    var formData: FormData
    var isSubmitting: bool
    var submitStatus: SubmitStatus

    constructor ()
      ensures formData == EmptyForm && !isSubmitting && submitStatus == Idle
    {
      formData := EmptyForm;
      isSubmitting := false;
      submitStatus := Idle;
    }

    /** An input's change event: the named field takes the new value. */
    method HandleChange(field: Field, value: string)
      modifies this
      ensures formData == WithField(old(formData), field, value)
      ensures isSubmitting == old(isSubmitting) && submitStatus == old(submitStatus)
    {
      formData := WithField(formData, field, value);
    }

    /** The synchronous start of a submission. Returns the form as the submit
        handler captured it: the payloads are built from this value, however
        the inputs are edited while the sends are awaited. */
    method BeginSubmit() returns (submitted: FormData)
      modifies this
      ensures isSubmitting && submitStatus == Idle
      ensures formData == old(formData) && submitted == formData
    {
      isSubmitting := true;
      submitStatus := Idle;
      submitted := formData;
    }

    /** The rest of a submission after its synchronous start: the
        configuration check, the sends (or the simulated delay when the relay
        is not configured) and the settlement. `submitted` is the form captured
        at the start; the fields are cleared on success and otherwise left as
        they are now. Returns the sends attempted, in order. */
    method FinishSubmit(submitted: FormData, config: RelayConfig, notify: Delivery, reply: Delivery)
      returns (attempts: seq<SendRequest>)
      modifies this
      ensures submitStatus == Settle(submitted, config, notify, reply).status
      ensures formData == if submitStatus == Success then EmptyForm else old(formData)
      ensures attempts == Settle(submitted, config, notify, reply).attempts
      ensures !isSubmitting
    {
      var form := submitted;
      attempts := [];
      if !IsConfigured(config) {
        // the simulated send: after the delay, report success and clear the form
        submitStatus := Success;
        formData := EmptyForm;
      } else {
        var failed := false;
        attempts := attempts + [NotificationRequest(config, form)];
        if notify == Rejects {
          failed := true;
        } else {
          attempts := attempts + [AutoReplyRequest(config, form)];
          if reply == Rejects {
            failed := true;
          } else {
            submitStatus := Success;
            formData := EmptyForm;
          }
        }
        if failed {
          submitStatus := Error;
        }
      }
      isSubmitting := false;
    }

    /** The form's submit handler: the start, then the settlement. */
    method HandleSubmit(config: RelayConfig, notify: Delivery, reply: Delivery) returns (attempts: seq<SendRequest>)
      modifies this
      ensures submitStatus == Settle(old(formData), config, notify, reply).status
      ensures formData == Settle(old(formData), config, notify, reply).form
      ensures attempts == Settle(old(formData), config, notify, reply).attempts
      ensures !isSubmitting
    {
      var submitted := BeginSubmit();
      attempts := FinishSubmit(submitted, config, notify, reply);
    }
  }
}
