/**
 * The contact form a client sends to a barber. The required-field check and
 * the request body are pure; `handleSubmit` is split at its await into
 * `BeginSubmit` and `FinishSubmit`, and `onSuccess` is counted.
 */
module ContactModal {
  import opened Wrappers
  import opened Http
  import opened Text

  const MissingFields := "Por favor completa todos los campos requeridos"
  const Sent := "Mensaje enviado exitosamente"
  const SendFallback := "Error al enviar el mensaje"

  datatype Form = Form(message: string, email: string, phone: string)

  datatype Field = Message | Email | Phone

  function Get(form: Form, field: Field): string {
    match field
    case Message => form.message
    case Email => form.email
    case Phone => form.phone
  }

  function InitialForm(): (form: Form)
    ensures forall field :: Get(form, field) == ""
  {
    Form("", "", "")
  }

  /** `handleChange`: `{ ...prev, [name]: value }`. */
  function WithField(form: Form, field: Field, value: string): (r: Form)
    ensures Get(r, field) == value
    ensures forall other :: other != field ==> Get(r, other) == Get(form, other)
  {
    match field
    case Message => form.(message := value)
    case Email => form.(email := value)
    case Phone => form.(phone := value)
  }

  /** The body of POST /api/contact. */
  datatype Request = Request(barberId: int, message: string, email: string, phone: Option<string>)

  /**
   * Nothing is posted when the message or the email is blank; otherwise the
   * fields go out as typed (untrimmed) and an empty phone becomes `null`.
   */
  function BuildRequest(barberId: int, form: Form): (r: Option<Request>)
    ensures r.None? <==> IsBlank(form.message) || IsBlank(form.email)
    ensures r.Some? ==>
      r.value.barberId == barberId && r.value.message == form.message && r.value.email == form.email
    ensures r.Some? ==> (r.value.phone.None? <==> form.phone == "")
    ensures r.Some? && form.phone != "" ==> r.value.phone == Some(form.phone)
  {
    TrimEmptyIffBlank(form.message);
    TrimEmptyIffBlank(form.email);
    if Trim(form.message) == [] || Trim(form.email) == [] then None
    else Some(Request(barberId, form.message, form.email, if form.phone != "" then Some(form.phone) else None))
  }

  class ContactDialog {
    const barberId: int
    var form: Form
    var loading: bool
    /** How many times `onSuccess` was called. */
    var successes: nat

    constructor (barberId: int)
      ensures this.barberId == barberId && form == InitialForm() && !loading && successes == 0
    {
      this.barberId := barberId;
      form, loading, successes := InitialForm(), false, 0;
    }

    method HandleChange(field: Field, value: string)
      modifies this`form
      ensures Get(form, field) == value
      ensures forall other :: other != field ==> Get(form, other) == Get(old(form), other)
    {
      form := WithField(form, field, value);
    }

    /**
     * Up to the await: a request is built only when the required fields are
     * filled, and only then is `loading` raised; otherwise the toast warns.
     */
    method BeginSubmit() returns (request: Option<Request>, notice: Option<string>)
      modifies this`loading
      ensures request == BuildRequest(barberId, form)
      ensures request.Some? ==> loading && notice == None
      ensures request.None? ==> loading == old(loading) && notice == Some(MissingFields)
    {
      request := BuildRequest(barberId, form);
      if request.Some? {
        loading := true;
        notice := None;
      } else {
        notice := Some(MissingFields);
      }
    }

    /**
     * After the await: `onSuccess` runs once after a successful post only;
     * the toast reports success or the error text; `loading` always ends false.
     */
    method FinishSubmit(reply: Reply<()>) returns (notice: string)
      modifies this`loading, this`successes
      ensures !loading
      ensures reply.Ok? ==> successes == old(successes) + 1 && notice == Sent
      ensures reply.Err? ==> successes == old(successes) && notice == ErrorText(reply.message, SendFallback)
      ensures notice != ""
    {
      match reply {
        case Ok(_) =>
          successes := successes + 1;
          notice := Sent;
        case Err(message) =>
          notice := ErrorText(message, SendFallback);
      }
      loading := false;
    }
  }
}
