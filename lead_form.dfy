/**
 * The attorney-signup modal of the home page: its six-field schema, the
 * state-to-city cascade, the reset on close, and the two halves of a
 * submission (validation with the request it sends, then the handling of
 * the response).
 */
module LeadForm {
  import opened Wrappers
  import opened Phone
  import opened Location
  import opened Remote

  /** The values the modal form holds. */
  datatype ModalForm = ModalForm(
    fullName: string,
    email: string,
    phone: string,
    state: string,
    city: string,
    legalService: string)

  /** The form's `defaultValues`, and what every reset returns to. */
  const EmptyModalForm := ModalForm("", "", "", "", "", "")

  datatype ModalField = FullName | Email | PhoneNumber | State | City | LegalService

  /** The body of the attorney application request: the form with `phone` sent as `phoneNumber`. */
  datatype Application = Application(
    fullName: string,
    email: string,
    phoneNumber: string,
    city: string,
    state: string,
    legalService: string)

  const SubmitThanks := "Thank you for your interest! We will contact you soon."
  const SubmitFallbackError := "Failed to submit. Please check your connection and try again."

  /**
   * The rule `modalSchema` applies to one field. `emailOk` stands for yup's
   * `.email()` grammar, which yup does not apply to the empty string.
   */
  predicate FieldAccepts(form: ModalForm, field: ModalField, emailOk: string -> bool) {
    match field
    case FullName => form.fullName != ""
    case Email => form.email != "" && emailOk(form.email)
    case PhoneNumber => ModalPhoneAccepts(form.phone)
    case State => form.state != ""
    case City => form.city != ""
    case LegalService => form.legalService != ""
  }

  /** The fields `modalSchema` rejects; the form is submittable when there are none. */
  function ModalErrors(form: ModalForm, emailOk: string -> bool): (errors: set<ModalField>)
    ensures forall field :: field in errors <==> !FieldAccepts(form, field, emailOk)
  {
    (if form.fullName == "" then {FullName} else {})
    + (if form.email == "" || !emailOk(form.email) then {Email} else {})
    + (if form.phone == "" || !IsGroupedPhone(form.phone) then {PhoneNumber} else {})
    + (if form.state == "" then {State} else {})
    + (if form.city == "" then {City} else {})
    + (if form.legalService == "" then {LegalService} else {})
  }

  /** The request body `onSubmit` sends for a form. */
  function ApplicationOf(form: ModalForm): (app: Application)
    ensures app.fullName == form.fullName && app.email == form.email
    ensures app.phoneNumber == form.phone
    ensures app.city == form.city && app.state == form.state
    ensures app.legalService == form.legalService
  {
    Application(form.fullName, form.email, form.phone, form.city, form.state, form.legalService)
  }

  /**
   * The error toast of a failed submission: the backend's `message` if it is
   * a non-empty string, else its `error` if that is, else the fixed text.
   */
  function SubmitErrorMessage(body: Option<ErrorBody>): (text: string)
    ensures text != ""
    ensures body.Some? && Truthy(body.value.message) ==> text == body.value.message.value
    ensures body.Some? && !Truthy(body.value.message) && Truthy(body.value.error) ==> text == body.value.error.value
    ensures body.None? || (!Truthy(body.value.message) && !Truthy(body.value.error)) ==> text == SubmitFallbackError
  {
    if body.Some? && Truthy(body.value.message) then body.value.message.value
    else if body.Some? && Truthy(body.value.error) then body.value.error.value
    else SubmitFallbackError
  }

  /** The city candidates the cascade effect computes for the watched state value. */
  function ModalCandidates(data: LocationData, state: string): (cities: seq<string>)
    ensures state == "" ==> cities == []
    ensures KnownCode(data, state).None? ==> cities == []
    ensures state != "" && KnownCode(data, state).Some? ==> cities == data.citiesOf(KnownCode(data, state).value)
  {
    if state == "" then []
    else match KnownCode(data, state)
      case Some(code) => data.citiesOf(code)
      case None => []
  }

  /**
   * A form the schema accepts yields a request whose six fields are all
   * present, whose email passed the email grammar and whose phone number is
   * in the `XXX XXX XXXX` shape.
   */
  lemma AcceptedApplication(form: ModalForm, emailOk: string -> bool)
    requires ModalErrors(form, emailOk) == {}
    ensures var app := ApplicationOf(form);
      && app.fullName != "" && app.email != "" && app.city != "" && app.state != "" && app.legalService != ""
      && emailOk(app.email)
      && IsGroupedPhone(app.phoneNumber)
  {
    assert FieldAccepts(form, Email, emailOk) && FieldAccepts(form, PhoneNumber, emailOk);
  }

  /**
   * A lead typed in full: whatever is typed into the phone field, the
   * stored value passes the schema exactly when at least ten digits were
   * typed, and then the request carries it in the `XXX XXX XXXX` shape.
   */
  lemma TypedLeadAccepted(fullName: string, email: string, typed: string, state: string, city: string,
                          service: string, emailOk: string -> bool)
    requires fullName != "" && email != "" && emailOk(email)
    requires state != "" && city != "" && service != ""
    ensures var form := ModalForm(fullName, email, FormatPhoneNumber(typed), state, city, service);
      && (ModalErrors(form, emailOk) == {} <==> |DigitsOf(typed)| >= 10)
      && (ModalErrors(form, emailOk) == {} ==> IsGroupedPhone(ApplicationOf(form).phoneNumber))
  {
    var form := ModalForm(fullName, email, FormatPhoneNumber(typed), state, city, service);
    ModalAcceptsFormattedIffTenDigits(typed);
    assert ModalErrors(form, emailOk) == {} <==> FieldAccepts(form, PhoneNumber, emailOk);
  }

  /**
   * The modal's state: form values, the city candidates, the service shown
   * in the service picker, whether the dialog is open and whether a request
   * is in flight. The location data is read-only.
   */
  class ModalController {
    const data: LocationData
    var open: bool
    var form: ModalForm
    var cities: seq<string>
    var selectedLegalService: Option<string>
    var isSubmitting: bool

    /**
     * What every handler keeps: the candidates are those of the current
     * state, no city without a state, the stored phone is already formatted,
     * and the service picker shows the form's service.
     */
    ghost predicate Valid()
      reads this
    {
      && cities == ModalCandidates(data, form.state)
      && (form.state == "" ==> form.city == "")
      && FormatPhoneNumber(form.phone) == form.phone
      && OrEmpty(selectedLegalService) == form.legalService
    }

    constructor (data: LocationData)
      ensures Valid()
      ensures this.data == data
      ensures !open && !isSubmitting
      ensures form == EmptyModalForm && cities == [] && selectedLegalService == None
    {
      this.data := data;
      open := false;
      form := EmptyModalForm;
      cities := [];
      selectedLegalService := None;
      isSubmitting := false;
    }

    /** handleOpenModal. */
    method Open()
      requires Valid()
      modifies this
      ensures Valid()
      ensures open
      ensures form == old(form) && cities == old(cities)
      ensures selectedLegalService == old(selectedLegalService) && isSubmitting == old(isSubmitting)
    {
      open := true;
    }

    /** handleCloseModal: the dialog closes and every field, the candidates and the picked service are cleared. */
    method Close()
      modifies this
      ensures Valid()
      ensures !open
      ensures form == EmptyModalForm && cities == [] && selectedLegalService == None
      ensures isSubmitting == old(isSubmitting)
    {
      open := false;
      selectedLegalService := None;
      cities := [];
      form := EmptyModalForm;
    }

    method TypeFullName(value: string)
      requires Valid()
      modifies this
      ensures Valid()
      ensures form == old(form).(fullName := value)
      ensures open == old(open) && cities == old(cities)
      ensures selectedLegalService == old(selectedLegalService) && isSubmitting == old(isSubmitting)
    {
      form := form.(fullName := value);
    }

    method TypeEmail(value: string)
      requires Valid()
      modifies this
      ensures Valid()
      ensures form == old(form).(email := value)
      ensures open == old(open) && cities == old(cities)
      ensures selectedLegalService == old(selectedLegalService) && isSubmitting == old(isSubmitting)
    {
      form := form.(email := value);
    }

    /** The phone field's onChange: whatever is typed is stored formatted. */
    method TypePhone(typed: string)
      requires Valid()
      modifies this
      ensures Valid()
      ensures form == old(form).(phone := FormatPhoneNumber(typed))
      ensures open == old(open) && cities == old(cities)
      ensures selectedLegalService == old(selectedLegalService) && isSubmitting == old(isSubmitting)
    {
      FormatIdempotent(typed);
      form := form.(phone := FormatPhoneNumber(typed));
    }

    /** The effect that runs when the watched state value changes. */
    method CityCascade()
      modifies this
      ensures cities == ModalCandidates(data, form.state)
      ensures form == (if old(form).state == "" then old(form).(city := "") else old(form))
      ensures open == old(open)
      ensures selectedLegalService == old(selectedLegalService) && isSubmitting == old(isSubmitting)
    {
      if form.state != "" {
        var code := KnownCode(data, form.state);
        if code.Some? {
          cities := data.citiesOf(code.value);
        } else {
          cities := [];
        }
      } else {
        cities := [];
        form := form.(city := "");
      }
    }

    /**
     * The state picker's onChange: the state is set, the city cleared, and
     * the candidates recomputed for the new state.
     */
    method SelectState(newValue: Option<string>)
      requires Valid()
      modifies this
      ensures Valid()
      ensures form == old(form).(state := OrEmpty(newValue), city := "")
      ensures cities == ModalCandidates(data, OrEmpty(newValue))
      ensures open == old(open)
      ensures selectedLegalService == old(selectedLegalService) && isSubmitting == old(isSubmitting)
    {
      var previous := form.state;
      form := form.(state := OrEmpty(newValue), city := "");
      if form.state != previous {
        CityCascade();
      }
    }

    /** The city picker's onChange and onInputChange; the picker is disabled while no state is set. */
    method SetCity(newValue: Option<string>)
      requires Valid()
      requires form.state != ""
      modifies this
      ensures Valid()
      ensures form == old(form).(city := OrEmpty(newValue))
      ensures open == old(open) && cities == old(cities)
      ensures selectedLegalService == old(selectedLegalService) && isSubmitting == old(isSubmitting)
    {
      form := form.(city := OrEmpty(newValue));
    }

    /** The service picker's onChange. */
    method SelectLegalService(newValue: Option<string>)
      requires Valid()
      modifies this
      ensures Valid()
      ensures form == old(form).(legalService := OrEmpty(newValue))
      ensures selectedLegalService == newValue
      ensures open == old(open) && cities == old(cities) && isSubmitting == old(isSubmitting)
    {
      form := form.(legalService := OrEmpty(newValue));
      selectedLegalService := newValue;
    }

    /**
     * `handleSubmit(onSubmit)` up to the network call: the schema runs on the
     * whole form; with any error nothing is sent and nothing changes,
     * otherwise the request is built and the form is marked as submitting.
     * The submit button is disabled while a request is in flight.
     */
    method BeginSubmit(emailOk: string -> bool) returns (errors: set<ModalField>, request: Option<Application>)
      requires Valid()
      requires !isSubmitting
      modifies this
      ensures Valid()
      ensures errors == ModalErrors(old(form), emailOk)
      ensures errors != {} ==> request.None? && !isSubmitting
      ensures errors == {} ==> request == Some(ApplicationOf(old(form))) && isSubmitting
      ensures form == old(form) && open == old(open) && cities == old(cities)
      ensures selectedLegalService == old(selectedLegalService)
    {
      errors := ModalErrors(form, emailOk);
      if errors == {} {
        isSubmitting := true;
        request := Some(ApplicationOf(form));
      } else {
        request := None;
      }
    }

    /**
     * The rest of onSubmit once the call settles: on success a thank-you
     * toast and the reset of handleCloseModal; on failure an error toast
     * and the form kept as it was. Either way the form is no longer submitting.
     */
    method FinishSubmit(outcome: CallOutcome) returns (toast: Toast)
      requires Valid()
      requires isSubmitting
      modifies this
      ensures Valid()
      ensures !isSubmitting
      ensures outcome.Succeeded? ==> toast == SuccessToast(SubmitThanks)
      ensures outcome.Succeeded? ==> !open && form == EmptyModalForm && cities == [] && selectedLegalService == None
      ensures outcome.Failed? ==> toast == ErrorToast(SubmitErrorMessage(outcome.body))
      ensures outcome.Failed? ==> open == old(open) && form == old(form) && cities == old(cities)
      ensures outcome.Failed? ==> selectedLegalService == old(selectedLegalService)
    {
      match outcome {
        case Succeeded =>
          toast := SuccessToast(SubmitThanks);
          Close();
        case Failed(_, body) =>
          toast := ErrorToast(SubmitErrorMessage(body));
      }
      isSubmitting := false;
    }
  }
}
