/**
 * The contact form of the site footer: its schema, the state picker with its
 * override table for territories, the state-code label table, the reset on
 * submit, and the hand-over of a legal service picked elsewhere on the page.
 */
module Footer {
  import opened Wrappers
  import opened Phone
  import opened Location
  import opened Remote
  import LeadForm

  /**
   * The values the footer form holds. `legalService` is `null` (None) after
   * the service picker is cleared, since its handler stores `newValue || null`.
   */
  datatype FooterForm = FooterForm(
    firstName: string,
    lastName: string,
    email: string,
    phoneNumber: string,
    message: string,
    legalService: Option<string>,
    state: string,
    city: string)

  /** The form's `defaultValues`. */
  const DefaultFooterForm := FooterForm("", "", "", "", "", Some(""), "", "")

  datatype FooterField = FirstName | LastName | Email | PhoneNumber | Message | LegalService | State | City

  const SentToast := "Message sent successfully! We will contact you soon."

  /** The rule the footer `schema` applies to one field; `emailOk` is yup's `.email()` grammar. */
  predicate FieldAccepts(form: FooterForm, field: FooterField, emailOk: string -> bool) {
    match field
    case FirstName => form.firstName != ""
    case LastName => form.lastName != ""
    case Email => form.email != "" && emailOk(form.email)
    case PhoneNumber => FooterPhoneAccepts(form.phoneNumber)
    case Message => true
    case LegalService => Truthy(form.legalService)
    case State => form.state != ""
    case City => form.city != ""
  }

  /** The contact fields the footer `schema` rejects. */
  function ContactErrors(form: FooterForm, emailOk: string -> bool): (errors: set<FooterField>)
    ensures forall field :: field in errors <==>
              field in {FirstName, LastName, Email, PhoneNumber} && !FieldAccepts(form, field, emailOk)
  {
    (if form.firstName == "" then {FirstName} else {})
    + (if form.lastName == "" then {LastName} else {})
    + (if form.email == "" || !emailOk(form.email) then {Email} else {})
    + (if form.phoneNumber != "" && !IsGroupedPhone(form.phoneNumber) then {PhoneNumber} else {})
  }

  /** The request fields the footer `schema` rejects; the message has no rule. */
  function RequestErrors(form: FooterForm, emailOk: string -> bool): (errors: set<FooterField>)
    ensures forall field :: field in errors <==>
              field in {Message, LegalService, State, City} && !FieldAccepts(form, field, emailOk)
  {
    (if !Truthy(form.legalService) then {LegalService} else {})
    + (if form.state == "" then {State} else {})
    + (if form.city == "" then {City} else {})
  }

  /** The fields the footer `schema` rejects. */
  function FooterErrors(form: FooterForm, emailOk: string -> bool): (errors: set<FooterField>)
    ensures forall field :: field in errors <==> !FieldAccepts(form, field, emailOk)
    ensures Message !in errors
  {
    ContactErrors(form, emailOk) + RequestErrors(form, emailOk)
  }

  /** An empty phone number never makes the footer form invalid; a non-empty one only if it is not grouped 3-3-4. */
  lemma PhoneIsOptional(form: FooterForm, emailOk: string -> bool)
    ensures form.phoneNumber == "" ==> PhoneNumber !in FooterErrors(form, emailOk)
    ensures form.phoneNumber != "" ==> (PhoneNumber in FooterErrors(form, emailOk) <==> !IsGroupedPhone(form.phoneNumber))
  {
    assert FieldAccepts(form, PhoneNumber, emailOk) <==> FooterPhoneAccepts(form.phoneNumber);
  }

  // ---------------------------------------------------------------------
  // The state picker's city lists
  // ---------------------------------------------------------------------

  /** The territories whose city list is written into the state picker's handler. */
  const OverrideNames: seq<string> := [
    "American Samoa", "Baker Island", "Wake Island", "United States Virgin Islands",
    "United States Minor Outlying Islands", "Palmyra Atoll", "Northern Mariana Islands",
    "Navassa Island", "Midway Atoll", "Jarvis Island", "Johnston Atoll", "Howland Island",
    "Kingman Reef"]

  /** The hard-coded city list of a territory, tried in the handler's order before any lookup. */
  function OverrideCities(name: string): Option<seq<string>> {
    if name == "American Samoa" then Some(["Pago Pago", "Tafuna", "Leone"])
    else if name == "Baker Island" then Some(["Baker City"])
    else if name == "Wake Island" then Some(["Wake City"])
    else if name == "United States Virgin Islands" then Some(["Charlotte Amalie", "Christiansted", "Frederiksted"])
    else if name == "United States Minor Outlying Islands" then Some(["Johnston Atoll", "Kingman Reef"])
    else if name == "Palmyra Atoll" then Some(["Cooper Island"])
    else if name == "Northern Mariana Islands" then Some(["Saipan", "Tinian", "Rota"])
    else if name == "Navassa Island" then Some(["Navassa City"])
    else if name == "Midway Atoll" then Some(["Sand Island"])
    else if name == "Jarvis Island" then Some(["Jarvis City"])
    else if name == "Johnston Atoll" then Some(["Johnston City"])
    else if name == "Howland Island" then Some(["Howland City"])
    else if name == "Kingman Reef" then Some(["Kingman City"])
    else None
  }

  /** Exactly the thirteen territories have an override, and every override list is non-empty. */
  lemma OverrideDomain(name: string)
    ensures OverrideCities(name).Some? <==> name in OverrideNames
    ensures OverrideCities(name).Some? ==> |OverrideCities(name).value| > 0
  {
  }

  /**
   * The candidate list after the state picker's onChange selects `name`,
   * given the list shown before.
   */
  function FooterCandidates(data: LocationData, name: string, previous: seq<string>): (cities: seq<string>)
    ensures OverrideCities(name).Some? ==> cities == OverrideCities(name).value
    ensures OverrideCities(name).None? && name != "" && KnownCode(data, name).Some? ==>
              cities == data.citiesOf(KnownCode(data, name).value)
    ensures OverrideCities(name).None? && name != "" && KnownCode(data, name).None? ==> cities == previous
    ensures name == "" ==> cities == []
  {
    match OverrideCities(name)
    case Some(list) => list
    case None =>
      if name != "" then
        match KnownCode(data, name)
        case Some(code) => data.citiesOf(code)
        case None => previous
      else []
  }

  /** For a territory with an override, neither the location data nor the previous list matters. */
  lemma OverrideIgnoresLookup(data1: LocationData, data2: LocationData, name: string, previous1: seq<string>, previous2: seq<string>)
    requires name in OverrideNames
    ensures FooterCandidates(data1, name, previous1) == FooterCandidates(data2, name, previous2)
  {
    OverrideDomain(name);
  }

  /**
   * For a state without an override that the location data knows, the footer
   * offers the same cities as the modal's cascade.
   */
  lemma FooterAgreesWithModal(data: LocationData, name: string, previous: seq<string>)
    requires name !in OverrideNames
    requires KnownCode(data, name).Some?
    ensures FooterCandidates(data, name, previous) == LeadForm.ModalCandidates(data, name)
  {
    OverrideDomain(name);
  }

  // ---------------------------------------------------------------------
  // The state picker's option labels
  // ---------------------------------------------------------------------

  /**
   * The table of `getOptionLabel`: the two-letter codes of the fifty states,
   * in the source's order, written as ten blocks of five so that the
   * verifier can check each block on its own.
   */
  const StateNames1: map<string, string> := map[
    "AL" := "Alabama", "AK" := "Alaska", "AZ" := "Arizona", "AR" := "Arkansas", "CA" := "California"]

  const StateNames2: map<string, string> := map[
    "CO" := "Colorado", "CT" := "Connecticut", "DE" := "Delaware", "FL" := "Florida", "GA" := "Georgia"]

  const StateNames3: map<string, string> := map[
    "HI" := "Hawaii", "ID" := "Idaho", "IL" := "Illinois", "IN" := "Indiana", "IA" := "Iowa"]

  const StateNames4: map<string, string> := map[
    "KS" := "Kansas", "KY" := "Kentucky", "LA" := "Louisiana", "ME" := "Maine", "MD" := "Maryland"]

  const StateNames5: map<string, string> := map[
    "MA" := "Massachusetts", "MI" := "Michigan", "MN" := "Minnesota", "MS" := "Mississippi", "MO" := "Missouri"]

  const StateNames6: map<string, string> := map[
    "MT" := "Montana", "NE" := "Nebraska", "NV" := "Nevada", "NH" := "New Hampshire", "NJ" := "New Jersey"]

  const StateNames7: map<string, string> := map[
    "NM" := "New Mexico", "NY" := "New York", "NC" := "North Carolina", "ND" := "North Dakota", "OH" := "Ohio"]

  const StateNames8: map<string, string> := map[
    "OK" := "Oklahoma", "OR" := "Oregon", "PA" := "Pennsylvania", "RI" := "Rhode Island", "SC" := "South Carolina"]

  const StateNames9: map<string, string> := map[
    "SD" := "South Dakota", "TN" := "Tennessee", "TX" := "Texas", "UT" := "Utah", "VT" := "Vermont"]

  const StateNames10: map<string, string> := map[
    "VA" := "Virginia", "WA" := "Washington", "WV" := "West Virginia", "WI" := "Wisconsin", "WY" := "Wyoming"]

  const StateNames: map<string, string> :=
    StateNames1 + StateNames2 + StateNames3 + StateNames4 + StateNames5 + StateNames6 + StateNames7 + StateNames8 + StateNames9 + StateNames10

  /** Every key is a two-letter code and every value a name of at least four letters. */
  predicate CodeTableShape(table: map<string, string>) {
    forall code :: code in table ==> |code| == 2 && |table[code]| >= 4
  }

  // The lemmas from here to StateNamesShape only establish that the label
  // table has this shape, which LabelIn needs. They go block by block and
  // then join the blocks, because one proof over all fifty entries is too
  // costly for the solver.

  lemma UnionShape(left: map<string, string>, right: map<string, string>)
    requires CodeTableShape(left) && CodeTableShape(right)
    ensures CodeTableShape(left + right)
  {
  }

  lemma StateNames1Shape()
    ensures forall code :: code in StateNames1 ==> |code| == 2 && |StateNames1[code]| >= 4
  {
  }

  lemma StateNames2Shape()
    ensures forall code :: code in StateNames2 ==> |code| == 2 && |StateNames2[code]| >= 4
  {
  }

  lemma StateNames3Shape()
    ensures forall code :: code in StateNames3 ==> |code| == 2 && |StateNames3[code]| >= 4
  {
  }

  lemma StateNames4Shape()
    ensures forall code :: code in StateNames4 ==> |code| == 2 && |StateNames4[code]| >= 4
  {
  }

  lemma StateNames5Shape()
    ensures forall code :: code in StateNames5 ==> |code| == 2 && |StateNames5[code]| >= 4
  {
  }

  lemma StateNames6Shape()
    ensures forall code :: code in StateNames6 ==> |code| == 2 && |StateNames6[code]| >= 4
  {
  }

  lemma StateNames7Shape()
    ensures forall code :: code in StateNames7 ==> |code| == 2 && |StateNames7[code]| >= 4
  {
  }

  lemma StateNames8Shape()
    ensures forall code :: code in StateNames8 ==> |code| == 2 && |StateNames8[code]| >= 4
  {
  }

  lemma StateNames9Shape()
    ensures forall code :: code in StateNames9 ==> |code| == 2 && |StateNames9[code]| >= 4
  {
  }

  lemma StateNames10Shape()
    ensures forall code :: code in StateNames10 ==> |code| == 2 && |StateNames10[code]| >= 4
  {
  }

  /** Ten tables of code-table shape joined together keep that shape. */
  lemma JoinedShape(
    m1: map<string, string>, m2: map<string, string>, m3: map<string, string>, m4: map<string, string>,
    m5: map<string, string>, m6: map<string, string>, m7: map<string, string>, m8: map<string, string>,
    m9: map<string, string>, m10: map<string, string>)
    requires CodeTableShape(m1) && CodeTableShape(m2) && CodeTableShape(m3) && CodeTableShape(m4)
    requires CodeTableShape(m5) && CodeTableShape(m6) && CodeTableShape(m7) && CodeTableShape(m8)
    requires CodeTableShape(m9) && CodeTableShape(m10)
    ensures CodeTableShape(m1 + m2 + m3 + m4 + m5 + m6 + m7 + m8 + m9 + m10)
  {
    UnionShape(m1, m2);
    UnionShape(m1 + m2, m3);
    UnionShape(m1 + m2 + m3, m4);
    UnionShape(m1 + m2 + m3 + m4, m5);
    UnionShape(m1 + m2 + m3 + m4 + m5, m6);
    UnionShape(m1 + m2 + m3 + m4 + m5 + m6, m7);
    UnionShape(m1 + m2 + m3 + m4 + m5 + m6 + m7, m8);
    UnionShape(m1 + m2 + m3 + m4 + m5 + m6 + m7 + m8, m9);
    UnionShape(m1 + m2 + m3 + m4 + m5 + m6 + m7 + m8 + m9, m10);
  }

  /** The label table has the shape of a code table. */
  lemma StateNamesShape()
    ensures CodeTableShape(StateNames)
  {
    StateNames1Shape();
    StateNames2Shape();
    StateNames3Shape();
    StateNames4Shape();
    StateNames5Shape();
    StateNames6Shape();
    StateNames7Shape();
    StateNames8Shape();
    StateNames9Shape();
    StateNames10Shape();
    JoinedShape(StateNames1, StateNames2, StateNames3, StateNames4, StateNames5, StateNames6, StateNames7, StateNames8, StateNames9, StateNames10);
  }

  /** `table[option] || option` for a table of code-table shape. */
  function LabelIn(table: map<string, string>, option: string): (shown: string)
    requires CodeTableShape(table)
    ensures option in table ==> shown == table[option]
    ensures option !in table ==> shown == option
  {
    if option in table && table[option] != "" then table[option] else option
  }

  /** getOptionLabel: a state code's name, or the option itself. */
  function StateLabel(option: string): (shown: string)
    ensures option in StateNames ==> shown == StateNames[option]
    ensures option !in StateNames ==> shown == option
  {
    StateNamesShape();
    LabelIn(StateNames, option)
  }

  /** The label of an option differs from it exactly when the option is one of the fifty codes. */
  lemma StateLabelChangesExactlyCodes(option: string)
    ensures StateLabel(option) != option <==> option in StateNames
  {
    StateNamesShape();
  }

  // ---------------------------------------------------------------------
  // The footer form's state
  // ---------------------------------------------------------------------

  /** The footer contact form: its values, the state shown in the picker, the city candidates and the picked service. */
  class FooterController {
    const data: LocationData
    var form: FooterForm
    var selectedState: string
    var cities: seq<string>
    var selectedLegalService: Option<string>

    /**
     * What every handler keeps: the picker shows the form's state, no city
     * without a state, the stored phone is already formatted, and the
     * service picker shows the form's service.
     */
    ghost predicate Valid()
      reads this
    {
      && selectedState == form.state
      && (form.state == "" ==> form.city == "")
      && FormatPhoneNumber(form.phoneNumber) == form.phoneNumber
      && OrEmpty(form.legalService) == OrEmpty(selectedLegalService)
    }

    constructor (data: LocationData)
      ensures Valid()
      ensures this.data == data
      ensures form == DefaultFooterForm && selectedState == "" && cities == [] && selectedLegalService == None
    {
      this.data := data;
      form := DefaultFooterForm;
      selectedState := "";
      cities := [];
      selectedLegalService := None;
    }

    /** onChange of the first name, last name, email or message field. */
    method TypeText(field: FooterField, value: string)
      requires Valid()
      requires field in {FirstName, LastName, Email, Message}
      modifies this
      ensures Valid()
      ensures field == FirstName ==> form == old(form).(firstName := value)
      ensures field == LastName ==> form == old(form).(lastName := value)
      ensures field == Email ==> form == old(form).(email := value)
      ensures field == Message ==> form == old(form).(message := value)
      ensures selectedState == old(selectedState) && cities == old(cities)
      ensures selectedLegalService == old(selectedLegalService)
    {
      match field {
        case FirstName => form := form.(firstName := value);
        case LastName => form := form.(lastName := value);
        case Email => form := form.(email := value);
        case Message => form := form.(message := value);
      }
    }

    /** The phone field's inline onChange. */
    method TypePhone(typed: string)
      requires Valid()
      modifies this
      ensures Valid()
      ensures form == old(form).(phoneNumber := FormatPhoneNumber(typed))
      ensures selectedState == old(selectedState) && cities == old(cities)
      ensures selectedLegalService == old(selectedLegalService)
    {
      var formattedValue := Phone.FooterPhoneOnChange(typed);
      FormatIdempotent(typed);
      form := form.(phoneNumber := formattedValue);
    }

    /**
     * The state picker's onChange: state set and city cleared; a territory
     * gets its hard-coded list, a known state its cities, an unknown name
     * keeps the previous list, and no selection empties it.
     */
    method SelectState(newValue: Option<string>)
      requires Valid()
      modifies this
      ensures Valid()
      ensures form == old(form).(state := OrEmpty(newValue), city := "")
      ensures selectedState == OrEmpty(newValue)
      ensures cities == FooterCandidates(data, OrEmpty(newValue), old(cities))
      ensures selectedLegalService == old(selectedLegalService)
    {
      var name := OrEmpty(newValue);
      form := form.(state := name);
      selectedState := name;
      form := form.(city := "");
      var overridden := OverrideCities(name);
      if overridden.Some? {
        cities := overridden.value;
      } else if name != "" {
        var stateCode := KnownCode(data, name);
        if stateCode.Some? {
          cities := data.citiesOf(stateCode.value);
        }
      } else {
        cities := [];
      }
    }

    /** The state picker's onInputChange: every keystroke sets the state to the text typed and clears the city; the list stays. */
    method TypeState(input: string)
      requires Valid()
      modifies this
      ensures Valid()
      ensures form == old(form).(state := input, city := "")
      ensures selectedState == input
      ensures cities == old(cities) && selectedLegalService == old(selectedLegalService)
    {
      selectedState := input;
      form := form.(state := input);
      form := form.(city := "");
    }

    /** The city picker's onChange and onInputChange; the picker is disabled while no state is set. */
    method SetCity(newValue: Option<string>)
      requires Valid()
      requires form.state != ""
      modifies this
      ensures Valid()
      ensures form == old(form).(city := OrEmpty(newValue))
      ensures selectedState == old(selectedState) && cities == old(cities)
      ensures selectedLegalService == old(selectedLegalService)
    {
      form := form.(city := OrEmpty(newValue));
    }

    /** The service picker's onChange: the form keeps `newValue || null`, the picker `newValue`. */
    method SelectLegalService(newValue: Option<string>)
      requires Valid()
      modifies this
      ensures Valid()
      ensures form == old(form).(legalService := if Truthy(newValue) then newValue else None)
      ensures selectedLegalService == newValue
      ensures selectedState == old(selectedState) && cities == old(cities)
    {
      form := form.(legalService := if Truthy(newValue) then newValue else None);
      selectedLegalService := newValue;
    }

    /** The `serviceSelected` event sent when a service card on the home page is clicked. */
    method OnServiceSelected(serviceName: string)
      requires Valid()
      modifies this
      ensures Valid()
      ensures form == old(form).(legalService := Some(serviceName))
      ensures selectedLegalService == Some(serviceName)
      ensures selectedState == old(selectedState) && cities == old(cities)
    {
      selectedLegalService := Some(serviceName);
      form := form.(legalService := Some(serviceName));
    }

    /**
     * On mount, a service left in browser storage under `selectedLegalService`
     * is applied and then removed; an empty or missing entry is left as it is.
     * Returns what the storage entry holds afterwards.
     */
    method ApplyStoredService(stored: Option<string>) returns (remaining: Option<string>)
      requires Valid()
      modifies this
      ensures Valid()
      ensures Truthy(stored) ==> remaining.None?
      ensures Truthy(stored) ==> form == old(form).(legalService := stored) && selectedLegalService == stored
      ensures !Truthy(stored) ==> remaining == stored && form == old(form)
      ensures !Truthy(stored) ==> selectedLegalService == old(selectedLegalService)
      ensures selectedState == old(selectedState) && cities == old(cities)
    {
      remaining := stored;
      if Truthy(stored) {
        selectedLegalService := stored;
        form := form.(legalService := stored);
        remaining := None;
      }
    }

    /**
     * `handleSubmit(onSubmit)`: with any schema error nothing changes; otherwise
     * a success toast is shown (no request is sent) and every field, the
     * picked state, the candidates and the picked service are cleared.
     */
    method Submit(emailOk: string -> bool) returns (errors: set<FooterField>, toast: Option<Toast>)
      requires Valid()
      modifies this
      ensures Valid()
      ensures errors == FooterErrors(old(form), emailOk)
      ensures errors != {} ==> toast.None? && form == old(form) && selectedState == old(selectedState)
      ensures errors != {} ==> cities == old(cities) && selectedLegalService == old(selectedLegalService)
      ensures errors == {} ==> toast == Some(SuccessToast(SentToast))
      ensures errors == {} ==> form == FooterForm("", "", "", "", "", Some(""), "", "")
      ensures errors == {} ==> selectedState == "" && cities == [] && selectedLegalService == None
    {
      errors := FooterErrors(form, emailOk);
      if errors != {} {
        toast := None;
        return;
      }
      toast := Some(SuccessToast(SentToast));
      selectedLegalService := None;
      selectedState := "";
      cities := [];
      form := form.(firstName := "", lastName := "", email := "", phoneNumber := "");
      form := form.(message := "", legalService := Some(""), state := "", city := "");
    }
  }

  /**
   * A service card click on the home page stores the service name; a footer
   * that mounts afterwards shows that service and empties the storage entry.
   */
  method StoredServiceHandoff(data: LocationData, serviceName: string) returns (shown: Option<string>, remaining: Option<string>)
    requires serviceName != ""
    ensures shown == Some(serviceName) && remaining.None?
  {
    var stored := Some(serviceName);
    var footer := new FooterController(data);
    remaining := footer.ApplyStoredService(stored);
    shown := footer.form.legalService;
  }
}
