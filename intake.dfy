/**
 * The intake form: `validateAndSubmit` checks the eight fields, and
 * `initiateKBAConnection` stores the client profile and builds the
 * connection request. The request itself is sent over the network, which is
 * not modelled; `Date.now()` is a parameter.
 */
module Intake {
  import opened Wrappers
  import opened Numbers
  import opened JsStrings

  /** The raw values of the eight form fields, as the inputs hold them. */
  datatype IntakeForm = IntakeForm(
    firstName: string, lastName: string, dob: string, ssn: string,
    address: string, city: string, state: string, zip: string)

  /** The reasons a submission stops before any request is sent. */
  datatype IntakeError = MissingField | InvalidSsn | InvalidZip | AddressTooLong

  /** The message the user is shown for each error. */
  function ErrorMessage(e: IntakeError): string {
    match e
    case MissingField => "Please fill in all required fields."
    case InvalidSsn => "Please enter a valid 9-digit Social Security Number."
    case InvalidZip => "Please enter a valid 5-digit ZIP code."
    case AddressTooLong => "Address must be 50 characters or less"
  }

  /** Each error is announced with its own message, so the user can tell which check failed. */
  lemma ErrorMessagesDistinct(e: IntakeError, e': IntakeError)
    ensures ErrorMessage(e) == ErrorMessage(e') ==> e == e'
  {
  }

  /** `storedFormData`: the raw field values, with an empty second address line. */
  datatype ClientProfile = ClientProfile(
    firstName: string, lastName: string, dateOfBirth: string, ssn: string,
    address1: string, address2: string, city: string, state: string, zip: string)

  /** The body of the connection request (`userData`). */
  datatype ConnectRequest = ConnectRequest(
    firstName: string, lastName: string, dateOfBirth: string, ssn: string,
    addressLine1: string, city: string, state: string, zip: string, extUserId: string)

  /** The longest address line the connection accepts. */
  const MaxAddressLength := 50

  /** Every field is non-empty once trimmed. */
  predicate AllFilled(f: IntakeForm) {
    Trim(f.firstName) != [] && Trim(f.lastName) != [] && Trim(f.dob) != [] && Trim(f.ssn) != []
    && Trim(f.address) != [] && Trim(f.city) != [] && Trim(f.state) != [] && Trim(f.zip) != []
  }

  /** The SSN holds exactly nine digits once everything else is stripped. */
  predicate SsnValid(ssn: string) {
    |DigitsOnly(Trim(ssn))| == 9
  }

  /** `/^\d{5}$/.test(zip)`: exactly five ASCII digits and nothing else. */
  predicate IsFiveDigits(zip: string) {
    |zip| == 5 && AllDigits(zip)
  }

  /** The checks of `validateAndSubmit`, in order; `None` means all of them pass. */
  function ValidateFields(f: IntakeForm): (r: Option<IntakeError>)
    ensures r == None <==> AllFilled(f) && SsnValid(f.ssn) && IsFiveDigits(Trim(f.zip))
    ensures r == Some(MissingField) <==> !AllFilled(f)
    ensures r == Some(InvalidSsn) <==> AllFilled(f) && !SsnValid(f.ssn)
    ensures r == Some(InvalidZip) <==> AllFilled(f) && SsnValid(f.ssn) && !IsFiveDigits(Trim(f.zip))
    ensures r != Some(AddressTooLong)
  {
    if !AllFilled(f) then Some(MissingField)
    else if !SsnValid(f.ssn) then Some(InvalidSsn)
    else if !IsFiveDigits(Trim(f.zip)) then Some(InvalidZip)
    else None
  }

  /** The profile kept for the report: the untrimmed values as typed. */
  function StoredProfile(f: IntakeForm): (r: ClientProfile)
    ensures r.address2 == ""
  {
    ClientProfile(f.firstName, f.lastName, f.dob, f.ssn, f.address, "", f.city, f.state, f.zip)
  }

  /** The form as the stored profile still holds it. */
  function FormOf(p: ClientProfile): IntakeForm {
    IntakeForm(p.firstName, p.lastName, p.dateOfBirth, p.ssn, p.address1, p.city, p.state, p.zip)
  }

  /**
   * Storing loses nothing the user typed, whitespace included: the form can
   * be read back from the profile, so two different forms are never stored
   * as the same profile.
   */
  lemma StoredProfileKeepsForm(f: IntakeForm, g: IntakeForm)
    ensures FormOf(StoredProfile(f)) == f
    ensures StoredProfile(f) == StoredProfile(g) ==> f == g
  {
  }

  /**
   * `initiateKBAConnection` up to the request: the profile is stored first,
   * then an address longer than 50 characters stops the request; otherwise
   * the request carries the SSN's digits, the raw remaining fields, and an
   * external user id built from the clock.
   */
  function InitiateKbaConnection(f: IntakeForm, now: nat): (r: (ClientProfile, Result<ConnectRequest, IntakeError>))
    ensures r.0.address2 == "" && r.0.ssn == f.ssn && r.0.address1 == f.address
    ensures r.1.Failure? <==> |f.address| > MaxAddressLength
    ensures r.1.Failure? ==> r.1.error == AddressTooLong
    ensures r.1.Success? ==> AllDigits(r.1.value.ssn) && r.1.value.ssn == DigitsOnly(f.ssn)
    ensures r.1.Success? ==> |r.1.value.addressLine1| <= MaxAddressLength
    ensures r.1.Success? ==> |r.1.value.extUserId| > 5 && r.1.value.extUserId[..5] == "user_" && AllDigits(r.1.value.extUserId[5..])
    ensures r.1.Success? ==> r.1.value.extUserId == "user_" + NatToString(now)
  {
    var stored := StoredProfile(f);
    if |f.address| > MaxAddressLength then (stored, Failure(AddressTooLong))
    else
      var id := "user_" + NatToString(now);
      assert id[5..] == NatToString(now);
      (stored, Success(ConnectRequest(f.firstName, f.lastName, f.dob, DigitsOnly(f.ssn),
        f.address, f.city, f.state, f.zip, id)))
  }

  /**
   * What one press of the submit button leaves behind: the stored profile
   * (`None` when validation stopped before it was written) and the request
   * or the error the user is alerted with.
   */
  datatype SubmitOutcome = SubmitOutcome(stored: Option<ClientProfile>, request: Result<ConnectRequest, IntakeError>)

  /** `validateAndSubmit`. */
  function ValidateAndSubmit(f: IntakeForm, now: nat): (r: SubmitOutcome)
    ensures r.stored.None? <==> ValidateFields(f).Some?
    ensures r.stored.Some? ==> r.stored.value == StoredProfile(f)
  {
    match ValidateFields(f)
    case Some(e) => SubmitOutcome(None, Failure(e))
    case None =>
      var (stored, request) := InitiateKbaConnection(f, now);
      SubmitOutcome(Some(stored), request)
  }

  /**
   * A request is sent exactly when every field is filled, the SSN has nine
   * digits, the ZIP is five digits and the raw address fits in 50 characters.
   */
  lemma SubmitAcceptedIff(f: IntakeForm, now: nat)
    ensures ValidateAndSubmit(f, now).request.Success? <==>
      AllFilled(f) && SsnValid(f.ssn) && IsFiveDigits(Trim(f.zip)) && |f.address| <= MaxAddressLength
  {
  }

  /**
   * The checks stop at the first failure: a form that is both incomplete
   * and malformed is reported as incomplete, and a bad SSN is reported
   * before a bad ZIP or a long address.
   */
  lemma SubmitErrorOrder(f: IntakeForm, now: nat)
    ensures !AllFilled(f) ==> ValidateAndSubmit(f, now).request == Failure(MissingField)
    ensures AllFilled(f) && !SsnValid(f.ssn) ==> ValidateAndSubmit(f, now).request == Failure(InvalidSsn)
    ensures AllFilled(f) && SsnValid(f.ssn) && !IsFiveDigits(Trim(f.zip)) ==>
      ValidateAndSubmit(f, now).request == Failure(InvalidZip)
  {
  }

  /** The value is empty or holds only characters `trim` removes. */
  predicate AllWhitespace(s: string) {
    forall k :: 0 <= k < |s| ==> IsJsWhitespace(s[k])
  }

  /**
   * A form is incomplete exactly when one of its eight fields is empty or
   * holds only whitespace, and such a form is always reported as missing a
   * field.
   */
  lemma BlankFieldIsMissing(f: IntakeForm, now: nat)
    ensures !AllFilled(f) <==>
      AllWhitespace(f.firstName) || AllWhitespace(f.lastName) || AllWhitespace(f.dob) || AllWhitespace(f.ssn)
      || AllWhitespace(f.address) || AllWhitespace(f.city) || AllWhitespace(f.state) || AllWhitespace(f.zip)
    ensures !AllFilled(f) ==> ValidateAndSubmit(f, now).request == Failure(MissingField)
  {
    TrimEmptyIff(f.firstName);
    TrimEmptyIff(f.lastName);
    TrimEmptyIff(f.dob);
    TrimEmptyIff(f.ssn);
    TrimEmptyIff(f.address);
    TrimEmptyIff(f.city);
    TrimEmptyIff(f.state);
    TrimEmptyIff(f.zip);
  }

  /**
   * Although validation counts the digits of the trimmed SSN and the request
   * strips the raw one, every request that is sent carries exactly nine
   * digits.
   */
  lemma RequestSsnHasNineDigits(f: IntakeForm, now: nat)
    requires ValidateAndSubmit(f, now).request.Success?
    ensures var ssn := ValidateAndSubmit(f, now).request.value.ssn; |ssn| == 9 && AllDigits(ssn)
  {
    DigitsOnlyOfTrim(f.ssn);
  }

  /** A value that starts and ends with a visible ASCII character is left as it is by `trim`. */
  lemma TrimOfTrimmed(s: string)
    requires s != [] && '!' <= s[0] <= '~' && '!' <= s[|s| - 1] <= '~'
    ensures Trim(s) == s
  {
    assert LeadingWhitespace(s) == 0;
    assert TrailingWhitespace(s) == 0;
  }

  /** A well-formed client: every field visible, a nine-digit SSN, a five-digit ZIP, a short address. */
  const SampleForm := IntakeForm("Jane", "Doe", "1990-01-01", "123456789", "1 Main St", "Springfield", "IL", "62704")

  lemma SampleFilled()
    ensures AllFilled(SampleForm)
  {
    var f := SampleForm;
    TrimOfTrimmed(f.firstName);
    TrimOfTrimmed(f.lastName);
    TrimOfTrimmed(f.dob);
    TrimOfTrimmed(f.ssn);
    TrimOfTrimmed(f.address);
    TrimOfTrimmed(f.city);
    TrimOfTrimmed(f.state);
    TrimOfTrimmed(f.zip);
  }

  lemma SampleDigits()
    ensures AllDigits("123456789") && AllDigits("62704")
  {
  }

  lemma SampleSsnAndZip()
    ensures SsnValid(SampleForm.ssn) && DigitsOnly(SampleForm.ssn) == SampleForm.ssn
    ensures IsFiveDigits(Trim(SampleForm.zip))
  {
    TrimOfTrimmed(SampleForm.ssn);
    TrimOfTrimmed(SampleForm.zip);
    SampleDigits();
    DigitsOnlyOfDigits(SampleForm.ssn);
  }

  /** The sample client passes every check, and the request carries the SSN unchanged. */
  lemma SampleFormAccepted(now: nat)
    ensures ValidateAndSubmit(SampleForm, now).request.Success?
    ensures ValidateAndSubmit(SampleForm, now).request.value.ssn == "123456789"
  {
    SampleFilled();
    SampleSsnAndZip();
    assert ValidateFields(SampleForm) == None;
  }
}
