/** The login form as a state machine on values: the role radio buttons, the
    phone and OTP inputs with their digit filters, "Send OTP" and its
    delayed delivery of a demo code, "Change Number", and "Login", which
    signs the user in when the typed code equals the generated one. */
module LoginFlow {
  import opened Text
  import opened Session
  import opened BrowserStore

  datatype Form = Form(
    userType: string,
    phone: string,
    otp: string,
    isOtpSent: bool,
    generatedOtp: string,
    isLoading: bool)

  /** The form as the page first renders it. */
  const InitialForm: Form := Form(VendorRole, "", "", false, "", false)

  /** What every reachable form satisfies: a known role, a phone of at most
      ten digits and a code of at most six; while a code is awaited the
      phone has ten digits; once one is sent it is a six-digit code and the
      phone still has ten digits; before that no code exists and none has
      been typed. */
  predicate Valid(f: Form) {
    && IsRole(f.userType)
    && AllDigits(f.phone) && |f.phone| <= 10
    && AllDigits(f.otp) && |f.otp| <= 6
    && (f.isLoading ==> !f.isOtpSent && |f.phone| == 10)
    && (f.isOtpSent ==> |f.phone| == 10 && IsSixDigitCode(f.generatedOtp))
    && (!f.isOtpSent ==> f.otp == "" && f.generatedOtp == "")
  }

  lemma InitialFormValid()
    ensures Valid(InitialForm)
  {
  }

  /** A radio button of "Who are you?". */
  function SelectRole(f: Form, role: string): (g: Form)
    requires IsRole(role)
    ensures g.userType == role
    ensures Valid(f) ==> Valid(g)
  {
    f.(userType := role)
  }

  /** The phone input as written: disabled once a code has been sent, but
      open while one is awaited. */
  function EditPhoneAsWritten(f: Form, raw: string): (g: Form)
    ensures g.phone == if f.isOtpSent then f.phone else KeepDigits(raw, 10)
    ensures g.(phone := f.phone) == f
  {
    if f.isOtpSent then f else f.(phone := KeepDigits(raw, 10))
  }

  /** The phone input, disabled from "Send OTP" on: while a code is awaited
      as well as once it has been sent. Otherwise it keeps the first ten
      digits of what was typed. */
  function EditPhone(f: Form, raw: string): (g: Form)
    ensures f.isOtpSent || f.isLoading ==> g == f
    ensures !f.isOtpSent && !f.isLoading ==> g == f.(phone := KeepDigits(raw, 10))
    ensures Valid(f) ==> Valid(g)
  {
    if f.isOtpSent || f.isLoading then f else f.(phone := KeepDigits(raw, 10))
  }

  /** The OTP input, shown only once a code has been sent; it keeps the
      first six digits of what was typed. */
  function EditOtp(f: Form, raw: string): (g: Form)
    ensures !f.isOtpSent ==> g == f
    ensures f.isOtpSent ==> g == f.(otp := KeepDigits(raw, 6))
    ensures Valid(f) ==> Valid(g)
  {
    if f.isOtpSent then f.(otp := KeepDigits(raw, 6)) else f
  }

  /** "Change Number": back to the phone step, with the code and the typed
      OTP discarded and the phone kept. */
  function ChangeNumber(f: Form): (g: Form)
    ensures !g.isOtpSent && g.otp == "" && g.generatedOtp == ""
    ensures g.phone == f.phone && g.userType == f.userType
    ensures Valid(f) ==> Valid(g)
  {
    f.(isOtpSent := false, otp := "", generatedOtp := "")
  }

  /** What pressing the submit button leads to. */
  datatype Submission =
    | Busy                                  // the button is disabled while loading
    | PhoneRejected                         // "Please enter valid 10-digit mobile number"
    | OtpRequested(next: Form)              // the code is on its way
    | WrongCode                             // "Incorrect OTP"
    | LoggedIn(role: string, phone: string, target: Route)

  /** `handleSubmit`: before a code is sent it runs `sendOtp`, which rejects
      a phone that is not ten characters long and otherwise starts the wait;
      after that it compares the typed code with the generated one. */
  function Submit(f: Form): (r: Submission)
    ensures r.LoggedIn? <==> !f.isLoading && f.isOtpSent && f.otp == f.generatedOtp
    ensures r.PhoneRejected? <==> !f.isLoading && !f.isOtpSent && |f.phone| != 10
    ensures r.OtpRequested? <==> !f.isLoading && !f.isOtpSent && |f.phone| == 10
    ensures r.WrongCode? <==> !f.isLoading && f.isOtpSent && f.otp != f.generatedOtp
    ensures r.Busy? <==> f.isLoading
    ensures r.OtpRequested? ==> r.next == f.(isLoading := true)
    ensures r.LoggedIn? ==> r.role == f.userType && r.phone == f.phone && r.target == DashboardFor(f.userType)
  {
    if f.isLoading then Busy
    else if !f.isOtpSent then
      if |f.phone| != 10 then PhoneRejected else OtpRequested(f.(isLoading := true))
    else if f.otp == f.generatedOtp then LoggedIn(f.userType, f.phone, DashboardFor(f.userType))
    else WrongCode
  }

  /** The end of the simulated delay: the code `code` (the value of
      `Math.floor(100000 + Math.random() * 900000)`) is generated and
      shown, and the OTP input appears. */
  function OtpArrives(f: Form, code: nat): (g: Form)
    requires 100000 <= code <= 999999
    ensures g.isOtpSent && !g.isLoading && IsSixDigitCode(g.generatedOtp)
    ensures DecimalValue(g.generatedOtp) == code
    ensures g.phone == f.phone && g.otp == f.otp && g.userType == f.userType
  {
    SixDigitCode(code);
    f.(generatedOtp := DecimalString(code), isOtpSent := true, isLoading := false)
  }

  /** Requesting a code keeps the form valid, and so does its arrival. */
  lemma SendOtpPreservesValid(f: Form, code: nat)
    requires Valid(f) && 100000 <= code <= 999999
    ensures Submit(f).OtpRequested? ==> Valid(Submit(f).next) && Valid(OtpArrives(Submit(f).next, code))
  {
  }

  /** Typing the code the page shows, and submitting, signs the user in as
      the chosen role and sends them to that role's dashboard. */
  lemma TypingShownCodeLogsIn(f: Form)
    requires Valid(f) && f.isOtpSent
    ensures Submit(EditOtp(f, f.generatedOtp)) == LoggedIn(f.userType, f.phone, DashboardFor(f.userType))
  {
    KeepDigitsOfDigits(f.generatedOtp, 6);
  }

  /** Any other typed code is refused and changes nothing. */
  lemma WrongCodeRejected(f: Form, typed: string)
    requires Valid(f) && f.isOtpSent && KeepDigits(typed, 6) != f.generatedOtp
    ensures Submit(EditOtp(f, typed)) == WrongCode
  {
  }

  /** From a valid form, a login is only ever for a ten-digit phone and a
      known role, after a code was sent, and what it writes to the store
      lets the user through exactly the gate of the dashboard it goes to. */
  lemma LoginSignsIn(f: Form, store: Store)
    requires Valid(f) && Submit(f).LoggedIn?
    ensures var r := Submit(f);
      && f.isOtpSent && |r.phone| == 10 && AllDigits(r.phone) && IsRole(r.role)
      && Admits(SignIn(store, r.role, r.phone), r.role)
      && (r.target == VendorDashboard <==> Admits(SignIn(store, r.role, r.phone), VendorRole))
      && (r.target == SupplierDashboard <==> Admits(SignIn(store, r.role, r.phone), SupplierRole))
  {
    SignInAdmits(store, f.userType, f.phone);
  }

  /** No login is possible from the initial form: a code must be requested
      and delivered first. */
  lemma NoLoginBeforeCode(f: Form)
    requires Valid(f) && !f.isOtpSent
    ensures !Submit(f).LoggedIn?
    ensures !Submit(EditOtp(f, "123456")).LoggedIn?
  {
  }

  /** The phone step as written lets a user change the number while the code
      is awaited: a ten-digit number is accepted, a digit is deleted during
      the delay (any nine digits typed then are kept), the code arrives, and
      typing it signs in the nine-digit number. */
  lemma PhoneEditDuringDelay(f: Form, shorter: string, code: nat)
    requires Valid(f) && !f.isOtpSent && !f.isLoading && |f.phone| == 10
    requires AllDigits(shorter) && |shorter| == 9 && 100000 <= code <= 999999
    ensures Submit(f) == OtpRequested(f.(isLoading := true))
    ensures var f2 := OtpArrives(EditPhoneAsWritten(f.(isLoading := true), shorter), code);
      && Submit(EditOtp(f2, f2.generatedOtp)) == LoggedIn(f.userType, shorter, DashboardFor(f.userType))
      && |f2.phone| == 9 && !Valid(f2)
  {
    KeepDigitsOfDigits(shorter, 10);
    var f2 := OtpArrives(EditPhoneAsWritten(f.(isLoading := true), shorter), code);
    KeepDigitsOfDigits(f2.generatedOtp, 6);
  }

  /** With the phone input disabled during the delay, the same edit is
      ignored and the code is for the number that was checked. */
  lemma PhoneFixedDuringDelay(f: Form, raw: string, code: nat)
    requires Valid(f) && Submit(f).OtpRequested? && 100000 <= code <= 999999
    ensures var g := OtpArrives(EditPhone(Submit(f).next, raw), code);
      g.phone == f.phone && |g.phone| == 10 && Valid(g)
  {
  }
}
