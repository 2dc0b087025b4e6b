/** The login page: the form state of `LoginFlow` held in fields, the browser
    store a login writes, and the route it navigates to. Each handler
    changes the fields as the matching `LoginFlow` function says. */
module LoginPage {
  import opened Wrappers
  import opened BrowserStore
  import opened Session
  import opened Text
  import LoginFlow

  class LoginForm {
    var userType: string
    var phone: string
    var otp: string
    var isOtpSent: bool
    var generatedOtp: string
    var isLoading: bool
    var store: Store
    var route: Option<Route>

    /** The form fields as one value. */
    function Form(): LoginFlow.Form
      reads this
    {
      LoginFlow.Form(userType, phone, otp, isOtpSent, generatedOtp, isLoading)
    }

    predicate Valid()
      reads this
    {
      LoginFlow.Valid(Form())
    }

    constructor(initial: Store)
      ensures Form() == LoginFlow.InitialForm && Valid()
      ensures store == initial && route == None
    {
      userType, phone, otp := VendorRole, "", "";
      isOtpSent, generatedOtp, isLoading := false, "", false;
      store := initial;
      route := None;
      LoginFlow.InitialFormValid();
    }

    /** `onValueChange` of the role radio group. */
    method SelectRole(role: string)
      requires IsRole(role)
      modifies this`userType
      ensures Form() == LoginFlow.SelectRole(old(Form()), role)
      ensures old(Valid()) ==> Valid()
    {
      userType := role;
    }

    /** `onChange` of the phone input as the page has it: disabled only once
        a code has been sent, so an edit made while the code is awaited is
        taken. Such an edit can shorten the checked number, which `Valid`
        rules out; otherwise the form stays valid. */
    method EditPhoneAsWritten(raw: string)
      modifies this`phone
      ensures Form() == LoginFlow.EditPhoneAsWritten(old(Form()), raw)
      ensures old(Valid()) && !old(isLoading) ==> Valid()
    {
      if !isOtpSent {
        phone := KeepDigits(raw, 10);
      }
    }

    /** `onChange` of the phone input with the correction of
        `LoginFlow.EditPhone`: closed while the code is awaited as well. */
    method EditPhone(raw: string)
      modifies this`phone
      ensures Form() == LoginFlow.EditPhone(old(Form()), raw)
      ensures old(Valid()) ==> Valid()
    {
      if !isOtpSent && !isLoading {
        phone := KeepDigits(raw, 10);
      }
    }

    /** `onChange` of the OTP input (rendered once a code has been sent). */
    method EditOtp(raw: string)
      modifies this`otp
      ensures Form() == LoginFlow.EditOtp(old(Form()), raw)
      ensures old(Valid()) ==> Valid()
    {
      if isOtpSent {
        otp := KeepDigits(raw, 6);
      }
    }

    /** The "Change Number" button. */
    method ChangeNumber()
      modifies this`isOtpSent, this`otp, this`generatedOtp
      ensures Form() == LoginFlow.ChangeNumber(old(Form()))
      ensures old(Valid()) ==> Valid()
    {
      isOtpSent, otp, generatedOtp := false, "", "";
    }

    /** `handleSubmit`. A login writes role, phone and `isLoggedIn` to the
        store and navigates to the role's dashboard; a code request starts
        the wait; a rejected phone, a wrong code or a press while loading
        changes nothing. */
    method Submit()
      modifies this
      ensures old(Valid()) ==> Valid()
      ensures match LoginFlow.Submit(old(Form()))
        case OtpRequested(next) => Form() == next && store == old(store) && route == old(route)
        case LoggedIn(role, number, target) =>
          && Form() == old(Form())
          && store == SignIn(old(store), role, number) && route == Some(target)
          && Admits(store, role)
        case _ => Form() == old(Form()) && store == old(store) && route == old(route)
    {
      var outcome := LoginFlow.Submit(Form());
      match outcome
      case OtpRequested(next) =>
        isLoading := true;
      case LoggedIn(role, number, target) =>
        store := SignIn(store, role, number);
        route := Some(target);
        SignInAdmits(old(store), role, number);
      case _ =>
    }

    /** The timer of `sendOtp` fires with the drawn code `code`. */
    method OtpArrives(code: nat)
      requires isLoading && 100000 <= code <= 999999
      modifies this`generatedOtp, this`isOtpSent, this`isLoading
      ensures Form() == LoginFlow.OtpArrives(old(Form()), code)
      ensures old(Valid()) ==> Valid()
    {
      SixDigitCode(code);
      generatedOtp, isOtpSent, isLoading := DecimalString(code), true, false;
    }
  }
}
