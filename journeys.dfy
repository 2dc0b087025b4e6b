/** Signing in on the login page, end to end. */
module Journeys {
  import opened Wrappers
  import opened BrowserStore
  import opened Session
  import opened Text
  import LoginFlow
  import LoginPage

  /** On a fresh login page over `store`, the role is chosen, the phone is
      typed, a code is requested and arrives as `code`. */
  method RequestCode(store: Store, role: string, phone: string, code: nat)
    returns (login: LoginPage.LoginForm)
    requires IsRole(role) && AllDigits(phone) && |phone| == 10 && 100000 <= code <= 999999
    ensures fresh(login) && login.Valid()
    ensures login.Form() == LoginFlow.Form(role, phone, "", true, DecimalString(code), false)
    ensures login.store == store && login.route == None
  {
    login := new LoginPage.LoginForm(store);
    login.SelectRole(role);
    KeepDigitsOfDigits(phone, 10);
    login.EditPhone(phone);
    assert login.phone == phone && !login.isOtpSent && !login.isLoading;
    login.Submit();
    assert login.isLoading && login.store == store && login.route == None;
    login.OtpArrives(code);
  }

  /** Then `typed` is entered and the form submitted. */
  method SignInWith(store: Store, role: string, phone: string, code: nat, typed: string)
    returns (login: LoginPage.LoginForm)
    requires IsRole(role) && AllDigits(phone) && |phone| == 10 && 100000 <= code <= 999999
    ensures fresh(login) && login.Valid()
    ensures login.generatedOtp == DecimalString(code) && login.phone == phone && login.userType == role
    ensures KeepDigits(typed, 6) == DecimalString(code) ==>
      login.store == SignIn(store, role, phone) && login.route == Some(DashboardFor(role))
    ensures KeepDigits(typed, 6) != DecimalString(code) ==> login.store == store && login.route == None
  {
    login := RequestCode(store, role, phone, code);
    login.EditOtp(typed);
    login.Submit();
  }

  /** Signing in by typing the code the page shows: the session is written
      for `role` and `phone`, and the page goes to that role's dashboard,
      whose gate lets the user in. */
  method SignInWithShownCode(store: Store, role: string, phone: string, code: nat)
    returns (session: Store, route: Option<Route>)
    requires IsRole(role) && AllDigits(phone) && |phone| == 10 && 100000 <= code <= 999999
    ensures session == SignIn(store, role, phone) && route == Some(DashboardFor(role))
    ensures Admits(session, role) && GetItem(session, UserPhoneKey) == Some(Text(phone))
  {
    SixDigitCode(code);
    KeepDigitsOfDigits(DecimalString(code), 6);
    var login := SignInWith(store, role, phone, code, DecimalString(code));
    session, route := login.store, login.route;
    SignInAdmits(store, role, phone);
  }
}
