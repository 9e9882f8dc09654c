/**
 * The two-step phone verification wizard: step 1 takes a country code and a number
 * and asks the auth store to send a code; step 2 takes the code and asks the store
 * to verify it; "Back" returns to step 1. The store's replies are inputs; the
 * alerts and the navigation are results.
 */
module PhoneVerification {

  import opened Wrappers
  import opened Js
  import AuthStore

  class PhoneVerificationPage {
    const store: AuthStore.Store
    /** 1: the phone form, 2: the code form. */
    var step: int
    /** The full number the code was sent to. */
    var phone: string

    constructor (store: AuthStore.Store)
      ensures this.store == store
      ensures step == 1 && phone == ""
    {
      this.store := store;
      step := 1;
      phone := "";
    }

    /**
     * `onSubmitPhone`: the full number is recorded first, then `sendOTP` is awaited;
     * the wizard moves to step 2 whenever it does not throw, whatever the reply says.
     */
    method OnSubmitPhone(countryCode: string, phoneNumber: string, net: Completion<AuthStore.AuthReply>)
      returns (alert: Option<string>)
      modifies this, store
      ensures phone == countryCode + phoneNumber
      ensures net.Normal? ==> step == 2 && alert == None
      ensures net.Threw? ==> step == old(step) && alert == Some("Failed to send OTP: " + net.error.message)
      ensures store.Current() == old(store.Current())
      ensures store.sent == old(store.sent) + [AuthStore.SendOtp(countryCode + phoneNumber)]
      ensures !store.isLoading && store.loadingLog == old(store.loadingLog) + [true, false]
    {
      var fullPhone := countryCode + phoneNumber;
      phone := fullPhone;
      var r := store.SendOTP(fullPhone, net);
      match r
      case Normal(_) =>
        step := 2;
        alert := None;
      case Threw(err) =>
        alert := Some("Failed to send OTP: " + err.message);
    }

    /**
     * `onSubmitOTP`: `verifyOTP` with the recorded number; the page goes on to
     * registration whenever it does not throw, and stays put with an alert when it does.
     */
    method OnSubmitOTP(otp: string, net: Completion<AuthStore.AuthReply>)
      returns (navigateTo: Option<string>, alert: Option<string>)
      modifies store
      ensures net.Normal? ==> navigateTo == Some("/register") && alert == None
      ensures net.Threw? ==> navigateTo == None && alert == Some("OTP Verification Failed: " + net.error.message)
      ensures step == old(step) && phone == old(phone)
      ensures store.Current() == AuthStore.AfterCommit(old(store.Current()), net)
      ensures store.sent == old(store.sent) + [AuthStore.VerifyOtp(phone, otp)]
      ensures !store.isLoading && store.loadingLog == old(store.loadingLog) + [true, false]
    {
      var r := store.VerifyOTP(phone, otp, net);
      match r
      case Normal(_) =>
        navigateTo, alert := Some("/register"), None;
      case Threw(err) =>
        navigateTo, alert := None, Some("OTP Verification Failed: " + err.message);
    }

    /** `handleBack`: back to step 1 with no number recorded (the form resets are not modelled). */
    method HandleBack()
      modifies this
      ensures step == 1 && phone == ""
    {
      step := 1;
      phone := "";
    }
  }

  /** The whole happy path: send the code, verify it; the code is checked against the number it was sent to. */
  method SendThenVerify(page: PhoneVerificationPage, countryCode: string, phoneNumber: string, otp: string,
                        sent: Completion<AuthStore.AuthReply>, verified: Completion<AuthStore.AuthReply>)
    returns (navigateTo: Option<string>)
    requires sent.Normal?
    modifies page, page.store
    ensures page.step == 2
    ensures page.store.sent == old(page.store.sent)
      + [AuthStore.SendOtp(countryCode + phoneNumber), AuthStore.VerifyOtp(countryCode + phoneNumber, otp)]
    ensures navigateTo == Some("/register") <==> verified.Normal?
  {
    var _ := page.OnSubmitPhone(countryCode, phoneNumber, sent);
    var nav, _ := page.OnSubmitOTP(otp, verified);
    navigateTo := nav;
  }
}
