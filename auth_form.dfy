/** The two-step sign-in form of src/components/auth/AuthForm.tsx: the
    phone step sends a code, the code step verifies it. The phone form's
    fields are `formPhone` and `formCountryCode`; navigation is recorded in
    `location` instead of calling the router. */
module AuthForm {
  import opened Types
  import Auth
  import Countries

  datatype Step = PhoneStep | OtpStep

  /** Where the router was last sent. */
  datatype Location = OnForm | Home | DashboardPage

  const InvalidOtpMessage: string := "Invalid OTP code"

  /** The placeholder default country the mount effect looks for. */
  const DefaultCountryCode: string := "null"

  /** `countries.find(c => c.cca2 === code)` */
  function FindCountry(cs: seq<Country>, code: string): (r: Option<Country>)
    ensures r.Some? ==> r.value in cs && r.value.cca2 == code
    ensures r.None? <==> forall k :: 0 <= k < |cs| ==> cs[k].cca2 != code
  {
    if cs == [] then None
    else if cs[0].cca2 == code then Some(cs[0])
    else FindCountry(cs[1..], code)
  }

  /** `find` returns the first country with the code: the one at the first
      index that has it. */
  lemma {:induction false} FindCountryFirst(cs: seq<Country>, code: string, k: nat)
    requires k < |cs| && cs[k].cca2 == code
    requires forall j :: 0 <= j < k ==> cs[j].cca2 != code
    ensures FindCountry(cs, code) == Some(cs[k])
  {
    if k > 0 {
      FindCountryFirst(cs[1..], code, k - 1);
    }
  }

  /** The country the mount effect selects: the placeholder default, and
      only while countries are loaded and nothing is selected yet. */
  function DefaultToSelect(cs: seq<Country>, selected: string): (r: Option<Country>)
    ensures r.Some? ==> r.value in cs && r.value.cca2 == DefaultCountryCode && selected == ""
  {
    if |cs| > 0 && selected == "" then FindCountry(cs, DefaultCountryCode) else None
  }

  class AuthFlow {
    const auth: Auth.AuthStore
    var step: Step
    var showCountryList: bool
    var selectedCountry: string
    var phoneNumber: string
    var formPhone: string
    var formCountryCode: string
    var otpError: Option<string>
    var location: Location

    /** The form opens on the phone step with empty fields. */
    constructor (auth: Auth.AuthStore)
      ensures this.auth == auth
      ensures step == PhoneStep && !showCountryList && selectedCountry == "" && phoneNumber == ""
      ensures formPhone == "" && formCountryCode == "" && otpError == None && location == OnForm
    {
      this.auth := auth;
      step := PhoneStep;
      showCountryList := false;
      selectedCountry := "";
      phoneNumber := "";
      formPhone := "";
      formCountryCode := "";
      otpError := None;
      location := OnForm;
    }

    /** Typing a phone number into the phone form. */
    method EditPhone(phone: string)
      modifies this`formPhone
      ensures formPhone == phone
    {
      formPhone := phone;
    }

    /** The country button opens or closes the list. */
    method ToggleCountryList()
      modifies this`showCountryList
      ensures showCountryList == !old(showCountryList)
    {
      showCountryList := !showCountryList;
    }

    /** `handleCountrySelect`: remembers the country, puts its dial code in
        the form and closes the list. */
    method HandleCountrySelect(c: Country)
      modifies this`selectedCountry, this`formCountryCode, this`showCountryList
      ensures selectedCountry == c.cca2
      ensures formCountryCode == Countries.DialCode(c)
      ensures !showCountryList
    {
      var dialCode := Countries.DialCode(c);
      selectedCountry := c.cca2;
      formCountryCode := dialCode;
      showCountryList := false;
    }

    /** The mount effect: once countries are loaded and none is selected,
        selects the placeholder default country if the list has it. */
    method SelectDefaultCountry()
      modifies this`selectedCountry, this`formCountryCode
      ensures DefaultToSelect(auth.countries, old(selectedCountry)).Some? ==>
        selectedCountry == DefaultCountryCode &&
        formCountryCode == Countries.DialCode(DefaultToSelect(auth.countries, old(selectedCountry)).value)
      ensures DefaultToSelect(auth.countries, old(selectedCountry)).None? ==>
        selectedCountry == old(selectedCountry) && formCountryCode == old(formCountryCode)
    {
      if |auth.countries| > 0 && selectedCountry == "" {
        var found := FindCountry(auth.countries, DefaultCountryCode);
        if found.Some? {
          selectedCountry := found.value.cca2;
          formCountryCode := Countries.DialCode(found.value);
        }
      }
    }

    /** `handleSendOtp`: records the full number first, then asks the store
        to send a code and moves to the code step when it reports success. */
    method HandleSendOtp()
      modifies this`phoneNumber, this`step, auth`isLoading
      ensures phoneNumber == old(formCountryCode) + old(formPhone)
      ensures step == OtpStep
      ensures auth.user == old(auth.user) && !auth.isLoading
    {
      phoneNumber := formCountryCode + formPhone;
      var success := auth.SendOtp(formPhone, formCountryCode);
      if success {
        step := OtpStep;
      }
    }

    /** `handleVerifyOtp`: logs in with the phone form's number and country
        code; on success goes to the dashboard, otherwise stays on the code
        step with an error on the code field. */
    method HandleVerifyOtp(otp: string, freshId: string) returns (ok: bool)
      requires auth.Valid()
      modifies this`otpError, this`location, auth`user, auth`isLoading
      ensures auth.Valid()
      ensures ok == Auth.IsValidOtp(otp)
      ensures ok ==> auth.user == Some(Auth.SignedIn(freshId, formPhone, formCountryCode)) && location == DashboardPage
      ensures ok ==> otpError == old(otpError)
      ensures !ok ==> auth.user == old(auth.user) && otpError == Some(InvalidOtpMessage) && location == old(location)
      ensures step == old(step) && !auth.isLoading
    {
      ok := auth.Login(formPhone, formCountryCode, otp, freshId);
      if ok {
        location := DashboardPage;
      } else {
        otpError := Some(InvalidOtpMessage);
      }
    }

    /** The header back arrow: from the code step back to the phone step,
        from the phone step off the form to the home page. */
    method Back()
      modifies this`step, this`location
      ensures old(step) == OtpStep ==> step == PhoneStep && location == old(location)
      ensures old(step) == PhoneStep ==> step == PhoneStep && location == Home
    {
      if step == OtpStep {
        step := PhoneStep;
      } else {
        location := Home;
      }
    }

    /** "Back to phone number" under the code form. */
    method BackToPhone()
      modifies this`step
      ensures step == PhoneStep
    {
      step := PhoneStep;
    }
  }
}
