/** The session store of src/stores/auth.ts. Sending and checking the code
    are simulated: the delays are left out and only the state after each
    call completes is modelled. The fresh user id is passed in. */
module Auth {
  import opened Types
  import Text

  /** The code check of `login`: six characters, and `/^\d+$/` matches. */
  predicate IsValidOtp(otp: string)
    ensures IsValidOtp(otp) <==> |otp| == 6 && forall k :: 0 <= k < |otp| ==> Text.IsDigit(otp[k])
  {
    |otp| == 6 && Text.MatchesDigitRun(otp)
  }

  /** The user `login` creates for a valid code. */
  function SignedIn(freshId: string, phone: string, countryCode: string): (u: User)
    ensures u.isAuthenticated && u.phone == phone && u.countryCode == countryCode
  {
    User(freshId, phone, countryCode, true)
  }

  /** Which codes are accepted, on concrete inputs. */
  lemma OtpExamples()
    ensures IsValidOtp("123456") && IsValidOtp("000000")
    ensures !IsValidOtp("12345") && !IsValidOtp("1234567") && !IsValidOtp("12a456") && !IsValidOtp(" 12345")
  {
    assert !Text.IsDigit("12a456"[2]);
    assert !Text.IsDigit(" 12345"[0]);
  }

  class AuthStore {
    var user: Option<User>
    var isLoading: bool
    var countries: seq<Country>

    /** A stored user is always an authenticated one. */
    ghost predicate Valid()
      reads this
    {
      user.Some? ==> user.value.isAuthenticated
    }

    /** The initial state: nobody signed in, not loading, no countries. */
    constructor ()
      ensures Valid()
      ensures user == None && !isLoading && countries == []
    {
      user := None;
      isLoading := false;
      countries := [];
    }

    /** `setUser`: stores any user, so it keeps `Valid` only for an
        authenticated one. */
    method SetUser(u: Option<User>)
      modifies this`user
      ensures user == u
      ensures Valid() <==> (u.None? || u.value.isAuthenticated)
    {
      user := u;
    }

    /** `setLoading` */
    method SetLoading(loading: bool)
      modifies this`isLoading
      ensures isLoading == loading
    {
      isLoading := loading;
    }

    /** `setCountries` */
    method SetCountries(cs: seq<Country>)
      modifies this`countries
      ensures countries == cs
    {
      countries := cs;
    }

    /** `sendOTP`: raises and then lowers the loading flag and always
        reports success; the user is not touched. */
    method SendOtp(phone: string, countryCode: string) returns (ok: bool)
      modifies this`isLoading
      ensures ok
      ensures !isLoading && user == old(user)
    {
      isLoading := true;
      isLoading := false;
      ok := true;
    }

    /** `login`: succeeds exactly for a six-digit code, and then stores a
        new authenticated user with the given phone and country code; on
        failure the user is left as it was. Either way loading ends. */
    method Login(phone: string, countryCode: string, otp: string, freshId: string) returns (ok: bool)
      requires Valid()
      modifies this`user, this`isLoading
      ensures Valid()
      ensures ok == IsValidOtp(otp)
      ensures ok ==> user == Some(SignedIn(freshId, phone, countryCode))
      ensures !ok ==> user == old(user)
      ensures !isLoading
    {
      isLoading := true;
      if |otp| == 6 && Text.MatchesDigitRun(otp) {
        user, isLoading := Some(User(freshId, phone, countryCode, true)), false;
        return true;
      }
      isLoading := false;
      ok := false;
    }

    /** `logout`: clears the user unconditionally. */
    method Logout()
      modifies this`user
      ensures Valid()
      ensures user == None
    {
      user := None;
    }
  }
}
