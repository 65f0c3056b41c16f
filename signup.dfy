/** The sign-up form: digit-only phone and DUI fields, then a login with the new user. */
module SignUp {
  import opened Js
  import opened Text
  import opened Domain
  import AuthContext

  datatype SignUpError = PhoneNotDigits | DuiNotDigits

  /** The submit handler's checks, in order, and the user it builds (with `id` the
      timestamp `now`). */
  function Submit(name: string, email: string, phone: string, dui: string, address: string,
                  role: Role, now: int): (r: Result<User, SignUpError>)
    ensures r.Ok? <==> DigitsOnly(phone) && DigitsOnly(dui)
    ensures r == Err(PhoneNotDigits) <==> !DigitsOnly(phone)
    ensures r == Err(DuiNotDigits) <==> DigitsOnly(phone) && !DigitsOnly(dui)
    ensures r.Ok? ==> r.value.name == name && r.value.email == email && r.value.phone == phone
                      && r.value.dui == dui && r.value.address == address && r.value.role == role
                      && r.value.id == NumId(now)
  {
    if !DigitsOnly(phone) then Err(PhoneNotDigits)
    else if !DigitsOnly(dui) then Err(DuiNotDigits)
    else Ok(User(NumId(now), name, email, phone, dui, address, role))
  }

  /** Fields filled only through the sanitising handlers are accepted as soon as each
      raw input held a digit. */
  lemma SanitisedFieldsAccepted(rawPhone: string, rawDui: string, name: string, email: string,
                                address: string, role: Role, now: int)
    requires exists i :: 0 <= i < |rawPhone| && IsDigit(rawPhone[i])
    requires exists i :: 0 <= i < |rawDui| && IsDigit(rawDui[i])
    ensures Submit(name, email, StripNonDigits(rawPhone), StripNonDigits(rawDui), address, role, now).Ok?
  {
    StripPassesCheck(rawPhone);
    StripPassesCheck(rawDui);
  }

  /** The sign-up page's state. */
  class SignUpView {
    var name: string
    var email: string
    var phone: string
    var dui: string
    var address: string
    var role: Role
    const auth: AuthContext.AuthProvider

    constructor (auth: AuthContext.AuthProvider)
      ensures this.auth == auth
      ensures name == "" && email == "" && phone == "" && dui == "" && address == ""
      ensures role == Comprador
    {
      this.auth := auth;
      name, email, phone, dui, address := "", "", "", "", "";
      role := Comprador;
    }

    /** The name input's `onChange`. */
    method SetName(value: string)
      modifies this`name
      ensures name == value
    {
      name := value;
    }

    /** The e-mail input's `onChange`. */
    method SetEmail(value: string)
      modifies this`email
      ensures email == value
    {
      email := value;
    }

    /** The address input's `onChange`. */
    method SetAddress(value: string)
      modifies this`address
      ensures address == value
    {
      address := value;
    }

    /** The role selector's `onChange`. */
    method SetRole(value: Role)
      modifies this`role
      ensures role == value
    {
      role := value;
    }

    /** `handlePhoneChange`: keep only the digits of the typed value. */
    method HandlePhoneChange(value: string)
      modifies this`phone
      ensures phone == StripNonDigits(value)
    {
      phone := StripNonDigits(value);
    }

    /** `handleDuiChange`: keep only the digits of the typed value. */
    method HandleDuiChange(value: string)
      modifies this`dui
      ensures dui == StripNonDigits(value)
    {
      dui := StripNonDigits(value);
    }

    /** `handleSubmit`: validate, then log in the new user. */
    method HandleSubmit(now: int) returns (r: Result<User, SignUpError>)
      requires auth.Valid()
      modifies auth`user, auth.storage`user
      ensures r == Submit(name, email, phone, dui, address, role, now)
      ensures r.Ok? ==> auth.user == Some(r.value)
      ensures r.Err? ==> auth.user == old(auth.user) && auth.storage.user == old(auth.storage.user)
      ensures auth.Valid()
    {
      r := Submit(name, email, phone, dui, address, role, now);
      if r.Ok? {
        auth.Login(r.value);
      }
    }
  }
}
