/** The profile form: four editable fields, a digit-only phone, and an update of the
    logged-in user. */
module ProfilePage {
  import opened Js
  import opened Text
  import opened Domain
  import AuthContext

  datatype ProfileForm = ProfileForm(name: string, email: string, phone: string, address: string)

  /** The `name` attribute of the input that changed. */
  datatype ProfileField = Name | Email | Phone | Address

  /** The value of one form field. */
  function FieldValue(f: ProfileForm, k: ProfileField): string {
    match k
    case Name => f.name
    case Email => f.email
    case Phone => f.phone
    case Address => f.address
  }

  /** The form's initial state: the user's fields (`user?.x || ''`), or all empty. */
  function InitialForm(user: Option<User>): (f: ProfileForm)
    ensures user.None? ==> forall k :: FieldValue(f, k) == ""
    ensures user.Some? ==> f.name == user.value.name && f.email == user.value.email
                           && f.phone == user.value.phone && f.address == user.value.address
  {
    match user
    case None => ProfileForm("", "", "", "")
    case Some(u) => ProfileForm(u.name, u.email, u.phone, u.address)
  }

  /** `handleChange`: the phone keeps only its digits, any other field takes the value
      verbatim; the other fields are untouched. */
  function ApplyChange(f: ProfileForm, k: ProfileField, value: string): (r: ProfileForm)
    ensures FieldValue(r, k) == if k == Phone then StripNonDigits(value) else value
    ensures forall j :: j != k ==> FieldValue(r, j) == FieldValue(f, j)
  {
    match k
    case Name => f.(name := value)
    case Email => f.(email := value)
    case Phone => f.(phone := StripNonDigits(value))
    case Address => f.(address := value)
  }

  /** Whatever was typed, the phone field stays all digits. */
  lemma ChangeKeepsPhoneDigits(f: ProfileForm, k: ProfileField, value: string)
    requires AllDigits(f.phone)
    ensures AllDigits(ApplyChange(f, k, value).phone)
  {
    if k != Phone {
      assert FieldValue(ApplyChange(f, k, value), Phone) == FieldValue(f, Phone);
    }
  }

  /** The update object built from the form: exactly its four keys. */
  function PatchOf(f: ProfileForm): (p: AuthContext.UserPatch)
    ensures p.id.None? && p.dui.None? && p.role.None?
    ensures p.name == Some(f.name) && p.email == Some(f.email)
    ensures p.phone == Some(f.phone) && p.address == Some(f.address)
  {
    AuthContext.UserPatch(None, Some(f.name), Some(f.email), Some(f.phone), None, Some(f.address), None)
  }

  /** The submit handler's decision: the update to apply, or none when the phone fails `^\d+$`. */
  function Submit(f: ProfileForm): (r: Option<AuthContext.UserPatch>)
    ensures r.Some? <==> DigitsOnly(f.phone)
    ensures r.Some? ==> r.value == PatchOf(f)
  {
    if DigitsOnly(f.phone) then Some(PatchOf(f)) else None
  }

  /** Submitting a user's own unchanged form leaves that user as it was. */
  lemma UnchangedFormKeepsUser(u: User)
    requires DigitsOnly(u.phone)
    ensures Submit(InitialForm(Some(u))).Some?
    ensures AuthContext.Merge(u, Submit(InitialForm(Some(u))).value) == u
  {
  }

  /** The profile page's state. */
  class ProfileView {
    var formData: ProfileForm
    const auth: AuthContext.AuthProvider

    constructor (auth: AuthContext.AuthProvider)
      ensures this.auth == auth
      ensures formData == InitialForm(auth.user)
    {
      this.auth := auth;
      formData := InitialForm(auth.user);
    }

    /** The change handler of all four inputs. */
    method HandleChange(k: ProfileField, value: string)
      modifies this`formData
      ensures formData == ApplyChange(old(formData), k, value)
    {
      formData := ApplyChange(formData, k, value);
    }

    /** `handleSubmit`: reject a bad phone, otherwise call `updateUserInfo` once with
        the four fields. */
    method HandleSubmit() returns (accepted: bool)
      requires auth.Valid()
      modifies auth`user, auth.storage`user
      ensures accepted <==> DigitsOnly(formData.phone)
      ensures !accepted ==> auth.user == old(auth.user) && auth.storage.user == old(auth.storage.user)
      ensures accepted && old(auth.user).Some? ==>
                auth.user == Some(AuthContext.Merge(old(auth.user).value, PatchOf(formData)))
      ensures accepted && old(auth.user).None? ==>
                auth.user == None && auth.storage.user == old(auth.storage.user)
      ensures auth.Valid()
    {
      var patch := Submit(formData);
      accepted := patch.Some?;
      if accepted {
        auth.UpdateUserInfo(patch.value);
      }
    }
  }
}
