/** The identity provider: the logged-in user, mirrored into the storage key 'user'. */
module AuthContext {
  import opened Js
  import opened Domain
  import opened Storage

  /** A `Partial<User>`: `None` is a key the update object does not have. */
  datatype UserPatch = UserPatch(
    id: Option<UserId>,
    name: Option<string>,
    email: Option<string>,
    phone: Option<string>,
    dui: Option<string>,
    address: Option<string>,
    role: Option<Role>)

  /** The update object `{}`. */
  const EmptyPatch := UserPatch(None, None, None, None, None, None, None)

  /** `{ ...user, ...patch }`: every key the patch has wins, every other key is kept. */
  function Merge(u: User, p: UserPatch): (r: User)
    ensures p.id.Some? ==> r.id == p.id.value
    ensures p.id.None? ==> r.id == u.id
    ensures p.name.Some? ==> r.name == p.name.value
    ensures p.name.None? ==> r.name == u.name
    ensures p.email.Some? ==> r.email == p.email.value
    ensures p.email.None? ==> r.email == u.email
    ensures p.phone.Some? ==> r.phone == p.phone.value
    ensures p.phone.None? ==> r.phone == u.phone
    ensures p.dui.Some? ==> r.dui == p.dui.value
    ensures p.dui.None? ==> r.dui == u.dui
    ensures p.address.Some? ==> r.address == p.address.value
    ensures p.address.None? ==> r.address == u.address
    ensures p.role.Some? ==> r.role == p.role.value
    ensures p.role.None? ==> r.role == u.role
  {
    User(
      p.id.GetOr(u.id),
      p.name.GetOr(u.name),
      p.email.GetOr(u.email),
      p.phone.GetOr(u.phone),
      p.dui.GetOr(u.dui),
      p.address.GetOr(u.address),
      p.role.GetOr(u.role))
  }

  /** `{ ...p, ...q }` on two update objects: `q`'s keys win. */
  function Combine(p: UserPatch, q: UserPatch): UserPatch {
    UserPatch(
      if q.id.Some? then q.id else p.id,
      if q.name.Some? then q.name else p.name,
      if q.email.Some? then q.email else p.email,
      if q.phone.Some? then q.phone else p.phone,
      if q.dui.Some? then q.dui else p.dui,
      if q.address.Some? then q.address else p.address,
      if q.role.Some? then q.role else p.role)
  }

  /** The empty update leaves the user as it is. */
  lemma MergeEmpty(u: User)
    ensures Merge(u, EmptyPatch) == u
  {
  }

  /** Two updates in a row are one update with the later keys winning. */
  lemma MergeTwice(u: User, p: UserPatch, q: UserPatch)
    ensures Merge(Merge(u, p), q) == Merge(u, Combine(p, q))
  {
  }

  /** Repeating the same update changes nothing more. */
  lemma MergeIdempotent(u: User, p: UserPatch)
    ensures Merge(Merge(u, p), p) == Merge(u, p)
  {
  }

  /** The provider behind `useAuth()`. */
  class AuthProvider {
    var user: Option<User>
    const storage: LocalStorage

    /** The stored copy is the in-memory user (absent when logged out), and the
        storage it shares with the pages holds only JSON round trips. */
    ghost predicate Valid()
      reads this, storage
    {
      storage.user == user && storage.Valid()
    }

    /** Mounting the provider, with its load effect: the stored user if there is one,
        otherwise nobody. */
    constructor (storage: LocalStorage)
      requires storage.Valid()
      ensures this.storage == storage
      ensures user == storage.user
      ensures Valid()
    {
      this.storage := storage;
      user := None;
      new;
      if storage.user.Some? {
        user := storage.user;
      }
    }

    /** `login(u)`: `u` becomes the user and the stored copy. */
    method Login(u: User)
      requires storage.Valid()
      modifies this`user, storage`user
      ensures user == Some(u)
      ensures Valid()
    {
      user := Some(u);
      storage.user := Some(u);
    }

    /** `logout()`: nobody is logged in and the stored copy is removed. */
    method Logout()
      requires storage.Valid()
      modifies this`user, storage`user
      ensures user == None
      ensures Valid()
    {
      user := None;
      storage.user := None;
    }

    /** `updateUserInfo(p)`: when logged in, merge `p` into the user and store the
        result; when logged out, do nothing at all. */
    method UpdateUserInfo(p: UserPatch)
      requires Valid()
      modifies this`user, storage`user
      ensures old(user).None? ==> user == None && storage.user == old(storage.user)
      ensures old(user).Some? ==> user == Some(Merge(old(user).value, p))
      ensures Valid()
    {
      if user.Some? {
        var updated := Merge(user.value, p);
        user := Some(updated);
        storage.user := Some(updated);
      }
    }
  }
}
