/** The login form: a fixed table of two demonstration accounts. */
module Login {
  import opened Js
  import opened Domain
  import AuthContext

  const BuyerEmail: string := "comprador@example.com"
  const BuyerPassword: string := "comprador123"
  const SellerEmail: string := "vendedor@example.com"
  const SellerPassword: string := "vendedor123"

  const BuyerAccount: User :=
    User(StrId("1"), "ernesto bricenio", BuyerEmail, "12345678", "12345678-9", "Calle Ernesto 123", Comprador)
  const SellerAccount: User :=
    User(StrId("2"), "kevin escalante", SellerEmail, "87654321", "98765432-1", "Calle Principal 456", Vendedor)

  /** The credential check of the submit handler: the account a pair logs in as, if any. */
  function Authenticate(email: string, password: string): (r: Option<User>)
    ensures r == Some(BuyerAccount) <==> email == BuyerEmail && password == BuyerPassword
    ensures r == Some(SellerAccount) <==> email == SellerEmail && password == SellerPassword
    ensures r.None? <==> !(email == BuyerEmail && password == BuyerPassword)
                         && !(email == SellerEmail && password == SellerPassword)
  {
    if email == BuyerEmail && password == BuyerPassword then Some(BuyerAccount)
    else if email == SellerEmail && password == SellerPassword then Some(SellerAccount)
    else None
  }

  /** The buyer pair logs in user '1' with role Comprador. */
  lemma BuyerLogsIn()
    ensures Authenticate(BuyerEmail, BuyerPassword).Some?
    ensures Authenticate(BuyerEmail, BuyerPassword).value.id == StrId("1")
    ensures Authenticate(BuyerEmail, BuyerPassword).value.role == Comprador
  {
  }

  /** The seller pair logs in user '2' with role Vendedor. */
  lemma SellerLogsIn()
    ensures Authenticate(SellerEmail, SellerPassword).Some?
    ensures Authenticate(SellerEmail, SellerPassword).value.id == StrId("2")
    ensures Authenticate(SellerEmail, SellerPassword).value.role == Vendedor
  {
  }

  /** A known e-mail with a password other than its own is rejected. */
  lemma WrongPasswordRejected(email: string, password: string)
    requires email == BuyerEmail || email == SellerEmail
    requires email == BuyerEmail ==> password != BuyerPassword
    requires email == SellerEmail ==> password != SellerPassword
    ensures Authenticate(email, password).None?
  {
  }

  /** `handleSubmit`: log in the matching account, or leave the session untouched. */
  method HandleSubmit(auth: AuthContext.AuthProvider, email: string, password: string)
    returns (loggedIn: Option<User>)
    requires auth.Valid()
    modifies auth`user, auth.storage`user
    ensures loggedIn == Authenticate(email, password)
    ensures loggedIn.Some? ==> auth.user == loggedIn
    ensures loggedIn.None? ==> auth.user == old(auth.user) && auth.storage.user == old(auth.storage.user)
    ensures auth.Valid()
  {
    loggedIn := Authenticate(email, password);
    if loggedIn.Some? {
      auth.Login(loggedIn.value);
    }
  }
}
