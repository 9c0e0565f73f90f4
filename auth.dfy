/** The auth service: registration and login over a user collection in
    which an email appears at most once. Password hashing (bcrypt) and token
    signing (JSON Web Tokens under the server secret) are collaborators
    handed in from outside. */
module Auth {
  import opened Base

  /** The crypto collaborators. `hash` stands for bcrypt's hash, `Compare`
      for bcrypt's compare, `sign` and `verify` for signing and verifying a
      token under the process-wide secret. */
  datatype Crypto = Crypto(hash: string -> string, sign: Claims -> string, verify: string -> Option<Claims>)
  {
    predicate Compare(password: string, stored: string) {
      hash(password) == stored
    }

    /** What the model relies on: a token verifies to the payload it was
        signed with. */
    ghost predicate Sound() {
      forall c :: verify(sign(c)) == Some(c)
    }
  }

  /** A password compares equal to its own hash. */
  lemma CompareOwnHash(crypto: Crypto, password: string)
    ensures crypto.Compare(password, crypto.hash(password))
  {
  }

  /** A user document; `password` holds the hash. */
  datatype User = User(id: UserId, fullname: string, email: string, password: string, role: string)

  /** The user view sent to clients: there is no password field to leak. */
  datatype PublicUser = PublicUser(id: UserId, fullname: string, email: string, role: string)

  /** The body of a successful register or login. */
  datatype Session = Session(token: string, user: PublicUser)

  function View(u: User): (v: PublicUser)
    ensures v.id == u.id && v.fullname == u.fullname && v.email == u.email && v.role == u.role
  {
    PublicUser(u.id, u.fullname, u.email, u.role)
  }

  /** The token payload of a user. */
  function ClaimsOf(u: User): Claims {
    Claims(u.id, u.role)
  }

  class UserStore {
    const crypto: Crypto
    /** The user collection, keyed by the unique email. */
    var users: map<string, User>
    /** The next fresh user id. */
    var nextId: UserId

    ghost predicate Valid()
      reads this
    {
      && crypto.Sound()
      && (forall e :: e in users ==> users[e].email == e && users[e].id < nextId)
      && (forall e, f :: e in users && f in users && e != f ==> users[e].id != users[f].id)
    }

    constructor (crypto: Crypto)
      requires crypto.Sound()
      ensures Valid() && users == map[] && this.crypto == crypto
    {
      this.crypto := crypto;
      users := map[];
      nextId := 0;
    }

    /** POST /auth/register. */
    method Register(fullname: string, email: string, password: string, role: string) returns (r: Reply<Session>)
      requires Valid()
      modifies this
      ensures Valid()
      ensures email in old(users) ==> r == Failure(400, "Email already exists") && users == old(users)
      ensures email !in old(users) ==>
        && r.Success? && r.code == 201
        && var u := User(r.value.user.id, fullname, email, crypto.hash(password), role);
           && users == old(users)[email := u]
           && (forall e :: e in old(users) ==> old(users)[e].id != u.id)
           && r.value.user == View(u)
           && crypto.verify(r.value.token) == Some(ClaimsOf(u))
    {
      if email in users {
        return Failure(400, "Email already exists");
      }
      var hashed := crypto.hash(password);
      var user := User(nextId, fullname, email, hashed, role);
      users := users[email := user];
      nextId := nextId + 1;
      var token := crypto.sign(ClaimsOf(user));
      return Success(201, Session(token, View(user)));
    }

    /** POST /auth/login. An unknown email and a wrong password get the same
        reply; nothing is written. */
    method Login(email: string, password: string) returns (r: Reply<Session>)
      requires Valid()
      ensures r.Success? <==> email in users && crypto.Compare(password, users[email].password)
      ensures r.Failure? ==> r == Failure(400, "Invalid credentials")
      ensures r.Success? ==>
        && r.code == 200
        && r.value.user == View(users[email])
        && crypto.verify(r.value.token) == Some(ClaimsOf(users[email]))
    {
      if email !in users {
        return Failure(400, "Invalid credentials");
      }
      var user := users[email];
      if !crypto.Compare(password, user.password) {
        return Failure(400, "Invalid credentials");
      }
      var token := crypto.sign(ClaimsOf(user));
      return Success(200, Session(token, View(user)));
    }
  }

  /** Registering and then logging in with the same password succeeds and
      hands back the same user; registering the same email again fails. */
  method RegisterThenLogin(store: UserStore, fullname: string, email: string, password: string, role: string)
    returns (first: Reply<Session>, again: Reply<Session>, login: Reply<Session>)
    requires store.Valid() && email !in store.users
    modifies store
    ensures first.Success? && first.code == 201
    ensures again == Failure(400, "Email already exists")
    ensures login.Success? && login.value.user == first.value.user
  {
    first := store.Register(fullname, email, password, role);
    again := store.Register(fullname, email, "other", role);
    login := store.Login(email, password);
  }
}
