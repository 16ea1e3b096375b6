/** The credential store of `database.py`: one table of users keyed by a
    unique username, each mapped to the digest of its password.

    The SQLite table is modelled as a map from username to digest; the
    `UNIQUE` constraint on `username` is what makes a map the right shape.
    The password digest (SHA-256 as a hex string in the application) is an
    uninterpreted function passed in as `hash`: it is deterministic, as
    every Dafny function is, and nothing else is assumed about it. */
module CredentialStore {
  import opened Wrappers

  type Username = string
  type Password = string
  type Digest = string

  /** The one-way password digest; no property beyond determinism is assumed. */
  type Hasher = Password -> Digest

  /** The `users` table: each username appears at most once. */
  datatype UserTable = UserTable(users: map<Username, Digest>)

  /** `CREATE TABLE IF NOT EXISTS`: `None` stands for a database file
      without the table. An existing table is left as it is. */
  function CreateUserTable(db: Option<UserTable>): (t: UserTable)
    ensures db.Some? ==> t == db.value
    ensures db.None? ==> |t.users| == 0
  {
    match db
    case Some(existing) => existing
    case None => UserTable(map[])
  }

  /** Creating the table twice is the same as creating it once. */
  lemma CreateUserTableIdempotent(db: Option<UserTable>)
    ensures CreateUserTable(Some(CreateUserTable(db))) == CreateUserTable(db)
    ensures forall u :: db.Some? && u in db.value.users ==>
              u in CreateUserTable(db).users && CreateUserTable(db).users[u] == db.value.users[u]
  {
  }

  /** `INSERT` of a new row. A username that is already present violates
      the `UNIQUE` constraint: the insert is refused with `false` and the
      table is left unchanged. */
  function AddUser(t: UserTable, hash: Hasher, u: Username, p: Password): (r: (bool, UserTable))
    ensures r.0 <==> u !in t.users
    ensures !r.0 ==> r.1 == t
    ensures r.1.users.Keys == t.users.Keys + {u}
    ensures u in r.1.users && (r.0 ==> r.1.users[u] == hash(p))
    ensures forall v :: v in t.users ==> r.1.users[v] == t.users[v]
  {
    if u in t.users then (false, t)
    else (true, UserTable(t.users[u := hash(p)]))
  }

  /** `SELECT password ... WHERE username = ?` followed by a comparison of
      the stored digest with the digest of the offered password. */
  function VerifyUser(t: UserTable, hash: Hasher, u: Username, p: Password): (ok: bool)
    ensures ok <==> u in t.users && t.users[u] == hash(p)
  {
    if u in t.users then t.users[u] == hash(p) else false
  }

  /** `UPDATE ... WHERE username = ?`: overwrites the digest of a present
      user; an absent username matches no row and the call is a silent no-op. */
  function UpdatePassword(t: UserTable, hash: Hasher, u: Username, q: Password): (r: UserTable)
    ensures r.users.Keys == t.users.Keys
    ensures u in t.users ==> r.users[u] == hash(q)
    ensures u !in t.users ==> r == t
    ensures forall v :: v in t.users && v != u ==> r.users[v] == t.users[v]
  {
    if u in t.users then UserTable(t.users[u := hash(q)]) else t
  }

  /** `SELECT username FROM users`: every stored username, each exactly
      once. The order of the rows is left unspecified. */
  method GetUsers(t: UserTable) returns (names: seq<Username>)
    ensures forall u :: u in names <==> u in t.users
    ensures forall i, j :: 0 <= i < j < |names| ==> names[i] != names[j]
    ensures |names| == |t.users|
  {
    names := [];
    var rest := t.users.Keys;
    while rest != {}
      invariant forall u :: u in t.users <==> u in rest || u in names
      invariant forall u :: u in names ==> u !in rest
      invariant forall i, j :: 0 <= i < j < |names| ==> names[i] != names[j]
      invariant |names| + |rest| == |t.users|
      decreases |rest|
    {
      var u :| u in rest;
      names := names + [u];
      rest := rest - {u};
    }
  }

  /** A user is never verified when the username is absent. */
  lemma VerifyAbsentUser(t: UserTable, hash: Hasher, u: Username, p: Password)
    requires u !in t.users
    ensures !VerifyUser(t, hash, u, p)
  {
  }

  /** Verification reads the store only through the digest of the offered
      password: two passwords with the same digest are indistinguishable,
      and the plaintext is never compared. */
  lemma VerifyDependsOnlyOnDigest(t: UserTable, hash: Hasher, u: Username, p: Password, q: Password)
    requires hash(p) == hash(q)
    ensures VerifyUser(t, hash, u, p) == VerifyUser(t, hash, u, q)
  {
  }

  /** Right after a successful `add_user(u, p)`, `verify_user(u, q)` holds
      exactly for the passwords `q` whose digest is that of `p`; in
      particular it holds for `p` itself. */
  lemma VerifyAfterAdd(t: UserTable, hash: Hasher, u: Username, p: Password, q: Password)
    requires u !in t.users
    ensures AddUser(t, hash, u, p).0
    ensures VerifyUser(AddUser(t, hash, u, p).1, hash, u, q) <==> hash(q) == hash(p)
    ensures VerifyUser(AddUser(t, hash, u, p).1, hash, u, p)
  {
  }

  /** Registering the same username twice: the second call fails and the
      table still holds the first digest for it. */
  lemma AddUserTwice(t: UserTable, hash: Hasher, u: Username, p: Password, q: Password)
    ensures var t1 := AddUser(t, hash, u, p).1;
            !AddUser(t1, hash, u, q).0 && AddUser(t1, hash, u, q).1 == t1
  {
  }

  /** Adding a user never changes what any other user can log in with. */
  lemma AddUserKeepsOthers(t: UserTable, hash: Hasher, u: Username, p: Password, v: Username, q: Password)
    requires v != u
    ensures VerifyUser(AddUser(t, hash, u, p).1, hash, v, q) == VerifyUser(t, hash, v, q)
  {
  }

  /** After `update_password(u, q)` on a present user, `verify_user(u, q)`
      holds, and every other user verifies as before; on an absent user the
      update changes nothing, and the user still does not verify. */
  lemma UpdateThenVerify(t: UserTable, hash: Hasher, u: Username, q: Password, v: Username, p: Password)
    ensures u in t.users ==> VerifyUser(UpdatePassword(t, hash, u, q), hash, u, q)
    ensures u !in t.users ==> !VerifyUser(UpdatePassword(t, hash, u, q), hash, u, q)
    ensures v != u ==> VerifyUser(UpdatePassword(t, hash, u, q), hash, v, p) == VerifyUser(t, hash, v, p)
  {
  }
}
