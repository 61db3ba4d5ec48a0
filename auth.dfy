/**
 * The mocked session (frontend/src/contexts/AuthContext.jsx): login and
 * register derive an identity without any server, store it under the `user`
 * key and make it the current user; logout forgets it.
 */
module AuthContext {
  import opened Wrappers
  import opened Text
  import opened Json
  import opened LocalStorage

  datatype Identity = Identity(id: string, email: string, name: string, role: string, token: string)

  const UserKey: string := "user"
  const AdminEmail: string := "admin@example.com"
  const MockToken: string := "mock-jwt-token"

  /** The identity login returns: the email alone decides admin or user; the password is ignored. */
  function LoginIdentity(email: string): (u: Identity)
    ensures u.email == email && u.token == MockToken
    ensures u.role == "admin" <==> email == AdminEmail
    ensures email == AdminEmail ==> u.id == "admin-1" && u.name == "Admin User"
    ensures email != AdminEmail ==> u.id == "user-1" && u.name == "Test User" && u.role == "user"
  {
    var isAdmin := email == AdminEmail;
    Identity(
      if isAdmin then "admin-1" else "user-1",
      email,
      if isAdmin then "Admin User" else "Test User",
      if isAdmin then "admin" else "user",
      MockToken)
  }

  /**
   * The identity register returns; `n` stands for Math.floor(Math.random() * 1000),
   * hence below 1000.
   */
  function RegisterIdentity(email: string, name: string, n: nat): (u: Identity)
    requires n < 1000
    ensures u.role == "user" && u.email == email && u.name == name && u.token == MockToken
    ensures |u.id| >= 6 && u.id[..5] == "user-" && AllDigits(u.id[5..])
    ensures ParseNumber(u.id[5..]) == Some(n as int)
  {
    var digits := NatToString(n);
    var id := "user-" + digits;
    assert id[5..] == digits;
    ParseNumberOfNatToString(n);
    Identity(id, email, name, "user", MockToken)
  }

  /** No registered identity can be the admin, whatever email it was given. */
  lemma RegisterNeverAdmin(email: string, name: string, n: nat)
    requires n < 1000
    ensures RegisterIdentity(email, name, n).role != LoginIdentity(AdminEmail).role
  {
  }

  // ---------------------------------------------------------------------------
  // Stored form
  // ---------------------------------------------------------------------------

  function ToValue(u: Identity): Value {
    Arr([Str(u.id), Str(u.email), Str(u.name), Str(u.role), Str(u.token)])
  }

  function FromValue(v: Value): (r: Option<Identity>)
    ensures r.Some? ==> ToValue(r.value) == v
  {
    if v.Arr? && |v.elems| == 5 && v.elems[0].Str? && v.elems[1].Str? && v.elems[2].Str?
       && v.elems[3].Str? && v.elems[4].Str? then
      assert v.elems == [v.elems[0], v.elems[1], v.elems[2], v.elems[3], v.elems[4]];
      Some(Identity(v.elems[0].s, v.elems[1].s, v.elems[2].s, v.elems[3].s, v.elems[4].s))
    else None
  }

  function Serialize(u: Identity): string { Stringify(ToValue(u)) }

  function ParseIdentity(text: string): Option<Identity> {
    match Parse(text)
    case None => None
    case Some(v) => FromValue(v)
  }

  lemma ParseSerialize(u: Identity)
    ensures ParseIdentity(Serialize(u)) == Some(u)
  {
    ParseStringify(ToValue(u));
  }

  /**
   * What the start-up restore makes of the `user` entry: Some(Some(u)) for a
   * stored identity, Some(None) when there is none (absent or empty), None when
   * it cannot be parsed (the restore throws).
   */
  function Restored(saved: Option<string>): (r: Option<Option<Identity>>)
    ensures saved.None? ==> r == Some(None)
  {
    if saved.None? || saved.value == "" then Some(None)
    else match ParseIdentity(saved.value)
      case None => None
      case Some(u) => Some(Some(u))
  }

  /** An identity that login or register stored is what the next start restores. */
  lemma RestoreAfterStore(entries: map<string, string>, u: Identity)
    ensures Restored(Some(entries[UserKey := Serialize(u)][UserKey])) == Some(Some(u))
  {
    ParseSerialize(u);
    assert Stringify(ToValue(u)) != "";
  }

  // ---------------------------------------------------------------------------
  // The provider
  // ---------------------------------------------------------------------------

  class AuthProvider {
    const storage: Storage
    var currentUser: Option<Identity>
    /** True until the start-up restore finished; nothing is rendered before. */
    var loading: bool

    /** Once loaded, the `user` entry holds exactly the current identity, if any. */
    ghost predicate Valid()
      reads this, storage
    {
      !loading ==> Restored(storage.GetItem(UserKey)) == Some(currentUser)
    }

    /** Mount: restore the identity stored under `user`, if there is one. */
    constructor (storage: Storage)
      ensures this.storage == storage
      ensures Restored(storage.GetItem(UserKey)).Some? ==>
        !loading && currentUser == Restored(storage.GetItem(UserKey)).value
      ensures Restored(storage.GetItem(UserKey)).None? ==> loading && currentUser == None
      ensures Valid()
    {
      this.storage := storage;
      var restored := Restored(storage.GetItem(UserKey));
      if restored.Some? {
        currentUser := restored.value;
        loading := false;
      } else {
        currentUser := None;
        loading := true;
      }
    }

    /** Store `u` under `user` and make it current. */
    method SignIn(u: Identity)
      modifies this, storage
      ensures currentUser == Some(u) && loading == old(loading)
      ensures storage.entries == old(storage.entries)[UserKey := Serialize(u)]
      ensures Valid()
    {
      storage.SetItem(UserKey, Serialize(u));
      currentUser := Some(u);
      RestoreAfterStore(old(storage.entries), u);
    }

    /** login(email, password): any credentials succeed. */
    method Login(email: string, password: string) returns (u: Identity)
      modifies this, storage
      ensures u == LoginIdentity(email)
      ensures currentUser == Some(u) && loading == old(loading)
      ensures storage.entries == old(storage.entries)[UserKey := Serialize(u)]
      ensures Valid()
    {
      u := LoginIdentity(email);
      SignIn(u);
    }

    /** register(userData); `n` is the random draw behind the id. */
    method Register(email: string, name: string, n: nat) returns (u: Identity)
      requires n < 1000
      modifies this, storage
      ensures u == RegisterIdentity(email, name, n)
      ensures currentUser == Some(u) && loading == old(loading)
      ensures storage.entries == old(storage.entries)[UserKey := Serialize(u)]
      ensures Valid()
    {
      u := RegisterIdentity(email, name, n);
      SignIn(u);
    }

    method Logout()
      modifies this, storage
      ensures currentUser == None && loading == old(loading)
      ensures storage.entries == old(storage.entries) - {UserKey}
      ensures UserKey !in storage.entries
      ensures Valid()
    {
      storage.RemoveItem(UserKey);
      currentUser := None;
    }
  }
}
