/** The session store: anonymous or signed in, mirrored into localStorage
    under `raffine_user`. */
module Auth {
  import opened Domain

  /** What the store holds together with the storage it mirrors into. */
  datatype SessionState = SessionState(user: Option<User>, isAuthenticated: bool, entries: map<string, Stored>)

  /** The stored user is present exactly when the session is signed in, and is that user. */
  ghost predicate Mirrored(s: SessionState) {
    && (UserKey in s.entries <==> s.isAuthenticated)
    && (s.isAuthenticated <==> s.user.Some?)
    && (s.isAuthenticated ==> s.entries[UserKey] == Json(UserDoc(s.user.value)))
  }

  /** `JSON.parse` of the stored user: only an encoded user record parses. */
  function ParseUser(v: Stored): (r: Option<User>)
    ensures r.Some? <==> v.Json? && v.doc.UserDoc?
    ensures r.Some? ==> v == Json(UserDoc(r.value))
  {
    if v.Json? && v.doc.UserDoc? then Some(v.doc.user) else None
  }

  /** The mount effect, from the initial anonymous state: a stored user signs
      in; an unparseable one is removed; an absent or empty one changes nothing. */
  function Startup(entries: map<string, Stored>): (s: SessionState)
    ensures UserKey !in entries ==> s == SessionState(None, false, entries)
    ensures UserKey in entries && !Truthy(entries[UserKey]) ==> s == SessionState(None, false, entries)
    ensures UserKey in entries && ParseUser(entries[UserKey]).Some? ==>
              s == SessionState(ParseUser(entries[UserKey]), true, entries)
    ensures UserKey in entries && Truthy(entries[UserKey]) && ParseUser(entries[UserKey]).None? ==>
              s == SessionState(None, false, entries - {UserKey})
  {
    if UserKey in entries && Truthy(entries[UserKey]) then
      match ParseUser(entries[UserKey])
      case Some(u) => SessionState(Some(u), true, entries)
      case None => SessionState(None, false, entries - {UserKey})
    else
      SessionState(None, false, entries)
  }

  /** `login(userData)` and, identically, `registerUser(userData)`. */
  function SignIn(s: SessionState, u: User): (r: SessionState)
    ensures r.user == Some(u) && r.isAuthenticated
    ensures r.entries.Keys == s.entries.Keys + {UserKey}
    ensures r.entries[UserKey] == Json(UserDoc(u))
    ensures forall k :: k in s.entries && k != UserKey ==> r.entries[k] == s.entries[k]
  {
    SessionState(Some(u), true, s.entries[UserKey := Json(UserDoc(u))])
  }

  /** `logout()`. */
  function SignOut(s: SessionState): (r: SessionState)
    ensures r.user.None? && !r.isAuthenticated
    ensures r.entries.Keys == s.entries.Keys - {UserKey}
    ensures forall k :: k in r.entries ==> r.entries[k] == s.entries[k]
  {
    SessionState(None, false, s.entries - {UserKey})
  }

  /** After sign-in or sign-out, from any state, storage mirrors the session. */
  lemma TransitionsMirror(s: SessionState, u: User)
    ensures Mirrored(SignIn(s, u))
    ensures Mirrored(SignOut(s))
  {
  }

  /** The startup load ends mirrored, unless the stored value was an empty string. */
  lemma StartupMirrors(entries: map<string, Stored>)
    requires UserKey in entries ==> Truthy(entries[UserKey])
    ensures Mirrored(Startup(entries))
  {
    if UserKey in entries {
      var v := entries[UserKey];
      if ParseUser(v).Some? {
        assert v == Json(UserDoc(ParseUser(v).value));
      }
    }
  }

  /** Signing out twice is signing out once, whatever the state. */
  lemma SignOutIdempotent(s: SessionState)
    ensures SignOut(SignOut(s)) == SignOut(s)
  {
    assert SignOut(s).entries - {UserKey} == SignOut(s).entries;
  }

  /** Signing out undoes a sign-in on the session and on storage when no user was stored before. */
  lemma SignOutUndoesSignIn(s: SessionState, u: User)
    requires UserKey !in s.entries
    ensures SignOut(SignIn(s, u)).entries == s.entries
    ensures SignOut(SignIn(s, u)).user.None?
  {
    assert SignIn(s, u).entries - {UserKey} == s.entries;
  }

  /** A stored user survives a restart: startup after a sign-in restores it. */
  lemma RestartRestoresSession(s: SessionState, u: User)
    ensures Startup(SignIn(s, u).entries) == SignIn(s, u)
  {
    var e := SignIn(s, u).entries;
    assert ParseUser(e[UserKey]) == Some(u);
  }

  class Session {
    var user: Option<User>
    var isAuthenticated: bool
    const storage: LocalStorage

    constructor (storage: LocalStorage)
      ensures this.storage == storage
      ensures user == None && !isAuthenticated
    {
      this.storage := storage;
      user := None;
      isAuthenticated := false;
    }

    function State(): SessionState
      reads this, storage
    {
      SessionState(user, isAuthenticated, storage.entries)
    }

    /** The mount effect, run on the freshly constructed store. */
    method Load()
      requires user == None && !isAuthenticated
      modifies this, storage
      ensures State() == Startup(old(storage.entries))
    {
      var saved := storage.GetItem(UserKey);
      if saved.Some? && Truthy(saved.value) {
        match ParseUser(saved.value)
        case Some(u) =>
          user := Some(u);
          isAuthenticated := true;
        case None =>
          storage.RemoveItem(UserKey);
      }
    }

    method Login(u: User)
      modifies this, storage
      ensures State() == SignIn(old(State()), u)
    {
      user := Some(u);
      isAuthenticated := true;
      storage.SetItem(UserKey, Json(UserDoc(u)));
    }

    method RegisterUser(u: User)
      modifies this, storage
      ensures State() == SignIn(old(State()), u)
    {
      user := Some(u);
      isAuthenticated := true;
      storage.SetItem(UserKey, Json(UserDoc(u)));
    }

    method Logout()
      modifies this, storage
      ensures State() == SignOut(old(State()))
    {
      user := None;
      isAuthenticated := false;
      storage.RemoveItem(UserKey);
    }
  }
}
