/** The client's session store (frontend/src/contexts/AuthContext.tsx): the
    signed-in user kept in component state and mirrored in `localStorage`
    under the keys "token" and "user". The HTTP client and JSON are not
    modelled: a request's outcome is a parameter, and `JSON.stringify` /
    `JSON.parse` are given functions. */
module AuthContext {
  import opened Common

  /** The user the client keeps. */
  datatype ClientUser = ClientUser(id: string, name: string, email: string, avatar: Option<string>)

  /** `JSON.stringify` and `JSON.parse` on a user; `parse` gives `None`
      where `JSON.parse` throws. */
  datatype Json = Json(stringify: ClientUser -> string, parse: string -> Option<ClientUser>)

  /** What register and login answer with: `{token, user}`. */
  datatype Session = Session(token: string, user: ClientUser)

  /** `localStorage` as a key/value map. */
  type Storage = map<string, string>

  /** `localStorage.getItem(key)`: `null` when the key is absent. */
  function GetItem(storage: Storage, key: string): Option<string>
  {
    if key in storage then Some(storage[key]) else None
  }

  /** What the provider's mount effect finds in storage. */
  datatype Restore = Restored(user: ClientUser) | NoSession | Unparsable

  /** The mount effect's decision: a user is restored only when both the
      "user" and the "token" entries are truthy; the stored user text is
      then parsed, which can throw. */
  function RestoreSession(storage: Storage, json: Json): (r: Restore)
    ensures r.NoSession? <==> !(Truthy(GetItem(storage, "user")) && Truthy(GetItem(storage, "token")))
    ensures r.Restored? ==> "user" in storage && json.parse(storage["user"]) == Some(r.user)
    ensures r.Unparsable? ==> "user" in storage && json.parse(storage["user"]).None?
  {
    var stored := GetItem(storage, "user");
    var token := GetItem(storage, "token");
    if Truthy(stored) && Truthy(token) then
      match json.parse(stored.value)
      case Some(u) => Restored(u)
      case None => Unparsable
    else NoSession
  }

  /** Storage after a successful register or login: the token under
      "token", the serialised user under "user", every other entry as it
      was. */
  function Saved(storage: Storage, s: Session, json: Json): (r: Storage)
    ensures GetItem(r, "token") == Some(s.token)
    ensures GetItem(r, "user") == Some(json.stringify(s.user))
    ensures forall k :: k != "token" && k != "user" ==> GetItem(r, k) == GetItem(storage, k)
  {
    storage["token" := s.token]["user" := json.stringify(s.user)]
  }

  /** Storage after logout: both session entries gone, every other entry
      as it was. */
  function Cleared(storage: Storage): (r: Storage)
    ensures GetItem(r, "token").None? && GetItem(r, "user").None?
    ensures forall k :: k != "token" && k != "user" ==> GetItem(r, k) == GetItem(storage, k)
  {
    storage - {"token", "user"}
  }

  /** A saved session comes back on the next mount when the token is not
      empty, the user text is not empty and parsing undoes serialising. */
  lemma SaveThenRestore(storage: Storage, s: Session, json: Json)
    requires s.token != "" && json.stringify(s.user) != ""
    requires json.parse(json.stringify(s.user)) == Some(s.user)
    ensures RestoreSession(Saved(storage, s, json), json) == Restored(s.user)
  {
    var r := Saved(storage, s, json);
    assert GetItem(r, "user") == Some(json.stringify(s.user));
  }

  /** After logout, the next mount restores no one. */
  lemma LogoutThenRestore(storage: Storage, json: Json)
    ensures RestoreSession(Cleared(storage), json) == NoSession
  {
    var r := Cleared(storage);
    assert GetItem(r, "user").None?;
  }

  /** `AuthProvider`'s state. */
  class AuthProvider {
    var storage: Storage
    var user: Option<ClientUser>
    var isLoading: bool

    /** First render: no user, loading. */
    constructor (storage: Storage)
      ensures this.storage == storage && user == None && isLoading
    {
      this.storage := storage;
      user := None;
      isLoading := true;
    }

    /** The mount effect. Storage is only read. With no complete session the
        user is left alone; a parsed user is restored. Loading ends in both
        cases. When parsing throws, the effect stops before loading ends
        (`ok` is false). */
    method Init(json: Json) returns (ok: bool)
      modifies this
      ensures storage == old(storage)
      ensures ok <==> !RestoreSession(old(storage), json).Unparsable?
      ensures ok ==> !isLoading
      ensures !ok ==> isLoading == old(isLoading) && user == old(user)
      ensures RestoreSession(old(storage), json).Restored? ==> user == Some(RestoreSession(old(storage), json).user)
      ensures RestoreSession(old(storage), json).NoSession? ==> user == old(user)
    {
      var stored := GetItem(storage, "user");
      var token := GetItem(storage, "token");
      if Truthy(stored) && Truthy(token) {
        var parsed := json.parse(stored.value);
        if parsed.None? {
          return false;
        }
        user := parsed;
      }
      isLoading := false;
      ok := true;
    }

    /** The common tail of `register` and `login`: store the token, then
        the serialised user, then set the user. */
    method SaveSession(s: Session, json: Json)
      modifies this
      ensures storage == Saved(old(storage), s, json)
      ensures user == Some(s.user) && isLoading == old(isLoading)
    {
      storage := storage["token" := s.token];
      storage := storage["user" := json.stringify(s.user)];
      user := Some(s.user);
    }

    /** `register`; `response` is `None` when the request fails, and then
        nothing changes. */
    method Register(response: Option<Session>, json: Json) returns (ok: bool)
      modifies this
      ensures ok <==> response.Some?
      ensures ok ==> storage == Saved(old(storage), response.value, json) && user == Some(response.value.user)
      ensures !ok ==> storage == old(storage) && user == old(user)
      ensures isLoading == old(isLoading)
    {
      ok := response.Some?;
      if ok {
        SaveSession(response.value, json);
      }
    }

    /** `login`; the same store updates as `register`. */
    method Login(response: Option<Session>, json: Json) returns (ok: bool)
      modifies this
      ensures ok <==> response.Some?
      ensures ok ==> storage == Saved(old(storage), response.value, json) && user == Some(response.value.user)
      ensures !ok ==> storage == old(storage) && user == old(user)
      ensures isLoading == old(isLoading)
    {
      ok := response.Some?;
      if ok {
        SaveSession(response.value, json);
      }
    }

    /** `logout`: both session entries removed and no user. */
    method Logout()
      modifies this
      ensures storage == Cleared(old(storage))
      ensures user == None && isLoading == old(isLoading)
    {
      storage := storage - {"token"};
      storage := storage - {"user"};
      user := None;
    }
  }

  /** `useAuth`: the provider's value, or the error it throws when there is
      no provider above the caller. */
  function UseAuth(context: Option<AuthProvider>): (r: Result<AuthProvider>)
    ensures r.Failure? <==> context.None?
    ensures r.Failure? ==> r.error == "useAuth must be used within an AuthProvider"
    ensures r.Success? ==> r.value == context.value
  {
    if context.None? then Failure("useAuth must be used within an AuthProvider")
    else Success(context.value)
  }
}
