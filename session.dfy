/** The session store held by the root component (src/App.tsx): the current
    user, the login modal's flags, and the two storage keys it persists the
    session under. */
module Session {
  import opened Types
  import opened Trace
  import opened WebStorage
  import opened Api
  import Json

  /** What `logout` does, in order. */
  const LogoutTrace: seq<Effect> := [Removed(UserKey), Removed(TokenKey), UserSet(None)]

  class Session {
    const storage: LocalStorage
    var user: Option<User>
    var loginModalOpen: bool
    var selectedTab: Tab

    /** A fresh page load: nobody in memory, modal closed, signup tab. */
    constructor (storage: LocalStorage)
      ensures this.storage == storage
      ensures user == None && !loginModalOpen && selectedTab == Signup
    {
      this.storage := storage;
      user := None;
      loginModalOpen := false;
      selectedTab := Signup;
    }

    /** `logout`: forget the stored user and token, then the user in memory.
        Every other storage key and every flag stays as it was. */
    method Logout() returns (trace: seq<Effect>)
      modifies this`user, storage
      ensures user == None
      ensures storage.items == old(storage.items) - {UserKey, TokenKey}
      ensures trace == LogoutTrace
    {
      storage.RemoveItem(UserKey);
      storage.RemoveItem(TokenKey);
      user := None;
      trace := LogoutTrace;
    }

    /** `updateUser`: adopt and persist a user, or log out when given none.
        Persisting writes the user's JSON text and leaves the token alone. */
    method UpdateUser(next: Option<User>) returns (trace: seq<Effect>)
      modifies this`user, storage
      ensures user == next
      ensures next.Some? ==> storage.items == old(storage.items)[UserKey := Json.Serialise(next.value)]
      ensures next.Some? ==> trace == [UserSet(next), Stored(UserKey, Json.Serialise(next.value))]
      ensures next.None? ==> storage.items == old(storage.items) - {UserKey, TokenKey}
      ensures next.None? ==> trace == LogoutTrace
    {
      if next.Some? {
        user := next;
        var text := Json.Serialise(next.value);
        storage.SetItem(UserKey, text);
        trace := [UserSet(next), Stored(UserKey, text)];
      } else {
        trace := Logout();
      }
    }

    method SetLoginModalOpen(open: bool) returns (trace: seq<Effect>)
      modifies this`loginModalOpen
      ensures loginModalOpen == open && trace == [ModalSet(open)]
    {
      loginModalOpen := open;
      trace := [ModalSet(open)];
    }

    method SetSelectedTab(tab: Tab)
      modifies this`selectedTab
      ensures selectedTab == tab
    {
      selectedTab := tab;
    }

    /** `checkUser`, the start-up hydration. With a user in memory it does
        nothing. Otherwise a truthy stored user is parsed and adopted with no
        request (text that does not parse throws, and nothing is adopted); failing
        that, a truthy stored token leads to one authenticated `/auth/me` call
        whose answer, when there is one, is adopted; failing both, nothing
        happens. The user is adopted with `setUser`, so storage is never written. */
    method CheckUser(api: ApiClient, me: Response<User>) returns (trace: seq<Effect>)
      requires api.storage == storage
      modifies this`user, api`headers
      ensures storage.items == old(storage.items)
      ensures old(user).Some? ==> user == old(user) && api.headers == old(api.headers) && trace == []
      ensures old(user).None? && Truthy(storage.GetItem(UserKey)) ==>
        && user == Json.Parse(storage.items[UserKey])
        && api.headers == old(api.headers)
        && trace == (if user.Some? then [UserSet(user)] else [])
      ensures old(user).None? && !Truthy(storage.GetItem(UserKey)) && Truthy(storage.GetItem(TokenKey)) ==>
        && api.headers == WithAuth(old(api.headers), storage.GetItem(TokenKey))
        && user == (if me.Ok? then Some(me.data) else None)
        && trace == [Sent(Request(Get, "/auth/me", api.headers, NoBody))]
                    + (if me.Ok? then [UserSet(user)] else [])
      ensures old(user).None? && !Truthy(storage.GetItem(UserKey)) && !Truthy(storage.GetItem(TokenKey)) ==>
        user == None && api.headers == old(api.headers) && trace == []
    {
      trace := [];
      if user.None? {
        var storedUser := storage.GetItem(UserKey);
        var storedToken := storage.GetItem(TokenKey);
        if storedUser.Some? && storedUser.value != "" {
          var parsed := Json.Parse(storedUser.value);
          if parsed.Some? {
            user := parsed;
            trace := [UserSet(parsed)];
          }
        } else if storedToken.Some? && storedToken.value != "" {
          trace := api.GetUserData();
          if me.Ok? {
            user := Some(me.data);
            trace := trace + [UserSet(user)];
          }
        }
      }
    }
  }

  // ------------------------------------------------------------ scenarios

  /** Persist-then-reload: after `updateUser(u)` a new page load over the same
      storage restores exactly `u` from the stored text, sends no request,
      even when a token is stored too, whatever `/auth/me` would answer. */
  method ReloadRestoresUser(initial: map<string, string>, u: User, me: Response<User>)
    returns (restored: Option<User>, trace: seq<Effect>)
    ensures restored == Some(u)
    ensures trace == [UserSet(Some(u))]
  {
    var storage := new LocalStorage(initial);
    var before := new Session(storage);
    var _ := before.UpdateUser(Some(u));
    var after := new Session(storage);
    var api := new ApiClient(storage);
    Json.ParseSerialise(u);
    trace := after.CheckUser(api, me);
    restored := after.user;
  }

  /** `updateUser(null)` and `logout()`, run from the same state, leave the
      same user, the same storage and the same effects. */
  method UpdateNullIsLogout(initial: map<string, string>, current: Option<User>)
    returns (viaUpdate: (Option<User>, map<string, string>, seq<Effect>),
             viaLogout: (Option<User>, map<string, string>, seq<Effect>))
    ensures viaUpdate == viaLogout
    ensures viaUpdate.0 == None
    ensures UserKey !in viaUpdate.1 && TokenKey !in viaUpdate.1
  {
    var st1 := new LocalStorage(initial);
    var s1 := new Session(st1);
    s1.user := current;
    var t1 := s1.UpdateUser(None);
    viaUpdate := (s1.user, s1.storage.items, t1);

    var st2 := new LocalStorage(initial);
    var s2 := new Session(st2);
    s2.user := current;
    var t2 := s2.Logout();
    viaLogout := (s2.user, s2.storage.items, t2);
  }

  /** A load with nothing stored leaves the session empty and sends nothing. */
  method EmptyLoadStaysEmpty(me: Response<User>) returns (user: Option<User>, trace: seq<Effect>)
    ensures user == None && trace == []
  {
    var storage := new LocalStorage(map[]);
    var session := new Session(storage);
    var api := new ApiClient(storage);
    trace := session.CheckUser(api, me);
    user := session.user;
  }
}
