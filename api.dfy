/** The REST client (src/services/api.ts). One axios instance whose default
    header map is shared by every call; `addAuthToken` rewrites it in place
    from the token in storage. The backend's answers are parameters. */
module Api {
  import opened Types
  import opened Trace
  import opened WebStorage

  /** `err.response.data.error` of a failed call: absent, a string, or a
      value of another type. */
  datatype ErrorField = Absent | Text(text: string) | NonText

  /** The backend's answer: the data of a 2xx response, or the error axios throws. */
  datatype Response<T> = Ok(data: T) | Failed(error: ErrorField)

  /** Body of the signup and login answers; `token` may be missing. */
  datatype AuthData = AuthData(token: Option<string>)

  const Authorization := "Authorization"

  /** The headers the instance is created with. */
  const DefaultHeaders: map<string, string> := map["Content-Type" := "application/json"]

  /** The header map `addAuthToken` leaves behind, given the stored token. */
  function WithAuth(headers: map<string, string>, token: Option<string>): (r: map<string, string>)
    ensures Authorization in r <==> Truthy(token)
    ensures Truthy(token) ==> r[Authorization] == "Bearer " + token.value
    ensures forall k :: k != Authorization ==> (k in r <==> k in headers)
    ensures forall k :: k != Authorization && k in r ==> r[k] == headers[k]
  {
    if Truthy(token) then headers[Authorization := "Bearer " + token.value]
    else headers - {Authorization}
  }

  /** Refreshing twice from the same token is the same as refreshing once. */
  lemma WithAuthIdempotent(headers: map<string, string>, token: Option<string>)
    ensures WithAuth(WithAuth(headers, token), token) == WithAuth(headers, token)
  {
    var once := WithAuth(headers, token);
    var twice := WithAuth(once, token);
    assert twice.Keys == once.Keys;
  }

  /** The refreshed headers depend on the earlier ones only outside
      `Authorization`: two refreshes from the same token agree wherever the
      starting maps agreed. */
  lemma WithAuthOverwrites(h1: map<string, string>, h2: map<string, string>, token: Option<string>)
    requires h1 - {Authorization} == h2 - {Authorization}
    ensures WithAuth(h1, token) == WithAuth(h2, token)
  {
    var r1, r2 := WithAuth(h1, token), WithAuth(h2, token);
    forall k | k != Authorization
      ensures (k in r1 <==> k in r2) && (k in r1 ==> r1[k] == r2[k])
    {
      assert k in h1 <==> k in h1 - {Authorization};
      assert k in h2 <==> k in h2 - {Authorization};
      if k in h1 {
        assert h1[k] == (h1 - {Authorization})[k];
        assert h2[k] == (h2 - {Authorization})[k];
      }
    }
    assert r1.Keys == r2.Keys;
  }

  /** Whether a signup or login answer makes the client store its token:
      only a successful answer whose token is truthy. */
  predicate StoresToken(response: Response<AuthData>)
  {
    response.Ok? && Truthy(response.data.token)
  }

  class ApiClient {
    const storage: LocalStorage
    /** `api.defaults.headers`. */
    var headers: map<string, string>

    constructor (storage: LocalStorage)
      ensures this.storage == storage && headers == DefaultHeaders
    {
      this.storage := storage;
      headers := DefaultHeaders;
    }

    /** `addAuthToken`: set or delete `Authorization` from the stored token. */
    method AddAuthToken()
      modifies this`headers
      ensures headers == WithAuth(old(headers), storage.GetItem(TokenKey))
    {
      var token := storage.GetItem(TokenKey);
      if token.Some? && token.value != "" {
        headers := headers[Authorization := "Bearer " + token.value];
      } else {
        headers := headers - {Authorization};
      }
    }

    /** `signup` and `login`: post with the headers as they stand (no
        refresh), then store the answer's token when it is truthy. */
    method PostCredentials(path: string, body: Payload, response: Response<AuthData>)
      returns (trace: seq<Effect>)
      modifies storage
      ensures headers == old(headers)
      ensures storage.items
        == if StoresToken(response) then old(storage.items)[TokenKey := response.data.token.value]
           else old(storage.items)
      ensures trace
        == [Sent(Request(Post, path, headers, body))]
           + if StoresToken(response) then [Stored(TokenKey, response.data.token.value)] else []
    {
      trace := [Sent(Request(Post, path, headers, body))];
      if response.Ok? && response.data.token.Some? && response.data.token.value != "" {
        storage.SetItem(TokenKey, response.data.token.value);
        trace := trace + [Stored(TokenKey, response.data.token.value)];
      }
    }

    method Signup(name: string, email: string, password: string, response: Response<AuthData>)
      returns (trace: seq<Effect>)
      modifies storage
      ensures headers == old(headers)
      ensures storage.items
        == if StoresToken(response) then old(storage.items)[TokenKey := response.data.token.value]
           else old(storage.items)
      ensures trace
        == [Sent(Request(Post, "/auth/signup", headers, SignupBody(name, email, password)))]
           + if StoresToken(response) then [Stored(TokenKey, response.data.token.value)] else []
    {
      trace := PostCredentials("/auth/signup", SignupBody(name, email, password), response);
    }

    method Login(email: string, password: string, response: Response<AuthData>)
      returns (trace: seq<Effect>)
      modifies storage
      ensures headers == old(headers)
      ensures storage.items
        == if StoresToken(response) then old(storage.items)[TokenKey := response.data.token.value]
           else old(storage.items)
      ensures trace
        == [Sent(Request(Post, "/auth/login", headers, LoginBody(email, password)))]
           + if StoresToken(response) then [Stored(TokenKey, response.data.token.value)] else []
    {
      trace := PostCredentials("/auth/login", LoginBody(email, password), response);
    }

    /** An authenticated call: refresh the header from storage, then send. */
    method SendAuthenticated(verb: Verb, path: string, body: Payload) returns (trace: seq<Effect>)
      modifies this`headers
      ensures headers == WithAuth(old(headers), storage.GetItem(TokenKey))
      ensures trace == [Sent(Request(verb, path, headers, body))]
    {
      AddAuthToken();
      trace := [Sent(Request(verb, path, headers, body))];
    }

    method GetTopics() returns (trace: seq<Effect>)
      modifies this`headers
      ensures headers == WithAuth(old(headers), storage.GetItem(TokenKey))
      ensures trace == [Sent(Request(Get, "/topics", headers, NoBody))]
    {
      trace := SendAuthenticated(Get, "/topics", NoBody);
    }

    method MarkTopicAsComplete(topicId: string, subtopicId: int, isComplete: bool)
      returns (trace: seq<Effect>)
      modifies this`headers
      ensures headers == WithAuth(old(headers), storage.GetItem(TokenKey))
      ensures trace == [Sent(Request(Post, "/completed/mark", headers, MarkBody(topicId, subtopicId, isComplete)))]
    {
      trace := SendAuthenticated(Post, "/completed/mark", MarkBody(topicId, subtopicId, isComplete));
    }

    method GetUserData() returns (trace: seq<Effect>)
      modifies this`headers
      ensures headers == WithAuth(old(headers), storage.GetItem(TokenKey))
      ensures trace == [Sent(Request(Get, "/auth/me", headers, NoBody))]
    {
      trace := SendAuthenticated(Get, "/auth/me", NoBody);
    }
  }

  /** Two `addAuthToken` calls in a row leave the same header map as one,
      whatever the map was before and whatever is stored. */
  method RefreshTwiceIsRefreshOnce(stored: map<string, string>, start: map<string, string>)
    returns (once: map<string, string>, twice: map<string, string>)
    ensures once == twice
    ensures once == WithAuth(start, if TokenKey in stored then Some(stored[TokenKey]) else None)
  {
    var storage := new LocalStorage(stored);
    var a := new ApiClient(storage);
    a.headers := start;
    a.AddAuthToken();
    once := a.headers;
    var b := new ApiClient(storage);
    b.headers := start;
    b.AddAuthToken();
    b.AddAuthToken();
    twice := b.headers;
    WithAuthIdempotent(start, storage.GetItem(TokenKey));
  }
}
