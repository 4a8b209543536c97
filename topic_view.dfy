/** One topic card (src/components/Topic/Topic.tsx): whether each subtopic's
    checkbox is shown and checked, and what toggling it does. */
module TopicView {
  import opened Types
  import opened Trace
  import opened WebStorage
  import opened Api
  import opened Session
  import Json

  // ------------------------------------------------- completion lookup

  /** `completedTopics.find(c => c.topicId === topicId)`: the first entry for
      the topic, if any. */
  function FindCompletion(entries: seq<Completion>, topicId: string): (r: Option<Completion>)
    ensures r.None? <==> forall i :: 0 <= i < |entries| ==> entries[i].topicId != topicId
    ensures r.Some? ==> r.value.topicId == topicId && r.value in entries
  {
    if |entries| == 0 then None
    else if entries[0].topicId == topicId then Some(entries[0])
    else FindCompletion(entries[1..], topicId)
  }

  /** Entry `i` is the first one for `topicId`. */
  predicate FirstFor(entries: seq<Completion>, topicId: string, i: int)
  {
    && 0 <= i < |entries|
    && entries[i].topicId == topicId
    && forall j :: 0 <= j < i ==> entries[j].topicId != topicId
  }

  lemma {:induction false} FindReturnsFirst(entries: seq<Completion>, topicId: string, i: int)
    requires FirstFor(entries, topicId, i)
    ensures FindCompletion(entries, topicId) == Some(entries[i])
  {
    if i > 0 {
      assert entries[0].topicId != topicId;
      FindReturnsFirst(entries[1..], topicId, i - 1);
    }
  }

  /** Whenever an entry is found, it is the first one for the topic. */
  lemma {:induction false} FoundIsFirst(entries: seq<Completion>, topicId: string)
    requires FindCompletion(entries, topicId).Some?
    ensures exists i :: FirstFor(entries, topicId, i) && FindCompletion(entries, topicId) == Some(entries[i])
  {
    if entries[0].topicId == topicId {
      assert FirstFor(entries, topicId, 0);
    } else {
      FoundIsFirst(entries[1..], topicId);
      var i :| FirstFor(entries[1..], topicId, i) && FindCompletion(entries[1..], topicId) == Some(entries[1..][i]);
      assert FirstFor(entries, topicId, i + 1);
    }
  }

  /** `isChecked` for one subtopic of the topic `topicId`. */
  function IsChecked(user: Option<User>, topicId: string, subtopicId: int): bool
  {
    match user
    case None => false
    case Some(u) =>
      match FindCompletion(u.completedTopics, topicId)
      case None => false
      case Some(entry) => subtopicId in entry.subtopicIds
  }

  /** Checked exactly when the user's first entry for the topic lists the
      subtopic; with no user, or no entry for the topic, it is unchecked. */
  lemma IsCheckedIff(user: Option<User>, topicId: string, subtopicId: int)
    ensures IsChecked(user, topicId, subtopicId)
      <==> user.Some? && exists i :: FirstFor(user.value.completedTopics, topicId, i)
                                     && subtopicId in user.value.completedTopics[i].subtopicIds
  {
    if user.Some? {
      var entries := user.value.completedTopics;
      if FindCompletion(entries, topicId).Some? {
        FoundIsFirst(entries, topicId);
        forall i | FirstFor(entries, topicId, i)
          ensures FindCompletion(entries, topicId) == Some(entries[i])
        {
          FindReturnsFirst(entries, topicId, i);
        }
      }
    }
  }

  /** Entries after the first one for a topic never change its checkboxes. */
  lemma LaterEntriesIgnored(u: User, more: seq<Completion>, topicId: string, subtopicId: int)
    requires exists e :: e in u.completedTopics && e.topicId == topicId
    ensures IsChecked(Some(u.(completedTopics := u.completedTopics + more)), topicId, subtopicId)
         == IsChecked(Some(u), topicId, subtopicId)
  {
    var entries := u.completedTopics;
    var found := FindCompletion(entries, topicId);
    FoundIsFirst(entries, topicId);
    var i :| FirstFor(entries, topicId, i) && found == Some(entries[i]);
    assert FirstFor(entries + more, topicId, i);
    FindReturnsFirst(entries + more, topicId, i);
  }

  // ------------------------------------------------- the checkbox

  const MarkComplete := "Mark Complete"
  const MarkIncomplete := "Mark Incomplete"

  /** The checkbox's title and aria-label. */
  function Label(checked: bool): (r: string)
    ensures r == MarkComplete <==> !checked
    ensures r == MarkIncomplete <==> checked
  {
    if !checked then MarkComplete else MarkIncomplete
  }

  /** A rendered checkbox: its state, its title (also its aria-label), and the `isComplete` a click
      passes to `handleToggle` (the box's new state). */
  datatype Checkbox = Checkbox(checked: bool, title: string, clickSends: bool)

  /** The checkbox of one subtopic, rendered only when someone is logged in. */
  function CheckboxFor(user: Option<User>, topicId: string, subtopicId: int): (r: Option<Checkbox>)
    ensures r.Some? <==> user.Some?
    ensures r.Some? ==> r.value.checked == IsChecked(user, topicId, subtopicId)
    ensures r.Some? ==> r.value.title == Label(r.value.checked) && r.value.clickSends == !r.value.checked
  {
    if user.None? then None
    else
      var checked := IsChecked(user, topicId, subtopicId);
      Some(Checkbox(checked, Label(checked), !checked))
  }

  // ------------------------------------------------- handleToggle

  /** Whether the context the card reads provides `setIsLoading`. The root
      component's provider value leaves it out (src/App.tsx:53-61). */
  const AppProvidesSetIsLoading := false

  /** The timer callback `handleToggle` schedules after a successful mark:
      re-fetch the user, commit it with `updateUser`, then lower loading. A
      failed re-fetch rejects after its request: nothing is committed and
      loading stays raised. */
  method RefetchAfterMark(session: Session, api: ApiClient, me: Response<User>)
    returns (trace: seq<Effect>)
    requires api.storage == session.storage
    modifies session`user, session.storage, api`headers
    ensures api.headers == WithAuth(old(api.headers), old(session.storage.GetItem(TokenKey)))
    ensures me.Failed? ==>
      && trace == [Sent(Request(Get, "/auth/me", api.headers, NoBody))]
      && session.user == old(session.user) && session.storage.items == old(session.storage.items)
    ensures me.Ok? ==>
      && trace == [Sent(Request(Get, "/auth/me", api.headers, NoBody)), UserSet(Some(me.data)),
                   Stored(UserKey, Json.Serialise(me.data)), LoadingSet(false)]
      && session.user == Some(me.data)
      && session.storage.items == old(session.storage.items)[UserKey := Json.Serialise(me.data)]
  {
    trace := api.GetUserData();
    if me.Ok? {
      var committed := session.UpdateUser(Some(me.data));
      trace := trace + committed + [LoadingSet(false)];
    }
  }

  /** `handleToggle`, run to the end as one sequence: the mark request and,
      once the 500 ms timer fires, the re-fetch and the commit. `mark` and
      `me` are the backend's answers to the two requests. When the context
      has no `setIsLoading`, its call throws at once and the catch block only
      logs. Otherwise loading is raised, the mark request carries exactly the
      triple given; a failed mark is logged and nothing else happens (loading
      stays raised); after a successful mark the user is re-fetched,
      committed with `updateUser` and only then loading is lowered; a failed
      re-fetch leaves loading raised and commits nothing. */
  method HandleToggle(session: Session, api: ApiClient, setIsLoadingProvided: bool,
                      topicId: string, subtopicId: int, isComplete: bool,
                      mark: Response<()>, me: Response<User>)
    returns (trace: seq<Effect>)
    requires api.storage == session.storage
    modifies session`user, session.storage, api`headers
    ensures
      var headers := WithAuth(old(api.headers), old(session.storage.GetItem(TokenKey)));
      var markSent := Sent(Request(Post, "/completed/mark", headers, MarkBody(topicId, subtopicId, isComplete)));
      var meSent := Sent(Request(Get, "/auth/me", headers, NoBody));
      && (!setIsLoadingProvided ==>
            trace == [ConsoleError] && api.headers == old(api.headers))
      && (setIsLoadingProvided ==> api.headers == headers)
      && (setIsLoadingProvided && mark.Failed? ==>
            trace == [LoadingSet(true), markSent, ConsoleError])
      && (setIsLoadingProvided && mark.Ok? && me.Failed? ==>
            trace == [LoadingSet(true), markSent, meSent])
      && (setIsLoadingProvided && mark.Ok? && me.Ok? ==>
            trace == [LoadingSet(true), markSent, meSent, UserSet(Some(me.data)),
                      Stored(UserKey, Json.Serialise(me.data)), LoadingSet(false)])
    ensures setIsLoadingProvided && mark.Ok? && me.Ok? ==>
      && session.user == Some(me.data)
      && session.storage.items == old(session.storage.items)[UserKey := Json.Serialise(me.data)]
    ensures !(setIsLoadingProvided && mark.Ok? && me.Ok?) ==>
      session.user == old(session.user) && session.storage.items == old(session.storage.items)
  {
    if !setIsLoadingProvided {
      trace := [ConsoleError];
      return;
    }
    var sent := api.MarkTopicAsComplete(topicId, subtopicId, isComplete);
    trace := [LoadingSet(true)] + sent;
    if mark.Failed? {
      trace := trace + [ConsoleError];
      return;
    }
    WithAuthIdempotent(old(api.headers), session.storage.GetItem(TokenKey));
    var later := RefetchAfterMark(session, api, me);
    trace := trace + later;
  }

  // ------------------------------------------------- scenarios

  /** As written: inside the root component's provider, a click on a
      checkbox sends no request at all and only logs the error. */
  method ToggleUnderAppProvider(initial: map<string, string>, current: Option<User>,
                                topicId: string, subtopicId: int, isComplete: bool,
                                mark: Response<()>, me: Response<User>)
    returns (trace: seq<Effect>, user: Option<User>)
    ensures trace == [ConsoleError] && NoRequest(trace)
    ensures user == current
  {
    var storage := new LocalStorage(initial);
    var session := new Session(storage);
    session.user := current;
    var api := new ApiClient(storage);
    trace := HandleToggle(session, api, AppProvidesSetIsLoading, topicId, subtopicId, isComplete, mark, me);
    user := session.user;
  }

  /** The header map of a client created with `token` stored, once refreshed. */
  function BearerHeaders(token: string): map<string, string>
  {
    DefaultHeaders[Authorization := "Bearer " + token]
  }

  /** With `setIsLoading` provided: a logged-in user ticks an unchecked box.
      Loading is raised, the mark request asks for completion with the user's
      bearer token, the user is re-fetched, adopted and persisted, and only
      then is loading lowered. */
  method ToggleWithLoadingSetter(u: User, token: string, topicId: string, subtopicId: int,
                                 refetched: User)
    returns (trace: seq<Effect>, user: Option<User>, stored: Option<string>)
    requires token != ""
    requires !IsChecked(Some(u), topicId, subtopicId)
    ensures trace == [LoadingSet(true),
                      Sent(Request(Post, "/completed/mark", BearerHeaders(token), MarkBody(topicId, subtopicId, true))),
                      Sent(Request(Get, "/auth/me", BearerHeaders(token), NoBody)),
                      UserSet(Some(refetched)),
                      Stored(UserKey, Json.Serialise(refetched)),
                      LoadingSet(false)]
    ensures user == Some(refetched)
    ensures stored.Some? && Json.Parse(stored.value) == Some(refetched)
  {
    var storage := new LocalStorage(map[TokenKey := token]);
    var session := new Session(storage);
    var _ := session.UpdateUser(Some(u));
    var api := new ApiClient(storage);
    assert storage.GetItem(TokenKey) == Some(token);
    assert WithAuth(DefaultHeaders, Some(token)) == BearerHeaders(token);
    var box := CheckboxFor(session.user, topicId, subtopicId);
    assert box.value.clickSends;
    trace := HandleToggle(session, api, true, topicId, subtopicId, box.value.clickSends, Ok(()), Ok(refetched));
    user := session.user;
    stored := storage.GetItem(UserKey);
    Json.ParseSerialise(refetched);
  }
}
