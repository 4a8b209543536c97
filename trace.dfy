/** What the client does that can be observed from outside, one step at a
    time. Every operation that has effects returns the list of its effects in
    the order the source performs them; the state it leaves is in the objects. */
module Trace {
  import opened Types

  datatype Verb = Get | Post

  /** The JSON body of a request. */
  datatype Payload =
    | NoBody
    | SignupBody(name: string, email: string, password: string)
    | LoginBody(email: string, password: string)
    | MarkBody(topicId: string, subtopicId: int, isComplete: bool)

  /** A request as it leaves the client, with the header map in force when it is sent. */
  datatype Request = Request(verb: Verb, path: string, headers: map<string, string>, body: Payload)

  datatype Effect =
    | Sent(request: Request)                // an HTTP request goes out
    | Stored(key: string, value: string)    // localStorage.setItem
    | Removed(key: string)                  // localStorage.removeItem
    | UserSet(user: Option<User>)           // the session's setUser
    | ModalSet(open: bool)                  // setLoginModalOpen
    | LoadingSet(loading: bool)             // setIsLoading
    | ErrorShown(message: string)           // the login/signup modal's setError
    | ConsoleError                          // console.error in a catch block

  /** True when no request goes out in `trace`. */
  predicate NoRequest(trace: seq<Effect>)
  {
    forall i :: 0 <= i < |trace| ==> !trace[i].Sent?
  }
}
