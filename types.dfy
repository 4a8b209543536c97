/** The data shapes the tracker exchanges with its backend (src/types.ts),
    plus the small value types the session and the API client share. */
module Types {

  /** A value that may be absent (`null`/`undefined`, or a failed read).
      Usable with `:-`: a `None` short-circuits. */
  datatype Option<T> = None | Some(value: T) {
    predicate IsFailure() { None? }

    function PropagateFailure<U>(): Option<U>
      requires None?
    {
      None
    }

    function Extract(): T
      requires Some?
    {
      value
    }
  }

  /** One entry of `completedTopics`: the subtopics of one topic a user has completed. */
  datatype Completion = Completion(topicId: string, subtopicIds: seq<int>)

  /** `UserDataType`. */
  datatype User = User(name: string, email: string, completedTopics: seq<Completion>)

  datatype Difficulty = Easy | Medium | Hard

  /** `SubtopicType`; the three links are optional. */
  datatype Subtopic = Subtopic(
    id: int,
    title: string,
    youtubeLink: Option<string>,
    leetcodeLink: Option<string>,
    articleLink: Option<string>,
    difficulty: Difficulty)

  /** `TopicType`; `id` is the backend's `_id`. */
  datatype Topic = Topic(id: string, title: string, subtopics: seq<Subtopic>)

  /** The two tabs of the login/signup modal. */
  datatype Tab = Login | Signup

  /** JavaScript truthiness of a value that is either a string or absent
      (`null`/`undefined`): only a non-empty string is truthy. */
  predicate Truthy(s: Option<string>)
  {
    s.Some? && s.value != ""
  }
}
