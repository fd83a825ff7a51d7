/**
 * The request shape shared by the chat entry points (`ChatInput`) and the
 * thread-id default `input.thread_id or str(uuid.uuid4())`.
 */
module Chat {
  import opened Wrappers

  /** A chat request: the conversation so far and an optional thread id. */
  datatype ChatInput = ChatInput(messages: seq<string>, threadId: Option<string>)

  /** `messages[-1]` on an empty list raises IndexError. */
  datatype ChatError = IndexError

  /** Python truthiness of an optional string: `None` and `""` are falsy. */
  predicate Truthy(threadId: Option<string>)
  {
    threadId.Some? && threadId.value != ""
  }

  /**
   * `thread_id or fresh`: a truthy thread id is kept, anything else is
   * replaced by the freshly drawn id `freshId` (a uuid4 string).
   */
  function ResolveThreadId(threadId: Option<string>, freshId: string): (r: string)
    ensures Truthy(threadId) ==> r == threadId.value
    ensures !Truthy(threadId) ==> r == freshId
    ensures r == freshId || Some(r) == threadId
  {
    match threadId
    case Some(t) => if t != "" then t else freshId
    case None => freshId
  }

  /**
   * Once resolved, a thread id is stable: sending the resolved id back
   * resolves to the same id whatever fresh id the second call draws,
   * so one conversation keeps one thread id.
   */
  lemma ResolvedThreadIdIsStable(threadId: Option<string>, freshId: string, laterFreshId: string)
    requires freshId != ""
    ensures ResolveThreadId(Some(ResolveThreadId(threadId, freshId)), laterFreshId)
            == ResolveThreadId(threadId, freshId)
  {
    var t := ResolveThreadId(threadId, freshId);
    assert t != "";
    assert Truthy(Some(t));
  }

  /** The last message, `messages[-1]`, or IndexError on an empty list. */
  function LastMessage(messages: seq<string>): (r: Result<string, ChatError>)
    ensures r.Failure? <==> messages == []
    ensures r.Success? ==> r.value == messages[|messages| - 1]
  {
    if messages == [] then Failure(IndexError) else Success(messages[|messages| - 1])
  }

  /**
   * A chat handler's reply: the agent answers the last message under the
   * resolved thread id. The agent is an opaque function of the message and
   * the thread id.
   */
  function Answer(input: ChatInput, freshId: string, agent: (string, string) -> string)
    : (r: Result<string, ChatError>)
    ensures r.Failure? <==> input.messages == []
    ensures r.Success? ==>
      r.value == agent(input.messages[|input.messages| - 1], ResolveThreadId(input.threadId, freshId))
  {
    var threadId := ResolveThreadId(input.threadId, freshId);
    match LastMessage(input.messages)
    case Success(message) => Success(agent(message, threadId))
    case Failure(e) => Failure(e)
  }
}
