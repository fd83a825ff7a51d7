/**
 * The research agent run on the relay network: the connection map built
 * from discovered tool servers (every entry using the configured relays),
 * the priced skills of its agent card, and its chat callable's thread-id
 * default.
 */
module ResearchAgent {
  import opened Wrappers
  import opened Discovery
  import Chat

  /**
   * `mcp_connections` in `run`: one entry per discovered key, every entry
   * using the configured `relays`, whatever tags the post carries.
   */
  function McpConnections(posts: seq<Post>, relays: seq<string>, privateKey: string, nwcStr: string)
    : (r: map<string, Connection>)
    ensures r.Keys == Pubkeys(posts)
    ensures forall k :: k in r ==> r[k] == Connection(relays, k, privateKey, nwcStr, NostrTransport)
  {
    var m := Connections(posts, Configured(relays), privateKey, nwcStr);
    ConnectionsEntries(posts, Configured(relays), privateKey, nwcStr);
    m.value
  }

  /** The connection map depends only on the posts' keys, in order: their tags are ignored. */
  lemma McpConnectionsIgnoreTags(posts: seq<Post>, others: seq<Post>, relays: seq<string>, privateKey: string, nwcStr: string)
    requires |posts| == |others|
    requires forall i :: 0 <= i < |posts| ==> posts[i].pubkey == others[i].pubkey
    ensures McpConnections(posts, relays, privateKey, nwcStr) == McpConnections(others, relays, privateKey, nwcStr)
  {
    assert Pubkeys(posts) == Pubkeys(others);
  }

  /** The agent card's `skills`: one per tool, in order, priced from the tool's `satoshis` metadata or 0. */
  function AgentSkills(tools: seq<Tool>): (r: seq<PricedSkill>)
    ensures |r| == |tools|
    ensures forall i :: 0 <= i < |tools| ==>
      && r[i].name == tools[i].name
      && r[i].description == tools[i].description
      && (SatoshisKey in tools[i].metadata ==> r[i].satoshis == tools[i].metadata[SatoshisKey])
      && (SatoshisKey !in tools[i].metadata ==> r[i].satoshis == 0)
  {
    PricedSkills(tools)
  }

  /** `agent_callable`: the reply to the last message, under the supplied thread id or a fresh one. */
  function AgentCallable(input: Chat.ChatInput, freshId: string, agent: (string, string) -> string)
    : (r: Result<string, Chat.ChatError>)
    ensures r.Failure? <==> input.messages == []
    ensures r.Success? && Chat.Truthy(input.threadId) ==>
      r.value == agent(input.messages[|input.messages| - 1], input.threadId.value)
    ensures r.Success? && !Chat.Truthy(input.threadId) ==>
      r.value == agent(input.messages[|input.messages| - 1], freshId)
  {
    Chat.Answer(input, freshId, agent)
  }
}
