/**
 * The research agent's FastAPI server: the connection map built from
 * discovered tool servers (relays taken from each post's `r` tags), the
 * skills advertised for the client's tools, and the `/chat` handler's
 * thread-id default.
 */
module ResearchServer {
  import opened Wrappers
  import opened Discovery
  import Chat

  /** `mcp_connections` in `mcp_client`: one entry per discovered key, relays from `r` tags. */
  function McpConnections(posts: seq<Post>, privateKey: string, nwcStr: string)
    : (r: Result<map<string, Connection>, DiscoveryError>)
    ensures r.Success? <==> forall i :: 0 <= i < |posts| ==> TagRelays(posts[i].tags).Success?
    ensures r.Success? ==> r.value.Keys == Pubkeys(posts)
    ensures r.Success? ==> forall k :: k in r.value ==>
      exists i :: 0 <= i < |posts| && posts[i].pubkey == k && LastWithKey(posts, i) &&
                  r.value[k] == Connection(TagRelays(posts[i].tags).value, k, privateKey, nwcStr, NostrTransport)
  {
    var r := Connections(posts, FromTags, privateKey, nwcStr);
    if r.Success? then
      ConnectionsEntries(posts, FromTags, privateKey, nwcStr);
      r
    else
      r
  }

  /** The `skills` list built in `lifespan`: one skill per tool, in tool order. */
  function LifespanSkills(tools: seq<Tool>): (r: seq<Skill>)
    ensures |r| == |tools|
    ensures forall i :: 0 <= i < |tools| ==> r[i] == Skill(tools[i].name, tools[i].description)
  {
    Skills(tools)
  }

  /** `chat`: the reply to the last message, under the supplied thread id or a fresh one. */
  function HandleChat(input: Chat.ChatInput, freshId: string, agent: (string, string) -> string)
    : (r: Result<string, Chat.ChatError>)
    ensures r.Failure? <==> input.messages == []
    ensures r.Success? && Chat.Truthy(input.threadId) ==>
      r.value == agent(input.messages[|input.messages| - 1], input.threadId.value)
    ensures r.Success? && !Chat.Truthy(input.threadId) ==>
      r.value == agent(input.messages[|input.messages| - 1], freshId)
  {
    Chat.Answer(input, freshId, agent)
  }
}
