/**
 * Turning discovered tool-server posts into the connection map handed to
 * the multi-server MCP client, and tools into advertised skills. The same
 * dict and list comprehensions appear in the research agent server, the
 * agent API server and the research agent; they differ only in where an
 * entry's relay list comes from and in the skill record.
 */
module Discovery {
  import opened Wrappers

  /** A discovery post: its author's public key and its tags, each a list of strings. */
  datatype Post = Post(pubkey: string, tags: seq<seq<string>>)

  /** `NostrConnection(relays, server_public_key, private_key, nwc_str, transport)`. */
  datatype Connection = Connection(
    relays: seq<string>,
    serverPublicKey: string,
    privateKey: string,
    nwcStr: string,
    transport: string)

  /** Where an entry's relays come from: the post's `r` tags, or a configured list. */
  datatype RelaySource = FromTags | Configured(relays: seq<string>)

  /** `tag[0]` on an empty tag or `tag[1]` on a one-element `r` tag raises IndexError. */
  datatype DiscoveryError = IndexError

  const RelayTagKey := "r"
  const NostrTransport := "nostr"

  /** A tool as the MCP client reports it; `metadata` holds its integer-valued entries. */
  datatype Tool = Tool(name: string, description: string, metadata: map<string, int>)

  /** The FastAPI servers' `Skill(name, description)`. */
  datatype Skill = Skill(name: string, description: string)

  /** The agent card's `Skill(name, description, satoshis)`. */
  datatype PricedSkill = PricedSkill(name: string, description: string, satoshis: int)

  const SatoshisKey := "satoshis"

  /** A tag the comprehension `[tag[1] for tag in tags if tag[0] == 'r']` reads without raising. */
  predicate Readable(tag: seq<string>)
  {
    |tag| > 0 && (tag[0] == RelayTagKey ==> |tag| >= 2)
  }

  /** A tag that contributes a relay URL. */
  predicate IsRelayTag(tag: seq<string>)
  {
    |tag| >= 2 && tag[0] == RelayTagKey
  }

  /** `[tag[1] for tag in tags if tag[0] == 'r']`, raising on an unreadable tag. */
  function TagRelays(tags: seq<seq<string>>): (r: Result<seq<string>, DiscoveryError>)
    ensures r.Success? <==> forall i :: 0 <= i < |tags| ==> Readable(tags[i])
    ensures r.Success? ==> |r.value| <= |tags|
  {
    if tags == [] then Success([])
    else if |tags[0]| == 0 then Failure(IndexError)
    else if tags[0][0] != RelayTagKey then TagRelays(tags[1..])
    else if |tags[0]| < 2 then Failure(IndexError)
    else
      match TagRelays(tags[1..])
      case Success(rest) => Success([tags[0][1]] + rest)
      case Failure(e) => Failure(e)
  }

  /** The relay URL of one readable tag, as a list of zero or one element. */
  function RelayOf(tag: seq<string>): seq<string>
  {
    if IsRelayTag(tag) then [tag[1]] else []
  }

  /**
   * Relay extraction is a homomorphism over tag lists: the relays of `a + b`
   * are those of `a` followed by those of `b`, so relays keep tag order.
   */
  lemma {:induction false} TagRelaysConcat(a: seq<seq<string>>, b: seq<seq<string>>)
    ensures TagRelays(a + b) ==
      (if TagRelays(a).Success? && TagRelays(b).Success?
       then Success(TagRelays(a).value + TagRelays(b).value)
       else Failure(IndexError))
  {
    if a == [] {
      assert a + b == b;
      assert TagRelays(a) == Success([]);
      if TagRelays(b).Success? {
        assert [] + TagRelays(b).value == TagRelays(b).value;
        assert TagRelays(a + b) == Success(TagRelays(a).value + TagRelays(b).value);
      } else {
        assert TagRelays(b).error.IndexError?;
      }
    } else {
      assert (a + b)[1..] == a[1..] + b;
      assert (a + b)[0] == a[0];
      TagRelaysConcat(a[1..], b);
      if TagRelays(a).Success? && TagRelays(b).Success? && IsRelayTag(a[0]) {
        var x, y := TagRelays(a[1..]).value, TagRelays(b).value;
        calc {
          TagRelays(a + b).value;
          [a[0][1]] + TagRelays(a[1..] + b).value;
          [a[0][1]] + (x + y);
          { assert [a[0][1]] + (x + y) == ([a[0][1]] + x) + y; }
          TagRelays(a).value + y;
        }
      }
    }
  }

  /** One readable tag yields its URL if it is an `r` tag and nothing otherwise. */
  lemma TagRelaysSingle(tag: seq<string>)
    requires Readable(tag)
    ensures TagRelays([tag]) == Success(RelayOf(tag))
  {
    assert [tag][1..] == [];
    assert TagRelays([tag][1..]) == Success([]);
    if IsRelayTag(tag) {
      assert [tag[1]] + [] == [tag[1]];
    }
  }

  /** Appending a readable tag appends its relay, if any; other tags contribute nothing. */
  lemma TagRelaysSnoc(tags: seq<seq<string>>, tag: seq<string>)
    requires TagRelays(tags).Success? && Readable(tag)
    ensures TagRelays(tags + [tag]) == Success(TagRelays(tags).value + RelayOf(tag))
  {
    TagRelaysConcat(tags, [tag]);
    TagRelaysSingle(tag);
  }

  /** An `r` tag without its URL makes the extraction fail, wherever it stands. */
  lemma TagRelaysShortRelayTagFails(before: seq<seq<string>>, after: seq<seq<string>>)
    ensures TagRelays(before + [[RelayTagKey]] + after).Failure?
  {
    var tags := before + [[RelayTagKey]] + after;
    assert tags[|before|] == [RelayTagKey];
    assert !Readable(tags[|before|]);
  }

  /** The relay list for one post under the given source. */
  function PostRelays(post: Post, source: RelaySource): Result<seq<string>, DiscoveryError>
  {
    match source
    case FromTags => TagRelays(post.tags)
    case Configured(relays) => Success(relays)
  }

  /** The connection the comprehension builds for one post. */
  function ConnectionFor(post: Post, source: RelaySource, privateKey: string, nwcStr: string)
    : (r: Result<Connection, DiscoveryError>)
    ensures r.Success? <==> PostRelays(post, source).Success?
  {
    match PostRelays(post, source)
    case Success(relays) => Success(Connection(relays, post.pubkey, privateKey, nwcStr, NostrTransport))
    case Failure(e) => Failure(e)
  }

  /** The public keys of the posts. */
  function Pubkeys(posts: seq<Post>): set<string>
  {
    set i | 0 <= i < |posts| :: posts[i].pubkey
  }

  /** Post `i` is the last one in `posts` with its public key. */
  predicate LastWithKey(posts: seq<Post>, i: int)
    requires 0 <= i < |posts|
  {
    forall j :: i < j < |posts| ==> posts[j].pubkey != posts[i].pubkey
  }

  /** Every post's relay list can be computed. */
  predicate AllReadable(posts: seq<Post>, source: RelaySource)
  {
    forall i :: 0 <= i < |posts| ==> PostRelays(posts[i], source).Success?
  }

  /**
   * The dict comprehension `{post.pubkey: NostrConnection(...) for post in posts}`,
   * evaluated in list order: a later post with the same key overwrites an earlier one.
   */
  function Connections(posts: seq<Post>, source: RelaySource, privateKey: string, nwcStr: string)
    : (r: Result<map<string, Connection>, DiscoveryError>)
    ensures r.Success? <==> AllReadable(posts, source)
    ensures r.Success? ==> r.value.Keys == Pubkeys(posts)
    ensures r.Success? ==> forall k :: k in r.value ==>
      && r.value[k].serverPublicKey == k
      && r.value[k].privateKey == privateKey
      && r.value[k].nwcStr == nwcStr
      && r.value[k].transport == NostrTransport
  {
    if posts == [] then Success(map[])
    else
      var init, last := posts[..|posts| - 1], posts[|posts| - 1];
      assert forall i :: 0 <= i < |init| ==> init[i] == posts[i];
      assert Pubkeys(posts) == Pubkeys(init) + {last.pubkey} by {
        assert forall i :: 0 <= i < |init| ==> posts[i].pubkey in Pubkeys(init);
      }
      match Connections(init, source, privateKey, nwcStr)
      case Failure(e) => Failure(e)
      case Success(m) =>
        match ConnectionFor(last, source, privateKey, nwcStr)
        case Failure(e) => Failure(e)
        case Success(c) => Success(m[last.pubkey := c])
  }

  /**
   * The last post with a given key decides that key's entry: earlier posts
   * with the same key are overwritten.
   */
  lemma {:induction false} ConnectionsLastPostWins(
    posts: seq<Post>, source: RelaySource, privateKey: string, nwcStr: string, i: int)
    requires 0 <= i < |posts| && LastWithKey(posts, i)
    requires Connections(posts, source, privateKey, nwcStr).Success?
    ensures Connections(posts, source, privateKey, nwcStr).value[posts[i].pubkey]
            == ConnectionFor(posts[i], source, privateKey, nwcStr).value
  {
    var init := posts[..|posts| - 1];
    if i < |posts| - 1 {
      assert init[i] == posts[i];
      assert LastWithKey(init, i);
      ConnectionsLastPostWins(init, source, privateKey, nwcStr, i);
    }
  }

  /**
   * The whole map, entry by entry: every key is a discovered public key and
   * its connection is the one built from the last post with that key.
   */
  lemma ConnectionsEntries(posts: seq<Post>, source: RelaySource, privateKey: string, nwcStr: string)
    requires AllReadable(posts, source)
    ensures forall k :: k in Connections(posts, source, privateKey, nwcStr).value ==>
      exists i :: 0 <= i < |posts| && posts[i].pubkey == k && LastWithKey(posts, i) &&
                  Connections(posts, source, privateKey, nwcStr).value[k]
                  == Connection(PostRelays(posts[i], source).value, k, privateKey, nwcStr, NostrTransport)
  {
    var m := Connections(posts, source, privateKey, nwcStr).value;
    forall k | k in m
      ensures exists i :: 0 <= i < |posts| && posts[i].pubkey == k && LastWithKey(posts, i) &&
                          m[k] == Connection(PostRelays(posts[i], source).value, k, privateKey, nwcStr, NostrTransport)
    {
      var i := LastIndexOf(posts, k);
      ConnectionsLastPostWins(posts, source, privateKey, nwcStr, i);
    }
  }

  /** The index of the last post with key `k`. */
  function LastIndexOf(posts: seq<Post>, k: string): (i: int)
    requires k in Pubkeys(posts)
    ensures 0 <= i < |posts| && posts[i].pubkey == k && LastWithKey(posts, i)
  {
    var n := |posts| - 1;
    if posts[n].pubkey == k then n
    else
      assert k in Pubkeys(posts[..n]) by {
        var j :| 0 <= j < |posts| && posts[j].pubkey == k;
        assert posts[..n][j] == posts[j];
      }
      var i := LastIndexOf(posts[..n], k);
      assert posts[i] == posts[..n][i];
      i
  }

  /** `[Skill(name=tool.name, description=tool.description) for tool in tools]`. */
  function Skills(tools: seq<Tool>): (r: seq<Skill>)
    ensures |r| == |tools|
    ensures forall i :: 0 <= i < |tools| ==>
      r[i].name == tools[i].name && r[i].description == tools[i].description
  {
    if tools == [] then [] else [Skill(tools[0].name, tools[0].description)] + Skills(tools[1..])
  }

  /** `tool.metadata.get("satoshis", 0)`. */
  function SatoshisOf(tool: Tool): (s: int)
    ensures SatoshisKey in tool.metadata ==> s == tool.metadata[SatoshisKey]
    ensures SatoshisKey !in tool.metadata ==> s == 0
  {
    if SatoshisKey in tool.metadata then tool.metadata[SatoshisKey] else 0
  }

  /** `[Skill(name=..., description=..., satoshis=tool.metadata.get("satoshis", 0)) for tool in tools]`. */
  function PricedSkills(tools: seq<Tool>): (r: seq<PricedSkill>)
    ensures |r| == |tools|
    ensures forall i :: 0 <= i < |tools| ==>
      && r[i].name == tools[i].name
      && r[i].description == tools[i].description
      && r[i].satoshis == SatoshisOf(tools[i])
  {
    if tools == [] then []
    else [PricedSkill(tools[0].name, tools[0].description, SatoshisOf(tools[0]))] + PricedSkills(tools[1..])
  }

  /** Skills keep tool order: the skills of `a + b` are those of `a` followed by those of `b`. */
  lemma {:induction false} SkillsConcat(a: seq<Tool>, b: seq<Tool>)
    ensures Skills(a + b) == Skills(a) + Skills(b)
    ensures PricedSkills(a + b) == PricedSkills(a) + PricedSkills(b)
  {
    if a != [] {
      assert (a + b)[1..] == a[1..] + b;
      SkillsConcat(a[1..], b);
    } else {
      assert a + b == b;
    }
  }
}
