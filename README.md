# Agent demo tools: a Dafny model

This project models the self-contained logic of an agent demo repository
whose agents, tool servers and FastAPI front-ends talk over a relay
network. It covers three parts:

- **The travel agent's airline tools** (`agents/travel/agent.py`). A fixed
  flight table is searched by date and route. The best flight is the first
  one with the least (duration, price). An itinerary table is changed in
  place by booking, which draws random confirmation numbers until one is
  unused, and by cancelling. The chat callable keeps a per-thread message
  history. The table and the history are classes (`Travel.Airline`,
  `Travel.MessageHistory`) whose methods are proved against value-level
  specifications (`MatchingFlights`, `Booked`, `Cancelled`, `Recorded`).
  The lemmas about those specifications carry the properties.
- **The math tool server** (`mcp_servers/basic_math.py`). Add, subtract and
  multiply are unbounded integer operations, as in Python. `divide` is
  Python's floor division `//`. It is characterised by `IsFloorQuotient`
  and shown to differ from Dafny's Euclidean `/` for negative divisors.
- **Discovery posts to connection maps** (`agent_servers/research/agent.py`,
  `agent_servers/agent_api.py`, `agents/research/agent.py`). A list of
  discovered posts becomes a map keyed by public key, with the last post
  winning. Relays come from the post's `r` tags or from the configured list.
  Tools become skill records in order. A thread id defaults to a fresh one
  when it is missing or empty. `Discovery` defines this once; `ResearchServer`,
  `AgentApi` and `ResearchAgent` instantiate it per file.

Randomness is supplied as parameters: the `random.choices` draws of
`_generate_id` and the `uuid4` string for a missing thread id. The LLM
agent is an opaque function parameter returning a string.

Discovery keeps the last post per key in list order; no timestamps are
compared. A thread id of `""` is replaced like a missing one, because the
code uses Python's `or`.

## Model

| member | source | states |
|---|---|---|
| `Travel.Airline.constructor` | agents/travel/agent.py:33-68 | the store starts with the four-flight table in insertion order and an empty itinerary table |
| `Travel.MatchingFlightsMembers` | agents/travel/agent.py:76-84 | a flight is returned exactly when it is in the table and year, month, day, origin and destination equal the query |
| `Travel.MatchingFlightsConcat` | agents/travel/agent.py:76-84 | the search keeps table order: matches of `a + b` are matches of `a` then matches of `b` |
| `Travel.MatchingFlightsIgnoresHour` | agents/travel/agent.py:77-83 | the hour of the queried date never changes the answer |
| `Travel.Airline.FetchFlightInfo` | agents/travel/agent.py:72-87 | the loop returns the matching flights in table order; with no match it returns the "no matching flight" error instead of an empty list; it has no modifies clause, so no state changes |
| `Travel.BestIndex` | agents/travel/agent.py:95-104 | the chosen position has no flight with a smaller (duration, price) key, and every earlier flight has a strictly larger key |
| `Travel.FirstLeastIsUnique` | agents/travel/agent.py:97-104 | only one position is the first least flight, so the choice is determined |
| `Travel.PickFlight` | agents/travel/agent.py:95-104 | on an empty list it fails (the `[0]` index); otherwise it returns a member of the input whose (duration, price) is lexicographically least |
| `Travel.PickFlightStable` | agents/travel/agent.py:97-104 | among equal keys the earliest flight in input order is picked, as a stable sort puts it first |
| `Travel.FlightDatabaseSearch` | agents/travel/agent.py:33-84 | a search of the fixed table keeps DA123, DA125, DA456, DA460 in that order, each exactly when it matches |
| `Travel.SampleSearchToJfk` | agents/travel/agent.py:33-104 | on 1 September 2025, SFO to JFK finds DA123 and DA125 at any hour, and DA123 is picked |
| `Travel.SampleSearchToSna` | agents/travel/agent.py:33-104 | on 1 September 2025, SFO to SNA finds DA456 and DA460 at any hour, and DA456 (cheaper at equal duration) is picked |
| `Travel.SampleSearchNoFlight` | agents/travel/agent.py:33-87 | no route has a flight on 2 September 2025 |
| `Travel.AlphabetChar` | agents/travel/agent.py:108 | every position of `ascii_lowercase + digits` holds a character in `a-z0-9` |
| `Travel.AlphabetIndex` | agents/travel/agent.py:108 | every character in `a-z0-9` sits at a position of the alphabet, and `AlphabetChar` gives it back |
| `Travel.GenerateId` | agents/travel/agent.py:107-109 | the id has one character per draw, eight for `_generate_id()`, all in `a-z0-9` |
| `Travel.PicksOf` | agents/travel/agent.py:107-109 | every string over the alphabet has a draw sequence of the same length |
| `Travel.GenerateIdOnto` | agents/travel/agent.py:107-109 | every string over `a-z0-9` is generated by some draws, so any valid id can come out |
| `Travel.GenerateIdInjective` | agents/travel/agent.py:107-109 | the draws can be read back from the id, so different draws give different ids |
| `Travel.Booked` | agents/travel/agent.py:117-120 | the new key maps to `Itinerary(number, flight)`; other keys and entries are unchanged; a fresh key grows the table by exactly one |
| `Travel.Cancelled` | agents/travel/agent.py:126-127 | exactly the given key is removed; other entries are unchanged; a present key shrinks the table by exactly one |
| `Travel.BookedWellFormed` | agents/travel/agent.py:114-121 | booking a valid id keeps every entry keyed by its own valid confirmation number |
| `Travel.CancelledWellFormed` | agents/travel/agent.py:124-129 | cancelling keeps every entry keyed by its own valid confirmation number |
| `Travel.CancelUndoesBook` | agents/travel/agent.py:114-129 | cancelling a booking just made restores the table exactly |
| `Travel.BookUndoesCancel` | agents/travel/agent.py:114-129 | rebooking a cancelled itinerary's flight under its number restores the table exactly |
| `Travel.Airline.FetchItinerary` | agents/travel/agent.py:90-92 | returns the stored entry exactly when the key is present, `None` otherwise; the entry carries the asked-for number; reads only |
| `Travel.Airline.BookFlight` | agents/travel/agent.py:112-121 | the returned number is the first unused draw, a valid id absent beforehand; the table becomes `Booked(old, number, flight)`; the returned itinerary is the new entry |
| `Travel.Airline.CancelItinerary` | agents/travel/agent.py:124-129 | succeeds exactly when the key was present and then removes only that key; otherwise fails with the not-found error and leaves the table unchanged |
| `Travel.Recorded` | agents/travel/agent.py:179-186 | a new thread gets a list of exactly one entry; a known thread's list grows by one at the end; other threads are untouched |
| `Travel.RecordedExtends` | agents/travel/agent.py:186 | a thread's old history is a prefix of its new one, one longer only for the updated thread |
| `Travel.MessageHistory.constructor` | agents/travel/agent.py:174 | the history starts empty |
| `Travel.MessageHistory.AgentCallable` | agents/travel/agent.py:176-188 | an empty message list fails before any change; otherwise the agent sees the thread's history only when the thread is known, and the history becomes `Recorded(old, thread, turn)` |
| `Chat.ResolveThreadId` | agents/travel/agent.py:177 | a non-empty thread id is used unchanged; `None` or `""` yields the fresh id |
| `Chat.ResolvedThreadIdIsStable` | agents/research/agent.py:70 | a resolved thread id resolves to itself on the next request, so a conversation keeps its id |
| `Chat.LastMessage` | agents/travel/agent.py:178 | `messages[-1]` fails exactly on an empty list and is the last message otherwise |
| `Chat.Answer` | agent_servers/research/agent.py:120-123 | an empty message list fails; otherwise the reply is the agent's answer to the last message under the resolved thread id |
| `BasicMath.FloorDiv` | mcp_servers/basic_math.py:28-30 | for a non-zero divisor the result is the floor quotient |
| `BasicMath.Divide` | mcp_servers/basic_math.py:28-30 | fails exactly when the divisor is 0 (ZeroDivisionError); otherwise for b > 0, `q*b <= a < q*b + b`, and for b < 0, `q*b >= a > q*b + b` |
| `BasicMath.FloorQuotientUnique` | mcp_servers/basic_math.py:30 | at most one integer is the floor quotient |
| `BasicMath.DivideIsFloorDivision` | mcp_servers/basic_math.py:30 | any floor quotient is what `divide` returns, the converse of `Divide`'s contract |
| `BasicMath.DivideByPositive` | mcp_servers/basic_math.py:30 | for a positive divisor `divide` coincides with Dafny's `/` |
| `BasicMath.DivideByNegative` | mcp_servers/basic_math.py:30 | for a negative divisor `divide` is one below Dafny's Euclidean quotient unless the division is exact |
| `BasicMath.DocumentedCalls` | mcp_servers/basic_math.py:42-45 | add(1, 2) = 3 and multiply(2, 5) = 10, and `7 // -2` is -4 where Dafny's `7 / -2` is -3 |
| `BasicMath.SubtractUndoesAdd` | mcp_servers/basic_math.py:16-26 | subtract undoes add and add undoes subtract, with no overflow |
| `BasicMath.DivideUndoesMultiply` | mcp_servers/basic_math.py:20-30 | `divide(multiply(a, b), b) == a` for every non-zero `b` of either sign |
| `Discovery.TagRelays` | agent_servers/research/agent.py:41 | the extraction succeeds exactly when no tag is empty and every `r` tag has a second element; it yields at most one relay per tag |
| `Discovery.TagRelaysConcat` | agent_servers/research/agent.py:41 | relays of `a + b` are relays of `a` then relays of `b`, so relays keep tag order |
| `Discovery.TagRelaysSingle` | agent_servers/research/agent.py:41 | one readable tag yields its second element if its first is `r`, and nothing otherwise |
| `Discovery.TagRelaysSnoc` | agent_servers/research/agent.py:41 | appending a non-`r` tag adds nothing; appending an `r` tag appends its URL |
| `Discovery.TagRelaysShortRelayTagFails` | agent_servers/research/agent.py:41 | an `r` tag with no second element makes the extraction fail wherever it stands |
| `Discovery.ConnectionFor` | agent_servers/research/agent.py:40-46 | a post's connection exists exactly when its relay list can be computed |
| `Discovery.Connections` | agent_servers/research/agent.py:39-47 | succeeds exactly when every post's relays can be computed; the key set is exactly the posts' public keys; each entry's server key is its map key; private key, wallet string and transport `nostr` are the same for all entries |
| `Discovery.ConnectionsLastPostWins` | agent_servers/research/agent.py:39-47 | the entry of a key is the connection built from the last post with that key |
| `Discovery.ConnectionsEntries` | agent_servers/research/agent.py:39-47 | every entry is built from the last post carrying its key |
| `Discovery.LastIndexOf` | agent_servers/research/agent.py:39-47 | every discovered key has a last post carrying it |
| `Discovery.Skills` | agent_servers/research/agent.py:85-88 | one skill per tool, in tool order, with name and description copied |
| `Discovery.SatoshisOf` | agents/research/agent.py:52 | the tool's `satoshis` metadata when present, else 0 |
| `Discovery.PricedSkills` | agents/research/agent.py:49-53 | one priced skill per tool, in tool order, with name, description and the `satoshis` default |
| `Discovery.SkillsConcat` | agent_servers/research/agent.py:85-88 | skills of `a + b` are skills of `a` then skills of `b` |
| `ResearchServer.McpConnections` | agent_servers/research/agent.py:39-47 | fails exactly when some post's tags cannot be read; keys are exactly the discovered keys; each entry uses the `r`-tag relays of the last post with its key |
| `ResearchServer.LifespanSkills` | agent_servers/research/agent.py:85-88 | one skill per tool, in order, with name and description copied |
| `ResearchServer.HandleChat` | agent_servers/research/agent.py:118-123 | an empty message list fails; otherwise the agent answers the last message under the supplied non-empty thread id, or under the fresh id |
| `AgentApi.McpConnections` | agent_servers/agent_api.py:28-36 | fails exactly when some post's tags cannot be read; keys are exactly the discovered keys; each entry uses the `r`-tag relays of the last post with its key |
| `AgentApi.LifespanSkills` | agent_servers/agent_api.py:74-77 | one skill per tool, in order, with name and description copied |
| `AgentApi.HandleChat` | agent_servers/agent_api.py:102-107 | an empty message list fails; otherwise the agent answers the last message under the supplied non-empty thread id, or under the fresh id |
| `ResearchAgent.McpConnections` | agents/research/agent.py:35-43 | keys are exactly the discovered keys; every entry is `Connection(relays, key, private key, wallet string, "nostr")` with the configured relays |
| `ResearchAgent.McpConnectionsIgnoreTags` | agents/research/agent.py:37 | the map depends only on the posts' keys: tags are ignored |
| `ResearchAgent.AgentSkills` | agents/research/agent.py:49-53 | one skill per tool, in order; `satoshis` is the tool's metadata value when present, else 0 |
| `ResearchAgent.AgentCallable` | agents/research/agent.py:69-73 | an empty message list fails; otherwise the agent answers the last message under the supplied non-empty thread id, or under the fresh id |

## Left out

- The relay protocol, encryption, invoices and payments, request correlation, and tool registration (`NostrClient`, `NostrMCPServer`, `NostrAgentServer`, `add_tool`, `read_posts_by_tag`): their code is not part of this model. Discovered posts and tools are inputs.
- HTTP, blockchain, web-search and retrieval tools, the clock tool, and the launch-only scripts: they are thin wrappers around foreign calls or I/O.
- LLM and agent frameworks (`dspy.ReAct`, `create_react_agent`, the router): an agent is an opaque function returning a string and never raises. Its own memory (the `MemorySaver` checkpointer of the FastAPI agents) and the side effects of the tools it calls (the travel agent booking or cancelling itineraries during a chat turn) are not modelled, so the model gives the same reply to the same message and thread, and a chat turn leaves the itinerary table alone.
- FastAPI endpoints, lifespans, `asyncio`, `server.start()`, `print`, environment variables: configuration (relays, private key, wallet string) is passed as parameters.
- Randomness: the `random.choices` draws and the `uuid4` string are parameters; their distribution is not modelled.
- Travel.Airline.BookFlight: requires that some supplied draw is unused. The source loops forever when every draw hits a booked id, so the model covers terminating runs only.
- Travel.Flight: `duration` and `price` are declared `float` in the source but every stored value is integral, so they are `int`.
- Travel.PickFlight: the source reads keys from either a dict or a `Flight` object; the model has one record type.
- Travel.MessageHistory.AgentCallable: a history entry keeps the request and `process_result` only, not the other fields of the agent's prediction. An agent that raises after a new thread's empty list is created is not modelled.
- `ticket_database` is never used by the source.
- `book_flight`'s `user_profile` parameter is dropped. Its annotation names an undefined `UserProfile`, which raises NameError when the module loads.
- The travel chat callable uses `uuid` without importing it, and the two FastAPI servers import it only under `__main__`. A missing thread id would raise NameError there. The model assumes the import.
- `NostrAgentServer` is used without an import in the research server's lifespan, which is glue outside this model.
- Discovery.Connections: only success or failure is modelled. Which tag raised, and a post without a `pubkey` (KeyError), are not.
- Discovery.SatoshisOf: metadata values are integers. Other value types, and a tool whose `metadata` is `None`, are not modelled.
