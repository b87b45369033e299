/** The server's per-user agent cache and reply envelope
    (server/src/ai_personal_lawyer/invoke_agent.py:9-29). */
module AgentSessions {
  import opened Wrappers

  /** The `user_uuid` the websocket loop passes on: the payload's `"uuid"`, or `None` when
      the payload has none. */
  type UserUuid = Option<string>

  /** The `serial`-th agent `AgentFactory().create_agent()` produced in this process. */
  datatype Agent = Agent(serial: nat)

  /** `{"configurable": {"thread_id": ...}}` */
  datatype RunConfig = RunConfig(threadId: string)

  /** What `agent.invoke` is called with (:26). */
  datatype Invocation = Invocation(agent: Agent, message: string, language: string, config: RunConfig)

  /** The JSON values the reply is made of. */
  datatype Json = JString(s: string) | JObject(members: seq<(string, Json)>)

  const Language: string := "English"

  /** `str(user_uuid)`: Python prints `None` as the text `None`, so a missing uuid and the
      uuid `"None"` share a thread. */
  function ThreadId(uuid: UserUuid): (r: string)
    ensures uuid.Some? ==> r == uuid.value
    ensures r == "None" <==> uuid == None || uuid == Some("None")
  {
    match uuid
    case None => "None"
    case Some(s) => s
  }

  /** `{"on_chat_model_stream": answer}`, the object `json.dumps` serialises (:28). */
  function Reply(answer: string): (r: Json)
    ensures r.JObject? && |r.members| == 1
    ensures r.members[0].0 == "on_chat_model_stream" && r.members[0].1 == JString(answer)
  {
    JObject([("on_chat_model_stream", JString(answer))])
  }

  /** The get-or-create of :18-22 over the cache and the number of agents created so far:
      the agent to use, the new cache and the new count. */
  function GetOrCreate(sessions: map<UserUuid, Agent>, created: nat, uuid: UserUuid)
    : (r: (Agent, map<UserUuid, Agent>, nat))
    ensures uuid in r.1 && r.1[uuid] == r.0
    ensures uuid in sessions ==> r == (sessions[uuid], sessions, created)
    ensures uuid !in sessions ==> r.0 == Agent(created) && r.2 == created + 1
    ensures r.1.Keys == sessions.Keys + {uuid}
    ensures forall k :: k in sessions && k != uuid ==> r.1[k] == sessions[k]
  {
    if uuid in sessions then (sessions[uuid], sessions, created)
    else (Agent(created), sessions[uuid := Agent(created)], created + 1)
  }

  /** The cache invariant: every cached agent was created before, and no two users share
      an agent. */
  ghost predicate CacheValid(sessions: map<UserUuid, Agent>, created: nat)
  {
    && (forall k :: k in sessions ==> sessions[k].serial < created)
    && (forall k, l :: k in sessions && l in sessions && k != l ==> sessions[k] != sessions[l])
  }

  /** Get-or-create keeps the invariant. */
  lemma GetOrCreateKeepsCache(sessions: map<UserUuid, Agent>, created: nat, uuid: UserUuid)
    requires CacheValid(sessions, created)
    ensures var r := GetOrCreate(sessions, created, uuid); CacheValid(r.1, r.2)
  {
  }

  /** Get-or-create is idempotent: a second call for the same uuid returns the same agent
      and creates none. */
  lemma GetOrCreateIdempotent(sessions: map<UserUuid, Agent>, created: nat, uuid: UserUuid)
    ensures var r := GetOrCreate(sessions, created, uuid);
      GetOrCreate(r.1, r.2, uuid) == r
  {
  }

  /** The module-level `active_sessions` dictionary and the factory's count. */
  class AgentRegistry {
    var activeSessions: map<UserUuid, Agent>
    var agentsCreated: nat

    ghost predicate Valid()
      reads this
    {
      CacheValid(activeSessions, agentsCreated)
    }

    constructor ()
      ensures Valid() && activeSessions == map[] && agentsCreated == 0
    {
      activeSessions := map[];
      agentsCreated := 0;
    }

    /** `invoke_agent` (:15-29): reuse the uuid's agent or create and store exactly one,
        then invoke it in English on the uuid's thread and wrap its `answer` (the agent's
        result, an input here) in the reply envelope. */
    method InvokeAgent(data: string, userUuid: UserUuid, answer: string)
      returns (call: Invocation, reply: Json)
      requires Valid()
      modifies this
      ensures Valid()
      ensures (call.agent, activeSessions, agentsCreated)
        == GetOrCreate(old(activeSessions), old(agentsCreated), userUuid)
      ensures call.message == data && call.language == "English"
      ensures call.config == RunConfig(ThreadId(userUuid))
      ensures reply == Reply(answer)
    {
      var agent: Agent;
      if userUuid in activeSessions {
        agent := activeSessions[userUuid];
      } else {
        agent := Agent(agentsCreated);
        agentsCreated := agentsCreated + 1;
        activeSessions := activeSessions[userUuid := agent];
      }
      var language := Language;
      var config := RunConfig(ThreadId(userUuid));
      call := Invocation(agent, data, language, config);
      reply := Reply(answer);
    }
  }

  /** Two messages from the same user on a fresh server: one agent is created, both
      invocations use it on the same thread, and the second creates nothing. */
  method SameUserTwice(uuid: UserUuid, first: string, second: string, answer1: string, answer2: string)
    returns (call1: Invocation, call2: Invocation, created: nat, cached: set<UserUuid>)
    ensures call1.agent == call2.agent == Agent(0)
    ensures call1.config == call2.config == RunConfig(ThreadId(uuid))
    ensures created == 1 && cached == {uuid}
  {
    var registry := new AgentRegistry();
    var reply;
    call1, reply := registry.InvokeAgent(first, uuid, answer1);
    call2, reply := registry.InvokeAgent(second, uuid, answer2);
    created, cached := registry.agentsCreated, registry.activeSessions.Keys;
  }
}
