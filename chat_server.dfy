/**
 * The chat server's endpoints (web_server.py) over its global state: the
 * conversation store, the config-update status record, the restart-required
 * flag and whether an agent exists. The agent, the MCP servers and the config
 * file are inputs: a query gets the agent's reply (or its exception), a
 * streaming query the agent's run as a sequence of nodes, a restart its
 * outcome, a config update whether the file could be saved.
 */
module ChatServer {
  import opened Wrappers
  import opened Conversations
  import opened ConfigUpdate
  import ReplyStream

  /** An `HTTPException` raised by an endpoint. */
  datatype HttpError = HttpError(status: int, detail: string)

  const UpdatingDetail := "服务器正在更新配置并重启中，请稍后再试"
  const RestartingDetail := "系统正在重启中，请稍后再试"
  const NoAgentDetail := "Agent未初始化"
  const MissingDetail := "对话不存在"
  const QueryErrorPrefix := "处理查询时发生错误: "
  const SaveErrorPrefix := "更新配置时发生错误: "

  /** `SuccessResponse` of the delete endpoints. */
  datatype SuccessResponse = SuccessResponse(success: bool, message: string)

  const DeletedMessage := "对话已删除"
  const AllDeletedMessage := "所有对话已删除"

  /** The fields of `QueryRequest` the bookkeeping depends on. */
  datatype QueryRequest = QueryRequest(query: string, conversationId: Option<string>, historyTurns: int)

  /** The answer of POST /api/query: `QueryResponse`, or the exception raised. */
  datatype QueryResult = Answered(answer: string, conversationId: string) | Failed(error: HttpError)

  /** The server's global state. */
  datatype ServerState = ServerState(store: Store, status: UpdateStatus, restartRequired: bool, agentReady: bool)

  // ---------------------------------------------------------------------------
  // Specification functions

  /** restart_agent_task_with_status: the flag is cleared first and set again on failure; success installs the new agent. */
  function AfterRestart(st: ServerState, taskId: Option<string>, outcome: RestartOutcome, now: int): ServerState
  {
    ServerState(st.store, ApplyGuarded(st.status, taskId, RestartRecords(taskId, outcome, now)),
      !outcome.Restarted?, st.agentReady || outcome.Restarted?)
  }

  datatype Admission = Admission(state: ServerState, refusal: Option<HttpError>)

  /**
   * The gates in front of both query endpoints: a running update refuses; a
   * pending restart is attempted inline under the record's current id and
   * refuses if it fails; a missing agent refuses.
   */
  function Admit(st: ServerState, restart: RestartOutcome, now: int): (r: Admission)
    ensures r.state.store == st.store
  {
    if st.status.updating then Admission(st, Some(HttpError(503, UpdatingDetail)))
    else
      var st1 := if st.restartRequired then AfterRestart(st, st.status.updateId, restart, now) else st;
      if st1.restartRequired then Admission(st1, Some(HttpError(503, RestartingDetail)))
      else if !st1.agentReady then Admission(st1, Some(HttpError(500, NoAgentDetail)))
      else Admission(st1, None)
  }

  /** A user message or a reply as appended by the server: its time stamp is the class default `bootTime`. */
  function Message(role: Role, content: string, bootTime: int): ChatMessage
  {
    ChatMessage(role, content, bootTime)
  }

  /** The conversation after a stored reply: the reply appended, `updated_at` set, the auto-title applied. */
  function WithReply(c: Conversation, query: string, reply: string, bootTime: int, now: int): Conversation
  {
    AutoTitle(c.(messages := c.messages + [Message(Assistant, reply, bootTime)], updatedAt := now), query)
  }

  function WithPrompt(c: Conversation, query: string, bootTime: int): Conversation
  {
    c.(messages := c.messages + [Message(User, query, bootTime)])
  }

  datatype QueryOutcome = QueryOutcome(state: ServerState, result: QueryResult, sent: seq<ModelMessage>)

  /** POST /api/query, given the agent's answer `reply` (its output, or the message of the exception it raised). */
  function QuerySpec(st: ServerState, req: QueryRequest, freshId: string, stamp: string, now: int,
                     restart: RestartOutcome, reply: Result<string, string>, bootTime: int): QueryOutcome
    requires Conversations.Valid(st.store)
  {
    var a := Admit(st, restart, now);
    if a.refusal.Some? then QueryOutcome(a.state, Failed(a.refusal.value), [])
    else QueryReply(a.state, req, freshId, stamp, now, reply, bootTime)
  }

  /**
   * An admitted query: the conversation is resolved, the agent sees its history
   * window, and an answer is stored with its question.
   */
  function QueryReply(st: ServerState, req: QueryRequest, freshId: string, stamp: string, now: int,
                      reply: Result<string, string>, bootTime: int): QueryOutcome
    requires Conversations.Valid(st.store)
  {
    var id := ResolvedId(st.store, req.conversationId, freshId);
    var s1 := Resolve(st.store, req.conversationId, freshId, stamp, bootTime);
    var c := s1.byId[id];
    var sent := ToModelMessages(HistoryWindow(c.messages, req.historyTurns));
    match reply
    case Err(e) => QueryOutcome(st.(store := s1), Failed(HttpError(500, QueryErrorPrefix + e)), sent)
    case Ok(out) =>
      var c1 := WithReply(WithPrompt(c, req.query, bootTime), req.query, out, bootTime, now);
      QueryOutcome(st.(store := Put(s1, c1)), Answered(out, id), sent)
  }

  datatype StreamOutcome = StreamOutcome(state: ServerState, response: Result<ReplyStream.Emitted, HttpError>, sent: seq<ModelMessage>)

  /** POST /api/stream, given the agent's run `nodes` and the exception `crash` that may end it. */
  function StreamSpec(st: ServerState, req: QueryRequest, freshId: string, stamp: string, now: int,
                      restart: RestartOutcome, nodes: seq<ReplyStream.AgentNode>, crash: Option<string>, bootTime: int): StreamOutcome
    requires Conversations.Valid(st.store)
  {
    var a := Admit(st, restart, now);
    if a.refusal.Some? then StreamOutcome(a.state, Err(a.refusal.value), [])
    else StreamReply(a.state, req, freshId, stamp, now, nodes, crash, bootTime)
  }

  /**
   * An admitted stream request: the prompt is filed in the resolved
   * conversation, the agent runs, and a non-empty reply is stored after it.
   */
  function StreamReply(st: ServerState, req: QueryRequest, freshId: string, stamp: string, now: int,
                       nodes: seq<ReplyStream.AgentNode>, crash: Option<string>, bootTime: int): StreamOutcome
    requires Conversations.Valid(st.store)
  {
    var id := ResolvedId(st.store, req.conversationId, freshId);
    var s1 := Resolve(st.store, req.conversationId, freshId, stamp, bootTime);
    var c := WithPrompt(s1.byId[id], req.query, bootTime);
    var sent := ToModelMessages(HistoryWindow(c.messages[..|c.messages| - 1], req.historyTurns));
    var e := ReplyStream.GenerateAsWritten(id, nodes, crash);
    var c1 := if e.fullResponse != "" then WithReply(c, req.query, e.fullResponse, bootTime, now) else c;
    StreamOutcome(st.(store := Put(s1, c1)), Ok(e), sent)
  }

  datatype ConfigOutcome = ConfigOutcome(state: ServerState, response: ConfigUpdateResponse, task: Option<string>)

  /**
   * POST /api/config/update: `hasMcpServers` says whether the new config has
   * the key, `saveError` whether writing it raised; `task` is the id of the
   * restart scheduled in the background.
   */
  function UpdateConfigSpec(st: ServerState, hasMcpServers: bool, freshId: string, now: int, saveError: Option<string>): ConfigOutcome
  {
    if !hasMcpServers then ConfigOutcome(st, ConfigUpdateResponse(false, MissingServersMessage, None), None)
    else if saveError.Some? then
      ConfigOutcome(st.(status := Verdict(Some(freshId), false, SaveErrorPrefix + saveError.value, now)),
        ConfigUpdateResponse(false, SaveErrorPrefix + saveError.value, None), None)
    else
      ConfigOutcome(st.(status := Progress(Some(freshId), UpdateStartedMessage, now), restartRequired := true),
        ConfigUpdateResponse(true, UpdateAcceptedMessage, Some(freshId)), Some(freshId))
  }

  // ---------------------------------------------------------------------------
  // The server

  class Server {
    var order: seq<string>
    var conversations: map<string, Conversation>
    var status: UpdateStatus
    var restartRequired: bool
    var agentReady: bool
    /** The moment the module was imported: the default time stamp of every `ChatMessage` and `Conversation`. */
    const bootTime: int

    function Stored(): Conversations.Store reads this {
      Conversations.Store(order, conversations)
    }

    ghost function State(): ServerState reads this {
      ServerState(Stored(), status, restartRequired, agentReady)
    }

    ghost predicate Valid() reads this {
      Conversations.Valid(Stored())
    }

    /** The state at start-up, once the startup event has or has not built an agent. */
    constructor(bootTime: int, agentReady: bool)
      ensures Valid()
      ensures State() == ServerState(EmptyStore, InitialStatus, false, agentReady) && this.bootTime == bootTime
    {
      order := [];
      conversations := map[];
      status := InitialStatus;
      restartRequired := false;
      this.agentReady := agentReady;
      this.bootTime := bootTime;
    }

    /** GET /api/conversations: every stored conversation once, most recently updated first. */
    method ListConversations() returns (listing: seq<Conversation>)
      requires Valid()
      ensures SortedDesc(listing)
      ensures forall c :: c in listing <==> c in conversations.Values
      ensures forall i, j :: 0 <= i < j < |listing| ==> listing[i] != listing[j]
      ensures listing == Listing(Conversations.Store(order, conversations))
    {
      listing := Listing(Conversations.Store(order, conversations));
    }

    /** GET /api/conversations/{id}. */
    method GetConversation(id: string) returns (r: Result<Conversation, HttpError>)
      ensures r.Ok? <==> id in conversations
      ensures r.Ok? ==> r.value == conversations[id]
      ensures r.Err? ==> r.error == HttpError(404, MissingDetail)
    {
      if id !in conversations {
        return Err(HttpError(404, MissingDetail));
      }
      r := Ok(conversations[id]);
    }

    /** DELETE /api/conversations/{id}. */
    method DeleteConversation(id: string) returns (r: Result<SuccessResponse, HttpError>)
      requires Valid()
      modifies this
      ensures Valid()
      ensures r.Ok? <==> id in old(conversations)
      ensures r.Ok? ==> r.value == SuccessResponse(true, DeletedMessage) && conversations == old(conversations) - {id}
      ensures r.Err? ==> r.error == HttpError(404, MissingDetail) && State() == old(State())
      ensures unchanged(`status, `restartRequired, `agentReady)
    {
      if id !in conversations {
        return Err(HttpError(404, MissingDetail));
      }
      var s := Delete(Stored(), id);
      order, conversations := s.order, s.byId;
      r := Ok(SuccessResponse(true, DeletedMessage));
    }

    /** DELETE /api/conversations. */
    method DeleteAll() returns (r: SuccessResponse)
      modifies this
      ensures Valid()
      ensures r == SuccessResponse(true, AllDeletedMessage)
      ensures State() == old(State()).(store := EmptyStore)
    {
      order, conversations := [], map[];
      r := SuccessResponse(true, AllDeletedMessage);
    }

    /** POST /api/conversations: a new unnamed conversation under the fresh id, created and updated `now`. */
    method CreateConversation(freshId: string, now: int, stamp: string) returns (c: Conversation)
      requires Valid()
      modifies this
      ensures Valid()
      ensures c == Conversation(freshId, FreshTitle(stamp), [], now, now)
      ensures State() == old(State()).(store := Put(old(Stored()), c))
    {
      c := Conversation(freshId, FreshTitle(stamp), [], now, now);
      var s := Put(Stored(), c);
      order, conversations := s.order, s.byId;
    }

    /** PUT /api/conversations/{id}/title: the body's "title", or "新对话" when it has none. */
    method UpdateTitle(id: string, title: Option<string>, now: int) returns (r: Result<Conversation, HttpError>)
      requires Valid()
      modifies this
      ensures Valid()
      ensures r.Ok? <==> id in old(conversations)
      ensures r.Err? ==> r.error == HttpError(404, MissingDetail) && State() == old(State())
      ensures r.Ok? ==>
        && r.value == old(conversations)[id].(title := title.GetOr(NewTitle), updatedAt := now)
        && State() == old(State()).(store := Put(old(Stored()), r.value))
    {
      if id !in conversations {
        return Err(HttpError(404, MissingDetail));
      }
      var c := conversations[id].(title := title.GetOr(NewTitle), updatedAt := now);
      var s := Put(Stored(), c);
      order, conversations := s.order, s.byId;
      r := Ok(c);
    }

    /** `if config_update_status.get("update_id") == update_id: config_update_status = rec` */
    method WriteStatusIfCurrent(taskId: Option<string>, rec: UpdateStatus)
      modifies this
      ensures status == GuardedWrite(old(status), taskId, rec)
      ensures unchanged(`order, `conversations, `restartRequired, `agentReady)
    {
      if status.updateId == taskId {
        status := rec;
      }
    }

    /** One guarded write of a restart task, also recorded in the ghost list `written` of its records so far. */
    method WriteRecord(taskId: Option<string>, rec: UpdateStatus, ghost start: UpdateStatus, ghost written: seq<UpdateStatus>)
      returns (ghost written': seq<UpdateStatus>)
      requires status == ApplyGuarded(start, taskId, written)
      modifies this
      ensures written' == written + [rec] && status == ApplyGuarded(start, taskId, written')
      ensures unchanged(`order, `conversations, `restartRequired, `agentReady)
    {
      WriteStatusIfCurrent(taskId, rec);
      written' := written + [rec];
      ApplySnoc(start, taskId, written, rec);
    }

    /** The progress reports of building the new agent, up to the step that raised (at most two inner steps). */
    method WriteBuildProgress(taskId: Option<string>, stepsDone: nat, now: int,
                              ghost start: UpdateStatus, ghost written: seq<UpdateStatus>)
      returns (ghost written': seq<UpdateStatus>)
      requires status == ApplyGuarded(start, taskId, written)
      modifies this
      ensures written' == written + BuildProgress(taskId, stepsDone, now)
      ensures status == ApplyGuarded(start, taskId, written')
      ensures unchanged(`order, `conversations, `restartRequired, `agentReady)
    {
      var creating, loading, starting :=
        Progress(taskId, CreatingMessage, now), Progress(taskId, LoadingMessage, now), Progress(taskId, StartingMessage, now);
      written' := WriteRecord(taskId, creating, start, written);
      if stepsDone == 0 {
        assert BuildProgress(taskId, stepsDone, now) == [creating];
      } else {
        written' := WriteRecord(taskId, loading, start, written');
        if stepsDone == 1 {
          assert BuildProgress(taskId, stepsDone, now) == [creating, loading];
          assert written + [creating] + [loading] == written + [creating, loading];
        } else {
          written' := WriteRecord(taskId, starting, start, written');
          assert BuildProgress(taskId, stepsDone, now) == [creating, loading, starting];
          assert written + [creating] + [loading] + [starting] == written + [creating, loading, starting];
        }
      }
    }

    /** restart_agent_task_with_status(taskId), whose run ends with `outcome`. */
    method RestartAgentTask(taskId: Option<string>, outcome: RestartOutcome, now: int)
      modifies this
      ensures State() == AfterRestart(old(State()), taskId, outcome, now)
    {
      match outcome {
        case Crashed(error) => RestartCrashed(taskId, error, now);
        case BuildFailed(stepsDone, error) => RestartBuildFailed(taskId, stepsDone, error, now);
        case Restarted => RestartSucceeded(taskId, now);
      }
    }

    /** The restart task when closing the old agent or the restart itself raised `error`. */
    method RestartCrashed(taskId: Option<string>, error: string, now: int)
      modifies this
      ensures State() == AfterRestart(old(State()), taskId, Crashed(error), now)
    {
      ghost var w: seq<UpdateStatus> := [];
      restartRequired := false;
      w := WriteRecord(taskId, Progress(taskId, ClosingMessage, now), old(status), w);
      restartRequired := true;
      w := WriteRecord(taskId, Verdict(taskId, false, "重启Agent时发生错误: " + error, now), old(status), w);
      assert w == RestartRecords(taskId, Crashed(error), now);
    }

    /** The restart task when building the new agent raised `error` after `stepsDone` inner steps. */
    method RestartBuildFailed(taskId: Option<string>, stepsDone: nat, error: string, now: int)
      modifies this
      ensures State() == AfterRestart(old(State()), taskId, BuildFailed(stepsDone, error), now)
    {
      ghost var w: seq<UpdateStatus> := [];
      restartRequired := false;
      w := WriteRecord(taskId, Progress(taskId, ClosingMessage, now), old(status), w);
      w := WriteBuildProgress(taskId, stepsDone, now, old(status), w);
      restartRequired := true;
      w := WriteRecord(taskId, Verdict(taskId, false, "创建新Agent时发生错误: " + error, now), old(status), w);
      assert w == RestartRecords(taskId, BuildFailed(stepsDone, error), now);
    }

    /** The restart task when the new agent was built and started. */
    method RestartSucceeded(taskId: Option<string>, now: int)
      modifies this
      ensures State() == AfterRestart(old(State()), taskId, Restarted, now)
    {
      ghost var w: seq<UpdateStatus> := [];
      restartRequired := false;
      w := WriteRecord(taskId, Progress(taskId, ClosingMessage, now), old(status), w);
      w := WriteBuildProgress(taskId, 2, now, old(status), w);
      agentReady := true;
      w := WriteRecord(taskId, Verdict(taskId, true, RestartedMessage, now), old(status), w);
      assert w == RestartRecords(taskId, Restarted, now);
    }

    /** The gates in front of a query; `refusal` is the exception raised, if any. */
    method AdmitQuery(restart: RestartOutcome, now: int) returns (refusal: Option<HttpError>)
      modifies this
      ensures Admission(State(), refusal) == Admit(old(State()), restart, now)
    {
      if status.updating {
        return Some(HttpError(503, UpdatingDetail));
      }
      if restartRequired {
        RestartAgentTask(status.updateId, restart, now);
        if restartRequired {
          return Some(HttpError(503, RestartingDetail));
        }
      }
      if !agentReady {
        return Some(HttpError(500, NoAgentDetail));
      }
      refusal := None;
    }

    /** Finds the query's conversation, filing a fresh unnamed one if the request names none. */
    method ResolveConversation(requested: Option<string>, freshId: string, stamp: string) returns (id: string)
      requires Valid()
      modifies this
      ensures Valid()
      ensures id == ResolvedId(old(Stored()), requested, freshId) && id in conversations
      ensures State() == old(State()).(store := Resolve(old(Stored()), requested, freshId, stamp, bootTime))
    {
      id := ResolvedId(Stored(), requested, freshId);
      if !Names(Stored(), requested) {
        var s := Put(Stored(), Conversation(freshId, FreshTitle(stamp), [], bootTime, bootTime));
        order, conversations := s.order, s.byId;
      }
    }

    /** POST /api/query; `sent` is the history handed to the agent. */
    method Query(req: QueryRequest, freshId: string, stamp: string, now: int,
                 restart: RestartOutcome, reply: Result<string, string>)
      returns (result: QueryResult, sent: seq<ModelMessage>)
      requires Valid()
      modifies this
      ensures Valid()
      ensures QueryOutcome(State(), result, sent) == QuerySpec(old(State()), req, freshId, stamp, now, restart, reply, bootTime)
    {
      ghost var a := Admit(old(State()), restart, now);
      var refusal := AdmitQuery(restart, now);
      if refusal.Some? {
        return Failed(refusal.value), [];
      }
      assert State() == a.state;
      result, sent := QueryAdmitted(req, freshId, stamp, now, reply);
    }

    /** The admitted part of POST /api/query: resolve the conversation, store an answer with its question. */
    method QueryAdmitted(req: QueryRequest, freshId: string, stamp: string, now: int, reply: Result<string, string>)
      returns (result: QueryResult, sent: seq<ModelMessage>)
      requires Valid()
      modifies this
      ensures Valid()
      ensures QueryOutcome(State(), result, sent) == QueryReply(old(State()), req, freshId, stamp, now, reply, bootTime)
    {
      var id := ResolveConversation(req.conversationId, freshId, stamp);
      var c := conversations[id];
      sent := ToModelMessages(HistoryWindow(c.messages, req.historyTurns));
      match reply {
        case Err(e) =>
          result := Failed(HttpError(500, QueryErrorPrefix + e));
        case Ok(out) =>
          c := WithPrompt(c, req.query, bootTime);
          c := WithReply(c, req.query, out, bootTime, now);
          var s := Put(Stored(), c);
          order, conversations := s.order, s.byId;
          result := Answered(out, id);
      }
    }

    /** POST /api/stream; the response is the body's frames and the reply that was stored. */
    method QueryStream(req: QueryRequest, freshId: string, stamp: string, now: int,
                       restart: RestartOutcome, nodes: seq<ReplyStream.AgentNode>, crash: Option<string>)
      returns (response: Result<ReplyStream.Emitted, HttpError>, sent: seq<ModelMessage>)
      requires Valid()
      modifies this
      ensures Valid()
      ensures StreamOutcome(State(), response, sent) == StreamSpec(old(State()), req, freshId, stamp, now, restart, nodes, crash, bootTime)
    {
      ghost var a := Admit(old(State()), restart, now);
      var refusal := AdmitQuery(restart, now);
      if refusal.Some? {
        return Err(refusal.value), [];
      }
      assert State() == a.state;
      var emitted;
      emitted, sent := StreamAdmitted(req, freshId, stamp, now, nodes, crash);
      response := Ok(emitted);
    }

    /** The admitted part of POST /api/stream: file the prompt, run the agent, store a non-empty reply. */
    method StreamAdmitted(req: QueryRequest, freshId: string, stamp: string, now: int,
                          nodes: seq<ReplyStream.AgentNode>, crash: Option<string>)
      returns (emitted: ReplyStream.Emitted, sent: seq<ModelMessage>)
      requires Valid()
      modifies this
      ensures Valid()
      ensures StreamOutcome(State(), Ok(emitted), sent) == StreamReply(old(State()), req, freshId, stamp, now, nodes, crash, bootTime)
    {
      var id := ResolveConversation(req.conversationId, freshId, stamp);
      ghost var resolved := Stored();
      var c := WithPrompt(conversations[id], req.query, bootTime);
      var s := Put(Stored(), c);
      order, conversations := s.order, s.byId;
      sent := ToModelMessages(HistoryWindow(c.messages[..|c.messages| - 1], req.historyTurns));
      var frames, fullResponse := ReplyStream.GenerateStream(id, nodes, crash);
      if fullResponse != "" {
        var c1 := WithReply(c, req.query, fullResponse, bootTime, now);
        s := Put(Stored(), c1);
        order, conversations := s.order, s.byId;
        PutTwice(resolved, c, c1);
      }
      emitted := ReplyStream.Emitted(frames, fullResponse);
    }

    /** POST /api/config/update; `task` is the id of the restart scheduled in the background. */
    method UpdateConfig(hasMcpServers: bool, freshId: string, now: int, saveError: Option<string>)
      returns (response: ConfigUpdateResponse, task: Option<string>)
      modifies this
      ensures ConfigOutcome(State(), response, task) == UpdateConfigSpec(old(State()), hasMcpServers, freshId, now, saveError)
    {
      if !hasMcpServers {
        return ConfigUpdateResponse(false, MissingServersMessage, None), None;
      }
      status := Progress(Some(freshId), UpdateStartedMessage, now);
      if saveError.Some? {
        status := Verdict(status.updateId, false, SaveErrorPrefix + saveError.value, now);
        return ConfigUpdateResponse(false, SaveErrorPrefix + saveError.value, None), None;
      }
      restartRequired := true;
      response, task := ConfigUpdateResponse(true, UpdateAcceptedMessage, Some(freshId)), Some(freshId);
    }
  }

  // ---------------------------------------------------------------------------
  // Properties

  /** While an update is running both query endpoints answer 503 and change nothing. */
  lemma UpdatingRefusesQueries(st: ServerState, req: QueryRequest, freshId: string, stamp: string, now: int,
                               restart: RestartOutcome, reply: Result<string, string>,
                               nodes: seq<ReplyStream.AgentNode>, crash: Option<string>, bootTime: int)
    requires Conversations.Valid(st.store) && st.status.updating
    ensures QuerySpec(st, req, freshId, stamp, now, restart, reply, bootTime) == QueryOutcome(st, Failed(HttpError(503, UpdatingDetail)), [])
    ensures StreamSpec(st, req, freshId, stamp, now, restart, nodes, crash, bootTime) == StreamOutcome(st, Err(HttpError(503, UpdatingDetail)), [])
  {
  }

  /**
   * An answered query appends exactly the question and the answer to its
   * conversation, marks it updated, leaves every other conversation alone and
   * sent the agent the history window of the messages before the question.
   */
  lemma QueryStoresExchange(st: ServerState, req: QueryRequest, freshId: string, stamp: string, now: int,
                            restart: RestartOutcome, out: string, bootTime: int)
    requires Conversations.Valid(st.store)
    requires Admit(st, restart, now).refusal.None?
    ensures var r := QuerySpec(st, req, freshId, stamp, now, restart, Ok(out), bootTime);
      var id := ResolvedId(st.store, req.conversationId, freshId);
      var before := Resolve(st.store, req.conversationId, freshId, stamp, bootTime);
      var ms := before.byId[id].messages;
      && r.result == Answered(out, id)
      && id in r.state.store.byId
      && r.state.store.byId[id].messages == ms + [ChatMessage(User, req.query, bootTime), ChatMessage(Assistant, out, bootTime)]
      && r.state.store.byId[id].updatedAt == now
      && r.sent == ToModelMessages(HistoryWindow(ms, req.historyTurns))
      && (forall k :: k in r.state.store.byId && k != id ==> k in before.byId && r.state.store.byId[k] == before.byId[k])
      && r.state.store.byId.Keys == before.byId.Keys
  {
    var a := Admit(st, restart, now);
    assert QuerySpec(st, req, freshId, stamp, now, restart, Ok(out), bootTime)
        == QueryReply(a.state, req, freshId, stamp, now, Ok(out), bootTime);
    QueryReplyStoresExchange(a.state, req, freshId, stamp, now, out, bootTime);
  }

  /** The admitted part of a query files the question and the answer in the resolved conversation only. */
  lemma QueryReplyStoresExchange(st: ServerState, req: QueryRequest, freshId: string, stamp: string, now: int,
                                 out: string, bootTime: int)
    requires Conversations.Valid(st.store)
    ensures var r := QueryReply(st, req, freshId, stamp, now, Ok(out), bootTime);
      var id := ResolvedId(st.store, req.conversationId, freshId);
      var before := Resolve(st.store, req.conversationId, freshId, stamp, bootTime);
      var ms := before.byId[id].messages;
      && r.result == Answered(out, id)
      && id in r.state.store.byId
      && r.state.store.byId[id].messages == ms + [ChatMessage(User, req.query, bootTime), ChatMessage(Assistant, out, bootTime)]
      && r.state.store.byId[id].updatedAt == now
      && r.sent == ToModelMessages(HistoryWindow(ms, req.historyTurns))
      && (forall k :: k in r.state.store.byId && k != id ==> k in before.byId && r.state.store.byId[k] == before.byId[k])
      && r.state.store.byId.Keys == before.byId.Keys
  {
    var id := ResolvedId(st.store, req.conversationId, freshId);
    var before := Resolve(st.store, req.conversationId, freshId, stamp, bootTime);
    var c := before.byId[id];
    var c1 := WithReply(WithPrompt(c, req.query, bootTime), req.query, out, bootTime, now);
    assert c.id == id;
    assert QueryReply(st, req, freshId, stamp, now, Ok(out), bootTime).state.store == Put(before, c1);
    assert c1.messages == c.messages + [ChatMessage(User, req.query, bootTime), ChatMessage(Assistant, out, bootTime)];
    PutReplacesOne(before, c1);
  }

  /** Re-filing a stored conversation replaces it and leaves every other conversation, and the ids, as they were. */
  lemma PutReplacesOne(s: Conversations.Store, c: Conversation)
    requires Conversations.Valid(s) && c.id in s.byId
    ensures Put(s, c).byId.Keys == s.byId.Keys
    ensures c.id in Put(s, c).byId && Put(s, c).byId[c.id] == c
    ensures forall k :: k in Put(s, c).byId && k != c.id ==> k in s.byId && Put(s, c).byId[k] == s.byId[k]
  {
  }



  /** A query whose agent raised answers 500 and stores no message; only a fresh conversation may have been filed. */
  lemma FailedQueryStoresNoMessage(st: ServerState, req: QueryRequest, freshId: string, stamp: string, now: int,
                                   restart: RestartOutcome, error: string, bootTime: int)
    requires Conversations.Valid(st.store)
    requires Admit(st, restart, now).refusal.None?
    ensures var r := QuerySpec(st, req, freshId, stamp, now, restart, Err(error), bootTime);
      && r.result == Failed(HttpError(500, QueryErrorPrefix + error))
      && r.state.store == Resolve(st.store, req.conversationId, freshId, stamp, bootTime)
      && (forall k :: k in st.store.byId && k in r.state.store.byId && k != freshId ==>
            r.state.store.byId[k] == st.store.byId[k])
  {
  }

  /**
   * A streaming query stores the question before the agent runs, and the reply
   * after it only if the reply is not empty; the history the agent sees never
   * holds the new question.
   */
  lemma StreamStoresPromptFirst(st: ServerState, req: QueryRequest, freshId: string, stamp: string, now: int,
                                restart: RestartOutcome, nodes: seq<ReplyStream.AgentNode>, crash: Option<string>, bootTime: int)
    requires Conversations.Valid(st.store)
    requires Admit(st, restart, now).refusal.None?
    ensures var r := StreamSpec(st, req, freshId, stamp, now, restart, nodes, crash, bootTime);
      var id := ResolvedId(st.store, req.conversationId, freshId);
      var before := Resolve(st.store, req.conversationId, freshId, stamp, bootTime);
      var ms := before.byId[id].messages;
      var e := ReplyStream.GenerateAsWritten(id, nodes, crash);
      && r.response == Ok(e)
      && id in r.state.store.byId
      && r.state.store.byId[id].messages ==
           ms + [ChatMessage(User, req.query, bootTime)] + (if e.fullResponse != "" then [ChatMessage(Assistant, e.fullResponse, bootTime)] else [])
      && (e.fullResponse == "" ==> r.state.store.byId[id].updatedAt == before.byId[id].updatedAt)
      && r.sent == ToModelMessages(HistoryWindow(ms, req.historyTurns))
  {
    var a := Admit(st, restart, now);
    assert StreamSpec(st, req, freshId, stamp, now, restart, nodes, crash, bootTime)
        == StreamReply(a.state, req, freshId, stamp, now, nodes, crash, bootTime);
    StreamReplyStoresPromptFirst(a.state, req, freshId, stamp, now, nodes, crash, bootTime);
  }

  /** The admitted part of the stream request files the question, then the reply if any. */
  lemma StreamReplyStoresPromptFirst(st: ServerState, req: QueryRequest, freshId: string, stamp: string, now: int,
                                     nodes: seq<ReplyStream.AgentNode>, crash: Option<string>, bootTime: int)
    requires Conversations.Valid(st.store)
    ensures var r := StreamReply(st, req, freshId, stamp, now, nodes, crash, bootTime);
      var id := ResolvedId(st.store, req.conversationId, freshId);
      var before := Resolve(st.store, req.conversationId, freshId, stamp, bootTime);
      var ms := before.byId[id].messages;
      var e := ReplyStream.GenerateAsWritten(id, nodes, crash);
      && r.response == Ok(e)
      && id in r.state.store.byId
      && r.state.store.byId[id].messages ==
           ms + [ChatMessage(User, req.query, bootTime)] + (if e.fullResponse != "" then [ChatMessage(Assistant, e.fullResponse, bootTime)] else [])
      && (e.fullResponse == "" ==> r.state.store.byId[id].updatedAt == before.byId[id].updatedAt)
      && r.sent == ToModelMessages(HistoryWindow(ms, req.historyTurns))
  {
    var r := StreamReply(st, req, freshId, stamp, now, nodes, crash, bootTime);
    var id := ResolvedId(st.store, req.conversationId, freshId);
    var before := Resolve(st.store, req.conversationId, freshId, stamp, bootTime);
    var ms := before.byId[id].messages;
    var c := WithPrompt(before.byId[id], req.query, bootTime);
    var e := ReplyStream.GenerateAsWritten(id, nodes, crash);
    assert before.byId[id].id == id;
    assert c.messages[..|c.messages| - 1] == ms;
    assert r.sent == ToModelMessages(HistoryWindow(ms, req.historyTurns));
    if e.fullResponse != "" {
      var c1 := WithReply(c, req.query, e.fullResponse, bootTime, now);
      assert r.state.store == Put(before, c1);
      assert c1.messages == c.messages + [ChatMessage(Assistant, e.fullResponse, bootTime)];
      assert Put(before, c1).byId[id] == c1;
    } else {
      assert r.state.store == Put(before, c);
      assert Put(before, c).byId[id] == c;
    }
  }



  /** A streamed reply is stored exactly as the same reply from POST /api/query would be. */
  lemma StreamAgreesWithQuery(st: ServerState, req: QueryRequest, freshId: string, stamp: string, now: int,
                              restart: RestartOutcome, nodes: seq<ReplyStream.AgentNode>, crash: Option<string>, bootTime: int)
    requires Conversations.Valid(st.store)
    requires ReplyStream.GenerateAsWritten(ResolvedId(st.store, req.conversationId, freshId), nodes, crash).fullResponse != ""
    ensures var out := ReplyStream.GenerateAsWritten(ResolvedId(st.store, req.conversationId, freshId), nodes, crash).fullResponse;
      var s := StreamSpec(st, req, freshId, stamp, now, restart, nodes, crash, bootTime);
      var q := QuerySpec(st, req, freshId, stamp, now, restart, Ok(out), bootTime);
      s.state == q.state && s.sent == q.sent
  {
    var a := Admit(st, restart, now);
    if a.refusal.None? {
      var id := ResolvedId(a.state.store, req.conversationId, freshId);
      var before := Resolve(a.state.store, req.conversationId, freshId, stamp, bootTime);
      var ms := before.byId[id].messages;
      assert (ms + [ChatMessage(User, req.query, bootTime)])[..|ms|] == ms;
    }
  }

  /** The first answered query on a conversation the request did not name titles it after the question. */
  lemma FirstQueryTitlesConversation(st: ServerState, req: QueryRequest, freshId: string, stamp: string, now: int,
                                     restart: RestartOutcome, out: string, bootTime: int)
    requires Conversations.Valid(st.store)
    requires Admit(st, restart, now).refusal.None? && !Names(st.store, req.conversationId)
    ensures var r := QuerySpec(st, req, freshId, stamp, now, restart, Ok(out), bootTime);
      && freshId in r.state.store.byId
      && r.state.store.byId[freshId] ==
           Conversation(freshId, TitleFromQuery(req.query),
             [ChatMessage(User, req.query, bootTime), ChatMessage(Assistant, out, bootTime)], bootTime, now)
  {
  }

  /** A config without "mcpServers" is refused and the server state is untouched. */
  lemma MissingServersChangesNothing(st: ServerState, freshId: string, now: int, saveError: Option<string>)
    ensures UpdateConfigSpec(st, false, freshId, now, saveError) ==
      ConfigOutcome(st, ConfigUpdateResponse(false, MissingServersMessage, None), None)
  {
  }

  /**
   * An accepted update refuses queries until its restart task has run; that
   * task then closes the record with its outcome, and after a successful
   * restart queries are admitted again.
   */
  lemma UpdateThenRestart(st: ServerState, freshId: string, now: int, outcome: RestartOutcome, later: int, restart: RestartOutcome)
    ensures var u := UpdateConfigSpec(st, true, freshId, now, None);
      var done := AfterRestart(u.state, u.task, outcome, later);
      && u.task == Some(freshId)
      && Admit(u.state, restart, now).refusal == Some(HttpError(503, UpdatingDetail))
      && done.status.updateId == Some(freshId) && !done.status.updating
      && done.status.success == Some(outcome.Restarted?)
      && done.restartRequired == !outcome.Restarted?
      && (outcome.Restarted? ==> Admit(done, restart, later) == Admission(done, None))
  {
    var u := UpdateConfigSpec(st, true, freshId, now, None);
    RestartVerdict(u.state.status, Some(freshId), outcome, later);
  }

  /**
   * When a second update is accepted before the first one's restart task has
   * run, that task no longer writes the record: the record stays the second
   * update's until the second task closes it.
   */
  lemma SecondUpdateOwnsRecord(st: ServerState, first: string, second: string, now: int,
                               outcome1: RestartOutcome, outcome2: RestartOutcome, later: int)
    requires first != second
    ensures var u1 := UpdateConfigSpec(st, true, first, now, None);
      var u2 := UpdateConfigSpec(u1.state, true, second, now, None);
      var t1 := AfterRestart(u2.state, Some(first), outcome1, later);
      var t2 := AfterRestart(t1, Some(second), outcome2, later);
      && t1.status == u2.state.status
      && t2.status.updateId == Some(second) && t2.status.success == Some(outcome2.Restarted?)
  {
    var u1 := UpdateConfigSpec(st, true, first, now, None);
    var u2 := UpdateConfigSpec(u1.state, true, second, now, None);
    NewerUpdateWins(first, second, UpdateStartedMessage, now, RestartRecords(Some(first), outcome1, later));
    RestartVerdict(u2.state.status, Some(second), outcome2, later);
  }

  /** Filing two versions of one conversation leaves what filing the second alone leaves. */
  lemma PutTwice(s: Conversations.Store, c: Conversation, c1: Conversation)
    requires Conversations.Valid(s) && c.id == c1.id
    ensures Put(Put(s, c), c1) == Put(s, c1)
  {
    assert Put(Put(s, c), c1).byId == Put(s, c1).byId;
    assert Put(Put(s, c), c1).order == Put(s, c1).order;
  }

  /** One more guarded write extends the applied sequence by one record. */
  lemma ApplySnoc(s: UpdateStatus, taskId: Option<string>, recs: seq<UpdateStatus>, rec: UpdateStatus)
    ensures ApplyGuarded(s, taskId, recs + [rec]) == GuardedWrite(ApplyGuarded(s, taskId, recs), taskId, rec)
  {
    assert (recs + [rec])[..|recs|] == recs;
  }
}
