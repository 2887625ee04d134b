/**
 * The config-update status record of the chat server (web_server.py,
 * `config_update_status`): POST /api/config/update starts an update under a
 * fresh id, and the background restart task reports its progress into the
 * record only while the record still carries that task's id.
 */
module ConfigUpdate {
  import opened Wrappers

  /** `config_update_status`; `lastUpdateTime` and `success` are None for Python's None. */
  datatype UpdateStatus = UpdateStatus(
    updating: bool, lastUpdateTime: Option<int>, success: Option<bool>, message: string, updateId: Option<string>)

  const InitialStatus := UpdateStatus(false, None, None, "", None)

  /** A progress record of the task `taskId`. */
  function Progress(taskId: Option<string>, message: string, now: int): UpdateStatus
  {
    UpdateStatus(true, Some(now), None, message, taskId)
  }

  /** A closing record of the task `taskId`. */
  function Verdict(taskId: Option<string>, ok: bool, message: string, now: int): UpdateStatus
  {
    UpdateStatus(false, Some(now), Some(ok), message, taskId)
  }

  /** `if config_update_status.get("update_id") == update_id: config_update_status = rec` */
  function GuardedWrite(s: UpdateStatus, taskId: Option<string>, rec: UpdateStatus): UpdateStatus
  {
    if s.updateId == taskId then rec else s
  }

  /** A task's guarded writes, in order. */
  function ApplyGuarded(s: UpdateStatus, taskId: Option<string>, recs: seq<UpdateStatus>): UpdateStatus
  {
    if recs == [] then s else GuardedWrite(ApplyGuarded(s, taskId, recs[..|recs| - 1]), taskId, recs[|recs| - 1])
  }

  /** How a run of restart_agent_task_with_status ends. */
  datatype RestartOutcome =
    | Restarted                                  // the new agent and its MCP servers are up
    | BuildFailed(stepsDone: nat, error: string) // building the agent raised after `stepsDone` of the two inner progress reports
    | Crashed(error: string)                     // an exception escaped the outer block after the first report

  const ClosingMessage := "正在关闭现有MCP服务器..."
  const CreatingMessage := "正在创建新的MCP服务器..."
  const LoadingMessage := "正在加载MCP服务器..."
  const StartingMessage := "正在启动服务器..."
  const RestartedMessage := "配置更新并重启成功"

  /** The progress records of building the new agent that raised after `stepsDone` inner steps (at most two). */
  function BuildProgress(taskId: Option<string>, stepsDone: nat, now: int): (recs: seq<UpdateStatus>)
    ensures 1 <= |recs| <= 3
    ensures forall k :: 0 <= k < |recs| ==> recs[k].updateId == taskId && recs[k].updating && recs[k].success == None
    ensures |recs| == 1 + (if stepsDone < 2 then stepsDone else 2)
    ensures recs[0].message == CreatingMessage
    ensures |recs| >= 2 ==> recs[1].message == LoadingMessage
    ensures |recs| == 3 ==> recs[2].message == StartingMessage
  {
    [Progress(taskId, CreatingMessage, now)]
      + (if stepsDone == 0 then [] else if stepsDone == 1 then [Progress(taskId, LoadingMessage, now)]
         else [Progress(taskId, LoadingMessage, now), Progress(taskId, StartingMessage, now)])
  }

  /** The records a restart task tries to write, in order. */
  function RestartRecords(taskId: Option<string>, outcome: RestartOutcome, now: int): (recs: seq<UpdateStatus>)
    ensures |recs| >= 2
    ensures forall k :: 0 <= k < |recs| ==> recs[k].updateId == taskId
    ensures forall k :: 0 <= k < |recs| - 1 ==> recs[k].updating && recs[k].success == None
    ensures !recs[|recs| - 1].updating && recs[|recs| - 1].success == Some(outcome.Restarted?)
  {
    var closing := Progress(taskId, ClosingMessage, now);
    match outcome
    case Restarted =>
      [closing] + BuildProgress(taskId, 2, now) + [Verdict(taskId, true, RestartedMessage, now)]
    case BuildFailed(stepsDone, error) =>
      [closing] + BuildProgress(taskId, stepsDone, now) + [Verdict(taskId, false, "创建新Agent时发生错误: " + error, now)]
    case Crashed(error) =>
      [closing, Verdict(taskId, false, "重启Agent时发生错误: " + error, now)]
  }

  /** A task whose id is no longer in the record changes nothing, however many writes it attempts. */
  lemma {:induction false} StaleTaskWritesNothing(s: UpdateStatus, taskId: Option<string>, recs: seq<UpdateStatus>)
    requires s.updateId != taskId
    ensures ApplyGuarded(s, taskId, recs) == s
    decreases |recs|
  {
    if recs != [] {
      StaleTaskWritesNothing(s, taskId, recs[..|recs| - 1]);
    }
  }

  /** A task that owns the record keeps it, and the record ends as its last write. */
  lemma {:induction false} CurrentTaskEndsWithLast(s: UpdateStatus, taskId: Option<string>, recs: seq<UpdateStatus>)
    requires s.updateId == taskId
    requires forall k :: 0 <= k < |recs| ==> recs[k].updateId == taskId
    ensures ApplyGuarded(s, taskId, recs).updateId == taskId
    ensures recs != [] ==> ApplyGuarded(s, taskId, recs) == recs[|recs| - 1]
    decreases |recs|
  {
    if recs != [] {
      CurrentTaskEndsWithLast(s, taskId, recs[..|recs| - 1]);
    }
  }

  /** After a restart task the record is closed with its outcome, or untouched if another update took over. */
  lemma RestartVerdict(s: UpdateStatus, taskId: Option<string>, outcome: RestartOutcome, now: int)
    ensures var r := ApplyGuarded(s, taskId, RestartRecords(taskId, outcome, now));
      && (s.updateId == taskId ==> !r.updating && r.success == Some(outcome.Restarted?) && r.updateId == taskId)
      && (s.updateId != taskId ==> r == s)
  {
    var recs := RestartRecords(taskId, outcome, now);
    if s.updateId == taskId {
      CurrentTaskEndsWithLast(s, taskId, recs);
    } else {
      StaleTaskWritesNothing(s, taskId, recs);
    }
  }

  /**
   * An update started while an older task is between two writes wins: from then
   * on the older task's remaining writes leave the newer update's record alone.
   */
  lemma NewerUpdateWins(older: string, newer: string, message: string, now: int, rest: seq<UpdateStatus>)
    requires older != newer
    ensures ApplyGuarded(Progress(Some(newer), message, now), Some(older), rest) == Progress(Some(newer), message, now)
  {
    StaleTaskWritesNothing(Progress(Some(newer), message, now), Some(older), rest);
  }

  /** The body of the answer to POST /api/config/update. */
  datatype ConfigUpdateResponse = ConfigUpdateResponse(success: bool, message: string, updateId: Option<string>)

  const MissingServersMessage := "配置格式错误：缺少mcpServers字段"
  const UpdateStartedMessage := "配置更新进行中..."
  const UpdateAcceptedMessage := "配置已更新，MCP服务器正在后台重启"
}
