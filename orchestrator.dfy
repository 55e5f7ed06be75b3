/** The task pipeline of src/orchestrator.py.

    `process_task` creates a task (PENDING), registers it, and takes it through council
    selection, an approval step when the effective approval mode is not AUTO, execution of
    the selected agent and decision logging; every exception becomes a FAILED result.

    The collaborators (council selector, approval manager, executor, decision logger) are
    opaque: `Services` gives, for one call of `process_task`, what each of them returns or
    raises. Nothing about how they decide is modelled. The ghost `calls` trace of an
    `Orchestrator` records which of them were invoked, with what, and in which order. */
module Orchestration {
  import opened Common

  // ---------------------------------------------------------------------------
  // Enums and records
  // ---------------------------------------------------------------------------

  datatype ApprovalMode = Auto | ApproveAll | ApproveHighRisk

  datatype TaskStatus =
    | Pending
    | CouncilSelecting
    | AwaitingApproval
    | Executing
    | Completed
    | Failed
    | Rejected

  /** A risk level of the approval manager; the orchestrator only passes it on. */
  type RiskLevel(==)

  datatype Vote = Vote(model: string, selectedAgent: string)

  datatype Ranking = Ranking(model: string, ranking: seq<string>)

  /** What the council selector returns. */
  datatype CouncilResult = CouncilResult(
    selectedAgent: string,
    confidence: real,
    reasoning: string,
    votes: seq<Vote>,
    rankings: seq<Ranking>)

  datatype AgentSelection = AgentSelection(
    selectedAgent: string,
    confidence: real,
    reasoning: string,
    votes: map<string, string>,
    rankings: map<string, seq<string>>)

  /** What the executor returns for one run of an agent. */
  datatype AgentOutput = AgentOutput(response: string, success: bool, durationMs: int, error: Option<string>)

  datatype ExecutionResult = ExecutionResult(
    taskId: string,
    agent: string,
    response: string,
    success: bool,
    durationMs: int,
    error: Option<string>)

  /** An alternative handed to the decision logger. */
  datatype Alternative = Alternative(name: string, score: real, reason: string)

  /** The arguments of one `log_decision` call on the decision logger. */
  datatype LoggerEntry = LoggerEntry(
    decisionType: string,
    title: string,
    reasoning: string,
    confidence: real,
    riskLevel: string,
    alternatives: seq<Alternative>,
    taskId: string)

  /** The orchestrator's own audit record. */
  datatype Decision = Decision(
    id: string,
    taskId: string,
    decisionType: string,
    title: string,
    reasoning: string,
    confidence: real,
    alternatives: seq<string>,
    outcome: Option<string>)

  /** The parts of the configuration the orchestrator reads: `approval["mode"]` if present,
      `get_agent_names()` and the keys of `agents`, each in configuration order. */
  datatype Config = Config(approvalMode: Option<string>, agentNames: seq<string>, agentKeys: seq<string>)

  /** One invocation of a collaborator. */
  datatype Call =
    | SelectAgentCall(userPrompt: string, systemPrompt: string, workingDirectory: Option<string>)
    | ClassifyRiskCall(actionType: string, agent: string)
    | RequiresApprovalCall(actionType: string, risk: RiskLevel)
    | ApprovalRequestCall(actionType: string, title: string, description: string, agent: string, risk: RiskLevel)
    | ExecuteCall(agent: string, systemPrompt: string, userPrompt: string, workingDirectory: Option<string>)
    | DecisionLogCall(entry: LoggerEntry)

  /** What each collaborator answers when `process_task` calls it; each is called at most
      once per task, and the `Call` trace records what it was called with. `select` is the
      council's answer; `approvalsImport` the outcome of the import `_check_approval` runs
      first; `classifyRisk` the risk of running the selected agent; `requiresApproval`
      whether that risk needs approval; `requestApproval` the answer to the request created
      for it (creating it and auto-approving it, either of which may raise); `execute` the
      executor's result; `logDecision` whether the decision logger accepted the entry. */
  datatype Services = Services(
    select: Outcome<CouncilResult>,
    approvalsImport: Outcome<()>,
    classifyRisk: Outcome<RiskLevel>,
    requiresApproval: Outcome<bool>,
    requestApproval: Outcome<bool>,
    execute: Outcome<AgentOutput>,
    logDecision: Outcome<()>)

  // ---------------------------------------------------------------------------
  // The status walk
  // ---------------------------------------------------------------------------

  predicate IsTerminal(s: TaskStatus) {
    s.Completed? || s.Failed? || s.Rejected?
  }

  /** The assignments to `task.status` that can follow one another in `process_task`.
      PENDING cannot go straight to FAILED: the first statement of the `try` sets
      COUNCIL_SELECTING, and nothing before it can raise. */
  predicate Step(from: TaskStatus, to: TaskStatus) {
    match from
    case Pending => to == CouncilSelecting
    case CouncilSelecting => to == AwaitingApproval || to == Executing || to == Failed
    case AwaitingApproval => to == Executing || to == Rejected || to == Failed
    case Executing => to == Completed || to == Failed
    case _ => false
  }

  /** How far along the pipeline a status lies. */
  function Rank(s: TaskStatus): nat {
    match s
    case Pending => 0
    case CouncilSelecting => 1
    case AwaitingApproval => 2
    case Executing => 3
    case _ => 4
  }

  /** A sequence of statuses that starts at PENDING and moves by `Step` only. */
  ghost predicate IsWalk(h: seq<TaskStatus>) {
    |h| > 0 && h[0] == Pending && forall i :: 0 <= i < |h| - 1 ==> Step(h[i], h[i + 1])
  }

  /** Along a walk the status moves strictly forward: no status repeats or regresses, and a
      terminal status can only be the last one. */
  lemma {:induction false} WalkMovesForward(h: seq<TaskStatus>)
    requires IsWalk(h)
    ensures forall i, j :: 0 <= i < j < |h| ==> Rank(h[i]) < Rank(h[j]) && h[i] != h[j]
    ensures forall i :: 0 <= i < |h| - 1 ==> !IsTerminal(h[i])
  {
    if |h| > 1 {
      var front := h[..|h| - 1];
      assert IsWalk(front) by {
        forall i | 0 <= i < |front| - 1 ensures Step(front[i], front[i + 1]) {
          assert front[i] == h[i] && front[i + 1] == h[i + 1];
        }
      }
      WalkMovesForward(front);
      forall i | 0 <= i < |h| - 1 ensures !IsTerminal(h[i]) {
        assert Step(h[i], h[i + 1]);
      }
      forall i, j | 0 <= i < j < |h| ensures Rank(h[i]) < Rank(h[j]) {
        assert Step(h[j - 1], h[j]);
        if i < j - 1 {
          assert Rank(front[i]) < Rank(front[j - 1]);
        }
      }
    }
  }

  /** A walk followed by a legal step is a walk. */
  lemma WalkExtends(h: seq<TaskStatus>, s: TaskStatus)
    requires IsWalk(h) && Step(h[|h| - 1], s)
    ensures IsWalk(h + [s])
  {
    var g := h + [s];
    forall i | 0 <= i < |g| - 1 ensures Step(g[i], g[i + 1]) {
      if i < |h| - 1 {
        assert g[i] == h[i] && g[i + 1] == h[i + 1];
      }
    }
  }

  // ---------------------------------------------------------------------------
  // Pure pieces of the orchestrator's helpers
  // ---------------------------------------------------------------------------

  /** No later element of `xs` has the key of `xs[i]`. */
  ghost predicate IsLastOccurrence<T, K>(xs: seq<T>, key: T -> K, i: int)
    requires 0 <= i < |xs|
  {
    forall j :: i < j < |xs| ==> key(xs[j]) != key(xs[i])
  }

  /** Python's `{key(x): value(x) for x in xs}`. */
  function LastWins<T, K(==,!new), V>(xs: seq<T>, key: T -> K, value: T -> V): map<K, V> {
    if xs == [] then map[]
    else LastWins(xs[..|xs| - 1], key, value)[key(xs[|xs| - 1]) := value(xs[|xs| - 1])]
  }

  /** The keys of the comprehension are exactly those that occur, and a key that occurs more
      than once keeps the value of its last occurrence. */
  lemma {:induction false} LastWinsFacts<T, K(!new), V>(xs: seq<T>, key: T -> K, value: T -> V)
    ensures forall k :: k in LastWins(xs, key, value) <==> exists i :: 0 <= i < |xs| && key(xs[i]) == k
    ensures forall i {:trigger IsLastOccurrence(xs, key, i)} ::
              0 <= i < |xs| && IsLastOccurrence(xs, key, i) ==>
                key(xs[i]) in LastWins(xs, key, value) && LastWins(xs, key, value)[key(xs[i])] == value(xs[i])
  {
    if xs != [] {
      var front := xs[..|xs| - 1];
      var last := xs[|xs| - 1];
      LastWinsFacts(front, key, value);
      var before := LastWins(front, key, value);
      var m := LastWins(xs, key, value);
      assert m == before[key(last) := value(last)];
      forall k ensures k in m <==> exists i :: 0 <= i < |xs| && key(xs[i]) == k {
        if k == key(last) {
          assert key(xs[|xs| - 1]) == k;
        } else if k in before {
          var i :| 0 <= i < |front| && key(front[i]) == k;
          assert xs[i] == front[i];
        } else {
          forall i | 0 <= i < |xs| ensures key(xs[i]) != k {
            if i < |front| {
              assert xs[i] == front[i];
            }
          }
        }
      }
      forall i | 0 <= i < |xs| && IsLastOccurrence(xs, key, i) ensures key(xs[i]) in m && m[key(xs[i])] == value(xs[i]) {
        if i < |front| {
          assert xs[i] == front[i];
          assert key(xs[|xs| - 1]) != key(xs[i]);
          assert IsLastOccurrence(front, key, i) by {
            forall j | i < j < |front| ensures key(front[j]) != key(front[i]) {
              assert front[j] == xs[j];
            }
          }
        }
      }
    }
  }

  /** The conversion in `_select_agent`: the council's choice is kept, and the votes and
      rankings become maps keyed by voter model. */
  function ToSelection(cr: CouncilResult): AgentSelection {
    AgentSelection(
      cr.selectedAgent, cr.confidence, cr.reasoning,
      LastWins(cr.votes, VoteModel, VoteAgent),
      LastWins(cr.rankings, RankingModel, RankingOrder))
  }

  function VoteModel(v: Vote): string { v.model }
  function VoteAgent(v: Vote): string { v.selectedAgent }
  function RankingModel(r: Ranking): string { r.model }
  function RankingOrder(r: Ranking): seq<string> { r.ranking }

  /** The keys of `votes` are the models that voted, each mapped to the agent of its last
      vote; the same holds of `rankings`. */
  lemma SelectionKeepsLastAnswers(cr: CouncilResult)
    ensures var s := ToSelection(cr);
            && s.votes.Keys == (set v | v in cr.votes :: v.model)
            && (forall i :: 0 <= i < |cr.votes| && (forall j :: i < j < |cr.votes| ==> cr.votes[j].model != cr.votes[i].model) ==>
                  s.votes[cr.votes[i].model] == cr.votes[i].selectedAgent)
            && s.rankings.Keys == (set r | r in cr.rankings :: r.model)
            && (forall i :: 0 <= i < |cr.rankings| && (forall j :: i < j < |cr.rankings| ==> cr.rankings[j].model != cr.rankings[i].model) ==>
                  s.rankings[cr.rankings[i].model] == cr.rankings[i].ranking)
  {
    var s := ToSelection(cr);
    var model := VoteModel;
    var byRanking := RankingModel;
    LastWinsFacts(cr.votes, model, VoteAgent);
    LastWinsFacts(cr.rankings, byRanking, RankingOrder);
    forall i | 0 <= i < |cr.votes| && (forall j :: i < j < |cr.votes| ==> cr.votes[j].model != cr.votes[i].model)
      ensures s.votes[cr.votes[i].model] == cr.votes[i].selectedAgent
    {
      assert IsLastOccurrence(cr.votes, model, i);
    }
    forall i | 0 <= i < |cr.rankings| && (forall j :: i < j < |cr.rankings| ==> cr.rankings[j].model != cr.rankings[i].model)
      ensures s.rankings[cr.rankings[i].model] == cr.rankings[i].ranking
    {
      assert IsLastOccurrence(cr.rankings, byRanking, i);
    }
  }

  /** An exception that reaches the `except` clause of `process_task`: one a collaborator
      raised, with its text, or the ValueError `ApprovalMode(value)` raises for a value that
      is no mode's value. */
  datatype Error = Raised(message: string) | InvalidMode(value: string)

  /** `str(e)`: a ValueError of the enum quotes the refused value's `repr`. */
  function Text(e: Error): string {
    match e
    case Raised(message) => message
    case InvalidMode(value) => Repr(value) + InvalidModeSuffix
  }

  /** A computation inside the `try` block of `process_task`: its value, or the exception
      it raised. */
  datatype Attempt<+T> = Done(value: T) | Threw(error: Error)

  /** `ApprovalMode(value)`: the enum member with that value, or the ValueError it raises. */
  function ParseMode(value: string): Attempt<ApprovalMode> {
    if value == AutoValue then Done(Auto)
    else if value == ApproveAllValue then Done(ApproveAll)
    else if value == ApproveHighRiskValue then Done(ApproveHighRisk)
    else Threw(InvalidMode(value))
  }

  /** `mode.value` */
  function ModeValue(mode: ApprovalMode): string {
    match mode
    case Auto => AutoValue
    case ApproveAll => ApproveAllValue
    case ApproveHighRisk => ApproveHighRiskValue
  }

  /** `ApprovalMode(m.value) == m`, a value is accepted only if it is some member's value,
      and any other value is refused with its `repr` quoted in the message. */
  lemma ParseModeInvertsValue(mode: ApprovalMode, value: string)
    ensures ParseMode(ModeValue(mode)) == Done(mode)
    ensures ParseMode(value).Done? ==> ModeValue(ParseMode(value).value) == value
    ensures ParseMode(value).Threw? ==>
              (forall m :: ModeValue(m) != value) && Text(ParseMode(value).error) == Repr(value) + InvalidModeSuffix
  {
  }

  /** `approval_mode or ApprovalMode(config.settings.approval.get("mode", AutoValue))`: an
      override, when given, wins (enum members are truthy); the configured value is only
      parsed when there is no override. */
  function EffectiveMode(override: Option<ApprovalMode>, configured: Option<string>): Attempt<ApprovalMode> {
    if override.Some? then Done(override.value) else ParseMode(configured.GetOr(AutoValue))
  }

  /** An override, when given, wins; without one a missing setting means AUTO, and a
      configured value is accepted exactly when it is the value of some mode. */
  lemma EffectiveModeFacts(override: Option<ApprovalMode>, configured: Option<string>)
    ensures override.Some? ==> EffectiveMode(override, configured) == Done(override.value)
    ensures override.None? && configured.None? ==> EffectiveMode(override, configured) == Done(Auto)
    ensures override.None? && configured.Some? ==>
              (EffectiveMode(override, configured).Done? <==> exists m :: ModeValue(m) == configured.value)
  {
    if override.None? && configured.Some? {
      var value := configured.value;
      if ParseMode(value).Done? {
        assert ModeValue(ParseMode(value).value) == value;
      }
    }
  }

  const AgentExecution := "agent_execution"
  const RejectedMessage: string := "User rejected agent selection"
  const UnknownAgent: string := "unknown"
  const AlternativeReason: string := "Alternative considered"
  const AgentSelectionType: string := "AGENT_SELECTION"
  const SelectedPrefix: string := "Selected "
  const ForTaskSuffix: string := " for task"
  const LowRisk: string := "low"
  const SuccessOutcome: string := "success"
  const FailureOutcome: string := "failure"
  const ExecutePrefix: string := "Execute "
  const TaskPrefix: string := "Task: "
  const Ellipsis: string := "..."
  const AutoValue: string := "AUTO"
  const ApproveAllValue: string := "APPROVE_ALL"
  const ApproveHighRiskValue: string := "APPROVE_HIGH_RISK"
  const InvalidModeSuffix: string := " is not a valid ApprovalMode"

  /** `_check_approval`: after importing `ApprovalMode` from the approvals module, the risk
      of running the agent decides, through the approval manager, whether a request is
      needed; when it is not, the answer is yes and no request is made. The `mode` argument
      is not consulted. The result is the answer or what was raised, with the calls made to
      the approval manager. */
  function CheckApproval(env: Services, userPrompt: string, selection: AgentSelection, mode: ApprovalMode)
    : (r: (Outcome<bool>, seq<Call>))
  {
    var agent := selection.selectedAgent;
    if env.approvalsImport.Raise? then (Raise(env.approvalsImport.message), []) else
    match env.classifyRisk
    case Raise(e) => (Raise(e), [ClassifyRiskCall(AgentExecution, agent)])
    case Ok(risk) =>
      var asked := [ClassifyRiskCall(AgentExecution, agent), RequiresApprovalCall(AgentExecution, risk)];
      match env.requiresApproval
      case Raise(e) => (Raise(e), asked)
      case Ok(needed) =>
        if !needed then (Ok(true), asked)
        else
          var request := ApprovalRequestCall(AgentExecution, ExecutePrefix + agent, TaskPrefix + Take(userPrompt, 100) + Ellipsis, agent, risk);
          (env.requestApproval, asked + [request])
  }

  /** The approval check does not depend on the mode it is given; a failed import raises
      before the approval manager is called; a risk that needs no approval answers yes with
      no request created; and the answer is no only when a request was created and the
      approval manager turned it down. */
  lemma CheckApprovalFacts(env: Services, userPrompt: string, selection: AgentSelection, mode: ApprovalMode, other: ApprovalMode)
    ensures CheckApproval(env, userPrompt, selection, mode) == CheckApproval(env, userPrompt, selection, other)
    ensures env.approvalsImport.Raise? ==>
              CheckApproval(env, userPrompt, selection, mode) == (Raise(env.approvalsImport.message), [])
    ensures var agent := selection.selectedAgent;
            env.approvalsImport.Ok? && env.classifyRisk.Ok? &&
            env.requiresApproval == Ok(false) ==>
              CheckApproval(env, userPrompt, selection, mode) ==
                (Ok(true), [ClassifyRiskCall(AgentExecution, agent), RequiresApprovalCall(AgentExecution, env.classifyRisk.value)])
    ensures var (answer, calls) := CheckApproval(env, userPrompt, selection, mode);
            answer == Ok(false) ==> |calls| == 3 && calls[2].ApprovalRequestCall?
    ensures var (answer, calls) := CheckApproval(env, userPrompt, selection, mode);
            (forall c :: c in calls ==> !c.ApprovalRequestCall?) ==> answer != Ok(false)
  {
  }

  /** The result `_execute_agent` builds from the executor's answer. */
  function ExecutionResultOf(taskId: string, agent: string, out: AgentOutput): ExecutionResult {
    ExecutionResult(taskId, agent, out.response, out.success, out.durationMs, out.error)
  }

  /** The result returned when the approval answer is no. */
  function RejectionResult(taskId: string, agent: string): ExecutionResult {
    ExecutionResult(taskId, agent, "", false, 0, Some(RejectedMessage))
  }

  /** The result returned when an exception reached the `except` clause. */
  function FailureResult(taskId: string, message: string, elapsedMs: nat): ExecutionResult {
    ExecutionResult(taskId, UnknownAgent, "", false, elapsedMs, Some(message))
  }

  /** The configured agent names other than `selected`, in configuration order. */
  function OtherAgents(names: seq<string>, selected: string): seq<string> {
    if names == [] then []
    else
      var rest := OtherAgents(names[1..], selected);
      if names[0] == selected then rest else [names[0]] + rest
  }

  /** Exactly the names other than `selected` remain, and every occurrence of `selected` is
      dropped. */
  lemma {:induction false} OtherAgentsFacts(names: seq<string>, selected: string)
    ensures forall a :: a in OtherAgents(names, selected) <==> a in names && a != selected
    ensures |OtherAgents(names, selected)| + multiset(names)[selected] == |names|
  {
    if names != [] {
      OtherAgentsFacts(names[1..], selected);
      assert names == [names[0]] + names[1..];
    }
  }

  /** The comprehension in `_log_decision`: an alternative for each configured agent other
      than the selected one. */
  function Considered(names: seq<string>, selected: string): seq<Alternative> {
    if names == [] then []
    else
      var rest := Considered(names[1..], selected);
      if names[0] == selected then rest else [Alternative(names[0], 0.5, AlternativeReason)] + rest
  }

  /** The alternatives `_log_decision` sends to the decision logger: the comprehension cut
      to its first three elements. */
  function LoggedAlternatives(names: seq<string>, selected: string): seq<Alternative> {
    Take(Considered(names, selected), 3)
  }

  lemma {:induction false} ConsideredFollowsOtherAgents(names: seq<string>, selected: string)
    ensures |Considered(names, selected)| == |OtherAgents(names, selected)|
    ensures forall i :: 0 <= i < |Considered(names, selected)| ==>
              Considered(names, selected)[i] == Alternative(OtherAgents(names, selected)[i], 0.5, AlternativeReason)
  {
    if names != [] {
      ConsideredFollowsOtherAgents(names[1..], selected);
    }
  }

  /** The logged alternatives are the other configured agents, in configuration order, at
      most three, each scored 0.5; the selected agent is never among them. */
  lemma LoggedAlternativesAreOtherAgents(names: seq<string>, selected: string)
    ensures var r := LoggedAlternatives(names, selected);
            && |r| == Min(3, |OtherAgents(names, selected)|)
            && (forall i :: 0 <= i < |r| ==> r[i] == Alternative(OtherAgents(names, selected)[i], 0.5, AlternativeReason))
            && (forall i :: 0 <= i < |r| ==> r[i].name in names && r[i].name != selected)
  {
    ConsideredFollowsOtherAgents(names, selected);
    OtherAgentsFacts(names, selected);
    var r := LoggedAlternatives(names, selected);
    forall i | 0 <= i < |r| ensures r[i].name in names && r[i].name != selected {
      assert r[i].name == OtherAgents(names, selected)[i];
    }
  }

  function LoggerEntryFor(config: Config, taskId: string, selection: AgentSelection): LoggerEntry {
    LoggerEntry(AgentSelectionType, SelectedPrefix + selection.selectedAgent, selection.reasoning, selection.confidence,
                LowRisk, LoggedAlternatives(config.agentNames, selection.selectedAgent), taskId)
  }

  function DecisionFor(config: Config, decisionId: string, taskId: string, selection: AgentSelection, result: ExecutionResult)
    : Decision
  {
    Decision(decisionId, taskId, AgentSelectionType, SelectedPrefix + selection.selectedAgent + ForTaskSuffix,
             selection.reasoning, selection.confidence, config.agentKeys,
             Some(if result.success then SuccessOutcome else FailureOutcome))
  }

  // ---------------------------------------------------------------------------
  // process_task as a function of its inputs and the collaborators' answers
  // ---------------------------------------------------------------------------

  /** One run of `process_task`: the statuses the task took, the result returned, the
      decision appended (if any) and the collaborator calls made. */
  datatype Run = Run(history: seq<TaskStatus>, result: ExecutionResult, decision: Option<Decision>, calls: seq<Call>) {
    function Status(): TaskStatus {
      if history == [] then Pending else history[|history| - 1]
    }
    function Appended(): seq<Decision> {
      if decision.Some? then [decision.value] else []
    }
  }

  /** The inputs of one `process_task` call other than the approval-mode override: the
      configuration, the collaborators' answers, the task, the id a logged decision gets and
      the elapsed time the failure path reports. */
  datatype Inputs = Inputs(
    config: Config, env: Services, taskId: string, systemPrompt: string, userPrompt: string,
    workingDirectory: Option<string>, decisionId: string, elapsedMs: nat)

  /** The step of `process_task` about to be taken: 1 council selection, 2 the approval gate,
      3 running the agent, 4 logging the decision, or the `except` clause with the exception
      that reached it. */
  datatype Phase =
    | SelectPhase(override: Option<ApprovalMode>)
    | ApprovePhase(selection: AgentSelection, override: Option<ApprovalMode>)
    | ExecutePhase(selection: AgentSelection)
    | LogPhase(selection: AgentSelection, result: ExecutionResult)
    | ExceptPhase(error: Error)

  /** How many steps remain after a phase. */
  function PhasesLeft(phase: Phase): nat {
    match phase
    case SelectPhase(_) => 4
    case ApprovePhase(_, _) => 3
    case ExecutePhase(_) => 2
    case LogPhase(_, _) => 1
    case ExceptPhase(_) => 0
  }

  /** `run` preceded by the collaborator calls `calls`. */
  function After(calls: seq<Call>, run: Run): Run {
    Run(run.history, run.result, run.decision, calls + run.calls)
  }

  /** The rest of `process_task` from `phase` on: `history` is the status history so far, and
      the calls are those made from here on. */
  function Continue(input: Inputs, phase: Phase, history: seq<TaskStatus>): Run
    decreases PhasesLeft(phase)
  {
    match phase
    case SelectPhase(override) =>
      var selectCall := [SelectAgentCall(input.userPrompt, input.systemPrompt, input.workingDirectory)];
      (match input.env.select
       case Raise(e) => After(selectCall, Continue(input, ExceptPhase(Raised(e)), history))
       case Ok(council) => After(selectCall, Continue(input, ApprovePhase(ToSelection(council), override), history)))
    case ApprovePhase(selection, override) =>
      (match EffectiveMode(override, input.config.approvalMode)
       case Threw(e) => Continue(input, ExceptPhase(e), history)
       case Done(mode) =>
         if mode == Auto then Continue(input, ExecutePhase(selection), history)
         else
           var awaiting := history + [AwaitingApproval];
           var (answer, approvalCalls) := CheckApproval(input.env, input.userPrompt, selection, mode);
           match answer
           case Raise(e) => After(approvalCalls, Continue(input, ExceptPhase(Raised(e)), awaiting))
           case Ok(approved) =>
             if !approved then
               Run(awaiting + [Rejected], RejectionResult(input.taskId, selection.selectedAgent), None, approvalCalls)
             else After(approvalCalls, Continue(input, ExecutePhase(selection), awaiting)))
    case ExecutePhase(selection) =>
      var agent := selection.selectedAgent;
      var executing := history + [Executing];
      var executed := [ExecuteCall(agent, input.systemPrompt, input.userPrompt, input.workingDirectory)];
      (match input.env.execute
       case Raise(e) => After(executed, Continue(input, ExceptPhase(Raised(e)), executing))
       case Ok(out) =>
         After(executed, Continue(input, LogPhase(selection, ExecutionResultOf(input.taskId, agent, out)), executing)))
    case LogPhase(selection, result) =>
      var logged := [DecisionLogCall(LoggerEntryFor(input.config, input.taskId, selection))];
      (match input.env.logDecision
       case Raise(e) => After(logged, Continue(input, ExceptPhase(Raised(e)), history))
       case Ok(_) =>
         Run(history + [Completed], result, Some(DecisionFor(input.config, input.decisionId, input.taskId, selection, result)),
             logged))
    case ExceptPhase(error) =>
      Run(history + [Failed], FailureResult(input.taskId, Text(error), input.elapsedMs), None, [])
  }

  /** The `except` clause: FAILED, with the exception's text and no further call. */
  lemma ExceptFails(input: Inputs, error: Error, history: seq<TaskStatus>)
    ensures Continue(input, ExceptPhase(error), history) ==
              Run(history + [Failed], FailureResult(input.taskId, Text(error), input.elapsedMs), None, [])
  {
  }

  /** The `except` clause for an exception a collaborator raised: FAILED, with its text. */
  lemma RaisedFails(input: Inputs, message: string, history: seq<TaskStatus>)
    ensures Continue(input, ExceptPhase(Raised(message)), history) ==
              Run(history + [Failed], FailureResult(input.taskId, message, input.elapsedMs), None, [])
  {
  }

  /** Steps 3 and 4 of `process_task`, once the task may run. */
  function ExecuteAndLog(
    config: Config, env: Services, taskId: string, systemPrompt: string, userPrompt: string,
    workingDirectory: Option<string>, selection: AgentSelection, decisionId: string, elapsedMs: nat,
    history: seq<TaskStatus>): Run
  {
    Continue(Inputs(config, env, taskId, systemPrompt, userPrompt, workingDirectory, decisionId, elapsedMs),
             ExecutePhase(selection), history)
  }

  /** Step 2 of `process_task` and what follows it, once the agent is selected. */
  function AfterSelection(
    config: Config, env: Services, taskId: string, systemPrompt: string, userPrompt: string,
    workingDirectory: Option<string>, selection: AgentSelection, override: Option<ApprovalMode>,
    decisionId: string, elapsedMs: nat, history: seq<TaskStatus>): Run
  {
    Continue(Inputs(config, env, taskId, systemPrompt, userPrompt, workingDirectory, decisionId, elapsedMs),
             ApprovePhase(selection, override), history)
  }

  /** What `process_task` does for a task with id `taskId`, from the status assignment that
      starts its `try` block. */
  function Pipeline(
    config: Config, env: Services, taskId: string, systemPrompt: string, userPrompt: string,
    workingDirectory: Option<string>, override: Option<ApprovalMode>, decisionId: string, elapsedMs: nat): Run
  {
    Continue(Inputs(config, env, taskId, systemPrompt, userPrompt, workingDirectory, decisionId, elapsedMs),
             SelectPhase(override), [Pending, CouncilSelecting])
  }

  /** Step 1 case by case: the council's exception fails the task at once; otherwise step 2
      follows, after the call to the council. */
  lemma PipelineCases(
    config: Config, env: Services, taskId: string, systemPrompt: string, userPrompt: string,
    workingDirectory: Option<string>, override: Option<ApprovalMode>, decisionId: string, elapsedMs: nat)
    ensures var o := Pipeline(config, env, taskId, systemPrompt, userPrompt, workingDirectory, override, decisionId, elapsedMs);
            var selectCall := SelectAgentCall(userPrompt, systemPrompt, workingDirectory);
            && (env.select.Raise? ==>
                  o == Run([Pending, CouncilSelecting, Failed], FailureResult(taskId, env.select.message, elapsedMs), None,
                           [selectCall]))
            && (env.select.Ok? ==>
                  o == After([selectCall], AfterSelection(config, env, taskId, systemPrompt, userPrompt, workingDirectory,
                                                          ToSelection(env.select.value), override, decisionId, elapsedMs,
                                                          [Pending, CouncilSelecting])))
  {
    assert [Pending, CouncilSelecting] + [Failed] == [Pending, CouncilSelecting, Failed];
    if env.select.Raise? {
      var input := Inputs(config, env, taskId, systemPrompt, userPrompt, workingDirectory, decisionId, elapsedMs);
      RaisedFails(input, env.select.message, [Pending, CouncilSelecting]);
    }
  }

  /** Step 2 case by case: a mode that does not parse fails the task; AUTO goes straight to
      step 3; any other mode enters AWAITING_APPROVAL, where an exception fails the task, a
      no rejects it, and a yes goes on to step 3 after the approval calls. */
  lemma AfterSelectionCases(
    config: Config, env: Services, taskId: string, systemPrompt: string, userPrompt: string,
    workingDirectory: Option<string>, selection: AgentSelection, override: Option<ApprovalMode>,
    decisionId: string, elapsedMs: nat, history: seq<TaskStatus>)
    ensures var o := AfterSelection(config, env, taskId, systemPrompt, userPrompt, workingDirectory, selection, override,
                                    decisionId, elapsedMs, history);
            var mode := EffectiveMode(override, config.approvalMode);
            && (mode.Threw? ==> o == Run(history + [Failed], FailureResult(taskId, Text(mode.error), elapsedMs), None, []))
            && (mode == Done(Auto) ==>
                  o == ExecuteAndLog(config, env, taskId, systemPrompt, userPrompt, workingDirectory, selection, decisionId,
                                     elapsedMs, history))
            && (mode.Done? && mode.value != Auto ==>
                  var check := CheckApproval(env, userPrompt, selection, mode.value);
                  && (check.0.Raise? ==>
                        o == Run(history + [AwaitingApproval, Failed], FailureResult(taskId, check.0.message, elapsedMs), None,
                                 check.1))
                  && (check.0 == Ok(false) ==>
                        o == Run(history + [AwaitingApproval, Rejected], RejectionResult(taskId, selection.selectedAgent), None,
                                 check.1))
                  && (check.0 == Ok(true) ==>
                        o == After(check.1, ExecuteAndLog(config, env, taskId, systemPrompt, userPrompt, workingDirectory,
                                                          selection, decisionId, elapsedMs, history + [AwaitingApproval]))))
  {
    var input := Inputs(config, env, taskId, systemPrompt, userPrompt, workingDirectory, decisionId, elapsedMs);
    var awaiting := history + [AwaitingApproval];
    assert awaiting + [Failed] == history + [AwaitingApproval, Failed];
    assert awaiting + [Rejected] == history + [AwaitingApproval, Rejected];
    var mode := EffectiveMode(override, config.approvalMode);
    if mode.Threw? {
      ExceptFails(input, mode.error, history);
    } else if mode.value != Auto {
      var check := CheckApproval(env, userPrompt, selection, mode.value);
      if check.0.Raise? {
        RaisedFails(input, check.0.message, awaiting);
        assert check.1 + [] == check.1;
      }
    }
  }

  /** Steps 3 and 4 case by case: the executor's exception fails the task at once; otherwise
      the decision logger is called, and the task completes unless it raises. */
  lemma ExecuteAndLogCases(
    config: Config, env: Services, taskId: string, systemPrompt: string, userPrompt: string,
    workingDirectory: Option<string>, selection: AgentSelection, decisionId: string, elapsedMs: nat,
    history: seq<TaskStatus>)
    ensures var o := ExecuteAndLog(config, env, taskId, systemPrompt, userPrompt, workingDirectory, selection, decisionId,
                                   elapsedMs, history);
            var agent := selection.selectedAgent;
            var executed := ExecuteCall(agent, systemPrompt, userPrompt, workingDirectory);
            var logged := DecisionLogCall(LoggerEntryFor(config, taskId, selection));
            && (env.execute.Raise? ==>
                  o == Run(history + [Executing, Failed], FailureResult(taskId, env.execute.message, elapsedMs), None, [executed]))
            && (env.execute.Ok? && env.logDecision.Raise? ==>
                  o == Run(history + [Executing, Failed], FailureResult(taskId, env.logDecision.message, elapsedMs), None,
                           [executed, logged]))
            && (env.execute.Ok? && env.logDecision.Ok? ==>
                  var result := ExecutionResultOf(taskId, agent, env.execute.value);
                  o == Run(history + [Executing, Completed], result,
                           Some(DecisionFor(config, decisionId, taskId, selection, result)), [executed, logged]))
  {
    var input := Inputs(config, env, taskId, systemPrompt, userPrompt, workingDirectory, decisionId, elapsedMs);
    var executing := history + [Executing];
    assert executing + [Failed] == history + [Executing, Failed];
    assert executing + [Completed] == history + [Executing, Completed];
    if env.execute.Raise? {
      RaisedFails(input, env.execute.message, executing);
    } else if env.logDecision.Raise? {
      RaisedFails(input, env.logDecision.message, executing);
    }
    if env.execute.Ok? {
      var result := ExecutionResultOf(taskId, selection.selectedAgent, env.execute.value);
      var logging := Continue(input, LogPhase(selection, result), executing);
      assert logging.history == executing + [logging.Status()];
    }
  }

  /** The result the `except` clause builds: agent "unknown", no response, an error. */
  predicate IsFailureResult(r: ExecutionResult) {
    r.agent == UnknownAgent && r.response == "" && !r.success && r.error.Some?
  }

  /** Steps 3 and 4 keep the history so far, add to it, and end COMPLETED or FAILED; a
      decision is appended exactly when they complete. */
  lemma ExecuteAndLogShape(
    config: Config, env: Services, taskId: string, systemPrompt: string, userPrompt: string,
    workingDirectory: Option<string>, selection: AgentSelection, decisionId: string, elapsedMs: nat,
    history: seq<TaskStatus>)
    ensures var o := ExecuteAndLog(config, env, taskId, systemPrompt, userPrompt, workingDirectory, selection, decisionId,
                                   elapsedMs, history);
            && o.history == history + [Executing, o.Status()]
            && |o.history| > |history| && (forall i :: 0 <= i < |history| ==> o.history[i] == history[i])
            && (o.Status() == Completed || o.Status() == Failed)
            && o.result.taskId == taskId
            && (o.decision.Some? <==> o.Status() == Completed)
            && (o.Status() == Failed ==> IsFailureResult(o.result))
            && |o.calls| > 0 && o.calls[0] == ExecuteCall(selection.selectedAgent, systemPrompt, userPrompt, workingDirectory)
  {
    ExecuteAndLogCases(config, env, taskId, systemPrompt, userPrompt, workingDirectory, selection, decisionId, elapsedMs,
                       history);
  }

  /** Step 2 and what follows keep the history so far, add to it, and end in a terminal
      status; a decision is appended exactly when the task completes. */
  lemma AfterSelectionShape(
    config: Config, env: Services, taskId: string, systemPrompt: string, userPrompt: string,
    workingDirectory: Option<string>, selection: AgentSelection, override: Option<ApprovalMode>,
    decisionId: string, elapsedMs: nat, history: seq<TaskStatus>)
    ensures var o := AfterSelection(config, env, taskId, systemPrompt, userPrompt, workingDirectory, selection, override,
                                    decisionId, elapsedMs, history);
            && |o.history| > |history| && (forall i :: 0 <= i < |history| ==> o.history[i] == history[i])
            && IsTerminal(o.Status())
            && o.result.taskId == taskId
            && (o.decision.Some? <==> o.Status() == Completed)
            && (o.Status() == Failed ==> IsFailureResult(o.result))
  {
    AfterSelectionCases(config, env, taskId, systemPrompt, userPrompt, workingDirectory, selection, override, decisionId,
                        elapsedMs, history);
    var mode := EffectiveMode(override, config.approvalMode);
    if mode.Done? && mode.value == Auto {
      ExecuteAndLogShape(config, env, taskId, systemPrompt, userPrompt, workingDirectory, selection, decisionId, elapsedMs,
                         history);
    } else if mode.Done? {
      var awaiting := history + [AwaitingApproval];
      assert forall i :: 0 <= i < |history| ==> awaiting[i] == history[i];
      var (answer, _) := CheckApproval(env, userPrompt, selection, mode.value);
      if answer == Ok(true) {
        ExecuteAndLogShape(config, env, taskId, systemPrompt, userPrompt, workingDirectory, selection, decisionId, elapsedMs,
                           awaiting);
      }
    }
  }

  /** Every run starts PENDING, COUNCIL_SELECTING with the council asked first, and ends in a
      terminal status; the result belongs to the task; a decision is appended exactly when
      the task completes; a failure reports the agent "unknown" with an error. */
  lemma PipelineShape(
    config: Config, env: Services, taskId: string, systemPrompt: string, userPrompt: string,
    workingDirectory: Option<string>, override: Option<ApprovalMode>, decisionId: string, elapsedMs: nat)
    ensures var o := Pipeline(config, env, taskId, systemPrompt, userPrompt, workingDirectory, override, decisionId, elapsedMs);
            && |o.history| >= 3 && o.history[0] == Pending && o.history[1] == CouncilSelecting
            && IsTerminal(o.Status())
            && o.result.taskId == taskId
            && (o.decision.Some? <==> o.Status() == Completed)
            && (o.Status() == Failed ==> IsFailureResult(o.result))
            && |o.calls| > 0 && o.calls[0] == SelectAgentCall(userPrompt, systemPrompt, workingDirectory)
  {
    PipelineCases(config, env, taskId, systemPrompt, userPrompt, workingDirectory, override, decisionId, elapsedMs);
    if env.select.Ok? {
      AfterSelectionShape(config, env, taskId, systemPrompt, userPrompt, workingDirectory, ToSelection(env.select.value),
                          override, decisionId, elapsedMs, [Pending, CouncilSelecting]);
    }
  }

  predicate Executed(calls: seq<Call>) {
    exists c :: c in calls && c.ExecuteCall?
  }

  /** AWAITING_APPROVAL is entered exactly when selection succeeded and the effective mode
      is not AUTO. */
  lemma ApprovalGateEnteredIffNotAuto(
    config: Config, env: Services, taskId: string, systemPrompt: string, userPrompt: string,
    workingDirectory: Option<string>, override: Option<ApprovalMode>, decisionId: string, elapsedMs: nat)
    ensures var o := Pipeline(config, env, taskId, systemPrompt, userPrompt, workingDirectory, override, decisionId, elapsedMs);
            AwaitingApproval in o.history <==>
              env.select.Ok? && EffectiveMode(override, config.approvalMode).Done? &&
              EffectiveMode(override, config.approvalMode).value != Auto
  {
    PipelineCases(config, env, taskId, systemPrompt, userPrompt, workingDirectory, override, decisionId, elapsedMs);
    if env.select.Ok? {
      var selection := ToSelection(env.select.value);
      AfterSelectionCases(config, env, taskId, systemPrompt, userPrompt, workingDirectory, selection, override, decisionId,
                          elapsedMs, [Pending, CouncilSelecting]);
      ExecuteAndLogCases(config, env, taskId, systemPrompt, userPrompt, workingDirectory, selection, decisionId, elapsedMs,
                         [Pending, CouncilSelecting]);
      ExecuteAndLogCases(config, env, taskId, systemPrompt, userPrompt, workingDirectory, selection, decisionId, elapsedMs,
                         [Pending, CouncilSelecting] + [AwaitingApproval]);
    }
  }

  /** A rejection returns the selected agent with an empty response and no duration, never
      runs the executor and appends no decision. */
  lemma RejectionSkipsExecution(
    config: Config, env: Services, taskId: string, systemPrompt: string, userPrompt: string,
    workingDirectory: Option<string>, override: Option<ApprovalMode>, decisionId: string, elapsedMs: nat)
    ensures var o := Pipeline(config, env, taskId, systemPrompt, userPrompt, workingDirectory, override, decisionId, elapsedMs);
            o.Status() == Rejected ==>
              env.select.Ok? &&
              o.result == RejectionResult(taskId, env.select.value.selectedAgent) &&
              o.history == [Pending, CouncilSelecting, AwaitingApproval, Rejected] &&
              o.decision.None? && !Executed(o.calls) &&
              (forall c :: c in o.calls ==> !c.DecisionLogCall?)
  {
    PipelineCases(config, env, taskId, systemPrompt, userPrompt, workingDirectory, override, decisionId, elapsedMs);
    if env.select.Ok? {
      var selection := ToSelection(env.select.value);
      AfterSelectionCases(config, env, taskId, systemPrompt, userPrompt, workingDirectory, selection, override, decisionId,
                          elapsedMs, [Pending, CouncilSelecting]);
      ExecuteAndLogCases(config, env, taskId, systemPrompt, userPrompt, workingDirectory, selection, decisionId, elapsedMs,
                         [Pending, CouncilSelecting]);
      ExecuteAndLogCases(config, env, taskId, systemPrompt, userPrompt, workingDirectory, selection, decisionId, elapsedMs,
                         [Pending, CouncilSelecting] + [AwaitingApproval]);
    }
  }

  /** A failed selection ends the run at once: FAILED with the selector's message, nothing
      else called and no decision appended. */
  lemma SelectionFailureStopsEverything(
    config: Config, env: Services, taskId: string, systemPrompt: string, userPrompt: string,
    workingDirectory: Option<string>, override: Option<ApprovalMode>, decisionId: string, elapsedMs: nat)
    requires env.select.Raise?
    ensures var o := Pipeline(config, env, taskId, systemPrompt, userPrompt, workingDirectory, override, decisionId, elapsedMs);
            o.history == [Pending, CouncilSelecting, Failed] &&
            o.result == FailureResult(taskId, env.select.message, elapsedMs) &&
            o.decision.None? && o.calls == [SelectAgentCall(userPrompt, systemPrompt, workingDirectory)]
  {
    PipelineCases(config, env, taskId, systemPrompt, userPrompt, workingDirectory, override, decisionId, elapsedMs);
  }

  /** When the task completes, the result is the executor's answer for the selected agent,
      unchanged, and the one decision appended records the selection with outcome SuccessOutcome
      exactly when that answer reports success. COMPLETED is reached even when the executor
      reports `success == false`. */
  lemma CompletionCarriesExecutorResult(
    config: Config, env: Services, taskId: string, systemPrompt: string, userPrompt: string,
    workingDirectory: Option<string>, override: Option<ApprovalMode>, decisionId: string, elapsedMs: nat)
    ensures var o := Pipeline(config, env, taskId, systemPrompt, userPrompt, workingDirectory, override, decisionId, elapsedMs);
            o.Status() == Completed ==>
              env.select.Ok? &&
              var selection := ToSelection(env.select.value);
              var agent := selection.selectedAgent;
              env.execute.Ok? &&
              o.result == ExecutionResultOf(taskId, agent, env.execute.value) &&
              o.decision == Some(DecisionFor(config, decisionId, taskId, selection, o.result)) &&
              o.decision.value.outcome == Some(if o.result.success then SuccessOutcome else FailureOutcome) &&
              o.calls[|o.calls| - 1] == DecisionLogCall(LoggerEntryFor(config, taskId, selection))
  {
    PipelineCases(config, env, taskId, systemPrompt, userPrompt, workingDirectory, override, decisionId, elapsedMs);
    if env.select.Ok? {
      var selection := ToSelection(env.select.value);
      AfterSelectionCases(config, env, taskId, systemPrompt, userPrompt, workingDirectory, selection, override, decisionId,
                          elapsedMs, [Pending, CouncilSelecting]);
      ExecuteAndLogCases(config, env, taskId, systemPrompt, userPrompt, workingDirectory, selection, decisionId, elapsedMs,
                         [Pending, CouncilSelecting]);
      ExecuteAndLogCases(config, env, taskId, systemPrompt, userPrompt, workingDirectory, selection, decisionId, elapsedMs,
                         [Pending, CouncilSelecting] + [AwaitingApproval]);
    }
  }

  /** The selected agent may run: selection succeeded, the effective mode resolved, and it
      is AUTO or the approval check answered yes. */
  predicate ExecutionCleared(config: Config, env: Services, userPrompt: string, override: Option<ApprovalMode>) {
    && env.select.Ok?
    && EffectiveMode(override, config.approvalMode).Done?
    && var mode := EffectiveMode(override, config.approvalMode).value;
       (mode == Auto || CheckApproval(env, userPrompt, ToSelection(env.select.value), mode).0 == Ok(true))
  }

  /** A configured mode that names no mode fails the task with the `ValueError`'s text,
      after selection and before anything else is called. */
  lemma ModeFailureFails(
    config: Config, env: Services, taskId: string, systemPrompt: string, userPrompt: string,
    workingDirectory: Option<string>, override: Option<ApprovalMode>, decisionId: string, elapsedMs: nat)
    requires env.select.Ok? && EffectiveMode(override, config.approvalMode).Threw?
    ensures var o := Pipeline(config, env, taskId, systemPrompt, userPrompt, workingDirectory, override, decisionId, elapsedMs);
            o.history == [Pending, CouncilSelecting, Failed] &&
            o.result == FailureResult(taskId, Text(EffectiveMode(override, config.approvalMode).error), elapsedMs) &&
            o.decision.None? && o.calls == [SelectAgentCall(userPrompt, systemPrompt, workingDirectory)]
  {
    PipelineCases(config, env, taskId, systemPrompt, userPrompt, workingDirectory, override, decisionId, elapsedMs);
    AfterSelectionCases(config, env, taskId, systemPrompt, userPrompt, workingDirectory, ToSelection(env.select.value),
                        override, decisionId, elapsedMs, [Pending, CouncilSelecting]);
  }

  /** An exception anywhere in the approval check (the import, `classify_risk`,
      `requires_approval`, `create_request` or `auto_approve`) fails the task with that
      exception's text while awaiting approval; the agent is not run and no decision is
      logged. */
  lemma ApprovalFailureFails(
    config: Config, env: Services, taskId: string, systemPrompt: string, userPrompt: string,
    workingDirectory: Option<string>, override: Option<ApprovalMode>, decisionId: string, elapsedMs: nat)
    requires env.select.Ok? && EffectiveMode(override, config.approvalMode).Done?
    requires EffectiveMode(override, config.approvalMode).value != Auto
    requires CheckApproval(env, userPrompt, ToSelection(env.select.value), EffectiveMode(override, config.approvalMode).value).0.Raise?
    ensures var o := Pipeline(config, env, taskId, systemPrompt, userPrompt, workingDirectory, override, decisionId, elapsedMs);
            var check := CheckApproval(env, userPrompt, ToSelection(env.select.value), EffectiveMode(override, config.approvalMode).value);
            o.history == [Pending, CouncilSelecting, AwaitingApproval, Failed] &&
            o.result == FailureResult(taskId, check.0.message, elapsedMs) &&
            o.decision.None? && o.calls == [SelectAgentCall(userPrompt, systemPrompt, workingDirectory)] + check.1 &&
            !Executed(o.calls)
  {
    PipelineCases(config, env, taskId, systemPrompt, userPrompt, workingDirectory, override, decisionId, elapsedMs);
    AfterSelectionCases(config, env, taskId, systemPrompt, userPrompt, workingDirectory, ToSelection(env.select.value),
                        override, decisionId, elapsedMs, [Pending, CouncilSelecting]);
    var check := CheckApproval(env, userPrompt, ToSelection(env.select.value), EffectiveMode(override, config.approvalMode).value);
    assert forall c :: c in check.1 ==> !c.ExecuteCall?;
  }

  /** When the agent may run but the executor raises, the task fails with that exception's
      text, the executing status just before FAILED; the decision logger is not called. */
  lemma ExecutorFailureFails(
    config: Config, env: Services, taskId: string, systemPrompt: string, userPrompt: string,
    workingDirectory: Option<string>, override: Option<ApprovalMode>, decisionId: string, elapsedMs: nat)
    requires ExecutionCleared(config, env, userPrompt, override)
    requires env.execute.Raise?
    ensures var o := Pipeline(config, env, taskId, systemPrompt, userPrompt, workingDirectory, override, decisionId, elapsedMs);
            |o.history| >= 2 && o.history[|o.history| - 2] == Executing && o.Status() == Failed &&
            o.result == FailureResult(taskId, env.execute.message, elapsedMs) &&
            o.decision.None? && Executed(o.calls) && (forall c :: c in o.calls ==> !c.DecisionLogCall?)
  {
    PipelineCases(config, env, taskId, systemPrompt, userPrompt, workingDirectory, override, decisionId, elapsedMs);
    if env.select.Ok? {
      var selection := ToSelection(env.select.value);
      AfterSelectionCases(config, env, taskId, systemPrompt, userPrompt, workingDirectory, selection, override, decisionId,
                          elapsedMs, [Pending, CouncilSelecting]);
      ExecuteAndLogCases(config, env, taskId, systemPrompt, userPrompt, workingDirectory, selection, decisionId, elapsedMs,
                         [Pending, CouncilSelecting]);
      ExecuteAndLogCases(config, env, taskId, systemPrompt, userPrompt, workingDirectory, selection, decisionId, elapsedMs,
                         [Pending, CouncilSelecting] + [AwaitingApproval]);
    }

    var selection := ToSelection(env.select.value);
    var mode := EffectiveMode(override, config.approvalMode).value;
    var check := CheckApproval(env, userPrompt, selection, mode);
    assert forall c :: c in check.1 ==> !c.DecisionLogCall?;
    var o := Pipeline(config, env, taskId, systemPrompt, userPrompt, workingDirectory, override, decisionId, elapsedMs);
    assert o.calls[|o.calls| - 1].ExecuteCall? && o.calls[|o.calls| - 1] in o.calls;
  }

  /** When the agent ran and the decision logger raises, the task fails with that
      exception's text although the agent ran, and no local decision is recorded. */
  lemma LoggerFailureFails(
    config: Config, env: Services, taskId: string, systemPrompt: string, userPrompt: string,
    workingDirectory: Option<string>, override: Option<ApprovalMode>, decisionId: string, elapsedMs: nat)
    requires ExecutionCleared(config, env, userPrompt, override)
    requires env.execute.Ok?
    requires env.logDecision.Raise?
    ensures var o := Pipeline(config, env, taskId, systemPrompt, userPrompt, workingDirectory, override, decisionId, elapsedMs);
            var entry := LoggerEntryFor(config, taskId, ToSelection(env.select.value));
            |o.history| >= 2 && o.history[|o.history| - 2] == Executing && o.Status() == Failed &&
            o.result == FailureResult(taskId, env.logDecision.message, elapsedMs) &&
            o.decision.None? && Executed(o.calls) && o.calls[|o.calls| - 1] == DecisionLogCall(entry)
  {
    PipelineCases(config, env, taskId, systemPrompt, userPrompt, workingDirectory, override, decisionId, elapsedMs);
    if env.select.Ok? {
      var selection := ToSelection(env.select.value);
      AfterSelectionCases(config, env, taskId, systemPrompt, userPrompt, workingDirectory, selection, override, decisionId,
                          elapsedMs, [Pending, CouncilSelecting]);
      ExecuteAndLogCases(config, env, taskId, systemPrompt, userPrompt, workingDirectory, selection, decisionId, elapsedMs,
                         [Pending, CouncilSelecting]);
      ExecuteAndLogCases(config, env, taskId, systemPrompt, userPrompt, workingDirectory, selection, decisionId, elapsedMs,
                         [Pending, CouncilSelecting] + [AwaitingApproval]);
    }

    var o := Pipeline(config, env, taskId, systemPrompt, userPrompt, workingDirectory, override, decisionId, elapsedMs);
    assert o.calls[|o.calls| - 2].ExecuteCall? && o.calls[|o.calls| - 2] in o.calls;
  }

  /** Whatever the mode, once the agent may run, an executor answer of `success == false`
      still completes the task when the decision logger accepts the entry; the result
      reports the failure and the decision records the outcome FailureOutcome. */
  lemma UnsuccessfulRunStillCompletes(
    config: Config, env: Services, taskId: string, systemPrompt: string, userPrompt: string,
    workingDirectory: Option<string>, override: Option<ApprovalMode>, decisionId: string, elapsedMs: nat)
    requires ExecutionCleared(config, env, userPrompt, override)
    requires env.execute.Ok?
    requires !env.execute.value.success
    requires env.logDecision.Ok?
    ensures var o := Pipeline(config, env, taskId, systemPrompt, userPrompt, workingDirectory, override, decisionId, elapsedMs);
            var agent := env.select.value.selectedAgent;
            o.Status() == Completed && o.result == ExecutionResultOf(taskId, agent, env.execute.value) &&
            !o.result.success && o.decision.Some? && o.decision.value.outcome == Some(FailureOutcome)
  {
    PipelineCases(config, env, taskId, systemPrompt, userPrompt, workingDirectory, override, decisionId, elapsedMs);
    if env.select.Ok? {
      var selection := ToSelection(env.select.value);
      AfterSelectionCases(config, env, taskId, systemPrompt, userPrompt, workingDirectory, selection, override, decisionId,
                          elapsedMs, [Pending, CouncilSelecting]);
      ExecuteAndLogCases(config, env, taskId, systemPrompt, userPrompt, workingDirectory, selection, decisionId, elapsedMs,
                         [Pending, CouncilSelecting]);
      ExecuteAndLogCases(config, env, taskId, systemPrompt, userPrompt, workingDirectory, selection, decisionId, elapsedMs,
                         [Pending, CouncilSelecting] + [AwaitingApproval]);
    }
  }

  // ---------------------------------------------------------------------------
  // The stateful orchestrator
  // ---------------------------------------------------------------------------

  /** A submitted task; only `status` changes after creation, and only by a legal step. */
  class Task {
    const id: string
    const systemPrompt: string
    const userPrompt: string
    const workingDirectory: Option<string>
    var status: TaskStatus
    /** Every value `status` has held, in order. */
    ghost var history: seq<TaskStatus>

    /** The statuses held so far form a walk ending in the current status. */
    ghost predicate Valid()
      reads this
    {
      IsWalk(history) && status == history[|history| - 1]
    }

    constructor (id: string, systemPrompt: string, userPrompt: string, workingDirectory: Option<string>)
      ensures this.id == id && this.systemPrompt == systemPrompt && this.userPrompt == userPrompt
      ensures this.workingDirectory == workingDirectory
      ensures status == Pending && history == [Pending] && Valid()
    {
      this.id := id;
      this.systemPrompt := systemPrompt;
      this.userPrompt := userPrompt;
      this.workingDirectory := workingDirectory;
      status := Pending;
      history := [Pending];
    }

    /** `task.status = s`, which `process_task` only ever does along a legal step. */
    method SetStatus(s: TaskStatus)
      requires Valid() && Step(status, s)
      modifies this
      ensures Valid() && status == s && history == old(history) + [s]
    {
      WalkExtends(history, s);
      status := s;
      history := history + [s];
    }
  }

  class Orchestrator {
    const config: Config
    /** Every task ever created, by id; entries are never removed. */
    var tasks: map<string, Task>
    /** The local audit trail; only ever appended to. */
    var decisions: seq<Decision>
    /** The collaborator calls made so far. */
    ghost var calls: seq<Call>

    constructor (config: Config)
      ensures this.config == config && tasks == map[] && decisions == [] && calls == []
    {
      this.config := config;
      tasks := map[];
      decisions := [];
      calls := [];
    }

    /** `process_task`. `id` is the task's fresh uuid, `decisionId` the uuid a logged decision
        gets, `elapsedMs` the wall-clock time the failure path reports; `run` is what
        `Pipeline` says the call does. The new task is registered under `id`, moves only by
        legal steps and ends in a terminal status; nothing else in the registry changes, and
        decisions are only appended. */
    method ProcessTask(
      systemPrompt: string, userPrompt: string, workingDirectory: Option<string>,
      approvalMode: Option<ApprovalMode>, env: Services, id: string, decisionId: string, elapsedMs: nat)
      returns (result: ExecutionResult, ghost run: Run)
      modifies this
      ensures id in tasks && tasks == old(tasks)[id := tasks[id]]
      ensures fresh(tasks[id]) && tasks[id].id == id && tasks[id].userPrompt == userPrompt
      ensures tasks[id].systemPrompt == systemPrompt && tasks[id].workingDirectory == workingDirectory
      ensures tasks[id].Valid() && IsTerminal(tasks[id].status)
      ensures run == Pipeline(config, env, id, systemPrompt, userPrompt, workingDirectory, approvalMode, decisionId, elapsedMs)
      ensures result == run.result && tasks[id].history == run.history && tasks[id].status == run.Status()
      ensures decisions == old(decisions) + run.Appended() && calls == old(calls) + run.calls
    {
      var task := new Task(id, systemPrompt, userPrompt, workingDirectory);
      tasks := tasks[id := task];
      result, run := RunSteps(task, approvalMode, env, decisionId, elapsedMs);
      PipelineShape(config, env, id, systemPrompt, userPrompt, workingDirectory, approvalMode, decisionId, elapsedMs);
    }

    /** The `try` block of `process_task` with its `except` clause, once the task is
        registered; step 1 selects the agent through the council. */
    method RunSteps(task: Task, approvalMode: Option<ApprovalMode>, env: Services, decisionId: string, elapsedMs: nat)
      returns (result: ExecutionResult, ghost run: Run)
      requires task.Valid() && task.history == [Pending]
      modifies this, task
      ensures tasks == old(tasks) && task.Valid()
      ensures run == Pipeline(config, env, task.id, task.systemPrompt, task.userPrompt, task.workingDirectory,
                              approvalMode, decisionId, elapsedMs)
      ensures result == run.result && task.history == run.history
      ensures decisions == old(decisions) + run.Appended() && calls == old(calls) + run.calls
    {
      ghost var selectCall := [SelectAgentCall(task.userPrompt, task.systemPrompt, task.workingDirectory)];
      task.SetStatus(CouncilSelecting);
      assert task.history == [Pending, CouncilSelecting];
      calls := calls + selectCall;
      if env.select.Raise? {
        task.SetStatus(Failed);
        result := FailureResult(task.id, env.select.message, elapsedMs);
        RaisedFails(Inputs(config, env, task.id, task.systemPrompt, task.userPrompt, task.workingDirectory, decisionId, elapsedMs),
                    env.select.message, [Pending, CouncilSelecting]);
        run := Run(task.history, result, None, selectCall);
        return;
      }
      var selection := ToSelection(env.select.value);
      ghost var selected := calls;
      ghost var rest: Run;
      result, rest := ApproveAndExecute(task, selection, approvalMode, env, decisionId, elapsedMs);
      run := After(selectCall, rest);
      assert calls == selected + rest.calls;
    }

    /** Step 2 of `process_task`: the effective approval mode and, unless it is AUTO, the
        approval check; then steps 3 and 4 when the task may run. */
    method ApproveAndExecute(
      task: Task, selection: AgentSelection, approvalMode: Option<ApprovalMode>, env: Services,
      decisionId: string, elapsedMs: nat)
      returns (result: ExecutionResult, ghost run: Run)
      requires task.Valid() && task.status == CouncilSelecting
      modifies this, task
      ensures tasks == old(tasks) && task.Valid()
      ensures run == AfterSelection(config, env, task.id, task.systemPrompt, task.userPrompt, task.workingDirectory,
                                    selection, approvalMode, decisionId, elapsedMs, old(task.history))
      ensures result == run.result && task.history == run.history
      ensures decisions == old(decisions) + run.Appended() && calls == old(calls) + run.calls
    {
      run := AfterSelection(config, env, task.id, task.systemPrompt, task.userPrompt, task.workingDirectory,
                            selection, approvalMode, decisionId, elapsedMs, task.history);
      ghost var input := Inputs(config, env, task.id, task.systemPrompt, task.userPrompt, task.workingDirectory,
                                decisionId, elapsedMs);
      var mode := EffectiveMode(approvalMode, config.approvalMode);
      if mode.Threw? {
        ExceptFails(input, mode.error, task.history);
        task.SetStatus(Failed);
        result := FailureResult(task.id, Text(mode.error), elapsedMs);
        return;
      }
      if mode.value != Auto {
        task.SetStatus(AwaitingApproval);
        var check := CheckApproval(env, task.userPrompt, selection, mode.value);
        calls := calls + check.1;
        if check.0.Raise? {
          RaisedFails(input, check.0.message, task.history);
          task.SetStatus(Failed);
          result := FailureResult(task.id, check.0.message, elapsedMs);
          return;
        }
        if !check.0.value {
          task.SetStatus(Rejected);
          result := RejectionResult(task.id, selection.selectedAgent);
          return;
        }
      }
      ghost var checked := calls;
      ghost var rest: Run;
      result, rest := ExecuteStep(task, env, selection, decisionId, elapsedMs);
      assert calls == checked + rest.calls;
    }

    /** Steps 3 and 4 of `process_task`: run the agent, then log the decision. */
    method ExecuteStep(task: Task, env: Services, selection: AgentSelection, decisionId: string, elapsedMs: nat)
      returns (result: ExecutionResult, ghost run: Run)
      requires task.Valid() && (task.status == CouncilSelecting || task.status == AwaitingApproval)
      modifies this, task
      ensures tasks == old(tasks) && task.Valid()
      ensures run == ExecuteAndLog(config, env, task.id, task.systemPrompt, task.userPrompt, task.workingDirectory,
                                   selection, decisionId, elapsedMs, old(task.history))
      ensures result == run.result && task.history == run.history
      ensures decisions == old(decisions) + run.Appended() && calls == old(calls) + run.calls
    {
      run := ExecuteAndLog(config, env, task.id, task.systemPrompt, task.userPrompt, task.workingDirectory,
                           selection, decisionId, elapsedMs, task.history);
      ExecuteAndLogCases(config, env, task.id, task.systemPrompt, task.userPrompt, task.workingDirectory,
                         selection, decisionId, elapsedMs, task.history);
      task.SetStatus(Executing);
      var agent := selection.selectedAgent;
      calls := calls + [ExecuteCall(agent, task.systemPrompt, task.userPrompt, task.workingDirectory)];
      var output := env.execute;
      if output.Raise? {
        task.SetStatus(Failed);
        result := FailureResult(task.id, output.message, elapsedMs);
        return;
      }
      result := ExecutionResultOf(task.id, agent, output.value);
      var failure := LogDecision(env, task, selection, result, decisionId);
      if failure.Some? {
        task.SetStatus(Failed);
        result := FailureResult(task.id, failure.value, elapsedMs);
        return;
      }
      task.SetStatus(Completed);
    }

    /** `_log_decision`: hands the entry to the decision logger and, if that does not raise,
        appends the local decision record. */
    method LogDecision(env: Services, task: Task, selection: AgentSelection, result: ExecutionResult, decisionId: string)
      returns (failure: Option<string>)
      modifies this
      ensures tasks == old(tasks)
      ensures var entry := LoggerEntryFor(config, task.id, selection);
              && calls == old(calls) + [DecisionLogCall(entry)]
              && (failure.None? <==> env.logDecision.Ok?)
              && (failure.Some? ==> failure.value == env.logDecision.message && decisions == old(decisions))
              && (failure.None? ==> decisions == old(decisions) + [DecisionFor(config, decisionId, task.id, selection, result)])
    {
      var entry := LoggerEntryFor(config, task.id, selection);
      calls := calls + [DecisionLogCall(entry)];
      var logged := env.logDecision;
      if logged.Raise? {
        return Some(logged.message);
      }
      decisions := decisions + [DecisionFor(config, decisionId, task.id, selection, result)];
      failure := None;
    }

    /** `get_decisions(limit)`, i.e. `_decisions[-limit:]`: always a suffix of the trail,
        the last `limit` decisions for a positive limit, the whole trail for 0, and the
        trail without its first `-limit` decisions for a negative limit. */
    function GetDecisions(limit: int := 100): (r: seq<Decision>)
      reads this
      ensures |r| == if limit == 0 then |decisions|
                     else if limit > 0 then Min(limit, |decisions|)
                     else Max(0, |decisions| + limit)
      ensures r == decisions[|decisions| - |r|..]
    {
      PySuffix(decisions, -limit)
    }

    /** What `get_decisions` evidently means: the last `min(limit, n)` decisions. */
    function RecentDecisions(limit: nat): (r: seq<Decision>)
      reads this
      ensures |r| == Min(limit, |decisions|)
      ensures r == decisions[|decisions| - |r|..]
    {
      decisions[|decisions| - Min(limit, |decisions|)..]
    }

    /** `get_decisions(0)` returns the whole trail instead of no decision. */
    lemma GetDecisionsZeroReturnsAll()
      requires |decisions| > 0
      ensures GetDecisions(0) == decisions && |GetDecisions(0)| > 0
      ensures RecentDecisions(0) == []
    {
    }

    /** For every positive limit the two agree. */
    lemma GetDecisionsAgreesForPositiveLimits(limit: nat)
      requires limit > 0
      ensures GetDecisions(limit) == RecentDecisions(limit)
    {
    }
  }

  /** The module globals of orchestrator.py: the configuration and the singleton. */
  class Runtime {
    const config: Config
    var orchestrator: Orchestrator?

    constructor (config: Config)
      ensures this.config == config && orchestrator == null
    {
      this.config := config;
      orchestrator := null;
    }

    /** `get_orchestrator`: creates the instance on the first call and returns that same
        instance on every later call. */
    method GetOrchestrator() returns (o: Orchestrator)
      modifies this
      ensures old(orchestrator) != null ==> o == old(orchestrator)
      ensures old(orchestrator) == null ==>
                fresh(o) && o.config == config && o.tasks == map[] && o.decisions == [] && o.calls == []
      ensures orchestrator == o
    {
      if orchestrator == null {
        orchestrator := new Orchestrator(config);
      }
      o := orchestrator;
    }
  }
}
