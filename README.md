# A Dafny model of the GodAgent orchestration core

GodAgent takes a task (a system prompt and a user prompt) and runs it through a pipeline. An
LLM council selects the agent best suited to the task. An approval gate may ask for consent.
The selected agent then runs, and the selection is logged as a decision for audit. Beside the
pipeline sit two supporting pieces: structured logging with a per-request correlation
context, and a command-line helper that generates and installs shell completions.

The model has four modules:

- `Common` (`common.dfy`) holds the shared pieces:
  - `Option` and `Outcome`, where `Outcome` is either a value or the message of a Python exception.
  - the Python operations the three sources use, each written out: `s[:n]`, `xs[start:]`,
    `sub in s`, ASCII `str.lower()`, `sep.join`, newline-terminated text, lower-case hex
    digits and `repr` of a string.
- `Orchestration` (`orchestrator.dfy`) models `src/orchestrator.py`.
  - A `Task` is an object whose `status` changes step by step. A ghost `history` records every
    status it held, and `SetStatus` accepts only the transitions the code makes.
  - The `Orchestrator` object holds the task registry, the local decision trail and a ghost
    trace of collaborator calls.
  - `ProcessTask` creates and registers the task, then runs the steps.
  - The steps are proved against `Pipeline`, a function of the inputs and of the collaborators'
    answers. The lemmas state the properties of `Pipeline`.
  - `Pipeline` runs `Continue` through the phases of `process_task`: council selection, the
    approval gate, execution and decision logging. Every exception leads to one more phase, the
    `except` clause, which receives it as an `Error`: either an exception a collaborator raised,
    or the `ValueError` of an unknown approval mode, whose text quotes the value's `repr`.
  - The collaborators are the council selector, the approval manager, the executor and the
    decision logger. Each is given as the answer it returns or the exception it raises
    (`Services`), and the model invents none of their internals.
- `LoggingConfig` (`logging_config.dfy`) models `src/observability/logging_config.py`.
  - The six correlation slots and the `_configured` flag are fields of a `LoggingState` object.
  - An event dict is an `EventDict` object, mutated in place by the processors. Each processor
    is proved against a function on maps.
  - Trace and span ids are built from the 16 random bytes `uuid4` draws.
  - A call `logger.info(event, **fields)` or `logger.error(event, **fields)` is recorded as a `LogRecord` with its level.
- `Completions` (`completions.dfy`) models `cli/completions/generate.py`.
  - Shell detection and the fallback scripts are functions.
  - The filesystem is a `Host` object with the directories and files it holds. The environment
    is an `Env` value: `$SHELL`, the home directory, the writable directories and which paths
    raise with what text.
  - The outcome of running `lastagent` to obtain Typer's script is an input.

## Model

| member | source | states |
|---|---|---|
| Common.PySuffix | src/orchestrator.py:372 | `xs[start:]` is a suffix of `xs`. Its length is `max(0, n - start)` for a non-negative start and `min(-start, n)` for a negative one |
| Common.JoinThenNewline | cli/completions/generate.py:139-142 | newline-joined lines followed by one more newline are exactly those lines, each ended by a newline |
| Common.ReprFacts | src/orchestrator.py:188-190 | the `%r` text in the `ValueError` `ApprovalMode(value)` raises opens and closes with the same quote (double iff the value holds a single quote and no double quote), reads back as the value, and is the value between quotes when it needs no escapes |
| Orchestration.WalkMovesForward | src/orchestrator.py:183-216 | along any sequence of status assignments the code can make, the status strictly advances: none repeats, and a terminal status can only come last |
| Orchestration.WalkExtends | src/orchestrator.py:183-216 | a legal assignment appended to a legal status history gives a legal history |
| Orchestration.LastWinsFacts | src/orchestrator.py:242-243 | a dict comprehension has exactly the keys that occur, and each key keeps the value of its last occurrence |
| Orchestration.SelectionKeepsLastAnswers | src/orchestrator.py:241-251 | `votes` and `rankings` are keyed by exactly the models that answered, and a model that answered twice keeps its last answer |
| Orchestration.ParseModeInvertsValue | src/orchestrator.py:39-43 | `ApprovalMode(m.value) == m`; a string is accepted only if it is some mode's value, and any other string is refused with `<repr of it> is not a valid ApprovalMode` |
| Orchestration.EffectiveModeFacts | src/orchestrator.py:187-190 | an override wins whenever given; without one, a missing setting means AUTO, and a configured string is accepted iff it names a mode |
| Orchestration.CheckApprovalFacts | src/orchestrator.py:253-287 | the answer does not depend on the mode passed in; a failed `approvals` import raises before any approval call; a risk for which `requires_approval` says no gives True after exactly the `classify_risk` and `requires_approval` calls, with no request; "no" comes only after a request was created |
| Orchestration.OtherAgentsFacts | src/orchestrator.py:329-333 | the filtered list holds exactly the configured names other than the selected one. Its length is the list's length minus the selected name's occurrences |
| Orchestration.ConsideredFollowsOtherAgents | src/orchestrator.py:329-332 | the comprehension has one alternative per other agent, in order, scored 0.5 with the fixed reason |
| Orchestration.LoggedAlternativesAreOtherAgents | src/orchestrator.py:329-333 | the logged alternatives are the first `min(3, k)` of the k other agents, in configuration order, and never the selected agent |
| Orchestration.ExecuteAndLogShape | src/orchestrator.py:205-226 | steps 3-4 extend the history and end COMPLETED or FAILED; a decision is appended iff COMPLETED; FAILED reports agent "unknown" with an error |
| Orchestration.AfterSelectionShape | src/orchestrator.py:187-226 | step 2 onwards extends the history and ends in a terminal status, with a decision iff COMPLETED |
| Orchestration.PipelineShape | src/orchestrator.py:173-226 | every run starts PENDING, COUNCIL_SELECTING, asks the council first, and ends COMPLETED, FAILED or REJECTED; the result carries the task id; a decision is appended iff COMPLETED |
| Orchestration.ApprovalGateEnteredIffNotAuto | src/orchestrator.py:187-193 | AWAITING_APPROVAL is entered iff selection succeeded and the effective mode is not AUTO |
| Orchestration.RejectionSkipsExecution | src/orchestrator.py:191-203 | REJECTED comes only from AWAITING_APPROVAL, with history PENDING, COUNCIL_SELECTING, AWAITING_APPROVAL, REJECTED. The result is the fixed rejection; the executor and the decision logger are never called |
| Orchestration.SelectionFailureStopsEverything | src/orchestrator.py:182-185 | a failing council leaves history PENDING, COUNCIL_SELECTING, FAILED and the selector's message, and makes no other call and no decision |
| Orchestration.ModeFailureFails | src/orchestrator.py:187-226 | a configured mode naming no mode gives history PENDING, COUNCIL_SELECTING, FAILED, the `ValueError`'s text as `error`, no decision and no call after the council |
| Orchestration.ApprovalFailureFails | src/orchestrator.py:191-226 | an exception raised inside `_check_approval` (lines 264-287) by the `approvals` import, `classify_risk`, `requires_approval`, `create_request` or `auto_approve` gives history PENDING, COUNCIL_SELECTING, AWAITING_APPROVAL, FAILED, that exception's text as `error`, no decision and no executor call |
| Orchestration.ExecutorFailureFails | src/orchestrator.py:205-226 | once the agent may run, an exception from the executor gives FAILED right after EXECUTING, that exception's text as `error`, no decision and no decision-logger call |
| Orchestration.LoggerFailureFails | src/orchestrator.py:209-226 | once the agent ran, an exception from the decision logger gives FAILED right after EXECUTING, that exception's text as `error` and no local decision, although the executor was called |
| Orchestration.CompletionCarriesExecutorResult | src/orchestrator.py:205-213 | on COMPLETED the result is the executor's answer unchanged; the one decision records outcome "success" iff that answer succeeded; the logger call comes last |
| Orchestration.UnsuccessfulRunStillCompletes | src/orchestrator.py:205-216 | for any mode, once the agent may run (AUTO, or the approval check said yes), `success == false` from the executor still completes the task when the logger accepts the entry; the result is the executor's and the decision's outcome is "failure" |
| Orchestration.Task.constructor | src/orchestrator.py:61-70 | a new task holds its prompts and directory, is PENDING, and its history is just PENDING |
| Orchestration.Task.SetStatus | src/orchestrator.py:184 | a status assignment is one of the code's transitions, and the history stays a legal walk |
| Orchestration.Orchestrator.constructor | src/orchestrator.py:132-146 | a new orchestrator has no tasks, no decisions and has made no calls |
| Orchestration.Orchestrator.ProcessTask | src/orchestrator.py:148-226 | the task is registered under its fresh id and no other entry changes. It ends in a terminal status via legal steps. Result, history, appended decisions and calls are those of `Pipeline` |
| Orchestration.Orchestrator.RunSteps | src/orchestrator.py:182-226 | the `try`/`except` body does exactly what `Pipeline` says, starting from PENDING |
| Orchestration.Orchestrator.ApproveAndExecute | src/orchestrator.py:187-213 | step 2 onwards does exactly what `AfterSelection` says |
| Orchestration.Orchestrator.ExecuteStep | src/orchestrator.py:205-213 | steps 3-4 do exactly what `ExecuteAndLog` says |
| Orchestration.Orchestrator.LogDecision | src/orchestrator.py:317-360 | the decision logger receives the entry; the local decision is appended iff the logger does not raise, otherwise its message is returned |
| Orchestration.Orchestrator.GetDecisions | src/orchestrator.py:370-372 | `_decisions[-limit:]`, with `limit` 100 by default, is a suffix of the trail: the last `min(limit, n)` for a positive limit, the whole trail for 0, the trail minus its first `-limit` for a negative limit |
| Orchestration.Orchestrator.RecentDecisions | src/orchestrator.py:370-372 | the last `min(limit, n)` decisions, for every limit including 0 |
| Orchestration.Orchestrator.GetDecisionsZeroReturnsAll | src/orchestrator.py:372 | `get_decisions(0)` on a non-empty trail returns all of it, where the last 0 decisions are none |
| Orchestration.Orchestrator.GetDecisionsAgreesForPositiveLimits | src/orchestrator.py:372 | for positive limits the code and the corrected reading agree |
| Orchestration.Runtime.constructor | src/orchestrator.py:379 | no orchestrator exists before the first request |
| Orchestration.Runtime.GetOrchestrator | src/orchestrator.py:382-387 | the first call creates a fresh, empty orchestrator; every later call returns that same one |
| LoggingConfig.OverlayFacts | src/observability/logging_config.py:54-74 | a slot given a value takes it and every other slot keeps its value; repeating a call changes nothing; a call without values changes nothing |
| LoggingConfig.WithCorrelationFacts | src/observability/logging_config.py:90-118 | a correlation key is present afterwards iff it was before or its slot is truthy, and then holds the slot's text; all other keys are untouched |
| LoggingConfig.RedactedFacts | src/observability/logging_config.py:138-148 | redaction keeps the key set, replaces exactly the sensitive entries with "[REDACTED]", and is idempotent |
| LoggingConfig.SensitiveWherever | src/observability/logging_config.py:138-146 | the match is on substrings of the lower-cased key: any key in which a sensitive word occurs, in any mix of ASCII case and at any position, is sensitive |
| LoggingConfig.EventDict.Set | src/observability/logging_config.py:147 | assigning a key updates its value; a new key goes last in iteration order, an existing key keeps its place |
| LoggingConfig.AddServiceInfo | src/observability/logging_config.py:129-134 | sets `service` to "lastagent" and touches no other key; a new `service` key goes last |
| LoggingConfig.RedactSensitiveData | src/observability/logging_config.py:141-148 | the loop over a snapshot of the keys leaves exactly the redacted dict, in the same key order |
| LoggingConfig.Uuid4Layout | src/observability/logging_config.py:34-41 | the version nibble is 4 and the variant bits are binary 10 (section 4.4 of RFC 4122); every other bit is the random one |
| LoggingConfig.Hex | src/observability/logging_config.py:36 | `.hex` gives two lower-case hex digits per byte, high nibble first |
| LoggingConfig.UnhexHex | src/observability/logging_config.py:36 | decoding the hex text gives back the bytes |
| LoggingConfig.HexPrefix | src/observability/logging_config.py:36 | the first `2k` digits are the hex of the first `k` bytes |
| LoggingConfig.GenerateTraceId | src/observability/logging_config.py:34-36 | a trace id is 16 lower-case hex digits encoding the uuid's first 8 bytes; its 13th digit is the version digit 4 |
| LoggingConfig.GenerateSpanId | src/observability/logging_config.py:39-41 | a span id is 8 hex digits encoding 4 purely random bytes |
| LoggingConfig.SelectedReasoning | src/observability/logging_config.py:339 | the logged reasoning is the first `min(200, n)` characters of the input, so empty for empty input |
| LoggingConfig.DelegationPreview | src/observability/logging_config.py:384 | the logged preview is the first `min(100, n)` characters of the input |
| LoggingConfig.LoggingState.constructor | src/observability/logging_config.py:26-31 | at import every slot is `None` and logging is not configured |
| LoggingConfig.LoggingState.SetCorrelationContext | src/observability/logging_config.py:54-74 | exactly the slots given a non-`None` argument change |
| LoggingConfig.LoggingState.ClearCorrelationContext | src/observability/logging_config.py:77-84 | all six slots become `None` |
| LoggingConfig.LoggingState.SetTraceId | src/observability/logging_config.py:44-46 | only the trace-id slot changes |
| LoggingConfig.LoggingState.GetTraceId | src/observability/logging_config.py:49-51 | returns the trace-id slot |
| LoggingConfig.LoggingState.AddCorrelationContext | src/observability/logging_config.py:90-118 | the dict becomes `WithCorrelation` of the current slots and the old dict, and the correlation keys it adds follow the old keys in slot order |
| LoggingConfig.LoggingState.ConfigureLogging | src/observability/logging_config.py:166-189 | the setup runs only while the flag is clear and sets it, so a successful setup runs once; a repeated call changes nothing |
| LoggingConfig.LoggingState.GetLogger | src/observability/logging_config.py:281-285 | configures only when not yet configured; the logger is `name or "lastagent"` |
| LoggingConfig.LoggingState.LogRequestStart | src/observability/logging_config.py:291-301 | stores a fresh trace id with method and path, leaves the other slots alone, logs `request_received` at info level on "api" with `client_ip` ("unknown" by default) and returns the id it stored |
| LoggingConfig.LoggingState.LogRequestEnd | src/observability/logging_config.py:304-311 | logs `request_completed` with status and duration on "api"; the context is untouched |
| LoggingConfig.LoggingState.LogPhaseStart | src/observability/logging_config.py:314-318 | stores the phase and logs `<phase lower-cased>_started` on "orchestrator" |
| LoggingConfig.LoggingState.LogPhaseEnd | src/observability/logging_config.py:321-328 | logs `<phase lower-cased>_completed` with the duration and every extra field on "orchestrator" |
| LoggingConfig.LoggingState.LogAgentSelected | src/observability/logging_config.py:331-340 | stores the agent and logs the selection on "council" with the reasoning (empty by default) cut to 200 characters |
| LoggingConfig.LoggingState.LogAgentExecutionStart | src/observability/logging_config.py:343-347 | stores the agent and the phase "EXECUTION" and logs `execution_started` on "executor" |
| LoggingConfig.LoggingState.LogAgentExecutionEnd | src/observability/logging_config.py:350-358 | logs `execution_completed` with duration and success on "executor"; the context is untouched |
| LoggingConfig.LoggingState.LogError | src/observability/logging_config.py:361-374 | logs the event at error level with error type, message and every context field on "error" |
| LoggingConfig.LoggingState.LogDelegation | src/observability/logging_config.py:377-385 | logs `delegation_requested` on "mesh" with the preview cut to 100 characters; the context is untouched |
| Completions.DetectShellFacts | cli/completions/generate.py:16-25 | "zsh", "bash" and "fish" are each answered iff that name occurs in `SHELL` and no name checked before it does; otherwise, or without `SHELL`, there is no answer |
| Completions.ZshWinsOverBash | cli/completions/generate.py:19-22 | every `SHELL` naming zsh is taken for zsh whatever else it names, and every one naming bash but not zsh is taken for bash |
| Completions.BasicCompletionEmptyIffUnsupported | cli/completions/generate.py:87-149 | the fallback script is empty iff the shell is not zsh, bash or fish |
| Completions.FishScriptLines | cli/completions/generate.py:138-147 | the fish script is its header, then one `__fish_use_subcommand` line per command in list order, then the option lines |
| Completions.GenerateCompletionScriptFacts | cli/completions/generate.py:63-84 | a run of `lastagent` that returns gives its output, even an empty one; only an exception falls back to the built-in script |
| Completions.CompletionTargetFacts | cli/completions/generate.py:28-60 | a target exists iff the shell is supported, else `ValueError("Unsupported shell: …")`. The file is `_lastagent`, `lastagent` or `lastagent.fish`. zsh uses oh-my-zsh iff `~/.oh-my-zsh` exists, as a directory or a file; bash uses `/etc/bash_completion.d` iff it exists and is writable |
| Completions.CompletionPathFacts | cli/completions/generate.py:28-60 | the path is found iff the shell is supported and creating its directory does not raise, and it is the target directory plus the file name |
| Completions.InstallWithoutShell | cli/completions/generate.py:158-161 | with no shell given or detected, the call fails with the detection message and generates, creates and writes nothing |
| Completions.InstallWithEmptyScript | cli/completions/generate.py:163-166 | an empty script fails with "Failed to generate completion script for <shell>" and creates and writes nothing |
| Completions.InstallWithScript | cli/completions/generate.py:168-198 | with a script, success iff the path is found and writing does not raise; success writes the script there and says "Completion installed to <path>"; failure writes nothing and says "Failed to install completion: …" |
| Completions.UnsupportedShellNeverInstalls | cli/completions/generate.py:152-198 | an unsupported shell never installs: a raising run reports a failed generation, and output from `lastagent` reports the `ValueError` |
| Completions.Host.MakeDir | cli/completions/generate.py:36-57 | `mkdir(exist_ok=True)` leaves an existing directory alone; otherwise it creates the directory, with its ancestors when `parents`, or raises |
| Completions.Host.WriteText | cli/completions/generate.py:169 | `write_text` stores the text at the path or raises, changing nothing |
| Completions.Host.GetCompletionPath | cli/completions/generate.py:28-60 | returns `CompletionPath` and creates exactly the directories it names |
| Completions.Host.InstallCompletion | cli/completions/generate.py:152-198 | returns the `(success, message)` of `Install`, creates its directories and writes its file, and nothing more |

## Left out

- The collaborators imported at src/orchestrator.py:19-32 are not part of this model: the council selector, approval manager, executor, mesh coordinator, decision logger and configuration. Each one is represented only by the answer it returns or the exception it raises, so nothing is claimed about voting, risk rules, approval timeouts or delegation.
- Asynchrony is not modelled. The `await`s run one after another, and the model has no cancellation.
- The orchestrator's own `self.logger` messages are not modelled; they only produce text.
- `uuid.uuid4()` and `time.time()` are parameters of `ProcessTask`: the task id, the decision id and the elapsed milliseconds.
- `Task.metadata`, `Task.created_at` and `Decision.created_at` are left out; nothing in the core reads them.
- `get_available_agents` and `get_agent_info` are left out: they only forward to the configuration.
- `configure_logging`'s handler, formatter and processor-chain setup (lines 191-276) is only counted as one setup run. Creating the log directory is part of that setup.
- LoggingConfig.LoggingState.ConfigureLogging: the setup is taken to succeed. In the source a setup that raises (the `mkdir` of the log directory at line 193, the `RotatingFileHandler` at line 250) leaves `_configured` False, the exception escapes `get_logger` and every `log_*` call, and the next call runs the setup again; the model has no such path. `add_timestamp` (a clock read), `format_duration` (float formatting) and structlog's rendering of records are not modelled.
- Each `ContextVar` is modelled as one slot. The per-asyncio-task copy semantics of context variables are not modelled.
- Common.Lower: only ASCII letters are lower-cased. Unicode case mapping is not modelled.
- Common.Repr: characters above U+00FF are copied unescaped. Python escapes those its Unicode database calls non-printable (`\uXXXX`, `\UXXXXXXXX`); up to U+00FF the escapes are those of Python.
- `ExecutionResult.inter_agent_calls` is left out: every result the orchestrator builds leaves it empty. The `import uuid` inside `_log_decision` is taken to succeed.
- LoggingConfig.LoggingState.LogPhaseEnd: the precondition that the extra fields avoid `phase` and `duration_ms` is enforced by Python's call syntax. The model also excludes `event`; Python would raise `TypeError` for it, and that path is not modelled.
- LoggingConfig.LoggingState.LogError: as for `LogPhaseEnd`, the context may not repeat a parameter name. Python's call syntax enforces this.
- Completions.FishScriptLines: stated for a non-empty command list, which the fixed list of seven commands is. With no commands the script would keep an extra empty line.
- The `lastagent` subprocess, its environment copy and its 10-second timeout are one input: the output it printed or the exception it raised.
- Completions.Host.MakeDir: a `mkdir(parents=True)` that raises while creating an intermediate directory is modelled as a failure keyed on the target directory. Only the target is looked up in `Env.failures`. The errors an existing regular file causes (a file at the target or at one of its ancestors) also come from that table; the model does not derive them from the files the host holds.
- The `__main__` block of generate.py is left out; it only prints.
- Also left out: the re-export modules `src/observability/__init__.py` and `cli/completions/__init__.py`, the HTTP middleware and the API routes.

## Behaviour worth noting

- An exception from the executor sends the task to FAILED and logs no decision. An executor answer with `success == false` completes the task and is logged (src/orchestrator.py:205-216).
- An exception from the decision logger sends the task to FAILED, although the agent ran (src/orchestrator.py:210, 215-216).
- `_check_approval` does not pass the mode on to `requires_approval` (src/orchestrator.py:273).
- PENDING never goes straight to FAILED. COUNCIL_SELECTING is the first assignment inside the `try`, and nothing before it can raise (src/orchestrator.py:173-184).
- `get_decisions` returns the trail oldest first (src/orchestrator.py:372).
- The selected agent's name is not checked against the configuration before execution. Whatever the executor answers is what happens.

## Findings

| source | as written | input that shows it | evidently intended | confidence | as-written member | corrected member |
|---|---|---|---|---|---|---|
| src/orchestrator.py:372 | `self._decisions[-limit:]` | `get_decisions(0)` with at least one decision: `-0` is `0`, so the slice is the whole trail | `limit=0` returns no decisions, as with every other limit the last `min(limit, n)` | not executed | Orchestration.Orchestrator.GetDecisionsZeroReturnsAll | Orchestration.Orchestrator.RecentDecisions |
