/** The correlation context and event-dict processors of src/observability/logging_config.py.

    The six `ContextVar` slots and the `_configured` flag are module globals; they are the
    fields of one `LoggingState`. An event dict is a Python dict mutated in place by the
    processors; it is an `EventDict` object whose keys keep their insertion order. What a
    logger does with a record (the structlog processor chain, handlers, rendering) is not
    modelled: a call such as `logger.info(event, **fields)` appends a `LogRecord`. */
module LoggingConfig {
  import opened Common

  // ---------------------------------------------------------------------------
  // Values, the correlation context and log records
  // ---------------------------------------------------------------------------

  /** A value in an event dict. */
  datatype Value = Text(text: string) | Integer(integer: int) | Number(number: real) | Flag(flag: bool) | NoneValue

  /** The six correlation slots, in the order `add_correlation_context` reads them. */
  datatype Correlation = Correlation(
    traceId: Option<string>,
    spanId: Option<string>,
    requestMethod: Option<string>,
    requestPath: Option<string>,
    agentName: Option<string>,
    phase: Option<string>)

  const Cleared := Correlation(None, None, None, None, None, None)

  /** The event-dict key each slot is written under, in slot order. */
  const CorrelationKeys: seq<string> := ["trace_id", "span_id", "method", "path", "agent", "phase"]

  function Slot(c: Correlation, i: nat): Option<string>
    requires i < 6
  {
    if i == 0 then c.traceId
    else if i == 1 then c.spanId
    else if i == 2 then c.requestMethod
    else if i == 3 then c.requestPath
    else if i == 4 then c.agentName
    else c.phase
  }

  /** What `set_correlation_context` leaves in the slots: the slots given a value take it,
      every other slot keeps its old value. */
  function Overlay(c: Correlation, update: Correlation): Correlation {
    Correlation(
      if update.traceId.Some? then update.traceId else c.traceId,
      if update.spanId.Some? then update.spanId else c.spanId,
      if update.requestMethod.Some? then update.requestMethod else c.requestMethod,
      if update.requestPath.Some? then update.requestPath else c.requestPath,
      if update.agentName.Some? then update.agentName else c.agentName,
      if update.phase.Some? then update.phase else c.phase)
  }

  /** Slot by slot: a slot given a value takes it, any other slot is left as it was; setting
      the same values twice is the same as setting them once, and setting nothing changes
      nothing. */
  lemma OverlayFacts(c: Correlation, update: Correlation)
    ensures forall i :: 0 <= i < 6 ==>
              Slot(Overlay(c, update), i) == if Slot(update, i).Some? then Slot(update, i) else Slot(c, i)
    ensures Overlay(Overlay(c, update), update) == Overlay(c, update)
    ensures Overlay(c, Cleared) == c
  {
    forall i | 0 <= i < 6
      ensures Slot(Overlay(c, update), i) == if Slot(update, i).Some? then Slot(update, i) else Slot(c, i)
    {
      if i == 0 {} else if i == 1 {} else if i == 2 {} else if i == 3 {} else if i == 4 {} else {}
    }
  }

  /** Python truthiness of a slot value: set and not the empty string. */
  predicate Truthy(slot: Option<string>) {
    slot.Some? && slot.value != ""
  }

  /** The logger method a record was made by: `info` or `error`. */
  datatype Level = Info | Error

  /** A call `logger.<level>(event, **fields)` on the logger named `logger`. */
  datatype LogRecord = LogRecord(level: Level, logger: string, event: string, fields: map<string, Value>)

  // ---------------------------------------------------------------------------
  // Event dicts and the processors
  // ---------------------------------------------------------------------------

  const ServiceKey := "service"
  const ServiceName := "lastagent"
  const RedactedText := "[REDACTED]"

  /** `SENSITIVE_FIELDS` */
  const SensitiveFields: set<string> := {"password", "api_key", "token", "secret", "authorization"}

  /** `any(s in key.lower() for s in SENSITIVE_FIELDS)` */
  predicate IsSensitive(key: string) {
    exists field :: field in SensitiveFields && Contains(Lower(key), field)
  }

  /** `event_dict[key] = Text(slot)` when the slot is truthy. */
  function Put(m: map<string, Value>, key: string, slot: Option<string>): map<string, Value> {
    if Truthy(slot) then m[key := Text(slot.value)] else m
  }

  /** The dict `add_correlation_context` leaves behind. */
  function WithCorrelation(c: Correlation, m: map<string, Value>): map<string, Value> {
    Put(Put(Put(Put(Put(Put(m, "trace_id", c.traceId), "span_id", c.spanId), "method", c.requestMethod),
            "path", c.requestPath), "agent", c.agentName), "phase", c.phase)
  }

  /** A correlation key appears afterwards exactly when it was there before or its slot is
      truthy, and then holds the slot's value; every other entry is left unchanged. */
  lemma WithCorrelationFacts(c: Correlation, m: map<string, Value>)
    ensures forall k :: k !in CorrelationKeys ==>
              (k in WithCorrelation(c, m) <==> k in m) &&
              (k in m ==> WithCorrelation(c, m)[k] == m[k])
    ensures forall i :: 0 <= i < 6 ==>
              (CorrelationKeys[i] in WithCorrelation(c, m) <==> CorrelationKeys[i] in m || Truthy(Slot(c, i)))
    ensures forall i :: 0 <= i < 6 && Truthy(Slot(c, i)) ==>
              WithCorrelation(c, m)[CorrelationKeys[i]] == Text(Slot(c, i).value)
    ensures forall i :: 0 <= i < 6 && !Truthy(Slot(c, i)) && CorrelationKeys[i] in m ==>
              WithCorrelation(c, m)[CorrelationKeys[i]] == m[CorrelationKeys[i]]
  {
    forall i | 0 <= i < 6
      ensures CorrelationKeys[i] in WithCorrelation(c, m) <==> CorrelationKeys[i] in m || Truthy(Slot(c, i))
      ensures Truthy(Slot(c, i)) ==> WithCorrelation(c, m)[CorrelationKeys[i]] == Text(Slot(c, i).value)
      ensures !Truthy(Slot(c, i)) && CorrelationKeys[i] in m ==>
                WithCorrelation(c, m)[CorrelationKeys[i]] == m[CorrelationKeys[i]]
    {
      if i == 0 {} else if i == 1 {} else if i == 2 {} else if i == 3 {} else if i == 4 {} else {}
    }
  }

  /** The key order after `event_dict[key] = ...` when the slot is truthy: a new key goes last. */
  function PutKey(keys: seq<string>, key: string, slot: Option<string>): seq<string> {
    if Truthy(slot) && key !in keys then keys + [key] else keys
  }

  /** The key order `add_correlation_context` leaves behind: the new correlation keys follow
      the old keys, in slot order. */
  function WithCorrelationKeys(c: Correlation, keys: seq<string>): seq<string> {
    PutKey(PutKey(PutKey(PutKey(PutKey(PutKey(keys, "trace_id", c.traceId), "span_id", c.spanId), "method", c.requestMethod),
                  "path", c.requestPath), "agent", c.agentName), "phase", c.phase)
  }

  /** The dict `redact_sensitive_data` leaves behind. */
  function Redacted(m: map<string, Value>): map<string, Value> {
    map k | k in m :: if IsSensitive(k) then Text(RedactedText) else m[k]
  }

  /** `Redacted` applied only to the keys in `done`. */
  function RedactedAmong(m: map<string, Value>, done: set<string>): map<string, Value> {
    map k | k in m :: if k in done && IsSensitive(k) then Text(RedactedText) else m[k]
  }

  /** Taking one more key of the dict into `done` redacts that key's entry if, and only if,
      the key is sensitive. */
  lemma RedactStep(m: map<string, Value>, done: set<string>, key: string)
    requires key in m
    ensures RedactedAmong(m, done + {key}) ==
              if IsSensitive(key) then RedactedAmong(m, done)[key := Text(RedactedText)] else RedactedAmong(m, done)
  {
  }

  /** Once `done` covers every key, the dict is the redacted dict. */
  lemma RedactedAmongAll(m: map<string, Value>, done: set<string>)
    requires m.Keys <= done
    ensures RedactedAmong(m, done) == Redacted(m)
  {
  }

  /** Redaction keeps the keys, replaces exactly the sensitive entries, and a second pass
      changes nothing. */
  lemma RedactedFacts(m: map<string, Value>)
    ensures Redacted(m).Keys == m.Keys
    ensures forall k :: k in m && !IsSensitive(k) ==> Redacted(m)[k] == m[k]
    ensures forall k :: k in m && IsSensitive(k) ==> Redacted(m)[k] == Text(RedactedText)
    ensures Redacted(Redacted(m)) == Redacted(m)
  {
  }

  /** Lower-casing works character by character. */
  lemma LowerConcat(a: string, b: string)
    ensures Lower(a + b) == Lower(a) + Lower(b)
  {
  }

  /** The match is on substrings of the lower-cased key: a key is sensitive as soon as a
      sensitive word, written in any mix of upper and lower case, occurs anywhere in it
      (`OPENAI_API_KEY`, `max_tokens`). */
  lemma SensitiveWherever(prefix: string, word: string, suffix: string)
    requires Lower(word) in SensitiveFields
    ensures IsSensitive(prefix + word + suffix)
  {
    LowerConcat(prefix + word, suffix);
    LowerConcat(prefix, word);
    var key := Lower(prefix + word + suffix);
    assert key[|prefix|..|prefix| + |word|] == Lower(word);
    assert OccursAt(key, Lower(word), |prefix|);
  }

  /** A Python dict from strings to values, mutated in place; `keys` is its iteration order. */
  class EventDict {
    var keys: seq<string>
    var entries: map<string, Value>

    ghost predicate Valid()
      reads this
    {
      (forall i, j :: 0 <= i < j < |keys| ==> keys[i] != keys[j]) &&
      (forall k :: k in entries <==> k in keys)
    }

    constructor ()
      ensures Valid() && keys == [] && entries == map[]
    {
      keys := [];
      entries := map[];
    }

    /** `self[key] = value`: a new key goes last, an existing key keeps its place. */
    method Set(key: string, value: Value)
      requires Valid()
      modifies this
      ensures Valid()
      ensures entries == old(entries)[key := value]
      ensures keys == if key in old(entries) then old(keys) else old(keys) + [key]
    {
      if key !in entries {
        keys := keys + [key];
      }
      entries := entries[key := value];
    }
  }

  /** `add_service_info`: sets `service` to "lastagent" and touches no other key; a new
      `service` key goes last. */
  method AddServiceInfo(ev: EventDict) returns (r: EventDict)
    requires ev.Valid()
    modifies ev
    ensures r == ev && ev.Valid()
    ensures ev.entries == old(ev.entries)[ServiceKey := Text(ServiceName)]
    ensures ev.keys == if ServiceKey in old(ev.keys) then old(ev.keys) else old(ev.keys) + [ServiceKey]
  {
    ev.Set(ServiceKey, Text(ServiceName));
    r := ev;
  }

  /** `if slot: event_dict[key] = slot` */
  method PutSlot(ev: EventDict, key: string, slot: Option<string>)
    requires ev.Valid()
    modifies ev
    ensures ev.Valid()
    ensures ev.entries == Put(old(ev.entries), key, slot) && ev.keys == PutKey(old(ev.keys), key, slot)
  {
    if Truthy(slot) {
      ev.Set(key, Text(slot.value));
    }
  }

  /** `redact_sensitive_data`: walks a snapshot of the keys and overwrites each sensitive
      entry; no key is added, removed or moved. */
  method RedactSensitiveData(ev: EventDict) returns (r: EventDict)
    requires ev.Valid()
    modifies ev
    ensures r == ev && ev.Valid()
    ensures ev.keys == old(ev.keys)
    ensures ev.entries == Redacted(old(ev.entries))
  {
    var keys := ev.keys;
    ghost var done: set<string> := {};
    var i := 0;
    while i < |keys|
      invariant 0 <= i <= |keys|
      invariant ev.keys == keys
      invariant forall j :: 0 <= j < i ==> keys[j] in done
      invariant ev.entries == RedactedAmong(old(ev.entries), done)
    {
      var key := keys[i];
      RedactStep(old(ev.entries), done, key);
      if IsSensitive(key) {
        ev.entries := ev.entries[key := Text(RedactedText)];
      }
      done := done + {key};
      i := i + 1;
    }
    RedactedAmongAll(old(ev.entries), done);
    r := ev;
  }

  // ---------------------------------------------------------------------------
  // Trace and span ids
  // ---------------------------------------------------------------------------

  newtype byte = x: int | 0 <= x < 256

  /** `uuid.uuid4()` from the 16 random bytes it draws: the version nibble of byte 6 is set
      to 4 and the two variant bits of byte 8 to 10, as section 4.4 of RFC 4122 prescribes.
      With the nibble cleared, `| 0x40` is an addition of 64; likewise `| 0x80` for byte 8. */
  function Uuid4(random: seq<byte>): (u: seq<byte>)
    requires |random| == 16
  {
    random[6 := 0x40 + random[6] % 0x10][8 := 0x80 + random[8] % 0x40]
  }

  /** The version and variant fields read 4 and binary 10, the rest of byte 6 and byte 8 and
      every other byte are the random ones. */
  lemma Uuid4Layout(random: seq<byte>)
    requires |random| == 16
    ensures |Uuid4(random)| == 16
    ensures Uuid4(random)[6] / 16 == 4 && Uuid4(random)[6] % 16 == random[6] % 16
    ensures Uuid4(random)[8] / 64 == 2 && Uuid4(random)[8] % 64 == random[8] % 64
    ensures forall i :: 0 <= i < 16 && i != 6 && i != 8 ==> Uuid4(random)[i] == random[i]
  {
  }

  /** `bytes.hex()`: two lower-case digits per byte, high nibble first. */
  function Hex(bytes: seq<byte>): (r: string)
    ensures |r| == 2 * |bytes|
    ensures forall i :: 0 <= i < |r| ==> IsLowerHex(r[i])
    ensures forall i :: 0 <= i < |bytes| ==>
              r[2 * i] == HexDigit(bytes[i] as int / 16) && r[2 * i + 1] == HexDigit(bytes[i] as int % 16)
  {
    if bytes == [] then ""
    else [HexDigit(bytes[0] as int / 16), HexDigit(bytes[0] as int % 16)] + Hex(bytes[1..])
  }

  /** `bytes.fromhex(s)` on lower-case digits. */
  function Unhex(s: string): seq<byte>
    requires |s| % 2 == 0 && forall i :: 0 <= i < |s| ==> IsLowerHex(s[i])
  {
    if s == [] then [] else [(HexValue(s[0]) * 16 + HexValue(s[1])) as byte] + Unhex(s[2..])
  }

  /** Hex encoding loses nothing: decoding it gives the bytes back. */
  lemma {:induction false} UnhexHex(bytes: seq<byte>)
    ensures Unhex(Hex(bytes)) == bytes
  {
    if bytes != [] {
      var h := Hex(bytes);
      var b := bytes[0] as int;
      HexValueOfDigit(b / 16);
      HexValueOfDigit(b % 16);
      assert h[2..] == Hex(bytes[1..]);
      UnhexHex(bytes[1..]);
      assert (HexValue(h[0]) * 16 + HexValue(h[1])) as byte == bytes[0];
    }
  }

  /** The first `2 * n` hex digits are the digits of the first `n` bytes. */
  lemma {:induction false} HexPrefix(bytes: seq<byte>, n: nat)
    requires n <= |bytes|
    ensures Take(Hex(bytes), 2 * n) == Hex(bytes[..n])
  {
    if n > 0 {
      HexPrefix(bytes[1..], n - 1);
      assert bytes[1..][..n - 1] == bytes[..n][1..];
    }
  }

  /** `uuid.uuid4().hex[:16]`: sixteen lower-case hex digits, the hex of the uuid's first
      eight bytes, whose thirteenth digit is the version digit 4. */
  function GenerateTraceId(random: seq<byte>): (r: string)
    requires |random| == 16
    ensures |r| == 16
    ensures forall i :: 0 <= i < 16 ==> IsLowerHex(r[i])
    ensures r[12] == '4'
    ensures Unhex(r) == Uuid4(random)[..8]
  {
    Uuid4Layout(random);
    var u := Uuid4(random);
    HexPrefix(u, 8);
    UnhexHex(u[..8]);
    assert Hex(u[..8])[2 * 6] == HexDigit(u[6] as int / 16);
    Take(Hex(u), 16)
  }

  /** `uuid.uuid4().hex[:8]`: eight hex digits of random bytes untouched by the version and
      variant bits. */
  function GenerateSpanId(random: seq<byte>): (r: string)
    requires |random| == 16
    ensures |r| == 8
    ensures forall i :: 0 <= i < 8 ==> IsLowerHex(r[i])
    ensures Unhex(r) == random[..4]
  {
    Uuid4Layout(random);
    var u := Uuid4(random);
    HexPrefix(u, 4);
    UnhexHex(u[..4]);
    assert u[..4] == random[..4];
    Take(Hex(u), 8)
  }

  // ---------------------------------------------------------------------------
  // The module state
  // ---------------------------------------------------------------------------

  const DefaultLoggerName := "lastagent"

  /** `name or "lastagent"` */
  function LoggerName(name: Option<string>): string {
    if Truthy(name) then name.value else DefaultLoggerName
  }

  /** How `log_agent_selected` passes the reasoning on: at most its first 200 characters. */
  function SelectedReasoning(reasoning: string): (r: string)
    ensures |r| == Min(200, |reasoning|) && StartsWith(reasoning, r)
  {
    if reasoning != "" then Take(reasoning, 200) else ""
  }

  /** How `log_delegation` passes the task preview on: at most its first 100 characters. */
  function DelegationPreview(taskPreview: string): (r: string)
    ensures |r| == Min(100, |taskPreview|) && StartsWith(taskPreview, r)
  {
    Take(taskPreview, 100)
  }

  /** The module globals: the six correlation slots, the `_configured` flag and the records
      handed to loggers. `setups` counts how often the body of `configure_logging` ran. */
  class LoggingState {
    var traceId: Option<string>
    var spanId: Option<string>
    var requestMethod: Option<string>
    var requestPath: Option<string>
    var agentName: Option<string>
    var phase: Option<string>
    var configured: bool
    var records: seq<LogRecord>
    ghost var setups: nat

    /** Setup has run once if the flag is set, and not at all otherwise. */
    ghost predicate Valid()
      reads this
    {
      setups == if configured then 1 else 0
    }

    function Context(): Correlation
      reads this
    {
      Correlation(traceId, spanId, requestMethod, requestPath, agentName, phase)
    }

    /** The state at import time: every slot `None`, not configured. */
    constructor ()
      ensures Valid() && Context() == Cleared && !configured && records == []
    {
      traceId, spanId, requestMethod, requestPath, agentName, phase := None, None, None, None, None, None;
      configured := false;
      records := [];
      setups := 0;
    }

    /** `set_correlation_context`: each slot whose argument is not `None` takes it; the
        others keep their values. */
    method SetCorrelationContext(
      traceId': Option<string>, spanId': Option<string>, requestMethod': Option<string>,
      requestPath': Option<string>, agentName': Option<string>, phase': Option<string>)
      modifies this
      ensures Context() == Overlay(old(Context()), Correlation(traceId', spanId', requestMethod', requestPath', agentName', phase'))
      ensures configured == old(configured) && records == old(records) && setups == old(setups)
    {
      if traceId'.Some? { traceId := traceId'; }
      if spanId'.Some? { spanId := spanId'; }
      if requestMethod'.Some? { requestMethod := requestMethod'; }
      if requestPath'.Some? { requestPath := requestPath'; }
      if agentName'.Some? { agentName := agentName'; }
      if phase'.Some? { phase := phase'; }
    }

    /** `clear_correlation_context`: all six slots become `None`. */
    method ClearCorrelationContext()
      modifies this
      ensures Context() == Cleared
      ensures configured == old(configured) && records == old(records) && setups == old(setups)
    {
      traceId, spanId, requestMethod, requestPath, agentName, phase := None, None, None, None, None, None;
    }

    /** `set_trace_id` */
    method SetTraceId(id: string)
      modifies this
      ensures Context() == old(Context()).(traceId := Some(id))
      ensures configured == old(configured) && records == old(records) && setups == old(setups)
    {
      traceId := Some(id);
    }

    /** `get_trace_id` */
    method GetTraceId() returns (id: Option<string>)
      ensures id == traceId
    {
      id := traceId;
    }

    /** `add_correlation_context`: each truthy slot is written under its key, in slot order;
        nothing else in the dict changes. */
    method AddCorrelationContext(ev: EventDict) returns (r: EventDict)
      requires ev.Valid()
      modifies ev
      ensures r == ev && ev.Valid()
      ensures ev.entries == WithCorrelation(Context(), old(ev.entries))
      ensures ev.keys == WithCorrelationKeys(Context(), old(ev.keys))
    {
      PutSlot(ev, "trace_id", traceId);
      PutSlot(ev, "span_id", spanId);
      PutSlot(ev, "method", requestMethod);
      PutSlot(ev, "path", requestPath);
      PutSlot(ev, "agent", agentName);
      PutSlot(ev, "phase", phase);
      r := ev;
    }

    /** `configure_logging`: the setup runs only when the flag is clear, and sets it. */
    method ConfigureLogging()
      requires Valid()
      modifies this
      ensures Valid() && configured && setups == 1
      ensures old(configured) ==> setups == old(setups)
      ensures Context() == old(Context()) && records == old(records)
    {
      if configured {
        return;
      }
      setups := setups + 1;
      configured := true;
    }

    /** `get_logger(name)`: configures logging if that has not happened yet, and names the
        logger `name or "lastagent"`. */
    method GetLogger(name: Option<string>) returns (logger: string)
      requires Valid()
      modifies this
      ensures Valid() && configured && setups == 1
      ensures old(configured) ==> setups == old(setups)
      ensures logger == LoggerName(name) && logger != ""
      ensures Context() == old(Context()) && records == old(records)
    {
      if !configured {
        ConfigureLogging();
      }
      logger := LoggerName(name);
    }

    /** `log_request_start`: stores a fresh trace id with the method and path, logs the
        request on the "api" logger and returns the id it stored. */
    method LogRequestStart(random: seq<byte>, requestMethod': string, requestPath': string, clientIp: string := "unknown")
      returns (id: string)
      requires Valid() && |random| == 16
      modifies this
      ensures Valid() && configured
      ensures id == GenerateTraceId(random)
      ensures traceId == Some(id) && requestMethod == Some(requestMethod') && requestPath == Some(requestPath')
      ensures spanId == old(spanId) && agentName == old(agentName) && phase == old(phase)
      ensures records == old(records) + [LogRecord(Info, "api", "request_received", map["client_ip" := Text(clientIp)])]
    {
      id := GenerateTraceId(random);
      SetCorrelationContext(Some(id), None, Some(requestMethod'), Some(requestPath'), None, None);
      var logger := GetLogger(Some("api"));
      records := records + [LogRecord(Info, logger, "request_received", map["client_ip" := Text(clientIp)])];
    }

    /** `log_request_end`: logs the completion on the "api" logger; the context is not
        touched. */
    method LogRequestEnd(statusCode: int, durationMs: real)
      requires Valid()
      modifies this
      ensures Valid() && configured
      ensures Context() == old(Context())
      ensures records == old(records) + [LogRecord(Info, "api", "request_completed",
                map["status_code" := Integer(statusCode), "duration_ms" := Number(durationMs)])]
    {
      var logger := GetLogger(Some("api"));
      records := records + [LogRecord(Info, logger, "request_completed",
                             map["status_code" := Integer(statusCode), "duration_ms" := Number(durationMs)])];
    }

    /** `log_phase_start`: stores the phase and logs `<phase in lower case>_started` on the
        "orchestrator" logger. */
    method LogPhaseStart(phase': string)
      requires Valid()
      modifies this
      ensures Valid() && configured
      ensures Context() == old(Context()).(phase := Some(phase'))
      ensures records == old(records) + [LogRecord(Info, "orchestrator", Lower(phase') + "_started", map[])]
    {
      SetCorrelationContext(None, None, None, None, None, Some(phase'));
      var logger := GetLogger(Some("orchestrator"));
      records := records + [LogRecord(Info, logger, Lower(phase') + "_started", map[])];
    }

    /** `log_phase_end`: logs `<phase in lower case>_completed` with the duration and the
        extra keyword fields on the "orchestrator" logger. Python's call syntax keeps the
        extra fields from reusing a parameter name or the logger's `event` argument. */
    method LogPhaseEnd(phase': string, durationMs: real, extra: map<string, Value>)
      requires Valid()
      requires "phase" !in extra && "duration_ms" !in extra && "event" !in extra
      modifies this
      ensures Valid() && configured
      ensures Context() == old(Context())
      ensures |records| == |old(records)| + 1 && records[..|old(records)|] == old(records)
      ensures var r := records[|old(records)|];
              r.level == Info && r.logger == "orchestrator" && r.event == Lower(phase') + "_completed" &&
              r.fields.Keys == extra.Keys + {"duration_ms"} && r.fields["duration_ms"] == Number(durationMs) &&
              forall k :: k in extra ==> r.fields[k] == extra[k]
    {
      var logger := GetLogger(Some("orchestrator"));
      records := records + [LogRecord(Info, logger, Lower(phase') + "_completed", map["duration_ms" := Number(durationMs)] + extra)];
    }

    /** `log_agent_selected`: stores the agent and logs the selection on the "council"
        logger with the reasoning cut to 200 characters. */
    method LogAgentSelected(agent: string, durationMs: real, reasoning: string := "")
      requires Valid()
      modifies this
      ensures Valid() && configured
      ensures Context() == old(Context()).(agentName := Some(agent))
      ensures records == old(records) + [LogRecord(Info, "council", "agent_selected",
                map["selected_agent" := Text(agent), "duration_ms" := Number(durationMs),
                    "reasoning" := Text(SelectedReasoning(reasoning))])]
    {
      SetCorrelationContext(None, None, None, None, Some(agent), None);
      var logger := GetLogger(Some("council"));
      var fields := map["selected_agent" := Text(agent), "duration_ms" := Number(durationMs),
                        "reasoning" := Text(if reasoning != "" then Take(reasoning, 200) else "")];
      records := records + [LogRecord(Info, logger, "agent_selected", fields)];
    }

    /** `log_agent_execution_start`: stores the agent and the phase "EXECUTION" and logs the
        start on the "executor" logger. */
    method LogAgentExecutionStart(agent: string)
      requires Valid()
      modifies this
      ensures Valid() && configured
      ensures Context() == old(Context()).(agentName := Some(agent), phase := Some("EXECUTION"))
      ensures records == old(records) + [LogRecord(Info, "executor", "execution_started", map["executing_agent" := Text(agent)])]
    {
      SetCorrelationContext(None, None, None, None, Some(agent), Some("EXECUTION"));
      var logger := GetLogger(Some("executor"));
      records := records + [LogRecord(Info, logger, "execution_started", map["executing_agent" := Text(agent)])];
    }

    /** `log_agent_execution_end`: logs the completion on the "executor" logger; the context
        is not touched. */
    method LogAgentExecutionEnd(agent: string, durationMs: real, success: bool)
      requires Valid()
      modifies this
      ensures Valid() && configured
      ensures Context() == old(Context())
      ensures records == old(records) + [LogRecord(Info, "executor", "execution_completed",
                map["executing_agent" := Text(agent), "duration_ms" := Number(durationMs), "success" := Flag(success)])]
    {
      var logger := GetLogger(Some("executor"));
      records := records + [LogRecord(Info, logger, "execution_completed",
                             map["executing_agent" := Text(agent), "duration_ms" := Number(durationMs), "success" := Flag(success)])];
    }

    /** `log_error`: logs `event` with the error type and message and the extra context on the
        "error" logger. Python's call syntax keeps the context from reusing a parameter name. */
    method LogError(event: string, errorType: string, errorMessage: string, context: map<string, Value>)
      requires Valid()
      requires "event" !in context && "error_type" !in context && "error_message" !in context
      modifies this
      ensures Valid() && configured
      ensures Context() == old(Context())
      ensures |records| == |old(records)| + 1 && records[..|old(records)|] == old(records)
      ensures var r := records[|old(records)|];
              r.level == Error && r.logger == "error" && r.event == event &&
              r.fields.Keys == context.Keys + {"error_type", "error_message"} &&
              r.fields["error_type"] == Text(errorType) && r.fields["error_message"] == Text(errorMessage) &&
              forall k :: k in context ==> r.fields[k] == context[k]
    {
      var logger := GetLogger(Some("error"));
      records := records + [LogRecord(Error, logger, event,
                             map["error_type" := Text(errorType), "error_message" := Text(errorMessage)] + context)];
    }

    /** `log_delegation`: logs the delegation on the "mesh" logger with the task preview cut
        to 100 characters; the context is not touched. */
    method LogDelegation(fromAgent: string, toAgent: string, taskPreview: string)
      requires Valid()
      modifies this
      ensures Valid() && configured
      ensures Context() == old(Context())
      ensures records == old(records) + [LogRecord(Info, "mesh", "delegation_requested",
                map["from_agent" := Text(fromAgent), "to_agent" := Text(toAgent),
                    "task_preview" := Text(DelegationPreview(taskPreview))])]
    {
      var logger := GetLogger(Some("mesh"));
      var fields := map["from_agent" := Text(fromAgent), "to_agent" := Text(toAgent),
                        "task_preview" := Text(Take(taskPreview, 100))];
      records := records + [LogRecord(Info, logger, "delegation_requested", fields)];
    }
  }
}
