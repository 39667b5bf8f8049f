/** The JSON values that ledgers, transcripts and commitments are made of, with the
    Python operations the verifiers apply to them. */
module Json {

  /** Member names the code spells out; `Other` is every name it does not. */
  datatype Key =
    | Index | Kind | PreviousHash | PayloadSha256 | Payload | EntryHash
    | Format | RootSha256 | EntryCount | Entries
    | AgentTaskViewSha256 | HostTaskCommitment
    | Phase | Observations | ObservationsSha256 | ObservationFrontierSha256
    | Decision | Action | DecisionEntryHash | Done | AcceptedCandidate | CandidateSha256
    | TerminalReason | SemanticValid | ProvenanceValid | BudgetExhausted | CausedByDecisionEntryHash
    | SessionId | Turn | TrajectorySha256 | Attempt | Closed
    | ObservationId | SourceLineageRoot | CheckId | ProbeId | AttemptId | SequenceIndex | LogicalTick
    | ObservationType | Status | Value | Cost | RawPayloadRef
    | Other(name: string)

  /** Strings the code compares with. */
  datatype Word =
    | LEDGER_FORMAT | TRANSCRIPT_FORMAT
    | EPISODE_START | OBSERVATION_BATCH | DECISION | ACTION_RESULT | TERMINAL
    | AGENT_START | AGENT_DECISION | AGENT_GENERATION | AGENT_CLOSE
    | SELECT | DEFER_TIE | DEFER_NO_SUPPORT | DEFER_NO_ADMISSIBLE | CALL_GENERATIVE
    | ENVIRONMENT_DONE | TOOL_COST_BUDGET_EXHAUSTED | STEP_BUDGET_EXHAUSTED | GENERATIVE_BUDGET_EXHAUSTED
    | GENERATOR_UNAVAILABLE | ACTION_UNSUPPORTED | INVALID_POLICY_ACTION
    | RESET

  /** A JSON string is `Fixed(w)` when it is one of those spellings and `Str(s)` when it is
      any other text. */
  datatype Json =
    | Null
    | Bool(b: bool)
    | Int(n: int)
    | Real(r: real)
    | Fixed(word: Word)
    | Str(s: string)
    | Arr(items: seq<Json>)
    | Obj(fields: map<Key, Json>)
  {
    /** `isinstance(value, str)` */
    predicate IsString() {
      Fixed? || Str?
    }
  }

  type Object = map<Key, Json>

  /** `sha256_json`: canonical text followed by SHA-256, left uninterpreted. */
  type Hasher = Json -> string

  datatype Option<+T> = None | Some(value: T)

  /** `dict.get(key)`: an absent member and a null member look the same. */
  function Get(o: Object, key: Key): Json {
    if key in o then o[key] else Null
  }

  function Fields(v: Json): Object {
    if v.Obj? then v.fields else map[]
  }

  /** Python's `==` between a decoded value and an int: `True` is 1 and 1.0 is 1. */
  predicate EqualsInt(v: Json, n: int) {
    match v
    case Int(m) => m == n
    case Real(r) => r == n as real
    case Bool(b) => n == (if b then 1 else 0)
    case _ => false
  }

  /** Python's `==` between a decoded value and a bool. */
  predicate EqualsBool(v: Json, b: bool) {
    EqualsInt(v, if b then 1 else 0)
  }

  function OptionalStr(s: Option<string>): Json {
    if s.Some? then Str(s.value) else Null
  }

  function StrList(items: seq<string>): Json {
    Arr(seq(|items|, i requires 0 <= i < |items| => Str(items[i])))
  }

  /** No two of these values share a digest. Only values that were hashed are ever meant, so a real
      digest function can satisfy it. */
  ghost predicate NoCollisionAmong(h: Hasher, values: set<Json>) {
    forall a, b :: a in values && b in values && h(a) == h(b) ==> a == b
  }

  predicate HexDigit(c: char) {
    '0' <= c <= '9' || 'a' <= c <= 'f'
  }

  /** `_is_sha256`: 64 lower-case hexadecimal digits. */
  predicate IsSha256(s: string) {
    |s| == 64 && forall i :: 0 <= i < |s| ==> HexDigit(s[i])
  }
}
