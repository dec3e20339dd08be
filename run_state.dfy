/** The state a run is in, and its textual form (`RunState` and `to_string`). */
module RunStates {

  /** Exactly the six enumerators, in declaration order. */
  datatype RunState = UNKNOWN | PENDING | RUNNING | ABORTED | FAILED | SUCCESS

  /**
   * The integer the enumerator converts to (`int(r->result)` when a build
   * is stored): its position in the declaration.
   */
  function Code(rs: RunState): (c: int)
    ensures 0 <= c < 6
    ensures FromCode(c) == rs
  {
    match rs
    case UNKNOWN => 0
    case PENDING => 1
    case RUNNING => 2
    case ABORTED => 3
    case FAILED => 4
    case SUCCESS => 5
  }

  /** `RunState(i)` for an in-range code; an out-of-range code has no enumerator. */
  function FromCode(c: int): RunState
    requires 0 <= c < 6
  {
    if c == 0 then UNKNOWN
    else if c == 1 then PENDING
    else if c == 2 then RUNNING
    else if c == 3 then ABORTED
    else if c == 4 then FAILED
    else SUCCESS
  }

  /** `to_string(const RunState&)`: each named value by its lower-case name. */
  function ToString(rs: RunState): (s: string)
    ensures Parse(s) == rs
    ensures s == "unknown" <==> rs == UNKNOWN
  {
    match rs
    case PENDING => "pending"
    case RUNNING => "running"
    case ABORTED => "aborted"
    case FAILED => "failed"
    case SUCCESS => "success"
    case UNKNOWN => "unknown"
  }

  /**
   * `to_string` applied to whatever integer the enum variable holds, as
   * happens for results read back from the database: the `default:` label
   * sends every value other than the five named ones to "unknown".
   */
  function CodeToString(c: int): (s: string)
    ensures 0 <= c < 6 ==> s == ToString(FromCode(c))
    ensures !(1 <= c <= 5) <==> s == "unknown"
  {
    if c == 1 then "pending"
    else if c == 2 then "running"
    else if c == 3 then "aborted"
    else if c == 4 then "failed"
    else if c == 5 then "success"
    else "unknown"
  }

  /** Reading a state name back; the reference inverse of `ToString`. */
  function Parse(s: string): RunState {
    if s == "pending" then PENDING
    else if s == "running" then RUNNING
    else if s == "aborted" then ABORTED
    else if s == "failed" then FAILED
    else if s == "success" then SUCCESS
    else UNKNOWN
  }

  lemma ToStringInjective(a: RunState, b: RunState)
    ensures ToString(a) == ToString(b) <==> a == b
  {
    assert Parse(ToString(a)) == a;
    assert Parse(ToString(b)) == b;
  }
}
