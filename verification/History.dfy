/**
 * Reading a connection's log.  Stage is a reference automaton for the half-duplex protocol, written
 * without reference to the connection's fields: recv until a message completes, handle it, respond,
 * report completion, and only then recv again.
 */
module History {
  import opened Common
  import opened AsyncTypes

  datatype Stage = Reading | Pending(request: Msg) | Answering | Writing

  function Next(s: Stage, a: Act): Option<Stage> {
    match s
    case Reading =>
      if a.Recv? then Some(if a.completed == [] then Reading else Pending(a.completed[|a.completed| - 1])) else None
    case Pending(m) => if a == Handle(m) then Some(Answering) else None
    case Answering => if a.Respond? then Some(Writing) else None
    case Writing => if a.Done? then Some(Reading) else None
  }

  /** The stage after a log, or None for a log the protocol does not allow. */
  function StageOf(log: Log): Option<Stage> {
    match log
    case Start => Some(Reading)
    case Snoc(before, a) =>
      var s := StageOf(before);
      if s.None? then None else Next(s.value, a)
  }

  function Parsed(log: Log): seq<Msg> {
    match log
    case Start => []
    case Snoc(before, a) => Parsed(before) + (if a.Recv? then a.completed else [])
  }

  function Handled(log: Log): seq<Msg> {
    match log
    case Start => []
    case Snoc(before, a) => Handled(before) + (if a.Handle? then [a.request] else [])
  }

  function Responses(log: Log): seq<Bytes> {
    match log
    case Start => []
    case Snoc(before, a) => Responses(before) + (if a.Respond? then [a.response] else [])
  }

  /** No recv completed two messages at once. */
  predicate OneAtATime(log: Log) {
    match log
    case Start => true
    case Snoc(before, a) => OneAtATime(before) && (a.Recv? ==> |a.completed| <= 1)
  }

  /** The last message of every recv that completed one: what the single input slot lets through. */
  function Survivors(log: Log): seq<Msg> {
    match log
    case Start => []
    case Snoc(before, a) =>
      Survivors(before) + (if a.Recv? && a.completed != [] then [a.completed[|a.completed| - 1]] else [])
  }

  /** The request parsed but not yet handled. */
  function Waiting(s: Stage): seq<Msg> { if s.Pending? then [s.request] else [] }

  /** Requests that survive the slot are handled once, in order, each answered before the next recv. */
  lemma {:induction false} Alternation(log: Log)
    requires StageOf(log).Some?
    ensures var s := StageOf(log).value;
      && Handled(log) + Waiting(s) == Survivors(log)
      && |Handled(log)| == |Responses(log)| + (if s.Answering? then 1 else 0)
  {
    match log {
      case Start =>
      case Snoc(before, a) => Alternation(before);
    }
  }

  /** Every parsed message survives exactly when no recv completed two messages. */
  lemma {:induction false} NothingOverwritten(log: Log)
    ensures |Survivors(log)| <= |Parsed(log)|
    ensures Survivors(log) == Parsed(log) <==> OneAtATime(log)
  {
    match log {
      case Start =>
      case Snoc(before, a) =>
        NothingOverwritten(before);
        if a.Recv? && |a.completed| == 1 {
          assert a.completed == [a.completed[0]];
        }
        if Survivors(log) == Parsed(log) {
          assert Survivors(before) == Survivors(log)[..|Survivors(before)|];
          assert Parsed(before) == Parsed(log)[..|Parsed(before)|];
        }
    }
  }
}
