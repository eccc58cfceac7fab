/** `timingwrapper(f)`: the wrapper for an ordinary callable. One invocation
    calls `f` once with the caller's arguments, measures how long it took and,
    when that is more than a second, emits one critical record before handing
    back `f`'s result. */
module CallTimer {
  import opened Common
  import opened ArgFormat

  /** How a Python call ends: it returns a value or raises. */
  datatype Outcome = Returned(value: Value) | Raised(error: PyError)

  /** What one invocation of the wrapper produces: the outcome its caller sees
      and the log records it emitted. */
  datatype Call = Call(outcome: Outcome, log: seq<LogEntry>)

  /** The wrapped callable: its code object (for the record) and its
      behaviour on a given set of arguments. */
  datatype Callee = Callee(code: Code, behaviour: Arguments -> Outcome)

  /** One invocation of `timingwrapper(f)(*args, **kwargs)`; `elapsed` is the
      time the clock measured around the call of `f`. */
  function TimedCall(v: Variant, repr: Repr, f: Callee, args: Arguments, elapsed: real): (r: Call)
    // a failure of f propagates unchanged and nothing is logged
    ensures f.behaviour(args).Raised? ==> r == Call(f.behaviour(args), [])
    // a call of at most one second is invisible: same result, no record
    ensures !IsSlow(elapsed) ==> r == Call(f.behaviour(args), [])
    // the caller sees f's own outcome unless rendering the arguments fails on the slow path
    ensures r.outcome == f.behaviour(args)
            <==> !(f.behaviour(args).Returned? && IsSlow(elapsed) && FormatArgs(v, repr, args).Err?)
    ensures r.outcome != f.behaviour(args) ==> r.outcome == Raised(FormatArgs(v, repr, args).error) && r.log == []
    // exactly one record, carrying the elapsed time, where f is, its name, the arguments and the result
    ensures |r.log| <= 1
    ensures |r.log| == 1
            <==> f.behaviour(args).Returned? && IsSlow(elapsed) && FormatArgs(v, repr, args).Ok?
    ensures |r.log| == 1 ==>
              r.log[0] == SlowCall(elapsed, f.code.file, f.code.firstLine, f.code.name,
                                   FormatArgs(v, repr, args).value, f.behaviour(args).value)
  {
    var result := f.behaviour(args);
    match result
    case Raised(_) => Call(result, [])
    case Returned(x) =>
      if IsSlow(elapsed) then
        match FormatArgs(v, repr, args)
        case Err(e) => Call(Raised(e), [])
        case Ok(rendered) =>
          Call(result, [SlowCall(elapsed, f.code.file, f.code.firstLine, f.code.name, rendered, x)])
      else Call(result, [])
  }

  /** The threshold is strict: exactly one second does not log, anything above
      it does, for a call that returns and whose arguments render. */
  lemma ThresholdIsStrict(repr: Repr, f: Callee, args: Arguments, x: Value)
    requires f.behaviour(args) == Returned(x)
    requires args.keywords == []
    ensures TimedCall(AsWritten, repr, f, args, 1.0).log == []
    ensures TimedCall(AsWritten, repr, f, args, 1.000001).log
            == [SlowCall(1.000001, f.code.file, f.code.firstLine, f.code.name,
                         Join(Reprs(repr, args.positional), ", "), x)]
  {
  }

  /** As written, a slow call with keyword arguments never returns its result:
      `formatargs` runs only on the slow path and raises TypeError there. */
  lemma SlowKeywordCallRaises(repr: Repr, f: Callee, args: Arguments, elapsed: real)
    requires f.behaviour(args).Returned? && IsSlow(elapsed) && |args.keywords| > 0
    ensures TimedCall(AsWritten, repr, f, args, elapsed) == Call(Raised(TypeError), [])
  {
  }

  /** With the repaired `formatargs` the wrapper is transparent for every call:
      the caller always sees `f`'s own outcome. */
  lemma CorrectedCallIsTransparent(repr: Repr, f: Callee, args: Arguments, elapsed: real)
    ensures TimedCall(Corrected, repr, f, args, elapsed).outcome == f.behaviour(args)
    ensures |TimedCall(Corrected, repr, f, args, elapsed).log| == 1
            <==> f.behaviour(args).Returned? && IsSlow(elapsed)
  {
  }
}
