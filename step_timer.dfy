/** `timingwrapper_gen(f)`: a generator that drives the generator `f(*args,
    **kwargs)` one resumption at a time, times every resumption, logs the slow
    ones, yields every value the inner generator yields and passes what the
    scheduler sends back into it. */
module StepTimer {
  import opened Common
  import opened ArgFormat

  /** How a generator is resumed: `gen.next()` or `gen.send(v)`. */
  datatype Resume = NextCall | SendCall(sent: Value)

  /** The value the paused `yield` expression evaluates to: None for `next()`. */
  function Received(r: Resume): Value
  {
    match r
    case NextCall => NoneV
    case SendCall(v) => v
  }

  function ReceivedAll(rs: seq<Resume>): (vs: seq<Value>)
    ensures |vs| == |rs| && forall k :: 0 <= k < |rs| ==> vs[k] == Received(rs[k])
  {
    seq(|rs|, k requires 0 <= k < |rs| => Received(rs[k]))
  }

  /** The end of one resumption: the generator yields (and is paused at a
      source line, `gi_frame.f_lineno`), returns (StopIteration), or raises. */
  datatype StepResult = Yielded(value: Value, line: int) | Done | Raised(error: PyError)

  /** A deterministic generator: what its k-th resumption produces, as a
      function of the values its `yield` expressions have received so far
      (the k-th of them being the one this resumption delivers). */
  type Behaviour = seq<Value> -> StepResult

  /** The inner generator object `gen`. */
  class Generator {
    const behaviour: Behaviour
    const file: string       // gi_code.co_filename
    var resumes: seq<Resume>  // every resumption so far, in order
    var finished: bool

    constructor (behaviour: Behaviour, file: string)
      ensures this.behaviour == behaviour && this.file == file
      ensures resumes == [] && !finished
    {
      this.behaviour := behaviour;
      this.file := file;
      resumes := [];
      finished := false;
    }

    /** `gen.next()`. A finished generator raises StopIteration again. */
    method Next() returns (r: StepResult)
      modifies this
      ensures old(finished) ==> r == Done && resumes == old(resumes) && finished
      ensures !old(finished) ==>
                && resumes == old(resumes) + [NextCall]
                && r == behaviour(ReceivedAll(resumes))
                && finished == !r.Yielded?
    {
      if finished {
        r := Done;
      } else {
        resumes := resumes + [NextCall];
        r := behaviour(ReceivedAll(resumes));
        finished := !r.Yielded?;
      }
    }

    /** `gen.send(v)`. A generator that has not started yet accepts only None
        and raises TypeError for anything else, staying unstarted. */
    method Send(v: Value) returns (r: StepResult)
      modifies this
      ensures old(finished) ==> r == Done && resumes == old(resumes) && finished
      ensures !old(finished) && old(resumes) == [] && v != NoneV ==>
                r == Raised(TypeError) && resumes == [] && !finished
      ensures !old(finished) && (old(resumes) != [] || v == NoneV) ==>
                && resumes == old(resumes) + [SendCall(v)]
                && r == behaviour(ReceivedAll(resumes))
                && finished == !r.Yielded?
    {
      if finished {
        r := Done;
      } else if resumes == [] && v != NoneV {
        r := Raised(TypeError);
      } else {
        resumes := resumes + [SendCall(v)];
        r := behaviour(ReceivedAll(resumes));
        finished := !r.Yielded?;
      }
    }
  }

  /** What the scheduler supplies for the wrapper's i-th resumption: the value
      it sends in (for i = 0 nothing is sent: a fresh generator is started with
      `next()`, so `sent` is unused) and the time the clock will measure around
      the inner resumption. */
  datatype Tick = Tick(sent: Value, elapsed: real)

  /** How a run of the wrapper stands once the scheduler's ticks are used up:
      still paused at its `yield`, finished because the inner generator
      finished, or failed with an exception. */
  datatype Ending = Suspended | Finished | Failed(error: PyError)

  /** A run of the wrapper: how it resumed the inner generator, what it
      yielded to the scheduler, what it logged and how it ended. */
  datatype Run = Run(resumes: seq<Resume>, yielded: seq<Value>, log: seq<LogEntry>, ending: Ending)

  /** The identity of the wrapped generator function for the record:
      `f.func_name` and the call's arguments. */
  datatype Site = Site(name: string, args: Arguments)

  /** Lines 53-56: how the wrapper resumes the inner generator. As written it
      tests the truth of `nextValue`; the corrected relay uses `next()` only
      for the first resumption and sends whatever the scheduler sent. */
  function ChooseResume(v: Variant, first: bool, nextValue: Value): Resume
  {
    match v
    case AsWritten => if Truthy(nextValue) then SendCall(nextValue) else NextCall
    case Corrected => if first then NextCall else SendCall(nextValue)
  }

  /** `nextValue` at resumption i, once the scheduler has resumed the wrapper
      with tick i (line 70). */
  function SentAt(ticks: seq<Tick>, i: nat): Value
  {
    if 0 < i < |ticks| then ticks[i].sent else NoneV
  }

  /** Lines 58-69: the record for one step, if it was slow. Rendering the
      arguments can raise, which ends the wrapper. */
  function StepLog(v: Variant, repr: Repr, site: Site, file: string, elapsed: real, y: Value, line: int)
    : (r: Result<seq<LogEntry>>)
  {
    if IsSlow(elapsed) then
      match FormatArgs(v, repr, site.args)
      case Err(e) => Err(e)
      case Ok(s) => Ok([SlowIteration(elapsed, file, line, site.name, s, y)])
    else Ok([])
  }

  /** The wrapper's `while True` loop from resumption i on, with `nextValue`
      and the inner generator's history `h` as they stand there. */
  function Relay(v: Variant, repr: Repr, b: Behaviour, file: string, site: Site,
                 ticks: seq<Tick>, i: nat, nextValue: Value, h: seq<Resume>): Run
    requires i <= |ticks|
    decreases |ticks| - i
  {
    if i == |ticks| then Run([], [], [], Suspended)
    else
      var resume := ChooseResume(v, i == 0, nextValue);
      match b(ReceivedAll(h + [resume]))
      case Done => Run([resume], [], [], Finished)
      case Raised(e) => Run([resume], [], [], Failed(e))
      case Yielded(y, line) =>
        match StepLog(v, repr, site, file, ticks[i].elapsed, y, line)
        case Err(e) => Run([resume], [], [], Failed(e))
        case Ok(entries) =>
          var rest := Relay(v, repr, b, file, site, ticks, i + 1, SentAt(ticks, i + 1), h + [resume]);
          Run([resume] + rest.resumes, [y] + rest.yielded, entries + rest.log, rest.ending)
  }

  /** A whole run of the wrapper, from its creation (`nextValue = None`). */
  function RelayRun(v: Variant, repr: Repr, b: Behaviour, file: string, site: Site, ticks: seq<Tick>): Run
  {
    Relay(v, repr, b, file, site, ticks, 0, NoneV, [])
  }

  /** `r` preceded by a run prefix that has already happened. */
  function After(resumes: seq<Resume>, yielded: seq<Value>, log: seq<LogEntry>, r: Run): Run
  {
    Run(resumes + r.resumes, yielded + r.yielded, log + r.log, r.ending)
  }

  /** One relayed step moves a resumption, a yield and its records from the
      remaining run into the prefix. */
  lemma RelayYieldStep(v: Variant, repr: Repr, b: Behaviour, file: string, site: Site, ticks: seq<Tick>,
                       i: nat, nextValue: Value, h: seq<Resume>, y: Value, line: int, entries: seq<LogEntry>,
                       rs: seq<Resume>, ys: seq<Value>, ls: seq<LogEntry>)
    requires i < |ticks|
    requires b(ReceivedAll(h + [ChooseResume(v, i == 0, nextValue)])) == Yielded(y, line)
    requires StepLog(v, repr, site, file, ticks[i].elapsed, y, line) == Ok(entries)
    ensures var resume := ChooseResume(v, i == 0, nextValue);
            After(rs, ys, ls, Relay(v, repr, b, file, site, ticks, i, nextValue, h))
            == After(rs + [resume], ys + [y], ls + entries,
                     Relay(v, repr, b, file, site, ticks, i + 1, SentAt(ticks, i + 1), h + [resume]))
  {
  }

  /** The wrapper generator driven by a scheduler for `ticks`: lines 47-70.
      Returns what it yielded, the records it logged and how it ended; the
      inner generator `gen` is resumed in place. */
  method RunWrapper(v: Variant, repr: Repr, gen: Generator, site: Site, ticks: seq<Tick>)
    returns (yielded: seq<Value>, log: seq<LogEntry>, ending: Ending)
    requires gen.resumes == [] && !gen.finished
    modifies gen
    ensures var r := RelayRun(v, repr, gen.behaviour, gen.file, site, ticks);
            gen.resumes == r.resumes && yielded == r.yielded && log == r.log && ending == r.ending
    // the inner generator is finished iff its last resumption returned or raised
    ensures gen.finished == (gen.resumes != [] && !gen.behaviour(ReceivedAll(gen.resumes)).Yielded?)
  {
    ghost var b, file := gen.behaviour, gen.file;
    ghost var spec := RelayRun(v, repr, b, file, site, ticks);
    var nextValue := NoneV;
    var i := 0;
    yielded, log, ending := [], [], Suspended;
    assert spec == After(gen.resumes, yielded, log, Relay(v, repr, b, file, site, ticks, i, nextValue, gen.resumes));
    while i < |ticks|
      invariant i <= |ticks|
      invariant |gen.resumes| == i && !gen.finished
      invariant gen.resumes != [] ==> b(ReceivedAll(gen.resumes)).Yielded?
      invariant i < |ticks| ==> nextValue == SentAt(ticks, i)
      invariant spec == After(gen.resumes, yielded, log, Relay(v, repr, b, file, site, ticks, i, nextValue, gen.resumes))
      decreases |ticks| - i
    {
      ghost var h, i0 := gen.resumes, i;
      var resume := ChooseResume(v, i == 0, nextValue);
      var result;
      if resume.NextCall? {
        result := gen.Next();
      } else {
        result := gen.Send(resume.sent);
      }
      assert gen.resumes == h + [resume] && result == b(ReceivedAll(h + [resume]));
      match result
      case Done =>
        ending := Finished;
        return;
      case Raised(e) =>
        ending := Failed(e);
        return;
      case Yielded(y, line) =>
        var entries: seq<LogEntry> := [];
        ghost var logBefore := log;
        if IsSlow(ticks[i].elapsed) {
          var rendered := FormatArgs(v, repr, site.args);
          if rendered.Err? {
            ending := Failed(rendered.error);
            return;
          }
          entries := [SlowIteration(ticks[i].elapsed, gen.file, line, site.name, rendered.value, y)];
          log := log + entries;
        }
        assert StepLog(v, repr, site, file, ticks[i].elapsed, y, line) == Ok(entries);
        assert log == logBefore + entries;
        RelayYieldStep(v, repr, b, file, site, ticks, i, nextValue, h, y, line, entries, h, yielded, logBefore);
        yielded := yielded + [y];
        i := i + 1;
        if i < |ticks| {
          nextValue := ticks[i].sent;
        } else {
          // with no tick left the wrapper stays paused whatever it would receive
          assert Relay(v, repr, b, file, site, ticks, i, nextValue, gen.resumes)
              == Relay(v, repr, b, file, site, ticks, i, SentAt(ticks, i), gen.resumes);
        }
        assert i == i0 + 1 && gen.resumes == h + [resume];
        assert spec == After(gen.resumes, yielded, log, Relay(v, repr, b, file, site, ticks, i, nextValue, gen.resumes));
    }
  }

  // ---------------------------------------------------------------------
  // The unwrapped generator, as a scheduler would drive it directly.

  /** What a generator yields, and how it ends, when it is driven directly. */
  datatype Trace = Trace(yielded: seq<Value>, ending: Ending)

  /** The inner generator resumed by `rs` in turn, after the history `h`,
      with nobody in between. */
  function Drive(b: Behaviour, rs: seq<Resume>, h: seq<Resume>): Trace
    decreases |rs|
  {
    if rs == [] then Trace([], Suspended)
    else
      match b(ReceivedAll(h + [rs[0]]))
      case Done => Trace([], Finished)
      case Raised(e) => Trace([], Failed(e))
      case Yielded(y, _) =>
        var rest := Drive(b, rs[1..], h + [rs[0]]);
        Trace([y] + rest.yielded, rest.ending)
  }

  /** How the scheduler resumes a generator it drives itself: `next()` to
      start it, then `send(v)` with each value it has for the generator. */
  function SchedulerResumes(ticks: seq<Tick>): (rs: seq<Resume>)
    ensures |rs| == |ticks|
  {
    seq(|ticks|, k requires 0 <= k < |ticks| => if k == 0 then NextCall else SendCall(ticks[k].sent))
  }

  /** What the relay as written does instead: `next()` to start, and after
      that `send(v)` only for a truthy `v`, `next()` otherwise. */
  function TruthinessResumes(ticks: seq<Tick>): (rs: seq<Resume>)
    ensures |rs| == |ticks|
  {
    seq(|ticks|, k requires 0 <= k < |ticks| =>
      if k > 0 && Truthy(ticks[k].sent) then SendCall(ticks[k].sent) else NextCall)
  }

  /** Rendering the arguments cannot fail on any step from i on: the relay is
      the corrected one, or there are no keyword arguments, or no step is slow. */
  predicate RendersFrom(v: Variant, site: Site, ticks: seq<Tick>, i: nat)
  {
    v == Corrected || site.args.keywords == []
    || forall k :: i <= k < |ticks| ==> !IsSlow(ticks[k].elapsed)
  }

  /** The relay resumes the inner generator by `plan`, and relays exactly
      what the inner generator driven by `plan` yields, ending as it ends. */
  lemma {:induction false} RelayFollowsPlan(v: Variant, repr: Repr, b: Behaviour, file: string, site: Site,
                                            ticks: seq<Tick>, i: nat, nextValue: Value, h: seq<Resume>,
                                            plan: seq<Resume>)
    requires i <= |ticks| && |plan| == |ticks|
    requires i < |ticks| ==> plan[i] == ChooseResume(v, i == 0, nextValue)
    requires forall k :: i < k < |ticks| ==> plan[k] == ChooseResume(v, false, ticks[k].sent)
    requires RendersFrom(v, site, ticks, i)
    ensures var r := Relay(v, repr, b, file, site, ticks, i, nextValue, h);
            var d := Drive(b, plan[i..], h);
            && i + |r.resumes| <= |ticks|
            && r.resumes == plan[i..i + |r.resumes|]
            && r.yielded == d.yielded && r.ending == d.ending
    decreases |ticks| - i
  {
    if i < |ticks| {
      var resume := ChooseResume(v, i == 0, nextValue);
      assert plan[i..][0] == resume && plan[i..][1..] == plan[i + 1..];
      match b(ReceivedAll(h + [resume]))
      case Done =>
      case Raised(e) =>
      case Yielded(y, line) =>
        if IsSlow(ticks[i].elapsed) {
          AsWrittenAgreesWithCorrected(repr, site.args);
        }
        RelayFollowsPlan(v, repr, b, file, site, ticks, i + 1, SentAt(ticks, i + 1), h + [resume], plan);
        var rest := Relay(v, repr, b, file, site, ticks, i + 1, SentAt(ticks, i + 1), h + [resume]);
        var entries := StepLog(v, repr, site, file, ticks[i].elapsed, y, line).value;
        assert Relay(v, repr, b, file, site, ticks, i, nextValue, h)
            == Run([resume] + rest.resumes, [y] + rest.yielded, entries + rest.log, rest.ending);
        assert plan[i..i + 1 + |rest.resumes|] == [resume] + plan[i + 1..i + 1 + |rest.resumes|];
    }
  }

  /** The corrected relay is transparent: the scheduler sees exactly the
      values, the number of steps and the ending it would see driving the
      inner generator itself, and the inner generator receives every value
      the scheduler sends, in order, starting with `next()`. */
  lemma SentinelRelayIsTransparent(repr: Repr, b: Behaviour, file: string, site: Site, ticks: seq<Tick>)
    ensures var r := RelayRun(Corrected, repr, b, file, site, ticks);
            var d := Drive(b, SchedulerResumes(ticks), []);
            && |r.resumes| <= |ticks| && r.resumes == SchedulerResumes(ticks)[..|r.resumes|]
            && r.yielded == d.yielded && r.ending == d.ending
  {
    RelayFollowsPlan(Corrected, repr, b, file, site, ticks, 0, NoneV, [], SchedulerResumes(ticks));
  }

  /** The relay as written starts the inner generator with `next()`, sends
      each later value only when it is truthy and otherwise calls `next()`, so
      a falsy value from the scheduler reaches the inner generator as None.
      As long as no argument rendering fails it relays, one to one and in
      order, what the inner generator yields under those resumptions, and it
      ends exactly when the inner generator ends. */
  lemma TruthinessRelayFollowsInner(repr: Repr, b: Behaviour, file: string, site: Site, ticks: seq<Tick>)
    requires RendersFrom(AsWritten, site, ticks, 0)
    ensures var r := RelayRun(AsWritten, repr, b, file, site, ticks);
            var d := Drive(b, TruthinessResumes(ticks), []);
            && |r.resumes| <= |ticks| && r.resumes == TruthinessResumes(ticks)[..|r.resumes|]
            && r.yielded == d.yielded && r.ending == d.ending
  {
    RelayFollowsPlan(AsWritten, repr, b, file, site, ticks, 0, NoneV, [], TruthinessResumes(ticks));
  }

  /** A generator that yields back the last value it received. */
  function Echo(received: seq<Value>): StepResult
  {
    if received == [] then Done else Yielded(received[|received| - 1], 0)
  }

  /** The relay as written loses a falsy sent value: the scheduler sends 0 to
      an echoing generator; driven directly it would yield 0 back, through the
      wrapper it yields None. */
  lemma FalsySentValueIsLost(repr: Repr, file: string, site: Site)
    ensures var ticks := [Tick(NoneV, 0.0), Tick(IntV(0), 0.0)];
            && RelayRun(AsWritten, repr, Echo, file, site, ticks).yielded == [NoneV, NoneV]
            && Drive(Echo, SchedulerResumes(ticks), []).yielded == [NoneV, IntV(0)]
            && RelayRun(Corrected, repr, Echo, file, site, ticks).yielded == [NoneV, IntV(0)]
  {
    var ticks := [Tick(NoneV, 0.0), Tick(IntV(0), 0.0)];
    assert SchedulerResumes(ticks) == [NextCall, SendCall(IntV(0))];
    assert TruthinessResumes(ticks) == [NextCall, NextCall];
    assert ReceivedAll([NextCall]) == [NoneV];
    assert ReceivedAll([NextCall, NextCall]) == [NoneV, NoneV];
    assert ReceivedAll([NextCall, SendCall(IntV(0))]) == [NoneV, IntV(0)];
    TruthinessRelayFollowsInner(repr, Echo, file, site, ticks);
    SentinelRelayIsTransparent(repr, Echo, file, site, ticks);
    assert TruthinessResumes(ticks)[1..] == [NextCall];
    assert SchedulerResumes(ticks)[1..] == [SendCall(IntV(0))];
    assert [NextCall] + [NextCall] == [NextCall, NextCall];
    assert [NextCall] + [SendCall(IntV(0))] == [NextCall, SendCall(IntV(0))];
  }

  // ---------------------------------------------------------------------
  // Logging.

  /** The number of slow ticks. */
  function SlowCount(ts: seq<Tick>): nat
  {
    if ts == [] then 0 else (if IsSlow(ts[0].elapsed) then 1 else 0) + SlowCount(ts[1..])
  }

  /** What each resumption in `rs` produced, in turn, after the history `h`. */
  function Outcomes(b: Behaviour, h: seq<Resume>, rs: seq<Resume>): (outs: seq<StepResult>)
    ensures |outs| == |rs|
    decreases |rs|
  {
    if rs == [] then [] else [b(ReceivedAll(h + [rs[0]]))] + Outcomes(b, h + [rs[0]], rs[1..])
  }

  /** The records a relay owes for the steps `outs` taken on the ticks `ts`:
      in step order, one for each step that yielded on a slow tick, carrying
      that tick's elapsed time, the line the inner generator paused at, the
      rendered arguments and the value it yielded; none for any other step. */
  function SlowRecords(ts: seq<Tick>, outs: seq<StepResult>, file: string, name: string, args: string)
    : seq<LogEntry>
    requires |outs| <= |ts|
    decreases |outs|
  {
    if outs == [] then []
    else
      (if outs[0].Yielded? && IsSlow(ts[0].elapsed)
       then [SlowIteration(ts[0].elapsed, file, outs[0].line, name, args, outs[0].value)]
       else [])
      + SlowRecords(ts[1..], outs[1..], file, name, args)
  }

  /** One record per slow step, for every step the wrapper relays and for no
      other, each independently of the others: the records are as many as the
      slow ticks among the relayed steps, and each carries a slow elapsed time
      together with the routine's file and name. Which step each record
      belongs to is `RelayRecordsEachSlowStep`. */
  lemma {:induction false} RelayLogsSlowSteps(v: Variant, repr: Repr, b: Behaviour, file: string, site: Site,
                                              ticks: seq<Tick>, i: nat, nextValue: Value, h: seq<Resume>)
    requires i <= |ticks|
    ensures var r := Relay(v, repr, b, file, site, ticks, i, nextValue, h);
            && i + |r.yielded| <= |ticks|
            && |r.log| == SlowCount(ticks[i..i + |r.yielded|])
            && forall j :: 0 <= j < |r.log| ==>
                 r.log[j].SlowIteration? && IsSlow(r.log[j].elapsed)
                 && r.log[j].file == file && r.log[j].name == site.name
    decreases |ticks| - i
  {
    if i < |ticks| {
      var resume := ChooseResume(v, i == 0, nextValue);
      match b(ReceivedAll(h + [resume]))
      case Done =>
      case Raised(e) =>
      case Yielded(y, line) =>
        RelayLogsSlowSteps(v, repr, b, file, site, ticks, i + 1, SentAt(ticks, i + 1), h + [resume]);
        var rest := Relay(v, repr, b, file, site, ticks, i + 1, SentAt(ticks, i + 1), h + [resume]);
        match StepLog(v, repr, site, file, ticks[i].elapsed, y, line)
        case Err(_) =>
        case Ok(entries) =>
          assert Relay(v, repr, b, file, site, ticks, i, nextValue, h)
              == Run([resume] + rest.resumes, [y] + rest.yielded, entries + rest.log, rest.ending);
          var ts := ticks[i..i + 1 + |rest.yielded|];
          assert ts[0] == ticks[i] && ts[1..] == ticks[i + 1..i + 1 + |rest.yielded|];
    }
  }

  /** The values the wrapper relays are what its resumptions produced: the
      k-th relayed value is the value the inner generator yielded at the k-th
      resumption, and at most one resumption more was made. */
  lemma {:induction false} RelayYieldsOutcomes(v: Variant, repr: Repr, b: Behaviour, file: string, site: Site,
                                               ticks: seq<Tick>, i: nat, nextValue: Value, h: seq<Resume>)
    requires i <= |ticks|
    ensures var r := Relay(v, repr, b, file, site, ticks, i, nextValue, h);
            var outs := Outcomes(b, h, r.resumes);
            && i + |r.resumes| <= |ticks|
            && |r.yielded| <= |r.resumes| <= |r.yielded| + 1
            && forall k :: 0 <= k < |r.yielded| ==> outs[k].Yielded? && outs[k].value == r.yielded[k]
    decreases |ticks| - i
  {
    if i < |ticks| {
      var resume := ChooseResume(v, i == 0, nextValue);
      match b(ReceivedAll(h + [resume]))
      case Done =>
      case Raised(e) =>
      case Yielded(y, line) =>
        match StepLog(v, repr, site, file, ticks[i].elapsed, y, line)
        case Err(_) =>
          assert Outcomes(b, h, [resume]) == [Yielded(y, line)];
        case Ok(entries) =>
          RelayYieldsOutcomes(v, repr, b, file, site, ticks, i + 1, SentAt(ticks, i + 1), h + [resume]);
          var rest := Relay(v, repr, b, file, site, ticks, i + 1, SentAt(ticks, i + 1), h + [resume]);
          var r := Relay(v, repr, b, file, site, ticks, i, nextValue, h);
          assert r == Run([resume] + rest.resumes, [y] + rest.yielded, entries + rest.log, rest.ending);
          var restOuts := Outcomes(b, h + [resume], rest.resumes);
          assert ([resume] + rest.resumes)[1..] == rest.resumes;
          assert Outcomes(b, h, r.resumes) == [Yielded(y, line)] + restOuts;
          forall k | 1 <= k < |r.yielded|
            ensures Outcomes(b, h, r.resumes)[k] == restOuts[k - 1] && r.yielded[k] == rest.yielded[k - 1]
          {
          }
    }
  }

  /** Each record belongs to its step, in order: whenever the arguments
      render, the relay's log is exactly `SlowRecords` of the steps it took, so
      the k-th step has a record iff it yielded on a slow tick, and that record
      carries the k-th tick's elapsed time, the line the inner generator paused
      at and the value it yielded, which `RelayYieldsOutcomes` shows is the
      value the wrapper relayed for that step. */
  lemma {:induction false} RelayRecordsEachSlowStep(v: Variant, repr: Repr, b: Behaviour, file: string, site: Site,
                                                    ticks: seq<Tick>, i: nat, nextValue: Value, h: seq<Resume>)
    requires i <= |ticks|
    requires FormatArgs(v, repr, site.args).Ok?
    ensures var r := Relay(v, repr, b, file, site, ticks, i, nextValue, h);
            && i + |r.resumes| <= |ticks|
            && r.log == SlowRecords(ticks[i..], Outcomes(b, h, r.resumes), file, site.name,
                                    FormatArgs(v, repr, site.args).value)
    decreases |ticks| - i
  {
    if i < |ticks| {
      var resume := ChooseResume(v, i == 0, nextValue);
      var rendered := FormatArgs(v, repr, site.args).value;
      match b(ReceivedAll(h + [resume]))
      case Done =>
        assert Outcomes(b, h, [resume]) == [Done];
      case Raised(e) =>
        assert Outcomes(b, h, [resume]) == [Raised(e)];
      case Yielded(y, line) =>
        RelayRecordsEachSlowStep(v, repr, b, file, site, ticks, i + 1, SentAt(ticks, i + 1), h + [resume]);
        var rest := Relay(v, repr, b, file, site, ticks, i + 1, SentAt(ticks, i + 1), h + [resume]);
        var entries := StepLog(v, repr, site, file, ticks[i].elapsed, y, line).value;
        assert Relay(v, repr, b, file, site, ticks, i, nextValue, h)
            == Run([resume] + rest.resumes, [y] + rest.yielded, entries + rest.log, rest.ending);
        var restOuts := Outcomes(b, h + [resume], rest.resumes);
        assert ([resume] + rest.resumes)[1..] == rest.resumes;
        assert Outcomes(b, h, [resume] + rest.resumes) == [Yielded(y, line)] + restOuts;
        assert ([Yielded(y, line)] + restOuts)[1..] == restOuts;
        assert ticks[i..][1..] == ticks[i + 1..];
        assert SlowRecords(ticks[i..], [Yielded(y, line)] + restOuts, file, site.name, rendered)
            == entries + SlowRecords(ticks[i + 1..], restOuts, file, site.name, rendered);
    }
  }

  /** As written, keyword arguments switch logging off: the first step that
      yields on a slow tick raises TypeError from `formatargs` instead of
      logging, so that step's value is never relayed, the wrapper ends with
      TypeError there, it logs nothing, and every step it relays was fast. */
  lemma {:induction false} KeywordArgumentsSuppressStepLog(repr: Repr, b: Behaviour, file: string, site: Site,
                                                           ticks: seq<Tick>, i: nat, nextValue: Value, h: seq<Resume>)
    requires i <= |ticks| && site.args.keywords != []
    ensures var r := Relay(AsWritten, repr, b, file, site, ticks, i, nextValue, h);
            var outs := Outcomes(b, h, r.resumes);
            && r.log == []
            && i + |r.yielded| <= |ticks| && i + |r.resumes| <= |ticks|
            && (forall k :: i <= k < i + |r.yielded| ==> !IsSlow(ticks[k].elapsed))
            && (forall k :: 0 <= k < |r.resumes| && outs[k].Yielded? && IsSlow(ticks[i + k].elapsed) ==>
                  k == |r.yielded| && r.ending == Failed(TypeError))
    decreases |ticks| - i
  {
    SlowYieldEndsRelay(repr, b, file, site, ticks, i, nextValue, h);
    if i < |ticks| {
      var resume := ChooseResume(AsWritten, i == 0, nextValue);
      match b(ReceivedAll(h + [resume]))
      case Done =>
      case Raised(e) =>
      case Yielded(y, line) =>
        KeywordArgumentsSuppressStepLog(repr, b, file, site, ticks, i + 1, SentAt(ticks, i + 1), h + [resume]);
    }
  }

  /** The induction behind the ending in `KeywordArgumentsSuppressStepLog`: as
      written, with keyword arguments, the wrapper takes at most one step it
      does not relay, and if that step yielded, its tick was slow and the
      wrapper ends with TypeError. */
  lemma {:induction false} SlowYieldEndsRelay(repr: Repr, b: Behaviour, file: string, site: Site,
                                              ticks: seq<Tick>, i: nat, nextValue: Value, h: seq<Resume>)
    requires i <= |ticks| && site.args.keywords != []
    ensures var r := Relay(AsWritten, repr, b, file, site, ticks, i, nextValue, h);
            && i + |r.resumes| <= |ticks|
            && |r.yielded| <= |r.resumes| <= |r.yielded| + 1
            && (|r.resumes| > |r.yielded| && Outcomes(b, h, r.resumes)[|r.yielded|].Yielded? ==>
                  IsSlow(ticks[i + |r.yielded|].elapsed) && r.ending == Failed(TypeError))
    decreases |ticks| - i
  {
    if i < |ticks| {
      var resume := ChooseResume(AsWritten, i == 0, nextValue);
      match b(ReceivedAll(h + [resume]))
      case Done =>
        assert Outcomes(b, h, [resume]) == [Done];
      case Raised(e) =>
        assert Outcomes(b, h, [resume]) == [Raised(e)];
      case Yielded(y, line) =>
        if IsSlow(ticks[i].elapsed) {
          assert Outcomes(b, h, [resume]) == [Yielded(y, line)];
        } else {
          SlowYieldEndsRelay(repr, b, file, site, ticks, i + 1, SentAt(ticks, i + 1), h + [resume]);
          var rest := Relay(AsWritten, repr, b, file, site, ticks, i + 1, SentAt(ticks, i + 1), h + [resume]);
          var r := Relay(AsWritten, repr, b, file, site, ticks, i, nextValue, h);
          assert r == Run([resume] + rest.resumes, [y] + rest.yielded, [] + rest.log, rest.ending);
          if |r.resumes| > |r.yielded| {
            assert ([resume] + rest.resumes)[1..] == rest.resumes;
            var restOuts := Outcomes(b, h + [resume], rest.resumes);
            assert Outcomes(b, h, r.resumes) == [Yielded(y, line)] + restOuts;
            assert Outcomes(b, h, r.resumes)[|r.yielded|] == restOuts[|rest.yielded|];
            assert ticks[i + |r.yielded|] == ticks[i + 1 + |rest.yielded|];
          }
        }
    }
  }
}
