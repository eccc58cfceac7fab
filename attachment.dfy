/** Attaching the call timer to a request handler: the loop both
    `TimingRequestHandler.__init__` and `monkeypatched_RequestHandler_init`
    run once the framework's own constructor has returned, and the
    `coroutine` decorator. */
module Attachment {
  import opened Common

  /** CO_GENERATOR: the code-object flag of a generator function. */
  const CoGenerator: bv32 := 0x20

  /** The flags CPython 2 gives `wrapper` in `timingwrapper`: a nested
      function taking *args and **kwargs (CO_OPTIMIZED | CO_NEWLOCALS |
      CO_VARARGS | CO_VARKEYWORDS | CO_NESTED). */
  const CallWrapperFlags: bv32 := 0x1F

  /** `wrapper` in `timingwrapper_gen` is the same kind of function and
      contains `yield`, so it is a generator function. */
  const StepWrapperFlags: bv32 := CallWrapperFlags | CoGenerator

  /** An attribute of a handler instance, as the attachment loop sees it. */
  datatype Member =
    | Function(code: Code)               // a method defined with `def`
    | CallTimed(inner: Member)           // timingwrapper(inner)
    | StepTimed(inner: Member)           // timingwrapper_gen(inner)
    | Scheduled(inner: Member, framework: Code)  // the framework's coroutine(inner); its wrapper's code
    | Plain(value: Value)                // any other attribute value

  /** The truth test of `getattr(self, method, None)`: functions are truthy. */
  predicate TruthyMember(m: Member)
  {
    match m
    case Plain(x) => Truthy(x)
    case _ => true
  }

  /** `func.func_code.co_flags`; None where the attribute has no code object
      (reading `func_code` then raises AttributeError). */
  function CoFlags(m: Member): Option<bv32>
  {
    match m
    case Function(code) => Some(code.flags)
    case CallTimed(_) => Some(CallWrapperFlags)
    case StepTimed(_) => Some(StepWrapperFlags)
    case Scheduled(_, framework) => Some(framework.flags)
    case Plain(_) => None
  }

  /** The attachment replaces a member exactly when it is truthy, has a code
      object, and that code is not a generator function's. */
  predicate ShouldWrap(m: Member)
  {
    TruthyMember(m) && CoFlags(m).Some? && CoFlags(m).value & CoGenerator == 0
  }

  /** A member the loop cannot classify: truthy, but without a code object. */
  predicate Unclassifiable(m: Member)
  {
    TruthyMember(m) && CoFlags(m).None?
  }

  /** One turn of the loop (lines 83-91 and 105-113) for the verb `verb`. */
  function AttachVerb(attrs: map<string, Member>, verb: string): Result<map<string, Member>>
  {
    var name := Lower(verb);
    if name !in attrs || !TruthyMember(attrs[name]) then Ok(attrs)
    else
      var func := attrs[name];
      match CoFlags(func)
      case None => Err(AttributeError)
      case Some(flags) =>
        if flags & CoGenerator == 0 then Ok(attrs[name := CallTimed(func)]) else Ok(attrs)
  }

  /** Where the loop leaves the instance: its attributes, and the exception
      that stopped it, if any (the attributes as they were at that point). */
  datatype Attached = Attached(attrs: map<string, Member>, error: Option<PyError>)

  /** The whole loop over `SUPPORTED_METHODS`. */
  function AttachAll(attrs: map<string, Member>, verbs: seq<string>): Attached
    decreases |verbs|
  {
    if verbs == [] then Attached(attrs, None)
    else
      match AttachVerb(attrs, verbs[0])
      case Err(e) => Attached(attrs, Some(e))
      case Ok(next) => AttachAll(next, verbs[1..])
  }

  /** The attribute names the loop looks at. */
  function Names(verbs: seq<string>): (names: seq<string>)
    ensures |names| == |verbs| && forall k :: 0 <= k < |verbs| ==> names[k] == Lower(verbs[k])
  {
    seq(|verbs|, k requires 0 <= k < |verbs| => Lower(verbs[k]))
  }

  /** Nothing but the verb methods changes: the instance has the same
      attributes afterwards, and one not named by a supported verb keeps its
      value. */
  lemma {:induction false} AttachAllFrame(attrs: map<string, Member>, verbs: seq<string>)
    ensures AttachAll(attrs, verbs).attrs.Keys == attrs.Keys
    ensures forall k :: k in attrs && k !in Names(verbs) ==> AttachAll(attrs, verbs).attrs[k] == attrs[k]
    decreases |verbs|
  {
    if verbs != [] {
      match AttachVerb(attrs, verbs[0])
      case Err(e) =>
      case Ok(next) =>
        AttachAllFrame(next, verbs[1..]);
        assert forall k :: k in Names(verbs[1..]) ==> k in Names(verbs) by {
          forall k | k in Names(verbs[1..]) ensures k in Names(verbs) {
            var j :| 0 <= j < |verbs| - 1 && Names(verbs[1..])[j] == k;
            assert Names(verbs)[j + 1] == k;
          }
        }
    }
  }

  /** The loop stops with AttributeError exactly when some supported verb
      names a truthy attribute without a code object; it raises nothing else. */
  lemma {:induction false} AttachAllFailsOnlyOnUnclassifiable(attrs: map<string, Member>, verbs: seq<string>)
    ensures AttachAll(attrs, verbs).error.Some?
            <==> exists j :: 0 <= j < |verbs| && Lower(verbs[j]) in attrs && Unclassifiable(attrs[Lower(verbs[j])])
    ensures AttachAll(attrs, verbs).error.Some? ==> AttachAll(attrs, verbs).error == Some(AttributeError)
    decreases |verbs|
  {
    if verbs != [] {
      match AttachVerb(attrs, verbs[0])
      case Err(e) =>
      case Ok(next) =>
        AttachAllFailsOnlyOnUnclassifiable(next, verbs[1..]);
        // wrapping a member never makes an unclassifiable one or hides one
        assert next.Keys == attrs.Keys;
        assert forall k :: k in attrs ==> (Unclassifiable(next[k]) <==> Unclassifiable(attrs[k]));
        assert forall j :: 1 <= j < |verbs| ==> verbs[1..][j - 1] == verbs[j];
        if exists j :: 0 <= j < |verbs| && Lower(verbs[j]) in attrs && Unclassifiable(attrs[Lower(verbs[j])]) {
          var j :| 0 <= j < |verbs| && Lower(verbs[j]) in attrs && Unclassifiable(attrs[Lower(verbs[j])]);
          assert j != 0;
          assert Lower(verbs[1..][j - 1]) in next && Unclassifiable(next[Lower(verbs[1..][j - 1])]);
        }
    }
  }

  /** When the supported verbs name distinct attributes and the loop
      completes, every verb method present is replaced by its call-timed
      version exactly when it should be wrapped, and is otherwise (absent,
      falsy, or a generator function) left as it was. */
  lemma {:induction false} AttachAllWrapsVerbMethods(attrs: map<string, Member>, verbs: seq<string>)
    requires forall j, k :: 0 <= j < k < |verbs| ==> Lower(verbs[j]) != Lower(verbs[k])
    requires AttachAll(attrs, verbs).error == None
    ensures AttachAll(attrs, verbs).attrs.Keys == attrs.Keys
    ensures forall j :: 0 <= j < |verbs| && Lower(verbs[j]) in attrs ==>
              var name := Lower(verbs[j]);
              AttachAll(attrs, verbs).attrs[name]
              == if ShouldWrap(attrs[name]) then CallTimed(attrs[name]) else attrs[name]
    decreases |verbs|
  {
    if verbs != [] {
      match AttachVerb(attrs, verbs[0])
      case Err(e) =>
      case Ok(next) =>
        AttachAllWrapsVerbMethods(next, verbs[1..]);
        AttachAllFrame(next, verbs[1..]);
        assert next.Keys == attrs.Keys;
        var name0 := Lower(verbs[0]);
        forall k | 0 <= k < |verbs| - 1 ensures Names(verbs[1..])[k] != name0 {
          assert Names(verbs[1..])[k] == Lower(verbs[k + 1]);
        }
        forall j | 0 <= j < |verbs| && Lower(verbs[j]) in attrs
          ensures AttachAll(attrs, verbs).attrs[Lower(verbs[j])]
                  == if ShouldWrap(attrs[Lower(verbs[j])]) then CallTimed(attrs[Lower(verbs[j])]) else attrs[Lower(verbs[j])]
        {
          if j > 0 {
            assert verbs[1..][j - 1] == verbs[j];
            assert Lower(verbs[j]) != name0;
          }
        }
    }
  }

  /** `coroutine(f)`: the framework's transform applied to the step-timed
      routine, so the scheduler drives the timing wrapper and not `f`. The
      attachment loop skips the step-timed routine itself (a generator
      function), but wraps the decorated method again whenever the
      framework's own wrapper is an ordinary function. */
  function Coroutine(f: Member, framework: Code): (m: Member)
    ensures m.Scheduled? && m.inner.StepTimed? && m.inner.inner == f
    ensures !ShouldWrap(m.inner)
    ensures ShouldWrap(m) <==> framework.flags & CoGenerator == 0
  {
    Scheduled(StepTimed(f), framework)
  }

  /** `TimingRequestHandler.__init__` from its first line on. Line 80 calls
      `original_RequestHandler_init`, the unbound method `RequestHandler.__init__`
      (line 9), with the caller's arguments and without `self`. Python 2 checks
      that an unbound method's first argument is an instance of its class; the
      framework creates a handler as `handler_class(application, request, ...)`,
      so that argument is the Application and the call raises TypeError before
      the loop is reached. Corrected, line 80 passes `self` first, as line 102
      does, and the loop runs. `base` is what the framework's constructor
      leaves on the instance; as written it is kept as given. */
  function DerivedInit(v: Variant, base: map<string, Member>, verbs: seq<string>): Attached
  {
    match v
    case AsWritten => Attached(base, Some(TypeError))
    case Corrected => AttachAll(base, verbs)
  }

  /** As written, the derivable handler class wraps nothing: its constructor
      raises TypeError, and every verb method the loop would have call-timed
      is left unwrapped, where the corrected constructor wraps it. */
  lemma UnboundInitSkipsWrapping(base: map<string, Member>, verbs: seq<string>)
    requires forall j, k :: 0 <= j < k < |verbs| ==> Lower(verbs[j]) != Lower(verbs[k])
    requires forall j :: 0 <= j < |verbs| && Lower(verbs[j]) in base ==> !Unclassifiable(base[Lower(verbs[j])])
    ensures DerivedInit(AsWritten, base, verbs).error == Some(TypeError)
    ensures DerivedInit(Corrected, base, verbs).error == None
    ensures DerivedInit(Corrected, base, verbs).attrs.Keys == base.Keys
    ensures forall j :: 0 <= j < |verbs| && Lower(verbs[j]) in base && ShouldWrap(base[Lower(verbs[j])]) ==>
              && DerivedInit(AsWritten, base, verbs).attrs[Lower(verbs[j])] == base[Lower(verbs[j])]
              && DerivedInit(Corrected, base, verbs).attrs[Lower(verbs[j])] == CallTimed(base[Lower(verbs[j])])
  {
    AttachAllFailsOnlyOnUnclassifiable(base, verbs);
    AttachAllWrapsVerbMethods(base, verbs);
  }

  /** With `self` passed first, the derivable class's constructor leaves the
      instance exactly as the monkeypatched constructor does: it completes
      unless a verb names an attribute without a code object, and then every
      verb method present is call-timed iff it should be wrapped. */
  lemma CorrectedDerivedInitWraps(base: map<string, Member>, verbs: seq<string>)
    requires forall j, k :: 0 <= j < k < |verbs| ==> Lower(verbs[j]) != Lower(verbs[k])
    ensures DerivedInit(Corrected, base, verbs).error.Some?
            <==> exists j :: 0 <= j < |verbs| && Lower(verbs[j]) in base && Unclassifiable(base[Lower(verbs[j])])
    ensures DerivedInit(Corrected, base, verbs).attrs.Keys == base.Keys
    ensures DerivedInit(Corrected, base, verbs).error == None ==>
              forall j :: 0 <= j < |verbs| && Lower(verbs[j]) in base ==>
                DerivedInit(Corrected, base, verbs).attrs[Lower(verbs[j])]
                == if ShouldWrap(base[Lower(verbs[j])]) then CallTimed(base[Lower(verbs[j])]) else base[Lower(verbs[j])]
  {
    AttachAllFailsOnlyOnUnclassifiable(base, verbs);
    AttachAllFrame(base, verbs);
    if AttachAll(base, verbs).error == None {
      AttachAllWrapsVerbMethods(base, verbs);
    }
  }

  /** A request handler instance: its attributes (the instance's own and the
      class's, as `getattr` sees them) and its class's `SUPPORTED_METHODS`. */
  class RequestHandler {
    var attrs: map<string, Member>
    const supportedMethods: seq<string>
    var initError: Option<PyError>

    /** `TimingRequestHandler.__init__`, as `DerivedInit` describes it: as
        written the call at line 80 raises and the loop never runs. */
    constructor TimingRequestHandler(v: Variant, base: map<string, Member>, supportedMethods: seq<string>)
      ensures this.supportedMethods == supportedMethods
      ensures attrs == DerivedInit(v, base, supportedMethods).attrs
      ensures initError == DerivedInit(v, base, supportedMethods).error
    {
      attrs := base;
      this.supportedMethods := supportedMethods;
      initError := None;
      new;
      match v
      case AsWritten =>
        initError := Some(TypeError);
      case Corrected =>
        initError := WrapVerbMethods();
    }

    /** `monkeypatched_RequestHandler_init`: the same loop after the
        framework's constructor. */
    constructor Monkeypatched(base: map<string, Member>, supportedMethods: seq<string>)
      ensures this.supportedMethods == supportedMethods
      ensures attrs == AttachAll(base, supportedMethods).attrs
      ensures initError == AttachAll(base, supportedMethods).error
    {
      attrs := base;
      this.supportedMethods := supportedMethods;
      initError := None;
      new;
      initError := WrapVerbMethods();
    }

    /** The loop itself: for each supported verb, replace the lower-cased
        attribute by `timingwrapper(func)` when it is present, truthy and not
        a generator function. */
    method WrapVerbMethods() returns (err: Option<PyError>)
      modifies this`attrs
      ensures attrs == AttachAll(old(attrs), supportedMethods).attrs
      ensures err == AttachAll(old(attrs), supportedMethods).error
    {
      var i := 0;
      while i < |supportedMethods|
        invariant i <= |supportedMethods|
        invariant AttachAll(old(attrs), supportedMethods) == AttachAll(attrs, supportedMethods[i..])
      {
        assert supportedMethods[i..][1..] == supportedMethods[i + 1..];
        var name := Lower(supportedMethods[i]);
        if name in attrs && TruthyMember(attrs[name]) {
          var func := attrs[name];
          var flags := CoFlags(func);
          if flags.None? {
            return Some(AttributeError);
          }
          if flags.value & CoGenerator == 0 {
            attrs := attrs[name := CallTimed(func)];
          }
        }
        i := i + 1;
      }
      err := None;
    }
  }
}
