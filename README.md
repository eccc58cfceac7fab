# tornadotiming, modelled in Dafny

`tornadotiming` instruments a tornado web application for latency. It wraps
request-handler methods so that any call taking more than one second
emits a critical log record. Generator-based coroutines are wrapped so that
each single resumption is timed, not the coroutine's whole lifetime. Both
wrappers must leave the wrapped code's behaviour unchanged.

This project models the four parts of `tornadotiming.py` that have behaviour
of their own:

- `formatargs` (module `ArgFormat`): renders a call's arguments over an
  abstract `repr`.
- `timingwrapper` (module `CallTimer`): one call of the wrapped function.
  The callee's behaviour and the measured elapsed time are inputs. The
  result is the outcome the caller sees and the records logged.
- `timingwrapper_gen` (module `StepTimer`): the relay loop as an imperative
  method (`RunWrapper`) over a stateful inner `Generator` object. It is proved
  equal to a specification function (`Relay`). Lemmas relate that function to
  the inner generator driven directly by the scheduler (`Drive`).
- The verb-method attachment loop run by both constructors, and `coroutine`
  (module `Attachment`). The handler is a class whose attributes are a
  `map<string, Member>`. The loop is proved equal to a fold (`AttachAll`),
  with frame, wrapping and error lemmas about the fold.

Module `Common` holds the Python vocabulary: values and their truthiness,
exceptions, `str.join`, ASCII `str.lower`, the one-second threshold and the
two record formats.

Elapsed times are `real` seconds supplied by the caller, and the threshold
test is strict (`> 1.0`). The scheduler is a sequence of `Tick`s. Each tick
is the value sent into the wrapper and the time measured around that
resumption.

Three defects in the source are modelled as written and also in corrected
form (see "## Findings"). Each wrapper, and the derivable handler's
constructor, takes a `Variant` (`AsWritten` or `Corrected`). `AsWritten`
follows the code's branches, with the truth test and `repr` assumed never
to raise (see "## Left out"). A relay that must pass every sent value
through needs a sentinel, not a truth test, to tell its first resumption
apart. A timing wrapper that must leave the wrapped call's behaviour
unchanged must not let rendering its arguments for the log abort the call.
The code does neither, and the model follows the code.

## Model

| member | source | states |
|---|---|---|
| `ArgFormat.FormatArgsAsWritten` | tornadotiming.py:11-17 | With no arguments the result is `""`. With positional arguments only, it is their reprs joined by `", "`. It raises TypeError exactly when there is a keyword argument, with or without positional ones. |
| `ArgFormat.FormatArgsCorrected` | tornadotiming.py:11-17 | The repaired two-level join equals one flat `", "`-join of the positional reprs followed by the `k=v` renderings. It never fails. |
| `ArgFormat.AsWrittenAgreesWithCorrected` | tornadotiming.py:13-17 | Wherever the original succeeds, it renders the same string as the repair. The repair always succeeds. The original succeeds iff there are no keyword arguments. |
| `ArgFormat.KeywordArgumentRaises` | tornadotiming.py:15-17 | One keyword argument makes the original raise TypeError whatever the positional arguments are. The repair renders it as `repr(k)=repr(v)`. |
| `CallTimer.TimedCall` | tornadotiming.py:20-41 | If `f` raises, the same exception reaches the caller and nothing is logged. At or below one second, the caller sees `f`'s own outcome and nothing is logged. Otherwise it differs from `f`'s outcome only when rendering fails, and then it raises that error. There is at most one record, exactly when `f` returned, the call was slow and the arguments rendered. The record holds the elapsed time, file, first line, name, rendered arguments and result. |
| `CallTimer.ThresholdIsStrict` | tornadotiming.py:29-38 | Exactly 1.0 s logs nothing. 1.000001 s logs the one record with the expected fields. |
| `CallTimer.SlowKeywordCallRaises` | tornadotiming.py:27-39 | As written, a slow call with keyword arguments raises TypeError instead of returning its result, and logs nothing. |
| `CallTimer.CorrectedCallIsTransparent` | tornadotiming.py:25-39 | With the repaired rendering the caller always sees `f`'s outcome, and a record exists iff `f` returned and was slow. |
| `StepTimer.Generator.Next` | tornadotiming.py:56 | `gen.next()` records a `next` resumption and returns the behaviour's result on the values received so far, with None for this one. A finished generator answers StopIteration. |
| `StepTimer.Generator.Send` | tornadotiming.py:54 | `gen.send(v)` delivers `v`. A just-started generator refuses a non-None value with TypeError. |
| `StepTimer.RunWrapper` | tornadotiming.py:43-72 | The `while True` loop yields, logs, ends and resumes the inner generator exactly as the specification function `Relay` says. Afterwards the inner generator is finished iff its last resumption returned or raised, so it is still paused after a rendering failure. |
| `StepTimer.RelayFollowsPlan` | tornadotiming.py:50-70 | The relay resumes the inner generator according to a plan. It yields, one to one and in order, what the inner generator driven by that plan yields. It ends exactly when the inner generator ends. |
| `StepTimer.SentinelRelayIsTransparent` | tornadotiming.py:47-70 | The corrected relay starts with `next()` and then sends every scheduler value unchanged. Its yields, step count and ending equal those of the inner generator driven directly by the scheduler. |
| `StepTimer.TruthinessRelayFollowsInner` | tornadotiming.py:47-56 | As written, the first resumption is `next()`. Later ones are `send(v)` only for a truthy `v` and `next()` otherwise, so falsy values arrive as None. Under those resumptions the wrapper relays every inner yield once, in order, and ends when the inner generator ends. |
| `StepTimer.FalsySentValueIsLost` | tornadotiming.py:53-56 | Send 0 to an echoing generator. The original wrapper yields None where direct driving and the corrected wrapper yield 0. |
| `StepTimer.RelayLogsSlowSteps` | tornadotiming.py:52-69 | There is one record per slow relayed step, independent of the other steps. The records' count is the number of slow ticks among the relayed steps. Each record is a slow-iteration record with a slow elapsed time and the routine's file and name. |
| `StepTimer.RelayYieldsOutcomes` | tornadotiming.py:51-70 | The k-th value the wrapper yields is the value the inner generator yielded at its k-th resumption. The wrapper makes at most one resumption beyond those it relays. |
| `StepTimer.RelayRecordsEachSlowStep` | tornadotiming.py:52-70 | Whenever the arguments render, the log is, in step order, one record for each step that yielded on a slow tick and none for any other. The k-th step's record carries the k-th tick's elapsed time, the line the inner generator paused at, the rendered arguments and the value it yielded, which is the value relayed for that step. |
| `StepTimer.KeywordArgumentsSuppressStepLog` | tornadotiming.py:60-70 | As written, with keyword arguments nothing is ever logged. Every step the wrapper relays was fast. A step that yields on a slow tick is not relayed: the wrapper ends there with TypeError. |
| `StepTimer.SlowYieldEndsRelay` | tornadotiming.py:51-70 | As written, with keyword arguments the wrapper takes at most one step it does not relay. If that step yielded, its tick was slow and the wrapper ends with TypeError. |
| `Attachment.AttachAllFrame` | tornadotiming.py:81-91 | The loop keeps the set of attributes. Any attribute not named by a lower-cased supported verb keeps its value. |
| `Attachment.AttachAllFailsOnlyOnUnclassifiable` | tornadotiming.py:86-89 | The loop stops with AttributeError, and with no other exception, iff some verb names a truthy attribute that has no code object. |
| `Attachment.AttachAllWrapsVerbMethods` | tornadotiming.py:81-91 | For distinct verb names, each present method becomes `timingwrapper(method)` iff it is truthy and its flags have bit 0x20 clear. Otherwise it is unchanged: absent, falsy or a generator function. |
| `Attachment.RequestHandler.WrapVerbMethods` | tornadotiming.py:81-91 | The imperative loop leaves the attributes, and any exception, exactly as the fold `AttachAll` does. |
| `Attachment.UnboundInitSkipsWrapping` | tornadotiming.py:78-91 | As written, the derivable class's constructor raises TypeError at line 80 (the unbound `RequestHandler.__init__` of line 9 gets the Application as its first argument). Every verb method the loop should call-time is left unwrapped, where the corrected constructor wraps it. |
| `Attachment.CorrectedDerivedInitWraps` | tornadotiming.py:79-91 | With `self` passed first, the constructor fails iff some verb names a truthy attribute without a code object. Otherwise every verb method present is call-timed iff it should be wrapped, and the attribute set is kept. |
| `Attachment.RequestHandler.TimingRequestHandler` | tornadotiming.py:78-91 | As written, the instance ends with TypeError and its attributes untouched. Corrected, it holds `AttachAll` of the framework constructor's attributes over `SUPPORTED_METHODS`. |
| `Attachment.RequestHandler.Monkeypatched` | tornadotiming.py:94-113 | Runs the identical loop, with the identical resulting attributes. |
| `Attachment.Coroutine` | tornadotiming.py:117-121 | The framework transform wraps the step-timed routine, not the reverse. The step-timed routine is a generator function, so the loop skips it. The decorated method is wrapped again iff the framework's wrapper is not a generator function. |

## Findings

| source | as written | input that shows it | evidently intended | confidence | as-written member | corrected member |
|---|---|---|---|---|---|---|
| tornadotiming.py:16 | appends a list of literal `"%r=%r"` strings, which the join at line 17 rejects | any slow call or slow generator step with a keyword argument, e.g. `kwargs = {"x": 1}` | one `"%r=%r" % (k, v)` per keyword, joined with `", "` | high, not executed | `ArgFormat.FormatArgsAsWritten` | `ArgFormat.FormatArgsCorrected` |
| tornadotiming.py:80 | calls the unbound `RequestHandler.__init__` (bound at line 9) with the caller's arguments and without `self`; Python 2 raises TypeError when an unbound method's first argument is not an instance of its class | any request routed to a `TimingRequestHandler` subclass: the framework calls `handler_class(application, request)`, so the first argument is the Application | `original_RequestHandler_init(self, *args, **kwargs)`, as line 102 has it | high, not executed | `Attachment.UnboundInitSkipsWrapping` | `Attachment.CorrectedDerivedInitWraps` |
| tornadotiming.py:53 | `if nextValue:` decides between `send` and `next` by truth value | the scheduler sends `0` (or `""`, `False`, an empty list) back into the wrapper | `next()` only for the first resumption, then `send` of whatever was sent | high, not executed | `StepTimer.FalsySentValueIsLost` | `StepTimer.SentinelRelayIsTransparent` |

Every wrapper is parameterised by `Variant`. The corrected members are used
wherever `Corrected` is passed. `CallTimer.CorrectedCallIsTransparent` states
the repaired call wrapper's transparency.

## Left out

- Wall-clock reads (`time.time()`): elapsed durations are inputs, not computed.
- The `logging` module: records are returned as a sequence of `LogEntry` values. The lazy `%f`/`%r` rendering is not modelled, and the result value is kept as it is.
- Python introspection: `func_code`, `co_filename`, `co_firstlineno`, `func_name`, `gi_code` and `gi_frame.f_lineno` are opaque fields (`Code`, `Generator.file`, `Yielded.line`). `functools.wraps` has no behaviour to model here.
- CallTimer.TimedCall: does not state that `f` is invoked exactly once. The callee is a pure function of its arguments, applied once to the caller's arguments. Side effects of `f` are outside the model.
- StepTimer.RelayFollowsPlan: requires that argument rendering never fails on the remaining steps. The as-written relay with keyword arguments and a slow step is covered by `StepTimer.KeywordArgumentsSuppressStepLog` instead.
- StepTimer.TruthinessRelayFollowsInner: carries the same restriction on argument rendering.
- The creation of the inner generator, `f(*args, **kwargs)` at line 50, is not modelled. `RunWrapper` receives the fresh generator object.
- `throw()` and `close()` on generators are not modelled, and neither is the framework's coroutine scheduler. The wrapper only calls `next` and `send`.
- tornado's own handler constructor (lines 80 and 102) is a foreign call. Its result is the `base` attributes passed to the constructors. Only its unbound-method argument check is modelled: it raises TypeError at line 80, and not at line 102, which passes `self`.
- `monkeypatch()` (lines 123-128) only rebinds library globals and is not modelled.
- The framework's coroutine transform is opaque. `Scheduled` carries only its wrapper's code object.
- non_monkeypatched.py is a demo server (routes, IOLoop, sleeps, writes) and is not part of this model.
- ArgFormat.FormatArgsCorrected: `repr` is assumed never to raise. A user `__repr__` that raises would make `formatargs` raise too, so the claim that the repaired rendering never fails holds only under that assumption.
- CallTimer.CorrectedCallIsTransparent: holds only while `repr` does not raise. A raising `__repr__` on a slow call would reach the caller in place of `f`'s result.
- StepTimer.SentinelRelayIsTransparent: holds only while `repr` does not raise, for the same reason, on a slow step.
- CallTimer.TimedCall: a rendering failure is modelled only as the TypeError of line 16, not as an exception raised by `repr`.
- The truth test is total: `Truthy` and `TruthyMember` never raise. In the source, `if nextValue:` (line 53) and `if getattr(self, method, None):` (lines 86 and 108) call `__nonzero__` or `__len__`, and these can raise (a numpy array, say). `getattr` with a default also lets through any exception other than AttributeError, for instance from a property getter. Those exceptions are not modelled.
- StepTimer.RelayFollowsPlan: for `AsWritten`, "ends exactly when the inner generator ends" assumes that the truth test at line 53 does not raise. A raising `__nonzero__` would end the wrapper before it resumes the inner generator.
- StepTimer.TruthinessRelayFollowsInner: assumes, in the same way, that `if nextValue:` never raises.
- Attachment.AttachAllFailsOnlyOnUnclassifiable: "AttributeError and no other exception" assumes that reading a verb-named attribute and testing its truth (line 86) do not raise.
- Attachment.CorrectedDerivedInitWraps: "fails iff a verb names a truthy attribute without a code object" rests on the same assumption about line 86.
- `str.lower()` is modelled as ASCII lower-casing, as Python 2 does for byte strings in the C locale.
