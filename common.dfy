/** Python-level vocabulary shared by the timing wrappers: the values that flow
    through a wrapped call or a relayed generator step, Python's truthiness,
    the errors the wrappers can raise, `str.join`, `str.lower`, the slowness
    threshold and the two log record formats. */
module Common {

  /** A Python value, as far as the wrappers can observe it. `Obj` stands for
      any other object (a list, a dict, a future's result, ...): it carries an
      identity and whatever its truth test answers. The truth test is total
      here: a `__nonzero__` or `__len__` that raises is not modelled. */
  datatype Value =
    | NoneV
    | BoolV(b: bool)
    | IntV(i: int)
    | StrV(s: string)
    | Obj(id: nat, truthy: bool)

  /** Python's truth test (`if v:`): None, False, 0 and "" are falsy. */
  predicate Truthy(v: Value)
  {
    match v
    case NoneV => false
    case BoolV(b) => b
    case IntV(i) => i != 0
    case StrV(s) => s != []
    case Obj(_, t) => t
  }

  /** The exceptions the model distinguishes: the two the wrappers themselves
      can raise, and any exception raised by the wrapped code. */
  datatype PyError = TypeError | AttributeError | AppError(id: nat)

  datatype Option<+T> = None | Some(value: T)

  /** A computation that returns a value or raises. */
  datatype Result<+T> = Ok(value: T) | Err(error: PyError)

  /** `repr()` is left abstract: every operation takes it as a parameter. It
      is total here: a user `__repr__` that raises is not modelled. */
  type Repr = Value -> string

  /** The arguments of one call: the positional tuple and the keyword
      arguments in the dictionary's iteration order. */
  datatype Arguments = Arguments(positional: seq<Value>, keywords: seq<(string, Value)>)

  /** What Python 2 keeps in a function's code object that the wrappers read:
      `co_filename`, `co_firstlineno`, the function's name and `co_flags`. */
  datatype Code = Code(file: string, firstLine: int, name: string, flags: bv32)

  /** A call or a generator step is slow when it took strictly more than one second. */
  const Threshold: real := 1.0

  predicate IsSlow(elapsed: real)
  {
    elapsed > Threshold
  }

  /** The two critical-level records the wrappers emit:
      "Slow function call took %f seconds on %s line %d %s(%s) returned %r" and
      "Slow generator function iteration took %f seconds on %s line %d %s(%s) returned %r". */
  datatype LogEntry =
    | SlowCall(elapsed: real, file: string, line: int, name: string, args: string, result: Value)
    | SlowIteration(elapsed: real, file: string, line: int, name: string, args: string, result: Value)

  /** Which behaviour a wrapper follows where the source has a defect:
      `AsWritten` is the code as it stands, `Corrected` the evidently intended
      behaviour (see the findings on `formatargs` and on the step relay). */
  datatype Variant = AsWritten | Corrected

  /** `sep.join(parts)` over strings. */
  function Join(parts: seq<string>, sep: string): string
  {
    if |parts| == 0 then ""
    else if |parts| == 1 then parts[0]
    else parts[0] + sep + Join(parts[1..], sep)
  }

  /** Joining two non-empty lists is joining their joins: the fact that makes a
      two-level `", ".join` equal to a flat one. */
  lemma {:induction false} JoinConcat(a: seq<string>, b: seq<string>, sep: string)
    requires |a| > 0 && |b| > 0
    ensures Join(a + b, sep) == Join(a, sep) + sep + Join(b, sep)
  {
    if |a| == 1 {
      assert (a + b)[1..] == b;
    } else {
      assert (a + b)[1..] == a[1..] + b;
      JoinConcat(a[1..], b, sep);
    }
  }

  /** Python 2 `str.lower()` on a byte string: ASCII letters only. */
  function LowerChar(c: char): char
  {
    if 'A' <= c <= 'Z' then (c as int + 32) as char else c
  }

  function Lower(s: string): (r: string)
    ensures |r| == |s|
    ensures forall k :: 0 <= k < |s| ==> r[k] == LowerChar(s[k])
  {
    if s == [] then [] else [LowerChar(s[0])] + Lower(s[1..])
  }
}
