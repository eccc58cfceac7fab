/** `formatargs(args, kwargs)`: the rendering of a call's arguments that goes
    into a slow-call record. */
module ArgFormat {
  import opened Common

  /** An element of the local list `ret`: a string, or (line 16) a list. */
  datatype Item = StrItem(s: string) | ListItem(xs: seq<string>)

  /** `sep.join(items)`: succeeds only when every element is a string, and
      raises TypeError as soon as one is not. */
  function JoinItems(items: seq<Item>, sep: string): (r: Result<string>)
    ensures r.Err? <==> exists k :: 0 <= k < |items| && items[k].ListItem?
    ensures r.Err? ==> r.error == TypeError
  {
    if forall k :: 0 <= k < |items| ==> items[k].StrItem?
    then Ok(Join(seq(|items|, k requires 0 <= k < |items| => items[k].s), sep))
    else Err(TypeError)
  }

  function Reprs(repr: Repr, vs: seq<Value>): (r: seq<string>)
    ensures |r| == |vs| && forall k :: 0 <= k < |vs| ==> r[k] == repr(vs[k])
  {
    seq(|vs|, k requires 0 <= k < |vs| => repr(vs[k]))
  }

  /** `"%r=%r" % (k, v)` for every keyword argument. */
  function KeywordReprs(repr: Repr, kws: seq<(string, Value)>): (r: seq<string>)
    ensures |r| == |kws| && forall k :: 0 <= k < |kws| ==> r[k] == repr(StrV(kws[k].0)) + "=" + repr(kws[k].1)
  {
    seq(|kws|, k requires 0 <= k < |kws| => repr(StrV(kws[k].0)) + "=" + repr(kws[k].1))
  }

  /** `formatargs` as written. With no arguments it is "", with positional
      arguments only it is their reprs joined by ", ", and as soon as there is
      a keyword argument it raises TypeError: line 16 appends a list of
      unformatted "%r=%r" strings and the join at line 17 refuses it. */
  function FormatArgsAsWritten(repr: Repr, args: Arguments): (r: Result<string>)
    ensures r.Err? <==> |args.keywords| > 0
    ensures r.Err? ==> r.error == TypeError
    ensures |args.keywords| == 0 ==> r == Ok(Join(Reprs(repr, args.positional), ", "))
    ensures |args.positional| == 0 && |args.keywords| == 0 ==> r == Ok("")
  {
    var ret := (if |args.positional| > 0 then [StrItem(Join(Reprs(repr, args.positional), ", "))] else [])
             + (if |args.keywords| > 0 then [ListItem(seq(|args.keywords|, _ => "%r=%r"))] else []);
    assert |args.keywords| > 0 ==> ret[|ret| - 1].ListItem?;
    JoinItems(ret, ", ")
  }

  /** `formatargs` as evidently intended: the keyword entries are formatted as
      `k=v` and joined like the positional ones. The two-level join is one flat
      join of every rendered argument, so the result never fails. */
  function FormatArgsCorrected(repr: Repr, args: Arguments): (r: string)
    ensures r == Join(Reprs(repr, args.positional) + KeywordReprs(repr, args.keywords), ", ")
  {
    var pos := Reprs(repr, args.positional);
    var kws := KeywordReprs(repr, args.keywords);
    var ret := (if |pos| > 0 then [Join(pos, ", ")] else [])
             + (if |kws| > 0 then [Join(kws, ", ")] else []);
    if |pos| > 0 && |kws| > 0 then
      JoinConcat(pos, kws, ", ");
      assert ret == [Join(pos, ", "), Join(kws, ", ")] && ret[1..] == [Join(kws, ", ")];
      assert Join(ret[1..], ", ") == Join(kws, ", ");
      assert Join(ret, ", ") == Join(pos, ", ") + ", " + Join(kws, ", ");
      Join(ret, ", ")
    else
      assert pos + kws == if |pos| > 0 then pos else kws;
      Join(ret, ", ")
  }

  /** The rendering a wrapper uses under either variant. */
  function FormatArgs(v: Variant, repr: Repr, args: Arguments): Result<string>
  {
    match v
    case AsWritten => FormatArgsAsWritten(repr, args)
    case Corrected => Ok(FormatArgsCorrected(repr, args))
  }

  /** The defect and its repair agree wherever the code as written works:
      without keyword arguments both render the same string, and the repaired
      version renders keyword arguments where the original raises. */
  lemma AsWrittenAgreesWithCorrected(repr: Repr, args: Arguments)
    ensures FormatArgsAsWritten(repr, args).Ok? ==> FormatArgsAsWritten(repr, args).value == FormatArgsCorrected(repr, args)
    ensures FormatArgs(Corrected, repr, args).Ok?
    ensures FormatArgs(AsWritten, repr, args).Ok? <==> |args.keywords| == 0
  {
  }

  /** One keyword argument is enough to make the original raise, with or
      without positional arguments; the repaired version renders it. */
  lemma KeywordArgumentRaises(repr: Repr, pos: seq<Value>, key: string, val: Value)
    ensures FormatArgsAsWritten(repr, Arguments(pos, [(key, val)])) == Err(TypeError)
    ensures FormatArgsCorrected(repr, Arguments([], [(key, val)])) == repr(StrV(key)) + "=" + repr(val)
  {
  }
}
