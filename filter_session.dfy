/**
 * The filter tutor's per-user state (the tutor's HydraTutorState): the
 * filter last decoded from the user's text, kept as a value filter, a
 * bundle filter or a closeable bundle filter together with the (filter
 * text, filter type) it was decoded from, so that the same filter is not
 * decoded twice; the future of a running request; and what a call does
 * with the input.
 *
 * Parsing and resolving the filter's configuration, the codec that decodes
 * a filter, the three plugin registries, and running a filter on one input
 * line are given by `Plugins`.
 */
module FilterSessions {
  import opened Wrappers
  import opened Errors
  import opened JavaStrings
  import opened FilterLines

  datatype Kind = ValueKind | BundleKind | CloseableKind

  /** A decoded filter: which one, whether it is an eval-java filter, and
    * whether it is a CMS-limit closeable filter, which needs a data directory. */
  datatype Filter = Filter(id: nat, evalJava: bool, cmsLimit: bool)

  /** A bundle filter's work on one line: the bundle's JSON text once filtered, and the verdict. */
  datatype Verdict = Verdict(json: string, result: bool)

  datatype Plugins = Plugins(
    /** The names each plugin registry knows. */
    valueOps: set<string>, bundleOps: set<string>, closeableOps: set<string>,
    /** The filter text's configuration, parsed and resolved: its `op`, if it has one. */
    op: string -> Result<Option<string>, Error>,
    /** The codec decoding the configuration as a filter of a kind. */
    decode: (Kind, string) -> Result<Filter, Error>,
    /** A value filter on one line: the line as a value, filtered, as text; None when the result is null. */
    valueLine: (Filter, string) -> Result<Option<string>, Error>,
    /** A bundle or closeable bundle filter on one line, decoded as a bundle. */
    bundleLine: (Filter, string) -> Result<Verdict, Error>)

  const FilterTypes: seq<string> := ["auto", "value", "bundle", "closeable bundle"]

  const BadFilterType: string :=
    "Internal error: the filter type is not one of \"auto\", \"bundle\", \"closeable bundle\", or \"value\"."

  const NoFilter: string := "Illegal state reached in hydra-tutor."

  const Unconvertible: string :=
    "Cannot convert the filter to a bundle filter, value filter, or closeable bundle filter. "
    + "Specify 'bundle', 'value', or 'closeable bundle', for more information"

  /** The ambiguity message: what is ambiguous, the two readings and the two choices. */
  function Ambiguity(subject: string, kinds: string, choices: string): string {
    "The " + subject + " can be interpreted as either " + kinds + ". Please select " + choices + " and retry."
  }

  const BundleOrValue: string := "a bundle filter or a value filter"
  const BundleOrValueChoice: string := "'bundle' or 'value'"
  const BundleOrCloseable: string := "a bundle filter or a closeable bundle filter"
  const BundleOrCloseableChoice: string := "'bundle' or 'closeable bundle'"
  const ValueOrCloseable: string := "a value filter or a closeable bundle filter"
  const ValueOrCloseableChoice: string := "'value' or 'closeable bundle'"
  const CloseableOrValue: string := "a closeable bundle filter or a value filter"
  const CloseableOrValueChoice: string := "'closeable bundle' or 'value'"

  function OpSubject(stype: string): string {
    "'op' : \"" + stype + "\""
  }

  function Unrecognized(stype: string): string {
    "Cannot recognize the 'op' : \"" + stype + "\""
  }

  /** The cache key: the trimmed filter text and the filter type. */
  datatype CacheKey = CacheKey(filter: string, filterType: string)

  /** The three filter fields. */
  datatype Selection = Selection(v: Option<Filter>, b: Option<Filter>, c: Option<Filter>)

  /** What decoding leaves in the filter fields, and the exception it throws, if any. */
  datatype Decoding = Decoding(selection: Selection, error: Option<Error>)

  const Nothing: Selection := Selection(None, None, None)

  function Slot(k: Kind, f: Filter): (r: Selection) {
    match k
    case ValueKind => Selection(Some(f), None, None)
    case BundleKind => Selection(None, Some(f), None)
    case CloseableKind => Selection(None, None, Some(f))
  }

  /** Decoding as one kind: the field of that kind is set only when decoding succeeds. */
  function DecodeAs(p: Plugins, k: Kind, text: string): (r: Decoding)
    ensures r.error.Some? <==> p.decode(k, text).Failure?
    ensures r.error.Some? ==> r.selection == Nothing && r.error.value == p.decode(k, text).error
    ensures r.error.None? ==> Count(r.selection.v.Some?) + Count(r.selection.b.Some?) + Count(r.selection.c.Some?) == 1
    ensures r.selection.v.Some? ==> k == ValueKind && p.decode(k, text) == Success(r.selection.v.value)
    ensures r.selection.b.Some? ==> k == BundleKind && p.decode(k, text) == Success(r.selection.b.value)
    ensures r.selection.c.Some? ==> k == CloseableKind && p.decode(k, text) == Success(r.selection.c.value)
  {
    match p.decode(k, text)
    case Failure(e) => Decoding(Nothing, Some(e))
    case Success(f) => Decoding(Slot(k, f), None)
  }

  /** Auto mode with an `op`: the registries that know it decide. */
  function ByOp(p: Plugins, stype: string, text: string): (r: Decoding)
    ensures r.error.Some? ==> r.selection == Nothing
    ensures r.selection.v.Some? ==> stype in p.valueOps && stype !in p.bundleOps && stype !in p.closeableOps
    ensures r.selection.b.Some? ==> stype !in p.valueOps && stype in p.bundleOps && stype !in p.closeableOps
    ensures r.selection.c.Some? ==> stype !in p.valueOps && stype !in p.bundleOps && stype in p.closeableOps
    ensures r.error.None? ==> Count(r.selection.v.Some?) + Count(r.selection.b.Some?) + Count(r.selection.c.Some?) == 1
  {
    var inV := stype in p.valueOps;
    var inB := stype in p.bundleOps;
    var inC := stype in p.closeableOps;
    if inV && inB then
      Decoding(Nothing, Some(IllegalState(Ambiguity(OpSubject(stype), BundleOrValue, BundleOrValueChoice))))
    else if inB && inC then
      Decoding(Nothing, Some(IllegalState(Ambiguity(OpSubject(stype), BundleOrCloseable, BundleOrCloseableChoice))))
    else if inV && inC then
      Decoding(Nothing, Some(IllegalState(Ambiguity(OpSubject(stype), ValueOrCloseable, ValueOrCloseableChoice))))
    else if inV then DecodeAs(p, ValueKind, text)
    else if inB then DecodeAs(p, BundleKind, text)
    else if inC then DecodeAs(p, CloseableKind, text)
    else Decoding(Nothing, Some(IllegalState(Unrecognized(stype))))
  }

  function Tried(r: Result<Filter, Error>): Option<Filter> {
    if r.Success? then Some(r.value) else None
  }

  /** Auto mode without an `op`: every kind is tried, failures ignored;
    * the fields keep every kind that decoded, even when that is an error. */
  function ByTrial(p: Plugins, text: string): (r: Decoding)
    ensures r.selection.v.Some? <==> p.decode(ValueKind, text).Success?
    ensures r.selection.b.Some? <==> p.decode(BundleKind, text).Success?
    ensures r.selection.c.Some? <==> p.decode(CloseableKind, text).Success?
    ensures r.error.None? ==> Count(r.selection.v.Some?) + Count(r.selection.b.Some?) + Count(r.selection.c.Some?) == 1
  {
    var sel := Selection(Tried(p.decode(ValueKind, text)), Tried(p.decode(BundleKind, text)), Tried(p.decode(CloseableKind, text)));
    var e :=
      if sel.v.Some? && sel.b.Some? then
        Some(IllegalState(Ambiguity("op", BundleOrValue, BundleOrValueChoice)))
      else if sel.c.Some? && sel.b.Some? then
        Some(IllegalState(Ambiguity("op", BundleOrCloseable, BundleOrCloseableChoice)))
      else if sel.v.Some? && sel.c.Some? then
        Some(IllegalState(Ambiguity("op", CloseableOrValue, CloseableOrValueChoice)))
      else if sel.v.None? && sel.b.None? && sel.c.None? then
        Some(IllegalState(Unconvertible))
      else None;
    Decoding(sel, e)
  }

  /** Decoding the trimmed filter text for a filter type among the four. */
  function Decode(p: Plugins, filterType: string, text: string): (r: Decoding)
    ensures p.op(text).Failure? ==> r == Decoding(Nothing, Some(p.op(text).error))
    ensures r.error.None? ==> Count(r.selection.v.Some?) + Count(r.selection.b.Some?) + Count(r.selection.c.Some?) == 1
    ensures filterType == "value" ==> r.selection.b.None? && r.selection.c.None?
    ensures filterType == "bundle" ==> r.selection.v.None? && r.selection.c.None?
  {
    match p.op(text)
    case Failure(e) => Decoding(Nothing, Some(e))
    case Success(op) =>
      if filterType == "auto" then (if op.Some? then ByOp(p, op.value, text) else ByTrial(p, text))
      else if filterType == "bundle" then DecodeAs(p, BundleKind, text)
      else if filterType == "value" then DecodeAs(p, ValueKind, text)
      else DecodeAs(p, CloseableKind, text)
  }

  // -------------------------------------------------------------- state

  /** The fields; `cancelled` lists the futures cancelled and `closed` the
    * closeable filters closed, in order; `temporaryDir` tells whether a
    * data directory for a CMS-limit filter exists. */
  datatype State = State(
    v: Option<Filter>, b: Option<Filter>, c: Option<Filter>, cache: Option<CacheKey>,
    temporaryDir: bool, future: Option<nat>, cancelled: seq<nat>, closed: seq<Filter>)

  /** A call's new state and its output or exception. */
  datatype Call = Call(state: State, result: Result<string, Error>)

  /** cleanupCloseableFilter(): a closeable filter is closed and dropped,
    * and the cache with it; the data directory is deleted. */
  function Cleanup(s: State): (r: State)
    ensures r.c.None? && !r.temporaryDir
    ensures r.v == s.v && r.b == s.b && r.future == s.future && r.cancelled == s.cancelled
    ensures r.cache == (if s.c.Some? then None else s.cache)
    ensures r.closed == s.closed + (if s.c.Some? then [s.c.value] else [])
  {
    var s1 := if s.c.Some? then s.(cache := None, closed := s.closed + [s.c.value], c := None) else s;
    s1.(temporaryDir := false)
  }

  /** A value filter's output line for one input line, "null" standing for a null result. */
  function ValueText(p: Plugins, f: Filter, line: string): Result<string, Error> {
    var out := p.valueLine(f, line);
    if out.Failure? then Failure(out.error)
    else Success(if out.value.Some? then out.value.value else "null")
  }

  /** A bundle filter's output line for one input line: the bundle and the verdict. */
  function BundleText(p: Plugins, f: Filter, line: string): Result<string, Error> {
    var w := p.bundleLine(f, line);
    if w.Failure? then Failure(w.error) else Success(VerdictLine(w.value.json, w.value.result))
  }

  function ValueResults(p: Plugins, f: Filter, lines: seq<string>): (r: seq<Result<string, Error>>)
    ensures |r| == |lines| && forall i :: 0 <= i < |lines| ==> r[i] == ValueText(p, f, lines[i])
  {
    seq(|lines|, i requires 0 <= i < |lines| => ValueText(p, f, lines[i]))
  }

  function BundleResults(p: Plugins, f: Filter, lines: seq<string>): (r: seq<Result<string, Error>>)
    ensures |r| == |lines| && forall i :: 0 <= i < |lines| ==> r[i] == BundleText(p, f, lines[i])
  {
    seq(|lines|, i requires 0 <= i < |lines| => BundleText(p, f, lines[i]))
  }

  /** Running the filter the fields hold over the lines: a value filter
    * first, then a bundle filter, then a closeable one (which first gets
    * a data directory when it is a CMS-limit filter). */
  function Run(p: Plugins, allowEvalJava: bool, s: State, lines: seq<string>): (r: Call)
    ensures r.state == s || r.state == s.(temporaryDir := true)
  {
    if s.v.Some? then
      if s.v.value.evalJava && !allowEvalJava then Call(s, Failure(Unsupported(EvalJavaDisabled)))
      else Call(s, Emitted(ValueResults(p, s.v.value, lines), |lines|))
    else if s.b.Some? then
      if s.b.value.evalJava && !allowEvalJava then Call(s, Failure(Unsupported(EvalJavaDisabled)))
      else Call(s, Emitted(BundleResults(p, s.b.value, lines), |lines|))
    else if s.c.Some? then
      var s1 := if s.c.value.cmsLimit && !s.temporaryDir then s.(temporaryDir := true) else s;
      Call(s1, Emitted(BundleResults(p, s.c.value, lines), |lines|))
    else Call(s, Failure(IllegalState(NoFilter)))
  }

  /** The body of doFilter's try block. */
  function Attempt(p: Plugins, allowEvalJava: bool, s: State, input: Option<string>, filter: Option<string>, filterType: Option<string>): (r: Call)
    ensures r.state.future == s.future && r.state.cancelled == s.cancelled
  {
    if input.None? || filter.None? then Call(s, Success(""))
    else if filterType.None? || filterType.value !in FilterTypes then Call(s, Failure(IllegalState(BadFilterType)))
    else
      var text := Trim(filter.value);
      var lines := Split(Trim(input.value));
      var key := CacheKey(text, filterType.value);
      if s.cache == Some(key) then Run(p, allowEvalJava, s, lines)
      else
        var cleared := Cleanup(s.(cache := Some(key), v := None, b := None));
        // closing a held closeable filter drops the key just cached, which
        // the config parse then dereferences
        if cleared.cache.None? then Call(cleared, Failure(NullPointer))
        else
          var d := Decode(p, filterType.value, text);
          var s1 := cleared.(v := d.selection.v, b := d.selection.b, c := d.selection.c);
          if d.error.Some? then Call(s1, Failure(d.error.value)) else Run(p, allowEvalJava, s1, lines)
  }

  /** doFilter: a runtime exception clears the cache and every filter before it propagates. */
  function DoFilter(p: Plugins, allowEvalJava: bool, s: State, input: Option<string>, filter: Option<string>, filterType: Option<string>): (r: Call)
    ensures r.state.future == s.future && r.state.cancelled == s.cancelled
    ensures r.result.Failure? && IsRuntime(r.result.error) ==> r.state.cache.None? && r.state.v.None? && r.state.b.None? && r.state.c.None?
  {
    var a := Attempt(p, allowEvalJava, s, input, filter, filterType);
    if a.result.Failure? && IsRuntime(a.result.error) then Call(Cleanup(a.state.(cache := None, b := None, v := None)), a.result)
    else a
  }

  /** filter: doFilter, then the closeable filter's cleanup in any case. */
  function FilterCall(p: Plugins, allowEvalJava: bool, s: State, input: Option<string>, filter: Option<string>, filterType: Option<string>): (r: Call)
    ensures r.result == DoFilter(p, allowEvalJava, s, input, filter, filterType).result
    ensures r.state.c.None? && !r.state.temporaryDir
    ensures r.state.future == s.future && r.state.cancelled == s.cancelled
  {
    var d := DoFilter(p, allowEvalJava, s, input, filter, filterType);
    Call(Cleanup(d.state), d.result)
  }

  /** reset(): the future is cancelled, the cache and every filter dropped. */
  function Reset(s: State): (r: State)
    ensures r == State(None, None, None, None, false, None, r.cancelled, r.closed)
    ensures r.cancelled == s.cancelled + (if s.future.Some? then [s.future.value] else [])
    ensures r.closed == s.closed + (if s.c.Some? then [s.c.value] else [])
  {
    var s1 := if s.future.Some? then s.(cancelled := s.cancelled + [s.future.value]) else s;
    Cleanup(s1.(cache := None, v := None, b := None)).(future := None)
  }

  // ------------------------------------------------------------- lemmas

  function Count(b: bool): nat {
    if b then 1 else 0
  }

  /** The ambiguity errors for an op begin by naming it. */
  lemma AmbiguityNamesOp(stype: string, kinds: string, choices: string)
    ensures var m := Ambiguity(OpSubject(stype), kinds, choices);
      var pre := "The 'op' : \"" + stype + "\"";
      |m| >= |pre| && m[..|pre|] == pre
  {
    var pre := "The 'op' : \"" + stype + "\"";
    assert "The " + OpSubject(stype) == pre;
    assert Ambiguity(OpSubject(stype), kinds, choices) == pre + (" can be interpreted as either " + kinds + ". Please select " + choices + " and retry.");
  }

  /**
   * Auto mode with an `op`: an op two registries know is ambiguous and the
   * error names it; an op exactly one knows is decoded as that kind; an op
   * none knows is not recognized.
   */
  lemma OpResolution(p: Plugins, stype: string, text: string)
    ensures var n := Count(stype in p.valueOps) + Count(stype in p.bundleOps) + Count(stype in p.closeableOps);
      var d := ByOp(p, stype, text);
      && (n >= 2 ==> d.selection == Nothing && d.error.Some? && d.error.value.IllegalState?
                     && var m := d.error.value.message; var pre := "The 'op' : \"" + stype + "\"";
                     |m| >= |pre| && m[..|pre|] == pre)
      && (n == 1 && stype in p.valueOps ==> d == DecodeAs(p, ValueKind, text))
      && (n == 1 && stype in p.bundleOps ==> d == DecodeAs(p, BundleKind, text))
      && (n == 1 && stype in p.closeableOps ==> d == DecodeAs(p, CloseableKind, text))
      && (n == 0 ==> d == Decoding(Nothing, Some(IllegalState(Unrecognized(stype)))))
  {
    AmbiguityNamesOp(stype, BundleOrValue, BundleOrValueChoice);
    AmbiguityNamesOp(stype, BundleOrCloseable, BundleOrCloseableChoice);
    AmbiguityNamesOp(stype, ValueOrCloseable, ValueOrCloseableChoice);
  }

  /** Auto mode without an `op`: decoding succeeds exactly when exactly one
    * kind decodes, and it is then the only filter held. */
  lemma TrialResolution(p: Plugins, text: string)
    ensures var d := ByTrial(p, text);
      var n := Count(p.decode(ValueKind, text).Success?) + Count(p.decode(BundleKind, text).Success?)
        + Count(p.decode(CloseableKind, text).Success?);
      && (d.error.None? <==> n == 1)
      && (d.error.None? && p.decode(ValueKind, text).Success? ==> d.selection == Slot(ValueKind, p.decode(ValueKind, text).value))
      && (d.error.None? && p.decode(BundleKind, text).Success? ==> d.selection == Slot(BundleKind, p.decode(BundleKind, text).value))
      && (d.error.None? && p.decode(CloseableKind, text).Success? ==> d.selection == Slot(CloseableKind, p.decode(CloseableKind, text).value))
      && (n == 0 ==> d.error == Some(IllegalState(Unconvertible)))
  {
  }

  /** A successful decoding holds exactly one filter. */
  lemma DecodedOne(p: Plugins, filterType: string, text: string)
    requires Decode(p, filterType, text).error.None?
    ensures var s := Decode(p, filterType, text).selection;
      Count(s.v.Some?) + Count(s.b.Some?) + Count(s.c.Some?) == 1
  {
    var op := p.op(text);
    if filterType == "auto" && op.value.Some? {
      OpResolution(p, op.value.value, text);
    } else if filterType == "auto" {
      TrialResolution(p, text);
    }
  }

  /** A null input or filter gives the empty output and changes nothing but the cleanup. */
  lemma NullGivesEmpty(p: Plugins, allowEvalJava: bool, s: State, input: Option<string>, filter: Option<string>, filterType: Option<string>)
    requires input.None? || filter.None?
    ensures FilterCall(p, allowEvalJava, s, input, filter, filterType) == Call(Cleanup(s), Success(""))
  {
  }

  /** A filter type outside the four is rejected, and everything is dropped. */
  lemma BadTypeRejected(p: Plugins, allowEvalJava: bool, s: State, input: string, filter: string, filterType: Option<string>)
    requires filterType.None? || filterType.value !in FilterTypes
    ensures var r := FilterCall(p, allowEvalJava, s, Some(input), Some(filter), filterType);
      && r.result == Failure(IllegalState(BadFilterType))
      && r.state.cache.None? && r.state.v.None? && r.state.b.None? && r.state.c.None?
  {
  }

  /** With the same (filter, type) key as the cached one the filters are
    * not decoded again: the call runs the filters held. */
  lemma CacheHitReuses(p: Plugins, allowEvalJava: bool, s: State, input: string, filter: string, filterType: string)
    requires filterType in FilterTypes && s.cache == Some(CacheKey(Trim(filter), filterType))
    ensures Attempt(p, allowEvalJava, s, Some(input), Some(filter), Some(filterType)) ==
      Run(p, allowEvalJava, s, Split(Trim(input)))
  {
  }

  /** With another key the filters are decoded afresh, and the key is cached
    * unless a closeable filter is in use or the call throws. */
  lemma CacheMissDecodes(p: Plugins, allowEvalJava: bool, s: State, input: string, filter: string, filterType: string)
    requires filterType in FilterTypes && s.cache != Some(CacheKey(Trim(filter), filterType))
    ensures var d := Decode(p, filterType, Trim(filter));
      var r := FilterCall(p, allowEvalJava, s, Some(input), Some(filter), Some(filterType));
      && r.state.v == (if r.result.Failure? && IsRuntime(r.result.error) then None else d.selection.v)
      && r.state.b == (if r.result.Failure? && IsRuntime(r.result.error) then None else d.selection.b)
      && (r.result.Success? && s.c.None? && d.selection.c.None? ==> r.state.cache == Some(CacheKey(Trim(filter), filterType)))
  {
    var d := Decode(p, filterType, Trim(filter));
    var a := Attempt(p, allowEvalJava, s, Some(input), Some(filter), Some(filterType));
    AttemptMiss(p, allowEvalJava, s, input, filter, filterType);
    assert DoFilter(p, allowEvalJava, s, Some(input), Some(filter), Some(filterType))
      == if a.result.Failure? && IsRuntime(a.result.error) then Call(Cleanup(a.state.(cache := None, b := None, v := None)), a.result) else a;
  }

  /** The state the cache-miss branch of the try block leaves: the decoded
    * filters, or, when a closeable filter was held, no filter and the
    * exception from dereferencing the dropped cache key. */
  lemma AttemptMiss(p: Plugins, allowEvalJava: bool, s: State, input: string, filter: string, filterType: string)
    requires filterType in FilterTypes && s.cache != Some(CacheKey(Trim(filter), filterType))
    ensures var d := Decode(p, filterType, Trim(filter));
      var a := Attempt(p, allowEvalJava, s, Some(input), Some(filter), Some(filterType));
      && (s.c.Some? ==> a.result == Failure(NullPointer) && a.state.v.None? && a.state.b.None? && a.state.c.None?)
      && (s.c.None? ==> a.state.v == d.selection.v && a.state.b == d.selection.b && a.state.c == d.selection.c)
      && (a.result.Success? && s.c.None? && d.selection.c.None? ==> a.state.cache == Some(CacheKey(Trim(filter), filterType)))
  {
    var key := CacheKey(Trim(filter), filterType);
    var cleared := Cleanup(s.(cache := Some(key), v := None, b := None));
    var d := Decode(p, filterType, Trim(filter));
    var s1 := cleared.(v := d.selection.v, b := d.selection.b, c := d.selection.c);
    var a := Attempt(p, allowEvalJava, s, Some(input), Some(filter), Some(filterType));
    if s.c.None? {
      assert a == (if d.error.Some? then Call(s1, Failure(d.error.value)) else Run(p, allowEvalJava, s1, Split(Trim(input))));
    }
  }

  /** After any call no closeable filter and no data directory remain; a
    * runtime exception leaves no cache and no filter at all. */
  lemma AfterFilter(p: Plugins, allowEvalJava: bool, s: State, input: Option<string>, filter: Option<string>, filterType: Option<string>)
    ensures var r := FilterCall(p, allowEvalJava, s, input, filter, filterType);
      && r.state.c.None? && !r.state.temporaryDir
      && (r.result.Failure? && IsRuntime(r.result.error) ==> r.state.cache.None? && r.state.v.None? && r.state.b.None?)
      && r.state.future == s.future
  {
  }

  predicate NoFeed(o: Option<string>) {
    o.Some? ==> '\n' !in o.value
  }

  /** The value path writes one output line per input line ("null" for a
    * null result) when no line's output holds a line feed. */
  lemma ValueLinesCounted(p: Plugins, f: Filter, lines: seq<string>)
    requires forall i :: 0 <= i < |lines| ==> p.valueLine(f, lines[i]).Success? && NoFeed(p.valueLine(f, lines[i]).value)
    ensures Emitted(ValueResults(p, f, lines), |lines|).Success?
    ensures CountIn(Emitted(ValueResults(p, f, lines), |lines|).value, "\n") == |lines|
  {
    var rs := ValueResults(p, f, lines);
    forall i | 0 <= i < |rs|
      ensures rs[i].Success? && '\n' !in rs[i].value
    {
      var o := p.valueLine(f, lines[i]).value;
      assert rs[i] == Success(if o.Some? then o.value else "null");
      assert "null" == ['n', 'u', 'l', 'l'];
    }
    EmittedSucceeds(rs, |rs|);
    EmittedLines(rs, |rs|);
  }

  /** reset cancels the future, closes a closeable filter and drops the
    * cache and every filter; a call after it decodes afresh. */
  lemma ResetClears(s: State, filter: string, filterType: string)
    ensures var r := Reset(s);
      && r.cache.None? && r.v.None? && r.b.None? && r.c.None? && r.future.None? && !r.temporaryDir
      && r.cancelled == s.cancelled + (if s.future.Some? then [s.future.value] else [])
      && r.closed == s.closed + (if s.c.Some? then [s.c.value] else [])
      && r.cache != Some(CacheKey(filter, filterType))
  {
  }
}

/** The filter tutor's state as the object kept per user. */
module FilterTutorStates {
  import opened Wrappers
  import opened Errors
  import opened JavaStrings
  import opened FilterLines
  import opened FilterSessions

  class HydraTutorState {
    const plugins: Plugins
    /** The allow.eval.java system parameter. */
    const allowEvalJava: bool
    var vFilter: Option<Filter>
    var bFilter: Option<Filter>
    var cFilter: Option<Filter>
    var filterCache: Option<CacheKey>
    var temporaryDir: bool
    var future: Option<nat>
    var cancelled: seq<nat>
    var closed: seq<Filter>

    ghost function State(): State
      reads this
    {
      FilterSessions.State(vFilter, bFilter, cFilter, filterCache, temporaryDir, future, cancelled, closed)
    }

    constructor (plugins: Plugins, allowEvalJava: bool)
      ensures this.plugins == plugins && this.allowEvalJava == allowEvalJava
      ensures State() == FilterSessions.State(None, None, None, None, false, None, [], [])
    {
      this.plugins := plugins;
      this.allowEvalJava := allowEvalJava;
      vFilter, bFilter, cFilter, filterCache := None, None, None, None;
      temporaryDir := false;
      future := None;
      cancelled, closed := [], [];
    }

    method Filter(input: Option<string>, filter: Option<string>, filterType: Option<string>) returns (r: Result<string, Error>)
      modifies this
      ensures var t := FilterCall(plugins, allowEvalJava, old(State()), input, filter, filterType);
        State() == t.state && r == t.result
    {
      r := DoFilter(input, filter, filterType);
      CleanupCloseableFilter();
    }

    method DoFilter(input: Option<string>, filter: Option<string>, filterType: Option<string>) returns (r: Result<string, Error>)
      modifies this
      ensures var t := FilterSessions.DoFilter(plugins, allowEvalJava, old(State()), input, filter, filterType);
        State() == t.state && r == t.result
    {
      r := Attempt(input, filter, filterType);
      if r.Failure? && IsRuntime(r.error) {
        filterCache := None;
        bFilter := None;
        vFilter := None;
        CleanupCloseableFilter();
      }
    }

    /** The body of doFilter's try block. */
    method Attempt(input: Option<string>, filter: Option<string>, filterType: Option<string>) returns (r: Result<string, Error>)
      modifies this
      ensures var t := FilterSessions.Attempt(plugins, allowEvalJava, old(State()), input, filter, filterType);
        State() == t.state && r == t.result
    {
      if input.None? || filter.None? {
        return Success("");
      }
      if filterType.None? || filterType.value !in FilterTypes {
        return Failure(IllegalState(BadFilterType));
      }
      var text := Trim(filter.value);
      var trimmed := Trim(input.value);
      var testCache := CacheKey(text, filterType.value);
      if filterCache != Some(testCache) {
        filterCache := Some(testCache);
        vFilter := None;
        bFilter := None;
        CleanupCloseableFilter();
        if filterCache.None? {
          return Failure(NullPointer);
        }
        var e := DecodeFilters(filterType.value, text);
        if e.Some? {
          return Failure(e.value);
        }
      }
      var inputs := Split(trimmed);
      r := RunFilters(inputs);
    }

    /** Decoding the filter text into the filter fields. */
    method DecodeFilters(filterType: string, text: string) returns (e: Option<Error>)
      requires vFilter.None? && bFilter.None? && cFilter.None?
      modifies this`vFilter, this`bFilter, this`cFilter
      ensures var d := Decode(plugins, filterType, text);
        e == d.error && vFilter == d.selection.v && bFilter == d.selection.b && cFilter == d.selection.c
    {
      var op := plugins.op(text);
      if op.Failure? {
        return Some(op.error);
      }
      if filterType == "auto" {
        if op.value.Some? {
          e := DecodeByOp(op.value.value, text);
        } else {
          e := DecodeByTrial(text);
        }
      } else if filterType == "bundle" {
        e := DecodeInto(BundleKind, text);
      } else if filterType == "value" {
        e := DecodeInto(ValueKind, text);
      } else {
        e := DecodeInto(CloseableKind, text);
      }
    }

    /** Auto mode with an `op`: the registries that know it decide. */
    method DecodeByOp(stype: string, text: string) returns (e: Option<Error>)
      requires vFilter.None? && bFilter.None? && cFilter.None?
      modifies this`vFilter, this`bFilter, this`cFilter
      ensures var d := ByOp(plugins, stype, text);
        e == d.error && vFilter == d.selection.v && bFilter == d.selection.b && cFilter == d.selection.c
    {
      if stype in plugins.valueOps && stype in plugins.bundleOps {
        return Some(IllegalState(Ambiguity(OpSubject(stype), BundleOrValue, BundleOrValueChoice)));
      }
      if stype in plugins.bundleOps && stype in plugins.closeableOps {
        return Some(IllegalState(Ambiguity(OpSubject(stype), BundleOrCloseable, BundleOrCloseableChoice)));
      }
      if stype in plugins.valueOps && stype in plugins.closeableOps {
        return Some(IllegalState(Ambiguity(OpSubject(stype), ValueOrCloseable, ValueOrCloseableChoice)));
      }
      if stype in plugins.valueOps {
        e := DecodeInto(ValueKind, text);
      } else if stype in plugins.bundleOps {
        e := DecodeInto(BundleKind, text);
      } else if stype in plugins.closeableOps {
        e := DecodeInto(CloseableKind, text);
      } else {
        e := Some(IllegalState(Unrecognized(stype)));
      }
    }

    /** Auto mode without an `op`: every kind is tried and failures ignored. */
    method DecodeByTrial(text: string) returns (e: Option<Error>)
      requires vFilter.None? && bFilter.None? && cFilter.None?
      modifies this`vFilter, this`bFilter, this`cFilter
      ensures var d := ByTrial(plugins, text);
        e == d.error && vFilter == d.selection.v && bFilter == d.selection.b && cFilter == d.selection.c
    {
      var ignored := DecodeInto(ValueKind, text);
      ignored := DecodeInto(BundleKind, text);
      ignored := DecodeInto(CloseableKind, text);
      if vFilter.Some? && bFilter.Some? {
        e := Some(IllegalState(Ambiguity("op", BundleOrValue, BundleOrValueChoice)));
      } else if cFilter.Some? && bFilter.Some? {
        e := Some(IllegalState(Ambiguity("op", BundleOrCloseable, BundleOrCloseableChoice)));
      } else if vFilter.Some? && cFilter.Some? {
        e := Some(IllegalState(Ambiguity("op", CloseableOrValue, CloseableOrValueChoice)));
      } else if vFilter.None? && bFilter.None? && cFilter.None? {
        e := Some(IllegalState(Unconvertible));
      } else {
        e := None;
      }
    }

    /** codec.decodeObject for one kind, stored in that kind's field when it succeeds. */
    method DecodeInto(k: Kind, text: string) returns (e: Option<Error>)
      modifies this`vFilter, this`bFilter, this`cFilter
      ensures var d := plugins.decode(k, text);
        && e == (if d.Failure? then Some(d.error) else None)
        && vFilter == (if d.Success? && k == ValueKind then Some(d.value) else old(vFilter))
        && bFilter == (if d.Success? && k == BundleKind then Some(d.value) else old(bFilter))
        && cFilter == (if d.Success? && k == CloseableKind then Some(d.value) else old(cFilter))
    {
      var d := plugins.decode(k, text);
      if d.Failure? {
        return Some(d.error);
      }
      match k {
        case ValueKind => vFilter := Some(d.value);
        case BundleKind => bFilter := Some(d.value);
        case CloseableKind => cFilter := Some(d.value);
      }
      e := None;
    }

    /** Running the filter held over the input lines. */
    method RunFilters(inputs: seq<string>) returns (r: Result<string, Error>)
      modifies this`temporaryDir
      ensures var t := Run(plugins, allowEvalJava, old(State()), inputs);
        State() == t.state && r == t.result
    {
      if vFilter.Some? {
        if vFilter.value.evalJava && !allowEvalJava {
          return Failure(Unsupported(EvalJavaDisabled));
        }
        r := ValueOutput(vFilter.value, inputs);
      } else if bFilter.Some? {
        if bFilter.value.evalJava && !allowEvalJava {
          return Failure(Unsupported(EvalJavaDisabled));
        }
        r := BundleOutput(bFilter.value, inputs);
      } else if cFilter.Some? {
        if cFilter.value.cmsLimit && !temporaryDir {
          temporaryDir := true;
        }
        r := BundleOutput(cFilter.value, inputs);
      } else {
        return Failure(IllegalState(NoFilter));
      }
    }

    /** The value filter's loop: one output line per input line. */
    method ValueOutput(f: Filter, inputs: seq<string>) returns (r: Result<string, Error>)
      ensures r == Emitted(ValueResults(plugins, f, inputs), |inputs|)
    {
      ghost var rs := ValueResults(plugins, f, inputs);
      var output := "";
      for i := 0 to |inputs|
        invariant Emitted(rs, i) == Success(output)
      {
        var out := plugins.valueLine(f, inputs[i]);
        EmittedNext(rs, i, output);
        if out.Failure? {
          return Failure(out.error);
        }
        var outputString := if out.value.None? then "null" else out.value.value;
        output := output + outputString + "\n";
      }
      return Success(output);
    }

    /** A bundle filter's loop: each bundle and the filter's verdict on it. */
    method BundleOutput(f: Filter, inputs: seq<string>) returns (r: Result<string, Error>)
      ensures r == Emitted(BundleResults(plugins, f, inputs), |inputs|)
    {
      ghost var rs := BundleResults(plugins, f, inputs);
      var output := "";
      for i := 0 to |inputs|
        invariant Emitted(rs, i) == Success(output)
      {
        var w := plugins.bundleLine(f, inputs[i]);
        EmittedNext(rs, i, output);
        if w.Failure? {
          return Failure(w.error);
        }
        output := output + VerdictLine(w.value.json, w.value.result) + "\n";
      }
      return Success(output);
    }

    method CleanupCloseableFilter()
      modifies this`filterCache, this`cFilter, this`closed, this`temporaryDir
      ensures State() == Cleanup(old(State()))
    {
      if cFilter.Some? {
        filterCache := None;
        closed := closed + [cFilter.value];
        cFilter := None;
      }
      if temporaryDir {
        temporaryDir := false;
      }
    }

    /** setFuture: the pending evaluation a later reset cancels. */
    method SetFuture(f: Option<nat>)
      modifies this`future
      ensures State() == old(State()).(future := f)
    {
      future := f;
    }

    /** getFuture. */
    method GetFuture() returns (f: Option<nat>)
      ensures f == State().future
    {
      f := future;
    }

    method Reset()
      modifies this
      ensures State() == FilterSessions.Reset(old(State()))
    {
      var theFuture := future;
      if theFuture.Some? {
        cancelled := cancelled + [theFuture.value];
      }
      filterCache := None;
      vFilter := None;
      bFilter := None;
      CleanupCloseableFilter();
      future := None;
    }
  }
}
