/**
 * The first filter tutor (package hydratutor): one user's value filter or
 * bundle filter, decoded from the filter text and cached with that text
 * and the filter type, and run over the lines of the input box. A value
 * line is read with parseValue and printed with formatOutput; a bundle
 * line is read with parseBundle and printed with the filter's verdict.
 *
 * The config parser, the codec, the filters' setup and filtering and the
 * text of a JSON bundle are library code outside this model; they are the
 * fields of `Plugins`.
 */
module HydraSessions {
  import opened Wrappers
  import opened Errors
  import opened JavaStrings
  import opened FilterLines
  import Values

  datatype Kind = ValueKind | BundleKind

  /** A decoded filter: an identity and whether it is an eval-java filter. */
  datatype Filter = Filter(id: nat, evalJava: bool)

  /** A bundle after filtering: its JSON text (toString(2)) and the verdict. */
  datatype Verdict = Verdict(json: string, result: bool)

  datatype Plugins = Plugins(
    rt: Values.Runtime,
    /** ConfigFactory.parseString: the exception it throws, if any. */
    config: string -> Option<Error>,
    /** decodeObject(ValueFilter.class / BundleFilter.class, config). */
    decode: (Kind, string) -> Result<Filter, Error>,
    /** setup() of a value filter, initialize() of a bundle filter. */
    setup: (Kind, Filter) -> Option<Error>,
    /** ValueFilter.filter. */
    applyValue: (Filter, Values.Value) -> Result<Values.Value, Error>,
    /** BundleFilter.filter on a JSONBundle over the parsed object. */
    applyBundle: (Filter, Option<Values.JsonObject>) -> Result<Verdict, Error>)

  const FilterTypes: set<string> := {"auto", "value", "bundle"}

  const BadFilterType: string := "Internal error: the filter type is not one of \"auto\", \"bundle\", or \"value\"."
  const BothKinds: string := "The op can be interpreted as either a bundle filter or a value filter. Please select 'bundle' or 'value' and retry."
  const NeitherKind: string := "Cannot recognize the op or other ambiguous error. Specify 'bundle' or 'value' for more information"
  const NoFilter: string := "Illegal state reached in hydra-tutor."

  /** FilterCache: the trimmed filter text and the filter type. */
  datatype CacheKey = CacheKey(filter: string, filterType: string)

  /** What decoding leaves in the two fields, and the exception it throws. */
  datatype Decoding = Decoding(v: Option<Filter>, b: Option<Filter>, error: Option<Error>)

  function Tried(r: Result<Filter, Error>): Option<Filter> {
    if r.Success? then Some(r.value) else None
  }

  /** An explicit kind: decoding and then set-up, whose exceptions propagate
    * with the decoded filter already stored. */
  function DecodeAs(p: Plugins, k: Kind, text: string): (r: Decoding)
    ensures p.decode(k, text).Failure? ==> r == Decoding(None, None, Some(p.decode(k, text).error))
    ensures p.decode(k, text).Success? ==> r.error == p.setup(k, p.decode(k, text).value)
    ensures r.v.Some? <==> k == ValueKind && p.decode(k, text).Success?
    ensures r.b.Some? <==> k == BundleKind && p.decode(k, text).Success?
    ensures r.v.Some? ==> p.decode(k, text) == Success(r.v.value)
    ensures r.b.Some? ==> p.decode(k, text) == Success(r.b.value)
  {
    match p.decode(k, text)
    case Failure(e) => Decoding(None, None, Some(e))
    case Success(f) => Decoding(if k == ValueKind then Some(f) else None, if k == BundleKind then Some(f) else None, p.setup(k, f))
  }

  /** Auto mode: both kinds are tried, their exceptions ignored; a filter
    * stays stored when only its set-up threw. */
  function ByTrial(p: Plugins, text: string): (r: Decoding)
    ensures r.v.Some? <==> p.decode(ValueKind, text).Success?
    ensures r.b.Some? <==> p.decode(BundleKind, text).Success?
    ensures r.error.None? <==> (r.v.Some? <==> r.b.None?)
  {
    var v := Tried(p.decode(ValueKind, text));
    var b := Tried(p.decode(BundleKind, text));
    var e :=
      if v.Some? && b.Some? then Some(IllegalState(BothKinds))
      else if v.None? && b.None? then Some(IllegalState(NeitherKind))
      else None;
    Decoding(v, b, e)
  }

  /** Decoding the trimmed filter text for one of the three filter types. */
  function Decode(p: Plugins, filterType: string, text: string): (r: Decoding)
    ensures p.config(text).Some? ==> r == Decoding(None, None, p.config(text))
    ensures r.error.None? ==> (r.v.Some? <==> r.b.None?)
    ensures filterType == "bundle" ==> r.v.None?
    ensures filterType != "auto" && filterType != "bundle" ==> r.b.None?
  {
    match p.config(text)
    case Some(e) => Decoding(None, None, Some(e))
    case None =>
      if filterType == "auto" then ByTrial(p, text)
      else if filterType == "bundle" then DecodeAs(p, BundleKind, text)
      else DecodeAs(p, ValueKind, text)
  }

  // -------------------------------------------------------------- state

  /** The fields; `cancelled` lists the futures cancelled, in order. */
  datatype State = State(v: Option<Filter>, b: Option<Filter>, cache: Option<CacheKey>, future: Option<nat>, cancelled: seq<nat>)

  /** A call's new state and its output or exception. */
  datatype Call = Call(state: State, result: Result<string, Error>)

  /** A value filter's output line: the line parsed, filtered and formatted. */
  function ValueText(p: Plugins, f: Filter, line: string): Result<string, Error> {
    var x := Values.ParseValue(p.rt, Some(line));
    if x.Failure? then Failure(x.error)
    else
      var y := p.applyValue(f, x.value);
      if y.Failure? then Failure(y.error) else Success(Values.Format(p.rt, y.value))
  }

  /** A bundle filter's output line: the bundle and the verdict. */
  function BundleText(p: Plugins, f: Filter, line: string): Result<string, Error> {
    var o := Values.ParseBundle(p.rt, Some(line));
    if o.Failure? then Failure(o.error)
    else
      var w := p.applyBundle(f, o.value);
      if w.Failure? then Failure(w.error) else Success(VerdictLine(w.value.json, w.value.result))
  }

  function ValueResults(p: Plugins, f: Filter, lines: seq<string>): (r: seq<Result<string, Error>>)
    ensures |r| == |lines| && forall i :: 0 <= i < |lines| ==> r[i] == ValueText(p, f, lines[i])
  {
    seq(|lines|, i requires 0 <= i < |lines| => ValueText(p, f, lines[i]))
  }

  function BundleResults(p: Plugins, f: Filter, lines: seq<string>): (r: seq<Result<string, Error>>)
    ensures |r| == |lines| && forall i :: 0 <= i < |lines| ==> r[i] == BundleText(p, f, lines[i])
  {
    seq(|lines|, i requires 0 <= i < |lines| => BundleText(p, f, lines[i]))
  }

  /** Running the stored filter over the lines: the value filter first. */
  function Run(p: Plugins, allowEvalJava: bool, s: State, lines: seq<string>): (r: Result<string, Error>)
    ensures s.v.Some? && s.v.value.evalJava && !allowEvalJava ==> r == Failure(Unsupported(EvalJavaDisabled))
    ensures s.v.None? && s.b.Some? && s.b.value.evalJava && !allowEvalJava ==> r == Failure(Unsupported(EvalJavaDisabled))
    ensures s.v.None? && s.b.None? ==> r == Failure(IllegalState(NoFilter))
  {
    if s.v.Some? then
      if s.v.value.evalJava && !allowEvalJava then Failure(Unsupported(EvalJavaDisabled))
      else Emitted(ValueResults(p, s.v.value, lines), |lines|)
    else if s.b.Some? then
      if s.b.value.evalJava && !allowEvalJava then Failure(Unsupported(EvalJavaDisabled))
      else Emitted(BundleResults(p, s.b.value, lines), |lines|)
    else Failure(IllegalState(NoFilter))
  }

  /** The body of filter's try block. */
  function Attempt(p: Plugins, allowEvalJava: bool, s: State, input: Option<string>, filter: Option<string>, filterType: Option<string>): (r: Call)
    ensures r.state.future == s.future && r.state.cancelled == s.cancelled
  {
    if input.None? || filter.None? then Call(s, Success(""))
    else if filterType.None? || filterType.value !in FilterTypes then Call(s, Failure(IllegalState(BadFilterType)))
    else
      var text := Trim(filter.value);
      var key := CacheKey(text, filterType.value);
      var lines := Split(Trim(input.value));
      if s.cache == Some(key) then Call(s, Run(p, allowEvalJava, s, lines))
      else
        var d := Decode(p, filterType.value, text);
        var s1 := s.(cache := Some(key), v := d.v, b := d.b);
        if d.error.Some? then Call(s1, Failure(d.error.value))
        else Call(s1, Run(p, allowEvalJava, s1, lines))
  }

  /** filter(input, filter, filtertype): a runtime exception clears the
    * cache and both filters before it propagates. */
  function FilterCall(p: Plugins, allowEvalJava: bool, s: State, input: Option<string>, filter: Option<string>, filterType: Option<string>): (r: Call)
    ensures r.result == Attempt(p, allowEvalJava, s, input, filter, filterType).result
    ensures r.state.future == s.future && r.state.cancelled == s.cancelled
  {
    var t := Attempt(p, allowEvalJava, s, input, filter, filterType);
    if t.result.Failure? && IsRuntime(t.result.error) then Call(t.state.(cache := None, b := None, v := None), t.result)
    else t
  }

  /** reset(): the future is cancelled and every field cleared. */
  function Reset(s: State): (r: State)
    ensures r.v.None? && r.b.None? && r.cache.None? && r.future.None?
    ensures r.cancelled == s.cancelled + (if s.future.Some? then [s.future.value] else [])
  {
    State(None, None, None, None, if s.future.Some? then s.cancelled + [s.future.value] else s.cancelled)
  }

  // ------------------------------------------------------------- lemmas

  /** Null input or filter text: empty output, nothing changes. */
  lemma NullGivesEmpty(p: Plugins, allowEvalJava: bool, s: State, input: Option<string>, filter: Option<string>, filterType: Option<string>)
    requires input.None? || filter.None?
    ensures FilterCall(p, allowEvalJava, s, input, filter, filterType) == Call(s, Success(""))
  {
  }

  /** Only auto, value and bundle are accepted; any other type is an
    * IllegalStateException, which clears the cache and the filters. */
  lemma BadTypeRejected(p: Plugins, allowEvalJava: bool, s: State, input: string, filter: string, filterType: Option<string>)
    requires filterType.None? || filterType.value !in FilterTypes
    ensures var t := FilterCall(p, allowEvalJava, s, Some(input), Some(filter), filterType);
      && t.result == Failure(IllegalState(BadFilterType))
      && t.state == s.(cache := None, v := None, b := None)
  {
  }

  /** A valid type passes the filter-type check: the trimmed filter text is
    * cached with its type. */
  lemma GoodTypeAccepted(p: Plugins, allowEvalJava: bool, s: State, input: string, filter: string, filterType: string)
    requires filterType in FilterTypes
    ensures var t := Attempt(p, allowEvalJava, s, Some(input), Some(filter), Some(filterType));
      t.state.cache == Some(CacheKey(Trim(filter), filterType))
  {
  }

  /** Auto mode decodes without exception exactly when the config parses and
    * exactly one of the two kinds decodes; that kind is then the one stored. */
  lemma AutoExactlyOne(p: Plugins, text: string)
    ensures var d := Decode(p, "auto", text);
      d.error.None? <==> p.config(text).None? && (p.decode(ValueKind, text).Success? != p.decode(BundleKind, text).Success?)
    ensures var d := Decode(p, "auto", text);
      d.error.None? ==> (d.v.Some? != d.b.Some?) && (d.v.Some? ==> d.v == Tried(p.decode(ValueKind, text))) && (d.b.Some? ==> d.b == Tried(p.decode(BundleKind, text)))
  {
  }

  /** An explicit kind stores only that kind's filter. */
  lemma ExplicitKind(p: Plugins, text: string)
    ensures Decode(p, "value", text).b.None?
    ensures Decode(p, "bundle", text).v.None?
    ensures p.config(text).None? && p.decode(ValueKind, text).Success? ==> Decode(p, "value", text).v == Some(p.decode(ValueKind, text).value)
    ensures p.config(text).None? && p.decode(BundleKind, text).Success? ==> Decode(p, "bundle", text).b == Some(p.decode(BundleKind, text).value)
  {
  }

  /** The same trimmed filter text and type reuse the stored filters. */
  lemma CacheHitReuses(p: Plugins, allowEvalJava: bool, s: State, input: string, filter: string, filterType: string)
    requires filterType in FilterTypes && s.cache == Some(CacheKey(Trim(filter), filterType))
    ensures var t := Attempt(p, allowEvalJava, s, Some(input), Some(filter), Some(filterType));
      t.state == s && t.result == Run(p, allowEvalJava, s, Split(Trim(input)))
  {
  }

  /** Different ones decode afresh, dropping whatever was stored. */
  lemma CacheMissDecodes(p: Plugins, allowEvalJava: bool, s: State, input: string, filter: string, filterType: string)
    requires filterType in FilterTypes && s.cache != Some(CacheKey(Trim(filter), filterType))
    ensures var t := Attempt(p, allowEvalJava, s, Some(input), Some(filter), Some(filterType));
      var d := Decode(p, filterType, Trim(filter));
      t.state.v == d.v && t.state.b == d.b && (d.error.Some? ==> t.result == Failure(d.error.value))
  {
  }

  /** After a runtime exception nothing stays stored, so the next call decodes. */
  lemma ErrorClears(p: Plugins, allowEvalJava: bool, s: State, input: Option<string>, filter: Option<string>, filterType: Option<string>)
    requires FilterCall(p, allowEvalJava, s, input, filter, filterType).result.Failure?
    requires IsRuntime(FilterCall(p, allowEvalJava, s, input, filter, filterType).result.error)
    ensures var t := FilterCall(p, allowEvalJava, s, input, filter, filterType);
      t.state.cache.None? && t.state.v.None? && t.state.b.None?
  {
  }

  /** Repeating a call that succeeded gives the same output and the same state. */
  lemma RepeatIsCached(p: Plugins, allowEvalJava: bool, s: State, input: string, filter: string, filterType: string)
    requires FilterCall(p, allowEvalJava, s, Some(input), Some(filter), Some(filterType)).result.Success?
    ensures var t := FilterCall(p, allowEvalJava, s, Some(input), Some(filter), Some(filterType));
      FilterCall(p, allowEvalJava, t.state, Some(input), Some(filter), Some(filterType)) == t
  {
    var t := Attempt(p, allowEvalJava, s, Some(input), Some(filter), Some(filterType));
    assert filterType in FilterTypes;
    var key := CacheKey(Trim(filter), filterType);
    if s.cache != Some(key) {
      var d := Decode(p, filterType, Trim(filter));
      assert d.error.None?;
      assert t.state == s.(cache := Some(key), v := d.v, b := d.b);
    }
    CacheHitReuses(p, allowEvalJava, t.state, input, filter, filterType);
  }

  /** A value filter's output has one line per input line when no line
    * throws and no formatted value holds a line feed. */
  lemma ValueLinesCounted(p: Plugins, f: Filter, lines: seq<string>)
    requires forall i :: 0 <= i < |lines| ==> ValueResults(p, f, lines)[i].Success? && '\n' !in ValueResults(p, f, lines)[i].value
    ensures Emitted(ValueResults(p, f, lines), |lines|).Success?
    ensures CountIn(Emitted(ValueResults(p, f, lines), |lines|).value, "\n") == |lines|
  {
    EmittedAll(ValueResults(p, f, lines));
  }

  /** After reset the next call with valid arguments decodes afresh. */
  lemma ResetForcesDecode(p: Plugins, allowEvalJava: bool, s: State, input: string, filter: string, filterType: string)
    requires filterType in FilterTypes
    ensures var t := Attempt(p, allowEvalJava, Reset(s), Some(input), Some(filter), Some(filterType));
      var d := Decode(p, filterType, Trim(filter));
      t.state.v == d.v && t.state.b == d.b && t.state.future.None?
  {
  }
}

/** The first filter tutor's state as the object kept per user. */
module HydraTutorStates {
  import opened Wrappers
  import opened Errors
  import opened JavaStrings
  import opened FilterLines
  import opened HydraSessions
  import Values

  class HydraTutorState {
    const plugins: Plugins
    /** The allow.eval.java system parameter. */
    const allowEvalJava: bool
    var vFilter: Option<Filter>
    var bFilter: Option<Filter>
    var filterCache: Option<CacheKey>
    var future: Option<nat>
    var cancelled: seq<nat>

    ghost function State(): State
      reads this
    {
      HydraSessions.State(vFilter, bFilter, filterCache, future, cancelled)
    }

    constructor (plugins: Plugins, allowEvalJava: bool)
      ensures this.plugins == plugins && this.allowEvalJava == allowEvalJava
      ensures State() == HydraSessions.State(None, None, None, None, [])
    {
      this.plugins := plugins;
      this.allowEvalJava := allowEvalJava;
      vFilter, bFilter, filterCache, future := None, None, None, None;
      cancelled := [];
    }

    method Filter(input: Option<string>, filter: Option<string>, filterType: Option<string>) returns (r: Result<string, Error>)
      modifies this
      ensures var t := FilterCall(plugins, allowEvalJava, old(State()), input, filter, filterType);
        State() == t.state && r == t.result
    {
      r := Attempt(input, filter, filterType);
      if r.Failure? && IsRuntime(r.error) {
        filterCache := None;
        bFilter := None;
        vFilter := None;
      }
    }

    /** The body of filter's try block. */
    method Attempt(input: Option<string>, filter: Option<string>, filterType: Option<string>) returns (r: Result<string, Error>)
      modifies this`vFilter, this`bFilter, this`filterCache
      ensures var t := HydraSessions.Attempt(plugins, allowEvalJava, old(State()), input, filter, filterType);
        State() == t.state && r == t.result
    {
      if input.None? || filter.None? {
        return Success("");
      }
      if filterType.None? || filterType.value !in FilterTypes {
        return Failure(IllegalState(BadFilterType));
      }
      var text := Trim(filter.value);
      var trimmed := Trim(input.value);
      var testCache := CacheKey(text, filterType.value);
      if filterCache != Some(testCache) {
        filterCache := Some(testCache);
        vFilter := None;
        bFilter := None;
        var e := DecodeFilters(filterType.value, text);
        if e.Some? {
          return Failure(e.value);
        }
      }
      var inputs := Split(trimmed);
      r := RunFilters(inputs);
    }

    /** Decoding the filter text into the two filter fields. */
    method DecodeFilters(filterType: string, text: string) returns (e: Option<Error>)
      requires vFilter.None? && bFilter.None?
      modifies this`vFilter, this`bFilter
      ensures var d := Decode(plugins, filterType, text);
        e == d.error && vFilter == d.v && bFilter == d.b
    {
      e := plugins.config(text);
      if e.Some? {
        return;
      }
      if filterType == "auto" {
        var ignored := DecodeInto(ValueKind, text);
        ignored := DecodeInto(BundleKind, text);
        if vFilter.Some? && bFilter.Some? {
          return Some(IllegalState(BothKinds));
        }
        if vFilter.None? && bFilter.None? {
          return Some(IllegalState(NeitherKind));
        }
      } else if filterType == "bundle" {
        e := DecodeInto(BundleKind, text);
      } else {
        e := DecodeInto(ValueKind, text);
      }
    }

    /** decodeObject for one kind, stored in that kind's field when it
      * succeeds, then that filter's set-up. */
    method DecodeInto(k: Kind, text: string) returns (e: Option<Error>)
      modifies this`vFilter, this`bFilter
      ensures var d := plugins.decode(k, text);
        && e == (if d.Failure? then Some(d.error) else plugins.setup(k, d.value))
        && vFilter == (if d.Success? && k == ValueKind then Some(d.value) else old(vFilter))
        && bFilter == (if d.Success? && k == BundleKind then Some(d.value) else old(bFilter))
    {
      var d := plugins.decode(k, text);
      if d.Failure? {
        return Some(d.error);
      }
      if k == ValueKind {
        vFilter := Some(d.value);
      } else {
        bFilter := Some(d.value);
      }
      e := plugins.setup(k, d.value);
    }

    /** Running the stored filter over the input lines. */
    method RunFilters(inputs: seq<string>) returns (r: Result<string, Error>)
      ensures r == Run(plugins, allowEvalJava, State(), inputs)
    {
      if vFilter.Some? {
        if vFilter.value.evalJava && !allowEvalJava {
          return Failure(Unsupported(EvalJavaDisabled));
        }
        r := ValueOutput(vFilter.value, inputs);
      } else if bFilter.Some? {
        if bFilter.value.evalJava && !allowEvalJava {
          return Failure(Unsupported(EvalJavaDisabled));
        }
        r := BundleOutput(bFilter.value, inputs);
      } else {
        return Failure(IllegalState(NoFilter));
      }
    }

    /** The value filter's loop: one output line per input line. */
    method ValueOutput(f: Filter, inputs: seq<string>) returns (r: Result<string, Error>)
      ensures r == Emitted(ValueResults(plugins, f, inputs), |inputs|)
    {
      ghost var rs := ValueResults(plugins, f, inputs);
      var output := "";
      for i := 0 to |inputs|
        invariant Emitted(rs, i) == Success(output)
      {
        EmittedNext(rs, i, output);
        var valueInput := Values.ParseValue(plugins.rt, Some(inputs[i]));
        if valueInput.Failure? {
          return Failure(valueInput.error);
        }
        var out := plugins.applyValue(f, valueInput.value);
        if out.Failure? {
          return Failure(out.error);
        }
        var outputString := Values.Format(plugins.rt, out.value);
        output := output + outputString + "\n";
      }
      return Success(output);
    }

    /** The bundle filter's loop: one output line per input line. */
    method BundleOutput(f: Filter, inputs: seq<string>) returns (r: Result<string, Error>)
      ensures r == Emitted(BundleResults(plugins, f, inputs), |inputs|)
    {
      ghost var rs := BundleResults(plugins, f, inputs);
      var output := "";
      for i := 0 to |inputs|
        invariant Emitted(rs, i) == Success(output)
      {
        EmittedNext(rs, i, output);
        var jsonInput := Values.ParseBundle(plugins.rt, Some(inputs[i]));
        if jsonInput.Failure? {
          return Failure(jsonInput.error);
        }
        var w := plugins.applyBundle(f, jsonInput.value);
        if w.Failure? {
          return Failure(w.error);
        }
        output := output + VerdictLine(w.value.json, w.value.result) + "\n";
      }
      return Success(output);
    }

    /** setFuture: the pending evaluation a later reset cancels. */
    method SetFuture(f: Option<nat>)
      modifies this`future
      ensures State() == old(State()).(future := f)
    {
      future := f;
    }

    /** getFuture. */
    method GetFuture() returns (f: Option<nat>)
      ensures f == State().future
    {
      f := future;
    }

    method Reset()
      modifies this
      ensures State() == HydraSessions.Reset(old(State()))
    {
      var theFuture := future;
      if theFuture.Some? {
        cancelled := cancelled + [theFuture.value];
      }
      filterCache := None;
      vFilter := None;
      bFilter := None;
      future := None;
    }
  }
}
