/**
 * How the filter tutor reads a value literal typed by the user and how it
 * prints a value back (HydraTutorState.parseValue, formatOutput and
 * parseBundle; JSONBundles.parseBundle, parseValue and formatOutput).
 *
 * Decoding a JSON object, Double.parseDouble, Double.toString, the text of
 * a decoded object and ValueFactory.decodeValue belong to libraries whose
 * code is not part of this model; they are the fields of `Runtime`.
 */
module Values {
  import opened Wrappers
  import opened Errors
  import opened JavaStrings
  import TokenizerSpec
  import TokenizerLemmas
  import Tokenizer

  /** A bundle value; `Null` is Java's null, which arrays may hold. */
  datatype Value =
    | Null
    | Str(s: string)
    | Long(n: int)
    | Double(bits: bv64)
    | Map(handle: nat)
    | Array(elems: seq<Value>)

  /** A parsed bundle: the empty object, or a decoded JSON object. */
  datatype JsonObject = EmptyObject | Decoded(handle: nat)

  /** The library behaviour the model takes as given. */
  datatype Runtime = Runtime(
    parseDouble: string -> Option<bv64>,
    formatDouble: bv64 -> string,
    decodeObject: string -> Option<nat>,
    formatObject: nat -> string,
    decodeValue: string -> Result<Value, Error>)

  /** The groups parseValue hands to the tokenizer for an array interior. */
  const ArrayGroups: seq<string> := ["{}", "[]", "\""]

  /** The settings the tokenizer built from `","`, `ArrayGroups` and no packing uses. */
  const ArraySettings: TokenizerSpec.Settings :=
    TokenizerSpec.Settings(",", true, "{[\"", "}]\"", '\\', false)

  lemma ArraySettingsConfigured()
    ensures TokenizerSpec.Configure(Some(","), Some(ArrayGroups), false, '\\') == Success(ArraySettings)
  {
    var g1 := ArrayGroups[..1];
    var g2 := ArrayGroups[..2];
    assert g1[..0] == [] && g2[..1] == g1 && ArrayGroups[..2] == g2;
    var r1 := TokenizerSpec.Alphabets(g1);
    assert r1.Success? && r1.value.0 == "{" && r1.value.1 == "}";
    var r2 := TokenizerSpec.Alphabets(g2);
    assert r2.Success? && r2.value.0 == "{[" && r2.value.1 == "}]";
    var r3 := TokenizerSpec.Alphabets(ArrayGroups);
    assert r3.Success? && r3.value.0 == "{[\"" && r3.value.1 == "}]\"";
  }

  function CannotParse(input: string): string {
    "Cannot parse the input " + input + CannotParseTail
  }

  const CannotParseTail: string := ". You should place quotes around your input to have it interpreted as a string."

  function NotBundle(input: string): string {
    "The input string " + input + NotBundleTail
  }

  const NotBundleTail: string :=
    " does not appear to be in bundle format. Bundles are of the form {\"key1\" : val1, \"key2\" : val2, ...} ."

  /** `t` has length at least two and starts with `open` and ends with `close`. */
  predicate Wrapped(t: string, open: char, close: char) {
    |t| >= 2 && t[0] == open && t[|t| - 1] == close
  }

  /** `t` without its first and last characters. */
  function Interior(t: string): (r: string)
    requires |t| >= 2
    ensures |r| == |t| - 2
  {
    t[1..|t| - 1]
  }

  /** parseValue(input) on a non-null input: the literal is trimmed, then classified. */
  function Parse(rt: Runtime, text: string): (r: Result<Value, Error>)
    ensures IsBlank(text) ==> r == Success(Str(""))
    ensures r.Success? && r.value.Null? <==> Trim(text) == "null" || Trim(text) == "(null)"
    ensures r.Success? && r.value.Str? ==> Trim(text) == "" || Wrapped(Trim(text), '"', '"')
    ensures r.Success? && r.value.Array? ==> Wrapped(Trim(text), '[', ']')
    decreases |text|, 2
  {
    ParseTrimmed(rt, Trim(text))
  }

  /** The classification of a trimmed literal. */
  function ParseTrimmed(rt: Runtime, t: string): (r: Result<Value, Error>)
    ensures r.Success? && r.value.Null? ==> t == "null" || t == "(null)"
    ensures r.Success? && r.value.Str? ==> t == "" || Wrapped(t, '"', '"')
    ensures r.Success? && r.value.Map? ==> Wrapped(t, '{', '}')
    ensures r.Success? && r.value.Array? ==> Wrapped(t, '[', ']')
    ensures r.Success? && r.value.Double? ==> '.' in t || t == "NaN"
    ensures r.Success? && r.value.Long? ==> ParseLong(t) == Some(r.value.n)
    decreases |t|, 1
  {
    if t == "" then Success(Str(""))
    else if t == "null" || t == "(null)" then Success(Null)
    else if Wrapped(t, '"', '"') then Success(Str(Interior(t)))
    else if Wrapped(t, '{', '}') then
      var h := rt.decodeObject(t);
      if h.None? then Failure(JsonParse(t)) else Success(Map(h.value))
    else if Wrapped(t, '[', ']') then ParseArrayText(rt, t)
    else ParseNumber(rt, t)
  }

  /** An array literal: the interior is tokenized on commas with the groups
    * `{}`, `[]` and `"`, and each token is parsed; a blank interior has no
    * token list, which the source dereferences. */
  function ParseArrayText(rt: Runtime, t: string): (r: Result<Value, Error>)
    requires Wrapped(t, '[', ']')
    ensures IsBlank(Interior(t)) ==> r == Failure(NullPointer)
    ensures r.Success? ==> r.value.Array? && !IsBlank(Interior(t))
    ensures r.Success? ==> |r.value.elems| == |TokenizerSpec.Scan(ArraySettings, Interior(t))|
    decreases |t|, 0, 1
  {
    var tokens := TokenizerSpec.Tokenize(ArraySettings, Some(Interior(t)));
    if tokens.None? then Failure(NullPointer)
    else
      TokenizerLemmas.TokensWithinLine(ArraySettings, Interior(t));
      var elems := ParseElements(rt, tokens.value, |t|);
      if elems.Failure? then Failure(elems.error) else Success(Array(elems.value))
  }

  /** Any other literal: a double when it holds a '.' or is NaN, a long otherwise. */
  function ParseNumber(rt: Runtime, t: string): (r: Result<Value, Error>)
    ensures r.Failure? ==> r.error == IllegalState(CannotParse(t))
    ensures r.Success? ==> (r.value.Double? <==> '.' in t || t == "NaN") && (r.value.Long? <==> !('.' in t || t == "NaN"))
    ensures r.Success? && r.value.Double? ==> rt.parseDouble(t) == Some(r.value.bits)
    ensures r.Success? && r.value.Long? ==> ParseLong(t) == Some(r.value.n)
    ensures !('.' in t || t == "NaN") ==> (r.Success? <==> ParseLong(t).Some?)
  {
    if '.' in t || t == "NaN" then
      var d := rt.parseDouble(t);
      if d.None? then Failure(IllegalState(CannotParse(t))) else Success(Double(d.value))
    else
      var n := ParseLong(t);
      if n.None? then Failure(IllegalState(CannotParse(t))) else Success(Long(n.value))
  }

  /** The array elements: each token parsed in turn; the first failure is the result. */
  function ParseElements(rt: Runtime, tokens: seq<string>, bound: nat): (r: Result<seq<Value>, Error>)
    requires forall k :: 0 <= k < |tokens| ==> |tokens[k]| < bound
    ensures r.Success? ==> |r.value| == |tokens|
    decreases bound, 0, 0, |tokens|
  {
    if tokens == [] then Success([])
    else
      var init := ParseElements(rt, tokens[..|tokens| - 1], bound);
      if init.Failure? then init
      else
        var v := Parse(rt, tokens[|tokens| - 1]);
        if v.Failure? then Failure(v.error) else Success(init.value + [v.value])
  }

  /** parseValue(input), null included. */
  function ParseValue(rt: Runtime, input: Option<string>): (r: Result<Value, Error>)
    ensures r.Success? && r.value.Null? <==> input.None? || Trim(input.value) == "null" || Trim(input.value) == "(null)"
    ensures input.Some? && IsBlank(input.value) ==> r == Success(Str(""))
  {
    if input.None? then Success(Null) else Parse(rt, input.value)
  }

  /** formatOutput(value). */
  function Format(rt: Runtime, v: Value): (r: string)
    ensures v.Null? ==> ParseTrimmed(rt, r) == Success(Null)
    ensures v.Str? ==> Wrapped(r, '"', '"')
    ensures v.Array? ==> Wrapped(r, '[', ']')
    decreases v, 1
  {
    match v
    case Null => "(null)"
    case Str(s) => "\"" + s + "\""
    case Array(elems) => "[" + Join(FormatAll(rt, elems), " , ") + "]"
    case Long(n) => LongToString(n)
    case Double(d) => rt.formatDouble(d)
    case Map(h) => rt.formatObject(h)
  }

  function FormatAll(rt: Runtime, vs: seq<Value>): (r: seq<string>)
    ensures |r| == |vs|
    ensures forall k :: 0 <= k < |vs| ==> r[k] == Format(rt, vs[k])
    decreases vs, 0
  {
    if vs == [] then [] else FormatAll(rt, vs[..|vs| - 1]) + [Format(rt, vs[|vs| - 1])]
  }

  /** parseBundle(input): null for null, the empty object for a blank input,
    * otherwise a trimmed text wrapped in braces, decoded as a JSON object. */
  function ParseBundle(rt: Runtime, input: Option<string>): (r: Result<Option<JsonObject>, Error>)
    ensures r == Success(None) <==> input.None?
    ensures r.Failure? ==> input.Some? && Trim(input.value) != ""
    ensures r.Success? && r.value.Some? && r.value.value.Decoded? ==>
      input.Some? && Wrapped(Trim(input.value), '{', '}') && rt.decodeObject(Trim(input.value)) == Some(r.value.value.handle)
  {
    if input.None? then Success(None)
    else
      var t := Trim(input.value);
      if t == "" then Success(Some(EmptyObject))
      else if !Wrapped(t, '{', '}') then Failure(IllegalState(NotBundle(t)))
      else
        var h := rt.decodeObject(t);
        if h.None? then Failure(JsonParse(t)) else Success(Some(Decoded(h.value)))
  }

  /** JSONBundles.parseValue: null for null, otherwise the library decoder. */
  function DecodeValue(rt: Runtime, input: Option<string>): (r: Result<Value, Error>)
    ensures input.None? ==> r == Success(Null)
    ensures input.Some? ==> r == rt.decodeValue(input.value)
  {
    if input.None? then Success(Null) else rt.decodeValue(input.value)
  }

  /**
   * parseValue as the source writes it: an array interior goes through a
   * LosslessTokenizer and the elements are parsed one by one in a loop.
   */
  method ParseLiteral(rt: Runtime, input: Option<string>) returns (r: Result<Value, Error>)
    ensures r == ParseValue(rt, input)
  {
    if input.None? {
      return Success(Null);
    }
    r := ParseText(rt, input.value);
  }

  method ParseText(rt: Runtime, text: string) returns (r: Result<Value, Error>)
    ensures r == Parse(rt, text)
    decreases |text|, 2
  {
    var t := Trim(text);
    r := Classify(rt, t);
  }

  /** The classification of a trimmed literal, branch by branch. */
  method Classify(rt: Runtime, t: string) returns (r: Result<Value, Error>)
    ensures r == ParseTrimmed(rt, t)
    decreases |t|, 1
  {
    if t == "" {
      return Success(Str(""));
    } else if t == "null" || t == "(null)" {
      return Success(Null);
    }
    if |t| >= 2 {
      if t[0] == '"' && t[|t| - 1] == '"' {
        return Success(Str(t[1..|t| - 1]));
      } else if t[0] == '{' && t[|t| - 1] == '}' {
        var h := rt.decodeObject(t);
        if h.None? {
          return Failure(JsonParse(t));
        }
        return Success(Map(h.value));
      } else if t[0] == '[' && t[|t| - 1] == ']' {
        r := ParseArray(rt, t);
        return;
      }
    }
    if IndexOf(t, '.') >= 0 || t == "NaN" {
      var d := rt.parseDouble(t);
      if d.None? {
        return Failure(IllegalState(CannotParse(t)));
      }
      return Success(Double(d.value));
    } else {
      var n := ParseLong(t);
      if n.None? {
        return Failure(IllegalState(CannotParse(t)));
      }
      return Success(Long(n.value));
    }
  }

  /** The array branch: the interior is tokenized and every token parsed in turn. */
  method ParseArray(rt: Runtime, t: string) returns (r: Result<Value, Error>)
    requires Wrapped(t, '[', ']')
    ensures r == ParseArrayText(rt, t)
    decreases |t|, 0
  {
    ArraySettingsConfigured();
    var created := Tokenizer.LosslessTokenizer.Create(Some(","), Some(ArrayGroups), false);
    var tokenizer := created.value;
    var result := tokenizer.Tokenize(Some(t[1..|t| - 1]));
    var tokens := result.value;
    if tokens.None? {
      return Failure(NullPointer);
    }
    var toks := tokens.value;
    TokenizerLemmas.TokensWithinLine(ArraySettings, Interior(t));
    var elems: seq<Value> := [];
    for i := 0 to |toks|
      invariant ParseElements(rt, toks[..i], |t|) == Success(elems)
    {
      ElementsNext(rt, toks, |t|, i, elems);
      var v := ParseText(rt, toks[i]);
      if v.Failure? {
        return Failure(v.error);
      }
      elems := elems + [v.value];
    }
    assert toks[..|toks|] == toks;
    return Success(Array(elems));
  }

  /** One more token: its value is appended, or its error is the array's. */
  lemma ElementsNext(rt: Runtime, tokens: seq<string>, bound: nat, i: nat, elems: seq<Value>)
    requires forall j :: 0 <= j < |tokens| ==> |tokens[j]| < bound
    requires i < |tokens| && ParseElements(rt, tokens[..i], bound) == Success(elems)
    ensures var v := Parse(rt, tokens[i]);
      && (v.Success? ==> ParseElements(rt, tokens[..i + 1], bound) == Success(elems + [v.value]))
      && (v.Failure? ==> ParseElements(rt, tokens, bound) == Failure(v.error))
  {
    assert tokens[..i + 1][..i] == tokens[..i];
    if Parse(rt, tokens[i]).Failure? {
      ElementsFailurePersists(rt, tokens, bound, i + 1);
    }
  }

  /** Once the elements of a prefix fail, the array fails with the same error. */
  lemma {:induction false} ElementsFailurePersists(rt: Runtime, tokens: seq<string>, bound: nat, k: nat)
    requires forall j :: 0 <= j < |tokens| ==> |tokens[j]| < bound
    requires k <= |tokens| && ParseElements(rt, tokens[..k], bound).Failure?
    ensures ParseElements(rt, tokens, bound) == ParseElements(rt, tokens[..k], bound)
    decreases |tokens| - k
  {
    if k < |tokens| {
      assert tokens[..k + 1][..k] == tokens[..k];
      ElementsFailurePersists(rt, tokens, bound, k + 1);
    } else {
      assert tokens[..k] == tokens;
    }
  }

  /** formatOutput as the source writes it, with the array loop. */
  method FormatOutput(rt: Runtime, v: Value) returns (s: string)
    ensures s == Format(rt, v)
    decreases v, 1
  {
    match v
    case Null => return "(null)";
    case Str(x) => return "\"" + x + "\"";
    case Array(elems) => s := FormatArray(rt, elems);
    case Long(n) => return LongToString(n);
    case Double(d) => return rt.formatDouble(d);
    case Map(h) => return rt.formatObject(h);
  }

  /** The array branch of formatOutput: elements joined by " , " inside brackets. */
  method FormatArray(rt: Runtime, elems: seq<Value>) returns (s: string)
    ensures s == Format(rt, Array(elems))
    decreases elems, 0
  {
    var builder := "[";
    var i := 0;
    while i < |elems|
      invariant 0 <= i <= |elems|
      invariant builder == "[" + Join(FormatAll(rt, elems[..i]), " , ") + Gap(i, |elems|)
    {
      var f := FormatOutput(rt, elems[i]);
      ArrayLoopStep(rt, elems, i);
      ghost var before := builder;
      builder := builder + f;
      if i < |elems| - 1 {
        builder := builder + " , ";
      }
      assert builder == before + f + (if i < |elems| - 1 then " , " else "");
      i := i + 1;
    }
    assert elems[..i] == elems;
    return builder + "]";
  }

  /** The separator the array loop has written after `i` of `n` elements. */
  function Gap(i: nat, n: nat): string {
    if 0 < i < n then " , " else ""
  }

  /** One turn of the array loop: the element, then the separator unless it is the last. */
  lemma ArrayLoopStep(rt: Runtime, elems: seq<Value>, i: nat)
    requires i < |elems|
    ensures "[" + Join(FormatAll(rt, elems[..i]), " , ") + Gap(i, |elems|) + Format(rt, elems[i])
            + (if i < |elems| - 1 then " , " else "")
         == "[" + Join(FormatAll(rt, elems[..i + 1]), " , ") + Gap(i + 1, |elems|)
  {
    assert elems[..i + 1][..i] == elems[..i];
    var fs := FormatAll(rt, elems[..i]);
    var f := Format(rt, elems[i]);
    assert FormatAll(rt, elems[..i + 1]) == fs + [f];
    JoinSnoc(fs, f, " , ");
    var x := Join(fs, " , ");
    var y := Join(fs + [f], " , ");
    assert y == x + Gap(i, |elems|) + f;
    assert (if i < |elems| - 1 then " , " else "") == Gap(i + 1, |elems|);
    Associate("[", x, Gap(i, |elems|), f, Gap(i + 1, |elems|));
  }

  lemma Associate(a: string, b: string, c: string, d: string, e: string)
    ensures a + b + c + d + e == a + (b + c + d) + e
  {
  }
}
