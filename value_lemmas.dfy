/**
 * What parseValue and formatOutput promise: the classification of a
 * literal, the error cases, and that formatOutput's text of a value, read
 * back by parseValue, is the same value wherever the tokenizer can tell
 * the nesting apart.
 */
module ValueLemmas {
  import opened Wrappers
  import opened Errors
  import opened JavaStrings
  import opened TokenizerSpec
  import opened TokenizerLemmas
  import opened Values

  /** A blank literal is the empty string. */
  lemma BlankIsEmptyString(rt: Runtime, s: string)
    requires IsBlank(s)
    ensures Parse(rt, s) == Success(Str(""))
  {
  }

  /** `null` and `(null)`, blanks around them allowed, are null. */
  lemma NullLiterals(rt: Runtime, a: string, b: string)
    requires IsBlank(a) && IsBlank(b)
    ensures Parse(rt, a + "null" + b) == Success(Null)
    ensures Parse(rt, a + "(null)" + b) == Success(Null)
  {
    TrimPadded(a, "null", b);
    TrimPadded(a, "(null)", b);
  }

  /** A literal in double quotes is the text between them, nothing else parsed. */
  lemma QuotedIsString(rt: Runtime, body: string)
    ensures Parse(rt, "\"" + body + "\"") == Success(Str(body))
  {
    var t := "\"" + body + "\"";
    TrimOfTrimmed(t);
    assert Interior(t) == body;
  }

  /** The meaning of the element list: it succeeds exactly when every token
    * parses, and then element k is token k parsed. */
  lemma ElementsSucceed(rt: Runtime, tokens: seq<string>, bound: nat)
    requires forall k :: 0 <= k < |tokens| ==> |tokens[k]| < bound
    ensures ParseElements(rt, tokens, bound).Success?
        <==> forall k :: 0 <= k < |tokens| ==> Parse(rt, tokens[k]).Success?
  {
    if ParseElements(rt, tokens, bound).Success? {
      ElementsValues(rt, tokens, bound);
    }
    if forall k :: 0 <= k < |tokens| ==> Parse(rt, tokens[k]).Success? {
      AllElementsParse(rt, tokens, bound);
    }
  }

  lemma {:induction false} AllElementsParse(rt: Runtime, tokens: seq<string>, bound: nat)
    requires forall k :: 0 <= k < |tokens| ==> |tokens[k]| < bound
    requires forall k :: 0 <= k < |tokens| ==> Parse(rt, tokens[k]).Success?
    ensures ParseElements(rt, tokens, bound).Success?
    decreases |tokens|
  {
    if tokens != [] {
      var init := tokens[..|tokens| - 1];
      assert forall k :: 0 <= k < |init| ==> init[k] == tokens[k];
      AllElementsParse(rt, init, bound);
    }
  }

  lemma {:induction false} ElementsValues(rt: Runtime, tokens: seq<string>, bound: nat)
    requires forall k :: 0 <= k < |tokens| ==> |tokens[k]| < bound
    requires ParseElements(rt, tokens, bound).Success?
    ensures forall k :: 0 <= k < |tokens| ==>
      Parse(rt, tokens[k]) == Success(ParseElements(rt, tokens, bound).value[k])
    decreases |tokens|
  {
    if tokens != [] {
      var init := tokens[..|tokens| - 1];
      var r := ParseElements(rt, tokens, bound).value;
      ElementsSnoc(rt, tokens, bound);
      var ri := ParseElements(rt, init, bound).value;
      ElementsValues(rt, init, bound);
      forall k | 0 <= k < |init|
        ensures Parse(rt, tokens[k]) == Success(r[k])
      {
        assert init[k] == tokens[k] && ri[k] == r[k];
      }
    }
  }

  /** One step of the element list: the elements of all but the last token,
    * then the last token's. */
  lemma ElementsSnoc(rt: Runtime, tokens: seq<string>, bound: nat)
    requires forall k :: 0 <= k < |tokens| ==> |tokens[k]| < bound
    requires tokens != [] && ParseElements(rt, tokens, bound).Success?
    ensures var init := tokens[..|tokens| - 1];
      var r := ParseElements(rt, tokens, bound).value;
      && ParseElements(rt, init, bound).Success?
      && r == ParseElements(rt, init, bound).value + [r[|r| - 1]]
      && Parse(rt, tokens[|tokens| - 1]) == Success(r[|r| - 1])
  {
  }

  /** The meaning of the element list: it succeeds exactly when every token
    * parses, and then element k is token k parsed. */
  lemma ElementsMeaning(rt: Runtime, tokens: seq<string>, bound: nat)
    requires forall k :: 0 <= k < |tokens| ==> |tokens[k]| < bound
    ensures ParseElements(rt, tokens, bound).Success?
        <==> forall k :: 0 <= k < |tokens| ==> Parse(rt, tokens[k]).Success?
    ensures ParseElements(rt, tokens, bound).Success? ==>
      forall k :: 0 <= k < |tokens| ==> Parse(rt, tokens[k]) == Success(ParseElements(rt, tokens, bound).value[k])
  {
    ElementsSucceed(rt, tokens, bound);
    if ParseElements(rt, tokens, bound).Success? {
      ElementsValues(rt, tokens, bound);
    }
  }

  /**
   * An array literal: its interior is tokenized on commas with the groups
   * `{}`, `[]` and `"`; the literal parses exactly when every token does,
   * into one element per token.
   */
  lemma ArrayOfTokens(rt: Runtime, t: string)
    requires Wrapped(t, '[', ']') && Trim(Interior(t)) != []
    ensures var tokens := Scan(ArraySettings, Interior(t));
      && (ParseTrimmed(rt, t).Success? <==> forall k :: 0 <= k < |tokens| ==> Parse(rt, tokens[k]).Success?)
      && (ParseTrimmed(rt, t).Success? ==>
            && ParseTrimmed(rt, t).value.Array?
            && |ParseTrimmed(rt, t).value.elems| == |tokens|
            && forall k :: 0 <= k < |tokens| ==> Parse(rt, tokens[k]) == Success(ParseTrimmed(rt, t).value.elems[k]))
  {
    var tokens := Scan(ArraySettings, Interior(t));
    TokensWithinLine(ArraySettings, Interior(t));
    ElementsMeaning(rt, tokens, |t|);
  }

  /** An array literal with a blank interior, `[]` among them, is dereferenced
    * as a missing token list. */
  lemma BlankArrayIsError(rt: Runtime, t: string)
    requires Wrapped(t, '[', ']') && IsBlank(Interior(t))
    ensures ParseTrimmed(rt, t) == Failure(NullPointer)
  {
  }

  lemma EmptyArrayIsError(rt: Runtime)
    ensures Parse(rt, "[]") == Failure(NullPointer)
    ensures Parse(rt, "[ ]") == Failure(NullPointer)
  {
    TrimOfTrimmed("[]");
    TrimOfTrimmed("[ ]");
    BlankArrayIsError(rt, "[]");
    BlankArrayIsError(rt, "[ ]");
  }

  /** Not a string, object, array or null literal. */
  predicate Unclassified(t: string) {
    && t != "" && t != "null" && t != "(null)"
    && !Wrapped(t, '"', '"') && !Wrapped(t, '{', '}') && !Wrapped(t, '[', ']')
  }

  /** Any other literal without '.' that is not NaN is a long when
    * Long.parseLong accepts it and an "Cannot parse" error otherwise. */
  lemma OtherLiteralIsLong(rt: Runtime, t: string)
    requires Unclassified(t) && '.' !in t && t != "NaN"
    ensures ParseTrimmed(rt, t).Success? <==> ParseLong(t).Some?
    ensures ParseLong(t).Some? ==> ParseTrimmed(rt, t) == Success(Long(ParseLong(t).value))
    ensures ParseLong(t).None? ==> ParseTrimmed(rt, t) == Failure(IllegalState(CannotParse(t)))
  {
  }

  /** A literal holding '.', or NaN, goes to Double.parseDouble, whose
    * failure is reported as "Cannot parse". */
  lemma OtherLiteralIsDouble(rt: Runtime, t: string)
    requires Unclassified(t) && ('.' in t || t == "NaN")
    ensures ParseTrimmed(rt, t).Success? <==> rt.parseDouble(t).Some?
    ensures rt.parseDouble(t).Some? ==> ParseTrimmed(rt, t) == Success(Double(rt.parseDouble(t).value))
    ensures rt.parseDouble(t).None? ==> ParseTrimmed(rt, t) == Failure(IllegalState(CannotParse(t)))
  {
  }

  /** Unquoted words are rejected with the hint to quote them. */
  lemma UnquotedWordIsError(rt: Runtime)
    ensures Parse(rt, "abc") == Failure(IllegalState(CannotParse("abc")))
  {
    TrimOfTrimmed("abc");
    assert !AllDigits("abc");
  }

  /**
   * The values formatOutput prints in a form parseValue reads back, at
   * nesting depth `d`: at the top any string; inside an array no string
   * with a double quote or the escape character, nor, two levels down, a
   * closing bracket; no array below the first level and no empty array
   * (the tokenizer's groups do not nest, and `[]` does not parse).
   * Doubles and decoded objects depend on library formatting and are left out.
   */
  predicate Canonical(v: Value, d: nat) {
    match v
    case Null => true
    case Long(n) => LONG_MIN <= n <= LONG_MAX
    case Str(s) =>
      d == 0 || forall k :: 0 <= k < |s| ==> s[k] != '"' && s[k] != '\\' && (d >= 2 ==> s[k] != ']')
    case Array(es) => d < 2 && |es| > 0 && forall k :: 0 <= k < |es| ==> Canonical(es[k], d + 1)
    case Double(_) => false
    case Map(_) => false
  }

  /** The text of a canonical value starts and ends with a non-blank character. */
  lemma FormatEnds(rt: Runtime, v: Value, d: nat)
    requires Canonical(v, d)
    ensures |Format(rt, v)| >= 1
    ensures !IsTrimmed(Format(rt, v)[0]) && !IsTrimmed(Format(rt, v)[|Format(rt, v)| - 1])
  {
    if v.Long? {
      LongTextChars(v.n);
    }
  }

  lemma {:induction false} JoinAvoids(parts: seq<string>, sep: string, c: char)
    requires c !in sep
    requires forall k :: 0 <= k < |parts| ==> c !in parts[k]
    ensures c !in Join(parts, sep)
    decreases |parts|
  {
    if |parts| > 1 {
      JoinAvoids(parts[1..], sep, c);
    }
  }

  /** A canonical value two levels down prints without a closing bracket or
    * the escape character. */
  lemma DeepFormatAvoids(rt: Runtime, v: Value)
    requires Canonical(v, 2)
    ensures ']' !in Format(rt, v) && '\\' !in Format(rt, v)
  {
    if v.Long? {
      LongTextChars(v.n);
    }
  }

  /** How an array element's text is written for the tokenizer: a quoted
    * string and an inner array are one group each, anything else plain text. */
  function ElementPiece(rt: Runtime, v: Value): Piece {
    match v
    case Str(s) => Group('"', s, '"')
    case Array(es) => Group('[', Join(FormatAll(rt, es), " , "), ']')
    case _ => Text(Format(rt, v))
  }

  /** A canonical element below the top is a piece the tokenizer reads back whole. */
  lemma ElementFits(rt: Runtime, v: Value, d: nat)
    requires d >= 1 && Canonical(v, d)
    ensures Fits(ArraySettings, ElementPiece(rt, v))
    ensures Encode(ArraySettings, ElementPiece(rt, v)) == Format(rt, v)
    ensures Content(ElementPiece(rt, v)) == Format(rt, v)
  {
    var cfg := ArraySettings;
    match v
    case Null =>
    case Long(n) =>
      LongTextChars(n);
    case Str(s) =>
      assert IndexOf(cfg.open, '"') == 2;
    case Array(es) =>
      ArrayElementFits(rt, es);
  }

  /** A nested array of canonical elements is a `[]` group whose interior
    * closes nothing early. */
  lemma ArrayElementFits(rt: Runtime, es: seq<Value>)
    requires forall k :: 0 <= k < |es| ==> Canonical(es[k], 2)
    ensures Fits(ArraySettings, ElementPiece(rt, Array(es)))
    ensures Encode(ArraySettings, ElementPiece(rt, Array(es))) == Format(rt, Array(es))
    ensures Content(ElementPiece(rt, Array(es))) == Format(rt, Array(es))
  {
    assert IndexOf(ArraySettings.open, '[') == 1;
    var fs := FormatAll(rt, es);
    forall k | 0 <= k < |fs|
      ensures ']' !in fs[k] && '\\' !in fs[k]
    {
      DeepFormatAvoids(rt, es[k]);
    }
    JoinAvoids(fs, " , ", ']');
    JoinAvoids(fs, " , ", '\\');
  }

  function Blank(b: bool): string {
    if b then " " else ""
  }

  lemma BlankIsBlank(b: bool)
    ensures IsBlank(Blank(b))
  {
  }

  /** A piece with the blanks of " , " on the sides that have a neighbour. */
  function Pad(lead: bool, p: Piece, trail: bool): seq<Piece> {
    [Text(Blank(lead)), p, Text(Blank(trail))]
  }

  lemma EncodeOne(cfg: Settings, p: Piece)
    ensures EncodeAll(cfg, [p]) == Encode(cfg, p) && ContentAll([p]) == Content(p)
  {
    assert [p][..0] == [];
  }

  lemma PadEncoding(cfg: Settings, lead: bool, p: Piece, trail: bool)
    ensures EncodeAll(cfg, Pad(lead, p, trail)) == Blank(lead) + Encode(cfg, p) + Blank(trail)
    ensures ContentAll(Pad(lead, p, trail)) == Blank(lead) + Content(p) + Blank(trail)
  {
    var ps := Pad(lead, p, trail);
    var two: seq<Piece> := [Text(Blank(lead)), p];
    var one: seq<Piece> := [Text(Blank(lead))];
    assert ps[..2] == two && two[..1] == one;
    EncodeOne(cfg, Text(Blank(lead)));
    assert EncodeAll(cfg, two) == Blank(lead) + Encode(cfg, p);
    assert ContentAll(two) == Blank(lead) + Content(p);
    assert EncodeAll(cfg, ps) == EncodeAll(cfg, two) + Blank(trail);
    assert ContentAll(ps) == ContentAll(two) + Blank(trail);
  }

  /** The fields of a formatted array's interior: one padded element each. */
  function ElementFields(rt: Runtime, es: seq<Value>): (r: seq<seq<Piece>>)
    ensures |r| == |es|
  {
    seq(|es|, k requires 0 <= k < |es| => Pad(k > 0, ElementPiece(rt, es[k]), k < |es| - 1))
  }

  /** The parts of a joined list with the blanks of " , " attached. */
  function Padded(fs: seq<string>, lead: bool): (r: seq<string>)
    ensures |r| == |fs|
  {
    seq(|fs|, k requires 0 <= k < |fs| => Blank(lead || k > 0) + fs[k] + Blank(k < |fs| - 1))
  }

  /** Joining on " , " is joining on "," the parts with their blanks attached. */
  lemma {:induction false} JoinPadded(fs: seq<string>, lead: bool)
    requires |fs| > 0
    ensures Join(Padded(fs, lead), ",") == Blank(lead) + Join(fs, " , ")
    decreases |fs|
  {
    var p := Padded(fs, lead);
    if |fs| == 1 {
      assert p[0] == Blank(lead || 0 > 0) + fs[0] + Blank(0 < |fs| - 1);
      assert Blank(0 < |fs| - 1) == "";
      assert fs[0] + "" == fs[0];
    } else {
      var rest := fs[1..];
      var tail := Join(rest, " , ");
      JoinPadded(rest, true);
      assert p[1..] == Padded(rest, true) by {
        assert forall k :: 0 <= k < |rest| ==> p[1..][k] == Padded(rest, true)[k];
      }
      assert p[0] == Blank(lead) + fs[0] + " ";
      assert Join(p, ",") == p[0] + "," + (" " + tail);
      assert Join(fs, " , ") == fs[0] + " , " + tail;
      CommaPad(Blank(lead), fs[0], tail);
    }
  }

  lemma CommaPad(a: string, b: string, t: string)
    ensures (a + b + " ") + "," + (" " + t) == a + (b + " , " + t)
  {
    assert " , " == " " + "," + " ";
  }

  /** The fields of a formatted array's interior fit the tokenizer and are
    * written and read as the padded element texts. */
  lemma InteriorFields(rt: Runtime, es: seq<Value>, d: nat)
    requires |es| > 0 && d >= 1
    requires forall k :: 0 <= k < |es| ==> Canonical(es[k], d)
    ensures forall k :: 0 <= k < |es| ==> AllFit(ArraySettings, ElementFields(rt, es)[k])
    ensures EncodeFields(ArraySettings, ElementFields(rt, es)) == Padded(FormatAll(rt, es), false)
    ensures ContentFields(ElementFields(rt, es)) == Padded(FormatAll(rt, es), false)
  {
    var cfg := ArraySettings;
    var fields := ElementFields(rt, es);
    var padded := Padded(FormatAll(rt, es), false);
    forall k | 0 <= k < |es|
      ensures AllFit(cfg, fields[k])
      ensures EncodeAll(cfg, fields[k]) == padded[k] && ContentAll(fields[k]) == padded[k]
    {
      FieldAt(rt, es, d, k);
    }
    var q := EncodeFields(cfg, fields);
    assert forall k :: 0 <= k < |es| ==> q[k] == padded[k];
    var c := ContentFields(fields);
    assert forall k :: 0 <= k < |es| ==> c[k] == padded[k];
  }

  lemma FieldAt(rt: Runtime, es: seq<Value>, d: nat, k: nat)
    requires k < |es| && d >= 1 && Canonical(es[k], d)
    ensures AllFit(ArraySettings, ElementFields(rt, es)[k])
    ensures EncodeAll(ArraySettings, ElementFields(rt, es)[k]) == Padded(FormatAll(rt, es), false)[k]
    ensures ContentAll(ElementFields(rt, es)[k]) == Padded(FormatAll(rt, es), false)[k]
  {
    var p := ElementPiece(rt, es[k]);
    assert ElementFields(rt, es)[k] == Pad(k > 0, p, k < |es| - 1);
    assert Padded(FormatAll(rt, es), false)[k] == Blank(k > 0) + Format(rt, es[k]) + Blank(k < |es| - 1);
    ElementFits(rt, es[k], d);
    PadEncoding(ArraySettings, k > 0, p, k < |es| - 1);
    assert Fits(ArraySettings, Text(Blank(k > 0))) && Fits(ArraySettings, Text(Blank(k < |es| - 1)));
  }

  /** The interior of a formatted array scans into the padded element texts. */
  lemma InteriorScan(rt: Runtime, es: seq<Value>, d: nat)
    requires |es| > 0 && d >= 1
    requires forall k :: 0 <= k < |es| ==> Canonical(es[k], d)
    ensures Scan(ArraySettings, Join(FormatAll(rt, es), " , ")) == Padded(FormatAll(rt, es), false)
  {
    var fs := FormatAll(rt, es);
    var fields := ElementFields(rt, es);
    InteriorFields(rt, es, d);
    FieldsRoundTrip(ArraySettings, fields, ',');
    JoinPadded(fs, false);
    assert Join(EncodeFields(ArraySettings, fields), [',']) == Join(fs, " , ");
  }

  /** The tokens of a formatted array's interior, one per element. */
  lemma InteriorTokens(rt: Runtime, es: seq<Value>, d: nat)
    requires |es| > 0 && d >= 1
    requires forall k :: 0 <= k < |es| ==> Canonical(es[k], d)
    ensures var tokens := Scan(ArraySettings, Join(FormatAll(rt, es), " , "));
      |tokens| == |es| && forall k :: 0 <= k < |es| ==> Trim(tokens[k]) == Format(rt, es[k])
  {
    var fs := FormatAll(rt, es);
    InteriorScan(rt, es, d);
    var padded := Padded(fs, false);
    forall k | 0 <= k < |es|
      ensures Trim(padded[k]) == Format(rt, es[k])
    {
      var f := fs[k];
      var a := Blank(k > 0);
      var b := Blank(k < |es| - 1);
      assert f == Format(rt, es[k]);
      FormatEnds(rt, es[k], d);
      BlankIsBlank(k > 0);
      BlankIsBlank(k < |es| - 1);
      assert padded[k] == a + f + b;
      TrimPadded(a, f, b);
    }
  }

  /** The tokens of a formatted array's interior parse as its elements. */
  lemma InteriorParses(rt: Runtime, es: seq<Value>, d: nat)
    requires Canonical(Array(es), d)
    requires forall k :: 0 <= k < |es| ==> ParseTrimmed(rt, Format(rt, es[k])) == Success(es[k])
    ensures var tokens := Scan(ArraySettings, Join(FormatAll(rt, es), " , "));
      |tokens| == |es| && forall k :: 0 <= k < |es| ==> Parse(rt, tokens[k]) == Success(es[k])
  {
    InteriorTokens(rt, es, d + 1);
  }

  /** The interior of a formatted array is not blank. */
  lemma InteriorNonBlank(rt: Runtime, es: seq<Value>, d: nat)
    requires Canonical(Array(es), d)
    ensures Trim(Join(FormatAll(rt, es), " , ")) != []
  {
    var fs := FormatAll(rt, es);
    FormatEnds(rt, es[0], d + 1);
    assert Join(fs, " , ")[0] == fs[0][0];
  }

  /** An array literal whose tokens parse as `es` is the array of `es`. */
  lemma ArrayLiteral(rt: Runtime, t: string, es: seq<Value>)
    requires Wrapped(t, '[', ']') && Trim(Interior(t)) != []
    requires |Scan(ArraySettings, Interior(t))| == |es|
    requires forall k :: 0 <= k < |es| ==> Parse(rt, Scan(ArraySettings, Interior(t))[k]) == Success(es[k])
    ensures ParseTrimmed(rt, t) == Success(Array(es))
  {
    ArrayOfTokens(rt, t);
    var r := ParseTrimmed(rt, t);
    assert r.Success?;
    var elems := r.value.elems;
    assert |elems| == |es|;
    assert forall k :: 0 <= k < |es| ==> elems[k] == es[k];
    assert elems == es;
  }

  /** A formatted array reads back as the array when its elements read back. */
  lemma ArrayThenParse(rt: Runtime, es: seq<Value>, d: nat)
    requires Canonical(Array(es), d)
    requires forall k :: 0 <= k < |es| ==> ParseTrimmed(rt, Format(rt, es[k])) == Success(es[k])
    ensures ParseTrimmed(rt, Format(rt, Array(es))) == Success(Array(es))
  {
    var body := Join(FormatAll(rt, es), " , ");
    var t := "[" + body + "]";
    assert Format(rt, Array(es)) == t;
    assert Interior(t) == body;
    InteriorNonBlank(rt, es, d);
    InteriorParses(rt, es, d);
    ArrayLiteral(rt, t, es);
  }

  lemma LongThenParse(rt: Runtime, n: int)
    requires LONG_MIN <= n <= LONG_MAX
    ensures ParseTrimmed(rt, Format(rt, Long(n))) == Success(Long(n))
  {
    var t := LongToString(n);
    LongTextChars(n);
    LongRoundTrip(n);
    assert t[0] != '"' && t[0] != '{' && t[0] != '[' && t[0] != 'n' && t[0] != '(' && t[0] != 'N';
    assert '.' !in t;
  }

  /** formatOutput's text of a canonical value, read back, is the value. */
  lemma {:induction false} FormatThenParse(rt: Runtime, v: Value, d: nat)
    requires Canonical(v, d)
    ensures ParseTrimmed(rt, Format(rt, v)) == Success(v)
    decreases v
  {
    match v
    case Null =>
    case Long(n) =>
      LongThenParse(rt, n);
    case Str(s) =>
      assert Interior(Format(rt, v)) == s;
    case Array(es) =>
      forall k | 0 <= k < |es|
        ensures ParseTrimmed(rt, Format(rt, es[k])) == Success(es[k])
      {
        FormatThenParse(rt, es[k], d + 1);
      }
      ArrayThenParse(rt, es, d);
  }

  /**
   * The round trip of parseValue and formatOutput: printing a canonical
   * value and parsing the text gives the value back.
   */
  lemma RoundTrip(rt: Runtime, v: Value)
    requires Canonical(v, 0)
    ensures ParseValue(rt, Some(Format(rt, v))) == Success(v)
  {
    FormatEnds(rt, v, 0);
    TrimOfTrimmed(Format(rt, v));
    FormatThenParse(rt, v, 0);
  }

  /** For example, an array of a long, a string holding a comma, and an
    * inner array prints and reads back unchanged. */
  lemma RoundTripExample(rt: Runtime)
    ensures var v := Array([Long(1), Str("a,b"), Array([Null, Long(-2)])]);
      ParseValue(rt, Some(Format(rt, v))) == Success(v)
  {
    var inner := Array([Null, Long(-2)]);
    var v := Array([Long(1), Str("a,b"), inner]);
    assert Canonical(inner, 1);
    assert Canonical(v, 0);
    RoundTrip(rt, v);
  }

  /** parseBundle: null for null, the empty object for a blank text, a
    * "not in bundle format" error for anything not wrapped in braces, and
    * otherwise the JSON decoder's object or its parse error. */
  lemma BundleCases(rt: Runtime, input: string)
    ensures var t := Trim(input);
      && ParseBundle(rt, None) == Success(None)
      && (IsBlank(input) <==> ParseBundle(rt, Some(input)) == Success(Some(EmptyObject)))
      && (!IsBlank(input) && !Wrapped(t, '{', '}') ==>
            ParseBundle(rt, Some(input)) == Failure(IllegalState(NotBundle(t))))
      && (Wrapped(t, '{', '}') ==>
            ParseBundle(rt, Some(input)) ==
              if rt.decodeObject(t).Some? then Success(Some(Decoded(rt.decodeObject(t).value)))
              else Failure(JsonParse(t)))
  {
  }

  /** The "not in bundle format" message names the trimmed input. */
  lemma NotBundleNamesInput(t: string)
    ensures |NotBundle(t)| > 17 + |t| && NotBundle(t)[17..17 + |t|] == t
  {
  }

  /** The "Cannot parse" message names the literal. */
  lemma CannotParseNamesInput(t: string)
    ensures |CannotParse(t)| > 23 + |t| && CannotParse(t)[23..23 + |t|] == t
  {
  }
}
