/**
 * What LosslessTokenizer guarantees about the tokens of a line: text without
 * special characters splits exactly at the separators, escaping and groups
 * keep separators inside a token, fields quoted by `Quote` and joined with
 * a separator come back unchanged, packing drops every empty token, and no
 * token is longer than the line.
 */
module TokenizerLemmas {
  import opened JavaStrings
  import opened TokenizerSpec

  /** The loop over `a + b` is the loop over `a` followed by the loop over `b`. */
  lemma {:induction false} RunAppend(cfg: Settings, st: ScanState, a: string, b: string)
    ensures Run(cfg, st, a + b) == Run(cfg, Run(cfg, st, a), b)
    decreases |b|
  {
    if b == [] {
      assert a + b == a;
    } else {
      var b' := b[..|b| - 1];
      assert (a + b)[..|a + b| - 1] == a + b';
      RunAppend(cfg, st, a, b');
    }
  }

  lemma RunPair(cfg: Settings, st: ScanState, x: char, y: char)
    ensures Run(cfg, st, [x, y]) == Step(cfg, Step(cfg, st, x), y)
  {
    RunSingle(cfg, st, x);
    assert [x, y][..1] == [x];
  }

  lemma RunSingle(cfg: Settings, st: ScanState, x: char)
    ensures Run(cfg, st, [x]) == Step(cfg, st, x)
  {
    assert [x][..0] == [];
  }

  /** Outside a group and not after an escape character. */
  predicate AtRest(st: ScanState) {
    st.inGroup == -1 && !st.escaped
  }

  /** A character that is neither the escape character, nor a separator, nor
    * a group opener. */
  predicate Plain(cfg: Settings, c: char) {
    c != cfg.esc && c !in cfg.separator && !(cfg.grouped && c in cfg.open)
  }

  /** A separator that is not also the escape character or a group opener. */
  predicate Separator(cfg: Settings, c: char) {
    c != cfg.esc && c in cfg.separator && !(cfg.grouped && c in cfg.open)
  }

  /** The tokens the final flush would emit from a state at rest, when empty
    * tokens are kept: a trailing separator stands for one more empty token. */
  function Pending(st: ScanState): (r: seq<string>)
    ensures |r| > 0
  {
    st.tokens + [st.acc] + (if st.isSep then [""] else [])
  }

  /** `ts` with `t` appended to its last element. */
  function ExtendLast(ts: seq<string>, t: string): (r: seq<string>)
    requires |ts| > 0
    ensures |r| == |ts| && r[..|r| - 1] == ts[..|ts| - 1] && r[|r| - 1] == ts[|ts| - 1] + t
  {
    ts[..|ts| - 1] + [ts[|ts| - 1] + t]
  }

  lemma ExtendLastAppend(ts: seq<string>, a: string, b: string)
    requires |ts| > 0
    ensures ExtendLast(ExtendLast(ts, a), b) == ExtendLast(ts, a + b)
  {
    assert ts[|ts| - 1] + a + b == ts[|ts| - 1] + (a + b);
  }

  /** Without packing, the final flush of a state at rest emits its pending tokens. */
  lemma FinalFlush(cfg: Settings, st: ScanState)
    requires !cfg.pack && AtRest(st)
    ensures Flush(cfg, st, true).tokens == Pending(st)
  {
  }

  lemma PlainStep(cfg: Settings, st: ScanState, c: char)
    requires !cfg.pack && AtRest(st) && Plain(cfg, c)
    ensures AtRest(Step(cfg, st, c)) && !Step(cfg, st, c).isSep
    ensures Pending(Step(cfg, st, c)) == ExtendLast(Pending(st), [c])
  {
    assert cfg.grouped ==> IndexOf(cfg.open, c) == -1;
  }

  lemma SeparatorStep(cfg: Settings, st: ScanState, c: char)
    requires !cfg.pack && AtRest(st) && Separator(cfg, c)
    ensures AtRest(Step(cfg, st, c))
    ensures Pending(Step(cfg, st, c)) == Pending(st) + [""]
  {
    assert cfg.grouped ==> IndexOf(cfg.open, c) == -1;
  }

  lemma EscapedPair(cfg: Settings, st: ScanState, c: char)
    requires !cfg.pack && AtRest(st)
    ensures AtRest(Run(cfg, st, [cfg.esc, c])) && !Run(cfg, st, [cfg.esc, c]).isSep
    ensures Pending(Run(cfg, st, [cfg.esc, c])) == ExtendLast(Pending(st), [c])
  {
    RunPair(cfg, st, cfg.esc, c);
  }

  /** Text of plain characters extends the pending last token. */
  lemma {:induction false} PlainRun(cfg: Settings, st: ScanState, t: string)
    requires !cfg.pack && AtRest(st)
    requires forall k :: 0 <= k < |t| ==> Plain(cfg, t[k])
    ensures AtRest(Run(cfg, st, t))
    ensures Pending(Run(cfg, st, t)) == ExtendLast(Pending(st), t)
    decreases |t|
  {
    if t == [] {
      assert Pending(st)[|Pending(st)| - 1] + t == Pending(st)[|Pending(st)| - 1];
    } else {
      var t' := t[..|t| - 1];
      PlainRun(cfg, st, t');
      PlainStep(cfg, Run(cfg, st, t'), t[|t| - 1]);
      ExtendLastAppend(Pending(st), t', [t[|t| - 1]]);
      assert t' + [t[|t| - 1]] == t;
    }
  }

  /** Inside group `g`, characters other than its closer and the escape
    * character are appended unchanged. */
  lemma {:induction false} InGroupRun(cfg: Settings, st: ScanState, body: string)
    requires 0 <= st.inGroup < |cfg.close| && !st.escaped
    requires forall k :: 0 <= k < |body| ==> body[k] != cfg.esc && body[k] != cfg.close[st.inGroup]
    ensures Run(cfg, st, body) == st.(acc := st.acc + body)
    decreases |body|
  {
    if body == [] {
      assert st.acc + body == st.acc;
    } else {
      var b' := body[..|body| - 1];
      InGroupRun(cfg, st, b');
      assert st.acc + b' + [body[|body| - 1]] == st.acc + body;
    }
  }

  /** The opener of a group starts the group and joins the pending last token. */
  lemma OpenStep(cfg: Settings, st: ScanState, o: char)
    requires !cfg.pack && AtRest(st) && cfg.grouped && o in cfg.open && o != cfg.esc
    ensures Step(cfg, st, o).inGroup == IndexOf(cfg.open, o)
    ensures !Step(cfg, st, o).isSep && !Step(cfg, st, o).escaped
    ensures Pending(Step(cfg, st, o)) == ExtendLast(Pending(st), [o])
  {
  }

  /** The matching closer ends the group. */
  lemma CloseStep(cfg: Settings, st: ScanState, c: char)
    requires 0 <= st.inGroup < |cfg.close| && !st.escaped && !st.isSep
    requires c == cfg.close[st.inGroup] && c != cfg.esc
    ensures Step(cfg, st, c) == st.(inGroup := -1, acc := st.acc + [c])
  {
  }

  /** A whole group (opener, body, matching closer) joins the pending last
    * token, separators inside it included. */
  lemma GroupRun(cfg: Settings, st: ScanState, o: char, body: string, c: char)
    requires !cfg.pack && AtRest(st) && cfg.grouped && |cfg.open| == |cfg.close|
    requires o in cfg.open && o != cfg.esc
    requires c == cfg.close[IndexOf(cfg.open, o)] && c != cfg.esc
    requires forall k :: 0 <= k < |body| ==> body[k] != cfg.esc && body[k] != c
    ensures AtRest(Run(cfg, st, [o] + body + [c]))
    ensures Pending(Run(cfg, st, [o] + body + [c])) == ExtendLast(Pending(st), [o] + body + [c])
  {
    var s1 := Step(cfg, st, o);
    RunSingle(cfg, st, o);
    OpenStep(cfg, st, o);
    InGroupRun(cfg, s1, body);
    var s2 := s1.(acc := s1.acc + body);
    RunAppend(cfg, st, [o], body);
    RunAppend(cfg, st, [o] + body, [c]);
    RunSingle(cfg, s2, c);
    CloseStep(cfg, s2, c);
    var s3 := s2.(inGroup := -1, acc := s2.acc + [c]);
    assert Pending(s3) == s1.tokens + [s1.acc + body + [c]];
    ExtendLastAppend(Pending(st), [o], body + [c]);
    assert [o] + (body + [c]) == [o] + body + [c];
    assert s1.acc + body + [c] == s1.acc + (body + [c]);
  }

  /** The reference split: the pieces of `s` between the characters of `seps`. */
  function Segments(s: string, seps: string): (r: seq<string>)
    ensures |r| > 0
    ensures forall k, j :: 0 <= k < |r| && 0 <= j < |r[k]| ==> r[k][j] !in seps
  {
    if s == [] then [""]
    else
      var p := Segments(s[..|s| - 1], seps);
      var c := s[|s| - 1];
      if c in seps then p + [""]
      else
        var r := ExtendLast(p, [c]);
        assert forall k :: 0 <= k < |r| - 1 ==> r[k] == p[k];
        r
  }

  /** One segment more than separator characters. */
  lemma {:induction false} SegmentsCount(s: string, seps: string)
    ensures |Segments(s, seps)| == CountIn(s, seps) + 1
    decreases |s|
  {
    if s != [] {
      SegmentsCount(s[..|s| - 1], seps);
    }
  }

  lemma {:induction false} JoinExtendLast(ps: seq<string>, sep: string, t: string)
    requires |ps| > 0
    ensures Join(ExtendLast(ps, t), sep) == Join(ps, sep) + t
    decreases |ps|
  {
    if |ps| > 1 {
      JoinExtendLast(ps[1..], sep, t);
      assert ExtendLast(ps, t)[1..] == ExtendLast(ps[1..], t);
    }
  }

  lemma {:induction false} JoinAppendEmpty(ps: seq<string>, sep: string)
    requires |ps| > 0
    ensures Join(ps + [""], sep) == Join(ps, sep) + sep
    decreases |ps|
  {
    if |ps| == 1 {
      assert Join((ps + [""])[1..], sep) == "";
    } else {
      JoinAppendEmpty(ps[1..], sep);
      assert (ps + [""])[1..] == ps[1..] + [""];
    }
  }

  /** Joining the segments with the one separator character restores the text. */
  lemma {:induction false} SegmentsJoin(s: string, c: char)
    ensures Join(Segments(s, [c]), [c]) == s
    decreases |s|
  {
    if s != [] {
      var s' := s[..|s| - 1];
      SegmentsJoin(s', c);
      if s[|s| - 1] == c {
        JoinAppendEmpty(Segments(s', [c]), [c]);
      } else {
        JoinExtendLast(Segments(s', [c]), [c], [s[|s| - 1]]);
      }
      assert s' + [s[|s| - 1]] == s;
    }
  }

  lemma {:induction false} SplitRun(cfg: Settings, s: string)
    requires !cfg.pack
    requires forall k :: 0 <= k < |s| ==> Plain(cfg, s[k]) || Separator(cfg, s[k])
    ensures AtRest(Run(cfg, Start, s))
    ensures Pending(Run(cfg, Start, s)) == Segments(s, cfg.separator)
    decreases |s|
  {
    if s != [] {
      var s' := s[..|s| - 1];
      SplitRun(cfg, s');
      if Plain(cfg, s[|s| - 1]) {
        PlainStep(cfg, Run(cfg, Start, s'), s[|s| - 1]);
      } else {
        SeparatorStep(cfg, Run(cfg, Start, s'), s[|s| - 1]);
      }
    }
  }

  /** A line without escape characters or group openers is split exactly at
    * its separator characters, empty pieces included. */
  lemma PlainLineSplits(cfg: Settings, line: string)
    requires !cfg.pack
    requires forall k :: 0 <= k < |line| ==> Plain(cfg, line[k]) || Separator(cfg, line[k])
    ensures Scan(cfg, line) == Segments(line, cfg.separator)
  {
    SplitRun(cfg, line);
  }

  /** The pieces a token is written with: plain text, an escaped character,
    * or a whole group from its opener to its matching closer. */
  datatype Piece = Text(t: string) | Escaped(c: char) | Group(o: char, body: string, c: char)

  /** The characters a piece is written as. */
  function Encode(cfg: Settings, p: Piece): string {
    match p
    case Text(t) => t
    case Escaped(c) => [cfg.esc, c]
    case Group(o, body, c) => [o] + body + [c]
  }

  /** The characters a piece contributes to its token. */
  function Content(p: Piece): string {
    match p
    case Text(t) => t
    case Escaped(c) => [c]
    case Group(o, body, c) => [o] + body + [c]
  }

  /** A piece the tokenizer reads back as its content. */
  predicate Fits(cfg: Settings, p: Piece) {
    match p
    case Text(t) => forall k :: 0 <= k < |t| ==> Plain(cfg, t[k])
    case Escaped(_) => true
    case Group(o, body, c) =>
      && cfg.grouped && |cfg.open| == |cfg.close|
      && o in cfg.open && o != cfg.esc
      && c == cfg.close[IndexOf(cfg.open, o)] && c != cfg.esc
      && forall k :: 0 <= k < |body| ==> body[k] != cfg.esc && body[k] != c
  }

  function EncodeAll(cfg: Settings, ps: seq<Piece>): string {
    if ps == [] then "" else EncodeAll(cfg, ps[..|ps| - 1]) + Encode(cfg, ps[|ps| - 1])
  }

  function ContentAll(ps: seq<Piece>): string {
    if ps == [] then "" else ContentAll(ps[..|ps| - 1]) + Content(ps[|ps| - 1])
  }

  predicate AllFit(cfg: Settings, ps: seq<Piece>) {
    forall k :: 0 <= k < |ps| ==> Fits(cfg, ps[k])
  }

  lemma PieceRun(cfg: Settings, st: ScanState, p: Piece)
    requires !cfg.pack && AtRest(st) && Fits(cfg, p)
    ensures AtRest(Run(cfg, st, Encode(cfg, p)))
    ensures Pending(Run(cfg, st, Encode(cfg, p))) == ExtendLast(Pending(st), Content(p))
  {
    match p
    case Text(t) => PlainRun(cfg, st, t);
    case Escaped(c) => EscapedPair(cfg, st, c);
    case Group(o, body, c) => GroupRun(cfg, st, o, body, c);
  }

  /** Well-formed pieces extend the pending last token by their contents. */
  lemma {:induction false} PiecesRun(cfg: Settings, st: ScanState, ps: seq<Piece>)
    requires !cfg.pack && AtRest(st) && AllFit(cfg, ps)
    ensures AtRest(Run(cfg, st, EncodeAll(cfg, ps)))
    ensures Pending(Run(cfg, st, EncodeAll(cfg, ps))) == ExtendLast(Pending(st), ContentAll(ps))
    decreases |ps|
  {
    if ps == [] {
      assert Pending(st)[|Pending(st)| - 1] + "" == Pending(st)[|Pending(st)| - 1];
    } else {
      var ps' := ps[..|ps| - 1];
      var p := ps[|ps| - 1];
      PiecesRun(cfg, st, ps');
      RunAppend(cfg, st, EncodeAll(cfg, ps'), Encode(cfg, p));
      PieceRun(cfg, Run(cfg, st, EncodeAll(cfg, ps')), p);
      ExtendLastAppend(Pending(st), ContentAll(ps'), Content(p));
    }
  }

  /** The written form of each field. */
  function EncodeFields(cfg: Settings, fields: seq<seq<Piece>>): (r: seq<string>)
    ensures |r| == |fields|
    ensures forall k :: 0 <= k < |r| ==> r[k] == EncodeAll(cfg, fields[k])
  {
    if fields == [] then [] else [EncodeAll(cfg, fields[0])] + EncodeFields(cfg, fields[1..])
  }

  /** The token each field stands for. */
  function ContentFields(fields: seq<seq<Piece>>): (r: seq<string>)
    ensures |r| == |fields|
    ensures forall k :: 0 <= k < |r| ==> r[k] == ContentAll(fields[k])
  {
    if fields == [] then [] else [ContentAll(fields[0])] + ContentFields(fields[1..])
  }

  /** The loop over joined parts: the first part, the separator, then the rest. */
  lemma RunJoin(cfg: Settings, st: ScanState, q: seq<string>, c: char)
    requires |q| > 1
    ensures Run(cfg, st, Join(q, [c])) == Run(cfg, Step(cfg, Run(cfg, st, q[0]), c), Join(q[1..], [c]))
  {
    assert Join(q, [c]) == q[0] + [c] + Join(q[1..], [c]);
    RunAppend(cfg, st, q[0] + [c], Join(q[1..], [c]));
    RunAppend(cfg, st, q[0], [c]);
    RunSingle(cfg, Run(cfg, st, q[0]), c);
  }

  lemma {:induction false} FieldsRun(cfg: Settings, st: ScanState, fields: seq<seq<Piece>>, c: char)
    requires !cfg.pack && AtRest(st) && Separator(cfg, c) && |fields| > 0
    requires forall k :: 0 <= k < |fields| ==> AllFit(cfg, fields[k])
    ensures AtRest(Run(cfg, st, Join(EncodeFields(cfg, fields), [c])))
    ensures Pending(Run(cfg, st, Join(EncodeFields(cfg, fields), [c])))
         == ExtendLast(Pending(st), ContentAll(fields[0])) + ContentFields(fields[1..])
    decreases |fields|
  {
    var q := EncodeFields(cfg, fields);
    if |fields| == 1 {
      PiecesRun(cfg, st, fields[0]);
    } else {
      var rest := fields[1..];
      assert EncodeFields(cfg, rest) == q[1..];
      var s1 := Run(cfg, st, q[0]);
      PiecesRun(cfg, st, fields[0]);
      var s2 := Step(cfg, s1, c);
      SeparatorStep(cfg, s1, c);
      RunJoin(cfg, st, q, c);
      FieldsRun(cfg, s2, rest, c);
      var p := ExtendLast(Pending(st), ContentAll(fields[0]));
      assert Pending(s2) == p + [""];
      AppendedExtend(p, ContentFields(rest));
      assert ContentFields(rest)[0] == ContentAll(rest[0]);
      assert ContentFields(rest)[1..] == ContentFields(rest[1..]);
    }
  }

  lemma AppendedExtend(p: seq<string>, rest: seq<string>)
    requires |rest| > 0
    ensures ExtendLast(p + [""], rest[0]) + rest[1..] == p + rest
  {
    var q := p + [""];
    assert q[..|q| - 1] == p;
    assert q[|q| - 1] + rest[0] == rest[0];
    assert ExtendLast(q, rest[0]) == p + [rest[0]];
    assert [rest[0]] + rest[1..] == rest;
  }

  /**
   * Fields written as well-formed pieces and joined with one separator
   * character come back, without packing, as one token per field holding
   * the field's content: separators inside groups or after the escape
   * character do not split, and the escape characters are dropped.
   */
  lemma FieldsRoundTrip(cfg: Settings, fields: seq<seq<Piece>>, c: char)
    requires !cfg.pack && Separator(cfg, c) && |fields| > 0
    requires forall k :: 0 <= k < |fields| ==> AllFit(cfg, fields[k])
    ensures Scan(cfg, Join(EncodeFields(cfg, fields), [c])) == ContentFields(fields)
  {
    FieldsRun(cfg, Start, fields, c);
    ScanPending(cfg, Join(EncodeFields(cfg, fields), [c]));
    StartExtend(ContentFields(fields));
  }

  lemma ScanPending(cfg: Settings, line: string)
    requires !cfg.pack && AtRest(Run(cfg, Start, line))
    ensures Scan(cfg, line) == Pending(Run(cfg, Start, line))
  {
    FinalFlush(cfg, Run(cfg, Start, line));
  }

  lemma StartExtend(fields: seq<string>)
    requires |fields| > 0
    ensures ExtendLast(Pending(Start), fields[0]) + fields[1..] == fields
  {
    assert Pending(Start) == [""];
    var e: string := "";
    assert e + fields[0] == fields[0];
    assert [e][..0] == [];
    assert ExtendLast([e], fields[0]) == [fields[0]];
    assert [fields[0]] + fields[1..] == fields;
  }

  /** A character tokenize would treat specially. */
  predicate Special(cfg: Settings, c: char) {
    c == cfg.esc || c in cfg.separator || (cfg.grouped && c in cfg.open)
  }

  /** Writes `f` with every special character escaped. */
  function QuotePieces(cfg: Settings, f: string): (r: seq<Piece>)
    ensures AllFit(cfg, r) && ContentAll(r) == f
  {
    if f == [] then []
    else
      var c := f[|f| - 1];
      var p := if Special(cfg, c) then Escaped(c) else Text([c]);
      var init := QuotePieces(cfg, f[..|f| - 1]);
      var r := init + [p];
      assert Fits(cfg, p);
      assert forall k :: 0 <= k < |init| ==> r[k] == init[k];
      assert r[..|r| - 1] == init;
      assert Content(p) == [c];
      assert f[..|f| - 1] + [c] == f;
      r
  }

  /** The text `f` with every special character prefixed by the escape character. */
  function Quote(cfg: Settings, f: string): string {
    EncodeAll(cfg, QuotePieces(cfg, f))
  }

  function QuoteFields(cfg: Settings, fields: seq<string>): (r: seq<seq<Piece>>)
    ensures |r| == |fields|
    ensures forall k :: 0 <= k < |r| ==> r[k] == QuotePieces(cfg, fields[k])
  {
    if fields == [] then [] else [QuotePieces(cfg, fields[0])] + QuoteFields(cfg, fields[1..])
  }

  /**
   * The tokenizer is lossless for quoted fields: escaping the special
   * characters of each field and joining the fields with one separator
   * gives a line whose tokens, without packing, are the fields themselves.
   */
  lemma QuotedFieldsRoundTrip(cfg: Settings, fields: seq<string>, c: char)
    requires !cfg.pack && Separator(cfg, c) && |fields| > 0
    ensures Scan(cfg, Join(EncodeFields(cfg, QuoteFields(cfg, fields)), [c])) == fields
  {
    var qs := QuoteFields(cfg, fields);
    FieldsRoundTrip(cfg, qs, c);
    assert ContentFields(qs) == fields;
  }

  /** With packing, a token is never empty. */
  lemma {:induction false} PackedRunNonEmpty(cfg: Settings, s: string)
    requires cfg.pack
    ensures forall k :: 0 <= k < |Run(cfg, Start, s).tokens| ==> Run(cfg, Start, s).tokens[k] != ""
    decreases |s|
  {
    if s != [] {
      PackedRunNonEmpty(cfg, s[..|s| - 1]);
    }
  }

  lemma PackedTokensNonEmpty(cfg: Settings, line: string)
    requires cfg.pack
    ensures forall k :: 0 <= k < |Scan(cfg, line)| ==> Scan(cfg, line)[k] != ""
  {
    PackedRunNonEmpty(cfg, line);
  }

  /** Every token and the accumulated text only hold characters already read. */
  predicate Within(st: ScanState, n: nat) {
    |st.acc| <= n && forall k :: 0 <= k < |st.tokens| ==> |st.tokens[k]| <= n
  }

  lemma {:induction false} RunWithin(cfg: Settings, s: string)
    ensures Within(Run(cfg, Start, s), |s|)
    decreases |s|
  {
    if s != [] {
      RunWithin(cfg, s[..|s| - 1]);
    }
  }

  /** No token is longer than the line it comes from. */
  lemma TokensWithinLine(cfg: Settings, line: string)
    ensures forall k :: 0 <= k < |Scan(cfg, line)| ==> |Scan(cfg, line)[k]| <= |line|
  {
    RunWithin(cfg, line);
  }
}
