/**
 * The meaning of LosslessTokenizer, one character at a time.
 *
 * The tokenizer keeps five pieces of state while it walks a line: the tokens
 * emitted so far, the token being accumulated, the index of the open group
 * (or -1), whether the previous character was the escape character, and
 * whether the previous character was a separator.  A separator only ends its
 * token at the top of the following iteration (or at the end of the line),
 * which is what `Flush` models.
 */
module TokenizerSpec {
  import opened Wrappers
  import opened Errors
  import opened JavaStrings

  /** What one call of tokenize consults: the separator characters, the group
    * alphabets (only when a grouping is configured), the escape character and
    * whether empty tokens are dropped. */
  datatype Settings = Settings(
    separator: string,
    grouped: bool,
    open: string,
    close: string,
    esc: char,
    pack: bool)

  datatype ScanState = ScanState(
    tokens: seq<string>,
    acc: string,
    inGroup: int,
    escaped: bool,
    isSep: bool)

  const Start: ScanState := ScanState([], "", -1, false, false)

  /** A group string the tokenizer accepts: one character, or two. */
  predicate GroupString(q: string) {
    |q| == 1 || |q| == 2
  }

  /**
   * Builds the open and close alphabets from the group strings: a string of
   * one character opens and closes with it, one of two characters opens with
   * the first and closes with the second; the first string of any other
   * length is rejected.
   */
  function Alphabets(group: seq<string>): (r: Result<(string, string), Error>)
    ensures r.Success? ==> |r.value.0| == |group| && |r.value.1| == |group|
    ensures r.Success? <==> forall k :: 0 <= k < |group| ==> GroupString(group[k])
    ensures r.Success? ==> forall k :: 0 <= k < |group| ==>
      |group[k]| > 0 && r.value.0[k] == group[k][0] && r.value.1[k] == group[k][|group[k]| - 1]
    ensures forall j :: 0 <= j < |group| && !GroupString(group[j]) && (forall i :: 0 <= i < j ==> GroupString(group[i])) ==>
      r == Failure(Runtime("invalid match " + group[j]))
  {
    if group == [] then Success(("", ""))
    else
      match Alphabets(group[..|group| - 1])
      case Failure(e) => Failure(e)
      case Success(oc) =>
        var q := group[|group| - 1];
        if |q| == 1 then Success((oc.0 + [q[0]], oc.1 + [q[0]]))
        else if |q| == 2 then Success((oc.0 + [q[0]], oc.1 + [q[1]]))
        else Failure(Runtime("invalid match " + q))
  }

  /** Once a prefix of the group strings is rejected, the whole array is
    * rejected with the same message. */
  lemma {:induction false} AlphabetsFailurePersists(group: seq<string>, k: nat)
    requires k <= |group|
    requires Alphabets(group[..k]).Failure?
    ensures Alphabets(group) == Alphabets(group[..k])
    decreases |group| - k
  {
    if k < |group| {
      assert group[..k + 1][..k] == group[..k];
      AlphabetsFailurePersists(group, k + 1);
    } else {
      assert group[..k] == group;
    }
  }

  /** The settings initialize() derives from the configured fields, or the
    * error it throws. */
  function Configure(separator: Option<string>, group: Option<seq<string>>, pack: bool, esc: char)
    : (r: Result<Settings, Error>)
    ensures separator.None? ==> r == Failure(Runtime("separator not set"))
    ensures r.Success? ==> r.value.grouped == group.Some? && |r.value.open| == |r.value.close|
    ensures r.Success? ==> r.value.separator == separator.value && r.value.esc == esc && r.value.pack == pack
    ensures separator.Some? && group.None? ==> r.Success? && r.value.open == "" && r.value.close == ""
    ensures separator.Some? && group.Some? ==> (r.Success? <==> Alphabets(group.value).Success?)
    ensures separator.Some? && group.Some? && r.Success? ==> (r.value.open, r.value.close) == Alphabets(group.value).value
    ensures separator.Some? && group.Some? && r.Failure? ==> r.error == Alphabets(group.value).error
  {
    if separator.None? then Failure(Runtime("separator not set"))
    else if group.None? then Success(Settings(separator.value, false, "", "", esc, pack))
    else
      match Alphabets(group.value)
      case Failure(e) => Failure(e)
      case Success(oc) => Success(Settings(separator.value, true, oc.0, oc.1, esc, pack))
  }

  /** The flush at the top of an iteration: when the previous character was a
    * separator outside a group, or at the end of the line, the accumulated
    * token is emitted (unless packing drops it because it is empty), plus one
    * more empty token when the line ends in a separator. */
  function Flush(cfg: Settings, st: ScanState, eol: bool): ScanState {
    if (st.isSep && st.inGroup < 0) || eol then
      if |st.acc| > 0 || !cfg.pack then
        var extra := if st.isSep && eol && !cfg.pack then [""] else [];
        st.(tokens := st.tokens + [st.acc] + extra, acc := "")
      else st
    else st
  }

  /** The rest of an iteration, after the flush: one character is consumed. */
  function Consume(cfg: Settings, st: ScanState, ch: char): ScanState {
    if st.escaped then
      st.(acc := st.acc + [ch], escaped := false)
    else if ch == cfg.esc then
      st.(escaped := true, isSep := false)
    else if st.inGroup >= 0 then
      var closes := st.inGroup < |cfg.close| && ch == cfg.close[st.inGroup];
      st.(inGroup := if closes then -1 else st.inGroup, acc := st.acc + [ch])
    else if cfg.grouped && IndexOf(cfg.open, ch) >= 0 then
      st.(isSep := false, inGroup := IndexOf(cfg.open, ch), acc := st.acc + [ch])
    else if ch in cfg.separator then
      st.(isSep := true)
    else
      st.(isSep := false, acc := st.acc + [ch])
  }

  /** One full iteration of the tokenize loop that does not reach the end of the line. */
  function Step(cfg: Settings, st: ScanState, ch: char): ScanState {
    Consume(cfg, Flush(cfg, st, false), ch)
  }

  /** The state after the loop has consumed all of `s`. */
  function Run(cfg: Settings, st: ScanState, s: string): ScanState {
    if s == [] then st else Step(cfg, Run(cfg, st, s[..|s| - 1]), s[|s| - 1])
  }

  /** The tokens of a line: the loop over every character, then the final flush. */
  function Scan(cfg: Settings, line: string): (r: seq<string>)
    ensures !cfg.pack ==> |r| > 0
  {
    Flush(cfg, Run(cfg, Start, line), true).tokens
  }

  /** tokenize(line): no list for a missing or blank line, the scanned tokens otherwise. */
  function Tokenize(cfg: Settings, line: Option<string>): (r: Option<seq<string>>)
    ensures r.None? <==> line.None? || Trim(line.value) == []
    ensures r.Some? && !cfg.pack ==> |r.value| > 0
  {
    if line.None? || Trim(line.value) == [] then None else Some(Scan(cfg, line.value))
  }

  /** A state the loop can be in: an open group index names an existing group. */
  predicate GroupIndexOk(cfg: Settings, st: ScanState) {
    -1 <= st.inGroup && (st.inGroup >= 0 ==> cfg.grouped && st.inGroup < |cfg.open|)
  }
}
