/**
 * What the two filter tutors do with the text typed into the input box:
 * it is split into lines at every run of carriage returns and line feeds
 * (String.split with the pattern [\r\n]+), each line is filtered, and the
 * output is the filtered lines, each followed by a line feed, up to the
 * first line whose filtering throws.
 */
module FilterLines {
  import opened Wrappers
  import opened Errors
  import opened JavaStrings

  predicate IsBreak(c: char) {
    c == '\r' || c == '\n'
  }

  predicate NoBreak(s: string) {
    forall k :: 0 <= k < |s| ==> !IsBreak(s[k])
  }

  /** The first line break at or after `from`, or the end of `s`. */
  function BreakFrom(s: string, from: nat): (r: nat)
    requires from <= |s|
    ensures from <= r <= |s|
    ensures r < |s| ==> IsBreak(s[r])
    ensures forall k :: from <= k < r ==> !IsBreak(s[k])
    decreases |s| - from
  {
    if from == |s| || IsBreak(s[from]) then from else BreakFrom(s, from + 1)
  }

  /** The end of the run of line breaks starting at `from`. */
  function RunEnd(s: string, from: nat): (r: nat)
    requires from <= |s|
    ensures from <= r <= |s|
    ensures r < |s| ==> !IsBreak(s[r])
    ensures forall k :: from <= k < r ==> IsBreak(s[k])
    decreases |s| - from
  {
    if from == |s| || !IsBreak(s[from]) then from else RunEnd(s, from + 1)
  }

  /** The texts between the runs of line breaks, empty ones included. */
  function Pieces(s: string): (r: seq<string>)
    ensures |r| >= 1
    ensures forall k :: 0 <= k < |r| ==> NoBreak(r[k])
    decreases |s|
  {
    var i := BreakFrom(s, 0);
    if i == |s| then [s]
    else
      var j := RunEnd(s, i);
      [s[..i]] + Pieces(s[j..])
  }

  /** The pieces without the empty ones at the end. */
  function DropTrailingEmpty(ps: seq<string>): (r: seq<string>)
    ensures |r| <= |ps| && r == ps[..|r|]
    ensures r != [] ==> r[|r| - 1] != ""
    ensures forall k :: |r| <= k < |ps| ==> ps[k] == ""
  {
    if ps == [] || ps[|ps| - 1] != "" then ps else DropTrailingEmpty(ps[..|ps| - 1])
  }

  /** input.split("[\\r\\n]+"): the whole text when it holds no line break,
    * otherwise the pieces between the runs with trailing empty ones removed. */
  function Split(s: string): (r: seq<string>)
    ensures forall k :: 0 <= k < |r| ==> NoBreak(r[k])
  {
    if BreakFrom(s, 0) == |s| then [s] else DropTrailingEmpty(Pieces(s))
  }

  /** Joining the lines with single line feeds and splitting gives them back. */
  lemma {:induction false} SplitJoin(lines: seq<string>)
    requires |lines| >= 1 && forall k :: 0 <= k < |lines| ==> lines[k] != "" && NoBreak(lines[k])
    ensures Split(Join(lines, "\n")) == lines
  {
    PiecesJoin(lines);
    if |lines| > 1 {
      assert Join(lines, "\n")[|lines[0]|] == '\n';
    } else {
      assert Join(lines, "\n") == lines[0];
    }
  }

  lemma {:induction false} PiecesJoin(lines: seq<string>)
    requires |lines| >= 1 && forall k :: 0 <= k < |lines| ==> lines[k] != "" && NoBreak(lines[k])
    ensures Pieces(Join(lines, "\n")) == lines
    ensures |Join(lines, "\n")| > 0 && Join(lines, "\n")[0] == lines[0][0]
    decreases |lines|
  {
    var s := Join(lines, "\n");
    if |lines| == 1 {
      assert s == lines[0];
    } else {
      var rest := lines[1..];
      assert forall k :: 0 <= k < |rest| ==> rest[k] == lines[k + 1];
      PiecesJoin(rest);
      var j := Join(rest, "\n");
      var n := |lines[0]|;
      assert s == lines[0] + "\n" + j;
      assert s[n] == '\n';
      assert BreakFrom(s, 0) == n by {
        assert forall k :: 0 <= k < n ==> s[k] == lines[0][k];
      }
      assert s[n + 1] == j[0];
      assert RunEnd(s, n) == n + 1 by {
        assert RunEnd(s, n + 1) == n + 1;
      }
      assert s[..n] == lines[0];
      assert s[n + 1..] == j;
    }
  }

  /** A trimmed text splits into nonempty lines (a blank one into the single empty line). */
  lemma SplitTrimmed(s: string)
    ensures var t := Trim(s);
      && (t == "" ==> Split(t) == [""])
      && (t != "" ==> |Split(t)| >= 1 && forall k :: 0 <= k < |Split(t)| ==> Split(t)[k] != "")
  {
    var t := Trim(s);
    if t != "" {
      PiecesOfTrimmed(t);
    }
  }

  lemma {:induction false} PiecesOfTrimmed(t: string)
    requires t != "" && !IsBreak(t[0]) && !IsBreak(t[|t| - 1])
    ensures forall k :: 0 <= k < |Pieces(t)| ==> Pieces(t)[k] != ""
    ensures Split(t) == Pieces(t)
    decreases |t|
  {
    var i := BreakFrom(t, 0);
    if i < |t| {
      var j := RunEnd(t, i);
      assert j < |t|;
      var rest := t[j..];
      assert rest[0] == t[j] && rest[|rest| - 1] == t[|t| - 1];
      PiecesOfTrimmed(rest);
      var r := Pieces(t);
      assert r == [t[..i]] + Pieces(rest);
      assert forall k :: 1 <= k < |r| ==> r[k] == Pieces(rest)[k - 1];
    }
  }

  // ------------------------------------------------------------- output

  /** The output for the first k lines, given each line's text or exception:
    * the texts, each followed by a line feed, up to the first exception. */
  function Emitted(lines: seq<Result<string, Error>>, k: nat): (r: Result<string, Error>)
    requires k <= |lines|
    ensures r.Failure? ==> k > 0
  {
    if k == 0 then Success("")
    else
      var before := Emitted(lines, k - 1);
      if before.Failure? then before
      else if lines[k - 1].Failure? then Failure(lines[k - 1].error)
      else Success(before.value + lines[k - 1].value + "\n")
  }

  /** The output is produced exactly when no line throws. */
  lemma {:induction false} EmittedSucceeds(lines: seq<Result<string, Error>>, k: nat)
    requires k <= |lines|
    ensures Emitted(lines, k).Success? <==> forall i :: 0 <= i < k ==> lines[i].Success?
    decreases k
  {
    if k > 0 {
      EmittedSucceeds(lines, k - 1);
    }
  }

  /** Otherwise the exception is the first line's that throws. */
  lemma {:induction false} EmittedFailure(lines: seq<Result<string, Error>>, k: nat)
    requires k <= |lines| && Emitted(lines, k).Failure?
    ensures exists i :: 0 <= i < k && lines[i] == Failure(Emitted(lines, k).error) && forall j :: 0 <= j < i ==> lines[j].Success?
    decreases k
  {
    if Emitted(lines, k - 1).Failure? {
      EmittedFailure(lines, k - 1);
    } else {
      EmittedSucceeds(lines, k - 1);
    }
  }

  /** Once a line has thrown, the output stays that exception. */
  lemma {:induction false} EmittedStops(lines: seq<Result<string, Error>>, i: nat, k: nat)
    requires i <= k <= |lines| && Emitted(lines, i).Failure?
    ensures Emitted(lines, k) == Emitted(lines, i)
    decreases k
  {
    if k > i {
      EmittedStops(lines, i, k - 1);
    }
  }

  /** One more line: its text is appended, or its exception ends the output. */
  lemma EmittedNext(lines: seq<Result<string, Error>>, i: nat, out: string)
    requires i < |lines| && Emitted(lines, i) == Success(out)
    ensures lines[i].Success? ==> Emitted(lines, i + 1) == Success(out + lines[i].value + "\n")
    ensures lines[i].Failure? ==> Emitted(lines, |lines|) == Failure(lines[i].error)
  {
    if lines[i].Failure? {
      EmittedStops(lines, i + 1, |lines|);
    }
  }

  /** When no line's text holds a line feed, the output has one line per input line. */
  lemma {:induction false} EmittedLines(lines: seq<Result<string, Error>>, k: nat)
    requires k <= |lines| && Emitted(lines, k).Success?
    requires forall i :: 0 <= i < k ==> lines[i].Success? && '\n' !in lines[i].value
    ensures CountIn(Emitted(lines, k).value, "\n") == k
    decreases k
  {
    if k > 0 {
      EmittedLines(lines, k - 1);
      var out := Emitted(lines, k - 1).value;
      var t := lines[k - 1].value;
      CountInAppend(out + t, "\n", "\n");
      CountInAppend(out, t, "\n");
      CountInNone(t, "\n");
    }
  }

  /** Every line succeeding without a line feed: one output line per line. */
  lemma EmittedAll(lines: seq<Result<string, Error>>)
    requires forall i :: 0 <= i < |lines| ==> lines[i].Success? && '\n' !in lines[i].value
    ensures Emitted(lines, |lines|).Success?
    ensures CountIn(Emitted(lines, |lines|).value, "\n") == |lines|
  {
    EmittedSucceeds(lines, |lines|);
    EmittedLines(lines, |lines|);
  }

  /** The message a disabled eval-java filter throws. */
  const EvalJavaDisabled: string := "eval-java has been disabled. It can be enabled with \"-Dallow.eval.java=true\""

  /** A bundle filter's line: the bundle's JSON text and the filter's verdict. */
  function VerdictLine(json: string, result: bool): string {
    json + VerdictArrow + (if result then "true" else "false") + "'"
  }

  const VerdictArrow: string := " =========> filter result is '"
}
