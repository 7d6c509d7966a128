/**
 * LosslessTokenizer as an object: the configured fields, the alphabets and
 * escape character initialize() derives from them, and the running maximum
 * of tokens per line.
 */
module Tokenizer {
  import opened Wrappers
  import opened Errors
  import opened JavaStrings
  import opened TokenizerSpec

  class LosslessTokenizer {
    var separator: Option<string>
    var group: Option<seq<string>>
    var pack: bool
    const escape: string
    var maxColCount: nat
    var quoteOpen: Option<string>
    var quoteClose: Option<string>
    var isInitialized: bool
    var esc: char

    /** Once initialized, the derived fields agree with the configured ones. */
    ghost predicate Valid()
      reads this
    {
      && escape == "\\"
      && (isInitialized ==>
            && esc == escape[0]
            && Configure(separator, group, pack, esc).Success?
            && (group.Some? ==>
                  && quoteOpen == Some(Configure(separator, group, pack, esc).value.open)
                  && quoteClose == Some(Configure(separator, group, pack, esc).value.close)))
    }

    /** The settings tokenize uses once the object is initialized. */
    ghost function Current(): Settings
      reads this
      requires Valid() && isInitialized
    {
      Configure(separator, group, pack, esc).value
    }

    /** The default object: comma separator, no grouping, no packing. */
    constructor ()
      ensures Valid() && !isInitialized
      ensures separator == Some(",") && group.None? && !pack && maxColCount == 0
      ensures quoteOpen.None? && quoteClose.None?
    {
      separator := Some(",");
      group := None;
      pack := false;
      escape := "\\";
      maxColCount := 0;
      quoteOpen := None;
      quoteClose := None;
      isInitialized := false;
      esc := '\\';
    }

    /** The three-argument constructor, which initializes at once and
      * propagates initialize()'s exception. */
    static method Create(separator: Option<string>, group: Option<seq<string>>, pack: bool)
      returns (r: Result<LosslessTokenizer, Error>)
      ensures r.Failure? <==> Configure(separator, group, pack, '\\').Failure?
      ensures r.Failure? ==> r.error == Configure(separator, group, pack, '\\').error
      ensures r.Success? ==> fresh(r.value) && r.value.Valid() && r.value.isInitialized
      ensures r.Success? ==> r.value.separator == separator && r.value.group == group
      ensures r.Success? ==> r.value.pack == pack && r.value.maxColCount == 0
      ensures r.Success? ==> r.value.Current() == Configure(separator, group, pack, '\\').value
    {
      var t := new LosslessTokenizer();
      t.separator := separator;
      t.group := group;
      t.pack := pack;
      var o := t.Initialize();
      if o.Fail? {
        return Failure(o.error);
      }
      return Success(t);
    }

    /** initialize(): checks the separator, derives the group alphabets and
      * the escape character, and marks the object initialized. */
    method Initialize() returns (r: Outcome<Error>)
      requires Valid()
      modifies this`quoteOpen, this`quoteClose, this`esc, this`isInitialized
      ensures Valid()
      ensures r.Fail? <==> Configure(separator, group, pack, '\\').Failure?
      ensures r.Fail? ==> r.error == Configure(separator, group, pack, '\\').error
      ensures r.Fail? ==> isInitialized == old(isInitialized) && esc == old(esc)
      ensures r.Fail? ==> quoteOpen == old(quoteOpen) && quoteClose == old(quoteClose)
      ensures r.Pass? ==> isInitialized && esc == '\\'
      ensures r.Pass? && group.None? ==> quoteOpen == old(quoteOpen) && quoteClose == old(quoteClose)
    {
      if separator.None? {
        assert Configure(separator, group, pack, esc) == Failure(Runtime("separator not set"));
        return Fail(Runtime("separator not set"));
      }
      if group.Some? {
        var g := group.value;
        var open := "";
        var close := "";
        var k := 0;
        while k < |g|
          invariant 0 <= k <= |g|
          invariant Alphabets(g[..k]) == Success((open, close))
        {
          var q := g[k];
          assert g[..k + 1][..k] == g[..k];
          if |q| == 1 {
            open := open + [q[0]];
            close := close + [q[0]];
          } else if |q| == 2 {
            open := open + [q[0]];
            close := close + [q[1]];
          } else {
            AlphabetsFailurePersists(g, k + 1);
            return Fail(Runtime("invalid match " + q));
          }
          k := k + 1;
        }
        assert g[..k] == g;
        quoteOpen := Some(open);
        quoteClose := Some(close);
      }
      esc := escape[0];
      isInitialized := true;
      return Pass;
    }

    /**
     * tokenize(line): initializes on first use, answers no list for a
     * missing or blank line, and otherwise runs the character loop and
     * raises maxColCount to the number of tokens found.
     */
    method Tokenize(line: Option<string>) returns (r: Result<Option<seq<string>>, Error>)
      requires Valid()
      modifies this`quoteOpen, this`quoteClose, this`esc, this`isInitialized, this`maxColCount
      ensures Valid()
      ensures old(isInitialized) ==> r == Success(TokenizerSpec.Tokenize(old(Current()), line))
      ensures !old(isInitialized) ==>
        match Configure(separator, group, pack, '\\')
        case Failure(e) => r == Failure(e)
        case Success(cfg) => r == Success(TokenizerSpec.Tokenize(cfg, line))
      ensures r.Success? && r.value.Some? ==> maxColCount == Max(old(maxColCount), |r.value.value|)
      ensures !(r.Success? && r.value.Some?) ==> maxColCount == old(maxColCount)
    {
      if !isInitialized {
        var o := Initialize();
        if o.Fail? {
          return Failure(o.error);
        }
      }
      if line.None? || Trim(line.value) == [] {
        return Success(None);
      }
      var s := line.value;
      var grouped := group.Some?;
      var cfg := Settings(separator.value, grouped,
                          if grouped then quoteOpen.value else "",
                          if grouped then quoteClose.value else "", esc, pack);
      assert cfg == Current();
      var ret := ScanLine(cfg, s);
      maxColCount := Max(maxColCount, |ret|);
      return Success(Some(ret));
    }
  }

  /** The character loop of tokenize(line) over a non-blank line. */
  method ScanLine(cfg: Settings, s: string) returns (ret: seq<string>)
    requires |cfg.open| == |cfg.close|
    ensures ret == Scan(cfg, s)
  {
    ret := [];
    var inGroup := -1;
    var isEscaped := false;
    var isSep := false;
    var pos := 0;
    var sb: string := "";
    while true
      invariant 0 <= pos <= |s|
      invariant ScanState(ret, sb, inGroup, isEscaped, isSep) == Run(cfg, Start, s[..pos])
      invariant GroupIndexOk(cfg, Run(cfg, Start, s[..pos]))
      decreases |s| - pos
    {
      ghost var before := ScanState(ret, sb, inGroup, isEscaped, isSep);
      var eol := pos == |s|;
      if (isSep && inGroup < 0) || eol {
        if |sb| > 0 || !cfg.pack {
          ret := ret + [sb];
          sb := "";
          if isSep && eol && !cfg.pack {
            ret := ret + [sb];
          }
        }
      }
      if eol {
        assert s[..pos] == s;
        break;
      }
      ghost var mid := ScanState(ret, sb, inGroup, isEscaped, isSep);
      assert mid == Flush(cfg, before, false);
      assert s[..pos + 1][..pos] == s[..pos];
      var ch := s[pos];
      assert Run(cfg, Start, s[..pos + 1]) == Consume(cfg, mid, ch);
      pos := pos + 1;
      if isEscaped {
        sb := sb + [ch];
        isEscaped := false;
        continue;
      }
      if ch == cfg.esc {
        isEscaped := true;
        isSep := false;
        continue;
      }
      if inGroup >= 0 {
        if ch == cfg.close[inGroup] {
          inGroup := -1;
        }
        sb := sb + [ch];
        continue;
      } else if cfg.grouped {
        var qspos := IndexOf(cfg.open, ch);
        if qspos >= 0 {
          isSep := false;
          inGroup := qspos;
          sb := sb + [ch];
          continue;
        }
      }
      isSep := IndexOf(cfg.separator, ch) >= 0;
      if isSep {
        continue;
      }
      sb := sb + [ch];
    }
  }

  function Max(a: nat, b: nat): (m: nat)
    ensures m >= a && m >= b && (m == a || m == b)
  {
    if a >= b then a else b
  }
}
