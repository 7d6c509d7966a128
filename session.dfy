/**
 * The tree tutor's per-user session state: the input and configuration the
 * current tree was built from, the stash, and two offsets into the input
 * that let the user step through it a record at a time (step) and back
 * (back), each position being a line break of the input.
 *
 * A tree is represented by the text and configuration it was built from;
 * whether constructing one throws is given by the session's builder.
 */
module TreeSessions {
  import opened Wrappers
  import opened Errors
  import opened JavaStrings

  const DefaultConfiguration: string := "paths.root: [\n  {const = root}\n]"

  /** A tree the session built: the input text it was given and its configuration. */
  datatype TreeBuild = TreeBuild(input: string, configuration: string)

  /** The exception constructing a tree over an input and a configuration throws, if any. */
  type Builder = (string, string) -> Option<Error>

  /** The session's fields; `closed` lists the trees closed so far, in order. */
  datatype Session = Session(
    input: Option<string>, configuration: string, path: string, ops: string, stash: string,
    tree: Option<TreeBuild>, closed: seq<TreeBuild>,
    lastStepOffset: int, stepOffset: int, built: bool)

  /** A call's new state and what it returns (a tree or null) or throws. */
  datatype Transition = Transition(state: Session, result: Result<Option<TreeBuild>, Error>)

  /** What getState reports. */
  datatype Saved = Saved(input: Option<string>, configuration: string, path: string, ops: string, stash: string)

  datatype Report = Report(state: Session, saved: Saved)

  /** The offsets are -1 or a position, the last one a position; a built session has a tree. */
  predicate Valid(s: Session) {
    s.stepOffset >= -1 && s.lastStepOffset >= 0 && (s.built ==> s.tree.Some?)
  }

  /** The tree of a state made from a directory alone. */
  function Fresh(): (s: Session)
    ensures Valid(s) && s.tree.None? && !s.built
  {
    Session(Some(""), DefaultConfiguration, "", "", "[]", None, [], 0, 0, false)
  }

  /** The state made from an input and a configuration, whose tree is built over them. */
  function Open(build: Builder, input: string, configuration: string, path: string, ops: string): (r: Result<Session, Error>)
    ensures r.Success? <==> build(input, configuration).None?
    ensures r.Success? ==> Valid(r.value) && r.value.tree == Some(TreeBuild(input, configuration)) && !r.value.built
  {
    match build(input, configuration)
    case Some(e) => Failure(e)
    case None =>
      Success(Session(Some(input), configuration, path, ops, "[]", Some(TreeBuild(input, configuration)), [], 0, 0, false))
  }

  /** The current tree, if any, closed. */
  function Close(s: Session): Session {
    if s.tree.Some? then s.(closed := s.closed + [s.tree.value]) else s
  }

  /** Whether getTree has to build: the input or the configuration differs, or nothing is built. */
  predicate Stale(s: Session, input: string, configuration: string) {
    Some(input) != s.input || configuration != s.configuration || !s.built
  }

  /** getTree(input, configuration). */
  function GetTree(s: Session, build: Builder, input: string, configuration: string): (r: Transition)
    ensures Valid(s) ==> Valid(r.state)
    ensures !Stale(s, input, configuration) ==> r == Transition(s, Success(s.tree))
    ensures Stale(s, input, configuration) && r.result.Success? ==>
      r.result == Success(Some(TreeBuild(input, configuration))) && r.state.built && r.state.stepOffset == -1
  {
    if Stale(s, input, configuration) then
      var c := Close(s);
      match build(input, configuration)
      case Some(e) => Transition(c, Failure(e))
      case None =>
        var t := TreeBuild(input, configuration);
        Transition(c.(tree := Some(t), input := Some(input), configuration := configuration, stepOffset := -1, built := true),
                   Success(Some(t)))
    else Transition(s, Success(s.tree))
  }

  /** The offset step moves to from `offset`: the next line break after it,
    * or after the first line break (the header's) when the offset is 0; -1
    * when there is none. */
  function NextOffset(input: string, offset: nat): (r: int)
    ensures r == -1 || (offset < r < |input| && input[r] == '\n')
  {
    var from := if offset == 0 then IndexOf(input, '\n') else offset;
    IndexOfFrom(input, '\n', from + 1)
  }

  /** step(input, configuration). */
  function Step(s: Session, build: Builder, input: string, configuration: string): (r: Transition)
    requires Valid(s)
    ensures Valid(r.state)
    ensures s.stepOffset == -1 ==> r == Transition(s, Success(s.tree))
    ensures s.stepOffset != -1 ==> r.state.stepOffset == -1 || r.state.stepOffset > r.state.lastStepOffset
    ensures r.result.Success? && r.result.value.Some? ==> r.state.tree == r.result.value
  {
    if s.stepOffset == -1 then Transition(s, Success(s.tree))
    else
      var start := if Some(input) != s.input || configuration != s.configuration then 0 else s.stepOffset;
      var next := NextOffset(input, start);
      var text := if next == -1 then input else input[..next];
      var c := Close(s).(lastStepOffset := start, stepOffset := next);
      match build(text, configuration)
      case Some(e) => Transition(c, Failure(e))
      case None =>
        var t := TreeBuild(text, configuration);
        Transition(c.(tree := Some(t), input := Some(input), configuration := configuration), Success(Some(t)))
  }

  /** back(input, configuration). */
  function Back(s: Session, build: Builder, input: string, configuration: string): (r: Transition)
    requires Valid(s)
    ensures Valid(r.state)
    ensures s.built ==> r == Transition(s, Success(s.tree))
    ensures !s.built && r.result.Success? && r.result.value.Some? ==>
      r.state.lastStepOffset < r.state.stepOffset == s.lastStepOffset && r.state.tree == r.result.value
  {
    if s.built then Transition(s, Success(s.tree))
    else if s.lastStepOffset > |input| then Transition(s, Failure(IndexOutOfBounds(s.lastStepOffset, |input|)))
    else
      var text := input[..s.lastStepOffset];
      var last := LastIndexOf(text, '\n');
      if last == -1 then Transition(s.(stepOffset := 0, lastStepOffset := 0), Success(None))
      else
        var c := Close(s).(stepOffset := s.lastStepOffset, lastStepOffset := last);
        match build(text, configuration)
        case Some(e) => Transition(c, Failure(e))
        case None =>
          var t := TreeBuild(text, configuration);
          Transition(c.(tree := Some(t), input := Some(input), configuration := configuration), Success(Some(t)))
  }

  /** reset(). */
  function Reset(s: Session): (r: Session)
    ensures Valid(r) && r.tree.None? && !r.built
    ensures r.closed == s.closed + (if s.tree.Some? then [s.tree.value] else [])
  {
    Close(s).(input := None, configuration := DefaultConfiguration, tree := None,
              lastStepOffset := 0, stepOffset := 0, built := false)
  }

  /** getState(). */
  function GetState(s: Session): Report {
    Report(s.(lastStepOffset := 0, stepOffset := 0), Saved(s.input, s.configuration, s.path, s.ops, s.stash))
  }

  /** updateStash(stash). */
  function UpdateStash(s: Session, stash: string): Session {
    s.(stash := stash)
  }

  // ------------------------------------------------------------- lemmas

  /** getState and updateStash keep the offsets in range (getTree, step,
    * back and reset say so in their own contracts). */
  lemma ValidPreserved(s: Session, stash: string)
    requires Valid(s)
    ensures Valid(GetState(s).state) && Valid(UpdateStash(s, stash))
  {
  }

  /** getTree builds over the whole input exactly when something changed,
    * and then disables step; asked again with the same arguments it
    * returns the same tree and builds nothing. */
  lemma GetTreeBuildsOnlyWhenStale(s: Session, build: Builder, input: string, configuration: string)
    requires Valid(s)
    ensures var r := GetTree(s, build, input, configuration);
      && (!Stale(s, input, configuration) ==> r.state == s && r.result == Success(s.tree))
      && (Stale(s, input, configuration) && build(input, configuration).None? ==>
            && r.result == Success(Some(TreeBuild(input, configuration)))
            && r.state.tree == Some(TreeBuild(input, configuration))
            && r.state.built && r.state.stepOffset == -1
            && r.state.closed == s.closed + (if s.tree.Some? then [s.tree.value] else []))
      && (r.result.Success? ==>
            GetTree(r.state, build, input, configuration) == Transition(r.state, r.result))
  {
  }

  /** After getTree, step does nothing until the offsets are reset. */
  lemma StepAfterGetTree(s: Session, build: Builder, input: string, configuration: string, input': string, configuration': string)
    requires Valid(s)
    requires Stale(s, input, configuration) && build(input, configuration).None?
    ensures var g := GetTree(s, build, input, configuration);
      Valid(g.state) && Step(g.state, build, input', configuration') == Transition(g.state, Success(g.state.tree))
  {
  }

  /**
   * What step does to the offsets: a changed input or configuration starts
   * over from the header; the last offset becomes where the step started,
   * and the new one is -1 or further on.  The tree is built over the input
   * up to the new offset, or over all of it at -1.
   */
  lemma StepAdvances(s: Session, build: Builder, input: string, configuration: string)
    requires Valid(s) && s.stepOffset != -1
    ensures var r := Step(s, build, input, configuration).state;
      var start := if Some(input) != s.input || configuration != s.configuration then 0 else s.stepOffset;
      && r.lastStepOffset == start
      && r.stepOffset == NextOffset(input, start)
      && (r.stepOffset == -1 || r.stepOffset > r.lastStepOffset)
      && (build(if r.stepOffset == -1 then input else input[..r.stepOffset], configuration).None? ==>
            r.tree == Some(TreeBuild(if r.stepOffset == -1 then input else input[..r.stepOffset], configuration)))
  {
  }

  /** The prefix a step moves to ends one line further: after the header
    * and the first record when it starts from 0, and one more line break
    * than before otherwise; there is none when no line break follows. */
  lemma {:induction false} NextOffsetLines(input: string, offset: nat)
    requires offset == 0 || (offset < |input| && input[offset] == '\n')
    ensures var next := NextOffset(input, offset);
      && (next != -1 && offset == 0 ==> CountIn(input[..next], "\n") == 1)
      && (next != -1 && offset > 0 ==> CountIn(input[..next], "\n") == CountIn(input[..offset], "\n") + 1)
      && (offset > 0 ==> (next == -1 <==> '\n' !in input[offset + 1..]))
  {
    if NextOffset(input, offset) != -1 {
      NextOffsetCount(input, offset);
    }
    if offset > 0 {
      NextOffsetNone(input, offset);
    }
  }

  /** The line breaks before the prefix a step moves to. */
  lemma NextOffsetCount(input: string, offset: nat)
    requires offset == 0 || (offset < |input| && input[offset] == '\n')
    requires NextOffset(input, offset) != -1
    ensures var next := NextOffset(input, offset);
      && (offset == 0 ==> CountIn(input[..next], "\n") == 1)
      && (offset > 0 ==> CountIn(input[..next], "\n") == CountIn(input[..offset], "\n") + 1)
  {
    var next := NextOffset(input, offset);
    var from := if offset == 0 then IndexOf(input, '\n') else offset;
    assert 0 <= from < next;
    assert input[..next] == input[..from] + [input[from]] + input[from + 1..next];
    CountInAppend(input[..from] + [input[from]], input[from + 1..next], "\n");
    CountInAppend(input[..from], [input[from]], "\n");
    assert CountIn([input[from]], "\n") == 1;
    CountInNone(input[from + 1..next], "\n");
    if offset == 0 {
      CountInNone(input[..from], "\n");
    }
  }

  /** A step from a line break finds none exactly when no line break follows. */
  lemma NextOffsetNone(input: string, offset: nat)
    requires 0 < offset < |input| && input[offset] == '\n'
    ensures NextOffset(input, offset) == -1 <==> '\n' !in input[offset + 1..]
  {
    if NextOffset(input, offset) == -1 {
      var tail := input[offset + 1..];
      assert forall k :: 0 <= k < |tail| ==> tail[k] == input[offset + 1 + k];
    }
  }

  /** A step after a back rebuilds the tree the back replaced: the next line
    * break after the last one before a line break is that line break. */
  lemma StepAfterBackOffset(input: string, offset: nat)
    requires offset < |input| && input[offset] == '\n' && '\n' in input[..offset]
    ensures LastIndexOf(input[..offset], '\n') >= 0
    ensures NextOffset(input, LastIndexOf(input[..offset], '\n')) == offset
  {
    var last := LastIndexOf(input[..offset], '\n');
    assert input[..offset][last + 1..] == input[last + 1..offset];
    if last == 0 {
      assert IndexOf(input, '\n') == 0;
    }
    var next := NextOffset(input, last);
    assert forall k :: last < k < offset ==> input[k] == input[last + 1..offset][k - last - 1];
  }

  /** back undoes a step: stepping from a position reached by a step, then
    * going back, returns to that position and rebuilds its tree. */
  lemma BackUndoesStep(s: Session, build: Builder, input: string, configuration: string)
    requires Valid(s) && !s.built && s.input == Some(input) && s.configuration == configuration
    requires 0 < s.stepOffset < |input| && input[s.stepOffset] == '\n'
    requires s.lastStepOffset == LastIndexOf(input[..s.stepOffset], '\n') != -1
    requires s.tree == Some(TreeBuild(input[..s.stepOffset], configuration))
    requires build(if NextOffset(input, s.stepOffset) == -1 then input else input[..NextOffset(input, s.stepOffset)], configuration).None?
    requires build(input[..s.stepOffset], configuration).None?
    ensures var a := Step(s, build, input, configuration);
      Valid(a.state) &&
      var b := Back(a.state, build, input, configuration);
      && b.result == Success(s.tree)
      && b.state.(closed := s.closed) == s
  {
  }

  /** step undoes back: going back from a position reached by a step, then
    * stepping, returns to that position and rebuilds its tree. */
  lemma StepUndoesBack(s: Session, build: Builder, input: string, configuration: string)
    requires Valid(s) && !s.built && s.input == Some(input) && s.configuration == configuration
    requires 0 < s.lastStepOffset < |input| && input[s.lastStepOffset] == '\n' && '\n' in input[..s.lastStepOffset]
    requires s.stepOffset == NextOffset(input, s.lastStepOffset)
    requires s.tree == Some(TreeBuild(if s.stepOffset == -1 then input else input[..s.stepOffset], configuration))
    requires build(if s.stepOffset == -1 then input else input[..s.stepOffset], configuration).None?
    requires build(input[..s.lastStepOffset], configuration).None?
    ensures var b := Back(s, build, input, configuration);
      Valid(b.state) &&
      var a := Step(b.state, build, input, configuration);
      && a.result == Success(s.tree)
      && a.state.(closed := s.closed) == s
  {
    StepAfterBackOffset(input, s.lastStepOffset);
  }

  /** After reset or getState, step starts over from the header. */
  lemma StepRestarts(s: Session, build: Builder, input: string, configuration: string)
    requires Valid(s)
    ensures Step(Reset(s), build, input, configuration).state.lastStepOffset == 0
    ensures Step(Reset(s), build, input, configuration).state.stepOffset == NextOffset(input, 0)
    ensures Step(GetState(s).state, build, input, configuration).state.lastStepOffset == 0
    ensures Step(GetState(s).state, build, input, configuration).state.stepOffset == NextOffset(input, 0)
  {
  }

  /** reset discards the tree, closing it, and the next getTree builds over
    * its arguments whatever they are; the stash, path and ops survive. */
  lemma ResetForcesRebuild(s: Session, build: Builder, input: string, configuration: string)
    requires Valid(s)
    ensures var r := Reset(s);
      && r.tree.None? && r.closed == s.closed + (if s.tree.Some? then [s.tree.value] else [])
      && Stale(r, input, configuration)
      && GetState(r).saved == Saved(None, DefaultConfiguration, s.path, s.ops, s.stash)
  {
  }

  /** updateStash changes what getState reports in the stash only. */
  lemma StashOnly(s: Session, stash: string)
    ensures GetState(UpdateStash(s, stash)).saved == GetState(s).saved.(stash := stash)
    ensures GetState(UpdateStash(s, stash)).state == GetState(s).state.(stash := stash)
  {
  }
}

/** The session state as the object the tree tutor keeps per user. */
module TreeTutorStates {
  import opened Wrappers
  import opened Errors
  import opened JavaStrings
  import opened TreeSessions

  class TreeTutorState {
    /** Constructing a tree; the directory it is stored in is part of it. */
    const build: Builder
    var input: Option<string>
    var configuration: string
    var path: string
    var ops: string
    var stash: string
    var tree: Option<TreeBuild>
    var closed: seq<TreeBuild>
    var lastStepOffset: int
    var stepOffset: int
    var built: bool

    ghost function State(): Session
      reads this
    {
      Session(input, configuration, path, ops, stash, tree, closed, lastStepOffset, stepOffset, built)
    }

    ghost predicate Valid()
      reads this
    {
      TreeSessions.Valid(State())
    }

    /** The constructor from a directory. */
    constructor FromDirectory(build: Builder)
      ensures this.build == build && State() == Fresh() && Valid()
    {
      this.build := build;
      input := Some("");
      configuration := DefaultConfiguration;
      path := "";
      ops := "";
      stash := "[]";
      tree := None;
      closed := [];
      lastStepOffset := 0;
      stepOffset := 0;
      built := false;
    }

    constructor Init(build: Builder, input: string, configuration: string, path: string, ops: string)
      ensures this.build == build && Valid()
      ensures State() == Session(Some(input), configuration, path, ops, "[]", Some(TreeBuild(input, configuration)), [], 0, 0, false)
    {
      this.build := build;
      this.input := Some(input);
      this.configuration := configuration;
      this.path := path;
      this.ops := ops;
      tree := Some(TreeBuild(input, configuration));
      stash := "[]";
      closed := [];
      lastStepOffset := 0;
      stepOffset := 0;
      built := false;
    }

    /** The constructors from an input and a configuration, which build the
      * tree over them (the three-argument one has empty path and ops). */
    static method Create(build: Builder, input: string, configuration: string, path: string, ops: string)
      returns (r: Result<TreeTutorState, Error>)
      ensures r.Failure? <==> build(input, configuration).Some?
      ensures r.Failure? ==> r.error == build(input, configuration).value
      ensures r.Success? ==>
        fresh(r.value) && r.value.build == build && r.value.State() == Open(build, input, configuration, path, ops).value && r.value.Valid()
    {
      var e := build(input, configuration);
      if e.Some? {
        return Failure(e.value);
      }
      var s := new TreeTutorState.Init(build, input, configuration, path, ops);
      return Success(s);
    }

    /** Closes the current tree, if there is one. */
    method CloseTree()
      modifies this`closed
      ensures State() == Close(old(State()))
    {
      if tree.Some? {
        closed := closed + [tree.value];
      }
    }

    /** Closes the current tree and builds one over `text`, then takes the
      * input and configuration; when building throws, the closed tree stays
      * current and nothing else changes. */
    method Rebuild(text: string, input: string, configuration: string) returns (e: Option<Error>)
      modifies this`closed, this`tree, this`input, this`configuration
      ensures e == build(text, configuration)
      ensures var c := Close(old(State()));
        State() == if e.Some? then c else c.(tree := Some(TreeBuild(text, configuration)), input := Some(input), configuration := configuration)
    {
      CloseTree();
      e := build(text, configuration);
      if e.None? {
        tree := Some(TreeBuild(text, configuration));
        this.input := Some(input);
        this.configuration := configuration;
      }
    }

    method GetTree(input: string, configuration: string) returns (r: Result<Option<TreeBuild>, Error>)
      requires Valid()
      modifies this
      ensures Valid()
      ensures var t := TreeSessions.GetTree(old(State()), build, input, configuration);
        State() == t.state && r == t.result
    {
      if Some(input) != this.input || configuration != this.configuration || !built {
        var e := Rebuild(input, input, configuration);
        if e.Some? {
          return Failure(e.value);
        }
        stepOffset := -1;
        built := true;
      }
      return Success(tree);
    }

    method Step(input: string, configuration: string) returns (r: Result<Option<TreeBuild>, Error>)
      requires Valid()
      modifies this
      ensures Valid()
      ensures var t := TreeSessions.Step(old(State()), build, input, configuration);
        State() == t.state && r == t.result
    {
      if stepOffset != -1 {
        MoveOffsets(input, configuration);
        var selectBundles: string;
        if stepOffset == -1 {
          selectBundles := input;
        } else {
          selectBundles := input[..stepOffset];
        }
        var e := Rebuild(selectBundles, input, configuration);
        if e.Some? {
          return Failure(e.value);
        }
      }
      return Success(tree);
    }

    /** The offsets step moves, starting over when the input or the
      * configuration changed. */
    method MoveOffsets(input: string, configuration: string)
      requires Valid() && stepOffset != -1
      modifies this`lastStepOffset, this`stepOffset
      ensures var start := if Some(input) != old(this.input) || configuration != old(this.configuration) then 0 else old(stepOffset);
        State() == old(State()).(lastStepOffset := start, stepOffset := NextOffset(input, start))
    {
      if Some(input) != this.input || configuration != this.configuration {
        lastStepOffset := 0;
        stepOffset := 0;
      }
      lastStepOffset := stepOffset;
      var from := stepOffset;
      if stepOffset == 0 {
        from := IndexOf(input, '\n');
      }
      stepOffset := IndexOfFrom(input, '\n', from + 1);
    }

    method Back(input: string, configuration: string) returns (r: Result<Option<TreeBuild>, Error>)
      requires Valid()
      modifies this
      ensures Valid()
      ensures var t := TreeSessions.Back(old(State()), build, input, configuration);
        State() == t.state && r == t.result
    {
      if !built {
        if lastStepOffset > |input| {
          return Failure(IndexOutOfBounds(lastStepOffset, |input|));
        }
        var selectBundles := input[..lastStepOffset];
        stepOffset := lastStepOffset;
        lastStepOffset := LastIndexOf(selectBundles, '\n');
        if lastStepOffset == -1 {
          stepOffset := 0;
          lastStepOffset := 0;
          return Success(None);
        }
        var e := Rebuild(selectBundles, input, configuration);
        if e.Some? {
          return Failure(e.value);
        }
      }
      return Success(tree);
    }

    method Reset()
      requires Valid()
      modifies this
      ensures Valid() && State() == TreeSessions.Reset(old(State()))
    {
      input := None;
      configuration := DefaultConfiguration;
      if tree.Some? {
        CloseTree();
        tree := None;
      }
      lastStepOffset := 0;
      stepOffset := 0;
      built := false;
    }

    method UpdateStash(stash: string)
      modifies this`stash
      ensures State() == TreeSessions.UpdateStash(old(State()), stash)
    {
      this.stash := stash;
    }

    method GetState() returns (r: Saved)
      requires Valid()
      modifies this`lastStepOffset, this`stepOffset
      ensures Valid()
      ensures var t := TreeSessions.GetState(old(State()));
        State() == t.state && r == t.saved
    {
      lastStepOffset := 0;
      stepOffset := 0;
      return Saved(input, configuration, path, ops, stash);
    }
  }
}
