/**
 * What build, step, toString, find and processBundles of the tree tutor's
 * tree promise, proved about their specification functions.
 */
module TutorTreeLemmas {
  import opened Wrappers
  import opened Errors
  import opened JavaStrings
  import opened Values
  import opened TreeTutorInput
  import opened TutorTrees

  // ---------------------------------------------------------------- build

  /** Every entry of the built view stands for its node, has the node's
    * mark, and is a folder exactly when the node has children. */
  lemma BuildEntries(p: StoreNode)
    ensures var v := BuildView(p);
      forall k :: 0 <= k < |v| ==>
        && Matches(v[k].title, p.children[k])
        && (v[k].title == p.children[k].name + "*" <==> p.children[k].hasData)
        && (v[k].folder <==> |v[k].children| > 0)
  {
    var v := BuildView(p);
    forall k | 0 <= k < |v|
      ensures Matches(v[k].title, p.children[k])
      ensures v[k].title == p.children[k].name + "*" <==> p.children[k].hasData
      ensures v[k].folder <==> |v[k].children| > 0
    {
      assert |v[k].children| == |p.children[k].children|;
    }
  }

  // ------------------------------------------------------------ step/build

  /** Stepping the full view of a node changes nothing and inserts nothing:
    * every entry finds its node, and the last entry stands for the last node. */
  lemma {:induction false} StepOnBuilt(p: StoreNode)
    ensures StepView(BuildView(p), p, 0) == StepState(BuildView(p), |p.children|, false)
    decreases p, 1
  {
    if |p.children| > 0 {
      ForBuilt(p, 0);
      var v := BuildView(p);
      var c := ForFrom(p, Cursor(v, 0, 1, 0, false), 0);
      assert LastMatches(c.arr, p.children[c.cur]);
      assert Iter(p, StepState(v, 0, false)) == StepState(v, |p.children|, false);
      assert WhileFrom(p, StepState(v, |p.children|, false)) == StepState(v, |p.children|, false);
    }
  }

  /** The for loop over a full view: entry i is met while `next` is the
    * i-th node, and leaves the view as it was. */
  lemma {:induction false} ForBuilt(p: StoreNode, i: nat)
    requires i < |p.children|
    ensures var n := |p.children|;
      ForFrom(p, Cursor(BuildView(p), i, i + 1, 0, false), i)
        == Cursor(BuildView(p), n - 1, n, |p.children[n - 1].children|, false)
    decreases p, 0, |p.children| - i
  {
    var v := BuildView(p);
    var ch := p.children[i];
    StepOnBuilt(ch);
    assert v[i].children == BuildView(ch);
    assert v[i := v[i].(children := BuildView(ch))] == v;
    if i + 1 < |p.children| {
      ForBuilt(p, i + 1);
    }
  }

  /** Stepping an empty view appends the first node's entry and stops. */
  lemma StepOnEmptyView(p: StoreNode)
    requires |p.children| > 0
    ensures StepView([], p, 0) == StepState([ViewNode(Title(p.children[0]), [], p.children[0].children != [])], 1, true)
  {
    var e := NewEntry(p.children[0], 0);
    assert Iter(p, StepState([], 0, false)) == StepState([e], 1, true);
    assert WhileFrom(p, StepState([e], 1, true)) == StepState([e], 1, true);
  }

  // ------------------------------------------------------------ step grows

  /**
   * At the level it is called on, step appends at most one entry; one that
   * it appends stands for a node the iterator reached, has no children,
   * is a folder only if the node has children, and sets `inserted`.
   */
  lemma {:induction false} WhileAppendsOne(p: StoreNode, w: StepState)
    requires w.pos <= |p.children|
    ensures var r := WhileFrom(p, w);
      && |w.arr| <= |r.arr| <= |w.arr| + 1
      && (|r.arr| == |w.arr| + 1 ==> r.inserted && NewFor(r.arr[|w.arr|], p, w.pos))
    decreases |p.children| - w.pos
  {
    if w.pos < |p.children| && !w.inserted {
      var i := Iter(p, w);
      var c := ForFrom(p, Cursor(w.arr, w.pos, w.pos + 1, 0, w.inserted), 0);
      if |i.arr| == |w.arr| {
        WhileAppendsOne(p, i);
      } else {
        assert i.arr[|w.arr|] == NewEntry(p.children[c.cur], c.np);
        assert w.pos <= c.cur < |p.children|;
      }
    }
  }

  /** A fresh entry for one of the children from `from` on. */
  predicate NewFor(e: ViewNode, p: StoreNode, from: nat) {
    && e.children == []
    && exists k :: from <= k < |p.children| && e.title == Title(p.children[k]) && (e.folder ==> p.children[k].children != [])
  }

  lemma StepAppendsOne(arr: seq<ViewNode>, p: StoreNode, pos: nat)
    ensures var r := StepView(arr, p, pos);
      && |arr| <= |r.arr| <= |arr| + 1
      && (|r.arr| == |arr| + 1 ==> r.inserted && NewFor(r.arr[|arr|], p, pos))
  {
    if pos < |p.children| {
      WhileAppendsOne(p, StepState(arr, pos, false));
    }
  }

  // ---------------------------------------------------------- step keeps

  /** `b` keeps every entry of `a` where it was, with its title and folder
    * flag, and keeps their children likewise; it may hold more entries. */
  ghost predicate Extends(a: seq<ViewNode>, b: seq<ViewNode>)
    decreases a
  {
    && |a| <= |b|
    && forall i :: 0 <= i < |a| ==>
         b[i].title == a[i].title && b[i].folder == a[i].folder && Extends(a[i].children, b[i].children)
  }

  lemma {:induction false} ExtendsReflexive(a: seq<ViewNode>)
    ensures Extends(a, a)
    decreases a
  {
    forall i | 0 <= i < |a|
      ensures Extends(a[i].children, a[i].children)
    {
      ExtendsReflexive(a[i].children);
    }
  }

  lemma {:induction false} ExtendsTransitive(a: seq<ViewNode>, b: seq<ViewNode>, c: seq<ViewNode>)
    requires Extends(a, b) && Extends(b, c)
    ensures Extends(a, c)
    decreases a
  {
    forall i | 0 <= i < |a|
      ensures Extends(a[i].children, c[i].children)
    {
      ExtendsTransitive(a[i].children, b[i].children, c[i].children);
    }
  }

  lemma ExtendsAppend(a: seq<ViewNode>, e: ViewNode)
    ensures Extends(a, a + [e])
  {
    ExtendsReflexive(a);
    assert forall i :: 0 <= i < |a| ==> (a + [e])[i] == a[i];
  }

  lemma ExtendsUpdate(a: seq<ViewNode>, i: nat, children: seq<ViewNode>)
    requires i < |a| && Extends(a[i].children, children)
    ensures Extends(a, a[i := a[i].(children := children)])
  {
    ExtendsReflexive(a);
  }

  /** step never removes, moves, retitles or refolds an entry, at any depth. */
  lemma {:induction false} StepExtends(arr: seq<ViewNode>, p: StoreNode, pos: nat)
    ensures Extends(arr, StepView(arr, p, pos).arr)
    decreases p, 2
  {
    if pos < |p.children| {
      WhileExtends(p, StepState(arr, pos, false));
    } else {
      ExtendsReflexive(arr);
    }
  }

  lemma {:induction false} WhileExtends(p: StoreNode, w: StepState)
    requires w.pos <= |p.children|
    ensures Extends(w.arr, WhileFrom(p, w).arr)
    decreases p, 1, |p.children| - w.pos, 1
  {
    if w.pos < |p.children| && !w.inserted {
      IterExtends(p, w);
      WhileExtends(p, Iter(p, w));
      ExtendsTransitive(w.arr, Iter(p, w).arr, WhileFrom(p, w).arr);
    } else {
      ExtendsReflexive(w.arr);
    }
  }

  lemma {:induction false} IterExtends(p: StoreNode, w: StepState)
    requires w.pos < |p.children|
    ensures Extends(w.arr, Iter(p, w).arr)
    decreases p, 1, |p.children| - w.pos, 0
  {
    var c := ForFrom(p, Cursor(w.arr, w.pos, w.pos + 1, 0, w.inserted), 0);
    ForExtends(p, Cursor(w.arr, w.pos, w.pos + 1, 0, w.inserted), 0);
    var n := p.children[c.cur];
    if !c.inserted && !LastMatches(c.arr, n) {
      ExtendsAppend(c.arr, NewEntry(n, c.np));
      ExtendsTransitive(w.arr, c.arr, c.arr + [NewEntry(n, c.np)]);
    }
  }

  lemma {:induction false} ForExtends(p: StoreNode, c: Cursor, i: nat)
    requires c.cur < c.pos <= |p.children| && i <= |c.arr|
    ensures Extends(c.arr, ForFrom(p, c, i).arr)
    decreases p, 0, |c.arr| - i
  {
    if i == |c.arr| {
      ExtendsReflexive(c.arr);
    } else if Matches(c.arr[i].title, p.children[c.cur]) {
      var s := StepView(c.arr[i].children, p.children[c.cur], c.np);
      StepExtends(c.arr[i].children, p.children[c.cur], c.np);
      var arr := c.arr[i := c.arr[i].(children := s.arr)];
      ExtendsUpdate(c.arr, i, s.arr);
      var next := ForStep(p, c, i);
      ForExtends(p, next, i + 1);
      ExtendsTransitive(c.arr, arr, ForFrom(p, next, i + 1).arr);
    } else {
      ForExtends(p, c, i + 1);
    }
  }

  /** `inserted` is reset by every inner step, so one step may append
    * several entries: here one below each of two existing folders. */
  lemma StepMayInsertTwice()
    ensures var x := StoreNode("x", false, []);
      var y := StoreNode("y", false, []);
      var root := StoreNode("", false, [StoreNode("A", false, [x]), StoreNode("B", false, [y])]);
      var view := [ViewNode("A", [], true), ViewNode("B", [], true)];
      StepView(view, root, 0)
        == StepState([ViewNode("A", [ViewNode("x", [], false)], true), ViewNode("B", [ViewNode("y", [], false)], true)], 2, true)
  {
    var x := StoreNode("x", false, []);
    var y := StoreNode("y", false, []);
    var a := StoreNode("A", false, [x]);
    var b := StoreNode("B", false, [y]);
    var root := StoreNode("", false, [a, b]);
    var view := [ViewNode("A", [], true), ViewNode("B", [], true)];
    StepOnEmptyView(a);
    StepOnEmptyView(b);
    var xa := [ViewNode("x", [], false)];
    var yb := [ViewNode("y", [], false)];
    var v1 := view[0 := view[0].(children := xa)];
    var v2 := v1[1 := v1[1].(children := yb)];
    assert ForFrom(root, Cursor(v2, 1, 2, 1, true), 2) == Cursor(v2, 1, 2, 1, true);
    assert ForFrom(root, Cursor(v1, 1, 2, 0, true), 1) == Cursor(v2, 1, 2, 1, true);
    assert ForFrom(root, Cursor(view, 0, 1, 0, false), 0) == Cursor(v2, 1, 2, 1, true);
    assert Iter(root, StepState(view, 0, false)) == StepState(v2, 2, true);
    assert WhileFrom(root, StepState(v2, 2, true)) == StepState(v2, 2, true);
  }

  // ------------------------------------------------------------- toString

  /** The nodes of the first k subtrees below `parent`. */
  function Count(parent: StoreNode, k: nat): nat
    requires k <= |parent.children|
    decreases parent, k
  {
    if k == 0 then 0
    else
      var n := parent.children[k - 1];
      Count(parent, k - 1) + 1 + Count(n, |n.children|)
  }

  /** No name in the subtrees below `parent` holds a line break. */
  ghost predicate PlainNames(parent: StoreNode)
    decreases parent
  {
    forall i :: 0 <= i < |parent.children| ==>
      '\n' !in parent.children[i].name && PlainNames(parent.children[i])
  }

  /** The line breaks of one more line of toString's output. */
  lemma LineBreaks(before: string, indent: string, name: string, sub: string)
    requires '\n' !in indent && '\n' !in name
    ensures CountIn(before + indent + name + "\n" + sub, "\n") == CountIn(before, "\n") + 1 + CountIn(sub, "\n")
  {
    CountInNone(indent, "\n");
    CountInNone(name, "\n");
    CountInAppend(before, indent, "\n");
    CountInAppend(before + indent, name, "\n");
    CountInAppend(before + indent + name, "\n", "\n");
    CountInAppend(before + indent + name + "\n", sub, "\n");
  }

  /** toString prints one line per node: with line-free names and indent,
    * its line breaks are exactly the nodes of the subtrees. */
  lemma {:induction false} RenderLines(indent: string, parent: StoreNode, k: nat)
    requires k <= |parent.children| && '\n' !in indent && PlainNames(parent)
    ensures CountIn(Render(indent, parent, k), "\n") == Count(parent, k)
    decreases parent, k
  {
    if k > 0 {
      var n := parent.children[k - 1];
      RenderLines(indent, parent, k - 1);
      RenderLines(indent + "\t", n, |n.children|);
      LineBreaks(Render(indent, parent, k - 1), indent, n.name, Render(indent + "\t", n, |n.children|));
    }
  }

  /** The lines toString prints for the first k subtrees below `parent`, in
    * pre-order, each node's line its name after the indent, the indent one
    * tab deeper per level. */
  function Lines(indent: string, parent: StoreNode, k: nat): (r: seq<string>)
    requires k <= |parent.children|
    ensures |r| == Count(parent, k)
    decreases parent, k
  {
    if k == 0 then []
    else
      var n := parent.children[k - 1];
      Lines(indent, parent, k - 1) + [indent + n.name] + Lines(indent + "\t", n, |n.children|)
  }

  /** The lines, each followed by a line break. */
  function Unlines(lines: seq<string>): string {
    if lines == [] then "" else Unlines(lines[..|lines| - 1]) + lines[|lines| - 1] + "\n"
  }

  lemma {:induction false} UnlinesAppend(a: seq<string>, b: seq<string>)
    ensures Unlines(a + b) == Unlines(a) + Unlines(b)
    decreases |b|
  {
    if b != [] {
      var b' := b[..|b| - 1];
      assert (a + b)[..|a + b| - 1] == a + b';
      UnlinesAppend(a, b');
      var x := b[|b| - 1];
      Associative(Unlines(a), Unlines(b'), x);
      Associative(Unlines(a), Unlines(b') + x, "\n");
    } else {
      assert a + b == a;
    }
  }

  /** toString(indent, iterator) prints exactly the pre-order lines, one per node. */
  lemma {:induction false} RenderIsLines(indent: string, parent: StoreNode, k: nat)
    requires k <= |parent.children|
    ensures Render(indent, parent, k) == Unlines(Lines(indent, parent, k))
    decreases parent, k
  {
    if k > 0 {
      var n := parent.children[k - 1];
      var a := Lines(indent, parent, k - 1);
      var b := Lines(indent + "\t", n, |n.children|);
      var line := indent + n.name;
      RenderIsLines(indent, parent, k - 1);
      RenderIsLines(indent + "\t", n, |n.children|);
      assert Lines(indent, parent, k) == (a + [line]) + b;
      UnlinesAppend(a + [line], b);
      assert Unlines(a + [line]) == Unlines(a) + line + "\n" by {
        assert (a + [line])[..|a|] == a;
      }
      var below := Render(indent + "\t", n, |n.children|);
      assert Render(indent, parent, k) == Render(indent, parent, k - 1) + indent + n.name + "\n" + below;
      LineJoined(Render(indent, parent, k - 1), indent, n.name, below);
    }
  }

  lemma LineJoined(before: string, indent: string, name: string, below: string)
    ensures before + indent + name + "\n" + below == before + (indent + name) + "\n" + below
  {
    Associative(before, indent, name);
  }

  function Leaf(name: string): StoreNode {
    StoreNode(name, false, [])
  }

  /** The computers of the sample input carry data; their users do not. */
  function Lenovo(): StoreNode {
    StoreNode("Lenovo", true, [Leaf("Aditya"), Leaf("Eric"), Leaf("Ian"), Leaf("Michael"), Leaf("Stephen")])
  }

  function Mac(): StoreNode {
    StoreNode("Mac", true, [Leaf("Al"), Leaf("Andres"), Leaf("Evan"), Leaf("Matt")])
  }

  function Data(): StoreNode {
    StoreNode("Data", false, [Lenovo(), Mac()])
  }

  /** The store the sample input builds: team, Data, the computers, their users. */
  function SampleStore(): StoreNode {
    StoreNode("root", false, [StoreNode("team", false, [Data()])])
  }

  lemma LenovoLines()
    ensures Lines("\t\t\t", Lenovo(), 5) == ["\t\t\tAditya", "\t\t\tEric", "\t\t\tIan", "\t\t\tMichael", "\t\t\tStephen"]
  {
    var t := "\t\t\t";
    assert t + "Aditya" == "\t\t\tAditya";
    assert t + "Eric" == "\t\t\tEric";
    assert t + "Ian" == "\t\t\tIan";
    assert t + "Michael" == "\t\t\tMichael";
    assert t + "Stephen" == "\t\t\tStephen";
    assert Lines(t, Lenovo(), 5) == [t + "Aditya", t + "Eric", t + "Ian", t + "Michael", t + "Stephen"];
  }

  lemma MacLines()
    ensures Lines("\t\t\t", Mac(), 4) == ["\t\t\tAl", "\t\t\tAndres", "\t\t\tEvan", "\t\t\tMatt"]
  {
    var t := "\t\t\t";
    assert t + "Al" == "\t\t\tAl";
    assert t + "Andres" == "\t\t\tAndres";
    assert t + "Evan" == "\t\t\tEvan";
    assert t + "Matt" == "\t\t\tMatt";
    assert Lines(t, Mac(), 4) == [t + "Al", t + "Andres", t + "Evan", t + "Matt"];
  }

  lemma DataLines()
    ensures Lines("\t\t", Data(), 2) == ["\t\tLenovo"] + Lines("\t\t\t", Lenovo(), 5) + ["\t\tMac"] + Lines("\t\t\t", Mac(), 4)
  {
    assert "\t\t" + "\t" == "\t\t\t";
    assert "\t\t" + "Lenovo" == "\t\tLenovo";
    assert "\t\t" + "Mac" == "\t\tMac";
  }

  lemma TeamLines()
    ensures Lines("", SampleStore(), 1) == ["team", "\tData"] + Lines("\t\t", Data(), 2)
  {
    assert "\t" + "\t" == "\t\t";
    assert "" + "\t" == "\t";
    assert "\t" + "Data" == "\tData";
    assert "" + "team" == "team";
    var team := SampleStore().children[0];
    assert Lines("\t", team, 1) == ["\tData"] + Lines("\t\t", Data(), 2);
  }

  /** The pre-order lines of the sample input. */
  lemma SampleLines()
    ensures Lines("", SampleStore(), 1) == ["team", "\tData", "\t\tLenovo",
      "\t\t\tAditya", "\t\t\tEric", "\t\t\tIan", "\t\t\tMichael", "\t\t\tStephen",
      "\t\tMac", "\t\t\tAl", "\t\t\tAndres", "\t\t\tEvan", "\t\t\tMatt"]
  {
    TeamLines();
    DataLines();
    LenovoLines();
    MacLines();
  }

  /** The outline of the sample input, the lines the tutor's own test expects. */
  lemma SampleOutline()
    ensures Outline(SampleStore()) == Unlines(["team", "\tData", "\t\tLenovo",
      "\t\t\tAditya", "\t\t\tEric", "\t\t\tIan", "\t\t\tMichael", "\t\t\tStephen",
      "\t\tMac", "\t\t\tAl", "\t\t\tAndres", "\t\t\tEvan", "\t\t\tMatt"])
  {
    RenderIsLines("", SampleStore(), 1);
    SampleLines();
  }

  // ----------------------------------------------------------------- find

  /** find splits the path at every '/' after the first character of what is
    * left: joining the names with '/' gives the path back, and every name but
    * the last is nonempty and holds no '/'. */
  lemma SegmentsJoin(p: string)
    ensures var r := Segments(p);
      && Join(r, "/") == p
      && (forall j :: 0 <= j < |r| - 1 ==> r[j] != "" && '/' !in r[j])
      && ('/' in r[|r| - 1] ==> r[|r| - 1][0] == '/')
  {
    SegmentsRejoin(p);
    SegmentsNames(p);
    SegmentsLast(p);
  }

  lemma {:induction false} SegmentsRejoin(p: string)
    ensures Join(Segments(p), "/") == p
    decreases |p|
  {
    var i := IndexOf(p, '/');
    if i > 0 {
      var rest := Segments(p[i + 1..]);
      SegmentsRejoin(p[i + 1..]);
      var r := [p[..i]] + rest;
      assert r[1..] == rest;
      assert Join(r, "/") == p[..i] + "/" + Join(rest, "/");
      assert p == p[..i] + "/" + p[i + 1..];
    }
  }

  lemma {:induction false} SegmentsNames(p: string)
    ensures forall j :: 0 <= j < |Segments(p)| - 1 ==> Segments(p)[j] != "" && '/' !in Segments(p)[j]
    decreases |p|
  {
    var i := IndexOf(p, '/');
    if i > 0 {
      var rest := Segments(p[i + 1..]);
      SegmentsNames(p[i + 1..]);
      var r := [p[..i]] + rest;
      assert Segments(p) == r;
      forall j | 0 <= j < |r| - 1
        ensures r[j] != "" && '/' !in r[j]
      {
        if j > 0 {
          assert r[j] == rest[j - 1];
        } else {
          assert r[0] == p[..i];
        }
      }
    }
  }

  lemma {:induction false} SegmentsLast(p: string)
    ensures var r := Segments(p);
      '/' in r[|r| - 1] ==> r[|r| - 1][0] == '/'
    decreases |p|
  {
    var i := IndexOf(p, '/');
    if i > 0 {
      var rest := Segments(p[i + 1..]);
      SegmentsLast(p[i + 1..]);
      var r := [p[..i]] + rest;
      assert r[|r| - 1] == rest[|rest| - 1];
    } else if i == 0 {
      assert p[0] == '/';
    }
  }

  /** Descending through the names of a + b is descending through a, then
    * through b from where a ends; a null reached on the way throws. */
  lemma {:induction false} DescendAppend(node: Option<StoreNode>, a: seq<string>, b: seq<string>)
    ensures Descend(node, a + b) ==
      match Descend(node, a)
      case Failure(e) => Failure(e)
      case Success(m) => Descend(m, b)
    decreases |a|
  {
    if a == [] {
      assert a + b == b;
    } else if node.Some? {
      assert (a + b)[0] == a[0] && (a + b)[1..] == a[1..] + b;
      DescendAppend(ChildNamed(node.value.children, a[0]), a[1..], b);
    }
  }

  /** A path without '/' names a child of the root, and null when no child has that name. */
  lemma FindChild(root: StoreNode, name: string)
    requires '/' !in name
    ensures Descend(Some(root), Segments(name)) == Success(ChildNamed(root.children, name))
  {
    assert Segments(name) == [name];
  }

  // ------------------------------------------------------- processBundles

  /** The bundles sent for records k up to j. */
  function Sends(bs: seq<Result<map<string, Value>, Error>>, k: nat, j: nat): (r: seq<Event>)
    requires k <= j <= |bs| && forall i :: k <= i < j ==> bs[i].Success?
    ensures |r| == j - k
    ensures forall i :: 0 <= i < j - k ==> r[i] == Send(bs[k + i].value)
  {
    seq(j - k, i requires 0 <= i < j - k => Send(bs[k + i].value))
  }

  /** Sending record k first, then records k + 1 up to j. */
  lemma SendsCons(bs: seq<Result<map<string, Value>, Error>>, k: nat, j: nat)
    requires k < j <= |bs| && forall i :: k <= i < j ==> bs[i].Success?
    ensures Sends(bs, k, j) == [Send(bs[k].value)] + Sends(bs, k + 1, j)
  {
    assert forall i :: 0 <= i < j - k ==> Sends(bs, k, j)[i] == ([Send(bs[k].value)] + Sends(bs, k + 1, j))[i];
  }

  /** processBundles from record k on ends without an exception exactly
    * when no record from k on fails. */
  lemma {:induction false} FeedSucceeds(bs: seq<Result<map<string, Value>, Error>>, k: nat)
    requires k <= |bs|
    ensures Feed(bs, k).error.None? <==> forall j :: k <= j < |bs| ==> bs[j].Success?
    decreases |bs| - k
  {
    if k < |bs| && bs[k].Success? {
      FeedSucceeds(bs, k + 1);
    }
  }

  /** Without a failing record: every record's bundle in order, then the end. */
  lemma {:induction false} FeedComplete(bs: seq<Result<map<string, Value>, Error>>, k: nat)
    requires k <= |bs| && forall j :: k <= j < |bs| ==> bs[j].Success?
    ensures Feed(bs, k) == Feeding(Sends(bs, k, |bs|) + [Complete], None, |bs| - k)
    decreases |bs| - k
  {
    if k < |bs| {
      FeedComplete(bs, k + 1);
      SendsCons(bs, k, |bs|);
      Associative([Send(bs[k].value)], Sends(bs, k + 1, |bs|), [Complete]);
    } else {
      assert Sends(bs, k, k) == [];
    }
  }

  /**
   * With record j the first to fail: the bundles of the records before it,
   * the end only when it is short of cells (NoSuchElement), and its
   * exception, after taking j - k + 1 records.
   */
  lemma {:induction false} FeedFails(bs: seq<Result<map<string, Value>, Error>>, k: nat, j: nat)
    requires k <= j < |bs| && bs[j].Failure? && forall i :: k <= i < j ==> bs[i].Success?
    ensures Feed(bs, k)
      == Feeding(Sends(bs, k, j) + (if bs[j].error == NoSuchElement then [Complete] else []), Some(bs[j].error), j - k + 1)
    decreases j - k
  {
    var tail: seq<Event> := if bs[j].error == NoSuchElement then [Complete] else [];
    if k < j {
      FeedFails(bs, k + 1, j);
      SendsCons(bs, k, j);
      Associative([Send(bs[k].value)], Sends(bs, k + 1, j), tail);
    } else {
      assert Sends(bs, k, k) == [];
    }
  }
}
