/**
 * The tree tutor's tree: the records are fed to the tree mapper, and the
 * tree store it builds is shown as a view, a JSON array of entries
 * {title, children, folder}, either all at once (build) or grown one entry
 * per call (step).  Nodes are located by slash-separated paths (find), and
 * the store prints as an indented outline (toString).
 *
 * The tree store is read only through its nodes' names, data flags and
 * children in iteration order; the mapper is represented by the events
 * sent to it.
 */
module TutorTrees {
  import opened Wrappers
  import opened Errors
  import opened JavaStrings
  import opened Values
  import opened TreeTutorInput

  /** A node of the tree store: its name, whether it carries data, and its
    * children in the order the node's iterator yields them. */
  datatype StoreNode = StoreNode(name: string, hasData: bool, children: seq<StoreNode>)

  /** A view entry, the JSON object {title, children, folder}. */
  datatype ViewNode = ViewNode(title: string, children: seq<ViewNode>, folder: bool)

  /** The title of a node: its name, marked with `*` when it carries data. */
  function Title(n: StoreNode): (r: string)
    ensures Matches(r, n)
    ensures r == n.name + "*" <==> n.hasData
  {
    if n.hasData then n.name + "*" else n.name
  }

  /** An entry stands for a node when its title is the name, with or without the mark. */
  predicate Matches(title: string, n: StoreNode) {
    title == n.name || title == n.name + "*"
  }

  // ---------------------------------------------------------------- build

  /** build(iterator): one entry per child, in order, with the children's
    * own view below it; folder says whether the child has children. */
  function BuildView(parent: StoreNode): (r: seq<ViewNode>)
    ensures |r| == |parent.children|
    decreases parent
  {
    seq(|parent.children|, k requires 0 <= k < |parent.children| =>
      ViewNode(Title(parent.children[k]), BuildView(parent.children[k]), parent.children[k].children != []))
  }

  // ------------------------------------------------------------- toString

  /** toString(indent, iterator) over the first k children: for each, the
    * indent, the name and a newline, then its subtree one tab deeper. */
  function Render(indent: string, parent: StoreNode, k: nat): (r: string)
    requires k <= |parent.children|
    ensures r == "" <==> k == 0
    ensures k > 0 ==> r[|r| - 1] == '\n'
    decreases parent, k
  {
    if k == 0 then ""
    else
      var n := parent.children[k - 1];
      Render(indent, parent, k - 1) + indent + n.name + "\n" + Render(indent + "\t", n, |n.children|)
  }

  /** The outline of the whole store below the root. */
  function Outline(root: StoreNode): (r: string)
    ensures r == "" <==> root.children == []
    ensures r != "" ==> r[|r| - 1] == '\n'
  {
    Render("", root, |root.children|)
  }

  // ----------------------------------------------------------------- step

  /** What step(jArray, iterator) leaves behind: the array (changed in
    * place), how far the iterator got, and the `inserted` field. */
  datatype StepState = StepState(arr: seq<ViewNode>, pos: nat, inserted: bool)

  /**
   * The state of the inner for loop: the array, the index of the node
   * `next` names among the parent's children, how many children the
   * iterator has yielded, how many children of `next` its iterator
   * (`nextNodes`) has yielded, and the `inserted` field.
   */
  datatype Cursor = Cursor(arr: seq<ViewNode>, cur: nat, pos: nat, np: nat, inserted: bool)

  /** The entry step appends for a node: no children, and folder telling
    * whether the node's iterator, after np children, has more. */
  function NewEntry(n: StoreNode, np: nat): ViewNode {
    ViewNode(Title(n), [], np < |n.children|)
  }

  /** The last entry of the array stands for the node. */
  predicate LastMatches(arr: seq<ViewNode>, n: StoreNode) {
    |arr| > 0 && Matches(arr[|arr| - 1].title, n)
  }

  /**
   * step(jArray, iterator) with the iterator over the parent's children
   * after pos of them: `inserted` is reset, an exhausted iterator leaves the
   * array alone, and otherwise the while loop runs.
   */
  function StepView(arr: seq<ViewNode>, parent: StoreNode, pos: nat): (r: StepState)
    ensures pos >= |parent.children| ==> r == StepState(arr, pos, false)
    ensures pos < |parent.children| ==> pos < r.pos <= |parent.children|
    decreases parent, 2
  {
    if pos >= |parent.children| then StepState(arr, pos, false)
    else WhileFrom(parent, StepState(arr, pos, false))
  }

  /** The value step returns: a fresh empty array for an exhausted
    * iterator, the array it changed otherwise. */
  function Returned(arr: seq<ViewNode>, parent: StoreNode, pos: nat): seq<ViewNode> {
    if pos >= |parent.children| then [] else StepView(arr, parent, pos).arr
  }

  /** The while loop: it runs while the iterator has more and nothing was inserted. */
  function WhileFrom(parent: StoreNode, w: StepState): (r: StepState)
    requires w.pos <= |parent.children|
    ensures w.pos <= r.pos <= |parent.children|
    decreases parent, 1, |parent.children| - w.pos, 1
  {
    if w.pos < |parent.children| && !w.inserted then WhileFrom(parent, Iter(parent, w)) else w
  }

  /**
   * One round of the while loop: take the next node, run the for loop over
   * the whole array, and append an entry for the node `next` then names
   * unless something was inserted or the last entry stands for it.
   */
  function Iter(parent: StoreNode, w: StepState): (r: StepState)
    requires w.pos < |parent.children|
    ensures w.pos < r.pos <= |parent.children|
    decreases parent, 1, |parent.children| - w.pos, 0
  {
    var c := ForFrom(parent, Cursor(w.arr, w.pos, w.pos + 1, 0, w.inserted), 0);
    var n := parent.children[c.cur];
    if !c.inserted && !LastMatches(c.arr, n) then StepState(c.arr + [NewEntry(n, c.np)], c.pos, true)
    else StepState(c.arr, c.pos, c.inserted)
  }

  /**
   * One entry of the for loop: an entry standing for `next` has its
   * children stepped with `nextNodes`, after which `next` moves on when the
   * iterator has more (and `nextNodes` is its fresh iterator); otherwise
   * `nextNodes` stays where the inner step left it.
   */
  function ForStep(parent: StoreNode, c: Cursor, i: nat): (r: Cursor)
    requires c.cur < c.pos <= |parent.children| && i < |c.arr|
    ensures c.cur <= r.cur < r.pos <= |parent.children| && c.pos <= r.pos && |r.arr| == |c.arr|
    decreases parent, 0, |c.arr| - i, 0
  {
    if Matches(c.arr[i].title, parent.children[c.cur]) then
      var s := StepView(c.arr[i].children, parent.children[c.cur], c.np);
      var arr := c.arr[i := c.arr[i].(children := s.arr)];
      if c.pos < |parent.children| then Cursor(arr, c.pos, c.pos + 1, 0, s.inserted)
      else Cursor(arr, c.cur, c.pos, s.pos, s.inserted)
    else c
  }

  /** The for loop from index i to the end of the array. */
  function ForFrom(parent: StoreNode, c: Cursor, i: nat): (r: Cursor)
    requires c.cur < c.pos <= |parent.children| && i <= |c.arr|
    ensures c.cur <= r.cur < r.pos <= |parent.children| && c.pos <= r.pos && |r.arr| == |c.arr|
    decreases parent, 0, |c.arr| - i, 1
  {
    if i == |c.arr| then c else ForFrom(parent, ForStep(parent, c, i), i + 1)
  }

  // ----------------------------------------------------------------- find

  /** The path segments find descends by: the text before the first `/`
    * when that `/` is not at the start, then the rest likewise. */
  function Segments(p: string): (r: seq<string>)
    ensures |r| >= 1
    decreases |p|
  {
    var i := IndexOf(p, '/');
    if i > 0 then [p[..i]] + Segments(p[i + 1..]) else [p]
  }

  /** getNode(name): the first child of that name, or null. */
  function ChildNamed(children: seq<StoreNode>, name: string): (r: Option<StoreNode>)
    ensures r.Some? ==> r.value in children && r.value.name == name
    ensures r.None? <==> forall k :: 0 <= k < |children| ==> children[k].name != name
  {
    if children == [] then None
    else if children[0].name == name then Some(children[0])
    else
      var r := ChildNamed(children[1..], name);
      assert forall k :: 1 <= k < |children| ==> children[k] == children[1..][k - 1];
      r
  }

  /** Descending through the segments; descending from null throws. */
  function Descend(node: Option<StoreNode>, segs: seq<string>): (r: Result<Option<StoreNode>, Error>)
    ensures r.Failure? ==> r.error == NullPointer
    ensures segs != [] && r.Success? && r.value.Some? ==> r.value.value.name == segs[|segs| - 1]
    decreases |segs|
  {
    if segs == [] then Success(node)
    else if node.None? then Failure(NullPointer)
    else Descend(ChildNamed(node.value.children, segs[0]), segs[1..])
  }

  // ------------------------------------------------------- processBundles

  /** What the tree mapper is sent: a bundle, or the end of the input. */
  datatype Event = Send(entries: map<string, Value>) | Complete

  /** What processBundles does with the records: the events it sends, the
    * exception it ends with, and how many records it takes. */
  datatype Feeding = Feeding(events: seq<Event>, error: Option<Error>, consumed: nat)

  /** The entries the bundle of one record receives, key i taking cell i. */
  function RecordBundle(keys: seq<string>, row: seq<Cell>): Result<map<string, Value>, Error> {
    Fill(keys, RecordValues(row), |keys|)
  }

  /** The bundle of every record, in reading order. */
  function RecordBundles(keys: seq<string>, rows: seq<seq<Cell>>): (r: seq<Result<map<string, Value>, Error>>)
    ensures |r| == |rows|
    ensures forall i :: 0 <= i < |rows| ==> r[i] == RecordBundle(keys, rows[i])
  {
    seq(|rows|, i requires 0 <= i < |rows| => RecordBundle(keys, rows[i]))
  }

  /**
   * processBundles over the records' bundles, from the k-th on: each filled
   * bundle is sent in order, and the end is signalled after the last; a
   * record too short for the keys signals the end and throws
   * NoSuchElement; a null cell throws without signalling it.
   */
  function Feed(bundles: seq<Result<map<string, Value>, Error>>, k: nat): (r: Feeding)
    requires k <= |bundles|
    ensures r.consumed <= |bundles| - k
    decreases |bundles| - k
  {
    if k == |bundles| then Feeding([Complete], None, 0)
    else if bundles[k].Failure? then
      var e := bundles[k].error;
      Feeding(if e == NoSuchElement then [Complete] else [], Some(e), 1)
    else
      var rest := Feed(bundles, k + 1);
      Feeding([Send(bundles[k].value)] + rest.events, rest.error, rest.consumed + 1)
  }

  /** One more record fed: the feeding from `start` seen through the
    * records before k, record k, and the rest. */
  lemma FeedAdvance(bundles: seq<Result<map<string, Value>, Error>>, start: nat, k: nat, sent: seq<Event>)
    requires start <= k < |bundles|
    requires var rest := Feed(bundles, k);
      Feed(bundles, start) == Feeding(sent + rest.events, rest.error, k - start + rest.consumed)
    ensures var f := bundles[k];
      && (f.Success? ==>
            var rest := Feed(bundles, k + 1);
            Feed(bundles, start) == Feeding((sent + [Send(f.value)]) + rest.events, rest.error, k + 1 - start + rest.consumed))
      && (f.Failure? ==>
            Feed(bundles, start) == Feeding(sent + (if f.error == NoSuchElement then [Complete] else []), Some(f.error), k + 1 - start))
  {
    var f := bundles[k];
    if f.Success? {
      var rest := Feed(bundles, k + 1);
      Associative(sent, [Send(f.value)], rest.events);
    }
  }

  lemma Associative<T>(a: seq<T>, b: seq<T>, c: seq<T>)
    ensures (a + b) + c == a + (b + c)
  {
  }

  // ------------------------------------------------------------ the class

  class TutorTree {
    const input: TreeInput
    /** The root of the tree store the mapper built. */
    const root: StoreNode
    /** The view step grows. */
    var treeArray: seq<ViewNode>
    /** Whether the innermost step that ran last appended an entry. */
    var inserted: bool
    /** What the mapper has been sent. */
    var events: seq<Event>

    ghost predicate Valid()
      reads this, input
    {
      input.cursor <= |input.values|
    }

    constructor Init(input: TreeInput, root: StoreNode)
      requires input.cursor <= |input.values|
      ensures this.input == input && this.root == root && Valid()
      ensures treeArray == [] && !inserted && events == []
    {
      this.input := input;
      this.root := root;
      treeArray := [];
      inserted := false;
      events := [];
    }

    /**
     * The constructor: reads the input, then feeds every record to the
     * mapper.  The store the mapper builds is `root`.
     */
    static method Create(records: seq<seq<Cell>>, root: StoreNode) returns (r: Result<TutorTree, Error>)
      ensures records == [] ==> r == Failure(IllegalState("header row is missing"))
      ensures records != [] && TrimKeys(records[0]).None? ==> r == Failure(NullPointer)
      ensures records != [] && TrimKeys(records[0]).Some? ==>
        var f := Feed(RecordBundles(TrimKeys(records[0]).value, records[1..]), 0);
        && (f.error.Some? ==> r == Failure(f.error.value))
        && (f.error.None? ==>
              && r.Success? && fresh(r.value) && r.value.root == root
              && r.value.events == f.events && r.value.treeArray == [] && !r.value.inserted)
    {
      var ti := TreeInput.Create(records);
      if ti.Failure? {
        return Failure(ti.error);
      }
      var t := new TutorTree.Init(ti.value, root);
      var o := t.ProcessBundles();
      if o.Fail? {
        return Failure(o.error);
      }
      return Success(t);
    }

    /** processBundles(): fills a bundle per record, key i taking cell i,
      * and sends it; signals the end when the records run out. */
    method ProcessBundles() returns (r: Outcome<Error>)
      requires Valid()
      modifies this`events, input`cursor
      ensures Valid()
      ensures var f := Feed(RecordBundles(input.keys, input.values), old(input.cursor));
        && events == old(events) + f.events
        && r == (if f.error.Some? then Fail(f.error.value) else Pass)
        && input.cursor == old(input.cursor) + f.consumed
    {
      ghost var start := input.cursor;
      ghost var bundles := RecordBundles(input.keys, input.values);
      ghost var sent: seq<Event> := [];
      r := Pass;
      var more := input.HasNextBundle();
      while more && r.Pass?
        invariant start <= input.cursor <= |input.values|
        invariant r.Pass? ==> (more <==> input.cursor < |input.values|)
        invariant r.Pass? ==> events == old(events) + sent
        invariant r.Pass? ==> var rest := Feed(bundles, input.cursor);
          Feed(bundles, start) == Feeding(sent + rest.events, rest.error, input.cursor - start + rest.consumed)
        invariant r.Fail? ==> var f := Feed(bundles, start);
          events == old(events) + f.events && f.error == Some(r.error) && input.cursor == start + f.consumed
        decreases |input.values| - input.cursor
      {
        ghost var f := bundles[input.cursor];
        FeedAdvance(bundles, start, input.cursor, sent);
        r := SendNext();
        if r.Fail? {
          Associative(old(events), sent, if f.error == NoSuchElement then [Complete] else []);
        } else {
          Associative(old(events), sent, [Send(f.value)]);
          sent := sent + [Send(f.value)];
          more := input.HasNextBundle();
        }
      }
      if r.Pass? {
        Associative(old(events), sent, [Complete]);
        events := events + [Complete];
      }
    }

    /**
     * The body of the loop of processBundles: takes the next record's
     * bundle, binds key i to cell i, and sends the bundle; a record too short
     * for the keys signals the end to the mapper and throws.
     */
    method SendNext() returns (r: Outcome<Error>)
      requires input.cursor < |input.values|
      modifies this`events, input`cursor
      ensures input.cursor == old(input.cursor) + 1
      ensures var f := RecordBundle(input.keys, input.values[old(input.cursor)]);
        && (f.Success? ==> r == Pass && events == old(events) + [Send(f.value)])
        && (f.Failure? ==>
              r == Fail(f.error) && events == old(events) + (if f.error == NoSuchElement then [Complete] else []))
    {
      var b := input.GetNextBundle();
      var bundle := b.value;
      var o := BindKeys(bundle);
      if o.Fail? {
        return o;
      }
      var filled := bundle.ToListBundle();
      events := events + [Send(filled.entries)];
      return Pass;
    }

    /** build(): the view of the whole store, kept as the array step grows. */
    method Build() returns (r: seq<ViewNode>)
      modifies this`treeArray
      ensures treeArray == BuildView(root) && r == treeArray
    {
      treeArray := BuildView(root);
      r := treeArray;
    }

    /** step(): one step of the kept view against the whole store. */
    method Step() returns (r: seq<ViewNode>)
      modifies this`treeArray, this`inserted
      ensures var s := StepView(old(treeArray), root, 0);
        treeArray == s.arr && inserted == s.inserted && r == Returned(old(treeArray), root, 0)
    {
      var arr, pos;
      r, arr, pos := StepFrom(treeArray, root, 0);
      treeArray := arr;
    }

    /**
     * step(jArray, iterator): `arr` is jArray as it was passed, `arrOut`
     * what the call leaves in it, `posOut` how far it moved the iterator,
     * and `r` what it returns.
     */
    method StepFrom(arr: seq<ViewNode>, parent: StoreNode, pos: nat) returns (r: seq<ViewNode>, arrOut: seq<ViewNode>, posOut: nat)
      modifies this`inserted
      ensures var s := StepView(arr, parent, pos);
        arrOut == s.arr && posOut == s.pos && inserted == s.inserted && r == Returned(arr, parent, pos)
      decreases parent, 1
    {
      var children := parent.children;
      inserted := false;
      if pos >= |children| {
        return [], arr, pos;
      }
      var jArray := arr;
      var it: nat := pos;
      while it < |children| && !inserted
        invariant pos <= it <= |children|
        invariant WhileFrom(parent, StepState(arr, pos, false)) == WhileFrom(parent, StepState(jArray, it, inserted))
        decreases |children| - it
      {
        ghost var w := StepState(jArray, it, inserted);
        var cur: nat, np: nat;
        jArray, cur, it, np := ForEntries(parent, jArray, it, it + 1);
        // the for loop has run to the array's end: only `inserted` and the last entry decide
        var next := children[cur];
        if !inserted && !LastMatches(jArray, next) {
          jArray := jArray + [NewEntry(next, np)];
          inserted := true;
        }
        assert StepState(jArray, it, inserted) == Iter(parent, w);
      }
      return jArray, jArray, it;
    }

    /**
     * The for loop of step over the whole array, `next` being child cur0
     * and the iterator having yielded pos0 children: each entry standing for
     * `next` has its children stepped, after which `next` moves on.
     */
    method ForEntries(parent: StoreNode, arr: seq<ViewNode>, cur0: nat, pos0: nat)
      returns (jArray: seq<ViewNode>, cur: nat, it: nat, np: nat)
      requires cur0 < pos0 <= |parent.children|
      modifies this`inserted
      ensures Cursor(jArray, cur, it, np, inserted) == ForFrom(parent, Cursor(arr, cur0, pos0, 0, old(inserted)), 0)
      decreases parent, 0
    {
      var children := parent.children;
      jArray, cur, it, np := arr, cur0, pos0, 0;
      ghost var c0 := Cursor(arr, cur0, pos0, 0, inserted);
      var n := |jArray|;
      for i := 0 to n
        invariant |jArray| == n
        invariant cur < it <= |children|
        invariant ForFrom(parent, c0, 0) == ForFrom(parent, Cursor(jArray, cur, it, np, inserted), i)
      {
        ghost var c := Cursor(jArray, cur, it, np, inserted);
        if Matches(jArray[i].title, children[cur]) {
          var _, sub, subPos := StepFrom(jArray[i].children, children[cur], np);
          jArray := jArray[i := jArray[i].(children := sub)];
          if it < |children| {
            cur := it;
            it := it + 1;
            np := 0;
          } else {
            np := subPos;
          }
        }
        assert Cursor(jArray, cur, it, np, inserted) == ForStep(parent, c, i);
      }
    }

    /** The key loop of processBundles on a fresh bundle: key i takes cell
      * i; a record too short for the keys signals the end and throws. */
    method BindKeys(bundle: TreeBundle) returns (r: Outcome<Error>)
      requires bundle.cursor == 0 && bundle.bundle.entries == map[]
      modifies this`events, bundle`cursor, bundle.bundle`entries
      ensures var f := RecordBundle(input.keys, bundle.values);
        && (f.Success? ==> r == Pass && events == old(events) && bundle.bundle.entries == f.value)
        && (f.Failure? ==>
              r == Fail(f.error) && events == old(events) + (if f.error == NoSuchElement then [Complete] else []))
    {
      ghost var cells := RecordValues(bundle.values);
      var n := input.NumKeys();
      var keyIndex := 0;
      r := Pass;
      while keyIndex < n && r.Pass?
        invariant n == |input.keys| && keyIndex <= n
        invariant r.Pass? ==> events == old(events) && bundle.cursor == keyIndex
        invariant r.Pass? ==> Fill(input.keys, cells, keyIndex) == Success(bundle.bundle.entries)
        invariant r.Fail? ==> 0 < keyIndex && Fill(input.keys, cells, keyIndex) == Failure(r.error)
        invariant r.Fail? ==> events == old(events) + (if r.error == NoSuchElement then [Complete] else [])
        decreases n - keyIndex
      {
        r := BindKey(bundle, keyIndex);
        keyIndex := keyIndex + 1;
      }
      if r.Fail? {
        FillFailurePersists(input.keys, cells, keyIndex, n);
      }
    }

    /** One iteration of the key loop: key k takes the next cell, or the
      * record has run out (the end is signalled) or the cell is null. */
    method BindKey(bundle: TreeBundle, k: nat) returns (r: Outcome<Error>)
      requires k < |input.keys| && bundle.cursor == k
      requires Fill(input.keys, RecordValues(bundle.values), k) == Success(bundle.bundle.entries)
      modifies this`events, bundle`cursor, bundle.bundle`entries
      ensures var f := Fill(input.keys, RecordValues(bundle.values), k + 1);
        && (f.Success? ==> r == Pass && events == old(events) && bundle.cursor == k + 1 && bundle.bundle.entries == f.value)
        && (f.Failure? ==>
              r == Fail(f.error) && events == old(events) + (if f.error == NoSuchElement then [Complete] else []))
    {
      FillNext(input.keys, bundle.values, k);
      var has := bundle.HasNext();
      if !has {
        events := events + [Complete];
        return Fail(NoSuchElement);
      }
      var key := input.GetKey(k);
      r := bundle.SetValue(key.value);
    }

    /** find(path): the node the path leads to from the root, null when a
      * segment names no child, NullPointer when descending from null. */
    method Find(path: Option<string>) returns (r: Result<Option<StoreNode>, Error>)
      ensures path.None? ==> r == Success(Some(root))
      ensures path.Some? ==> r == Descend(Some(root), Segments(path.value))
    {
      var node: Option<StoreNode> := Some(root);
      var p := path;
      while p.Some?
        invariant path.None? ==> p.None? && node == Some(root)
        invariant path.Some? ==>
          Descend(Some(root), Segments(path.value)) == (if p.Some? then Descend(node, Segments(p.value)) else Success(node))
        decreases if p.Some? then |p.value| + 1 else 0
      {
        var s := p.value;
        var name: string;
        var i := IndexOf(s, '/');
        if i > 0 {
          name := s[..i];
          p := Some(s[i + 1..]);
        } else {
          name := s;
          p := None;
        }
        if node.None? {
          return Failure(NullPointer);
        }
        node := ChildNamed(node.value.children, name);
      }
      return Success(node);
    }
  }
}
