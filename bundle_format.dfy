/**
 * JSONBundleFormat: a registry of fields kept twice, in a hash map from
 * name to field and in a list in first-request order, and the iterator
 * over that list (java.util.ArrayList's, whose remove edits the list only).
 */
module BundleFormat {
  import opened Wrappers
  import opened Errors
  import opened BundleFields

  /** The registry's two collections as values. */
  datatype Registry = Registry(fields: map<Option<string>, Field>, list: seq<Field>)

  const Empty: Registry := Registry(map[], [])

  /** Every map entry is the field of its own name, and the list holds
    * distinct fields that are all in the map. */
  ghost predicate WellFormed(reg: Registry) {
    && (forall n :: n in reg.fields ==> reg.fields[n] == Field(n))
    && (forall i :: 0 <= i < |reg.list| ==> reg.list[i].name in reg.fields)
    && (forall i, j :: 0 <= i < j < |reg.list| ==> reg.list[i] != reg.list[j])
  }

  /** Additionally the map and the list have the same size, so the list holds
    * every registered field. */
  ghost predicate Synced(reg: Registry) {
    WellFormed(reg) && |reg.fields| == |reg.list|
  }

  /** getField(name) as a change of the registry: a new name is mapped to a
    * new field that is also appended to the list. */
  function Request(reg: Registry, name: Option<string>): (r: Registry)
    ensures name in r.fields && r.fields[name] == (if name in reg.fields then reg.fields[name] else Field(name))
    ensures forall n :: n in reg.fields ==> n in r.fields && r.fields[n] == reg.fields[n]
    ensures forall n :: n in r.fields ==> n in reg.fields || n == name
  {
    if name in reg.fields then reg
    else Registry(reg.fields[name := Field(name)], reg.list + [Field(name)])
  }

  /** The registry after getField for each name in turn. */
  function RequestAll(reg: Registry, names: seq<Option<string>>): Registry {
    if names == [] then reg else Request(RequestAll(reg, names[..|names| - 1]), names[|names| - 1])
  }

  /** The distinct names in the order of their first occurrence. */
  function FirstOccurrences(names: seq<Option<string>>): (r: seq<Option<string>>)
    ensures forall n :: n in r <==> n in names
    ensures forall i, j :: 0 <= i < j < |r| ==> r[i] != r[j]
  {
    if names == [] then []
    else
      var init := FirstOccurrences(names[..|names| - 1]);
      var last := names[|names| - 1];
      assert forall n :: n in names <==> n in names[..|names| - 1] || n == last;
      if last in init then init else init + [last]
  }

  function Names(list: seq<Field>): (r: seq<Option<string>>)
    ensures |r| == |list| && forall i :: 0 <= i < |list| ==> r[i] == list[i].name
  {
    seq(|list|, i requires 0 <= i < |list| => list[i].name)
  }

  lemma NamesAppend(list: seq<Field>, f: Field)
    ensures Names(list + [f]) == Names(list) + [f.name]
  {
    var l := list + [f];
    assert forall i :: 0 <= i < |l| ==> Names(l)[i] == (Names(list) + [f.name])[i];
  }

  /** getField keeps the registry well formed and, unless an iterator removed
    * something, in sync; the count grows by one exactly for a new name. */
  lemma RequestKeeps(reg: Registry, name: Option<string>)
    requires WellFormed(reg)
    ensures WellFormed(Request(reg, name))
    ensures Synced(reg) ==> Synced(Request(reg, name))
    ensures |Request(reg, name).fields| == |reg.fields| + (if name in reg.fields then 0 else 1)
    ensures |Request(reg, name).list| == |reg.list| + (if name in reg.fields then 0 else 1)
  {
    if name !in reg.fields {
      var r := Request(reg, name);
      forall i | 0 <= i < |reg.list|
        ensures reg.list[i] != Field(name)
      {
        assert reg.list[i].name in reg.fields;
      }
    }
  }

  /** Asking twice for the same name is asking once. */
  lemma RequestIdempotent(reg: Registry, name: Option<string>)
    ensures Request(Request(reg, name), name) == Request(reg, name)
  {
  }

  /**
   * After requesting a sequence of names from an empty registry, the list
   * holds the fields of the distinct names in first-request order, the map
   * holds exactly the requested names, and both have the same size.
   */
  lemma {:induction false} RequestAllOrder(names: seq<Option<string>>)
    ensures var reg := RequestAll(Empty, names);
      && Synced(reg)
      && Names(reg.list) == FirstOccurrences(names)
      && (forall n :: n in reg.fields <==> n in names)
  {
    if names != [] {
      var init := names[..|names| - 1];
      var last := names[|names| - 1];
      RequestAllOrder(init);
      var before := RequestAll(Empty, init);
      RequestKeeps(before, last);
      var after := Request(before, last);
      assert forall n :: n in names <==> n in init || n == last;
      if last !in before.fields {
        NamesAppend(before.list, Field(last));
      }
    }
  }

  /** The field count after a sequence of requests is the number of distinct names. */
  lemma CountIsDistinctNames(names: seq<Option<string>>)
    ensures |RequestAll(Empty, names).fields| == |FirstOccurrences(names)|
    ensures |RequestAll(Empty, names).list| == |FirstOccurrences(names)|
  {
    RequestAllOrder(names);
    assert |Names(RequestAll(Empty, names).list)| == |RequestAll(Empty, names).list|;
  }

  /** An iterator's remove deletes from the list only: the name stays
    * registered, the registry is no longer in sync, and a later getField of
    * that name returns the map's field without putting it back in the list. */
  lemma RemoveDesyncs(reg: Registry, i: nat)
    requires Synced(reg) && i < |reg.list|
    ensures var after := reg.(list := reg.list[..i] + reg.list[i + 1..]);
      && WellFormed(after)
      && !Synced(after)
      && reg.list[i].name in after.fields
      && Request(after, reg.list[i].name) == after
  {
    var after := reg.(list := reg.list[..i] + reg.list[i + 1..]);
    var l := after.list;
    assert forall j :: 0 <= j < |l| ==> l[j] == (if j < i then reg.list[j] else reg.list[j + 1]);
  }

  class JSONBundleFormat {
    var fields: map<Option<string>, Field>
    var fieldList: seq<Field>
    /** The list's modification counter, which its iterators compare against. */
    var modCount: nat

    ghost function Snapshot(): Registry
      reads this
    {
      Registry(fields, fieldList)
    }

    ghost predicate Valid()
      reads this
    {
      WellFormed(Snapshot())
    }

    constructor ()
      ensures Valid() && Synced(Snapshot())
      ensures Snapshot() == Empty && modCount == 0
    {
      fields := map[];
      fieldList := [];
      modCount := 0;
    }

    /** getField(name): the registered field of that name, registering a
      * new one at the end of the list the first time. */
    method GetField(name: Option<string>) returns (f: Field)
      requires Valid()
      modifies this`fields, this`fieldList, this`modCount
      ensures Valid()
      ensures f == Field(name)
      ensures Snapshot() == Request(old(Snapshot()), name)
      ensures modCount == old(modCount) + (if name in old(fields) then 0 else 1)
    {
      if name in fields {
        f := fields[name];
      } else {
        f := Field(name);
        fields := fields[name := f];
        fieldList := fieldList + [f];
        modCount := modCount + 1;
      }
      RequestKeeps(old(Snapshot()), name);
    }

    /** hasField(name): the name was registered. */
    method HasField(name: Option<string>) returns (r: bool)
      ensures r <==> name in fields
    {
      r := name in fields;
    }

    /** getField(pos): the list's element, or the list's bounds error. */
    method FieldAt(pos: int) returns (r: Result<Field, Error>)
      ensures 0 <= pos < |fieldList| ==> r == Success(fieldList[pos])
      ensures !(0 <= pos < |fieldList|) ==> r == Failure(IndexOutOfBounds(pos, |fieldList|))
    {
      if 0 <= pos < |fieldList| {
        r := Success(fieldList[pos]);
      } else {
        r := Failure(IndexOutOfBounds(pos, |fieldList|));
      }
    }

    /** getFieldCount(): the size of the map. */
    method GetFieldCount() returns (n: nat)
      ensures n == |fields|
      ensures Synced(Snapshot()) ==> n == |fieldList|
    {
      n := |fields|;
    }

    /** iterator(): a cursor at the start of the list. */
    method Iterator() returns (it: FieldIterator)
      ensures fresh(it) && it.owner == this
      ensures it.cursor == 0 && it.lastRet == -1 && it.expectedModCount == modCount
    {
      it := new FieldIterator(this);
    }

    /** createBundle(): not supported. */
    method CreateBundle() returns (r: Outcome<Error>)
      ensures r == Fail(Unsupported(""))
    {
      r := Fail(Unsupported(""));
    }
  }

  /** The list iterator: the next index to return, the last index returned
    * (-1 when there is none to remove) and the list's counter it expects. */
  class FieldIterator {
    const owner: JSONBundleFormat
    var cursor: nat
    var lastRet: int
    var expectedModCount: nat

    constructor (owner: JSONBundleFormat)
      ensures this.owner == owner && cursor == 0 && lastRet == -1
      ensures expectedModCount == owner.modCount
    {
      this.owner := owner;
      cursor := 0;
      lastRet := -1;
      expectedModCount := owner.modCount;
    }

    method HasNext() returns (b: bool)
      ensures b <==> cursor != |owner.fieldList|
    {
      b := cursor != |owner.fieldList|;
    }

    /** next(): fails when the list was changed behind the iterator's back
      * or is exhausted, and otherwise returns the element at the cursor. */
    method Next() returns (r: Result<Field, Error>)
      modifies this`cursor, this`lastRet
      ensures owner.modCount != expectedModCount ==>
        r == Failure(ConcurrentModification) && cursor == old(cursor) && lastRet == old(lastRet)
      ensures owner.modCount == expectedModCount && old(cursor) >= |owner.fieldList| ==>
        r == Failure(NoSuchElement) && cursor == old(cursor) && lastRet == old(lastRet)
      ensures owner.modCount == expectedModCount && old(cursor) < |owner.fieldList| ==>
        && r == Success(owner.fieldList[old(cursor)])
        && cursor == old(cursor) + 1 && lastRet == old(cursor)
    {
      if owner.modCount != expectedModCount {
        return Failure(ConcurrentModification);
      }
      var i := cursor;
      if i >= |owner.fieldList| {
        return Failure(NoSuchElement);
      }
      cursor := i + 1;
      lastRet := i;
      r := Success(owner.fieldList[i]);
    }

    /** remove(): deletes the last returned element from the list, leaving
      * the map as it was. */
    method Remove() returns (r: Outcome<Error>)
      requires owner.Valid()
      modifies this`cursor, this`lastRet, this`expectedModCount, owner`fieldList, owner`modCount
      ensures owner.Valid()
      ensures owner.fields == old(owner.fields)
      ensures old(lastRet) < 0 ==>
        r == Fail(IllegalState("")) && owner.fieldList == old(owner.fieldList) && owner.modCount == old(owner.modCount)
      ensures old(lastRet) >= 0 && old(owner.modCount) != old(expectedModCount) ==>
        r == Fail(ConcurrentModification) && owner.fieldList == old(owner.fieldList) && owner.modCount == old(owner.modCount)
      ensures old(lastRet) >= 0 && old(owner.modCount) == old(expectedModCount) && old(lastRet) >= |old(owner.fieldList)| ==>
        r == Fail(ConcurrentModification) && owner.fieldList == old(owner.fieldList) && owner.modCount == old(owner.modCount)
      ensures 0 <= old(lastRet) < |old(owner.fieldList)| && old(owner.modCount) == old(expectedModCount) ==>
        && r == Pass
        && owner.fieldList == old(owner.fieldList[..lastRet] + owner.fieldList[lastRet + 1..])
        && owner.modCount == old(owner.modCount) + 1
        && cursor == old(lastRet) && lastRet == -1 && expectedModCount == owner.modCount
    {
      if lastRet < 0 {
        return Fail(IllegalState(""));
      }
      if owner.modCount != expectedModCount {
        return Fail(ConcurrentModification);
      }
      if lastRet >= |owner.fieldList| {
        return Fail(ConcurrentModification);
      }
      var i := lastRet;
      ghost var before := owner.Snapshot();
      owner.fieldList := owner.fieldList[..i] + owner.fieldList[i + 1..];
      owner.modCount := owner.modCount + 1;
      RemoveKeepsWellFormed(before, i);
      cursor := i;
      lastRet := -1;
      expectedModCount := owner.modCount;
      r := Pass;
    }
  }

  lemma RemoveKeepsWellFormed(reg: Registry, i: nat)
    requires WellFormed(reg) && i < |reg.list|
    ensures WellFormed(reg.(list := reg.list[..i] + reg.list[i + 1..]))
  {
    var l := reg.list[..i] + reg.list[i + 1..];
    assert forall j :: 0 <= j < |l| ==> l[j] == (if j < i then reg.list[j] else reg.list[j + 1]);
  }
}
