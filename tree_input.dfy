/**
 * The tree-view tutor's input: the CSV records read eagerly, a header of
 * trimmed keys, a cursor over the data records, and per record a cursor
 * over its cells that binds keys to trimmed cell texts in a key-value
 * bundle.
 *
 * The CSV reader is represented by the records it delivers, a missing cell
 * being null.
 */
module TreeTutorInput {
  import opened Wrappers
  import opened Errors
  import opened JavaStrings
  import opened Values

  type Cell = Option<string>

  /** A key-value bundle: setValue binds a key, replacing an earlier binding. */
  class KVBundle {
    var entries: map<string, Value>

    constructor ()
      ensures entries == map[]
    {
      entries := map[];
    }

    method SetValue(key: string, v: Value)
      modifies this`entries
      ensures entries == old(entries)[key := v]
    {
      entries := entries[key := v];
    }
  }

  /** The header after trimming every key in place, or nothing when a key
    * is null (trim throws). */
  function TrimKeys(header: seq<Cell>): (r: Option<seq<string>>)
    ensures r.Some? <==> forall i :: 0 <= i < |header| ==> header[i].Some?
    ensures r.Some? ==> |r.value| == |header| && forall i :: 0 <= i < |header| ==> r.value[i] == Trim(header[i].value)
  {
    if forall i :: 0 <= i < |header| ==> header[i].Some? then
      Some(seq(|header|, i requires 0 <= i < |header| => Trim(header[i].value)))
    else None
  }

  /** The value getNextValue and setValue make of a cell: its trimmed text
    * as a string, or nothing for a null cell (trim throws). */
  function CellValue(c: Cell): (r: Option<Value>)
    ensures r.Some? <==> c.Some?
    ensures r.Some? ==> r.value.Str? && r.value.s == Trim(c.value)
  {
    if c.Some? then Some(Str(Trim(c.value))) else None
  }

  /** A record's cells as values. */
  function RecordValues(row: seq<Cell>): (r: seq<Option<Value>>)
    ensures |r| == |row| && forall i :: 0 <= i < |row| ==> r[i] == CellValue(row[i])
  {
    seq(|row|, i requires 0 <= i < |row| => CellValue(row[i]))
  }

  /** What the key loop of processBundles makes of one record, given its
    * cells as values: keys[..k] bound in order to them; a missing cell ends
    * it with NoSuchElement, a null cell with NullPointer. */
  function Fill(keys: seq<string>, row: seq<Option<Value>>, k: nat): (r: Result<map<string, Value>, Error>)
    requires k <= |keys|
    ensures r.Failure? ==> r.error == NoSuchElement || r.error == NullPointer
    ensures r.Success? ==> k <= |row| && |r.value| <= k
  {
    if k == 0 then Success(map[])
    else
      var before := Fill(keys, row, k - 1);
      if before.Failure? then before
      else if k - 1 >= |row| then Failure(NoSuchElement)
      else if row[k - 1].None? then Failure(NullPointer)
      else Success(before.value[keys[k - 1] := row[k - 1].value])
  }

  /** One more key bound from a record's cells. */
  lemma FillNext(keys: seq<string>, row: seq<Cell>, k: nat)
    requires k < |keys| && Fill(keys, RecordValues(row), k).Success?
    ensures k >= |row| ==> Fill(keys, RecordValues(row), k + 1) == Failure(NoSuchElement)
    ensures k < |row| && row[k].None? ==> Fill(keys, RecordValues(row), k + 1) == Failure(NullPointer)
    ensures k < |row| && row[k].Some? ==>
      Fill(keys, RecordValues(row), k + 1) == Success(Fill(keys, RecordValues(row), k).value[keys[k] := CellValue(row[k]).value])
  {
  }

  lemma {:induction false} FillFailurePersists(keys: seq<string>, row: seq<Option<Value>>, k: nat, j: nat)
    requires k <= j <= |keys| && Fill(keys, row, k).Failure?
    ensures Fill(keys, row, j) == Fill(keys, row, k)
    decreases j - k
  {
    if k < j {
      FillFailurePersists(keys, row, k, j - 1);
    }
  }

  /** One key further on a filled prefix. */
  lemma FillStep(keys: seq<string>, row: seq<Option<Value>>, k: nat)
    requires 0 < k <= |keys| && Fill(keys, row, k).Success?
    ensures Fill(keys, row, k - 1).Success? && k - 1 < |row| && row[k - 1].Some?
    ensures Fill(keys, row, k).value == Fill(keys, row, k - 1).value[keys[k - 1] := row[k - 1].value]
  {
  }

  lemma {:induction false} FillSucceeds(keys: seq<string>, row: seq<Option<Value>>, k: nat)
    requires k <= |keys|
    ensures Fill(keys, row, k).Success? <==> k <= |row| && forall i :: 0 <= i < k ==> row[i].Some?
    decreases k
  {
    if k > 0 {
      FillSucceeds(keys, row, k - 1);
    }
  }

  lemma {:induction false} FillErrors(keys: seq<string>, row: seq<Option<Value>>, k: nat)
    requires k <= |keys|
    ensures Fill(keys, row, k) == Failure(NoSuchElement) <==>
      k > |row| && forall i :: 0 <= i < |row| ==> row[i].Some?
    ensures Fill(keys, row, k).Failure? ==> Fill(keys, row, k).error in {NoSuchElement, NullPointer}
    decreases k
  {
    if k > 0 {
      FillErrors(keys, row, k - 1);
      FillSucceeds(keys, row, k - 1);
    }
  }

  lemma {:induction false} FillDomain(keys: seq<string>, row: seq<Option<Value>>, k: nat)
    requires k <= |keys| && Fill(keys, row, k).Success?
    ensures forall key :: key in Fill(keys, row, k).value <==> key in keys[..k]
    decreases k
  {
    if k > 0 {
      FillStep(keys, row, k);
      FillDomain(keys, row, k - 1);
      assert forall x :: x in keys[..k] <==> x in keys[..k - 1] || x == keys[k - 1];
    }
  }

  /** Last(keys, i, k): no key after position i and before k repeats keys[i]. */
  predicate Last(keys: seq<string>, i: nat, k: nat)
    requires i < k <= |keys|
  {
    forall j :: i < j < k ==> keys[j] != keys[i]
  }

  lemma {:induction false} FillValues(keys: seq<string>, row: seq<Option<Value>>, k: nat)
    requires k <= |keys| && Fill(keys, row, k).Success?
    ensures forall i :: 0 <= i < k && Last(keys, i, k) ==>
      i < |row| && row[i].Some? && keys[i] in Fill(keys, row, k).value &&
      Fill(keys, row, k).value[keys[i]] == row[i].value
    decreases k
  {
    if k > 0 {
      FillStep(keys, row, k);
      FillValues(keys, row, k - 1);
      var m := Fill(keys, row, k).value;
      forall i | 0 <= i < k && Last(keys, i, k)
        ensures i < |row| && row[i].Some? && keys[i] in m && m[keys[i]] == row[i].value
      {
        if i < k - 1 {
          assert Last(keys, i, k - 1);
          assert keys[k - 1] != keys[i];
        }
      }
    }
  }

  /**
   * A record fills the bundle exactly when it has a non-null cell under
   * every key; it is cut short (NoSuchElement) exactly when it has fewer
   * cells than keys and all it has are non-null, and otherwise fails on a
   * null cell (NullPointer); a filled bundle binds exactly the keys, each
   * to the trimmed cell under its last occurrence.
   */
  lemma FillMeaning(keys: seq<string>, row: seq<Option<Value>>)
    ensures Fill(keys, row, |keys|).Success? <==> |keys| <= |row| && forall i :: 0 <= i < |keys| ==> row[i].Some?
    ensures Fill(keys, row, |keys|) == Failure(NoSuchElement) <==>
      |keys| > |row| && forall i :: 0 <= i < |row| ==> row[i].Some?
    ensures Fill(keys, row, |keys|).Failure? ==> Fill(keys, row, |keys|).error in {NoSuchElement, NullPointer}
    ensures Fill(keys, row, |keys|).Success? ==>
      && (forall key :: key in Fill(keys, row, |keys|).value <==> key in keys)
      && (forall i :: 0 <= i < |keys| && Last(keys, i, |keys|) ==>
            Fill(keys, row, |keys|).value[keys[i]] == row[i].value)
  {
    var k := |keys|;
    assert keys[..k] == keys;
    FillSucceeds(keys, row, k);
    FillErrors(keys, row, k);
    if Fill(keys, row, k).Success? {
      FillDomain(keys, row, k);
      FillValues(keys, row, k);
    }
  }

  class TreeInput {
    const keys: seq<string>
    const values: seq<seq<Cell>>
    /** The shared iterator over the records. */
    var cursor: nat

    constructor Init(keys: seq<string>, values: seq<seq<Cell>>)
      ensures this.keys == keys && this.values == values && cursor == 0
    {
      this.keys := keys;
      this.values := values;
      cursor := 0;
    }

    /** The constructor: reads the header, then every further record into a
      * list, then trims the keys in place. */
    static method Create(records: seq<seq<Cell>>) returns (r: Result<TreeInput, Error>)
      ensures records == [] ==> r == Failure(IllegalState("header row is missing"))
      ensures records != [] && TrimKeys(records[0]).None? ==> r == Failure(NullPointer)
      ensures records != [] && TrimKeys(records[0]).Some? ==>
        && r.Success? && fresh(r.value)
        && r.value.keys == TrimKeys(records[0]).value
        && r.value.values == records[1..] && r.value.cursor == 0
    {
      if records == [] {
        return Failure(IllegalState("header row is missing"));
      }
      var header := records[0];
      var accumulate: seq<seq<Cell>> := [];
      var k := 1;
      while k < |records|
        invariant 1 <= k <= |records|
        invariant accumulate == records[1..k]
      {
        accumulate := accumulate + [records[k]];
        k := k + 1;
      }
      var keys := header;
      var i := 0;
      while i < |keys|
        invariant 0 <= i <= |keys| == |header|
        invariant forall j :: 0 <= j < i ==> header[j].Some? && keys[j] == Some(Trim(header[j].value))
        invariant keys[i..] == header[i..]
      {
        if keys[i].None? {
          return Failure(NullPointer);
        }
        keys := keys[i := Some(Trim(keys[i].value))];
        i := i + 1;
      }
      var trimmed := seq(|keys|, j requires 0 <= j < |keys| => keys[j].value);
      var t := new TreeInput.Init(trimmed, accumulate);
      return Success(t);
    }

    method HasNextBundle() returns (b: bool)
      ensures b <==> cursor < |values|
    {
      b := cursor < |values|;
    }

    /** getNextBundle(): a fresh bundle over the next record. */
    method GetNextBundle() returns (r: Result<TreeBundle, Error>)
      modifies this`cursor
      ensures old(cursor) >= |values| ==> r == Failure(NoSuchElement) && cursor == old(cursor)
      ensures old(cursor) < |values| ==>
        && r.Success? && fresh(r.value) && fresh(r.value.bundle)
        && r.value.values == values[old(cursor)] && r.value.cursor == 0
        && r.value.bundle.entries == map[]
        && cursor == old(cursor) + 1
    {
      if cursor >= |values| {
        return Failure(NoSuchElement);
      }
      var b := new TreeBundle(values[cursor]);
      cursor := cursor + 1;
      return Success(b);
    }

    method GetKey(i: int) returns (r: Result<string, Error>)
      ensures 0 <= i < |keys| ==> r == Success(keys[i])
      ensures !(0 <= i < |keys|) ==> r == Failure(IndexOutOfBounds(i, |keys|))
    {
      if 0 <= i < |keys| {
        r := Success(keys[i]);
      } else {
        r := Failure(IndexOutOfBounds(i, |keys|));
      }
    }

    method NumKeys() returns (n: nat)
      ensures n == |keys|
    {
      n := |keys|;
    }
  }

  class TreeBundle {
    const bundle: KVBundle
    const values: seq<Cell>
    /** The array iterator over the record's cells. */
    var cursor: nat

    constructor (values: seq<Cell>)
      ensures this.values == values && cursor == 0
      ensures fresh(bundle) && bundle.entries == map[]
    {
      this.values := values;
      cursor := 0;
      bundle := new KVBundle();
    }

    method HasNext() returns (b: bool)
      ensures b <==> cursor < |values|
    {
      b := cursor < |values|;
    }

    /** getNextValue(): the next cell trimmed; the cursor moves past a null
      * cell before trim fails on it. */
    method GetNextValue() returns (r: Result<string, Error>)
      modifies this`cursor
      ensures old(cursor) >= |values| ==> r == Failure(NoSuchElement) && cursor == old(cursor)
      ensures old(cursor) < |values| ==> cursor == old(cursor) + 1
      ensures old(cursor) < |values| && values[old(cursor)].None? ==> r == Failure(NullPointer)
      ensures old(cursor) < |values| && values[old(cursor)].Some? ==> r == Success(Trim(values[old(cursor)].value))
    {
      if cursor >= |values| {
        return Failure(NoSuchElement);
      }
      var cell := values[cursor];
      cursor := cursor + 1;
      if cell.None? {
        return Failure(NullPointer);
      }
      return Success(Trim(cell.value));
    }

    /** setValue(key): consumes one cell and binds the key to its trimmed
      * text as a string value (CellValue). */
    method SetValue(key: string) returns (r: Outcome<Error>)
      modifies this`cursor, bundle`entries
      ensures old(cursor) >= |values| ==>
        r == Fail(NoSuchElement) && cursor == old(cursor) && bundle.entries == old(bundle.entries)
      ensures old(cursor) < |values| ==> cursor == old(cursor) + 1
      ensures old(cursor) < |values| && values[old(cursor)].None? ==>
        r == Fail(NullPointer) && bundle.entries == old(bundle.entries)
      ensures old(cursor) < |values| && values[old(cursor)].Some? ==>
        r == Pass && bundle.entries == old(bundle.entries)[key := CellValue(values[old(cursor)]).value]
    {
      var v := GetNextValue();
      if v.Failure? {
        return Fail(v.error);
      }
      bundle.SetValue(key, Str(v.value));
      return Pass;
    }

    /** toListBundle(): the bundle setValue fills, not a copy. */
    method ToListBundle() returns (b: KVBundle)
      ensures b == bundle
    {
      b := bundle;
    }
  }
}
