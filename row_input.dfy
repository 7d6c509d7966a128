/**
 * The tree tutor's row source (the iterator of bundles over CSV text): a
 * header row names the fields, and every later row becomes a bundle whose
 * i-th field holds the i-th value of the row, decoded as a value literal.
 *
 * The CSV reader is represented by the records it delivers, a missing cell
 * being null.
 */
module TreeRows {
  import opened Wrappers
  import opened Errors
  import opened JavaStrings
  import opened Values
  import opened BundleFields
  import opened BundleFormat

  type Cell = Option<string>

  /** A bundle as the fields it binds. */
  type Bundle = map<Field, Value>

  /** List.toString of a record: its cells between brackets, separated by
    * ", ", a null cell printed as `null`. */
  function RecordText(row: seq<Cell>): string {
    "[" + Join(CellTexts(row), ", ") + "]"
  }

  function CellTexts(row: seq<Cell>): (r: seq<string>)
    ensures |r| == |row|
  {
    seq(|row|, i requires 0 <= i < |row| => if row[i].Some? then row[i].value else "null")
  }

  /** The short-row message: the reader's record number, the two counts and the record. */
  function ShortRow(rowNumber: nat, size: nat, fieldCount: nat, row: seq<Cell>): string {
    "row at " + NatToString(rowNumber) + " had " + NatToString(size) + " < "
      + NatToString(fieldCount) + " values; was " + RecordText(row)
  }

  /** Throwable.toString of a checked exception: its class name, ": ", and
    * its message. */
  function CheckedText(e: Error): (r: string)
    requires !IsRuntime(e)
    ensures e.IO? ==> r == "java.io.IOException: " + e.message
    ensures e.JsonParse? ==> r == "com.addthis.maljson.JSONException: " + e.input
  {
    match e
    case IO(m) => "java.io.IOException: " + m
    case JsonParse(t) => "com.addthis.maljson.JSONException: " + t
  }

  /** Throwables.propagate: a checked exception is rethrown wrapped in a
    * RuntimeException, whose message is the cause's toString; a runtime
    * exception is rethrown as it is. */
  function Propagate(e: Error): (r: Error)
    ensures IsRuntime(r)
    ensures IsRuntime(e) ==> r == e
    ensures !IsRuntime(e) ==> r == Error.Runtime(CheckedText(e))
  {
    if IsRuntime(e) then e else Error.Runtime(CheckedText(e))
  }

  /** The wrapped message names the cause's class before the cause's own message. */
  lemma PropagateNamesCause(m: string)
    ensures Propagate(IO(m)).message == "java.io.IOException: " + m
    ensures Propagate(IO(m)) != IO(m) && Propagate(IO(m)) != Error.Runtime(m)
  {
    var r := Propagate(IO(m));
    assert |r.message| == |m| + 21;
  }

  /** One cell decoded by JSONBundles.parseValue, its IOException propagated. */
  function DecodeCell(rt: Runtime, cell: Cell): Result<Value, Error> {
    var v := DecodeValue(rt, cell);
    if v.Failure? then Failure(Propagate(v.error)) else v
  }

  /** The bundle of one record: field i bound to cell i in header order, the
    * first cell that does not decode being the error. */
  function Bind(rt: Runtime, keys: seq<Cell>, row: seq<Cell>): (r: Result<Bundle, Error>)
    requires |keys| <= |row|
    ensures r.Failure? ==> IsRuntime(r.error)
    ensures r.Success? ==> |r.value| <= |keys|
  {
    if keys == [] then Success(map[])
    else
      var b := Bind(rt, keys[..|keys| - 1], row);
      if b.Failure? then b
      else
        var v := DecodeCell(rt, row[|keys| - 1]);
        if v.Failure? then Failure(v.error) else Success(b.value[Field(keys[|keys| - 1]) := v.value])
  }

  /** computeNext(): the end of the data, the short-row error, or the bundle
    * of record k (record k is the reader's row k + 2, the header being row 1). */
  function NextRecord(rt: Runtime, keys: seq<Cell>, rows: seq<seq<Cell>>, k: nat): (r: Result<Option<Bundle>, Error>)
    ensures r == Success(None) <==> k >= |rows|
    ensures k < |rows| && |rows[k]| < |keys| ==> r.Failure? && r.error.IllegalArgument?
    ensures k < |rows| && |rows[k]| >= |keys| && r.Failure? ==> IsRuntime(r.error)
  {
    if k >= |rows| then Success(None)
    else if |rows[k]| < |keys| then
      Failure(IllegalArgument(ShortRow(k + 2, |rows[k]|, |keys|, rows[k])))
    else
      var b := Bind(rt, keys, rows[k]);
      if b.Failure? then Failure(b.error) else Success(Some(b.value))
  }

  lemma {:induction false} BindFailurePersists(rt: Runtime, keys: seq<Cell>, row: seq<Cell>, k: nat)
    requires |keys| <= |row| && k <= |keys| && Bind(rt, keys[..k], row).Failure?
    ensures Bind(rt, keys, row) == Bind(rt, keys[..k], row)
    decreases |keys| - k
  {
    if k < |keys| {
      assert keys[..k + 1][..k] == keys[..k];
      BindFailurePersists(rt, keys, row, k + 1);
    } else {
      assert keys[..k] == keys;
    }
  }

  /** One more cell: its field is bound, or its error is the record's, and
    * the format has seen the header up to that cell. */
  lemma BindNext(rt: Runtime, keys: seq<Cell>, row: seq<Cell>, i: nat, bundle: Bundle)
    requires i < |keys| <= |row| && Bind(rt, keys[..i], row) == Success(bundle)
    ensures keys[..i + 1][..i] == keys[..i]
    ensures forall reg :: RequestAll(reg, keys[..i + 1]) == Request(RequestAll(reg, keys[..i]), keys[i])
    ensures DecodeCell(rt, row[i]).Success? ==>
      Bind(rt, keys[..i + 1], row) == Success(bundle[Field(keys[i]) := DecodeCell(rt, row[i]).value])
    ensures DecodeCell(rt, row[i]).Failure? ==> Bind(rt, keys, row) == Failure(DecodeCell(rt, row[i]).error)
  {
    assert keys[..i + 1][..i] == keys[..i];
    if DecodeCell(rt, row[i]).Failure? {
      BindFailurePersists(rt, keys, row, i + 1);
    }
  }

  lemma {:induction false} BindSucceeds(rt: Runtime, keys: seq<Cell>, row: seq<Cell>)
    requires |keys| <= |row|
    ensures Bind(rt, keys, row).Success? <==> forall i :: 0 <= i < |keys| ==> DecodeCell(rt, row[i]).Success?
    decreases |keys|
  {
    if keys != [] {
      BindSucceeds(rt, keys[..|keys| - 1], row);
    }
  }

  lemma {:induction false} BindDomain(rt: Runtime, keys: seq<Cell>, row: seq<Cell>)
    requires |keys| <= |row| && Bind(rt, keys, row).Success?
    ensures forall f :: f in Bind(rt, keys, row).value <==> f.name in keys
    decreases |keys|
  {
    if keys != [] {
      var n := |keys| - 1;
      BindDomain(rt, keys[..n], row);
      assert forall x :: x in keys <==> x in keys[..n] || x == keys[n];
    }
  }

  lemma {:induction false} BindValues(rt: Runtime, keys: seq<Cell>, row: seq<Cell>)
    requires |keys| <= |row| && Bind(rt, keys, row).Success?
    ensures forall i :: 0 <= i < |keys| && keys[i] !in keys[i + 1..] ==>
      Field(keys[i]) in Bind(rt, keys, row).value && DecodeCell(rt, row[i]).Success? &&
      Bind(rt, keys, row).value[Field(keys[i])] == DecodeCell(rt, row[i]).value
    decreases |keys|
  {
    BindSucceeds(rt, keys, row);
    if keys != [] {
      var n := |keys| - 1;
      var init := keys[..n];
      BindValues(rt, init, row);
      forall i | 0 <= i < |keys| && keys[i] !in keys[i + 1..]
        ensures Field(keys[i]) in Bind(rt, keys, row).value && DecodeCell(rt, row[i]).Success?
        ensures Bind(rt, keys, row).value[Field(keys[i])] == DecodeCell(rt, row[i]).value
      {
        if i < n {
          assert init[i] == keys[i];
          assert keys[i + 1..] == init[i + 1..] + [keys[n]];
        }
      }
    }
  }

  /**
   * What a record's bundle holds: it exists exactly when every cell under a
   * header decodes; it binds exactly the header's fields; the field of a
   * header name holds the cell under the name's last occurrence.
   */
  lemma BindMeaning(rt: Runtime, keys: seq<Cell>, row: seq<Cell>)
    requires |keys| <= |row|
    ensures Bind(rt, keys, row).Success? <==> forall i :: 0 <= i < |keys| ==> DecodeCell(rt, row[i]).Success?
    ensures Bind(rt, keys, row).Success? ==>
      && (forall f :: f in Bind(rt, keys, row).value <==> f.name in keys)
      && (forall i :: 0 <= i < |keys| && keys[i] !in keys[i + 1..] ==>
            Bind(rt, keys, row).value[Field(keys[i])] == DecodeCell(rt, row[i]).value)
  {
    BindSucceeds(rt, keys, row);
    if Bind(rt, keys, row).Success? {
      BindDomain(rt, keys, row);
      BindValues(rt, keys, row);
    }
  }

  /** Cells beyond the header are ignored. */
  lemma {:induction false} BindIgnoresExtra(rt: Runtime, keys: seq<Cell>, row: seq<Cell>, extra: seq<Cell>)
    requires |keys| <= |row|
    ensures Bind(rt, keys, row + extra) == Bind(rt, keys, row)
    decreases |keys|
  {
    if keys != [] {
      BindIgnoresExtra(rt, keys[..|keys| - 1], row, extra);
      assert (row + extra)[|keys| - 1] == row[|keys| - 1];
    }
  }

  /** The short-row message reports, among others, the record number first. */
  lemma ShortRowStartsWithNumber(k: nat, size: nat, count: nat, row: seq<Cell>)
    ensures var m := ShortRow(k, size, count, row);
      var n := NatToString(k);
      |m| >= 7 + |n| && m[..7] == "row at " && m[7..7 + |n|] == n
  {
  }

  class TreeInput {
    const format: JSONBundleFormat
    const rt: Runtime
    /** The header record. */
    const keys: seq<Cell>
    /** The records after the header, in reading order. */
    const rows: seq<seq<Cell>>
    /** How many of them the reader has delivered. */
    var next: nat

    ghost predicate Valid()
      reads this, format
    {
      format.Valid() && next <= |rows|
    }

    constructor Init(format: JSONBundleFormat, rt: Runtime, keys: seq<Cell>, rows: seq<seq<Cell>>)
      ensures this.format == format && this.rt == rt && this.keys == keys && this.rows == rows
      ensures next == 0
    {
      this.format := format;
      this.rt := rt;
      this.keys := keys;
      this.rows := rows;
      next := 0;
    }

    /** The constructor: the format must have no fields yet, and the first
      * record is the header. */
    static method Create(records: seq<seq<Cell>>, format: JSONBundleFormat, rt: Runtime)
      returns (r: Result<TreeInput, Error>)
      requires format.Valid()
      ensures |format.fields| != 0 ==> r == Failure(IllegalArgument(""))
      ensures |format.fields| == 0 && records == [] ==> r == Failure(IllegalArgument("header row is missing"))
      ensures |format.fields| == 0 && records != [] ==>
        && r.Success? && fresh(r.value) && r.value.Valid()
        && r.value.format == format && r.value.rt == rt
        && r.value.keys == records[0] && r.value.rows == records[1..] && r.value.next == 0
    {
      if |format.fields| != 0 {
        return Failure(IllegalArgument(""));
      }
      if records == [] {
        return Failure(IllegalArgument("header row is missing"));
      }
      var t := new TreeInput.Init(format, rt, records[0], records[1..]);
      return Success(t);
    }

    /** computeNext(): reads one record and binds its cells to the header's
      * fields, asking the format for each field in header order. */
    method ComputeNext() returns (r: Result<Option<Bundle>, Error>)
      requires Valid()
      modifies this`next, format`fields, format`fieldList, format`modCount
      ensures Valid()
      ensures r == NextRecord(rt, keys, rows, old(next))
      ensures next == if old(next) < |rows| then old(next) + 1 else old(next)
      ensures r.Success? && r.value.Some? ==> format.Snapshot() == RequestAll(old(format.Snapshot()), keys)
    {
      if next >= |rows| {
        return Success(None);
      }
      var k := next;
      var row := rows[k];
      next := next + 1;
      if |row| < |keys| {
        return Failure(IllegalArgument(ShortRow(k + 2, |row|, |keys|, row)));
      }
      var bundle := BindRow(row);
      if bundle.Failure? {
        return Failure(bundle.error);
      }
      return Success(Some(bundle.value));
    }

    /** The binding loop of computeNext: the format is asked for each
      * header field in turn and the field bound to that cell. */
    method BindRow(row: seq<Cell>) returns (r: Result<Bundle, Error>)
      requires format.Valid() && |keys| <= |row|
      modifies format`fields, format`fieldList, format`modCount
      ensures format.Valid()
      ensures r == Bind(rt, keys, row)
      ensures r.Success? ==> format.Snapshot() == RequestAll(old(format.Snapshot()), keys)
    {
      var bundle: Bundle := map[];
      for i := 0 to |keys|
        invariant format.Valid()
        invariant format.Snapshot() == RequestAll(old(format.Snapshot()), keys[..i])
        invariant Bind(rt, keys[..i], row) == Success(bundle)
      {
        BindNext(rt, keys, row, i, bundle);
        var field := format.GetField(keys[i]);
        var v := DecodeCell(rt, row[i]);
        if v.Failure? {
          return Failure(v.error);
        }
        bundle := bundle[field := v.value];
      }
      assert keys[..|keys|] == keys;
      return Success(bundle);
    }
  }
}
