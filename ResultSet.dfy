/**
 * The result list of a run: one entry per call that succeeded, in call
 * order; and the CSV table the list is written to at the end of the run.
 */
module ResultSet {
  import opened Wrappers

  /**
   * The entries appended by a run whose k-th call produced `attempts[k]`
   * (`None` for a call that appended nothing): the successes, in order.
   */
  function Kept<E>(attempts: seq<Option<E>>): (r: seq<E>)
    ensures |r| <= |attempts|
  {
    if attempts == [] then []
    else
      var last := attempts[|attempts| - 1];
      Kept(attempts[..|attempts| - 1]) + if last.Some? then [last.value] else []
  }

  /**
   * The positions of the successful calls, ascending; together with `Kept`
   * this says the result list is exactly the successes, in call order.
   */
  function KeptIndices<E>(attempts: seq<Option<E>>): (idx: seq<nat>)
    ensures |idx| == |Kept(attempts)|
    ensures forall j :: 0 <= j < |idx| ==> idx[j] < |attempts| && attempts[idx[j]] == Some(Kept(attempts)[j])
    ensures forall i, j :: 0 <= i < j < |idx| ==> idx[i] < idx[j]
    ensures forall k :: 0 <= k < |attempts| && attempts[k].Some? ==> k in idx
  {
    if attempts == [] then []
    else
      var n := |attempts| - 1;
      KeptIndices(attempts[..n]) + if attempts[n].Some? then [n] else []
  }

  lemma {:induction false} KeptAppend<E>(a: seq<Option<E>>, b: seq<Option<E>>)
    ensures Kept(a + b) == Kept(a) + Kept(b)
    decreases |b|
  {
    if b == [] {
      assert a + b == a;
    } else {
      var n := |b| - 1;
      assert (a + b)[..|a + b| - 1] == a + b[..n];
      KeptAppend(a, b[..n]);
    }
  }

  /** The list has one entry per call exactly when every call succeeded. */
  lemma {:induction false} KeptAll<E>(attempts: seq<Option<E>>)
    ensures |Kept(attempts)| == |attempts| <==> forall k :: 0 <= k < |attempts| ==> attempts[k].Some?
    decreases |attempts|
  {
    if attempts != [] {
      var n := |attempts| - 1;
      KeptAll(attempts[..n]);
      assert forall k :: 0 <= k < n ==> attempts[..n][k] == attempts[k];
    }
  }

  /** When every call succeeded, entry `j` is what call `j` produced. */
  lemma {:induction false} KeptAllSucceeded<E>(attempts: seq<Option<E>>)
    requires forall k :: 0 <= k < |attempts| ==> attempts[k].Some?
    ensures |Kept(attempts)| == |attempts|
    ensures forall j :: 0 <= j < |attempts| ==> Kept(attempts)[j] == attempts[j].value
    decreases |attempts|
  {
    if attempts != [] {
      var n := |attempts| - 1;
      assert forall k :: 0 <= k < n ==> attempts[..n][k] == attempts[k];
      KeptAllSucceeded(attempts[..n]);
    }
  }

  /** The list is empty exactly when every call failed. */
  lemma {:induction false} KeptNone<E>(attempts: seq<Option<E>>)
    ensures Kept(attempts) == [] <==> forall k :: 0 <= k < |attempts| ==> attempts[k].None?
    decreases |attempts|
  {
    if attempts != [] {
      var n := |attempts| - 1;
      KeptNone(attempts[..n]);
      assert forall k :: 0 <= k < n ==> attempts[..n][k] == attempts[k];
    }
  }

  /**
   * A failed call is isolated: it contributes nothing, and the calls before
   * and after it contribute exactly what they would without it.
   */
  lemma KeptSkipsFailure<E>(attempts: seq<Option<E>>, k: nat)
    requires k < |attempts| && attempts[k].None?
    ensures Kept(attempts) == Kept(attempts[..k]) + Kept(attempts[k + 1..])
  {
    var before, after := attempts[..k], attempts[k + 1..];
    var upTo := attempts[..k + 1];
    assert attempts == upTo + after;
    assert upTo[..k] == before;
    KeptAppend(upTo, after);
  }

  /** One failed call among successes leaves exactly one entry fewer than calls. */
  lemma OneFailure<E>(attempts: seq<Option<E>>, k: nat)
    requires k < |attempts| && attempts[k].None?
    requires forall i :: 0 <= i < |attempts| && i != k ==> attempts[i].Some?
    ensures |Kept(attempts)| == |attempts| - 1
  {
    KeptSkipsFailure(attempts, k);
    var before, after := attempts[..k], attempts[k + 1..];
    assert forall i :: 0 <= i < |before| ==> before[i] == attempts[i];
    assert forall i :: 0 <= i < |after| ==> after[i] == attempts[k + 1 + i];
    KeptAll(before);
    KeptAll(after);
  }

  /** One CSV cell: text, an integer, a float, a JSON value copied through, or empty (`None`). */
  datatype Cell<V> = Text(text: string) | Whole(number: int) | Real(x: real) | Json(value: V) | Blank

  /** A written CSV file: the header row, then one row per result. */
  datatype Table<V> = Table(header: seq<string>, rows: seq<seq<Cell<V>>>)

  /** Reads every row with `parse`; fails if any row fails. */
  function ParseAll<R, E>(rows: seq<R>, parse: R -> Option<E>): (r: Option<seq<E>>)
    ensures r.Some? ==> |r.value| == |rows| && forall i :: 0 <= i < |rows| ==> parse(rows[i]) == Some(r.value[i])
    ensures r.None? ==> exists i :: 0 <= i < |rows| && parse(rows[i]).None?
  {
    if rows == [] then Some([])
    else
      var n := |rows| - 1;
      match ParseAll(rows[..n], parse)
      case None => None
      case Some(init) =>
        match parse(rows[n])
        case None => None
        case Some(e) => Some(init + [e])
  }

  /** `csv.DictWriter` with the given field names: the header row, then one row per result, in order. */
  function WriteTable<E, V>(header: seq<string>, rowOf: E -> seq<Cell<V>>, results: seq<E>): (t: Table<V>)
    ensures t.header == header && |t.rows| == |results|
  {
    Table(header, seq(|results|, i requires 0 <= i < |results| => rowOf(results[i])))
  }

  /** Reads a table back: its header must be the expected one and every row must read. */
  function ReadTable<E, V>(header: seq<string>, parse: seq<Cell<V>> -> Option<E>, t: Table<V>): Option<seq<E>> {
    if t.header == header then ParseAll(t.rows, parse) else None
  }

  /**
   * When each row reads back as the result it was written from, the whole
   * table reads back as the result list, in order.
   */
  lemma TableRoundTrip<E, V>(header: seq<string>, rowOf: E -> seq<Cell<V>>, parse: seq<Cell<V>> -> Option<E>,
                             results: seq<E>)
    requires forall e :: parse(rowOf(e)) == Some(e)
    ensures ReadTable(header, parse, WriteTable(header, rowOf, results)) == Some(results)
  {
    var t := WriteTable(header, rowOf, results);
    forall i | 0 <= i < |t.rows| ensures parse(t.rows[i]) == Some(results[i]) {
      assert t.rows[i] == rowOf(results[i]);
    }
    var r := ParseAll(t.rows, parse);
    assert r.Some?;
    assert r.value == results;
  }
}
