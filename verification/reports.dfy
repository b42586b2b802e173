/**
  The low-stock report: the batches joined with their item's part number,
  those at or below the threshold, in ascending order of quantity.
*/
module Reports {
  import opened Wrappers
  import opened Schema
  import Settings

  /** One row of the report (location, site and bin are not part of this model). */
  datatype StockRow = StockRow(partNumber: string, batchNumber: string, quantity: int)

  predicate Ascending(rows: seq<StockRow>) {
    forall i, j :: 0 <= i < j < |rows| ==> rows[i].quantity <= rows[j].quantity
  }

  /** No row occurs twice. */
  ghost predicate Distinct(rows: seq<StockRow>) {
    forall x :: multiset(rows)[x] <= 1
  }

  /* ---------------- filter and sort ---------------- */

  /** `WHERE quantity <= t`, keeping the order and the multiplicity of the rows it keeps. */
  function Filtered(rows: seq<StockRow>, t: int): (f: seq<StockRow>)
    ensures forall x :: multiset(f)[x] == if x.quantity <= t then multiset(rows)[x] else 0
  {
    if rows == [] then []
    else
      var init := rows[..|rows| - 1];
      var last := rows[|rows| - 1];
      assert rows == init + [last];
      if last.quantity <= t then Filtered(init, t) + [last] else Filtered(init, t)
  }

  /** Puts `x` before the first row of a sorted sequence whose quantity is not smaller. */
  function Insert(x: StockRow, rows: seq<StockRow>): (r: seq<StockRow>)
    requires Ascending(rows)
    ensures Ascending(r)
    ensures multiset(r) == multiset(rows) + multiset{x}
  {
    if rows == [] || x.quantity <= rows[0].quantity then
      BelowAll(x, rows);
      [x] + rows
    else
      var rest := Insert(x, rows[1..]);
      InsertAfterFirst(x, rows, rest);
      [rows[0]] + rest
  }

  /** The first row stays first when `x` goes into the rest. */
  lemma InsertAfterFirst(x: StockRow, rows: seq<StockRow>, rest: seq<StockRow>)
    requires Ascending(rows) && rows != [] && rows[0].quantity < x.quantity
    requires Ascending(rest) && multiset(rest) == multiset(rows[1..]) + multiset{x}
    ensures Ascending([rows[0]] + rest)
    ensures multiset([rows[0]] + rest) == multiset(rows) + multiset{x}
  {
    assert rows == [rows[0]] + rows[1..];
    forall y | y in rest ensures rows[0].quantity <= y.quantity {
      assert y in multiset(rest);
    }
    BelowAll(rows[0], rest);
  }

  /** A row no larger than any row of a sorted sequence can go first. */
  lemma BelowAll(x: StockRow, rows: seq<StockRow>)
    requires Ascending(rows)
    requires forall y :: y in rows ==> x.quantity <= y.quantity
    ensures Ascending([x] + rows)
  {
    var r := [x] + rows;
    forall i, j | 0 <= i < j < |r| ensures r[i].quantity <= r[j].quantity {
      assert r[j] == rows[j - 1];
      if i > 0 { assert r[i] == rows[i - 1]; }
    }
  }

  /** `ORDER BY quantity ASC`, as an insertion sort; the order among equal quantities is not fixed by the query. */
  function SortByQuantity(rows: seq<StockRow>): (r: seq<StockRow>)
    ensures Ascending(r)
    ensures multiset(r) == multiset(rows)
  {
    if rows == [] then []
    else
      assert rows == [rows[0]] + rows[1..];
      Insert(rows[0], SortByQuantity(rows[1..]))
  }

  /** The filter and sort of the report, on the joined rows. */
  function LowStock(rows: seq<StockRow>, t: int): (r: seq<StockRow>)
    ensures Ascending(r)
    ensures forall x :: multiset(r)[x] == if x.quantity <= t then multiset(rows)[x] else 0
    ensures forall x :: x in r <==> x in rows && x.quantity <= t
  {
    SortByQuantity(Filtered(rows, t))
  }

  /* ---------------- the join ---------------- */

  /** The part number of item `itemId`, through the unique part-number index. */
  function PartNumberOf(s: Store, itemId: Id): (p: Option<string>)
    requires UniquePartNumbers(s)
    ensures p.Some? <==> exists q :: q in s.items && s.items[q] == itemId
    ensures p.Some? ==> p.value in s.items && s.items[p.value] == itemId
  {
    if exists q :: q in s.items && s.items[q] == itemId then
      var q :| q in s.items && s.items[q] == itemId;
      Some(q)
    else None
  }

  /** The row batch `b` contributes to `batches JOIN items`: none when its item is gone. */
  function RowOf(s: Store, b: Id): Option<StockRow>
    requires UniquePartNumbers(s) && b in s.batches
  {
    match PartNumberOf(s, s.batches[b].itemId)
    case None => None
    case Some(p) => Some(StockRow(p, s.batches[b].batchNumber, s.batches[b].quantity))
  }

  /** Every row of the join: a batch together with the part number of its item. */
  function Joined(s: Store): set<StockRow> {
    set b, p | b in s.batches && p in s.items && s.items[p] == s.batches[b].itemId
      :: StockRow(p, s.batches[b].batchNumber, s.batches[b].quantity)
  }

  /** `scan` lists every batch exactly once: the order the database reads the table in. */
  predicate ScanOf(s: Store, scan: seq<Id>) {
    && (forall i :: 0 <= i < |scan| ==> scan[i] in s.batches)
    && (forall b :: b in s.batches ==> b in scan)
    && (forall i, j :: 0 <= i < j < |scan| ==> scan[i] != scan[j])
  }

  /** The joined rows, in scan order. */
  function JoinRows(s: Store, scan: seq<Id>): (rows: seq<StockRow>)
    requires UniquePartNumbers(s) && forall i :: 0 <= i < |scan| ==> scan[i] in s.batches
    ensures |rows| <= |scan|
  {
    if scan == [] then []
    else
      var init := JoinRows(s, scan[..|scan| - 1]);
      match RowOf(s, scan[|scan| - 1])
      case None => init
      case Some(row) => init + [row]
  }

  /** Two batches never give the same row: part number and batch number name one batch. */
  lemma RowDeterminesBatch(s: Store, b1: Id, b2: Id)
    requires Wf(s) && b1 in s.batches && b2 in s.batches
    requires RowOf(s, b1).Some? && RowOf(s, b1) == RowOf(s, b2)
    ensures b1 == b2
  {
    assert KeyOf(s.batches[b1]) == KeyOf(s.batches[b2]);
  }

  /** Every joined row comes from a scanned batch whose item exists. */
  lemma {:induction false} JoinRowsSound(s: Store, scan: seq<Id>, row: StockRow) returns (i: nat)
    requires UniquePartNumbers(s) && forall i :: 0 <= i < |scan| ==> scan[i] in s.batches
    requires row in JoinRows(s, scan)
    ensures i < |scan| && RowOf(s, scan[i]) == Some(row)
    decreases |scan|
  {
    var init := scan[..|scan| - 1];
    if row in JoinRows(s, init) {
      i := JoinRowsSound(s, init, row);
      assert scan[i] == init[i];
    } else {
      i := |scan| - 1;
    }
  }

  /** Every scanned batch whose item exists contributes its row. */
  lemma {:induction false} JoinRowsComplete(s: Store, scan: seq<Id>, i: nat)
    requires UniquePartNumbers(s) && forall i :: 0 <= i < |scan| ==> scan[i] in s.batches
    requires i < |scan| && RowOf(s, scan[i]).Some?
    ensures RowOf(s, scan[i]).value in JoinRows(s, scan)
    decreases |scan|
  {
    var init := scan[..|scan| - 1];
    if i < |scan| - 1 {
      assert init[i] == scan[i];
      JoinRowsComplete(s, init, i);
    }
  }

  /** A scan that visits each batch once yields each row once. */
  lemma {:induction false} JoinRowsDistinct(s: Store, scan: seq<Id>)
    requires Wf(s) && forall i :: 0 <= i < |scan| ==> scan[i] in s.batches
    requires forall i, j :: 0 <= i < j < |scan| ==> scan[i] != scan[j]
    ensures Distinct(JoinRows(s, scan))
    decreases |scan|
  {
    if scan != [] {
      var init := scan[..|scan| - 1];
      var last := scan[|scan| - 1];
      JoinRowsDistinct(s, init);
      match RowOf(s, last)
      case None =>
      case Some(row) =>
        if row in JoinRows(s, init) {
          var i := JoinRowsSound(s, init, row);
          assert scan[i] == init[i];
          RowDeterminesBatch(s, init[i], last);
        }
    }
  }

  /** A full scan yields exactly the rows of the join. */
  lemma JoinRowsExact(s: Store, scan: seq<Id>, row: StockRow)
    requires UniquePartNumbers(s) && ScanOf(s, scan)
    ensures row in JoinRows(s, scan) <==> row in Joined(s)
  {
    if row in JoinRows(s, scan) {
      var i := JoinRowsSound(s, scan, row);
      var p := RowOf(s, scan[i]).value.partNumber;
      assert p in s.items && s.items[p] == s.batches[scan[i]].itemId;
    }
    if row in Joined(s) {
      var b, p :| b in s.batches && p in s.items && s.items[p] == s.batches[b].itemId
                  && row == StockRow(p, s.batches[b].batchNumber, s.batches[b].quantity);
      var i :| 0 <= i < |scan| && scan[i] == b;
      JoinRowsComplete(s, scan, i);
    }
  }

  /**
    GET /api/reports/lowstock: every joined row at or below the threshold,
    each once, in ascending quantity. A threshold `parseInt` cannot read
    makes the query fail.
  */
  function LowStockReport(s: Store, scan: seq<Id>): (r: Result<seq<StockRow>, Error>)
    requires Wf(s) && ScanOf(s, scan)
    ensures r.Failure? <==> Settings.Threshold(s.settings).None?
    ensures r.Failure? ==> r.error == BadThreshold
    ensures r.Success? ==>
      && Ascending(r.value)
      && Distinct(r.value)
      && forall row :: row in r.value <==> row in Joined(s) && row.quantity <= Settings.Threshold(s.settings).value
  {
    match Settings.Threshold(s.settings)
    case None => Failure(BadThreshold)
    case Some(t) =>
      ReportRows(s, scan, t);
      Success(LowStock(JoinRows(s, scan), t))
  }

  /** The report's rows at threshold `t`: each joined row at or below `t`, once. */
  lemma ReportRows(s: Store, scan: seq<Id>, t: int)
    requires Wf(s) && ScanOf(s, scan)
    ensures Distinct(LowStock(JoinRows(s, scan), t))
    ensures forall row :: row in LowStock(JoinRows(s, scan), t) <==> row in Joined(s) && row.quantity <= t
  {
    var rows := JoinRows(s, scan);
    JoinRowsDistinct(s, scan);
    LowStockDistinct(rows, t);
    forall row ensures row in rows <==> row in Joined(s) {
      JoinRowsExact(s, scan, row);
    }
  }

  lemma LowStockDistinct(rows: seq<StockRow>, t: int)
    requires Distinct(rows)
    ensures Distinct(LowStock(rows, t))
  {
    var r := LowStock(rows, t);
    forall x ensures multiset(r)[x] <= 1 {
      assert multiset(rows)[x] <= 1;
    }
  }

  /** With no threshold saved, the report lists the batches that are empty or below zero. */
  lemma DefaultThresholdIsZero(s: Store, scan: seq<Id>, row: StockRow)
    requires Wf(s) && ScanOf(s, scan) && Settings.LowStockKey !in s.settings
    ensures LowStockReport(s, scan).Success?
    ensures row in LowStockReport(s, scan).value <==> row in Joined(s) && row.quantity <= 0
  {
  }
}
