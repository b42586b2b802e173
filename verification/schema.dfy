/**
  The tables the stock ledger works on, as values: items, batches, work orders,
  work-order lines, the stock-movement log and the application settings.
  Generated ids are the tables' serial counters. The table definitions are
  not part of this model: `Wf` assumes the constraints the handlers rely on
  (serial primary keys, the unique key (item_id, batch_number) that the
  intake upsert conflicts on, unique work-order codes, qty_issued defaulting
  to 0 on a new line) and adds the line invariants that the handlers' own
  guards keep.
*/
module Schema {
  import opened Wrappers

  type Id = nat

  /** A stock lot of one item (`batches` row). */
  datatype Batch = Batch(itemId: Id, batchNumber: string, quantity: int)

  /** The unique key (item_id, batch_number) the intake upsert conflicts on. */
  datatype BatchKey = BatchKey(itemId: Id, batchNumber: string)

  function KeyOf(b: Batch): BatchKey { BatchKey(b.itemId, b.batchNumber) }

  datatype Status = Draft | Issued | Closed

  datatype WorkOrder = WorkOrder(code: string, status: Status, requestedBy: Option<string>)

  /** A `workorder_lines` row: what a work order requests from one batch, and how much is out. */
  datatype Line = Line(workOrderId: Id, itemId: Id, batchId: Id, qtyRequested: int, qtyIssued: int, note: Option<string>)

  datatype MovementType = Adjust | Issue | Return

  /** A `stock_movements` row: an append-only audit record of a quantity change. */
  datatype Movement = Movement(itemId: Id, batchId: Id, kind: MovementType, qtyChange: int, reason: string)

  datatype Store = Store(
    items: map<string, Id>,          // part_number -> id
    batches: map<Id, Batch>,
    batchIndex: map<BatchKey, Id>,   // the unique index on (item_id, batch_number)
    workOrders: map<Id, WorkOrder>,
    lines: map<Id, Line>,
    movements: seq<Movement>,
    settings: map<string, string>,
    nextItem: Id,
    nextBatch: Id,
    nextWorkOrder: Id,
    nextLine: Id)

  /** The error bodies the handlers answer with. */
  datatype Error =
    | MissingPartOrBatch   // 400 part_number_and_batch_required
    | InvalidInput         // 400 invalid_input
    | QtyRequired          // 400 qty_required
    | BatchNotFound        // 404 batch_not_found
    | ItemBatchNotFound    // 404 item_batch_not_found
    | LineNotFound         // 404 line_not_found
    | InsufficientStock    // 400 insufficient_stock
    | TooMuchReturn        // 400 too_much_return
    | CodeExists           // 400 code_exists
    | NoData               // 400 no_data
    | BadThreshold         // 500 db_error, a threshold parseInt cannot read

  /** What one handler does: the store it leaves and its answer, or a rejection that writes nothing. */
  datatype Reply<T> = Done(next: Store, value: T) | Rejected(error: Error)

  /** No two items share an id (part_number is the items' natural key). */
  ghost predicate UniquePartNumbers(s: Store) {
    forall p, q :: p in s.items && q in s.items && s.items[p] == s.items[q] ==> p == q
  }

  /**
    The integrity of the store: serial ids below their counters, the batch
    index agreeing with the batches and unique codes (assumed of the
    database), and on every line a positive qty_requested and a non-negative
    qty_issued (kept by the add-line and return guards).
  */
  ghost predicate Wf(s: Store) {
    && (forall p :: p in s.items ==> s.items[p] < s.nextItem)
    && UniquePartNumbers(s)
    && (forall b :: b in s.batches ==> b < s.nextBatch && s.batches[b].itemId < s.nextItem)
    && (forall k :: k in s.batchIndex ==> s.batchIndex[k] in s.batches && KeyOf(s.batches[s.batchIndex[k]]) == k)
    && (forall b :: b in s.batches ==> KeyOf(s.batches[b]) in s.batchIndex && s.batchIndex[KeyOf(s.batches[b])] == b)
    && (forall w :: w in s.workOrders ==> w < s.nextWorkOrder)
    && (forall w, v :: w in s.workOrders && v in s.workOrders && s.workOrders[w].code == s.workOrders[v].code ==> w == v)
    && (forall l :: l in s.lines ==> l < s.nextLine && s.lines[l].qtyRequested > 0 && s.lines[l].qtyIssued >= 0)
  }

  /**
    A write that changes only batch quantities, qty_issued and the log keeps
    the integrity, provided no qty_issued becomes negative that was not already.
  */
  lemma WfAfterQuantities(s: Store, t: Store)
    requires t == s.(batches := t.batches, movements := t.movements, lines := t.lines)
    requires t.batches.Keys == s.batches.Keys
    requires forall b :: b in s.batches ==> t.batches[b] == s.batches[b].(quantity := t.batches[b].quantity)
    requires t.lines.Keys == s.lines.Keys
    requires forall l :: l in s.lines ==>
      && t.lines[l] == s.lines[l].(qtyIssued := t.lines[l].qtyIssued)
      && (t.lines[l].qtyIssued >= 0 || t.lines[l].qtyIssued >= s.lines[l].qtyIssued)
    ensures Wf(s) ==> Wf(t)
  {
    if Wf(s) {
      forall k | k in t.batchIndex
        ensures t.batchIndex[k] in t.batches && KeyOf(t.batches[t.batchIndex[k]]) == k
      {
        assert KeyOf(t.batches[s.batchIndex[k]]) == KeyOf(s.batches[s.batchIndex[k]]);
      }
      forall b | b in t.batches
        ensures KeyOf(t.batches[b]) in t.batchIndex && t.batchIndex[KeyOf(t.batches[b])] == b
      {
        assert KeyOf(t.batches[b]) == KeyOf(s.batches[b]);
      }
    }
  }

  /** Inserting an item under the next id keeps the integrity. */
  lemma WfAfterNewItem(s: Store, partNumber: string)
    requires Wf(s) && partNumber !in s.items
    ensures Wf(s.(items := s.items[partNumber := s.nextItem], nextItem := s.nextItem + 1))
  {
  }

  /** Inserting a batch under the next id, with a key not yet indexed, keeps the integrity. */
  lemma WfAfterNewBatch(s: Store, key: BatchKey, quantity: int)
    requires Wf(s) && key !in s.batchIndex && key.itemId < s.nextItem
    ensures Wf(s.(batches := s.batches[s.nextBatch := Batch(key.itemId, key.batchNumber, quantity)],
                  batchIndex := s.batchIndex[key := s.nextBatch],
                  nextBatch := s.nextBatch + 1))
  {
  }

  /** Inserting a work order under the next id, with a code not yet in use, keeps the integrity. */
  lemma WfAfterNewWorkOrder(s: Store, w: WorkOrder)
    requires Wf(s) && forall v :: v in s.workOrders ==> s.workOrders[v].code != w.code
    ensures Wf(s.(workOrders := s.workOrders[s.nextWorkOrder := w], nextWorkOrder := s.nextWorkOrder + 1))
  {
  }

  /** Inserting a line with a positive request and nothing issued keeps the integrity. */
  lemma WfAfterNewLine(s: Store, l: Line)
    requires Wf(s) && l.qtyRequested > 0 && l.qtyIssued == 0
    ensures Wf(s.(lines := s.lines[s.nextLine := l], nextLine := s.nextLine + 1))
  {
  }

  /** An empty database; serial ids start at 1. */
  function Empty(): (s: Store)
    ensures Wf(s)
  {
    Store(map[], map[], map[], map[], map[], [], map[], 1, 1, 1, 1)
  }

  /** The handler's answer `r` and the store `after` are what `reply` prescribes for `before`. */
  ghost predicate Answers<T>(reply: Reply<T>, before: Store, after: Store, r: Result<T, Error>) {
    match reply
    case Rejected(e) => r == Failure(e) && after == before
    case Done(next, v) => r == Success(v) && after == next
  }
}
