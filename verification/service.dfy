/**
  The backend's database as one object: each table is a field, and each
  handler is a method that checks its guards, reads what it needs and then
  writes the tables in the order the handler does. Every method is proved
  to leave exactly the store, and give exactly the answer, that the
  matching step function prescribes.
*/
module Service {
  import opened Wrappers
  import opened Schema
  import Ledger
  import WorkOrders
  import Settings
  import Reports

  /*
    The successful outcome of each handler, for a store `t` the method has
    already written: the step function answers `Done(t, ...)`. These keep
    the methods' proofs small.
  */

  lemma UpsertBatchAnswer(s: Store, itemId: Id, batchNumber: string, quantity: int, id: Id, t: Store)
    requires Wf(s) && itemId < s.nextItem
    requires var key := BatchKey(itemId, batchNumber);
      if key in s.batchIndex
      then id == s.batchIndex[key] && t == s.(batches := s.batches[id := s.batches[id].(quantity := s.batches[id].quantity + quantity)])
      else id == s.nextBatch && t == s.(batches := s.batches[id := Batch(itemId, batchNumber, quantity)],
                                        batchIndex := s.batchIndex[key := id], nextBatch := id + 1)
    ensures Ledger.UpsertBatch(s, itemId, batchNumber, quantity) == (t, id)
  {
  }

  lemma SetQuantityAnswer(s: Store, batchId: Id, quantity: int, t: Store)
    requires quantity >= 0
    requires t == if batchId in s.batches then s.(batches := s.batches[batchId := s.batches[batchId].(quantity := quantity)]) else s
    ensures Ledger.SetQuantity(s, batchId, quantity) == Done(t, ())
  {
  }

  lemma AdjustAnswer(s: Store, batchId: Id, qtyChange: int, reason: string, t: Store)
    requires qtyChange != 0 && batchId in s.batches && s.batches[batchId].quantity + qtyChange >= 0
    requires var b := s.batches[batchId];
      t == s.(batches := s.batches[batchId := b.(quantity := b.quantity + qtyChange)],
              movements := s.movements + [Movement(b.itemId, batchId, Adjust, qtyChange,
                                                   if reason == "" then Ledger.ManualAdjust else reason)])
    ensures Ledger.AdjustQuantity(s, batchId, qtyChange, reason) == Done(t, ())
  {
  }

  lemma CreateAnswer(s: Store, code: string, status: string, requestedBy: Option<string>, draws: seq<int>, t: Store)
    requires Wf(s) && WorkOrders.ValidDraws(draws)
    requires WorkOrders.ChosenCode(s, code, draws) !in WorkOrders.UsedCodes(s)
    requires t == s.(workOrders := s.workOrders[s.nextWorkOrder := WorkOrder(WorkOrders.ChosenCode(s, code, draws),
                                                                           WorkOrders.CoerceStatus(status), requestedBy)],
                     nextWorkOrder := s.nextWorkOrder + 1)
    ensures WorkOrders.CreateWorkOrder(s, code, status, requestedBy, draws) == Done(t, s.nextWorkOrder) && Wf(t)
  {
  }

  lemma SetStatusAnswer(s: Store, id: Id, status: string, t: Store)
    requires Wf(s) && WorkOrders.ParseStatus(status).Some?
    requires t == if id in s.workOrders
                  then s.(workOrders := s.workOrders[id := s.workOrders[id].(status := WorkOrders.ParseStatus(status).value)])
                  else s
    ensures WorkOrders.SetStatus(s, id, status) == Done(t, ()) && Wf(t)
  {
  }

  lemma AddLineAnswer(s: Store, woId: Id, partNumber: string, batchNumber: string,
                       itemId: Option<Id>, batchId: Option<Id>, qty: int, note: Option<string>, it: Id, bt: Id, t: Store)
    requires Wf(s) && qty > 0
    requires Ledger.Given(itemId) && Ledger.Given(batchId) ==> it == itemId.value && bt == batchId.value
    requires !(Ledger.Given(itemId) && Ledger.Given(batchId)) ==>
      Ledger.Resolves(s, partNumber, batchNumber) && it == s.items[partNumber] && bt == s.batchIndex[BatchKey(it, batchNumber)]
    requires t == s.(lines := s.lines[s.nextLine := Line(woId, it, bt, qty, 0, note)], nextLine := s.nextLine + 1)
    ensures Ledger.AddLine(s, woId, partNumber, batchNumber, itemId, batchId, qty, note) == Done(t, s.nextLine) && Wf(t)
  {
  }

  lemma IssueAnswer(s: Store, woId: Id, lineId: Id, qty: int, t: Store)
    requires qty > 0 && Ledger.IssuableLine(s, woId, lineId)
    requires s.batches[s.lines[lineId].batchId].quantity >= qty
    requires var l := s.lines[lineId];
      var b := s.batches[l.batchId];
      t == s.(batches := s.batches[l.batchId := b.(quantity := b.quantity - qty)],
              movements := s.movements + [Movement(l.itemId, l.batchId, Issue, -qty, Ledger.WorkOrderReason(woId))],
              lines := s.lines[lineId := l.(qtyIssued := l.qtyIssued + qty)])
    ensures Ledger.IssueLine(s, woId, lineId, qty) == Done(t, ())
  {
  }

  lemma ReturnAnswer(s: Store, woId: Id, lineId: Id, qty: int, t: Store)
    requires qty > 0 && Ledger.OnWorkOrder(s, woId, lineId)
    requires s.lines[lineId].qtyIssued >= qty
    requires var l := s.lines[lineId];
      t == s.(batches := if l.batchId in s.batches
                         then s.batches[l.batchId := s.batches[l.batchId].(quantity := s.batches[l.batchId].quantity + qty)]
                         else s.batches,
              movements := s.movements + [Movement(l.itemId, l.batchId, Return, qty, Ledger.WorkOrderReason(woId))],
              lines := s.lines[lineId := l.(qtyIssued := l.qtyIssued - qty)])
    ensures Ledger.ReturnLine(s, woId, lineId, qty) == Done(t, ())
  {
  }

  class Inventory {
    var items: map<string, Id>
    var batches: map<Id, Batch>
    var batchIndex: map<BatchKey, Id>
    var workOrders: map<Id, WorkOrder>
    var lines: map<Id, Line>
    var movements: seq<Movement>
    var settings: map<string, string>
    var nextItem: Id
    var nextBatch: Id
    var nextWorkOrder: Id
    var nextLine: Id

    /** The tables as one value. */
    function Snapshot(): Store
      reads this
    {
      Store(items, batches, batchIndex, workOrders, lines, movements, settings,
            nextItem, nextBatch, nextWorkOrder, nextLine)
    }

    ghost predicate Valid()
      reads this
    {
      Wf(Snapshot())
    }

    constructor ()
      ensures Valid() && Snapshot() == Empty()
    {
      items, batches, batchIndex, workOrders, lines := map[], map[], map[], map[], map[];
      movements, settings := [], map[];
      nextItem, nextBatch, nextWorkOrder, nextLine := 1, 1, 1, 1;
    }

    /** POST /api/items: find-or-create the item, then upsert the batch. */
    method IntakeStock(partNumber: string, batchNumber: string, quantity: int) returns (r: Result<Ledger.Intake, Error>)
      requires Valid()
      modifies this
      ensures Valid()
      ensures Answers(Ledger.IntakeStock(old(Snapshot()), partNumber, batchNumber, quantity), old(Snapshot()), Snapshot(), r)
    {
      if partNumber == "" || batchNumber == "" {
        return Failure(MissingPartOrBatch);
      }
      var itemId := FindOrCreateItem(partNumber);
      var batchId := UpsertBatch(itemId, batchNumber, quantity);
      r := Success(Ledger.Intake(itemId, batchId));
    }

    /** Looks the part number up and inserts the item when it is not there. */
    method FindOrCreateItem(partNumber: string) returns (itemId: Id)
      requires Valid()
      modifies this
      ensures (Snapshot(), itemId) == Ledger.FindOrCreateItem(old(Snapshot()), partNumber)
      ensures Valid() && itemId < nextItem
    {
      if partNumber in items {
        itemId := items[partNumber];
      } else {
        itemId := nextItem;
        items := items[partNumber := itemId];
        nextItem := nextItem + 1;
      }
    }

    /** The batch upsert on the unique key (item, batch number). */
    method UpsertBatch(itemId: Id, batchNumber: string, quantity: int) returns (batchId: Id)
      requires Valid() && itemId < nextItem
      modifies this
      ensures (Snapshot(), batchId) == Ledger.UpsertBatch(old(Snapshot()), itemId, batchNumber, quantity)
      ensures Valid()
    {
      ghost var s := Snapshot();
      var key := BatchKey(itemId, batchNumber);
      if key in batchIndex {
        batchId := batchIndex[key];
        var b := batches[batchId];
        batches := batches[batchId := b.(quantity := b.quantity + quantity)];
      } else {
        batchId := nextBatch;
        batches := batches[batchId := Batch(itemId, batchNumber, quantity)];
        batchIndex := batchIndex[key := batchId];
        nextBatch := nextBatch + 1;
      }
      UpsertBatchAnswer(s, itemId, batchNumber, quantity, batchId, Snapshot());
    }

    /** PUT /api/items/:batchId. */
    method SetQuantity(batchId: Id, quantity: int) returns (r: Result<(), Error>)
      requires Valid()
      modifies this
      ensures Valid()
      ensures Answers(Ledger.SetQuantity(old(Snapshot()), batchId, quantity), old(Snapshot()), Snapshot(), r)
    {
      ghost var s := Snapshot();
      if quantity < 0 {
        return Failure(InvalidInput);
      }
      if batchId in batches {
        batches := batches[batchId := batches[batchId].(quantity := quantity)];
      }
      r := Success(());
      SetQuantityAnswer(s, batchId, quantity, Snapshot());
    }

    /** PATCH /api/items/:batchId/adjust. */
    method AdjustQuantity(batchId: Id, qtyChange: int, reason: string) returns (r: Result<(), Error>)
      requires Valid()
      modifies this
      ensures Valid()
      ensures Answers(Ledger.AdjustQuantity(old(Snapshot()), batchId, qtyChange, reason), old(Snapshot()), Snapshot(), r)
    {
      ghost var s := Snapshot();
      var why := if reason == "" then Ledger.ManualAdjust else reason;
      if qtyChange == 0 {
        return Failure(InvalidInput);
      }
      if batchId !in batches {
        return Failure(BatchNotFound);
      }
      var b := batches[batchId];
      if b.quantity + qtyChange < 0 {
        return Failure(InsufficientStock);
      }
      batches := batches[batchId := b.(quantity := b.quantity + qtyChange)];
      movements := movements + [Movement(b.itemId, batchId, Adjust, qtyChange, why)];
      r := Success(());
      AdjustAnswer(s, batchId, qtyChange, reason, Snapshot());
    }

    /** POST /api/workorders. */
    method CreateWorkOrder(code: string, status: string, requestedBy: Option<string>, draws: seq<int>) returns (r: Result<Id, Error>)
      requires Valid() && WorkOrders.ValidDraws(draws)
      modifies this
      ensures Valid()
      ensures Answers(WorkOrders.CreateWorkOrder(old(Snapshot()), code, status, requestedBy, draws), old(Snapshot()), Snapshot(), r)
    {
      ghost var s := Snapshot();
      var st := WorkOrders.CoerceStatus(status);
      var used := WorkOrders.UsedCodes(Snapshot());
      var c := code;
      if c == "" {
        var tries;
        c, tries := WorkOrders.GenerateCode(used, draws);
      }
      if c in used {
        return Failure(CodeExists);
      }
      var id := nextWorkOrder;
      workOrders, nextWorkOrder := workOrders[id := WorkOrder(c, st, requestedBy)], nextWorkOrder + 1;
      r := Success(id);
      CreateAnswer(s, code, status, requestedBy, draws, Snapshot());
    }

    /** PUT /api/workorders/:id/status. */
    method SetStatus(id: Id, status: string) returns (r: Result<(), Error>)
      requires Valid()
      modifies this
      ensures Valid()
      ensures Answers(WorkOrders.SetStatus(old(Snapshot()), id, status), old(Snapshot()), Snapshot(), r)
    {
      ghost var s := Snapshot();
      var st := WorkOrders.ParseStatus(status);
      if st.None? {
        return Failure(InvalidInput);
      }
      if id in workOrders {
        workOrders := workOrders[id := workOrders[id].(status := st.value)];
      }
      r := Success(());
      SetStatusAnswer(s, id, status, Snapshot());
    }

    /** POST /api/workorders/:id/lines. */
    method AddLine(woId: Id, partNumber: string, batchNumber: string, itemId: Option<Id>, batchId: Option<Id>,
                   qty: int, note: Option<string>) returns (r: Result<Id, Error>)
      requires Valid()
      modifies this
      ensures Valid()
      ensures Answers(Ledger.AddLine(old(Snapshot()), woId, partNumber, batchNumber, itemId, batchId, qty, note),
                      old(Snapshot()), Snapshot(), r)
    {
      ghost var s := Snapshot();
      if qty <= 0 {
        return Failure(QtyRequired);
      }
      var it: Id, bt: Id;
      if Ledger.Given(itemId) && Ledger.Given(batchId) {
        it, bt := itemId.value, batchId.value;
      } else {
        if !(partNumber in items && BatchKey(items[partNumber], batchNumber) in batchIndex) {
          return Failure(ItemBatchNotFound);
        }
        it := items[partNumber];
        bt := batchIndex[BatchKey(it, batchNumber)];
      }
      var id := nextLine;
      lines, nextLine := lines[id := Line(woId, it, bt, qty, 0, note)], nextLine + 1;
      r := Success(id);
      AddLineAnswer(s, woId, partNumber, batchNumber, itemId, batchId, qty, note, it, bt, Snapshot());
    }

    /** POST /api/workorders/:id/lines/:lineId/issue. */
    method IssueLine(woId: Id, lineId: Id, qty: int) returns (r: Result<(), Error>)
      requires Valid()
      modifies this
      ensures Valid()
      ensures Answers(Ledger.IssueLine(old(Snapshot()), woId, lineId, qty), old(Snapshot()), Snapshot(), r)
    {
      ghost var s := Snapshot();
      if qty <= 0 {
        return Failure(InvalidInput);
      }
      if !(lineId in lines && lines[lineId].workOrderId == woId && lines[lineId].batchId in batches) {
        return Failure(LineNotFound);
      }
      var l := lines[lineId];
      var b := batches[l.batchId];
      if b.quantity < qty {
        return Failure(InsufficientStock);
      }
      batches, movements, lines :=
        batches[l.batchId := b.(quantity := b.quantity - qty)],
        movements + [Movement(l.itemId, l.batchId, Issue, -qty, Ledger.WorkOrderReason(woId))],
        lines[lineId := l.(qtyIssued := l.qtyIssued + qty)];
      r := Success(());
      IssueAnswer(s, woId, lineId, qty, Snapshot());
    }

    /** POST /api/workorders/:id/lines/:lineId/return. */
    method ReturnLine(woId: Id, lineId: Id, qty: int) returns (r: Result<(), Error>)
      requires Valid()
      modifies this
      ensures Valid()
      ensures Answers(Ledger.ReturnLine(old(Snapshot()), woId, lineId, qty), old(Snapshot()), Snapshot(), r)
    {
      ghost var s := Snapshot();
      if qty <= 0 {
        return Failure(InvalidInput);
      }
      if !(lineId in lines && lines[lineId].workOrderId == woId) {
        return Failure(LineNotFound);
      }
      var l := lines[lineId];
      if l.qtyIssued < qty {
        return Failure(TooMuchReturn);
      }
      if l.batchId in batches {
        batches := batches[l.batchId := batches[l.batchId].(quantity := batches[l.batchId].quantity + qty)];
      }
      movements, lines :=
        movements + [Movement(l.itemId, l.batchId, Return, qty, Ledger.WorkOrderReason(woId))],
        lines[lineId := l.(qtyIssued := l.qtyIssued - qty)];
      r := Success(());
      ReturnAnswer(s, woId, lineId, qty, Snapshot());
    }

    /** PUT /api/settings: one upsert per key of the body, in order. */
    method UpsertSettings(entries: seq<(string, string)>) returns (r: Result<(), Error>)
      requires Valid()
      modifies this
      ensures Valid()
      ensures Answers(Settings.UpsertSettings(old(Snapshot()), entries), old(Snapshot()), Snapshot(), r)
    {
      if entries == [] {
        return Failure(NoData);
      }
      for i := 0 to |entries|
        invariant Snapshot() == old(Snapshot()).(settings := Settings.Upserted(old(settings), entries[..i]))
      {
        assert entries[..i + 1][..i] == entries[..i];
        settings := settings[entries[i].0 := entries[i].1];
      }
      assert entries[..|entries|] == entries;
      r := Success(());
    }

    /** GET /api/reports/lowstock, reading the batches in the order `scan`. */
    method LowStockReport(scan: seq<Id>) returns (r: Result<seq<Reports.StockRow>, Error>)
      requires Valid() && Reports.ScanOf(Snapshot(), scan)
      ensures r == Reports.LowStockReport(Snapshot(), scan)
      ensures r.Success? ==>
        && Reports.Ascending(r.value)
        && forall row :: row in r.value <==>
             row in Reports.Joined(Snapshot()) && row.quantity <= Settings.Threshold(settings).value
    {
      r := Reports.LowStockReport(Snapshot(), scan);
    }
  }
}
