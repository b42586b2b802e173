/**
  The stock ledger: the handlers that change batch quantities and work-order
  lines, each as one atomic step on the store. Intake and the absolute PUT
  write no movement; adjust, issue and return append exactly one movement and
  change its batch by exactly its `qtyChange`.
*/
module Ledger {
  import opened Wrappers
  import opened Schema
  import Text

  const ManualAdjust := "Manual adjust"

  /**
    The reason the issue and return handlers record: "WO-" and the work-order
    id, written here as its shortest decimal.
  */
  function WorkOrderReason(woId: Id): string { "WO-" + Text.Decimal(woId) }

  /** The reason names the work order: "WO-" and digits whose value is its id. */
  lemma ReasonNamesWorkOrder(woId: Id)
    ensures var reason := WorkOrderReason(woId);
      && |reason| > 3 && reason[..3] == "WO-"
      && Text.AllDigits(reason[3..]) && Text.ValueOf(reason[3..]) == woId
  {
    Text.ValueOfDecimal(woId);
    assert WorkOrderReason(woId)[3..] == Text.Decimal(woId);
  }

  /** What movement `m` records for batch `b`. */
  function Effect(m: Movement, b: Id): int { if m.batchId == b then m.qtyChange else 0 }

  /** The sum of the `qtyChange` of the movements in `ms` on batch `b`. */
  function Delta(ms: seq<Movement>, b: Id): int {
    if ms == [] then 0 else Delta(ms[..|ms| - 1], b) + Effect(ms[|ms| - 1], b)
  }

  /**
    `t` is `s` after one audited write: exactly one movement is appended, every
    batch moves by what that movement records for it, and no table other than
    the batches, the log and the lines changes.
  */
  ghost predicate Audited(s: Store, t: Store) {
    && |t.movements| == |s.movements| + 1
    && t.movements[..|s.movements|] == s.movements
    && t.batches.Keys == s.batches.Keys
    && (forall b :: b in s.batches ==>
          t.batches[b] == s.batches[b].(quantity := s.batches[b].quantity + Effect(t.movements[|s.movements|], b)))
    && t == s.(batches := t.batches, movements := t.movements, lines := t.lines)
  }

  /* ---------------- items and batches ---------------- */

  datatype Intake = Intake(itemId: Id, batchId: Id)

  /** The quantity on hand under a batch key, 0 when no batch has that key. */
  function OnHand(s: Store, key: BatchKey): int {
    if key in s.batchIndex && s.batchIndex[key] in s.batches then s.batches[s.batchIndex[key]].quantity else 0
  }

  /**
    POST /api/items: find-or-create the item by part number, then upsert the
    batch (item, batch number), adding to its quantity when it exists. The
    quantity may be negative, and no movement is written.
  */
  function IntakeStock(s: Store, partNumber: string, batchNumber: string, quantity: int): (r: Reply<Intake>)
    requires Wf(s)
    ensures r.Rejected? <==> partNumber == "" || batchNumber == ""
    ensures r.Rejected? ==> r.error == MissingPartOrBatch
    ensures r.Done? ==>
      && r.next.items == s.items[partNumber := r.value.itemId]
      && (partNumber in s.items ==> r.value.itemId == s.items[partNumber])
      && (partNumber !in s.items ==> forall p :: p in s.items ==> s.items[p] != r.value.itemId)
    ensures r.Done? ==>
      var key := BatchKey(r.value.itemId, batchNumber);
      && key in r.next.batchIndex && r.next.batchIndex[key] == r.value.batchId
      && (key in s.batchIndex ==> r.value.batchId == s.batchIndex[key])
      && (key !in s.batchIndex ==> r.value.batchId !in s.batches)
      && r.next.batches.Keys == s.batches.Keys + {r.value.batchId}
      && r.next.batches[r.value.batchId] == Batch(r.value.itemId, batchNumber, OnHand(s, key) + quantity)
      && (forall b :: b in s.batches && b != r.value.batchId ==> r.next.batches[b] == s.batches[b])
    ensures r.Done? ==>
      r.next == s.(items := r.next.items, batches := r.next.batches, batchIndex := r.next.batchIndex,
                   nextItem := r.next.nextItem, nextBatch := r.next.nextBatch)
    ensures r.Done? ==> Wf(r.next)
  {
    if partNumber == "" || batchNumber == "" then Rejected(MissingPartOrBatch)
    else
      var (s1, itemId) := FindOrCreateItem(s, partNumber);
      var (s2, batchId) := UpsertBatch(s1, itemId, batchNumber, quantity);
      Done(s2, Intake(itemId, batchId))
  }

  /** The item with this part number, inserted under the next serial id when there is none. */
  function FindOrCreateItem(s: Store, partNumber: string): (r: (Store, Id))
    requires Wf(s)
    ensures Wf(r.0)
    ensures r.0 == s.(items := s.items[partNumber := r.1], nextItem := r.0.nextItem)
    ensures partNumber in s.items ==> r.1 == s.items[partNumber] && r.0 == s
    ensures partNumber !in s.items ==>
      && (forall p :: p in s.items ==> s.items[p] != r.1)
      && (forall b :: b in s.batches ==> s.batches[b].itemId != r.1)
  {
    if partNumber in s.items then (s, s.items[partNumber])
    else
      WfAfterNewItem(s, partNumber);
      (s.(items := s.items[partNumber := s.nextItem], nextItem := s.nextItem + 1), s.nextItem)
  }

  /** INSERT ... ON CONFLICT (item_id, batch_number) DO UPDATE SET quantity = quantity + EXCLUDED.quantity. */
  function UpsertBatch(s: Store, itemId: Id, batchNumber: string, quantity: int): (r: (Store, Id))
    requires Wf(s) && itemId < s.nextItem
    ensures Wf(r.0)
    ensures var key := BatchKey(itemId, batchNumber);
      && key in r.0.batchIndex && r.0.batchIndex[key] == r.1
      && (key in s.batchIndex ==> r.1 == s.batchIndex[key])
      && (key !in s.batchIndex ==> r.1 !in s.batches)
      && r.0.batches.Keys == s.batches.Keys + {r.1}
      && r.0.batches[r.1] == Batch(itemId, batchNumber, OnHand(s, key) + quantity)
      && (forall b :: b in s.batches && b != r.1 ==> r.0.batches[b] == s.batches[b])
    ensures r.0 == s.(batches := r.0.batches, batchIndex := r.0.batchIndex, nextBatch := r.0.nextBatch)
  {
    var key := BatchKey(itemId, batchNumber);
    if key in s.batchIndex then
      var id := s.batchIndex[key];
      var t := s.(batches := s.batches[id := s.batches[id].(quantity := s.batches[id].quantity + quantity)]);
      WfAfterQuantities(s, t);
      assert KeyOf(s.batches[id]) == key;
      (t, id)
    else
      WfAfterNewBatch(s, key, quantity);
      (s.(batches := s.batches[s.nextBatch := Batch(itemId, batchNumber, quantity)],
          batchIndex := s.batchIndex[key := s.nextBatch],
          nextBatch := s.nextBatch + 1), s.nextBatch)
  }

  /** The upsert adds at most one index entry: the key now names the returned batch. */
  lemma UpsertBatchIndex(s: Store, itemId: Id, batchNumber: string, quantity: int)
    requires Wf(s) && itemId < s.nextItem
    ensures var r := UpsertBatch(s, itemId, batchNumber, quantity);
      r.0.batchIndex == s.batchIndex[BatchKey(itemId, batchNumber) := r.1]
  {
    var key := BatchKey(itemId, batchNumber);
    if key in s.batchIndex {
      assert s.batchIndex[key := s.batchIndex[key]] == s.batchIndex;
    }
  }

  /**
    PUT /api/items/:batchId: overwrite the quantity. A batch id matching no
    row updates nothing and still succeeds; no movement is written.
  */
  function SetQuantity(s: Store, batchId: Id, quantity: int): (r: Reply<()>)
    ensures r.Rejected? <==> quantity < 0
    ensures r.Rejected? ==> r.error == InvalidInput
    ensures r.Done? ==>
      && r.next.batches.Keys == s.batches.Keys
      && (batchId in s.batches ==> r.next.batches[batchId] == s.batches[batchId].(quantity := quantity))
      && (forall b :: b in s.batches && b != batchId ==> r.next.batches[b] == s.batches[b])
      && r.next == s.(batches := r.next.batches)
    ensures Wf(s) && r.Done? ==> Wf(r.next)
  {
    if quantity < 0 then Rejected(InvalidInput)
    else if batchId in s.batches then
      var t := s.(batches := s.batches[batchId := s.batches[batchId].(quantity := quantity)]);
      WfAfterQuantities(s, t);
      Done(t, ())
    else Done(s, ())
  }

  /**
    PATCH /api/items/:batchId/adjust: a signed change, refused when it is 0,
    when the batch is absent, or when it would take the batch below zero;
    otherwise applied together with one ADJUST movement.
  */
  function AdjustQuantity(s: Store, batchId: Id, qtyChange: int, reason: string): (r: Reply<()>)
    ensures r == Rejected(InvalidInput) <==> qtyChange == 0
    ensures r == Rejected(BatchNotFound) <==> qtyChange != 0 && batchId !in s.batches
    ensures r == Rejected(InsufficientStock) <==>
      qtyChange != 0 && batchId in s.batches && s.batches[batchId].quantity + qtyChange < 0
    ensures r.Done? <==>
      qtyChange != 0 && batchId in s.batches && s.batches[batchId].quantity + qtyChange >= 0
    ensures r.Done? ==>
      && Audited(s, r.next)
      && r.next.movements[|s.movements|] ==
           Movement(s.batches[batchId].itemId, batchId, Adjust, qtyChange, if reason == "" then ManualAdjust else reason)
      && r.next.batches[batchId].quantity >= 0
      && r.next.lines == s.lines
    ensures Wf(s) && r.Done? ==> Wf(r.next)
  {
    var why := if reason == "" then ManualAdjust else reason;
    if qtyChange == 0 then Rejected(InvalidInput)
    else if batchId !in s.batches then Rejected(BatchNotFound)
    else
      var b := s.batches[batchId];
      if b.quantity + qtyChange < 0 then Rejected(InsufficientStock)
      else
        var t := s.(batches := s.batches[batchId := b.(quantity := b.quantity + qtyChange)],
                    movements := s.movements + [Movement(b.itemId, batchId, Adjust, qtyChange, why)]);
        WfAfterQuantities(s, t);
        Done(t, ())
  }

  /* ---------------- work-order lines ---------------- */

  /** Line `lineId` exists and belongs to work order `woId`. */
  predicate OnWorkOrder(s: Store, woId: Id, lineId: Id) {
    lineId in s.lines && s.lines[lineId].workOrderId == woId
  }

  /** The issue handler's lookup, which joins the line with its batch. */
  predicate IssuableLine(s: Store, woId: Id, lineId: Id) {
    OnWorkOrder(s, woId, lineId) && s.lines[lineId].batchId in s.batches
  }

  /** An id the request supplies: present and not 0, which JavaScript reads as missing. */
  predicate Given(id: Option<Id>) { id.Some? && id.value != 0 }

  /** (part_number, batch_number) names an item and one of its batches. */
  predicate Resolves(s: Store, partNumber: string, batchNumber: string) {
    partNumber in s.items && BatchKey(s.items[partNumber], batchNumber) in s.batchIndex
  }

  /**
    POST /api/workorders/:id/lines: a positive quantity is required; unless
    both item and batch ids are given they are looked up by part and batch
    number. Stock is not checked here, and qty_issued starts at 0 (the
    column default the insert relies on).
  */
  function AddLine(s: Store, woId: Id, partNumber: string, batchNumber: string,
                   itemId: Option<Id>, batchId: Option<Id>, qty: int, note: Option<string>): (r: Reply<Id>)
    requires Wf(s)
    ensures r == Rejected(QtyRequired) <==> qty <= 0
    ensures r == Rejected(ItemBatchNotFound) <==>
      qty > 0 && !(Given(itemId) && Given(batchId)) && !Resolves(s, partNumber, batchNumber)
    ensures r.Done? ==>
      && r.value !in s.lines
      && r.value in r.next.lines
      && r.next.lines == s.lines[r.value := r.next.lines[r.value]]
      && r.next == s.(lines := r.next.lines, nextLine := r.next.nextLine)
      && var l := r.next.lines[r.value];
         && l.workOrderId == woId && l.qtyRequested == qty && l.qtyIssued == 0 && l.note == note
         && (Given(itemId) && Given(batchId) ==> l.itemId == itemId.value && l.batchId == batchId.value)
         && (!(Given(itemId) && Given(batchId)) ==>
               && partNumber in s.items && l.itemId == s.items[partNumber]
               && l.batchId in s.batches && s.batches[l.batchId].itemId == l.itemId
               && s.batches[l.batchId].batchNumber == batchNumber)
    ensures r.Done? ==> Wf(r.next)
  {
    if qty <= 0 then Rejected(QtyRequired)
    else if !(Given(itemId) && Given(batchId)) && !Resolves(s, partNumber, batchNumber) then Rejected(ItemBatchNotFound)
    else
      var it := if Given(itemId) && Given(batchId) then itemId.value else s.items[partNumber];
      var bt := if Given(itemId) && Given(batchId) then batchId.value else s.batchIndex[BatchKey(it, batchNumber)];
      var id := s.nextLine;
      WfAfterNewLine(s, Line(woId, it, bt, qty, 0, note));
      Done(s.(lines := s.lines[id := Line(woId, it, bt, qty, 0, note)], nextLine := id + 1), id)
  }

  /** The request goes through exactly when none of the refusals applies. */
  lemma AddLineSucceeds(s: Store, woId: Id, partNumber: string, batchNumber: string,
                         itemId: Option<Id>, batchId: Option<Id>, qty: int, note: Option<string>)
    requires Wf(s)
    ensures AddLine(s, woId, partNumber, batchNumber, itemId, batchId, qty, note).Done? <==>
      qty > 0 && ((Given(itemId) && Given(batchId)) || Resolves(s, partNumber, batchNumber))
  {
  }

  /**
    POST .../lines/:lineId/issue: the batch drops by `qty`, one ISSUE movement
    of `-qty` is appended and the line's qty_issued rises by `qty`. The amount
    issued is not capped at qty_requested.
  */
  function IssueLine(s: Store, woId: Id, lineId: Id, qty: int): (r: Reply<()>)
    ensures r == Rejected(InvalidInput) <==> qty <= 0
    ensures r == Rejected(LineNotFound) <==> qty > 0 && !IssuableLine(s, woId, lineId)
    ensures r == Rejected(InsufficientStock) <==>
      qty > 0 && IssuableLine(s, woId, lineId) && s.batches[s.lines[lineId].batchId].quantity < qty
    ensures r.Done? <==>
      qty > 0 && IssuableLine(s, woId, lineId) && s.batches[s.lines[lineId].batchId].quantity >= qty
    ensures r.Done? ==>
      var l := s.lines[lineId];
      && Audited(s, r.next)
      && r.next.movements[|s.movements|] == Movement(l.itemId, l.batchId, Issue, -qty, WorkOrderReason(woId))
      && r.next.batches[l.batchId].quantity >= 0
      && r.next.lines == s.lines[lineId := l.(qtyIssued := l.qtyIssued + qty)]
    ensures Wf(s) && r.Done? ==> Wf(r.next)
  {
    if qty <= 0 then Rejected(InvalidInput)
    else if !IssuableLine(s, woId, lineId) then Rejected(LineNotFound)
    else
      var l := s.lines[lineId];
      var b := s.batches[l.batchId];
      if b.quantity < qty then Rejected(InsufficientStock)
      else
        var t := s.(batches := s.batches[l.batchId := b.(quantity := b.quantity - qty)],
                    movements := s.movements + [Movement(l.itemId, l.batchId, Issue, -qty, WorkOrderReason(woId))],
                    lines := s.lines[lineId := l.(qtyIssued := l.qtyIssued + qty)]);
        WfAfterQuantities(s, t);
        Done(t, ())
  }

  /**
    POST .../lines/:lineId/return: refused when more is returned than is out
    on the line; otherwise the batch (if it still exists) rises by `qty`, one
    RETURN movement of `+qty` is appended and qty_issued drops by `qty`.
  */
  function ReturnLine(s: Store, woId: Id, lineId: Id, qty: int): (r: Reply<()>)
    ensures r == Rejected(InvalidInput) <==> qty <= 0
    ensures r == Rejected(LineNotFound) <==> qty > 0 && !OnWorkOrder(s, woId, lineId)
    ensures r == Rejected(TooMuchReturn) <==>
      qty > 0 && OnWorkOrder(s, woId, lineId) && s.lines[lineId].qtyIssued < qty
    ensures r.Done? <==>
      qty > 0 && OnWorkOrder(s, woId, lineId) && s.lines[lineId].qtyIssued >= qty
    ensures r.Done? ==>
      var l := s.lines[lineId];
      && Audited(s, r.next)
      && r.next.movements[|s.movements|] == Movement(l.itemId, l.batchId, Return, qty, WorkOrderReason(woId))
      && r.next.lines == s.lines[lineId := l.(qtyIssued := l.qtyIssued - qty)]
      && r.next.lines[lineId].qtyIssued >= 0
    ensures Wf(s) && r.Done? ==> Wf(r.next)
  {
    if qty <= 0 then Rejected(InvalidInput)
    else if !OnWorkOrder(s, woId, lineId) then Rejected(LineNotFound)
    else
      var l := s.lines[lineId];
      if l.qtyIssued < qty then Rejected(TooMuchReturn)
      else
        var batches := if l.batchId in s.batches
                       then s.batches[l.batchId := s.batches[l.batchId].(quantity := s.batches[l.batchId].quantity + qty)]
                       else s.batches;
        var t := s.(batches := batches,
                    movements := s.movements + [Movement(l.itemId, l.batchId, Return, qty, WorkOrderReason(woId))],
                    lines := s.lines[lineId := l.(qtyIssued := l.qtyIssued - qty)]);
        WfAfterQuantities(s, t);
        Done(t, ())
  }

}
