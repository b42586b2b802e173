/**
  What the ledger's handlers promise together: the movement log accounts for
  every audited quantity change, audited writes never take stock below zero,
  issue and return undo each other, and the intake upsert is additive.
*/
module LedgerLaws {
  import opened Schema
  import opened Ledger

  /** The three handlers that write a movement. */
  datatype Op =
    | AdjustOp(batchId: Id, qtyChange: int, reason: string)
    | IssueOp(woId: Id, lineId: Id, qty: int)
    | ReturnOp(woId: Id, lineId: Id, qty: int)

  function Step(s: Store, op: Op): Reply<()> {
    match op
    case AdjustOp(b, q, why) => AdjustQuantity(s, b, q, why)
    case IssueOp(w, l, q) => IssueLine(s, w, l, q)
    case ReturnOp(w, l, q) => ReturnLine(s, w, l, q)
  }

  /** One audited request: a rejected one leaves the store as it was. */
  function Apply(s: Store, op: Op): (t: Store)
    ensures t == s || Audited(s, t)
  {
    var r := Step(s, op);
    if r.Done? then r.next else s
  }

  /** A sequence of audited requests, one after the other. */
  function Run(s: Store, ops: seq<Op>): Store
    decreases |ops|
  {
    if ops == [] then s else Run(Apply(s, ops[0]), ops[1..])
  }

  ghost predicate NonNegative(s: Store) {
    forall b :: b in s.batches ==> s.batches[b].quantity >= 0
  }

  lemma {:induction false} DeltaAppend(a: seq<Movement>, c: seq<Movement>, b: Id)
    ensures Delta(a + c, b) == Delta(a, b) + Delta(c, b)
  {
    if c == [] {
      assert a + c == a;
    } else {
      DeltaAppend(a, c[..|c| - 1], b);
      assert (a + c)[..|a + c| - 1] == a + c[..|c| - 1];
    }
  }

  lemma DeltaSingle(m: Movement, b: Id)
    ensures Delta([m], b) == Effect(m, b)
  {
    assert [m][..0] == [];
  }

  /** One request: the log grows by what the batch moved, and nothing earlier changes. */
  lemma ApplyConserves(s: Store, op: Op, b: Id)
    requires b in s.batches
    ensures var t := Apply(s, op);
      && |s.movements| <= |t.movements|
      && t.movements[..|s.movements|] == s.movements
      && t.batches.Keys == s.batches.Keys
      && t.batches[b] == s.batches[b].(quantity := s.batches[b].quantity + Delta(t.movements[|s.movements|..], b))
  {
    var t := Apply(s, op);
    var n := |s.movements|;
    if t == s {
      assert s.movements[n..] == [];
    } else {
      DeltaSingle(t.movements[n], b);
      assert t.movements[n..] == [t.movements[n]];
    }
  }

  /** Two logs, each extending the one before, chain into one extension. */
  lemma PrefixChain(a: seq<Movement>, m: seq<Movement>, c: seq<Movement>)
    requires |a| <= |m| && m[..|a|] == a
    requires |m| <= |c| && c[..|m|] == m
    ensures c[..|a|] == a
    ensures c[|a|..] == m[|a|..] + c[|m|..]
  {
    assert c[..|a|] == c[..|m|][..|a|];
  }

  /**
    Conservation: after any sequence of adjust, issue and return requests, a
    batch's quantity is its quantity before plus the sum of the `qtyChange`
    of the movements appended on it, and the earlier log is untouched.
  */
  lemma {:induction false} RunConserves(s: Store, ops: seq<Op>, b: Id)
    requires b in s.batches
    ensures var t := Run(s, ops);
      && |s.movements| <= |t.movements|
      && t.movements[..|s.movements|] == s.movements
      && t.batches.Keys == s.batches.Keys
      && t.batches[b] == s.batches[b].(quantity := s.batches[b].quantity + Delta(t.movements[|s.movements|..], b))
    decreases |ops|
  {
    if ops == [] {
      assert s.movements[|s.movements|..] == [];
    } else {
      var s1 := Apply(s, ops[0]);
      var t := Run(s1, ops[1..]);
      ApplyConserves(s, ops[0], b);
      RunConserves(s1, ops[1..], b);
      PrefixChain(s.movements, s1.movements, t.movements);
      DeltaAppend(s1.movements[|s.movements|..], t.movements[|s1.movements|..], b);
    }
  }

  lemma ApplyKeepsNonNegative(s: Store, op: Op)
    requires NonNegative(s)
    ensures NonNegative(Apply(s, op))
  {
    var r := Step(s, op);
    if r.Done? {
      var t := r.next;
      forall b | b in t.batches ensures t.batches[b].quantity >= 0 {
        var m := t.movements[|s.movements|];
        if b == m.batchId {
          match op
          case AdjustOp(_, _, _) =>
          case IssueOp(_, _, _) =>
          case ReturnOp(_, _, q) =>
        }
      }
    }
  }

  /** Audited requests never take a batch below zero. */
  lemma {:induction false} RunKeepsNonNegative(s: Store, ops: seq<Op>)
    requires NonNegative(s)
    ensures NonNegative(Run(s, ops))
    decreases |ops|
  {
    if ops != [] {
      ApplyKeepsNonNegative(s, ops[0]);
      RunKeepsNonNegative(Apply(s, ops[0]), ops[1..]);
    }
  }

  /** Audited requests keep the database's integrity, in particular qty_issued >= 0 on every line. */
  lemma {:induction false} RunKeepsWf(s: Store, ops: seq<Op>)
    requires Wf(s)
    ensures Wf(Run(s, ops))
    decreases |ops|
  {
    if ops != [] {
      var r := Step(s, ops[0]);
      assert Wf(Apply(s, ops[0]));
      RunKeepsWf(Apply(s, ops[0]), ops[1..]);
    }
  }

  lemma UpdateBack<K, V>(m: map<K, V>, k: K, v: V)
    requires k in m
    ensures m[k := v][k := m[k]] == m
  {
  }

  /**
    Moves `d` into batch `b` and out of line `lineId`'s qty_issued, logging `m`;
    a batch that no longer exists is left alone.
  */
  function Transfer(s: Store, b: Id, lineId: Id, d: int, m: Movement): Store
    requires lineId in s.lines
  {
    s.(batches := if b in s.batches then s.batches[b := s.batches[b].(quantity := s.batches[b].quantity + d)] else s.batches,
       movements := s.movements + [m],
       lines := s.lines[lineId := s.lines[lineId].(qtyIssued := s.lines[lineId].qtyIssued - d)])
  }

  /** The store a successful issue leaves, written out. */
  lemma IssueShape(s: Store, woId: Id, lineId: Id, qty: int)
    requires IssueLine(s, woId, lineId, qty).Done?
    ensures var l := s.lines[lineId];
      && l.batchId in s.batches
      && IssueLine(s, woId, lineId, qty).next ==
         Transfer(s, l.batchId, lineId, -qty, Movement(l.itemId, l.batchId, Issue, -qty, WorkOrderReason(woId)))
  {
  }

  /** The store a successful return leaves, written out; the batch moves only when it exists. */
  lemma ReturnShape(s: Store, woId: Id, lineId: Id, qty: int)
    requires ReturnLine(s, woId, lineId, qty).Done?
    ensures var l := s.lines[lineId];
      ReturnLine(s, woId, lineId, qty).next ==
         Transfer(s, l.batchId, lineId, qty, Movement(l.itemId, l.batchId, Return, qty, WorkOrderReason(woId)))
  {
  }

  /** Issue then return of the same quantity, written out: only the two movements remain. */
  lemma IssueReturnShape(s: Store, woId: Id, lineId: Id, qty: int)
    requires IssueLine(s, woId, lineId, qty).Done? && s.lines[lineId].qtyIssued >= 0
    ensures var t := IssueLine(s, woId, lineId, qty).next;
      var l := s.lines[lineId];
      && ReturnLine(t, woId, lineId, qty).Done?
      && ReturnLine(t, woId, lineId, qty).next ==
           s.(movements := s.movements + [Movement(l.itemId, l.batchId, Issue, -qty, WorkOrderReason(woId)),
                                          Movement(l.itemId, l.batchId, Return, qty, WorkOrderReason(woId))])
  {
    var l := s.lines[lineId];
    var m1 := Movement(l.itemId, l.batchId, Issue, -qty, WorkOrderReason(woId));
    var m2 := Movement(l.itemId, l.batchId, Return, qty, WorkOrderReason(woId));
    IssueShape(s, woId, lineId, qty);
    var t := Transfer(s, l.batchId, lineId, -qty, m1);
    assert t.lines[lineId] == l.(qtyIssued := l.qtyIssued + qty);
    ReturnShape(t, woId, lineId, qty);
    TransferBack(s, l.batchId, lineId, qty, m1, m2);
  }

  /** Moving `d` out and back again leaves only the two log entries. */
  lemma TransferBack(s: Store, b: Id, lineId: Id, d: int, m1: Movement, m2: Movement)
    requires b in s.batches && lineId in s.lines
    ensures Transfer(Transfer(s, b, lineId, -d, m1), b, lineId, d, m2) == s.(movements := s.movements + [m1, m2])
  {
    var x := s.batches[b];
    var l := s.lines[lineId];
    assert x.(quantity := x.quantity - d).(quantity := x.quantity - d + d) == x;
    assert l.(qtyIssued := l.qtyIssued + d).(qtyIssued := l.qtyIssued + d - d) == l;
    UpdateBack(s.batches, b, x.(quantity := x.quantity - d));
    UpdateBack(s.lines, lineId, l.(qtyIssued := l.qtyIssued + d));
    assert s.movements + [m1] + [m2] == s.movements + [m1, m2];
  }

  /**
    Issuing `qty` on a line and then returning `qty` restores the batches and
    the lines; the two movements it leaves in the log cancel out.
  */
  lemma IssueThenReturn(s: Store, woId: Id, lineId: Id, qty: int)
    requires Wf(s) && IssueLine(s, woId, lineId, qty).Done?
    ensures var t := IssueLine(s, woId, lineId, qty).next;
      var u := ReturnLine(t, woId, lineId, qty);
      && u.Done?
      && u.next.batches == s.batches
      && u.next.lines == s.lines
      && |u.next.movements| == |s.movements| + 2
      && u.next.movements[..|s.movements|] == s.movements
      && u.next.movements[|s.movements|].qtyChange + u.next.movements[|s.movements| + 1].qtyChange == 0
  {
    assert s.lines[lineId].qtyIssued >= 0;
    IssueReturnShape(s, woId, lineId, qty);
    var t := IssueLine(s, woId, lineId, qty).next;
    var u := ReturnLine(t, woId, lineId, qty).next;
    assert u.movements[..|s.movements|] == s.movements;
  }

  /**
    Two intakes of the same part and batch number leave one batch holding
    what it held before plus both quantities, with one item for the part
    number and no movement written.
  */
  lemma IntakeTwiceAccumulates(s: Store, partNumber: string, batchNumber: string, q1: int, q2: int)
    requires Wf(s) && partNumber != "" && batchNumber != ""
    ensures var r1 := IntakeStock(s, partNumber, batchNumber, q1);
      && r1.Done?
      && var r2 := IntakeStock(r1.next, partNumber, batchNumber, q2);
      && r2.Done?
      && r2.value == r1.value
      && r2.next.batches.Keys == s.batches.Keys + {r1.value.batchId}
      && r2.next.batches[r1.value.batchId].quantity == OnHand(s, BatchKey(r1.value.itemId, batchNumber)) + q1 + q2
      && r2.next.items.Keys == s.items.Keys + {partNumber}
      && r2.next.movements == s.movements
  {
    var r1 := IntakeStock(s, partNumber, batchNumber, q1);
    var r2 := IntakeStock(r1.next, partNumber, batchNumber, q2);
    var key := BatchKey(r1.value.itemId, batchNumber);
    assert partNumber in r1.next.items && r1.next.items[partNumber] == r1.value.itemId;
    assert r2.value.itemId == r1.value.itemId;
    assert key in r1.next.batchIndex && r1.next.batchIndex[key] == r1.value.batchId;
    assert OnHand(r1.next, key) == OnHand(s, key) + q1;
    assert r2.value.batchId == r1.value.batchId;
  }

  /** A new part and batch number: the batch holds exactly q1 + q2. */
  lemma IntakeTwiceFresh(s: Store, partNumber: string, batchNumber: string, q1: int, q2: int)
    requires Wf(s) && partNumber != "" && batchNumber != ""
    requires partNumber !in s.items
    ensures var r1 := IntakeStock(s, partNumber, batchNumber, q1);
      var r2 := IntakeStock(r1.next, partNumber, batchNumber, q2);
      r2.Done? && r2.next.batches[r2.value.batchId].quantity == q1 + q2
  {
    var r1 := IntakeStock(s, partNumber, batchNumber, q1);
    var key := BatchKey(r1.value.itemId, batchNumber);
    assert key !in s.batchIndex;
    IntakeTwiceAccumulates(s, partNumber, batchNumber, q1, q2);
  }

  /** Intake takes a negative quantity as given, so it can leave a batch below zero. */
  lemma IntakeCanGoNegative(s: Store, partNumber: string, batchNumber: string, quantity: int)
    requires Wf(s) && partNumber != "" && batchNumber != "" && partNumber !in s.items
    requires quantity < 0
    ensures var r := IntakeStock(s, partNumber, batchNumber, quantity);
      r.Done? && !NonNegative(r.next)
  {
    var r := IntakeStock(s, partNumber, batchNumber, quantity);
    assert BatchKey(r.value.itemId, batchNumber) !in s.batchIndex;
    assert r.value.batchId in r.next.batches;
  }

  /** Issue checks stock but not the line's request: qty_issued may pass qty_requested. */
  lemma IssueMayExceedRequest(s: Store, woId: Id, lineId: Id, qty: int)
    requires qty > 0 && IssuableLine(s, woId, lineId)
    requires s.batches[s.lines[lineId].batchId].quantity >= qty
    requires s.lines[lineId].qtyIssued + qty > s.lines[lineId].qtyRequested
    ensures var r := IssueLine(s, woId, lineId, qty);
      r.Done? && r.next.lines[lineId].qtyIssued > r.next.lines[lineId].qtyRequested
  {
  }
}
