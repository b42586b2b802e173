/**
  Work orders: creation (status coercion and the "WO-ddddd" code probe) and
  the status update.
*/
module WorkOrders {
  import opened Wrappers
  import opened Schema
  import Text

  /** The creation handler draws at most this many candidate codes. */
  const MaxTries := 8

  function StatusName(st: Status): string {
    match st
    case Draft => "draft"
    case Issued => "issued"
    case Closed => "closed"
  }

  predicate IsStatusName(raw: string) {
    raw == "draft" || raw == "issued" || raw == "closed"
  }

  /** Creation keeps a known status and silently turns anything else into draft. */
  function CoerceStatus(raw: string): (st: Status)
    ensures IsStatusName(raw) ==> StatusName(st) == raw
    ensures !IsStatusName(raw) ==> st == Draft
  {
    if raw == "issued" then Issued else if raw == "closed" then Closed else Draft
  }

  /** The status update reads a missing (empty) status as draft and rejects any other unknown one. */
  function ParseStatus(raw: string): (r: Option<Status>)
    ensures raw == "" ==> r == Some(Draft)
    ensures raw != "" ==> (r.Some? <==> IsStatusName(raw))
    ensures raw != "" && r.Some? ==> StatusName(r.value) == raw
  {
    var name := if raw == "" then "draft" else raw;
    if name == "draft" then Some(Draft)
    else if name == "issued" then Some(Issued)
    else if name == "closed" then Some(Closed)
    else None
  }

  /** Both readings agree on every name a status is stored under. */
  lemma StatusNamesRoundTrip(st: Status)
    ensures CoerceStatus(StatusName(st)) == st
    ensures ParseStatus(StatusName(st)) == Some(st)
  {
  }

  /** What creation accepts as draft, the status update refuses. */
  lemma CoerceAcceptsWhatParseRejects(raw: string)
    requires raw != "" && !IsStatusName(raw)
    ensures CoerceStatus(raw) == Draft && ParseStatus(raw) == None
  {
  }

  /* ---------------- code generation ---------------- */

  /**
    The values `Math.floor(100000 + Math.random() * 900000)` takes, one per
    probe: six-digit numbers, at least as many as the handler may draw.
  */
  predicate ValidDraws(draws: seq<int>) {
    |draws| >= MaxTries && forall i :: 0 <= i < |draws| ==> 100000 <= draws[i] <= 999999
  }

  /** "WO-" followed by exactly five decimal digits. */
  predicate IsWorkOrderCode(code: string) {
    |code| == 8 && code[..3] == "WO-" && Text.AllDigits(code[3..])
  }

  /** `'WO-' + String(n).slice(1)`: the last five digits of a six-digit draw. */
  function CandidateCode(n: int): (code: string)
    requires 100000 <= n <= 999999
    ensures IsWorkOrderCode(code)
    ensures Text.ValueOf(code[3..]) == n % 100000
  {
    Text.LastFiveDigits(n);
    var code := "WO-" + Text.Decimal(n)[1..];
    assert code[3..] == Text.Decimal(n)[1..];
    code
  }

  /** The index of the probe at which the loop stops, counting from `i`. */
  function FirstFreeFrom(used: set<string>, draws: seq<int>, i: nat): (k: nat)
    requires ValidDraws(draws) && i < MaxTries
    ensures i <= k < MaxTries
    ensures forall j :: i <= j < k ==> CandidateCode(draws[j]) in used
    ensures CandidateCode(draws[k]) !in used || k == MaxTries - 1
    decreases MaxTries - i
  {
    if CandidateCode(draws[i]) !in used || i == MaxTries - 1 then i else FirstFreeFrom(used, draws, i + 1)
  }

  /**
    The probe the loop stops at: the first unused candidate among the first
    eight, or the eighth when all of them are taken.
  */
  function FirstFree(used: set<string>, draws: seq<int>): (k: nat)
    requires ValidDraws(draws)
    ensures k < MaxTries
    ensures forall j :: 0 <= j < k ==> CandidateCode(draws[j]) in used
    ensures CandidateCode(draws[k]) !in used || k == MaxTries - 1
  {
    FirstFreeFrom(used, draws, 0)
  }

  function GeneratedCode(used: set<string>, draws: seq<int>): (code: string)
    requires ValidDraws(draws)
    ensures IsWorkOrderCode(code)
  {
    CandidateCode(draws[FirstFree(used, draws)])
  }

  /** A generated code can only collide with a used one after all eight probes collided. */
  lemma GeneratedCollidesOnlyAfterAllProbes(used: set<string>, draws: seq<int>)
    requires ValidDraws(draws) && GeneratedCode(used, draws) in used
    ensures forall j :: 0 <= j < MaxTries ==> CandidateCode(draws[j]) in used
  {
  }

  /**
    The probe loop of the creation handler: draw a candidate, look it up,
    stop at the first one not in use or after eight tries.
  */
  method GenerateCode(used: set<string>, draws: seq<int>) returns (code: string, tries: nat)
    requires ValidDraws(draws)
    ensures 1 <= tries <= MaxTries
    ensures tries == FirstFree(used, draws) + 1
    ensures code == CandidateCode(draws[tries - 1])
    ensures code !in used || tries == MaxTries
  {
    tries := 0;
    code := "";
    var taken := true;
    while taken && tries < MaxTries
      invariant 0 <= tries <= MaxTries
      invariant tries == 0 ==> taken
      invariant tries > 0 ==> code == CandidateCode(draws[tries - 1]) && taken == (code in used)
      invariant taken && tries < MaxTries ==> FirstFree(used, draws) == FirstFreeFrom(used, draws, tries)
      invariant taken && tries == MaxTries ==> FirstFree(used, draws) == MaxTries - 1
      invariant !taken ==> FirstFree(used, draws) == tries - 1
    {
      code := CandidateCode(draws[tries]);
      taken := code in used;
      tries := tries + 1;
    }
  }

  /* ---------------- handlers ---------------- */

  function UsedCodes(s: Store): set<string> {
    set w | w in s.workOrders :: s.workOrders[w].code
  }

  /** The code creation inserts: the given one, or the generated one when none is given. */
  function ChosenCode(s: Store, code: string, draws: seq<int>): (chosen: string)
    requires ValidDraws(draws)
    ensures code != "" ==> chosen == code
    ensures code == "" ==> IsWorkOrderCode(chosen) && chosen == CandidateCode(draws[FirstFree(UsedCodes(s), draws)])
  {
    if code == "" then GeneratedCode(UsedCodes(s), draws) else code
  }

  /**
    POST /api/workorders: coerce the status, generate a code when none is
    given, and insert; a code already in use is refused by the unique
    constraint.
  */
  function CreateWorkOrder(s: Store, code: string, status: string, requestedBy: Option<string>,
                           draws: seq<int>): (r: Reply<Id>)
    requires Wf(s) && ValidDraws(draws)
    ensures r.Rejected? <==> ChosenCode(s, code, draws) in UsedCodes(s)
    ensures r.Rejected? ==> r.error == CodeExists
    ensures r.Done? ==>
      && r.value !in s.workOrders
      && r.next == s.(workOrders := s.workOrders[r.value := WorkOrder(ChosenCode(s, code, draws), CoerceStatus(status), requestedBy)],
                      nextWorkOrder := r.next.nextWorkOrder)
      && Wf(r.next)
    ensures r.Done? && code == "" ==> IsWorkOrderCode(r.next.workOrders[r.value].code)
  {
    var c := ChosenCode(s, code, draws);
    if c in UsedCodes(s) then Rejected(CodeExists)
    else
      var id := s.nextWorkOrder;
      WfAfterNewWorkOrder(s, WorkOrder(c, CoerceStatus(status), requestedBy));
      Done(s.(workOrders := s.workOrders[id := WorkOrder(c, CoerceStatus(status), requestedBy)], nextWorkOrder := id + 1), id)
  }

  /**
    PUT /api/workorders/:id/status: an unknown status is refused; an id
    matching no work order updates nothing and still succeeds.
  */
  function SetStatus(s: Store, id: Id, status: string): (r: Reply<()>)
    ensures r.Rejected? <==> ParseStatus(status).None?
    ensures r.Rejected? ==> r.error == InvalidInput
    ensures r.Done? ==>
      && r.next.workOrders.Keys == s.workOrders.Keys
      && (id in s.workOrders ==> r.next.workOrders[id] == s.workOrders[id].(status := ParseStatus(status).value))
      && (forall w :: w in s.workOrders && w != id ==> r.next.workOrders[w] == s.workOrders[w])
      && r.next == s.(workOrders := r.next.workOrders)
    ensures Wf(s) && r.Done? ==> Wf(r.next)
  {
    match ParseStatus(status)
    case None => Rejected(InvalidInput)
    case Some(st) =>
      if id in s.workOrders then Done(s.(workOrders := s.workOrders[id := s.workOrders[id].(status := st)]), ())
      else Done(s, ())
  }
}
