/**
  Application settings (`app_settings`, one text value per key) and the one
  setting the ledger reads: the low-stock threshold.
*/
module Settings {
  import opened Wrappers
  import opened Schema
  import Text

  /** The key under which the low-stock threshold is stored. */
  const LowStockKey := "low_stock_default"

  /** The keys written by a run of upserts. */
  function KeysOf(entries: seq<(string, string)>): set<string> {
    set i | 0 <= i < |entries| :: entries[i].0
  }

  /** Entry `i` is the last one in `entries` with its key. */
  predicate LastFor(entries: seq<(string, string)>, i: int) {
    0 <= i < |entries| && forall j :: i < j < |entries| ==> entries[j].0 != entries[i].0
  }

  /** `m` after one INSERT ... ON CONFLICT (key) DO UPDATE per entry, in order. */
  function Upserted(m: map<string, string>, entries: seq<(string, string)>): (r: map<string, string>)
    ensures r.Keys == m.Keys + KeysOf(entries)
    decreases |entries|
  {
    if entries == [] then m
    else
      var init := entries[..|entries| - 1];
      var last := entries[|entries| - 1];
      KeysOfSnoc(init, last);
      assert entries == init + [last];
      Upserted(m, init)[last.0 := last.1]
  }

  lemma KeysOfSnoc(init: seq<(string, string)>, last: (string, string))
    ensures KeysOf(init + [last]) == KeysOf(init) + {last.0}
  {
    var entries := init + [last];
    forall k | k in KeysOf(entries) ensures k in KeysOf(init) + {last.0} {
      var i :| 0 <= i < |entries| && entries[i].0 == k;
      if i < |init| { assert init[i].0 == k; }
    }
    forall k | k in KeysOf(init) ensures k in KeysOf(entries) {
      var i :| 0 <= i < |init| && init[i].0 == k;
      assert entries[i].0 == k;
    }
    assert entries[|init|].0 == last.0;
  }

  /** Last write wins: every key written holds the value of its last entry. */
  lemma {:induction false} UpsertedLastWins(m: map<string, string>, entries: seq<(string, string)>, i: int)
    requires LastFor(entries, i)
    ensures Upserted(m, entries)[entries[i].0] == entries[i].1
    decreases |entries|
  {
    var init := entries[..|entries| - 1];
    if i < |entries| - 1 {
      assert LastFor(init, i);
      UpsertedLastWins(m, init, i);
    }
  }

  /** Keys no entry writes keep their value. */
  lemma {:induction false} UpsertedKeepsOthers(m: map<string, string>, entries: seq<(string, string)>, k: string)
    requires k in m && k !in KeysOf(entries)
    ensures Upserted(m, entries)[k] == m[k]
    decreases |entries|
  {
    if entries != [] {
      var init := entries[..|entries| - 1];
      KeysOfSnoc(init, entries[|entries| - 1]);
      assert entries == init + [entries[|entries| - 1]];
      UpsertedKeepsOthers(m, init, k);
    }
  }

  /**
    PUT /api/settings: every key of the request body is upserted; a body with
    no key is refused.
  */
  function UpsertSettings(s: Store, entries: seq<(string, string)>): (r: Reply<()>)
    ensures r.Rejected? <==> entries == []
    ensures r.Rejected? ==> r.error == NoData
    ensures r.Done? ==> r.next == s.(settings := Upserted(s.settings, entries))
    ensures Wf(s) && r.Done? ==> Wf(r.next)
  {
    if entries == [] then Rejected(NoData) else Done(s.(settings := Upserted(s.settings, entries)), ())
  }

  /** `setting?.[0]?.value || '0'`: a missing or empty value reads as "0". */
  function ThresholdText(settings: map<string, string>): (text: string)
    ensures text != []
    ensures LowStockKey in settings && settings[LowStockKey] != "" ==> text == settings[LowStockKey]
    ensures LowStockKey !in settings || settings[LowStockKey] == "" ==> text == "0"
  {
    if LowStockKey in settings && settings[LowStockKey] != "" then settings[LowStockKey] else "0"
  }

  /** The low-stock threshold, `parseInt(text, 10)`; `None` is NaN. */
  function Threshold(settings: map<string, string>): (t: Option<int>)
    ensures LowStockKey !in settings || settings[LowStockKey] == "" ==> t == Some(0)
  {
    Text.ParseIntDecimal(0);
    Text.ParseInt(ThresholdText(settings))
  }

  /** Saving a count as the threshold setting makes the report use that count. */
  lemma ThresholdRoundTrip(settings: map<string, string>, entries: seq<(string, string)>, n: int)
    requires LastFor(entries, |entries| - 1) && entries[|entries| - 1] == (LowStockKey, NumberText(n))
    ensures Threshold(Upserted(settings, entries)) == Some(n)
  {
    UpsertedLastWins(settings, entries, |entries| - 1);
    if n >= 0 {
      Text.ParseIntDecimal(n);
    } else {
      Text.ParseIntNegative(-n);
    }
  }

  /** `String(n)` for any integer: a minus sign before the decimal of a negative one. */
  function NumberText(n: int): (s: string)
    ensures s != []
  {
    if n >= 0 then Text.Decimal(n) else "-" + Text.Decimal(-n)
  }

  /** Other keys written after the threshold do not change it. */
  lemma ThresholdUnaffected(settings: map<string, string>, entries: seq<(string, string)>)
    requires LowStockKey !in KeysOf(entries)
    ensures Threshold(Upserted(settings, entries)) == Threshold(settings)
  {
    if LowStockKey in settings {
      UpsertedKeepsOthers(settings, entries, LowStockKey);
    }
  }
}
