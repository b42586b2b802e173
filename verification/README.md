# Stock ledger of the aircraft-inventory backend

`server.js` is an Express service over a SQL database. Its handlers keep an
inventory of parts: items (by part number), batches of an item (by batch
number) with a quantity on hand, work orders with lines that request stock
from one batch, an append-only log of stock movements, and a table of
application settings. This project models the business rules inside those
handlers as operations on an abstract store and proves what they promise.

- `schema.dfy` (module `Schema`): the tables as one value `Store` (maps for
  the keyed tables, a sequence for the movement log, serial counters for the
  generated ids), the error answers, `Reply` (the next store and the answer,
  or a rejection that writes nothing) and `Wf`, the integrity of the store.
  The table definitions are not part of this model, so `Wf` assumes the
  constraints the handlers rely on: serial ids below their counters, the
  unique key (item_id, batch_number) the intake upsert conflicts on, and
  unique work-order codes, and a new line's `qty_issued` defaulting to 0, which the insert at server.js:325-327 does not write. It adds the line invariants the handlers' guards
  keep: a positive `qty_requested` (server.js:309) and a non-negative
  `qty_issued` (server.js:401).
- `ledger.dfy` (module `Ledger`): intake (find-or-create the item, then upsert
  the batch additively), the absolute quantity PUT, the signed adjust, adding
  a line, and issue and return on a line, each as one step function.
- `work_orders.dfy` (module `WorkOrders`): the status coercion of creation and
  the strict status parse of the status update, the `WO-ddddd` code
  formatting, the probe loop of at most eight tries (as a method with loop
  invariants, proved against the function `FirstFree`), creation and the
  status update.
- `settings.dfy` (module `Settings`): the settings upsert (last write per key
  wins) and the low-stock threshold read back with `parseInt`.
- `reports.dfy` (module `Reports`): the low-stock report, the join of batches
  with their item's part number, filtered at the threshold and sorted by
  quantity.
- `text.dfy` (module `Text`): `String(n)` for non-negative integers and
  `parseInt(s, 10)`, with their round trip.
- `ledger_laws.dfy` (module `LedgerLaws`): properties across several
  requests. The log accounts for every audited change. Audited requests keep
  stock non-negative. Issue and return undo each other. Intake is additive.
- `service.dfy` (module `Service`): the class `Inventory`, whose fields are
  the tables. Each handler is a method that checks its guards and then
  writes the fields one after the other. Each method is proved to leave the
  store, and give the answer, that the matching step function prescribes
  (the predicate `Schema.Answers`), and to keep `Wf`.
- `wrappers.dfy`: `Option` and `Result`.

Randomness is a parameter: the creation handler's `Math.random()` draws are
given as a sequence `draws` of six-digit numbers. The order in which the
database reads the batches table is a parameter `scan` of the report. HTTP
status codes become the constructors of `Schema.Error`.

Three behaviours of `server.js` worth stating plainly:
- the low-stock report reads its threshold only from the `low_stock_default`
  setting (server.js:452-453);
- creation stores the request's status, coerced to draft when it is not a
  known one (server.js:217-218);
- a generated code that still collides after eight probes is inserted
  anyway and refused by the unique constraint with `code_exists`
  (server.js:222-243).

## Model

| member | source | states |
|---|---|---|
| Ledger.IntakeStock | server.js:89-120 | Refused with `part_number_and_batch_required` exactly when the part or batch number is missing. Otherwise the item is the existing one for that part number, or a new one whose id no item has. The batch is the one the key (item, batch number) already names, or a new row whose id no batch has. The batch under (item, batch number) ends with its old quantity (0 if new) plus the given quantity, which may be negative. No other batch changes, no movement is written, and the integrity is kept. |
| Ledger.FindOrCreateItem | server.js:97-104 | An existing part number gives its id and leaves the store alone. A new one gets an id that no item and no batch uses. Only the items change. |
| Ledger.UpsertBatch | server.js:106-113 | On a conflicting key it returns the batch the key already names. On a new key it returns a fresh id no batch has, so a new row is inserted. Afterwards the key indexes the returned batch, which holds the previous on-hand quantity (0 for a new key) plus the added quantity. Every other batch is unchanged. |
| Ledger.UpsertBatchIndex | server.js:107-113 | The upsert changes the index only by pointing the key at the returned batch. |
| Ledger.SetQuantity | server.js:123-136 | Refused (`invalid_input`) exactly when the quantity is negative. Otherwise only that batch's quantity is overwritten: nothing else, no movement. An unknown batch id changes nothing and still succeeds. |
| Ledger.AdjustQuantity | server.js:139-170 | Each refusal holds exactly in its case: a zero change (`invalid_input`), an absent batch (`batch_not_found`), a result below zero (`insufficient_stock`). It succeeds exactly when none of them holds. On success it is one audited write. It appends one ADJUST movement with the change and the reason (default `Manual adjust`). The batch moves by exactly that change and stays >= 0. |
| Ledger.AddLine | server.js:302-335 | Refused when qty <= 0 (`qty_required`). Also refused when item and batch ids are not both given and (part number, batch number) does not resolve (`item_batch_not_found`). On success it inserts one new line with qty_issued 0, on the given ids or on the resolved item and its batch. Nothing else changes. |
| Ledger.AddLineSucceeds | server.js:309-330 | On a well-formed store, adding a line succeeds exactly when qty > 0 and either both ids are given or the part and batch numbers resolve. |
| Ledger.IssueLine | server.js:353-383 | Each refusal holds exactly in its case: qty <= 0, no such line on the work order with an existing batch (`line_not_found`), stock below qty (`insufficient_stock`). It succeeds exactly when none of them holds. On success it is one audited write. It appends ISSUE with `-qty` and reason `WO-<id>`. The batch drops by qty and stays >= 0. qty_issued rises by qty, with no cap at qty_requested. |
| Ledger.ReturnLine | server.js:386-414 | Each refusal holds exactly in its case: qty <= 0, no such line on the work order, qty above qty_issued (`too_much_return`). It succeeds exactly when none of them holds. On success it is one audited write. It appends RETURN with `+qty` and reason `WO-<id>`. The batch rises by qty when it exists. qty_issued drops by qty and stays >= 0. |
| Ledger.ReasonNamesWorkOrder | server.js:375 | The reason of an issue or return movement is `WO-` followed by digits whose value is the work-order id. |
| LedgerLaws.Apply | server.js:139-414 | A request to adjust, issue or return either leaves the store unchanged or is one audited write. |
| LedgerLaws.ApplyConserves | server.js:160-164 | After one request, a batch has moved by exactly the sum of the movements logged for it, and the earlier log is untouched. |
| LedgerLaws.RunConserves | server.js:372-377 | Over any sequence of adjust, issue and return requests, a batch's final quantity is its initial quantity plus the sum of the qty_change of the movements appended on it. The earlier log is unchanged. |
| LedgerLaws.ApplyKeepsNonNegative | server.js:156-158 | One adjust, issue or return never takes a batch of a non-negative store below zero. |
| LedgerLaws.RunKeepsNonNegative | server.js:370 | No sequence of adjust, issue and return requests takes any batch below zero. |
| LedgerLaws.RunKeepsWf | server.js:401 | No sequence of adjust, issue and return requests breaks the integrity; in particular qty_issued stays >= 0 on every line. |
| LedgerLaws.IssueShape | server.js:372-377 | The store a successful issue leaves, with the line's batch present: a transfer of `-qty` into the batch and out of qty_issued, plus the ISSUE movement. |
| LedgerLaws.ReturnShape | server.js:403-408 | The store a successful return leaves: a transfer of `+qty`, plus the RETURN movement. |
| LedgerLaws.IssueReturnShape | server.js:372-408 | An issue of qty is always followed by a successful return of qty. The result differs from the start only by the ISSUE and RETURN movements appended to the log. |
| LedgerLaws.IssueThenReturn | server.js:372-408 | Issue q then return q restores every batch and every line. The two appended movements sum to 0, and the earlier log is unchanged. |
| LedgerLaws.IntakeTwiceAccumulates | server.js:98-113 | Both intakes of one part and batch number succeed and return the same item and batch ids. The batch holds its old quantity plus q1 + q2, the only new item is that part number, and the log is unchanged. |
| LedgerLaws.IntakeTwiceFresh | server.js:106-113 | For a new part number the batch ends at exactly q1 + q2. |
| LedgerLaws.IntakeCanGoNegative | server.js:109 | Intake of a negative quantity succeeds and leaves a batch below zero. |
| LedgerLaws.IssueMayExceedRequest | server.js:361-377 | Issue is accepted even when qty_issued then passes qty_requested. |
| WorkOrders.CoerceStatus | server.js:218 | Creation keeps `draft`, `issued` or `closed` as given and turns any other status into draft. |
| WorkOrders.ParseStatus | server.js:265-266 | The status update reads a missing status as draft. It accepts exactly the three names and reads each as that status. |
| WorkOrders.StatusNamesRoundTrip | server.js:218 | Both readings give back every status from its stored name. |
| WorkOrders.CoerceAcceptsWhatParseRejects | server.js:265-268 | A non-empty unknown status is coerced to draft on creation and refused by the status update. |
| WorkOrders.CandidateCode | server.js:224 | A six-digit draw n yields `WO-` followed by exactly five digits, whose value is n mod 100000. |
| WorkOrders.FirstFreeFrom | server.js:223-228 | Counting from probe i, it is the first probe whose candidate is unused, or the eighth. Every probe before it collided. |
| WorkOrders.FirstFree | server.js:222-229 | The probe the loop stops at is below eight. Every earlier candidate is in use, and the stopping one is unused unless it is the eighth. |
| WorkOrders.GeneratedCode | server.js:220-230 | The generated code has the form `WO-ddddd`. |
| WorkOrders.GeneratedCollidesOnlyAfterAllProbes | server.js:222-229 | A generated code can be in use only if all eight candidates were in use. |
| WorkOrders.GenerateCode | server.js:222-229 | The probe loop makes between 1 and 8 tries, stops at `FirstFree`, and returns that probe's candidate. That candidate is unused unless all eight tries were made. |
| WorkOrders.ChosenCode | server.js:220-230 | A given code is used as it is. With no code, the code is the candidate of the probe the loop stops at, of the form `WO-ddddd`. |
| WorkOrders.CreateWorkOrder | server.js:215-246 | Refused with `code_exists` exactly when the chosen code (given or generated) is already in use. Otherwise it inserts one work order under a fresh id with the coerced status, and the integrity is kept. A generated code has the form `WO-ddddd`. |
| WorkOrders.SetStatus | server.js:262-275 | Refused (`invalid_input`) exactly when the status does not parse. Otherwise only that work order's status changes, and an unknown id changes nothing. |
| Settings.Upserted | server.js:434-440 | The keys after the upserts are the old keys plus every key written. |
| Settings.UpsertedLastWins | server.js:434-440 | Each key written holds the value of its last entry. |
| Settings.UpsertedKeepsOthers | server.js:434-440 | Keys not written keep their value. |
| Settings.UpsertSettings | server.js:428-446 | Refused with `no_data` exactly when the body has no key. Otherwise only the settings change, by the upserts in order. |
| Settings.Threshold | server.js:452-453 | With no `low_stock_default`, or an empty one, the threshold is 0. |
| Settings.ThresholdText | server.js:453 | The text handed to `parseInt` is the stored `low_stock_default` value when that is present and non-empty, and `"0"` otherwise; it is never empty. |
| Settings.ThresholdRoundTrip | server.js:452-453 | Saving the decimal text of an integer n as the last `low_stock_default` makes the threshold n. |
| Settings.ThresholdUnaffected | server.js:434-453 | Upserting other keys leaves the threshold as it was. |
| Reports.Filtered | server.js:459 | Keeps each row with quantity <= t as often as it occurred and drops every other row. |
| Reports.Insert | server.js:460 | Inserting into an ascending sequence gives an ascending sequence with the same rows plus the new one. |
| Reports.SortByQuantity | server.js:460 | The result is ascending by quantity and a permutation of the input. |
| Reports.LowStock | server.js:459-460 | The result is ascending. It holds each row with quantity <= t exactly as often as the input does, and no other row. |
| Reports.PartNumberOf | server.js:458 | The join finds a part number exactly when some item has that id, and the one it finds has that id. |
| Reports.RowDeterminesBatch | server.js:455-458 | Two batches never give the same joined row. |
| Reports.JoinRows | server.js:455-458 | The scan of `batches JOIN items` gives at most one row per scanned batch; `JoinRowsSound`, `JoinRowsComplete` and `JoinRowsExact` show its rows are exactly those of the join. |
| Reports.JoinRowsSound | server.js:455-458 | Every joined row comes from a scanned batch whose item exists. |
| Reports.JoinRowsComplete | server.js:455-458 | Every scanned batch whose item exists contributes its row. |
| Reports.JoinRowsDistinct | server.js:455-458 | A scan that visits each batch once yields each row once. |
| Reports.JoinRowsExact | server.js:455-458 | A full scan yields exactly the rows of `batches JOIN items`. |
| Reports.LowStockReport | server.js:450-467 | Fails exactly when the threshold text is not a number (the query's `db_error`). Otherwise the rows are ascending by quantity and each appears once. They are exactly the joined rows at or below the threshold. |
| Reports.ReportRows | server.js:455-460 | At threshold t, each joined row with quantity <= t is listed once, and no other row is listed. |
| Reports.LowStockDistinct | server.js:459-460 | Filtering and sorting keep rows distinct. |
| Reports.DefaultThresholdIsZero | server.js:452-460 | With no threshold saved, the report succeeds and lists exactly the joined rows with quantity <= 0. |
| Text.Decimal | server.js:224 | `String(n)` is a non-empty run of digits, and it starts with 0 only for n = 0. |
| Text.ValueOfDecimal | server.js:224 | The digits of `String(n)` read back as n. |
| Text.DecimalLength | server.js:224 | A number between 10^k and 10^(k+1) has k + 1 digits. |
| Text.LastFiveDigits | server.js:224 | `String(n).slice(1)` of a six-digit n has the value n mod 100000. |
| Text.ParseIntStopsAtNonDigit | server.js:453 | `parseInt` reads a run of digits and stops at the first non-digit. |
| Text.ParseIntDecimal | server.js:453 | `parseInt(String(n), 10) == n` for every n >= 0. |
| Text.ParseIntNegative | server.js:453 | `parseInt("-" + String(n), 10) == -n`. |
| Text.ParseInt | server.js:453 | Blank text reads as NaN. Text whose first non-space character is a digit reads as the value of its leading run of digits. |
| Text.ParseIntNaN | server.js:453 | `parseInt` gives NaN exactly when, after the leading spaces and an optional sign, no digit follows. |
| Text.ParseIntSigned | server.js:453 | A sign followed by digits reads as the value of the digits, negated after `-`. |
| Service.Inventory.IntakeStock | server.js:89-120 | Updates the tables and answers exactly as `Ledger.IntakeStock` prescribes, and keeps the integrity. |
| Service.Inventory.FindOrCreateItem | server.js:97-104 | Leaves the tables and returns the id that `Ledger.FindOrCreateItem` prescribes. |
| Service.Inventory.UpsertBatch | server.js:106-113 | Leaves the tables and returns the id that `Ledger.UpsertBatch` prescribes. |
| Service.Inventory.SetQuantity | server.js:123-136 | Updates the tables and answers exactly as `Ledger.SetQuantity` prescribes. |
| Service.Inventory.AdjustQuantity | server.js:139-170 | Updates the tables and answers exactly as `Ledger.AdjustQuantity` prescribes. |
| Service.Inventory.CreateWorkOrder | server.js:215-246 | Runs the probe loop when no code is given, then updates the tables and answers exactly as `WorkOrders.CreateWorkOrder` prescribes. |
| Service.Inventory.SetStatus | server.js:262-275 | Updates the tables and answers exactly as `WorkOrders.SetStatus` prescribes. |
| Service.Inventory.AddLine | server.js:302-335 | Updates the tables and answers exactly as `Ledger.AddLine` prescribes. |
| Service.Inventory.IssueLine | server.js:353-383 | Updates the tables and answers exactly as `Ledger.IssueLine` prescribes. |
| Service.Inventory.ReturnLine | server.js:386-414 | Updates the tables and answers exactly as `Ledger.ReturnLine` prescribes. |
| Service.Inventory.UpsertSettings | server.js:428-446 | Runs the key loop, with the settings after i keys being the upsert of the first i entries, and answers exactly as `Settings.UpsertSettings` prescribes. |
| Service.Inventory.LowStockReport | server.js:450-467 | Changes nothing and returns `Reports.LowStockReport`: ascending, exactly the joined rows at or below the threshold. |

## Left out

- Express plumbing is not modelled: routing, body parsing, static files, and the `/env`, `/health` and `/routes` endpoints. HTTP status codes become `Schema.Error` constructors.
- Ledger.WorkOrderReason: a movement reason is `WO-` followed by the shortest decimal of the work-order id. The handlers append the raw path text (server.js:375, server.js:406), which only has to match `/^\d+$/`, so a path id with leading zeros such as `007` is logged as `WO-007` by the source and as `WO-7` by the model.
- The `/^\d+$/` id checks and their `invalid_input`, `invalid_wo` and `invalid_id` answers are not modelled: ids are natural numbers by type.
- The SQL client and the SQL text are replaced by maps and a sequence. A failing query (`insert_failed`, `issue_failed` and the like) is not modelled.
- Each handler is modelled as one atomic step. In the source a handler is several untransacted queries, so concurrent requests can race between the check and the write; that concurrency is not modelled.
- Foreign keys and cascades are not modelled. A line can be added for a work-order id, item id or batch id that does not exist, because the schema that would refuse it is not part of this model.
- `Math.random()` is replaced by the parameter `draws`, a sequence of six-digit numbers. The floating-point arithmetic that produces them is not modelled.
- JavaScript number coercion is not modelled: `Number(...)`, `|| 0`, `Number.isFinite`, NaN and fractional quantities. Quantities are integers, and a missing text field is the empty string.
- Setting values are modelled as strings only; JSON numbers or objects stored as setting values are not modelled.
- Settings.Threshold: the model's `parseInt` skips only space, tab, line feed and carriage return before the number; JavaScript's also skips vertical tab, form feed and the Unicode space and line-separator characters. A threshold that reads as NaN makes the report fail with `db_error`, because what the database does with a NaN bound is not part of this model. The model's numbers are unbounded, while JavaScript's `parseInt` is exact only up to 2^53 and `String(n)` switches to exponent form from 10^21. So `Settings.ThresholdRoundTrip` and `Text.ParseIntDecimal` hold in the source only for values below those bounds.
- The report rows do not carry the location, site and bin columns. The order among rows of equal quantity is whatever the database returns, so the model fixes one ascending permutation (an insertion sort).
- `created_at` and the batch `condition` column are not modelled. The handlers' answers carry the new ids (server.js:115, server.js:237, server.js:330). However, of the row POST /api/workorders echoes back (server.js:235-237), only its id is modelled, not its code, status, requested_by or created_at.
- The list and search endpoints (GET items, work orders, lines, settings and movements) are pure queries and are not modelled.
- The hard deletes of batches, work orders and lines are not modelled; their cascade behaviour depends on a schema that is not part of this model.
- `docs/public/js/toast.js` (a browser toast helper) and `test_neon.js` (a connection smoke test) are not part of this model.
