# Rolling material-availability allocation

A Dafny model of the allocation engine of a daily production-plan kitting tool, in both of
the tool's revisions. Plan lines are taken in a fixed order and checked against their work
orders' bills of materials (BOM) and a shared component inventory. Each line gets a kitting
rate, an achievable quantity and a list of shortages. What each line consumes is deducted
from the shared inventory, and every later line sees that deduction.

- **Current revision (`main.py`).** The issued-quantity ledger is seeded from the BOM `iss`
  values. Each line's plan is clamped to the work-order ceiling: the whole units that the
  still-issuable quantity of each BOM line covers. Each BOM line is then checked against
  zero-floored stock. The full planned consumption `plan_qty * u` is always deducted, inside
  the BOM loop, from inventory, and the same amount is added to the ledger. Each line gets a
  four-level status code, and a spreadsheet row keeps the largest code among its lines. Lines
  run in ascending date order, and within a date from the top row down.
- **Earlier revision (`1.py`, `_simulate`).** Each component's demand is the day's
  consumption clamped by the still-issuable quantity, which is read from static BOM data.
  Components whose demand is at most 0.0001 are ignored. The rate is the share of kitted
  components. Stock is deducted only when every counted component is kitted.

Modules:

- `Domain`: shared types and arithmetic helpers (`Trunc`, and `FloorDiv` for floor
  division).
- `Seeding`: the ledger seeding.
- `Ceiling`: the ceiling and the net/excess split.
- `Detector`: the per-BOM scan.
- `Priority`: the status codes and the row aggregation.
- `Rolling`: the per-line step and the run.
- `Schedule`: the processing order.
- `Engine`: the current revision end to end, from the sheet's rows to the report.
- `Conservative`: the earlier revision.

Quantities are `real`, so Python's float comparisons with literal tolerances become exact
comparisons. Python's `//` floors the quotient of the program's float operands; the model
floors the exact quotient, and its usage `req / total` is the exact ratio, not a rounded
float (see "## Left out"). `int()` of a float truncates toward zero. The sentinels 999999 and 9999999 are kept as literal integers.

Facts about the code that shape the model:

- The shortage tolerance is 0.001 in `main.py` and 0.0001 in `1.py`.
- `main.py` skips a line whose work order is not found: the line gets no result, no status
  and no state change.
- In `main.py`, a found work order with an empty BOM is processed like any other. Only the
  999999 sentinel caps its net demand, it has rate 1 and no shortage, and its code is 1 when
  the plan is at most 999999. The ERP fetch never creates such an order, because its join
  yields one row per BOM line.
- `main.py` deducts `plan_qty * u`, so a line beyond its ceiling still consumes its whole
  plan.
- `1.py` treats a missing work order and an empty BOM alike: "no ERP info", short, and no
  deduction.

## Model

| member | source | states |
|---|---|---|
| Domain.FloorDiv | main.py:203 | `int(x // u)` for `u > 0`: the unique integer `n` with `n*u <= x < (n+1)*u`; it is non-negative when `x` is |
| Domain.Trunc | 1.py:532 | `int(x)` of a float: truncation toward zero, so for `x >= 0` it is the whole part and for `x < 0` it lies in `[x, x+1)` and is at most 0 |
| Seeding.SeedIssued | main.py:189-191 | the seeded ledger has an entry exactly for each (work order, part) pair named in some BOM |
| Seeding.SeedIssuedValue | main.py:190-191 | the seeded entry of a part is the `iss` of the last BOM line that names it, because later lines overwrite earlier ones |
| Seeding.LastIssuedIsLastLine | main.py:190-191 | the last BOM line of a part supplies the value the overwriting loop leaves |
| Ceiling.Remaining | main.py:202 | still-issuable quantity `max(0, req - issued)`: never negative, and it is either zero or `req - issued` |
| Ceiling.PossibleSets | main.py:200-203 | the whole units the remaining quantity covers at usage `u > 0`: non-negative, with `n*u <= rem < (n+1)*u` |
| Ceiling.Ceiling | main.py:198-203 | the ceiling lies in `[0, 999999]`, is at most every positive-usage line's PossibleSets, and is 999999 or one of them |
| Ceiling.Clamp | main.py:205 | `net + excess == plan`, `net <= ceiling`, and `net` is the plan or the ceiling |
| Detector.ShortEntry | main.py:215-216 | a line with positive usage records a shortage exactly when zero-floored stock `< net*u - 0.001`; the entry carries part, name, unit and the shortfall `net*u - stk`, which exceeds the tolerance |
| Detector.ScanInventory | main.py:217 | after the BOM loop, each part's stock is its old stock less `plan_qty*u` summed over that part's positive-usage lines, shortage or not; only those parts gain keys |
| Detector.ScanLedger | main.py:218 | the line's work order gains the same `plan_qty*u` per part in the ledger; no other work order's entry changes |
| Detector.ScanShortages | main.py:207-216 | the shortages are exactly the reference list in BOM order, each line judged against the stock the earlier lines of the same BOM left |
| Detector.ScanRateBounds | main.py:206-213 | the rate stays in `[0, start]`, and it is untouched when `net == 0` |
| Detector.ScanRateLower | main.py:210-213 | for `net > 0`, the rate is at most every positive-usage line's zero-floored seen stock over `net*u` |
| Detector.ScanRateAttained | main.py:210-213 | for `net > 0`, the rate is its start value or one line's ratio |
| Detector.ScanProducible | main.py:210-214 | the producible count never rises, stays non-negative from a non-negative start, is at most each line's `floor(max(0, seen stock) / u)`, and equals its start or one of them |
| Detector.VisitRate | main.py:211-213 | one BOM line lowers the rate to `min(rate, stk/(net*u))` only when `u > 0` and `net > 0` |
| Detector.VisitInventory | main.py:217 | one BOM line with positive usage lowers its part by `plan_qty*u` and leaves every other part unchanged |
| Priority.Classify | main.py:223-226 | code 2 exactly when `net == 0 && excess > 0`; 4 exactly when not that and rate `< 0.999`; 3 exactly when `net > 0`, `excess > 0` and rate `>= 0.999`; 1 exactly when `excess == 0` and rate `>= 0.999` |
| Priority.Raise | main.py:227 | the row's code becomes the larger of its code (0 when unmarked) and the new one; other rows keep theirs |
| Rolling.Initial | main.py:189-191 | the run starts from the fetched inventory and a ledger holding exactly the seeded keys |
| Rolling.Evaluate | main.py:198-226 | every result of a found work order keeps `0 <= achievable <= net <= plan`, `net + excess == plan`, rate in `[0,1]`, rate 1 when `net == 0`, and a code in 1..4; the code is the classification of the line's own net, excess and rate |
| Rolling.Step | main.py:195-205 | a missing work order gives no result and no state change; otherwise `net` is at most 999999 and at most each positive-usage line's PossibleSets from the ledger before this line's own updates, and it is the plan, 999999 or one of them; an empty BOM leaves the state alone and gives rate 1, no shortage, and `net` equal to the plan with code 1 when the plan is at most 999999; a found line's code is the classification of its net, excess and rate |
| Rolling.StepDeduction | main.py:207-218 | forced deduction per line: stock falls and the line's ledger entries rise by the drawn amount; other work orders' entries are untouched |
| Rolling.StepRate | main.py:206-213 | the rate is at most every line's ratio and is 1 or one of them |
| Rolling.StepAchievableAndShortages | main.py:206-220 | `min(net, stock_can_do)` is at most each line's producible units and is `net`, 999999 or one of them; the shortages are the reference list |
| Rolling.RunResults | main.py:195-222 | one sound result per found line, in processing order |
| Rolling.RunInOrder | main.py:189-227 | the rolling property: the `k`-th line's result, when its work order is found, is the one a single step gives it against the state all earlier lines left, placed right after the earlier found lines' results |
| Rolling.RunCovers | main.py:195-222 | every line whose work order is found gets a result |
| Rolling.RunComplete | main.py:195-222 | all found lines at once: each has a result |
| Rolling.RunCodes | main.py:223-227 | each row's code is the largest code among its lines' results, and only rows with a result are marked |
| Rolling.CodesNeverDecrease | main.py:227 | a row's code never decreases as more lines are processed |
| Rolling.RunDeduction | main.py:195-218 | over a run, each part's stock falls by what all processed lines drew, and each (work order, part) ledger entry rises by what that order's lines drew |
| Schedule.RoundHalfEven | main.py:181 | Python `round`: within 0.5 of the value, and even on a tie |
| Schedule.RoundIsNearest | main.py:181 | no integer is closer to the value than its rounding |
| Schedule.SetMin | main.py:156 | the least element of a non-empty set |
| Schedule.MinExists | main.py:156 | every non-empty finite set of dates has a least element |
| Schedule.Sorted | main.py:156 | `sorted()` of a set: strictly increasing, same elements |
| Schedule.ValidDates | main.py:156 | the date columns inside `[start, end]`, strictly increasing, and no others |
| Schedule.LineFor | main.py:181 | a selected row's plan line carries its sheet row number, the date, its work-order key, and the cell's quantity rounded half to even |
| Schedule.LinesOn | main.py:174-181 | one date's lines all carry that date, come from data rows, and have strictly increasing row numbers |
| Schedule.PlanLinesOrdered | main.py:172-181 | with ascending dates, every plan line comes strictly before each later one in (date, row) order |
| Schedule.LinesOnSelected | main.py:174-181 | every line of a date is the line of a row that passes the quantity, workshop and key tests |
| Schedule.LinesOnComplete | main.py:174-181 | every row that passes those tests yields its line |
| Schedule.PlanLinesExact | main.py:172-181 | a plan line exists exactly for each selected (date, row) pair |
| Conservative.Demand | 1.py:511-514 | a component's demand is at most both the still-issuable quantity and the day's theoretical consumption, and equals one of them |
| Conservative.CanMake | 1.py:522 | `int(stock // u)` for `u > 0` on unfloored stock, 999999 otherwise |
| Conservative.TallyCounts | 1.py:516-526 | `items_needed` is the number of components whose demand exceeds 0.0001, and `items_kitted` the number of those whose stock covers the demand within 0.0001 |
| Conservative.TallyBom | 1.py:509-530 | `kitted <= needed`, `shortages + kitted == needed`; no component is counted exactly when `needed == 0`; fully kitted exactly when no counted component is short |
| Conservative.DeductKeys | 1.py:516-519 | a part has a pending deduction exactly when some counted component names it; every amount exceeds 0.0001 |
| Conservative.DeductLastWins | 1.py:519 | a part's pending deduction is the demand of its last counted component |
| Conservative.DeductCovered | 1.py:520-528 | in a fully kitted pass each pending deduction is covered by the stock the pass read, so its part is present in the inventory and the `-=` cannot miss a key |
| Conservative.Shortfalls | 1.py:525-530 | the shortage list is, in BOM order, one entry `(part, name, demand - stock)` per counted component whose stock is below `demand - 0.0001`, and so holds exactly those entries |
| Conservative.LeastSets | 1.py:507-523 | the least set count is at most 9999999 and every counted component's CanMake, and it is 9999999 or one of them |
| Conservative.Fraction | 1.py:537 | `kitted / needed` lies in `[0,1]` and is below 1 exactly when some counted component is not kitted |
| Conservative.Conclude | 1.py:532-543 | rate `kitted / needed` in `[0,1]`, below 1 exactly when not all counted components are kitted; with nothing counted, rate 1, achievable `int(daily_qty)` and not short; achievable at most `int(daily_qty)`; short exactly when some component is counted and not all are kitted |
| Conservative.DeductSafe | 1.py:547-550 | a fully kitted deduction only touches parts present in the inventory; it never raises stock and never takes it below -0.0001 |
| Conservative.Deduct | 1.py:548-550 | the deduction keeps the inventory's keys, lowers each pending part by its amount, and leaves all other parts alone |
| Conservative.Step | 1.py:481-550 | missing work order or empty BOM: rate 0, achievable 0, "no ERP info", short, inventory unchanged; otherwise rate in `[0,1]` and achievable at most `int(daily_qty)`; a short line leaves the inventory unchanged; stock never rises |
| Conservative.StepShort | 1.py:525-543 | for a found work order: short exactly when some counted component is short, exactly when the shortage list is non-empty, exactly when the rate is below 1 |
| Conservative.StepRate | 1.py:537 | for a found work order the rate is the number of covered counted components over the number of counted components, and 1 when none is counted |
| Conservative.StepAchievable | 1.py:520-535 | with no counted component, achievable is `int(daily_qty)`, rate 1 and not short; otherwise achievable is at most 9999999 and every counted component's CanMake, and is `int(daily_qty)`, 9999999 or one of them |
| Conservative.StepDeduction | 1.py:547-550 | all-or-nothing: a short line changes nothing; a kitted line lowers each counted part by the demand of its last counted component and leaves every other part unchanged |
| Conservative.Simulate | 1.py:478-552 | one result per plan line; inventory keys are kept and stock never rises; each part whose stock starts at or above -0.0001 stays there |
| Conservative.SimulateInOrder | 1.py:481-545 | the i-th result is the i-th plan line's result against the inventory the earlier lines left |
| Engine.FoundInOrder | main.py:195-197 | a line is kept exactly when it is one of the lines and its work order is found, and the kept lines stay in (date, row) order |
| Engine.SheetResultsSound | main.py:156-222 | the sheet's results come strictly in (date, row) order, and each is the half-to-even rounded line of a selected in-range (date, row) pair with a found work order, with a sound result |
| Engine.SheetResultsComplete | main.py:156-197 | every selected in-range (date, row) pair whose work order is found has its result |
| Engine.AnalyseSheet | main.py:156-227 | results strictly in (date, row) order; each the line of a selected in-range (date, row) pair with a found work order, with a sound result; every such pair has its result; each row's code is the largest among its results |

## Left out

- The desktop UI, logging and message boxes: presentation only.
- Spreadsheet reading and writing: header scanning, column maps, merged cells, fills and
  widths. This is I/O through a library outside the model. A sheet row is given as its date
  cells, its stripped workshop text and its optional work-order key. `Cell` stands in for
  openpyxl's typed values, so a boolean cell, which Python treats as a number, is not
  modelled.
- Database queries for work orders and inventory: network I/O. Their results are input maps,
  and an absent key means "not found" or zero stock.
- Date parsing, `datetime.now()` and range enumeration: dates are opaque ordered integers.
- The message text (`:.0%`, `:g`, `:.1f` and the joined shortage strings). A shortage is a
  record of part, name, unit and shortfall. The earlier revision's note is the list of such
  records, or the "no ERP info" marker.
- Floating-point rounding: quantities are exact reals. A comparison that lands within one
  float ulp of a tolerance may come out differently in the program. More visibly, the
  program divides by a usage `req / total` it has already rounded to a float, so the floors
  `int(rem // u)` (main.py:203), `int(stk // u)` (main.py:214) and
  `int(current_stock // unit_usage)` (1.py:522) can come out one lower in the program when
  the exact quotient is a whole number. For example, with total 10, one BOM line of req 1,
  nothing issued, stock 1 and a plan of 10, the program's usage is the float 0.1 and
  `1.0 // 0.1` is 9.0: its ceiling is 9, net 9, excess 1, achievable 9 and code 3, where the
  model's exact usage gives ceiling 10, net 10, excess 0, achievable 10 and code 1. Such a
  difference changes net, excess, the achievable count and the status code.
- Conservative.CanMake: the stock is not floored at zero, as written, so with negative
  inventory the achievable count of the earlier revision may be negative. No lower bound is
  stated for it.
- The copy of the caller's inventory (1.py:478, main.py:189): every function here is pure,
  so the caller's map cannot change.
