/** The processing order of the current revision (main.py:155-156, 172-181): the selected
    date columns in ascending order, and within one date the sheet's data rows from top to
    bottom. A row contributes a plan line for a date when its cell there holds a positive
    number, it passes the workshop filter and it names a work order. */
module Schedule {
  import opened Domain

  /** Sheet row number of the first data row. */
  const FirstDataRow: nat := 4

  /** The workshop choice that disables the workshop filter. */
  const AllWorkshops: string := "全部车间"

  /** A spreadsheet cell as the reader sees it. */
  datatype Cell = Blank | Number(value: real) | Text(text: string)

  /** One data row: its cell under each date column, its (stripped) workshop text, and its
      work-order key, absent when the type or the number cell is empty. */
  datatype SheetRow = SheetRow(cells: map<int, Cell>, workshop: string, key: Option<WoKey>)

  /** Python's `round` on a number: to the nearest integer, ties to the even one. */
  function RoundHalfEven(x: real): (n: int)
    ensures -0.5 <= n as real - x <= 0.5
    ensures (n as real - x == 0.5 || x - n as real == 0.5) ==> n % 2 == 0
  {
    var f := x.Floor;
    var d := x - f as real;
    if d < 0.5 then f
    else if d > 0.5 then f + 1
    else if f % 2 == 0 then f
    else f + 1
  }

  /** No integer lies closer to `x` than its rounding. */
  lemma RoundIsNearest(x: real, m: int)
    ensures var n := RoundHalfEven(x);
      (if n as real >= x then n as real - x else x - n as real) <=
      (if m as real >= x then m as real - x else x - m as real)
  {
    var n := RoundHalfEven(x);
    var f := x.Floor;
    if m <= f - 1 {
      assert x - m as real >= 1.0;
    } else if m >= f + 2 {
      assert m as real - x > 1.0;
    }
  }

  /** The least element of a non-empty set of dates. */
  function SetMin(s: set<int>): (m: int)
    requires s != {}
    ensures m in s && forall y :: y in s ==> m <= y
  {
    MinExists(s);
    var m :| m in s && forall y :: y in s ==> m <= y;
    m
  }

  lemma MinExists(s: set<int>)
    requires s != {}
    ensures exists m :: m in s && forall y :: y in s ==> m <= y
    decreases s
  {
    // Names the emptiness test so that the solver can find a witness for `x` below.
    if forall y :: y !in s { }
    var x :| x in s;
    if s != {x} {
      MinExists(s - {x});
      var m :| m in s - {x} && forall y :: y in s - {x} ==> m <= y;
      var least := if x < m then x else m;
      forall y | y in s
        ensures least <= y
      {
        if y != x {
          assert y in s - {x};
        }
      }
    } else {
      assert forall y :: y in s ==> x <= y;
    }
  }

  predicate StrictlyIncreasing(ds: seq<int>)
  {
    forall j, k :: 0 <= j < k < |ds| ==> ds[j] < ds[k]
  }

  /** `sorted()` of a set of dates. */
  function Sorted(s: set<int>): (r: seq<int>)
    ensures StrictlyIncreasing(r)
    ensures forall d :: d in r <==> d in s
    ensures |r| == |s|
    decreases s
  {
    if s == {} then []
    else
      var m := SetMin(s);
      [m] + Sorted(s - {m})
  }

  /** The date columns inside the chosen range, ascending. */
  function ValidDates(columns: set<int>, start: int, end: int): (r: seq<int>)
    ensures StrictlyIncreasing(r)
    ensures forall d :: d in r <==> d in columns && start <= d <= end
  {
    Sorted(set d | d in columns && start <= d <= end)
  }

  /** Whether row `row` yields a plan line on date `d`. */
  predicate Selected(row: SheetRow, d: int, hasWorkshopColumn: bool, target: string)
  {
    && d in row.cells && row.cells[d].Number? && row.cells[d].value > 0.0
    && !(hasWorkshopColumn && target != AllWorkshops && row.workshop != target)
    && row.key.Some?
  }

  /** The plan line of data row `i` on date `d`, its quantity rounded half to even. */
  function LineFor(rows: seq<SheetRow>, i: nat, d: int, hasWorkshopColumn: bool, target: string): (l: PlanLine)
    requires i < |rows| && Selected(rows[i], d, hasWorkshopColumn, target)
    ensures l.row == FirstDataRow + i && l.date == d && l.key == rows[i].key.value
    ensures l.qty == RoundHalfEven(rows[i].cells[d].value)
  {
    var n := RoundHalfEven(rows[i].cells[d].value);
    PlanLine(FirstDataRow + i, d, n, rows[i].key.value)
  }

  /** The plan lines of one date, from data row `i` down. */
  function LinesOn(d: int, rows: seq<SheetRow>, i: nat, hasWorkshopColumn: bool, target: string): (ls: seq<PlanLine>)
    requires i <= |rows|
    ensures forall j :: 0 <= j < |ls| ==> ls[j].date == d
    ensures forall j :: 0 <= j < |ls| ==> FirstDataRow + i <= ls[j].row < FirstDataRow + |rows|
    ensures forall j, k :: 0 <= j < k < |ls| ==> ls[j].row < ls[k].row
    decreases |rows| - i
  {
    if i == |rows| then []
    else
      var rest := LinesOn(d, rows, i + 1, hasWorkshopColumn, target);
      if Selected(rows[i], d, hasWorkshopColumn, target) then [LineFor(rows, i, d, hasWorkshopColumn, target)] + rest
      else rest
  }

  /** All plan lines: date by date in the given order, each date top to bottom. */
  function PlanLines(dates: seq<int>, rows: seq<SheetRow>, hasWorkshopColumn: bool, target: string): seq<PlanLine>
    decreases |dates|
  {
    if |dates| == 0 then []
    else LinesOn(dates[0], rows, 0, hasWorkshopColumn, target) + PlanLines(dates[1..], rows, hasWorkshopColumn, target)
  }

  /** Processing order: earlier date first, then the higher row first. */
  predicate Before(a: PlanLine, b: PlanLine)
  {
    a.date < b.date || (a.date == b.date && a.row < b.row)
  }

  /** Every line precedes each later one. */
  predicate InOrder(ls: seq<PlanLine>)
  {
    forall j, k :: 0 <= j < k < |ls| ==> Before(ls[j], ls[k])
  }

  /** With ascending dates, the plan lines come strictly in (date, row) order. */
  lemma {:induction false} PlanLinesOrdered(dates: seq<int>, rows: seq<SheetRow>, hasWorkshopColumn: bool, target: string)
    requires StrictlyIncreasing(dates)
    ensures InOrder(PlanLines(dates, rows, hasWorkshopColumn, target))
    ensures forall l :: l in PlanLines(dates, rows, hasWorkshopColumn, target) ==> l.date in dates
    decreases |dates|
  {
    if |dates| > 0 {
      var head := LinesOn(dates[0], rows, 0, hasWorkshopColumn, target);
      var tail := PlanLines(dates[1..], rows, hasWorkshopColumn, target);
      PlanLinesOrdered(dates[1..], rows, hasWorkshopColumn, target);
      var ls := head + tail;
      forall j, k | 0 <= j < k < |ls|
        ensures Before(ls[j], ls[k])
      {
        if k >= |head| && j < |head| {
          assert ls[j] == head[j];
          assert ls[k] == tail[k - |head|] && ls[k] in tail;
          var t :| 0 <= t < |dates[1..]| && dates[1..][t] == ls[k].date;
          assert dates[t + 1] == ls[k].date;
          assert ls[j].date == dates[0] < dates[t + 1];
        } else if j >= |head| {
          assert ls[j] == tail[j - |head|] && ls[k] == tail[k - |head|];
          assert Before(tail[j - |head|], tail[k - |head|]);
        } else {
          assert ls[j] == head[j] && ls[k] == head[k];
          assert head[j].date == head[k].date && head[j].row < head[k].row;
        }
      }
      forall l | l in ls
        ensures l.date in dates
      {
        if l in tail {
          assert l.date in dates[1..];
        }
      }
    }
  }

  /** Soundness of one date's lines: each is the line of a selected row. */
  lemma {:induction false} LinesOnSelected(d: int, rows: seq<SheetRow>, i: nat, hasWorkshopColumn: bool, target: string, l: PlanLine)
    requires i <= |rows|
    requires l in LinesOn(d, rows, i, hasWorkshopColumn, target)
    ensures var r := l.row - FirstDataRow;
      && i <= r < |rows|
      && Selected(rows[r], d, hasWorkshopColumn, target)
      && l == LineFor(rows, r, d, hasWorkshopColumn, target)
    decreases |rows| - i
  {
    if i < |rows| {
      var rest := LinesOn(d, rows, i + 1, hasWorkshopColumn, target);
      if l in rest {
        LinesOnSelected(d, rows, i + 1, hasWorkshopColumn, target, l);
      }
    }
  }

  /** Completeness of one date's lines: every selected row from `i` down yields its line. */
  lemma {:induction false} LinesOnComplete(d: int, rows: seq<SheetRow>, i: nat, hasWorkshopColumn: bool, target: string, r: nat)
    requires i <= r < |rows| && Selected(rows[r], d, hasWorkshopColumn, target)
    ensures LineFor(rows, r, d, hasWorkshopColumn, target) in LinesOn(d, rows, i, hasWorkshopColumn, target)
    decreases r - i
  {
    if i < r {
      LinesOnComplete(d, rows, i + 1, hasWorkshopColumn, target, r);
    }
  }

  /** A plan line exists exactly for each selected (date, row) pair. */
  lemma {:induction false} PlanLinesExact(dates: seq<int>, rows: seq<SheetRow>, hasWorkshopColumn: bool, target: string)
    ensures forall l :: l in PlanLines(dates, rows, hasWorkshopColumn, target) ==>
              && l.date in dates
              && FirstDataRow <= l.row < FirstDataRow + |rows|
              && Selected(rows[l.row - FirstDataRow], l.date, hasWorkshopColumn, target)
              && l == LineFor(rows, l.row - FirstDataRow, l.date, hasWorkshopColumn, target)
    ensures forall d, r :: d in dates && 0 <= r < |rows| && Selected(rows[r], d, hasWorkshopColumn, target) ==>
              LineFor(rows, r, d, hasWorkshopColumn, target) in PlanLines(dates, rows, hasWorkshopColumn, target)
    decreases |dates|
  {
    if |dates| > 0 {
      var head := LinesOn(dates[0], rows, 0, hasWorkshopColumn, target);
      var tail := PlanLines(dates[1..], rows, hasWorkshopColumn, target);
      PlanLinesExact(dates[1..], rows, hasWorkshopColumn, target);
      forall l | l in head
        ensures && FirstDataRow <= l.row < FirstDataRow + |rows|
                && Selected(rows[l.row - FirstDataRow], l.date, hasWorkshopColumn, target)
                && l == LineFor(rows, l.row - FirstDataRow, l.date, hasWorkshopColumn, target)
      {
        LinesOnSelected(dates[0], rows, 0, hasWorkshopColumn, target, l);
      }
      forall d, r | d in dates && 0 <= r < |rows| && Selected(rows[r], d, hasWorkshopColumn, target)
        ensures LineFor(rows, r, d, hasWorkshopColumn, target) in head + tail
      {
        if d == dates[0] {
          LinesOnComplete(d, rows, 0, hasWorkshopColumn, target, r);
        } else {
          assert d in dates[1..];
        }
      }
    }
  }
}
