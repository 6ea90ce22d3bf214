/** The current revision end to end (main.py:156-227): the plan lines read from the sheet in
    (date, row) order are run against the fetched inventory and the seeded ledger. */
module Engine {
  import opened Domain
  import Rolling
  import Schedule

  /** `Found` keeps exactly the lines whose work order is known, and the (date, row) order
      survives the filtering. */
  lemma {:induction false} FoundInOrder(data: WoData, lines: seq<PlanLine>)
    requires Schedule.InOrder(lines)
    ensures forall l :: l in Rolling.Found(data, lines) <==> l in lines && l.key in data
    ensures Schedule.InOrder(Rolling.Found(data, lines))
    decreases |lines|
  {
    if |lines| > 0 {
      var n := |lines| - 1;
      var init := lines[..n];
      var last := lines[n];
      assert Schedule.InOrder(init) by {
        forall j, k | 0 <= j < k < |init|
          ensures Schedule.Before(init[j], init[k])
        {
          assert init[j] == lines[j] && init[k] == lines[k];
        }
      }
      FoundInOrder(data, init);
      var prev := Rolling.Found(data, init);
      var found := Rolling.Found(data, lines);
      assert found == prev + (if last.key in data then [last] else []);
      forall l | l in lines && l.key in data
        ensures l in found
      {
        if l != last {
          var a :| 0 <= a < |lines| && lines[a] == l;
          assert init[a] == l;
        }
      }
      forall j, k | 0 <= j < k < |found|
        ensures Schedule.Before(found[j], found[k])
      {
        if k < |prev| {
          assert found[j] == prev[j] && found[k] == prev[k];
        } else {
          assert found[k] == last && found[j] == prev[j] && prev[j] in init;
          var a :| 0 <= a < |init| && init[a] == prev[j];
          assert lines[a] == init[a];
        }
      }
    }
  }

  /** The plan lines of one sheet: the selected rows on each date column inside
      `[start, end]`, in ascending date order. */
  function SheetLines(columns: set<int>, start: int, end: int, rows: seq<Schedule.SheetRow>,
                      hasWorkshopColumn: bool, target: string): seq<PlanLine>
  {
    Schedule.PlanLines(Schedule.ValidDates(columns, start, end), rows, hasWorkshopColumn, target)
  }

  /** Every result's line precedes the lines of all later results. */
  ghost predicate ResultsInOrder(res: seq<(PlanLine, Rolling.LineResult)>)
  {
    forall j, k :: 0 <= j < k < |res| ==> Schedule.Before(res[j].0, res[k].0)
  }

  /** Each result is the line of a selected in-range (date, row) pair whose work order is
      found, and keeps the arithmetic promises. */
  ghost predicate ResultsSelected(data: WoData, columns: set<int>, start: int, end: int,
                                  rows: seq<Schedule.SheetRow>, hasWorkshopColumn: bool, target: string,
                                  res: seq<(PlanLine, Rolling.LineResult)>)
  {
    forall j :: 0 <= j < |res| ==>
      var l := res[j].0;
      && l.key in data
      && start <= l.date <= end && l.date in columns
      && FirstRowBound(l, rows)
      && Schedule.Selected(rows[l.row - Schedule.FirstDataRow], l.date, hasWorkshopColumn, target)
      && l == Schedule.LineFor(rows, l.row - Schedule.FirstDataRow, l.date, hasWorkshopColumn, target)
      && Rolling.Sound(res[j].1, l.qty)
  }

  /** Every selected in-range (date, row) pair whose work order is found has a result. */
  ghost predicate ResultsComplete(data: WoData, columns: set<int>, start: int, end: int,
                                  rows: seq<Schedule.SheetRow>, hasWorkshopColumn: bool, target: string,
                                  res: seq<(PlanLine, Rolling.LineResult)>)
  {
    forall d, i :: (d in columns && start <= d <= end && 0 <= i < |rows| &&
                    Schedule.Selected(rows[i], d, hasWorkshopColumn, target) && rows[i].key.value in data) ==>
      exists j :: 0 <= j < |res| && res[j].0 == Schedule.LineFor(rows, i, d, hasWorkshopColumn, target)
  }

  /** The results of a sheet's run come in strict (date, row) order, and each is the sound
      result of a selected line. */
  lemma SheetResultsSound(data: WoData, inv: Inventory, columns: set<int>, start: int, end: int,
                          rows: seq<Schedule.SheetRow>, hasWorkshopColumn: bool, target: string)
    ensures var res := Rolling.Analyse(data, inv, SheetLines(columns, start, end, rows, hasWorkshopColumn, target)).results;
      && ResultsInOrder(res)
      && ResultsSelected(data, columns, start, end, rows, hasWorkshopColumn, target, res)
  {
    var dates := Schedule.ValidDates(columns, start, end);
    var lines := Schedule.PlanLines(dates, rows, hasWorkshopColumn, target);
    Schedule.PlanLinesOrdered(dates, rows, hasWorkshopColumn, target);
    Schedule.PlanLinesExact(dates, rows, hasWorkshopColumn, target);
    FoundInOrder(data, lines);
    Rolling.RunResults(data, Rolling.Initial(data, inv), lines);
  }

  /** Completeness of a result list from completeness of its plan lines and of the run over
      them, with the run and the line building left abstract. */
  lemma CompleteFromLines(data: WoData, columns: set<int>, start: int, end: int,
                          rows: seq<Schedule.SheetRow>, hasWorkshopColumn: bool, target: string,
                          dates: seq<int>, lines: seq<PlanLine>, res: seq<(PlanLine, Rolling.LineResult)>)
    requires forall d :: d in dates <==> d in columns && start <= d <= end
    requires forall d, r :: d in dates && 0 <= r < |rows| && Schedule.Selected(rows[r], d, hasWorkshopColumn, target) ==>
               Schedule.LineFor(rows, r, d, hasWorkshopColumn, target) in lines
    requires forall l :: l in lines && l.key in data ==> exists j :: 0 <= j < |res| && res[j].0 == l
    ensures ResultsComplete(data, columns, start, end, rows, hasWorkshopColumn, target, res)
  {
    forall d, i | (d in columns && start <= d <= end && 0 <= i < |rows| &&
                   Schedule.Selected(rows[i], d, hasWorkshopColumn, target) && rows[i].key.value in data)
      ensures exists j :: 0 <= j < |res| && res[j].0 == Schedule.LineFor(rows, i, d, hasWorkshopColumn, target)
    {
      var l := Schedule.LineFor(rows, i, d, hasWorkshopColumn, target);
      assert l in lines && l.key in data;
    }
  }

  /** Every selected in-range (date, row) pair whose work order is found has its result. */
  lemma SheetResultsComplete(data: WoData, inv: Inventory, columns: set<int>, start: int, end: int,
                             rows: seq<Schedule.SheetRow>, hasWorkshopColumn: bool, target: string)
    ensures ResultsComplete(data, columns, start, end, rows, hasWorkshopColumn, target,
                            Rolling.Analyse(data, inv, SheetLines(columns, start, end, rows, hasWorkshopColumn, target)).results)
  {
    var dates := Schedule.ValidDates(columns, start, end);
    var lines := Schedule.PlanLines(dates, rows, hasWorkshopColumn, target);
    Schedule.PlanLinesExact(dates, rows, hasWorkshopColumn, target);
    Rolling.RunComplete(data, Rolling.Initial(data, inv), lines);
    CompleteFromLines(data, columns, start, end, rows, hasWorkshopColumn, target,
                      dates, lines, Rolling.Run(data, Rolling.Initial(data, inv), lines).results);
  }

  /** The whole analysis of one sheet: the date columns inside `[start, end]`, the plan lines
      of the selected rows, and the run over them. The results come strictly in (date, row)
      order. Each is the line of a selected (date, row) pair whose work order is found, every
      such pair has its result, each result keeps the arithmetic promises, and each row's code
      is the largest among its results. */
  function AnalyseSheet(data: WoData, inv: Inventory, columns: set<int>, start: int, end: int,
                        rows: seq<Schedule.SheetRow>, hasWorkshopColumn: bool, target: string): (rep: Rolling.Report)
    ensures ResultsInOrder(rep.results)
    ensures ResultsSelected(data, columns, start, end, rows, hasWorkshopColumn, target, rep.results)
    ensures ResultsComplete(data, columns, start, end, rows, hasWorkshopColumn, target, rep.results)
    ensures Rolling.CodesAreRowMaxima(rep)
  {
    var lines := SheetLines(columns, start, end, rows, hasWorkshopColumn, target);
    SheetResultsSound(data, inv, columns, start, end, rows, hasWorkshopColumn, target);
    SheetResultsComplete(data, inv, columns, start, end, rows, hasWorkshopColumn, target);
    Rolling.RunCodes(data, Rolling.Initial(data, inv), lines);
    Rolling.Analyse(data, inv, lines)
  }

  /** A plan line's sheet row lies among the data rows. */
  predicate FirstRowBound(l: PlanLine, rows: seq<Schedule.SheetRow>)
  {
    Schedule.FirstDataRow <= l.row < Schedule.FirstDataRow + |rows|
  }
}
