/** The rolling allocation of the current revision (main.py:189-227): plan lines are
    processed in order against one shared state (inventory and issued ledger); each line is
    clamped to its work-order ceiling, checked against the stock earlier lines left, and then
    deducts its full planned consumption from that state. */
module Rolling {
  import opened Domain
  import Ceiling
  import opened Detector
  import Priority
  import Seeding

  /** The two running maps, owned by one run. */
  datatype State = State(inv: Inventory, issued: Ledger)

  /** What one plan line yields: kitting rate, achievable quantity, net demand, excess over
      the ceiling, shortage entries and the status code. */
  datatype LineResult = LineResult(rate: real, achievable: int, net: nat, excess: nat,
                                   shorts: seq<Shortage>, code: int)

  /** The arithmetic promises every result keeps. */
  predicate Sound(r: LineResult, qty: nat)
  {
    && 0 <= r.achievable <= r.net <= qty
    && r.net + r.excess == qty
    && 0.0 <= r.rate <= 1.0
    && (r.net == 0 ==> r.rate == 1.0)
    && Priority.Ok <= r.code <= Priority.Short
  }

  /** The state a run starts from: the fetched inventory and the ledger seeded from the BOMs. */
  function Initial(data: WoData, inv: Inventory): (st: State)
    ensures st.inv == inv
    ensures forall key, p :: LedgerKeyOf(key, p) in st.issued <==> key in data && p in Seeding.PartsOf(data[key].bom)
  {
    State(inv, Seeding.SeedIssued(data))
  }

  /** One plan line against a found work order. The ceiling is read from the ledger as it
      stands before this line's own deductions. */
  function Evaluate(key: WoKey, wo: WorkOrder, st: State, qty: nat): (r: (State, LineResult))
    ensures Sound(r.1, qty)
    ensures r.1.code == Priority.Classify(r.1.net, r.1.excess, r.1.rate)
  {
    var ceiling := Ceiling.Ceiling(key, wo.total, wo.bom, st.issued);
    var split := Ceiling.Clamp(qty, ceiling);
    var a := Start(st.inv, st.issued);
    var s := ScanBom(key, wo.total, split.net, qty, a, wo.bom);
    ScanRateBounds(key, wo.total, split.net, qty, a, wo.bom);
    ScanProducible(key, wo.total, split.net, qty, a, wo.bom);
    var achievable := MinInt(split.net, s.canDo);
    (State(s.inv, s.issued),
     LineResult(s.minRate, achievable, split.net, split.excess, s.shorts,
                Priority.Classify(split.net, split.excess, s.minRate)))
  }

  /** One plan line: a line whose work order is not found is skipped with no result and no
      change of state. For a found one, the net demand never exceeds what any BOM line's
      remaining issuable quantity, read from the ledger before the line's own deductions,
      still covers; it is the planned quantity unless one of those limits (or the sentinel)
      is smaller. A found work order with an empty BOM is not an error here: only the sentinel
      caps it, and it is reported as fully kitted (code 1 when the plan is at most 999999). */
  function Step(data: WoData, st: State, line: PlanLine): (r: (State, Option<LineResult>))
    ensures line.key !in data ==> r.0 == st && r.1 == None
    ensures line.key in data ==> r.1.Some? && Sound(r.1.value, line.qty) && r.1.value.net <= Unbounded
    ensures line.key in data ==> r.1.value.code == Priority.Classify(r.1.value.net, r.1.value.excess, r.1.value.rate)
    ensures line.key in data ==>
              var wo := data[line.key];
              forall i :: 0 <= i < |wo.bom| && Usage(wo.total, wo.bom[i]) > 0.0 ==>
                r.1.value.net <= Ceiling.PossibleSets(line.key, wo.total, wo.bom[i], st.issued)
    ensures line.key in data ==>
              var wo := data[line.key];
              r.1.value.net == line.qty || r.1.value.net == Unbounded ||
              exists i :: (0 <= i < |wo.bom| && Usage(wo.total, wo.bom[i]) > 0.0 &&
                           r.1.value.net == Ceiling.PossibleSets(line.key, wo.total, wo.bom[i], st.issued))
    ensures line.key in data && |data[line.key].bom| == 0 ==>
              && r.0 == st && r.1.value.rate == 1.0 && r.1.value.shorts == []
              && (line.qty <= Unbounded ==> r.1.value.net == line.qty && r.1.value.code == Priority.Ok)
  {
    if line.key !in data then (st, None)
    else
      var e := Evaluate(line.key, data[line.key], st, line.qty);
      (e.0, Some(e.1))
  }

  /** What a run reports: the final state, one result per processed line (with the line it
      belongs to, in processing order) and the code of every marked row. */
  datatype Report = Report(state: State, results: seq<(PlanLine, LineResult)>, codes: Priority.RowCodes)

  /** The run over plan lines already in processing order. */
  function Run(data: WoData, st0: State, lines: seq<PlanLine>): Report
    decreases |lines|
  {
    if |lines| == 0 then Report(st0, [], map[])
    else
      var prev := Run(data, st0, lines[..|lines| - 1]);
      var line := lines[|lines| - 1];
      var step := Step(data, prev.state, line);
      match step.1
      case None => Report(step.0, prev.results, prev.codes)
      case Some(res) => Report(step.0, prev.results + [(line, res)], Priority.Raise(prev.codes, line.row, res.code))
  }

  /** The whole analysis: from the fetched inventory and the seeded ledger. */
  function Analyse(data: WoData, inv: Inventory, lines: seq<PlanLine>): Report
  {
    Run(data, Initial(data, inv), lines)
  }

  // ---------------------------------------------------------------------------------------
  // Reference definitions over a whole run.

  /** The plan lines whose work order is found, in order. */
  function Found(data: WoData, lines: seq<PlanLine>): seq<PlanLine>
    decreases |lines|
  {
    if |lines| == 0 then []
    else
      var line := lines[|lines| - 1];
      Found(data, lines[..|lines| - 1]) + (if line.key in data then [line] else [])
  }

  /** What all processed lines draw from part `p`. */
  function TotalDrawn(data: WoData, lines: seq<PlanLine>, p: Part): real
    decreases |lines|
  {
    if |lines| == 0 then 0.0
    else
      var line := lines[|lines| - 1];
      TotalDrawn(data, lines[..|lines| - 1], p) +
      (if line.key in data then Drawn(data[line.key].total, line.qty, data[line.key].bom, p) else 0.0)
  }

  /** What the processed lines of work order `key` add to its ledger entry for part `p`. */
  function KeyDrawn(data: WoData, lines: seq<PlanLine>, key: WoKey, p: Part): real
    decreases |lines|
  {
    if |lines| == 0 then 0.0
    else
      var line := lines[|lines| - 1];
      KeyDrawn(data, lines[..|lines| - 1], key, p) +
      (if line.key == key && key in data then Drawn(data[key].total, line.qty, data[key].bom, p) else 0.0)
  }

  // ---------------------------------------------------------------------------------------
  // One line.

  /** Forced deduction: every BOM line with positive usage takes `qty * u` off inventory and
      adds it to the work order's ledger entry, whatever the shortage; parts and ledger
      entries the BOM does not draw on are unchanged. */
  lemma StepDeduction(data: WoData, st: State, line: PlanLine)
    requires line.key in data
    ensures var wo := data[line.key];
      var st' := Step(data, st, line).0;
      && (forall p :: Stock(st'.inv, p) == Stock(st.inv, p) - Drawn(wo.total, line.qty, wo.bom, p))
      && st'.inv.Keys == st.inv.Keys + PositiveParts(wo.total, wo.bom)
      && (forall p :: Issued(st'.issued, LedgerKeyOf(line.key, p)) ==
                       Issued(st.issued, LedgerKeyOf(line.key, p)) + Drawn(wo.total, line.qty, wo.bom, p))
      && (forall k: LedgerKey :: (k.0, k.1) != line.key ==>
            (k in st'.issued <==> k in st.issued) && Issued(st'.issued, k) == Issued(st.issued, k))
  {
    var wo := data[line.key];
    var net := Step(data, st, line).1.value.net;
    ScanInventory(line.key, wo.total, net, line.qty, Start(st.inv, st.issued), wo.bom);
    ScanLedger(line.key, wo.total, net, line.qty, Start(st.inv, st.issued), wo.bom);
  }

  /** The kitting rate is 1 with no net demand, and otherwise the least stock-to-demand ratio
      over the BOM lines (capped at 1), each measured against the stock it saw. */
  lemma StepRate(data: WoData, st: State, line: PlanLine)
    requires line.key in data
    ensures var wo := data[line.key];
      var r := Step(data, st, line).1.value;
      && (r.net > 0 ==> forall i :: 0 <= i < |wo.bom| && Usage(wo.total, wo.bom[i]) > 0.0 ==>
            r.rate <= Ratio(st.inv, wo.total, r.net, line.qty, wo.bom, i))
      && (r.rate == 1.0 || (r.net > 0 && exists i :: (0 <= i < |wo.bom| && Usage(wo.total, wo.bom[i]) > 0.0 &&
                                                       r.rate == Ratio(st.inv, wo.total, r.net, line.qty, wo.bom, i))))
  {
    var wo := data[line.key];
    var net := Step(data, st, line).1.value.net;
    if net > 0 {
      ScanRateLower(line.key, wo.total, net, line.qty, Start(st.inv, st.issued), wo.bom);
      ScanRateAttained(line.key, wo.total, net, line.qty, Start(st.inv, st.issued), wo.bom);
    }
  }

  /** The achievable quantity is covered by every BOM line's stock, and the shortage entries
      are exactly those of the reference list. */
  lemma StepAchievableAndShortages(data: WoData, st: State, line: PlanLine)
    requires line.key in data
    ensures var wo := data[line.key];
      var r := Step(data, st, line).1.value;
      && (forall i :: 0 <= i < |wo.bom| && Usage(wo.total, wo.bom[i]) > 0.0 ==>
            r.achievable <= Producible(st.inv, wo.total, line.qty, wo.bom, i))
      && (r.achievable == r.net || r.achievable == Unbounded ||
          exists i :: 0 <= i < |wo.bom| && Usage(wo.total, wo.bom[i]) > 0.0 &&
            r.achievable == Producible(st.inv, wo.total, line.qty, wo.bom, i))
      && r.shorts == ShortList(st.inv, wo.total, r.net, line.qty, wo.bom)
  {
    var wo := data[line.key];
    var net := Step(data, st, line).1.value.net;
    ScanProducible(line.key, wo.total, net, line.qty, Start(st.inv, st.issued), wo.bom);
    ScanShortages(line.key, wo.total, net, line.qty, Start(st.inv, st.issued), wo.bom);
  }

  // ---------------------------------------------------------------------------------------
  // A whole run.

  /** One result per found line, in processing order, each keeping the arithmetic promises. */
  lemma {:induction false} RunResults(data: WoData, st0: State, lines: seq<PlanLine>)
    ensures var res := Run(data, st0, lines).results;
      && |res| == |Found(data, lines)|
      && (forall j :: 0 <= j < |res| ==> res[j].0 == Found(data, lines)[j])
      && (forall j :: 0 <= j < |res| ==> Sound(res[j].1, res[j].0.qty))
    decreases |lines|
  {
    if |lines| > 0 {
      RunResults(data, st0, lines[..|lines| - 1]);
    }
  }

  /** The rolling property: the result of the `k`-th line, when its work order is found, is
      the one `Step` gives it against the state every earlier line left behind, and it sits
      right after the results of the earlier found lines. */
  lemma {:induction false} RunInOrder(data: WoData, st0: State, lines: seq<PlanLine>, k: nat)
    requires k < |lines| && lines[k].key in data
    ensures |Found(data, lines[..k])| < |Run(data, st0, lines).results|
    ensures Run(data, st0, lines).results[|Found(data, lines[..k])|] ==
              (lines[k], Step(data, Run(data, st0, lines[..k]).state, lines[k]).1.value)
    decreases |lines|
  {
    var n := |lines| - 1;
    var init := lines[..n];
    RunResults(data, st0, init);
    var prev := Run(data, st0, init);
    assert Run(data, st0, lines).results ==
           prev.results + (if lines[n].key in data then [(lines[n], Step(data, prev.state, lines[n]).1.value)] else []);
    if k == n {
      assert init == lines[..k];
    } else {
      RunInOrder(data, st0, init, k);
      assert init[..k] == lines[..k];
      assert init[k] == lines[k];
    }
  }

  /** Every line whose work order is found has its result. */
  lemma RunCovers(data: WoData, st0: State, lines: seq<PlanLine>, l: PlanLine)
    requires l in lines && l.key in data
    ensures exists j :: 0 <= j < |Run(data, st0, lines).results| && Run(data, st0, lines).results[j].0 == l
  {
    var k :| 0 <= k < |lines| && lines[k] == l;
    RunInOrder(data, st0, lines, k);
  }

  /** Every line whose work order is found has a result, for all lines at once. */
  lemma RunComplete(data: WoData, st0: State, lines: seq<PlanLine>)
    ensures forall l :: l in lines && l.key in data ==>
              exists j :: 0 <= j < |Run(data, st0, lines).results| && Run(data, st0, lines).results[j].0 == l
  {
    forall l | l in lines && l.key in data
      ensures exists j :: 0 <= j < |Run(data, st0, lines).results| && Run(data, st0, lines).results[j].0 == l
    {
      RunCovers(data, st0, lines, l);
    }
  }

  /** Every result's row is marked with at least its code, and every marked row carries the
      code of one of its results. */
  ghost predicate CodesAreRowMaxima(rep: Report)
  {
    && (forall j :: 0 <= j < |rep.results| ==>
          rep.results[j].0.row in rep.codes && rep.results[j].1.code <= rep.codes[rep.results[j].0.row])
    && (forall row :: row in rep.codes ==>
          exists j :: 0 <= j < |rep.results| && rep.results[j].0.row == row && rep.codes[row] == rep.results[j].1.code)
  }

  /** A row's code is the largest code among its results, and only rows with a result are
      marked. */
  lemma {:induction false} RunCodes(data: WoData, st0: State, lines: seq<PlanLine>)
    ensures CodesAreRowMaxima(Run(data, st0, lines))
    decreases |lines|
  {
    if |lines| > 0 {
      var prev := Run(data, st0, lines[..|lines| - 1]);
      RunCodes(data, st0, lines[..|lines| - 1]);
      var rep := Run(data, st0, lines);
      var line := lines[|lines| - 1];
      if line.key in data {
        var res := Step(data, prev.state, line).1.value;
        assert res.code >= 1;
        assert rep.results == prev.results + [(line, res)];
        assert rep.codes == Priority.Raise(prev.codes, line.row, res.code);
        forall j | 0 <= j < |rep.results|
          ensures rep.results[j].0.row in rep.codes && rep.results[j].1.code <= rep.codes[rep.results[j].0.row]
        {
          if j < |prev.results| {
            assert rep.results[j] == prev.results[j];
          }
        }
        forall row | row in rep.codes
          ensures exists j :: 0 <= j < |rep.results| && rep.results[j].0.row == row && rep.codes[row] == rep.results[j].1.code
        {
          if row == line.row && rep.codes[row] == res.code {
            assert rep.results[|prev.results|] == (line, res);
          } else {
            assert row in prev.codes && rep.codes[row] == prev.codes[row];
            var j :| 0 <= j < |prev.results| && prev.results[j].0.row == row && prev.codes[row] == prev.results[j].1.code;
            assert rep.results[j] == prev.results[j];
          }
        }
      } else {
        assert rep == Report(rep.state, prev.results, prev.codes);
        forall j | 0 <= j < |rep.results|
          ensures rep.results[j].0.row in rep.codes && rep.results[j].1.code <= rep.codes[rep.results[j].0.row]
        {
          assert rep.results[j] == prev.results[j];
        }
        forall row | row in rep.codes
          ensures exists j :: 0 <= j < |rep.results| && rep.results[j].0.row == row && rep.codes[row] == rep.results[j].1.code
        {
          var j :| 0 <= j < |prev.results| && prev.results[j].0.row == row && prev.codes[row] == prev.results[j].1.code;
          assert rep.results[j] == prev.results[j];
        }
      }
    }
  }

  /** A row's code never decreases as more lines are processed. */
  lemma {:induction false} CodesNeverDecrease(data: WoData, st0: State, lines: seq<PlanLine>, n: nat)
    requires n <= |lines|
    ensures forall row :: row in Run(data, st0, lines[..n]).codes ==>
              row in Run(data, st0, lines).codes &&
              Run(data, st0, lines[..n]).codes[row] <= Run(data, st0, lines).codes[row]
    decreases |lines| - n
  {
    if n < |lines| {
      CodesNeverDecrease(data, st0, lines, n + 1);
      assert lines[..n + 1][..n] == lines[..n];
    } else {
      assert lines[..n] == lines;
    }
  }

  /** Over a whole run, each part's stock falls by exactly what the processed lines drew,
      and each work order's ledger entry rises by what its own lines drew. */
  lemma {:induction false} RunDeduction(data: WoData, st0: State, lines: seq<PlanLine>)
    ensures forall p :: Stock(Run(data, st0, lines).state.inv, p) == Stock(st0.inv, p) - TotalDrawn(data, lines, p)
    ensures forall key, p :: Issued(Run(data, st0, lines).state.issued, LedgerKeyOf(key, p)) ==
              Issued(st0.issued, LedgerKeyOf(key, p)) + KeyDrawn(data, lines, key, p)
    decreases |lines|
  {
    if |lines| > 0 {
      var prev := Run(data, st0, lines[..|lines| - 1]);
      var line := lines[|lines| - 1];
      RunDeduction(data, st0, lines[..|lines| - 1]);
      if line.key in data {
        StepDeduction(data, prev.state, line);
        forall key, p
          ensures Issued(Run(data, st0, lines).state.issued, LedgerKeyOf(key, p)) ==
                  Issued(st0.issued, LedgerKeyOf(key, p)) + KeyDrawn(data, lines, key, p)
        {
          if key != line.key {
            assert (LedgerKeyOf(key, p).0, LedgerKeyOf(key, p).1) != line.key;
          }
        }
      }
    }
  }
}
