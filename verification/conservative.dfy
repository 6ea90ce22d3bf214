/** The earlier revision's simulation (1.py:473-552): plan lines of one date are checked in
    order against a running copy of the inventory. Each BOM component's demand is clamped by
    what the order may still be issued (the static `iss` of the BOM data, never updated), the
    kitting rate counts kitted components, and stock is deducted only when every counted
    component is kitted. */
module Conservative {
  import opened Domain

  /** Floating-point tolerance of the demand and coverage tests. */
  const Tolerance: real := 0.0001

  /** Initial value of the least producible-set count. */
  const SetsCap: int := 9999999

  /** One plan line of a date: the work order and the planned quantity of that day. */
  datatype DailyPlan = DailyPlan(key: WoKey, daily: real)

  /** One uncovered component: its part, its name and how much stock is missing. */
  datatype Shortfall = Shortfall(part: Part, name: string, missing: real)

  /** The shortage text of a result: the work order was not found (or has no BOM), or the
      list of uncovered components, empty when nothing is short. */
  datatype Note = NoErpInfo | Parts(shortfalls: seq<Shortfall>)

  datatype Outcome = Outcome(rate: real, achievable: int, note: Note, isShort: bool)

  /** A component's demand for the day: what is still issuable, but no more than the day's
      theoretical consumption. */
  function Demand(total: real, daily: real, b: BomLine): (d: real)
    ensures d <= MaxReal(0.0, b.req - b.iss) && d <= daily * Usage(total, b)
    ensures d == MaxReal(0.0, b.req - b.iss) || d == daily * Usage(total, b)
  {
    MinReal(MaxReal(0.0, b.req - b.iss), daily * Usage(total, b))
  }

  /** A component takes part in the rate, the achievable count and the deduction. */
  predicate Counted(total: real, daily: real, b: BomLine)
  {
    Demand(total, daily, b) > Tolerance
  }

  /** Stock covers a demand up to the tolerance. */
  predicate Covered(stock: real, demand: real)
  {
    stock >= demand - Tolerance
  }

  /** A counted component whose stock does not cover its demand. */
  predicate ShortLine(inv: Inventory, total: real, daily: real, b: BomLine)
  {
    Counted(total, daily, b) && !Covered(Stock(inv, b.part), Demand(total, daily, b))
  }

  /** The shortfall entry of a component. */
  function ShortfallOf(inv: Inventory, total: real, daily: real, b: BomLine): Shortfall
  {
    Shortfall(b.part, b.name, Demand(total, daily, b) - Stock(inv, b.part))
  }

  /** The shortfall entries in BOM order: one for each short component. */
  function ShortfallList(inv: Inventory, total: real, daily: real, bom: seq<BomLine>): seq<Shortfall>
    decreases |bom|
  {
    if |bom| == 0 then []
    else
      var b := bom[|bom| - 1];
      ShortfallList(inv, total, daily, bom[..|bom| - 1]) +
      (if ShortLine(inv, total, daily, b) then [ShortfallOf(inv, total, daily, b)] else [])
  }

  /** The indices of the counted components. */
  function CountedIndices(total: real, daily: real, bom: seq<BomLine>): set<int>
  {
    set i | 0 <= i < |bom| && Counted(total, daily, bom[i])
  }

  /** The indices of the counted components whose stock covers their demand. */
  function KittedIndices(inv: Inventory, total: real, daily: real, bom: seq<BomLine>): set<int>
  {
    set i | 0 <= i < |bom| && Counted(total, daily, bom[i]) && Covered(Stock(inv, bom[i].part), Demand(total, daily, bom[i]))
  }

  /** Whole finished units the stock covers (`int(stock // u)`), or the sentinel when the
      usage is not positive. The stock is not floored at zero. */
  function CanMake(stock: real, u: real): (n: int)
    ensures u > 0.0 ==> n as real * u <= stock < (n + 1) as real * u
    ensures u <= 0.0 ==> n == Unbounded
  {
    if u > 0.0 then FloorDiv(stock, u) else Unbounded
  }

  /** Running totals of one BOM pass: counted components, kitted ones, the shortfalls, the
      pending deductions per part, the least producible-set count and the kitting flag. */
  datatype Tally = Tally(needed: nat, kitted: nat, shorts: seq<Shortfall>,
                         deduct: map<Part, real>, minSets: int, fully: bool)

  const Empty: Tally := Tally(0, 0, [], map[], SetsCap, true)

  /** One BOM component. Stock is read from the inventory as it was before the line: the
      pass itself changes nothing. A later line of the same part overwrites its deduction. */
  function Visit(inv: Inventory, total: real, daily: real, t: Tally, b: BomLine): Tally
  {
    var d := Demand(total, daily, b);
    if d <= Tolerance then t
    else
      var stk := Stock(inv, b.part);
      var ok := Covered(stk, d);
      Tally(t.needed + 1,
            if ok then t.kitted + 1 else t.kitted,
            if ok then t.shorts else t.shorts + [ShortfallOf(inv, total, daily, b)],
            t.deduct[b.part := d],
            MinInt(t.minSets, CanMake(stk, Usage(total, b))),
            t.fully && ok)
  }

  /** The pass over a whole BOM. The counts agree with one another, and the line is fully
      kitted exactly when no counted component is short. */
  function TallyBom(inv: Inventory, total: real, daily: real, bom: seq<BomLine>): (t: Tally)
    ensures t.kitted <= t.needed
    ensures |t.shorts| + t.kitted == t.needed
    ensures t.fully <==> t.kitted == t.needed
    ensures t.needed == 0 <==> forall i :: 0 <= i < |bom| ==> !Counted(total, daily, bom[i])
    ensures t.fully <==> forall i :: 0 <= i < |bom| ==> !ShortLine(inv, total, daily, bom[i])
    decreases |bom|
  {
    if |bom| == 0 then Empty
    else
      var init := bom[..|bom| - 1];
      assert forall i :: 0 <= i < |init| ==> init[i] == bom[i];
      Visit(inv, total, daily, TallyBom(inv, total, daily, init), bom[|bom| - 1])
  }

  /** A part has a pending deduction exactly when some counted component names it, and the
      amount is always above the tolerance. */
  lemma {:induction false} DeductKeys(inv: Inventory, total: real, daily: real, bom: seq<BomLine>)
    ensures forall p :: p in TallyBom(inv, total, daily, bom).deduct <==>
              exists i :: 0 <= i < |bom| && Counted(total, daily, bom[i]) && bom[i].part == p
    ensures forall p :: p in TallyBom(inv, total, daily, bom).deduct ==>
              TallyBom(inv, total, daily, bom).deduct[p] > Tolerance
    decreases |bom|
  {
    if |bom| > 0 {
      var init := bom[..|bom| - 1];
      var b := bom[|bom| - 1];
      DeductKeys(inv, total, daily, init);
      assert forall i :: 0 <= i < |init| ==> init[i] == bom[i];
      var t := TallyBom(inv, total, daily, init);
      forall p | p in TallyBom(inv, total, daily, bom).deduct
        ensures exists i :: 0 <= i < |bom| && Counted(total, daily, bom[i]) && bom[i].part == p
      {
        if p !in t.deduct || (Counted(total, daily, b) && p == b.part) {
          assert bom[|bom| - 1] == b;
        }
      }
    }
  }

  /** The pending deduction of a part is the demand of the last counted component naming it. */
  lemma {:induction false} DeductLastWins(inv: Inventory, total: real, daily: real, bom: seq<BomLine>, i: nat)
    requires i < |bom| && Counted(total, daily, bom[i])
    requires forall j :: i < j < |bom| && bom[j].part == bom[i].part ==> !Counted(total, daily, bom[j])
    ensures bom[i].part in TallyBom(inv, total, daily, bom).deduct
    ensures TallyBom(inv, total, daily, bom).deduct[bom[i].part] == Demand(total, daily, bom[i])
    decreases |bom|
  {
    var init := bom[..|bom| - 1];
    if i < |bom| - 1 {
      assert init[i] == bom[i];
      DeductLastWins(inv, total, daily, init, i);
    }
  }

  /** When the line is fully kitted every pending deduction is covered by the stock the line
      saw, so every deducted part is present in the inventory. */
  lemma {:induction false} DeductCovered(inv: Inventory, total: real, daily: real, bom: seq<BomLine>)
    ensures TallyBom(inv, total, daily, bom).fully ==>
              forall p :: p in TallyBom(inv, total, daily, bom).deduct ==>
                Covered(Stock(inv, p), TallyBom(inv, total, daily, bom).deduct[p]) && p in inv
    decreases |bom|
  {
    if |bom| > 0 {
      var init := bom[..|bom| - 1];
      DeductCovered(inv, total, daily, init);
      DeductKeys(inv, total, daily, init);
      DeductKeys(inv, total, daily, bom);
    }
  }

  /** The pass records its shortfalls in BOM order, one per short component. */
  lemma {:induction false} ShortfallsInOrder(inv: Inventory, total: real, daily: real, bom: seq<BomLine>)
    ensures TallyBom(inv, total, daily, bom).shorts == ShortfallList(inv, total, daily, bom)
    decreases |bom|
  {
    if |bom| > 0 {
      ShortfallsInOrder(inv, total, daily, bom[..|bom| - 1]);
    }
  }

  /** The BOM-order list holds exactly the entries of the short components. */
  lemma {:induction false} ShortfallListMembers(inv: Inventory, total: real, daily: real, bom: seq<BomLine>)
    ensures forall e :: e in ShortfallList(inv, total, daily, bom) ==>
              exists i :: 0 <= i < |bom| && ShortLine(inv, total, daily, bom[i]) && e == ShortfallOf(inv, total, daily, bom[i])
    ensures forall i :: 0 <= i < |bom| && ShortLine(inv, total, daily, bom[i]) ==>
              ShortfallOf(inv, total, daily, bom[i]) in ShortfallList(inv, total, daily, bom)
    decreases |bom|
  {
    if |bom| > 0 {
      var init := bom[..|bom| - 1];
      var b := bom[|bom| - 1];
      ShortfallListMembers(inv, total, daily, init);
      assert forall i :: 0 <= i < |init| ==> init[i] == bom[i];
      var prev := ShortfallList(inv, total, daily, init);
      var shorts := ShortfallList(inv, total, daily, bom);
      forall e | e in shorts
        ensures exists i :: 0 <= i < |bom| && ShortLine(inv, total, daily, bom[i]) && e == ShortfallOf(inv, total, daily, bom[i])
      {
        if e in prev {
          var i :| 0 <= i < |init| && ShortLine(inv, total, daily, init[i]) && e == ShortfallOf(inv, total, daily, init[i]);
          assert bom[i] == init[i];
        } else {
          assert ShortLine(inv, total, daily, bom[|bom| - 1]);
        }
      }
      forall i | 0 <= i < |bom| && ShortLine(inv, total, daily, bom[i])
        ensures ShortfallOf(inv, total, daily, bom[i]) in shorts
      {
        if i < |init| {
          assert ShortfallOf(inv, total, daily, init[i]) in prev;
        }
      }
    } else {
      assert ShortfallList(inv, total, daily, bom) == [];
    }
  }

  /** The shortfall list of a pass is the BOM-order list of the short components' entries,
      so it holds exactly those entries. */
  lemma Shortfalls(inv: Inventory, total: real, daily: real, bom: seq<BomLine>)
    ensures TallyBom(inv, total, daily, bom).shorts == ShortfallList(inv, total, daily, bom)
    ensures forall e :: e in TallyBom(inv, total, daily, bom).shorts ==>
              exists i :: 0 <= i < |bom| && ShortLine(inv, total, daily, bom[i]) && e == ShortfallOf(inv, total, daily, bom[i])
    ensures forall i :: 0 <= i < |bom| && ShortLine(inv, total, daily, bom[i]) ==>
              ShortfallOf(inv, total, daily, bom[i]) in TallyBom(inv, total, daily, bom).shorts
  {
    ShortfallsInOrder(inv, total, daily, bom);
    ShortfallListMembers(inv, total, daily, bom);
  }

  lemma CountedIndicesSnoc(total: real, daily: real, bom: seq<BomLine>)
    requires |bom| > 0
    ensures var n := |bom| - 1;
      CountedIndices(total, daily, bom) ==
        CountedIndices(total, daily, bom[..n]) + (if Counted(total, daily, bom[n]) then {n} else {})
  {
    var n := |bom| - 1;
    assert forall i :: 0 <= i < n ==> bom[..n][i] == bom[i];
  }

  lemma KittedIndicesSnoc(inv: Inventory, total: real, daily: real, bom: seq<BomLine>)
    requires |bom| > 0
    ensures var n := |bom| - 1;
      KittedIndices(inv, total, daily, bom) ==
        KittedIndices(inv, total, daily, bom[..n]) +
        (if Counted(total, daily, bom[n]) && Covered(Stock(inv, bom[n].part), Demand(total, daily, bom[n])) then {n} else {})
  {
    var n := |bom| - 1;
    assert forall i :: 0 <= i < n ==> bom[..n][i] == bom[i];
  }

  /** `items_needed` counts the counted components and `items_kitted` the covered ones. */
  lemma {:induction false} TallyCounts(inv: Inventory, total: real, daily: real, bom: seq<BomLine>)
    ensures TallyBom(inv, total, daily, bom).needed == |CountedIndices(total, daily, bom)|
    ensures TallyBom(inv, total, daily, bom).kitted == |KittedIndices(inv, total, daily, bom)|
    decreases |bom|
  {
    if |bom| == 0 {
      assert CountedIndices(total, daily, bom) == {};
      assert KittedIndices(inv, total, daily, bom) == {};
    } else {
      var n := |bom| - 1;
      TallyCounts(inv, total, daily, bom[..n]);
      CountedIndicesSnoc(total, daily, bom);
      KittedIndicesSnoc(inv, total, daily, bom);
      assert n !in CountedIndices(total, daily, bom[..n]);
      assert n !in KittedIndices(inv, total, daily, bom[..n]);
    }
  }

  /** The least producible-set count is at most the sentinel and every counted component's
      count, and it is the sentinel or one of those counts. */
  lemma {:induction false} LeastSets(inv: Inventory, total: real, daily: real, bom: seq<BomLine>)
    ensures TallyBom(inv, total, daily, bom).minSets <= SetsCap
    ensures forall i :: 0 <= i < |bom| && Counted(total, daily, bom[i]) ==>
              TallyBom(inv, total, daily, bom).minSets <= CanMake(Stock(inv, bom[i].part), Usage(total, bom[i]))
    ensures TallyBom(inv, total, daily, bom).minSets == SetsCap ||
            exists i :: (0 <= i < |bom| && Counted(total, daily, bom[i]) &&
                         TallyBom(inv, total, daily, bom).minSets == CanMake(Stock(inv, bom[i].part), Usage(total, bom[i])))
    decreases |bom|
  {
    if |bom| > 0 {
      var init := bom[..|bom| - 1];
      LeastSets(inv, total, daily, init);
      assert forall i :: 0 <= i < |init| ==> init[i] == bom[i];
    }
  }

  /** Applies the pending deductions of a fully kitted line; other parts keep their stock. */
  function Deduct(inv: Inventory, deduct: map<Part, real>): (inv': Inventory)
    requires deduct.Keys <= inv.Keys
    ensures inv'.Keys == inv.Keys
    ensures forall p :: p in deduct ==> inv'[p] + deduct[p] == inv[p]
    ensures forall p :: p in inv && p !in deduct ==> inv'[p] == inv[p]
  {
    map p | p in inv :: if p in deduct then inv[p] - deduct[p] else inv[p]
  }

  /** Whether a plan line finds its work order with a non-empty BOM. */
  predicate HasBom(data: WoData, key: WoKey)
  {
    key in data && |data[key].bom| > 0
  }

  /** The result of a BOM pass: the rate counts kitted components (one when none is
      counted), the achievable count is the day's whole quantity capped by the least
      producible count, and a pass with no counted component is fully kitted. */
  function Conclude(t: Tally, daily: real): (res: Outcome)
    requires t.kitted <= t.needed
    ensures 0.0 <= res.rate <= 1.0
    ensures res.achievable <= Trunc(daily)
    ensures res.isShort <==> t.needed > 0 && !t.fully
    ensures res.rate < 1.0 <==> t.kitted < t.needed
    ensures t.needed > 0 ==> res.rate == t.kitted as real / t.needed as real
    ensures t.needed == 0 ==> res.rate == 1.0 && res.achievable == Trunc(daily) && !res.isShort
    ensures res.note == Parts(t.shorts)
  {
    var whole := Trunc(daily);
    var achievable := if t.needed == 0 then whole else MinInt(whole, t.minSets);
    var fully := if t.needed == 0 then true else t.fully;
    var rate := if t.needed > 0 then Fraction(t.kitted, t.needed); t.kitted as real / t.needed as real else 1.0;
    Outcome(rate, achievable, Parts(t.shorts), !fully)
  }

  /** A count ratio lies in [0, 1] and is one only for equal counts. */
  lemma Fraction(a: nat, b: nat)
    requires 0 < b && a <= b
    ensures 0.0 <= a as real / b as real <= 1.0
    ensures a as real / b as real < 1.0 <==> a < b
  {
    var q := a as real / b as real;
    assert q * b as real == a as real;
    if q > 1.0 {
      MulStrict(1.0, q, b as real);
    }
    if a < b && q >= 1.0 {
      MulMonotone(1.0, q, b as real);
    }
    if a == b {
      assert q == 1.0;
    }
  }

  /** A fully kitted pass can be deducted: each deducted part is present, loses stock, and
      keeps at least the negative tolerance. */
  lemma DeductSafe(inv: Inventory, total: real, daily: real, bom: seq<BomLine>)
    requires TallyBom(inv, total, daily, bom).fully
    ensures TallyBom(inv, total, daily, bom).deduct.Keys <= inv.Keys
    ensures var inv' := Deduct(inv, TallyBom(inv, total, daily, bom).deduct);
      forall p :: p in inv ==> inv'[p] <= inv[p] && (inv'[p] == inv[p] || inv'[p] >= -Tolerance)
  {
    DeductKeys(inv, total, daily, bom);
    DeductCovered(inv, total, daily, bom);
  }

  /** One plan line against the running inventory: its result and the inventory after it. */
  function Step(data: WoData, inv: Inventory, plan: DailyPlan): (r: (Outcome, Inventory))
    ensures !HasBom(data, plan.key) ==> r == (Outcome(0.0, 0, NoErpInfo, true), inv)
    ensures 0.0 <= r.0.rate <= 1.0
    ensures r.0.achievable <= Trunc(plan.daily) || !HasBom(data, plan.key)
    ensures r.1.Keys == inv.Keys
    ensures r.0.isShort ==> r.1 == inv
    ensures forall p :: p in inv ==> r.1[p] <= inv[p] && (r.1[p] == inv[p] || r.1[p] >= -Tolerance)
  {
    if !HasBom(data, plan.key) then (Outcome(0.0, 0, NoErpInfo, true), inv)
    else
      var wo := data[plan.key];
      var t := TallyBom(inv, wo.total, plan.daily, wo.bom);
      var result := Conclude(t, plan.daily);
      if !result.isShort then
        assert t.fully;
        DeductSafe(inv, wo.total, plan.daily, wo.bom);
        (result, Deduct(inv, t.deduct))
      else (result, inv)
  }

  /** The result of a line whose work order is found. The line is short exactly when some
      counted component is short, exactly when the shortfall list is non-empty, exactly when
      the rate is below one. */
  lemma StepShort(data: WoData, inv: Inventory, plan: DailyPlan)
    requires HasBom(data, plan.key)
    ensures var r := Step(data, inv, plan).0;
      && r.note.Parts?
      && (r.isShort <==> exists i :: 0 <= i < |data[plan.key].bom| &&
                                    ShortLine(inv, data[plan.key].total, plan.daily, data[plan.key].bom[i]))
      && (r.isShort <==> r.note.shortfalls != [])
      && (r.isShort <==> r.rate < 1.0)
  {
    var wo := data[plan.key];
    var t := TallyBom(inv, wo.total, plan.daily, wo.bom);
    assert Step(data, inv, plan).0 == Conclude(t, plan.daily);
  }

  /** The rate is the number of covered counted components over the number of counted
      components, and one when no component is counted. */
  lemma StepRate(data: WoData, inv: Inventory, plan: DailyPlan)
    requires HasBom(data, plan.key)
    ensures var wo := data[plan.key];
      var r := Step(data, inv, plan).0;
      var needed := |CountedIndices(wo.total, plan.daily, wo.bom)|;
      var kitted := |KittedIndices(inv, wo.total, plan.daily, wo.bom)|;
      && (needed > 0 ==> r.rate == kitted as real / needed as real)
      && (needed == 0 ==> r.rate == 1.0)
  {
    var wo := data[plan.key];
    var t := TallyBom(inv, wo.total, plan.daily, wo.bom);
    TallyCounts(inv, wo.total, plan.daily, wo.bom);
    assert Step(data, inv, plan).0 == Conclude(t, plan.daily);
  }

  /** The achievable count: the day's whole quantity when no component is counted, otherwise
      capped by every counted component's producible count and equal to one of the caps. */
  lemma StepAchievable(data: WoData, inv: Inventory, plan: DailyPlan)
    requires HasBom(data, plan.key)
    ensures var wo := data[plan.key];
      var r := Step(data, inv, plan).0;
      && ((forall i :: 0 <= i < |wo.bom| ==> !Counted(wo.total, plan.daily, wo.bom[i])) ==>
            r.achievable == Trunc(plan.daily) && !r.isShort && r.rate == 1.0)
      && (forall i :: 0 <= i < |wo.bom| && Counted(wo.total, plan.daily, wo.bom[i]) ==>
            r.achievable <= CanMake(Stock(inv, wo.bom[i].part), Usage(wo.total, wo.bom[i])))
      && ((exists i :: 0 <= i < |wo.bom| && Counted(wo.total, plan.daily, wo.bom[i])) ==> r.achievable <= SetsCap)
      && (r.achievable == Trunc(plan.daily) || r.achievable == SetsCap ||
          exists i :: (0 <= i < |wo.bom| && Counted(wo.total, plan.daily, wo.bom[i]) &&
                       r.achievable == CanMake(Stock(inv, wo.bom[i].part), Usage(wo.total, wo.bom[i]))))
  {
    LeastSets(inv, data[plan.key].total, plan.daily, data[plan.key].bom);
  }

  /** All-or-nothing deduction: a short line leaves the inventory as it was; a kitted line
      lowers each counted part by the demand of its last counted component and leaves every
      other part as it was. */
  lemma StepDeduction(data: WoData, inv: Inventory, plan: DailyPlan)
    requires HasBom(data, plan.key)
    ensures var wo := data[plan.key];
      var r := Step(data, inv, plan);
      && (r.0.isShort ==> r.1 == inv)
      && (!r.0.isShort ==>
            && (forall i :: (0 <= i < |wo.bom| && Counted(wo.total, plan.daily, wo.bom[i]) &&
                             (forall j :: i < j < |wo.bom| && wo.bom[j].part == wo.bom[i].part ==>
                                           !Counted(wo.total, plan.daily, wo.bom[j]))) ==>
                  wo.bom[i].part in inv &&
                  r.1[wo.bom[i].part] == inv[wo.bom[i].part] - Demand(wo.total, plan.daily, wo.bom[i]))
            && (forall p :: p in inv && (forall i :: 0 <= i < |wo.bom| && wo.bom[i].part == p ==>
                                           !Counted(wo.total, plan.daily, wo.bom[i])) ==>
                  r.1[p] == inv[p]))
  {
    var wo := data[plan.key];
    var t := TallyBom(inv, wo.total, plan.daily, wo.bom);
    DeductKeys(inv, wo.total, plan.daily, wo.bom);
    DeductCovered(inv, wo.total, plan.daily, wo.bom);
    forall i | 0 <= i < |wo.bom| && Counted(wo.total, plan.daily, wo.bom[i]) &&
               (forall j :: i < j < |wo.bom| && wo.bom[j].part == wo.bom[i].part ==>
                             !Counted(wo.total, plan.daily, wo.bom[j]))
      ensures wo.bom[i].part in t.deduct && t.deduct[wo.bom[i].part] == Demand(wo.total, plan.daily, wo.bom[i])
    {
      DeductLastWins(inv, wo.total, plan.daily, wo.bom, i);
    }
  }

  /** The whole date: one result per plan line, in order, and the inventory after the last
      line. The inventory never gains stock, and a fully kitted line never pushes a part
      below the negative tolerance, so stock that starts above it stays above it. */
  function Simulate(data: WoData, inv: Inventory, plans: seq<DailyPlan>): (r: (seq<Outcome>, Inventory))
    ensures |r.0| == |plans|
    ensures r.1.Keys == inv.Keys
    ensures forall p :: p in inv ==> r.1[p] <= inv[p]
    ensures forall p :: p in inv && inv[p] >= -Tolerance ==> r.1[p] >= -Tolerance
    decreases |plans|
  {
    if |plans| == 0 then ([], inv)
    else
      var before := Simulate(data, inv, plans[..|plans| - 1]);
      var step := Step(data, before.1, plans[|plans| - 1]);
      (before.0 + [step.0], step.1)
  }

  /** The `i`-th result is the result of the `i`-th plan line against the inventory left by
      the lines before it. */
  lemma {:induction false} SimulateInOrder(data: WoData, inv: Inventory, plans: seq<DailyPlan>, i: nat)
    requires i < |plans|
    ensures Simulate(data, inv, plans).0[i] == Step(data, Simulate(data, inv, plans[..i]).1, plans[i]).0
    decreases |plans|
  {
    var init := plans[..|plans| - 1];
    if i < |plans| - 1 {
      SimulateInOrder(data, inv, init, i);
      assert init[..i] == plans[..i];
      assert init[i] == plans[i];
    } else {
      assert init == plans[..i];
    }
  }
}
