/** The per-line BOM scan of the current revision (main.py:206-218): kitting rate,
    producible sets and shortages against the running inventory, with the forced deduction
    of `plan_qty * u` from inventory (and onto the issued ledger) performed inside the loop,
    so that a part repeated later in the same BOM already sees the reduced stock. */
module Detector {
  import opened Domain

  /** A shortage entry: part, display name, unit and the quantity missing. */
  datatype Shortage = Shortage(part: Part, name: string, unit: string, missing: real)

  /** Absolute tolerance of the shortage test in main.py. */
  const Tolerance: real := 0.001

  /** What the scan threads from one BOM line to the next. */
  datatype Scan = Scan(inv: Inventory, issued: Ledger, minRate: real, canDo: int, shorts: seq<Shortage>)

  /** The scan state before the first BOM line of a plan line. */
  function Start(inv: Inventory, issued: Ledger): Scan
  {
    Scan(inv, issued, 1.0, Unbounded, [])
  }

  /** One iteration of the BOM loop for line `b`; lines without positive usage are skipped. */
  function Visit(key: WoKey, total: real, net: nat, qty: nat, a: Scan, b: BomLine): Scan
  {
    var u := Usage(total, b);
    if u <= 0.0 then a
    else
      var stk := MaxReal(0.0, Stock(a.inv, b.part));
      var need := net as real * u;
      var rate := if net > 0 && Quotient(stk, need) < a.minRate then Quotient(stk, need) else a.minRate;
      var shorts := a.shorts + ShortEntry(b, u, net, stk);
      var k := LedgerKeyOf(key, b.part);
      Scan(a.inv[b.part := Stock(a.inv, b.part) - qty as real * u],
           a.issued[k := Issued(a.issued, k) + qty as real * u],
           rate, MinInt(a.canDo, FloorDiv(stk, u)), shorts)
  }

  /** The shortage entry of one BOM line with usage `u > 0` and zero-floored stock `stk`:
      present exactly when `stk < net * u - 0.001`, recording the shortfall `net * u - stk`. */
  function ShortEntry(b: BomLine, u: real, net: nat, stk: real): (e: seq<Shortage>)
    ensures |e| <= 1
    ensures |e| == 1 <==> u > 0.0 && stk < net as real * u - Tolerance
    ensures |e| == 1 ==> e[0] == Shortage(b.part, b.name, b.unit, net as real * u - stk) && e[0].missing > Tolerance
  {
    if u > 0.0 && stk < net as real * u - Tolerance then [Shortage(b.part, b.name, b.unit, net as real * u - stk)]
    else []
  }

  /** The BOM loop: the lines are visited in BOM order. */
  function ScanBom(key: WoKey, total: real, net: nat, qty: nat, a: Scan, bom: seq<BomLine>): Scan
    decreases |bom|
  {
    if |bom| == 0 then a
    else Visit(key, total, net, qty, ScanBom(key, total, net, qty, a, bom[..|bom| - 1]), bom[|bom| - 1])
  }

  // ---------------------------------------------------------------------------------------
  // Reference definitions, stated against the inventory as it was before the plan line.

  /** What the BOM lines draw from part `p` for `qty` units: `qty * u` per line of `p` with
      positive usage. */
  function Drawn(total: real, qty: nat, bom: seq<BomLine>, p: Part): real
    decreases |bom|
  {
    if |bom| == 0 then 0.0
    else
      var b := bom[|bom| - 1];
      Drawn(total, qty, bom[..|bom| - 1], p) +
      (if b.part == p && Usage(total, b) > 0.0 then qty as real * Usage(total, b) else 0.0)
  }

  /** The parts that some BOM line with positive usage names. */
  function PositiveParts(total: real, bom: seq<BomLine>): set<Part>
  {
    set i | 0 <= i < |bom| && Usage(total, bom[i]) > 0.0 :: bom[i].part
  }

  /** The stock that BOM line `i` sees: the starting stock of its part less what the earlier
      lines of the same BOM already drew. */
  function SeenStock(inv0: Inventory, total: real, qty: nat, bom: seq<BomLine>, i: nat): real
    requires i < |bom|
  {
    Stock(inv0, bom[i].part) - Drawn(total, qty, bom[..i], bom[i].part)
  }

  /** Real division, kept as one symbol so that equal operands give equal ratios. */
  function Quotient(x: real, y: real): (q: real)
    requires y > 0.0
    ensures x >= 0.0 ==> q >= 0.0
  {
    x / y
  }

  /** Stock-to-demand ratio of BOM line `i`, with the stock floored at zero. */
  function Ratio(inv0: Inventory, total: real, net: nat, qty: nat, bom: seq<BomLine>, i: nat): real
    requires i < |bom| && net > 0 && Usage(total, bom[i]) > 0.0
  {
    Quotient(MaxReal(0.0, SeenStock(inv0, total, qty, bom, i)), net as real * Usage(total, bom[i]))
  }

  /** Whole units the stock seen by line `i` covers, with the stock floored at zero. */
  function Producible(inv0: Inventory, total: real, qty: nat, bom: seq<BomLine>, i: nat): int
    requires i < |bom| && Usage(total, bom[i]) > 0.0
  {
    FloorDiv(MaxReal(0.0, SeenStock(inv0, total, qty, bom, i)), Usage(total, bom[i]))
  }

  /** The shortage entries, in BOM order: one for each line with positive usage whose seen
      stock (floored at zero) falls short of `net * u` by more than the tolerance. */
  function ShortList(inv0: Inventory, total: real, net: nat, qty: nat, bom: seq<BomLine>): seq<Shortage>
    decreases |bom|
  {
    if |bom| == 0 then []
    else
      var i := |bom| - 1;
      var b := bom[i];
      var u := Usage(total, b);
      var stk := MaxReal(0.0, SeenStock(inv0, total, qty, bom, i));
      ShortList(inv0, total, net, qty, bom[..i]) + ShortEntry(b, u, net, stk)
  }

  // ---------------------------------------------------------------------------------------
  // What the scan computes.

  lemma SeenStockPrefix(inv0: Inventory, total: real, qty: nat, bom: seq<BomLine>, n: nat, i: nat)
    requires i < n <= |bom|
    ensures SeenStock(inv0, total, qty, bom[..n], i) == SeenStock(inv0, total, qty, bom, i)
  {
    assert bom[..n][..i] == bom[..i];
  }

  /** One BOM line's effect on inventory. */
  lemma VisitInventory(key: WoKey, total: real, net: nat, qty: nat, a: Scan, b: BomLine)
    ensures forall p :: Stock(Visit(key, total, net, qty, a, b).inv, p) ==
              Stock(a.inv, p) - (if b.part == p && Usage(total, b) > 0.0 then qty as real * Usage(total, b) else 0.0)
    ensures Visit(key, total, net, qty, a, b).inv.Keys ==
              a.inv.Keys + (if Usage(total, b) > 0.0 then {b.part} else {})
  {
  }

  lemma PositivePartsSnoc(total: real, bom: seq<BomLine>)
    requires |bom| > 0
    ensures PositiveParts(total, bom) == PositiveParts(total, bom[..|bom| - 1]) +
              (if Usage(total, bom[|bom| - 1]) > 0.0 then {bom[|bom| - 1].part} else {})
  {
    var init := bom[..|bom| - 1];
    assert forall i :: 0 <= i < |init| ==> init[i] == bom[i];
  }

  /** Forced deduction on inventory: every line with positive usage lowers its part by
      `qty * u`, shortage or not, possibly below zero; no other part changes, and the only
      keys added are the parts the BOM draws on. */
  lemma {:induction false} ScanInventory(key: WoKey, total: real, net: nat, qty: nat, a: Scan, bom: seq<BomLine>)
    ensures forall p :: Stock(ScanBom(key, total, net, qty, a, bom).inv, p) == Stock(a.inv, p) - Drawn(total, qty, bom, p)
    ensures ScanBom(key, total, net, qty, a, bom).inv.Keys == a.inv.Keys + PositiveParts(total, bom)
    decreases |bom|
  {
    if |bom| > 0 {
      var init := bom[..|bom| - 1];
      var prev := ScanBom(key, total, net, qty, a, init);
      ScanInventory(key, total, net, qty, a, init);
      VisitInventory(key, total, net, qty, prev, bom[|bom| - 1]);
      PositivePartsSnoc(total, bom);
    }
  }

  /** Forced deduction on the ledger: the line's work order gains `qty * u` per line with
      positive usage; no other work order's entry changes. */
  lemma {:induction false} ScanLedger(key: WoKey, total: real, net: nat, qty: nat, a: Scan, bom: seq<BomLine>)
    ensures forall p :: Issued(ScanBom(key, total, net, qty, a, bom).issued, LedgerKeyOf(key, p)) ==
                        Issued(a.issued, LedgerKeyOf(key, p)) + Drawn(total, qty, bom, p)
    ensures forall k: LedgerKey :: (k.0, k.1) != key ==>
              (k in ScanBom(key, total, net, qty, a, bom).issued <==> k in a.issued) &&
              Issued(ScanBom(key, total, net, qty, a, bom).issued, k) == Issued(a.issued, k)
    decreases |bom|
  {
    if |bom| > 0 {
      var init := bom[..|bom| - 1];
      assert forall i :: 0 <= i < |init| ==> init[i] == bom[i];
      ScanLedger(key, total, net, qty, a, init);
    }
  }

  /** The shortages the scan records are exactly the reference list: the repeated part later
      in a BOM is judged against the stock the earlier lines left. */
  lemma {:induction false} ScanShortages(key: WoKey, total: real, net: nat, qty: nat, a: Scan, bom: seq<BomLine>)
    ensures ScanBom(key, total, net, qty, a, bom).shorts == a.shorts + ShortList(a.inv, total, net, qty, bom)
    decreases |bom|
  {
    if |bom| > 0 {
      var i := |bom| - 1;
      ScanShortages(key, total, net, qty, a, bom[..i]);
      StockBeforeLine(key, total, net, qty, a, bom, i);
    }
  }

  /** One BOM line's effect on the kitting rate. */
  lemma VisitRate(key: WoKey, total: real, net: nat, qty: nat, a: Scan, b: BomLine)
    ensures Usage(total, b) <= 0.0 || net == 0 ==> Visit(key, total, net, qty, a, b).minRate == a.minRate
    ensures Usage(total, b) > 0.0 && net > 0 ==>
              var ratio := Quotient(MaxReal(0.0, Stock(a.inv, b.part)), net as real * Usage(total, b));
              ratio >= 0.0 && Visit(key, total, net, qty, a, b).minRate == MinReal(a.minRate, ratio)
  {
    var u := Usage(total, b);
    if u > 0.0 && net > 0 {
      var need := net as real * u;
      assert need > 0.0;
      var stk := MaxReal(0.0, Stock(a.inv, b.part));
      assert Quotient(stk, need) >= 0.0;
    }
  }

  lemma RatioPrefix(inv0: Inventory, total: real, net: nat, qty: nat, bom: seq<BomLine>, n: nat)
    requires n <= |bom| && net > 0
    ensures forall j :: 0 <= j < n && Usage(total, bom[j]) > 0.0 ==>
              Ratio(inv0, total, net, qty, bom[..n], j) == Ratio(inv0, total, net, qty, bom, j)
  {
    forall j | 0 <= j < n && Usage(total, bom[j]) > 0.0
      ensures Ratio(inv0, total, net, qty, bom[..n], j) == Ratio(inv0, total, net, qty, bom, j)
    {
      SeenStockPrefix(inv0, total, qty, bom, n, j);
    }
  }

  /** The kitting rate never rises above its starting value nor falls below zero; with no
      net demand it is left at its starting value. */
  lemma {:induction false} ScanRateBounds(key: WoKey, total: real, net: nat, qty: nat, a: Scan, bom: seq<BomLine>)
    requires 0.0 <= a.minRate <= 1.0
    ensures 0.0 <= ScanBom(key, total, net, qty, a, bom).minRate <= a.minRate
    ensures net == 0 ==> ScanBom(key, total, net, qty, a, bom).minRate == a.minRate
    decreases |bom|
  {
    if |bom| > 0 {
      var init := bom[..|bom| - 1];
      var prev := ScanBom(key, total, net, qty, a, init);
      ScanRateBounds(key, total, net, qty, a, init);
      VisitRate(key, total, net, qty, prev, bom[|bom| - 1]);
    }
  }

  /** The stock a BOM line reads from the running inventory is its seen stock. */
  lemma StockBeforeLine(key: WoKey, total: real, net: nat, qty: nat, a: Scan, bom: seq<BomLine>, i: nat)
    requires i < |bom|
    ensures Stock(ScanBom(key, total, net, qty, a, bom[..i]).inv, bom[i].part) == SeenStock(a.inv, total, qty, bom, i)
  {
    ScanInventory(key, total, net, qty, a, bom[..i]);
  }

  lemma RatioOf(inv0: Inventory, total: real, net: nat, qty: nat, bom: seq<BomLine>, i: nat, seen: real)
    requires i < |bom| && net > 0 && Usage(total, bom[i]) > 0.0
    requires seen == SeenStock(inv0, total, qty, bom, i)
    ensures Ratio(inv0, total, net, qty, bom, i) == Quotient(MaxReal(0.0, seen), net as real * Usage(total, bom[i]))
  {
  }

  /** The last BOM line lowers the rate to its own ratio, measured against the stock the
      earlier lines left. */
  lemma ScanRateStep(key: WoKey, total: real, net: nat, qty: nat, a: Scan, bom: seq<BomLine>)
    requires |bom| > 0 && net > 0
    ensures var i := |bom| - 1;
      var prev := ScanBom(key, total, net, qty, a, bom[..i]).minRate;
      ScanBom(key, total, net, qty, a, bom).minRate ==
        if Usage(total, bom[i]) > 0.0 then MinReal(prev, Ratio(a.inv, total, net, qty, bom, i)) else prev
  {
    var i := |bom| - 1;
    var prev := ScanBom(key, total, net, qty, a, bom[..i]);
    VisitRate(key, total, net, qty, prev, bom[i]);
    if Usage(total, bom[i]) > 0.0 {
      StockBeforeLine(key, total, net, qty, a, bom, i);
      RatioOf(a.inv, total, net, qty, bom, i, Stock(prev.inv, bom[i].part));
    }
  }

  /** The kitting rate lies at or below every line's stock-to-demand ratio. */
  lemma {:induction false} ScanRateLower(key: WoKey, total: real, net: nat, qty: nat, a: Scan, bom: seq<BomLine>)
    requires net > 0
    ensures forall i :: 0 <= i < |bom| && Usage(total, bom[i]) > 0.0 ==>
              ScanBom(key, total, net, qty, a, bom).minRate <= Ratio(a.inv, total, net, qty, bom, i)
    decreases |bom|
  {
    if |bom| > 0 {
      var i := |bom| - 1;
      ScanRateLower(key, total, net, qty, a, bom[..i]);
      ScanRateStep(key, total, net, qty, a, bom);
      RatioPrefix(a.inv, total, net, qty, bom, i);
    }
  }

  /** The kitting rate is its starting value or one line's stock-to-demand ratio. */
  lemma {:induction false} ScanRateAttained(key: WoKey, total: real, net: nat, qty: nat, a: Scan, bom: seq<BomLine>)
    requires net > 0
    ensures var r := ScanBom(key, total, net, qty, a, bom).minRate;
      r == a.minRate ||
      exists i :: 0 <= i < |bom| && Usage(total, bom[i]) > 0.0 && r == Ratio(a.inv, total, net, qty, bom, i)
    decreases |bom|
  {
    if |bom| > 0 {
      var i := |bom| - 1;
      var init := bom[..i];
      var r := ScanBom(key, total, net, qty, a, bom).minRate;
      var prev := ScanBom(key, total, net, qty, a, init).minRate;
      ScanRateAttained(key, total, net, qty, a, init);
      ScanRateStep(key, total, net, qty, a, bom);
      if r != a.minRate && !(Usage(total, bom[i]) > 0.0 && r == Ratio(a.inv, total, net, qty, bom, i)) {
        assert r == prev;
        var j :| 0 <= j < |init| && Usage(total, init[j]) > 0.0 && r == Ratio(a.inv, total, net, qty, init, j);
        RatioPrefix(a.inv, total, net, qty, bom, i);
        assert r == Ratio(a.inv, total, net, qty, bom, j);
      }
    }
  }

  /** The producible-set count is the least of its starting value and every line's
      producible units; from a non-negative start it stays non-negative. */
  lemma {:induction false} ScanProducible(key: WoKey, total: real, net: nat, qty: nat, a: Scan, bom: seq<BomLine>)
    ensures ScanBom(key, total, net, qty, a, bom).canDo <= a.canDo
    ensures a.canDo >= 0 ==> ScanBom(key, total, net, qty, a, bom).canDo >= 0
    ensures forall i :: 0 <= i < |bom| && Usage(total, bom[i]) > 0.0 ==>
              ScanBom(key, total, net, qty, a, bom).canDo <= Producible(a.inv, total, qty, bom, i)
    ensures var c := ScanBom(key, total, net, qty, a, bom).canDo;
      c == a.canDo ||
      exists i :: 0 <= i < |bom| && Usage(total, bom[i]) > 0.0 && c == Producible(a.inv, total, qty, bom, i)
    decreases |bom|
  {
    if |bom| > 0 {
      var i := |bom| - 1;
      var init := bom[..i];
      var prev := ScanBom(key, total, net, qty, a, init);
      ScanProducible(key, total, net, qty, a, init);
      ScanInventory(key, total, net, qty, a, init);
      var u := Usage(total, bom[i]);
      if u > 0.0 {
        var stk := MaxReal(0.0, Stock(prev.inv, bom[i].part));
        assert stk == MaxReal(0.0, SeenStock(a.inv, total, qty, bom, i));
      }
      forall j | 0 <= j < i && Usage(total, bom[j]) > 0.0
        ensures Producible(a.inv, total, qty, init, j) == Producible(a.inv, total, qty, bom, j)
      {
        SeenStockPrefix(a.inv, total, qty, bom, i, j);
      }
    }
  }
}
