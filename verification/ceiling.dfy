/** The work-order ceiling (main.py:198-205): how many more finished units the
    order-tracking system still lets a work order draw, and the split of a planned
    quantity into the part pursued (net) and the part beyond the ceiling (excess). */
module Ceiling {
  import opened Domain

  /** What may still be issued against BOM line `b`: its requirement less what the ledger
      records as issued, floored at zero. */
  function Remaining(key: WoKey, b: BomLine, issued: Ledger): (rem: real)
    ensures rem >= 0.0
    ensures rem >= b.req - Issued(issued, LedgerKeyOf(key, b.part))
    ensures rem == 0.0 || rem == b.req - Issued(issued, LedgerKeyOf(key, b.part))
  {
    MaxReal(0.0, b.req - Issued(issued, LedgerKeyOf(key, b.part)))
  }

  /** Whole finished units that the remaining issuable quantity of `b` still covers. */
  function PossibleSets(key: WoKey, total: real, b: BomLine, issued: Ledger): (n: int)
    requires Usage(total, b) > 0.0
    ensures n >= 0
    ensures n as real * Usage(total, b) <= Remaining(key, b, issued)
    ensures Remaining(key, b, issued) < (n + 1) as real * Usage(total, b)
  {
    FloorDiv(Remaining(key, b, issued), Usage(total, b))
  }

  /** The ceiling `max_erp`: the least PossibleSets over the BOM lines with positive usage,
      capped by the sentinel; the sentinel itself when no line has positive usage. */
  function Ceiling(key: WoKey, total: real, bom: seq<BomLine>, issued: Ledger): (c: int)
    ensures 0 <= c <= Unbounded
    ensures forall i :: 0 <= i < |bom| && Usage(total, bom[i]) > 0.0 ==>
              c <= PossibleSets(key, total, bom[i], issued)
    ensures c == Unbounded || exists i :: (0 <= i < |bom| && Usage(total, bom[i]) > 0.0 &&
                                           c == PossibleSets(key, total, bom[i], issued))
    decreases |bom|
  {
    if |bom| == 0 then Unbounded
    else
      var init := bom[..|bom| - 1];
      var b := bom[|bom| - 1];
      var c := Ceiling(key, total, init, issued);
      assert forall i :: 0 <= i < |init| ==> init[i] == bom[i];
      if Usage(total, b) > 0.0 then MinInt(c, PossibleSets(key, total, b, issued)) else c
  }

  /** A planned quantity split at the ceiling: `net` is pursued, `excess` is beyond it. */
  datatype Split = Split(net: nat, excess: nat)

  /** `net = min(plan, ceiling)` and `excess = plan - net`. */
  function Clamp(qty: nat, ceiling: int): (s: Split)
    requires ceiling >= 0
    ensures s.net + s.excess == qty
    ensures s.net <= ceiling
    ensures s.net == qty || s.net == ceiling
  {
    var net := MinInt(qty, ceiling);
    Split(net, qty - net)
  }
}
