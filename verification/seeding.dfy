/** Seeding of the issued-quantity ledger from the work orders' BOM data (main.py:189-191):
    every (work order, part) pair starts at the BOM's `iss` value. When a part occurs on
    several lines of one BOM, the later line overwrites the earlier one. */
module Seeding {
  import opened Domain

  /** The parts named anywhere in a BOM. */
  function PartsOf(bom: seq<BomLine>): (ps: set<Part>)
    ensures forall p :: p in ps <==> exists i :: 0 <= i < |bom| && bom[i].part == p
  {
    set i | 0 <= i < |bom| :: bom[i].part
  }

  /** The `iss` of the last BOM line that names part `p`. */
  function LastIssued(bom: seq<BomLine>, p: Part): real
    requires p in PartsOf(bom)
  {
    var last := bom[|bom| - 1];
    if last.part == p then last.iss
    else
      assert p in PartsOf(bom[..|bom| - 1]) by {
        var i :| 0 <= i < |bom| && bom[i].part == p;
        assert i < |bom| - 1 && bom[..|bom| - 1][i] == bom[i];
      }
      LastIssued(bom[..|bom| - 1], p)
  }

  /** Every ledger key the seeding writes. */
  function SeedKeys(data: WoData): set<LedgerKey>
  {
    set key, b | key in data && b in data[key].bom :: LedgerKeyOf(key, b.part)
  }

  /** The ledger as it stands before the first plan line is processed. */
  function SeedIssued(data: WoData): (ledger: Ledger)
    ensures forall key, p :: LedgerKeyOf(key, p) in ledger <==> key in data && p in PartsOf(data[key].bom)
  {
    assert forall k :: k in SeedKeys(data) ==> (k.0, k.1) in data && k.2 in PartsOf(data[(k.0, k.1)].bom);
    map k | k in SeedKeys(data) :: LastIssued(data[(k.0, k.1)].bom, k.2)
  }

  /** A BOM line that no later line of the same part overrides supplies the seeded value. */
  lemma {:induction false} LastIssuedIsLastLine(bom: seq<BomLine>, i: nat)
    requires i < |bom|
    requires forall j :: i < j < |bom| ==> bom[j].part != bom[i].part
    ensures bom[i].part in PartsOf(bom)
    ensures LastIssued(bom, bom[i].part) == bom[i].iss
  {
    if i < |bom| - 1 {
      var init := bom[..|bom| - 1];
      assert init[i] == bom[i];
      LastIssuedIsLastLine(init, i);
    }
  }

  /** The seeded ledger holds, for every work order and every BOM line that is the last
      of its part, exactly that line's issued quantity. */
  lemma SeedIssuedValue(data: WoData, key: WoKey, i: nat)
    requires key in data && i < |data[key].bom|
    requires forall j :: i < j < |data[key].bom| ==> data[key].bom[j].part != data[key].bom[i].part
    ensures LedgerKeyOf(key, data[key].bom[i].part) in SeedIssued(data)
    ensures SeedIssued(data)[LedgerKeyOf(key, data[key].bom[i].part)] == data[key].bom[i].iss
  {
    LastIssuedIsLastLine(data[key].bom, i);
  }
}
