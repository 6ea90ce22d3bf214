/** Status classification of a processed plan line and its aggregation per spreadsheet row
    (main.py:223-227, rendered as fills at main.py:256-260). The codes rank the statuses
    for display: 4 short (red) > 3 over the ceiling (yellow) > 2 ceiling exhausted (gray)
    > 1 fully kitted (green). */
module Priority {

  const Ok: int := 1
  const Finished: int := 2
  const Warn: int := 3
  const Short: int := 4

  /** Threshold below which a kitting rate counts as short. */
  const FullRate: real := 0.999

  /** The status of one line, decided in the program's order: exhausted ceiling first, then
      an incomplete kit, then a plan beyond the ceiling. */
  function Classify(net: nat, excess: nat, rate: real): (p: int)
    ensures Ok <= p <= Short
    ensures p == Finished <==> net == 0 && excess > 0
    ensures p == Short <==> (net > 0 || excess == 0) && rate < FullRate
    ensures p == Warn <==> net > 0 && excess > 0 && rate >= FullRate
    ensures p == Ok <==> excess == 0 && rate >= FullRate
  {
    if net == 0 && excess > 0 then Finished
    else if rate < FullRate then Short
    else if excess > 0 then Warn
    else Ok
  }

  /** The row codes: a row absent from the map has not been marked yet. */
  type RowCodes = map<nat, int>

  /** The code of a row; an unmarked row reads as zero (the source's default dictionary). */
  function Code(m: RowCodes, row: nat): int
  {
    if row in m then m[row] else 0
  }

  /** Records one line's code against its row: the row keeps the larger of its current code
      and the new one; every other row is unchanged. */
  function Raise(m: RowCodes, row: nat, p: int): (m': RowCodes)
    ensures m'.Keys == m.Keys + {row}
    ensures m'[row] >= Code(m, row) && m'[row] >= p
    ensures m'[row] == p || m'[row] == Code(m, row)
    ensures forall r :: r in m && r != row ==> m'[r] == m[r]
  {
    var current := Code(m, row);
    m[row := if p > current then p else current]
  }
}
