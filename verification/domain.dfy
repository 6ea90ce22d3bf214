/** Shared data model of the material-availability allocation engine: bill-of-materials
    lines, work orders, plan lines and the two running maps (component inventory and the
    issued-quantity ledger) that successive plan lines draw against. */
module Domain {

  datatype Option<+T> = None | Some(value: T)

  /** A component (part) number. */
  type Part = string

  /** A work order is identified by its type and its number. */
  type WoKey = (string, string)

  /** The issued ledger is keyed by work-order type, work-order number and part. */
  type LedgerKey = (string, string, string)

  /** One line of a work order's bill of materials: `req` is the total quantity required
      over the whole order, `iss` what the order-tracking system has already issued. */
  datatype BomLine = BomLine(part: Part, name: string, unit: string, req: real, iss: real)

  /** A work order: its total order quantity and its bill of materials. */
  datatype WorkOrder = WorkOrder(total: real, bom: seq<BomLine>)

  /** Work orders as fetched from the order-tracking system; an absent key is "not found". */
  type WoData = map<WoKey, WorkOrder>

  /** On-hand stock per part; an absent part has zero stock. */
  type Inventory = map<Part, real>

  /** Cumulative issued quantity per (work order, part); an absent key reads as zero. */
  type Ledger = map<LedgerKey, real>

  /** A scheduled production line: spreadsheet row, plan date (an opaque ordered key),
      planned quantity and the work order it draws on. */
  datatype PlanLine = PlanLine(row: nat, date: int, qty: nat, key: WoKey)

  /** The "no constraint" sentinel of the ceiling and of the producible-set count. */
  const Unbounded: int := 999999

  /** Consumption of one BOM line per finished unit; zero when the order total is not positive. */
  function Usage(total: real, b: BomLine): real
  {
    if total > 0.0 then b.req / total else 0.0
  }

  function Stock(inv: Inventory, p: Part): real
  {
    if p in inv then inv[p] else 0.0
  }

  function Issued(ledger: Ledger, k: LedgerKey): real
  {
    if k in ledger then ledger[k] else 0.0
  }

  function LedgerKeyOf(key: WoKey, p: Part): LedgerKey
  {
    (key.0, key.1, p)
  }

  function MinInt(a: int, b: int): int
  {
    if a <= b then a else b
  }

  function MinReal(a: real, b: real): real
  {
    if a <= b then a else b
  }

  function MaxReal(a: real, b: real): real
  {
    if a >= b then a else b
  }

  /** Python's floor division `x // u` of two numbers, for a positive divisor. */
  function FloorDiv(x: real, u: real): (n: int)
    requires u > 0.0
    ensures n as real * u <= x < (n + 1) as real * u
    ensures x >= 0.0 ==> n >= 0
  {
    FloorBounds(x, u);
    (x / u).Floor
  }

  lemma FloorBounds(x: real, u: real)
    requires u > 0.0
    ensures (x / u).Floor as real * u <= x < ((x / u).Floor + 1) as real * u
    ensures x >= 0.0 ==> (x / u).Floor >= 0
  {
    var q := x / u;
    var f := q.Floor as real;
    assert q * u == x;
    MulMonotone(f, q, u);
    MulStrict(q, f + 1.0, u);
    assert q * u < (f + 1.0) * u;
    assert x < (f + 1.0) * u;
    assert ((x / u).Floor + 1) as real == f + 1.0;
    if x >= 0.0 && q.Floor < 0 {
      MulMonotone(f + 1.0, 0.0, u);
    }
  }

  lemma MulMonotone(a: real, b: real, u: real)
    requires a <= b && u > 0.0
    ensures a * u <= b * u
  {
  }

  lemma MulStrict(a: real, b: real, u: real)
    requires a < b && u > 0.0
    ensures a * u < b * u
  {
  }

  /** Python's `int(x)` on a float: truncation toward zero. */
  function Trunc(x: real): (n: int)
    ensures x >= 0.0 ==> 0 <= n && n as real <= x < n as real + 1.0
    ensures x < 0.0 ==> n <= 0 && x <= n as real < x + 1.0
  {
    if x >= 0.0 then x.Floor else -((-x).Floor)
  }
}
