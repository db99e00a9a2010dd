/** The two-level stock table (batches and warehouse rows) and the three operations of the reservation
    service on it, as functions of values. The methods that carry them out in place are in `Service`. */
module Stock {
  import opened Sums

  datatype Option<+T> = None | Some(value: T)

  /** Quantities count hundredths of a unit: the scale of the warehouse and request columns. */
  type Qty = int

  /** A warehouse row is identified by its warehouse and its item. */
  datatype Slot = Slot(warehouse: int, item: int)

  /** A package line is identified by item, source warehouse and batch. */
  datatype LineKey = LineKey(item: int, warehouse: int, batch: int)

  type Lines = map<LineKey, Qty>

  datatype Batch = Batch(item: int, warehouse: int, batchNo: Option<string>, batchDate: Option<int>,
                         expiry: Option<int>, uom: string, active: bool,
                         usable: Qty, reserved: Qty, defective: Qty, expired: Qty)

  datatype Row = Row(active: bool, usable: Qty, reserved: Qty, defective: Qty, expired: Qty)

  datatype Stock = Stock(batches: map<int, Batch>, rows: map<Slot, Row>)

  /** The four quantity columns that batches and warehouse rows share. */
  datatype Column = Usable | Reserved | Defective | Expired

  function Cell(b: Batch, c: Column): Qty {
    match c
    case Usable => b.usable
    case Reserved => b.reserved
    case Defective => b.defective
    case Expired => b.expired
  }

  function RowCell(r: Row, c: Column): Qty {
    match c
    case Usable => r.usable
    case Reserved => r.reserved
    case Defective => r.defective
    case Expired => r.expired
  }

  function Max(a: int, b: int): int { if a < b then b else a }

  function Min(a: int, b: int): int { if a < b then a else b }

  function QtyOf(lines: Lines, k: LineKey): Qty {
    if k in lines then lines[k] else 0
  }

  function KeyOf(id: int, b: Batch): LineKey {
    LineKey(b.item, b.warehouse, id)
  }

  function SlotOf(b: Batch): Slot {
    Slot(b.warehouse, b.item)
  }

  function LineSlot(k: LineKey): Slot {
    Slot(k.warehouse, k.item)
  }

  /** The three-column lookup every service function makes. */
  predicate Found(batches: map<int, Batch>, k: LineKey) {
    k.batch in batches && KeyOf(k.batch, batches[k.batch]) == k
  }

  function Positive(lines: Lines): Lines {
    map k | k in lines && lines[k] > 0 :: lines[k]
  }

  function SlotsOf(lines: Lines): set<Slot> {
    set k | k in lines :: LineSlot(k)
  }

  /** The cells of one column that belong to one warehouse row, and their sum. */
  ghost function ColumnOf(batches: map<int, Batch>, s: Slot, c: Column): map<int, Qty> {
    map id | id in batches && SlotOf(batches[id]) == s :: Cell(batches[id], c)
  }

  ghost function ColumnSum(batches: map<int, Batch>, s: Slot, c: Column): Qty {
    Sum(ColumnOf(batches, s, c))
  }

  /** Universal safety of the stock table: no batch is over-reserved or negative, and every warehouse row
      repeats the sums of its batches in all four columns. */
  ghost predicate BatchSound(st: Stock, id: int)
    requires id in st.batches
  {
    var b := st.batches[id];
    0 <= b.reserved <= b.usable && 0 <= b.defective && 0 <= b.expired && SlotOf(b) in st.rows
  }

  ghost predicate Mirrored(st: Stock, s: Slot)
    requires s in st.rows
  {
    forall c: Column :: RowCell(st.rows[s], c) == ColumnSum(st.batches, s, c)
  }

  ghost predicate Sound(st: Stock) {
    && (forall id :: id in st.batches ==> BatchSound(st, id))
    && (forall s :: s in st.rows ==> st.rows[s].active && Mirrored(st, s))
  }

  // ---------------------------------------------------------------- reserve

  /** New minus old allocation of one line. */
  function Delta(o: Lines, n: Lines, k: LineKey): int {
    QtyOf(n, k) - QtyOf(o, k)
  }

  /** What reserving does to one batch record; a total below zero is cut off at zero. */
  function Shift(b: Batch, delta: int): Batch {
    if delta == 0 then b else b.(reserved := Max(0, b.reserved + delta))
  }

  /** The condition under which the walk gets past one line key. */
  predicate KeyPasses(batches: map<int, Batch>, o: Lines, n: Lines, k: LineKey) {
    var d := Delta(o, n, k);
    d == 0 ||
    if Found(batches, k) then
      var total := batches[k.batch].reserved + d;
      total < 0 || total <= batches[k.batch].usable
    else d < 0
  }

  /** All batches after the keys in `done` have been walked. */
  function ShiftedOn(batches: map<int, Batch>, o: Lines, n: Lines, done: set<LineKey>): map<int, Batch> {
    map id | id in batches ::
      if KeyOf(id, batches[id]) in done then Shift(batches[id], Delta(o, n, KeyOf(id, batches[id]))) else batches[id]
  }

  function Shifted(batches: map<int, Batch>, o: Lines, n: Lines): map<int, Batch> {
    map id | id in batches :: Shift(batches[id], Delta(o, n, KeyOf(id, batches[id])))
  }

  /** The row test of the second loop, after the batches became `batches`. */
  ghost predicate SlotPasses(batches: map<int, Batch>, rows: map<Slot, Row>, s: Slot) {
    s in rows && rows[s].active && ColumnSum(batches, s, Reserved) <= rows[s].usable
  }

  ghost function ReservedRestated(batches: map<int, Batch>, rows: map<Slot, Row>, slots: set<Slot>): map<Slot, Row> {
    map s | s in rows ::
      if s in slots then rows[s].(reserved := ColumnSum(batches, s, Reserved)) else rows[s]
  }

  /** `reserve_inventory`: move the reservation from allocation `o` to allocation `n`, or refuse. */
  ghost function Reserve(st: Stock, o: Lines, n: Lines): (r: Option<Stock>) {
    var batches := Shifted(st.batches, o, n);
    var slots := SlotsOf(o) + SlotsOf(n);
    if (forall k :: k in o.Keys + n.Keys ==> KeyPasses(st.batches, o, n, k))
       && (forall s :: s in slots ==> SlotPasses(batches, st.rows, s))
    then Some(Stock(batches, ReservedRestated(batches, st.rows, slots)))
    else None
  }

  // ---------------------------------------------------------------- release

  function Freed(b: Batch, q: Qty): Batch {
    if q > 0 then b.(reserved := Max(0, b.reserved - q)) else b
  }

  function FreedOn(batches: map<int, Batch>, lines: Lines, done: set<LineKey>): map<int, Batch> {
    map id | id in batches ::
      if KeyOf(id, batches[id]) in done then Freed(batches[id], QtyOf(lines, KeyOf(id, batches[id]))) else batches[id]
  }

  /** `release_all_reservations` for a package holding `lines`; only active rows are restated. */
  ghost function Release(st: Stock, lines: Lines): (r: Stock) {
    var batches := FreedOn(st.batches, lines, lines.Keys);
    var slots := SlotsOf(Positive(lines));
    Stock(batches, ReservedRestated(batches, st.rows, set s | s in slots && s in st.rows && st.rows[s].active))
  }

  // ---------------------------------------------------------------- commit

  function Deducted(b: Batch, q: Qty): Batch {
    if q > 0 then b.(usable := b.usable - q, reserved := Max(0, b.reserved - q)) else b
  }

  predicate LinePasses(batches: map<int, Batch>, lines: Lines, k: LineKey)
    requires k in lines
  {
    lines[k] > 0 ==> Found(batches, k) && lines[k] <= batches[k.batch].usable
  }

  function DeductedOn(batches: map<int, Batch>, lines: Lines, done: set<LineKey>): map<int, Batch> {
    map id | id in batches ::
      if KeyOf(id, batches[id]) in done then Deducted(batches[id], QtyOf(lines, KeyOf(id, batches[id]))) else batches[id]
  }

  ghost function Restated(batches: map<int, Batch>, rows: map<Slot, Row>, slots: set<Slot>): map<Slot, Row> {
    map s | s in rows ::
      if s in slots then rows[s].(usable := ColumnSum(batches, s, Usable), reserved := ColumnSum(batches, s, Reserved))
      else rows[s]
  }

  /** `commit_inventory` for a package holding `lines`. */
  ghost function Commit(st: Stock, lines: Lines): (r: Option<Stock>) {
    var batches := DeductedOn(st.batches, lines, lines.Keys);
    if forall k :: k in lines ==> LinePasses(st.batches, lines, k)
    then Some(Stock(batches, Restated(batches, st.rows, SlotsOf(Positive(lines)))))
    else None
  }

  // ---------------------------------------------------------------- universal safety

  /** A column sum depends only on the cells of its slot. */
  lemma ColumnFrame(a: map<int, Batch>, b: map<int, Batch>, s: Slot, c: Column)
    requires a.Keys == b.Keys
    requires forall id :: id in a ==> SlotOf(a[id]) == SlotOf(b[id])
    requires forall id :: id in a && SlotOf(a[id]) == s ==> Cell(a[id], c) == Cell(b[id], c)
    ensures ColumnSum(a, s, c) == ColumnSum(b, s, c)
  {
    var x, y := ColumnOf(a, s, c), ColumnOf(b, s, c);
    assert x.Keys == y.Keys by {
      forall id ensures id in x <==> id in y {
        assert id in a ==> SlotOf(a[id]) == SlotOf(b[id]);
      }
    }
    forall id | id in x ensures x[id] == y[id] {
      assert id in a && SlotOf(a[id]) == s;
    }
    assert x == y;
  }

  lemma ReservedBatchSound(st: Stock, o: Lines, n: Lines, id: int)
    requires Sound(st) && Reserve(st, o, n).Some? && id in st.batches
    ensures BatchSound(Reserve(st, o, n).value, id)
  {
    var k := KeyOf(id, st.batches[id]);
    assert BatchSound(st, id);
    assert k in o.Keys + n.Keys ==> KeyPasses(st.batches, o, n, k);
  }

  lemma ReservedRowMirrors(st: Stock, o: Lines, n: Lines, s: Slot, c: Column)
    requires Sound(st) && Reserve(st, o, n).Some? && s in st.rows
    ensures RowCell(Reserve(st, o, n).value.rows[s], c) == ColumnSum(Reserve(st, o, n).value.batches, s, c)
  {
    var t := Reserve(st, o, n).value;
    var slots := SlotsOf(o) + SlotsOf(n);
    assert Mirrored(st, s);
    assert RowCell(st.rows[s], c) == ColumnSum(st.batches, s, c);
    if c != Reserved || s !in slots {
      forall id | id in st.batches && SlotOf(st.batches[id]) == s
        ensures Cell(st.batches[id], c) == Cell(t.batches[id], c)
      {
        assert KeyOf(id, st.batches[id]) in o ==> s in slots;
        assert KeyOf(id, st.batches[id]) in n ==> s in slots;
      }
      ColumnFrame(st.batches, t.batches, s, c);
    }
  }

  /** Reserving, when it succeeds, keeps the table sound. */
  lemma ReserveKeepsSound(st: Stock, o: Lines, n: Lines)
    requires Sound(st)
    requires Reserve(st, o, n).Some?
    ensures Sound(Reserve(st, o, n).value)
  {
    hide ColumnSum, BatchSound, KeyPasses, SlotPasses, Shift;
    var t := Reserve(st, o, n).value;
    forall id | id in t.batches ensures BatchSound(t, id) {
      ReservedBatchSound(st, o, n, id);
    }
    forall s | s in t.rows ensures t.rows[s].active && Mirrored(t, s) {
      forall c: Column ensures RowCell(t.rows[s], c) == ColumnSum(t.batches, s, c) {
        ReservedRowMirrors(st, o, n, s, c);
      }
    }
  }

  /** Releasing keeps the table sound. */
  lemma ReleaseKeepsSound(st: Stock, lines: Lines)
    requires Sound(st)
    ensures Sound(Release(st, lines))
  {
    var t := Release(st, lines);
    var slots := SlotsOf(Positive(lines));
    forall id | id in t.batches ensures BatchSound(t, id) {
      assert BatchSound(st, id);
    }
    forall s | s in t.rows ensures Mirrored(t, s) {
      assert Mirrored(st, s);
      forall c: Column ensures RowCell(t.rows[s], c) == ColumnSum(t.batches, s, c) {
        assert RowCell(st.rows[s], c) == ColumnSum(st.batches, s, c);
        if c != Reserved || s !in slots {
          forall id | id in st.batches && SlotOf(st.batches[id]) == s
            ensures Cell(st.batches[id], c) == Cell(t.batches[id], c)
          {
            assert KeyOf(id, st.batches[id]) in Positive(lines) ==> s in slots;
          }
          ColumnFrame(st.batches, t.batches, s, c);
        }
      }
    }
  }

  /** Committing, when it succeeds, keeps the table sound, reserved or not. */
  lemma CommitKeepsSound(st: Stock, lines: Lines)
    requires Sound(st)
    requires Commit(st, lines).Some?
    ensures Sound(Commit(st, lines).value)
  {
    var t := Commit(st, lines).value;
    var slots := SlotsOf(Positive(lines));
    forall id | id in t.batches ensures BatchSound(t, id) {
      assert BatchSound(st, id);
      var k := KeyOf(id, st.batches[id]);
      assert k in lines ==> LinePasses(st.batches, lines, k);
    }
    forall s | s in t.rows ensures Mirrored(t, s) {
      assert Mirrored(st, s);
      forall c: Column ensures RowCell(t.rows[s], c) == ColumnSum(t.batches, s, c) {
        assert RowCell(st.rows[s], c) == ColumnSum(st.batches, s, c);
        if c == Defective || c == Expired || s !in slots {
          forall id | id in st.batches && SlotOf(st.batches[id]) == s
            ensures Cell(st.batches[id], c) == Cell(t.batches[id], c)
          {
            assert KeyOf(id, st.batches[id]) in Positive(lines) ==> s in slots;
          }
          ColumnFrame(st.batches, t.batches, s, c);
        }
      }
    }
  }
}
