/** Laws of `reserve_inventory`: the order of its walk is irrelevant, successive saves telescope, release undoes
    reserve, and a validated form is never refused. */
module Reservations {
  import opened Sums
  import opened Stock
  import opened Packaging
  import opened Workflow
  import opened Safety

  // ---------------------------------------------------------------- the walk over an unordered key set

  /** One pass of the first loop: refuse, or rewrite the batch the key finds (if any). */
  function WalkKey(batches: map<int, Batch>, o: Lines, n: Lines, k: LineKey): Option<map<int, Batch>> {
    if !KeyPasses(batches, o, n, k) then None
    else if Found(batches, k) then Some(batches[k.batch := Shift(batches[k.batch], Delta(o, n, k))])
    else Some(batches)
  }

  /** The loop over the keys in one given order. */
  function Walk(batches: map<int, Batch>, o: Lines, n: Lines, keys: seq<LineKey>): Option<map<int, Batch>>
    decreases |keys|
  {
    if keys == [] then Some(batches) else
    match Walk(batches, o, n, keys[..|keys| - 1])
    case None => None
    case Some(b) => WalkKey(b, o, n, keys[|keys| - 1])
  }

  predicate Distinct(keys: seq<LineKey>) {
    forall i, j :: 0 <= i < j < |keys| ==> keys[i] != keys[j]
  }

  function KeySet(keys: seq<LineKey>): set<LineKey> {
    set i | 0 <= i < |keys| :: keys[i]
  }

  /** Walking a fresh key sees its batch unchanged, and adds exactly that key to what is done. */
  lemma WalkOne(batches: map<int, Batch>, o: Lines, n: Lines, done: set<LineKey>, k: LineKey)
    requires k !in done
    ensures KeyPasses(ShiftedOn(batches, o, n, done), o, n, k) <==> KeyPasses(batches, o, n, k)
    ensures KeyPasses(batches, o, n, k)
            ==> WalkKey(ShiftedOn(batches, o, n, done), o, n, k) == Some(ShiftedOn(batches, o, n, done + {k}))
  {
    var now := ShiftedOn(batches, o, n, done);
    assert Found(now, k) <==> Found(batches, k);
    if Found(batches, k) {
      assert now[k.batch] == batches[k.batch];
      assert now[k.batch := Shift(now[k.batch], Delta(o, n, k))] == ShiftedOn(batches, o, n, done + {k});
    } else {
      assert now == ShiftedOn(batches, o, n, done + {k});
    }
  }

  lemma {:induction false} WalkIsPointwise(batches: map<int, Batch>, o: Lines, n: Lines, keys: seq<LineKey>)
    requires Distinct(keys)
    ensures Walk(batches, o, n, keys)
            == if forall k :: k in KeySet(keys) ==> KeyPasses(batches, o, n, k)
               then Some(ShiftedOn(batches, o, n, KeySet(keys))) else None
    decreases |keys|
  {
    if keys == [] {
      assert KeySet(keys) == {};
      assert ShiftedOn(batches, o, n, {}) == batches;
    } else {
      var m := |keys| - 1;
      WalkIsPointwise(batches, o, n, keys[..m]);
      assert KeySet(keys) == KeySet(keys[..m]) + {keys[m]};
      assert keys[m] !in KeySet(keys[..m]);
      WalkOne(batches, o, n, KeySet(keys[..m]), keys[m]);
    }
  }

  /** Any two orders of the same keys give the same verdict and the same batches. */
  lemma WalkOrderIrrelevant(batches: map<int, Batch>, o: Lines, n: Lines, one: seq<LineKey>, two: seq<LineKey>)
    requires Distinct(one) && Distinct(two) && KeySet(one) == KeySet(two)
    ensures Walk(batches, o, n, one) == Walk(batches, o, n, two)
  {
    WalkIsPointwise(batches, o, n, one);
    WalkIsPointwise(batches, o, n, two);
  }

  /** Once all keys of both allocations are walked, every batch has moved by its delta. */
  lemma AllKeysWalked(batches: map<int, Batch>, o: Lines, n: Lines)
    ensures ShiftedOn(batches, o, n, o.Keys + n.Keys) == Shifted(batches, o, n)
  {
  }

  // ---------------------------------------------------------------- never refused at warehouse level

  /** Where no batch is over-reserved, neither is the warehouse row: the second check of the service never
      refuses what the first let through. */
  lemma RowNeverOverReserved(st: Stock, batches: map<int, Batch>, s: Slot)
    requires Sound(st) && s in st.rows
    requires batches.Keys == st.batches.Keys
    requires forall id :: id in batches ==> batches[id].reserved <= batches[id].usable == st.batches[id].usable
    requires forall id :: id in batches ==> SlotOf(batches[id]) == SlotOf(st.batches[id])
    ensures SlotPasses(batches, st.rows, s)
  {
    assert Mirrored(st, s);
    assert RowCell(st.rows[s], Usable) == ColumnSum(st.batches, s, Usable);
    ColumnFrame(st.batches, batches, s, Usable);
    var x, y := ColumnOf(batches, s, Reserved), ColumnOf(batches, s, Usable);
    forall id | id in x ensures id in y && x[id] <= y[id] {
      assert id in batches;
    }
    SumMonotone(x, y);
  }

  lemma PassedKeysFit(st: Stock, o: Lines, n: Lines, id: int)
    requires Sound(st) && id in st.batches
    requires forall k :: k in o.Keys + n.Keys ==> KeyPasses(st.batches, o, n, k)
    ensures Shifted(st.batches, o, n)[id].reserved <= st.batches[id].usable
  {
    assert BatchSound(st, id);
    var k := KeyOf(id, st.batches[id]);
    assert k in o.Keys + n.Keys ==> KeyPasses(st.batches, o, n, k);
  }

  /** `reserve_inventory` succeeds exactly when every line key passes, provided every line names a batch. */
  lemma ReserveSucceedsIff(st: Stock, o: Lines, n: Lines)
    requires Sound(st)
    requires forall k :: k in o ==> Found(st.batches, k)
    requires forall k :: k in n ==> Found(st.batches, k)
    ensures Reserve(st, o, n).Some? <==> forall k :: k in o.Keys + n.Keys ==> KeyPasses(st.batches, o, n, k)
  {
    hide Sound, KeyPasses, SlotPasses, Found, Shifted;
    if forall k :: k in o.Keys + n.Keys ==> KeyPasses(st.batches, o, n, k) {
      forall s | s in SlotsOf(o) + SlotsOf(n) ensures SlotPasses(Shifted(st.batches, o, n), st.rows, s) {
        var k :| (k in o || k in n) && LineSlot(k) == s;
        PassedSlotPasses(st, o, n, k);
      }
    }
  }

  lemma PassedSlotPasses(st: Stock, o: Lines, n: Lines, k: LineKey)
    requires Sound(st) && Found(st.batches, k)
    requires forall x :: x in o.Keys + n.Keys ==> KeyPasses(st.batches, o, n, x)
    ensures SlotPasses(Shifted(st.batches, o, n), st.rows, LineSlot(k))
  {
    assert BatchSound(st, k.batch);
    hide Sound, KeyPasses, SlotPasses;
    var batches := Shifted(st.batches, o, n);
    forall id | id in batches ensures batches[id].reserved <= batches[id].usable == st.batches[id].usable {
      PassedKeysFit(st, o, n, id);
    }
    RowNeverOverReserved(st, batches, LineSlot(k));
  }

  /** The release-aware availability test of the form and the delta test of the service are the same test. */
  lemma PrecheckIsDeltaCheck(st: Stock, o: Lines, n: Lines, k: LineKey)
    requires Sound(st) && Found(st.batches, k)
    requires 0 <= QtyOf(n, k)
    ensures var b := st.batches[k.batch];
            QtyOf(n, k) <= b.usable - (b.reserved - QtyOf(o, k)) <==> KeyPasses(st.batches, o, n, k)
  {
    assert BatchSound(st, k.batch);
  }

  /** A form that passed validation is never refused by the reservation that follows it. */
  lemma ValidatedFormIsReserved(s: State, r: int, today: int, form: Form, complete: bool)
    requires Good(s) && r in s.requests
    requires Prepared(s, r, today, form, complete).Some?
    ensures var lines := Prepared(s, r, today, form, complete).value.lines;
            Reserve(s.stock, OldLines(s, r), Positive(lines)).Some?
  {
    var d := Prepared(s, r, today, form, complete).value;
    PreparedIsSound(s, r, today, form, complete);
    ValidatedPicksPass(s, r, today, form, d.lines);
    OldLinesSound(s, r);
    ReserveSucceedsIff(s.stock, OldLines(s, r), Positive(d.lines));
  }

  lemma OldLinesSound(s: State, r: int)
    requires Good(s)
    ensures LinesSound(s.stock.batches, OldLines(s, r))
  {
    assert r in s.packages ==> PackageSound(s, r);
  }

  lemma ValidatedPicksPass(s: State, r: int, today: int, form: Form, lines: Lines)
    requires Good(s) && r in s.requests
    requires forall p :: p in form.picks && p.item in s.requests[r].items
               ==> PickPasses(s.stock.batches, today, OldLines(s, r), p, form.picks[p])
    requires lines == LinesAfter(s.stock.batches, s.requests[r].items.Keys, form)
    ensures forall k :: k in OldLines(s, r).Keys + Positive(lines).Keys
              ==> KeyPasses(s.stock.batches, OldLines(s, r), Positive(lines), k)
  {
    var o, n := OldLines(s, r), Positive(lines);
    OldLinesSound(s, r);
    forall k | k in o.Keys + n.Keys ensures KeyPasses(s.stock.batches, o, n, k) {
      if k in n {
        var p := Pick(k.item, k.batch);
        assert p in form.picks && LineFor(s.stock.batches, p) == k;
        assert PickPasses(s.stock.batches, today, o, p, form.picks[p]);
      } else {
        assert Found(s.stock.batches, k) && BatchSound(s.stock, k.batch) && 0 <= o[k];
      }
    }
  }

  // ---------------------------------------------------------------- telescoping

  /** One save of a package: from its present lines to the positive ones of the next form. */
  ghost function Save(st: Stock, o: Lines, n: Lines): Option<Stock> {
    Reserve(st, o, Positive(n))
  }

  /** A series of saves `lines[0] -> lines[1] -> ...`, each of which must succeed. */
  ghost function Saves(st: Stock, lines: seq<Lines>): Option<Stock>
    requires lines != []
    decreases |lines|
  {
    if |lines| == 1 then Some(st) else
    match Saves(st, lines[..|lines| - 1])
    case None => None
    case Some(t) => Save(t, lines[|lines| - 2], lines[|lines| - 1])
  }

  /** The lines hold no negative quantity and are covered by what is reserved. */
  ghost predicate Covered(st: Stock, lines: Lines) {
    && (forall k :: k in lines ==> Found(st.batches, k) && 0 <= lines[k] <= st.batches[k.batch].reserved)
  }

  ghost predicate Moved(st: Stock, t: Stock, o: Lines, n: Lines) {
    && t.batches.Keys == st.batches.Keys
    && forall id :: id in st.batches ==>
         t.batches[id] == st.batches[id].(reserved := st.batches[id].reserved + Delta(o, n, KeyOf(id, st.batches[id])))
  }

  lemma SaveMovesBatch(st: Stock, o: Lines, n: Lines, id: int)
    requires Sound(st) && Covered(st, o) && LinesSound(st.batches, n) && id in st.batches
    ensures var b := st.batches[id];
            && 0 <= b.reserved
            && Shifted(st.batches, o, Positive(n))[id] == b.(reserved := b.reserved + Delta(o, n, KeyOf(id, b)))
  {
    var k := KeyOf(id, st.batches[id]);
    assert BatchSound(st, id);
    assert QtyOf(Positive(n), k) == QtyOf(n, k);
    assert QtyOf(o, k) <= st.batches[id].reserved;
  }

  /** A save over covered lines moves every batch by exactly the difference, and leaves the new lines covered. */
  lemma SaveMoves(st: Stock, o: Lines, n: Lines)
    requires Sound(st) && Covered(st, o) && LinesSound(st.batches, n)
    requires Save(st, o, n).Some?
    ensures Sound(Save(st, o, n).value)
    ensures Moved(st, Save(st, o, n).value, o, n)
    ensures Covered(Save(st, o, n).value, n)
  {
    var t := Save(st, o, n).value;
    ReserveKeepsSound(st, o, Positive(n));
    assert t.batches == Shifted(st.batches, o, Positive(n));
    hide Sound, Save, Covered, LinesSound, Shifted, Delta;
    forall id | id in st.batches
      ensures 0 <= st.batches[id].reserved
      ensures t.batches[id] == st.batches[id].(reserved := st.batches[id].reserved + Delta(o, n, KeyOf(id, st.batches[id])))
    {
      SaveMovesBatch(st, o, n, id);
    }
    assert t.batches.Keys == st.batches.Keys by {
      SaveKeepsBatchKeys(st, o, n);
    }
    MovedIsCovered(st, t, o, n);
  }

  lemma MovedIsCovered(st: Stock, t: Stock, o: Lines, n: Lines)
    requires Moved(st, t, o, n) && Covered(st, o) && LinesSound(st.batches, n)
    requires forall id :: id in st.batches ==> 0 <= st.batches[id].reserved
    ensures Covered(t, n)
  {
    forall k | k in n ensures Found(t.batches, k) && 0 <= n[k] <= t.batches[k.batch].reserved {
      assert Found(st.batches, k);
      assert k in o ==> o[k] <= st.batches[k.batch].reserved;
    }
  }

  /** Two sound tables with equal batches, whose rows differ at most in the reserved column, are equal. */
  lemma BatchesDetermineRows(x: Stock, y: Stock)
    requires Sound(x) && Sound(y) && x.batches == y.batches && x.rows.Keys == y.rows.Keys
    ensures x == y
  {
    forall s | s in x.rows ensures x.rows[s] == y.rows[s] {
      assert Mirrored(x, s) && Mirrored(y, s);
      assert RowCell(x.rows[s], Usable) == RowCell(y.rows[s], Usable);
      assert RowCell(x.rows[s], Reserved) == RowCell(y.rows[s], Reserved);
      assert RowCell(x.rows[s], Defective) == RowCell(y.rows[s], Defective);
      assert RowCell(x.rows[s], Expired) == RowCell(y.rows[s], Expired);
    }
    assert x.rows == y.rows;
  }

  /** A sound table with the moved batches shows that the one direct save succeeds and gives that table. */
  lemma DirectSave(st: Stock, t: Stock, o: Lines, n: Lines)
    requires Sound(st) && Covered(st, o) && LinesSound(st.batches, n)
    requires Sound(t) && Moved(st, t, o, n) && t.rows.Keys == st.rows.Keys
    ensures Save(st, o, n) == Some(t)
  {
    forall k | k in o.Keys + Positive(n).Keys ensures KeyPasses(st.batches, o, Positive(n), k) {
      assert Found(st.batches, k) && BatchSound(t, k.batch);
    }
    ReserveSucceedsIff(st, o, Positive(n));
    SaveKeepsRowKeys(st, o, n);
    hide Sound, Covered, LinesSound, Reserve, KeyPasses;
    SaveMoves(st, o, n);
    var u := Save(st, o, n).value;
    MovesAgree(st, u, t, o, n);
    BatchesDetermineRows(u, t);
  }

  lemma MovesAgree(st: Stock, u: Stock, t: Stock, o: Lines, n: Lines)
    requires Moved(st, u, o, n) && Moved(st, t, o, n)
    ensures u.batches == t.batches
  {
    forall id | id in st.batches ensures u.batches[id] == t.batches[id] {
    }
  }

  lemma SaveKeepsBatchKeys(st: Stock, o: Lines, n: Lines)
    requires Save(st, o, n).Some?
    ensures Save(st, o, n).value.batches.Keys == st.batches.Keys
  {
  }

  lemma SaveKeepsRowKeys(st: Stock, o: Lines, n: Lines)
    requires Save(st, o, n).Some?
    ensures Save(st, o, n).value.rows.Keys == st.rows.Keys
  {
  }

  /** Draft saves telescope: any series of successful saves leaves every batch and every warehouse row as the
      single save from the first lines to the last would. */
  lemma {:induction false} SavesTelescope(st: Stock, lines: seq<Lines>)
    requires Sound(st) && lines != [] && Covered(st, lines[0])
    requires forall i :: 0 <= i < |lines| ==> LinesSound(st.batches, lines[i])
    requires Saves(st, lines).Some?
    ensures Saves(st, lines) == Save(st, lines[0], lines[|lines| - 1])
    ensures Sound(Saves(st, lines).value)
    ensures Covered(Saves(st, lines).value, lines[|lines| - 1])
    decreases |lines|
  {
    var last := |lines| - 1;
    if last == 0 {
      DirectSave(st, st, lines[0], lines[0]);
    } else {
      hide Sound, Covered, LinesSound, Save;
      SavesTelescope(st, lines[..last]);
      var mid := Saves(st, lines[..last]).value;
      assert LinesSound(st.batches, lines[last - 1]) && LinesSound(st.batches, lines[last]);
      TwoSaves(st, mid, lines[0], lines[last - 1], lines[last]);
    }
  }

  lemma TwoSaves(st: Stock, mid: Stock, a: Lines, b: Lines, c: Lines)
    requires Sound(st) && Covered(st, a) && LinesSound(st.batches, b) && LinesSound(st.batches, c)
    requires Save(st, a, b) == Some(mid) && Save(mid, b, c).Some?
    ensures Save(st, a, c) == Save(mid, b, c)
    ensures Sound(Save(mid, b, c).value) && Covered(Save(mid, b, c).value, c)
  {
    SaveMoves(st, a, b);
    SaveKeepsRowKeys(st, a, b);
    SoundLinesMove(st, mid, a, b, c);
    SaveMoves(mid, b, c);
    SaveKeepsRowKeys(mid, b, c);
    var t := Save(mid, b, c).value;
    MovesCompose(st, mid, t, a, b, c);
    DirectSave(st, t, a, c);
  }

  lemma SoundLinesMove(st: Stock, mid: Stock, a: Lines, b: Lines, c: Lines)
    requires Moved(st, mid, a, b) && LinesSound(st.batches, c)
    ensures LinesSound(mid.batches, c)
  {
  }

  lemma MovesCompose(st: Stock, mid: Stock, t: Stock, a: Lines, b: Lines, c: Lines)
    requires Moved(st, mid, a, b) && Moved(mid, t, b, c)
    ensures Moved(st, t, a, c)
  {
    forall id | id in st.batches
      ensures t.batches[id] == st.batches[id].(reserved := st.batches[id].reserved + Delta(a, c, KeyOf(id, st.batches[id])))
    {
      assert KeyOf(id, mid.batches[id]) == KeyOf(id, st.batches[id]);
    }
  }

  /** Saving back to the lines one started from restores every counter. */
  lemma SavingBackRestores(st: Stock, lines: seq<Lines>)
    requires Sound(st) && lines != [] && Covered(st, lines[0])
    requires forall i :: 0 <= i < |lines| ==> LinesSound(st.batches, lines[i])
    requires Saves(st, lines).Some? && lines[|lines| - 1] == lines[0]
    ensures Saves(st, lines) == Some(st)
  {
    SavesTelescope(st, lines);
    DirectSave(st, st, lines[0], lines[0]);
  }

  lemma FreeingUndoesMove(st: Stock, t: Stock, n: Lines)
    requires LinesSound(st.batches, n) && Moved(st, t, map[], n)
    requires forall id :: id in st.batches ==> 0 <= st.batches[id].reserved
    ensures FreedOn(t.batches, n, n.Keys) == st.batches
  {
    var u := FreedOn(t.batches, n, n.Keys);
    forall id | id in st.batches ensures u[id] == st.batches[id] {
      assert KeyOf(id, t.batches[id]) == KeyOf(id, st.batches[id]);
    }
  }

  /** Releasing what a fresh package reserved restores every counter. */
  lemma ReleaseUndoesReserve(st: Stock, n: Lines)
    requires Sound(st) && LinesSound(st.batches, n)
    requires Save(st, map[], n).Some?
    ensures Release(Save(st, map[], n).value, n) == st
  {
    var t := Save(st, map[], n).value;
    forall id | id in st.batches ensures 0 <= st.batches[id].reserved {
      assert BatchSound(st, id);
    }
    SaveKeepsRowKeys(st, map[], n);
    hide Sound, LinesSound, Save, Moved, Covered;
    assert Covered(st, map[]) by {
      CoveredByNothing(st);
    }
    SaveMoves(st, map[], n);
    ReleaseKeepsSound(t, n);
    FreeingUndoesMove(st, t, n);
    BatchesDetermineRows(Release(t, n), st);
  }

  lemma CoveredByNothing(st: Stock)
    ensures Covered(st, map[])
  {
  }
}
