// The open-addressing table of utils/jl777hash.h: linear probing, growth by a
// factor of three, records moved between slot arrays but never copied.
//
// `HashSpec` gives the slot array as a value and proves what every run keeps;
// `HashTables` holds the mutable structures and proves each method against it.

module HashSpec {
  import opened Wrappers
  import Words

  const HASHTABLES_STARTSIZE: nat := 100
  const HASHTABLE_RESIZEFACTOR: nat := 3

  // A record as the table sees it: the key stored at `keyoffset` never changes.
  class Record {
    const key: string
    var modified: int

    constructor (key: string)
      ensures this.key == key && modified == 0
    {
      this.key := key;
      modified := 0;
    }
  }

  type Slots = seq<Record?>

  // ------------------------------------------------------------------ hashing

  function HashStep(h: nat, a: nat, c: char): nat {
    if '0' <= c <= '9' then (h * a + (c as int - '0' as int)) % Words.TWO_64 else h
  }

  // The hash of the suffix `key[i..]`, given the accumulator and multiplier.
  function HashFrom(key: string, i: nat, h: nat, a: nat): nat
    requires i <= |key|
    decreases |key| - i
  {
    if i == |key| then h else HashFrom(key, i + 1, HashStep(h, a, key[i]), a * 378551 % Words.TWO_64)
  }

  function DecimalHash(key: string): nat {
    HashFrom(key, 0, 0, 63689)
  }

  // ------------------------------------------------------------------ probing

  function Home(key: string, size: nat): (h: nat)
    requires size > 0
    ensures h < size
  {
    DecimalHash(key) % size
  }

  // The slot reached after `i` probes from `home`, wrapping at the end of the array.
  function ProbeAt(home: nat, i: nat, size: nat): (s: nat)
    requires home < size && i < size
    ensures s < size
  {
    if home + i < size then home + i else home + i - size
  }

  // Does the slot stop a search for `key`?
  predicate Stops(slots: Slots, s: nat, key: string)
    requires s < |slots|
  {
    slots[s] == null || slots[s].key == key
  }

  // The first probe, from the `i`-th on, that stops the search.
  function ProbeFrom(slots: Slots, key: string, i: nat): (r: Option<nat>)
    requires |slots| > 0 && i <= |slots|
    ensures r.Some? ==> i <= r.value < |slots| && Stops(slots, ProbeAt(Home(key, |slots|), r.value, |slots|), key)
    ensures forall j: nat :: i <= j < (if r.Some? then r.value else |slots|) ==>
                               !Stops(slots, ProbeAt(Home(key, |slots|), j, |slots|), key)
    decreases |slots| - i
  {
    if i == |slots| then None
    else if Stops(slots, ProbeAt(Home(key, |slots|), i, |slots|), key) then Some(i)
    else ProbeFrom(slots, key, i + 1)
  }

  // `None` is HASHSEARCH_ERROR.
  function Search(slots: Slots, key: string): (r: Option<nat>)
    requires |slots| > 0
    ensures r.Some? ==> r.value < |slots| && Stops(slots, r.value, key)
  {
    match ProbeFrom(slots, key, 0)
    case None => None
    case Some(i) => Some(ProbeAt(Home(key, |slots|), i, |slots|))
  }

  // ----------------------------------------------------------------- contents

  function Occupied(slots: Slots): nat {
    if |slots| == 0 then 0
    else Occupied(slots[..|slots| - 1]) + if slots[|slots| - 1] == null then 0 else 1
  }

  predicate DistinctKeys(slots: Slots) {
    forall s, t :: 0 <= s < t < |slots| && slots[s] != null && slots[t] != null ==> slots[s].key != slots[t].key
  }

  // The `i`-th probe for the key in slot `s` lands on `s`, and no earlier probe is empty.
  ghost predicate ReachedBy(slots: Slots, s: nat, i: nat)
    requires s < |slots| && slots[s] != null && i < |slots|
  {
    && ProbeAt(Home(slots[s].key, |slots|), i, |slots|) == s
    && forall j: nat :: j < i ==> slots[ProbeAt(Home(slots[s].key, |slots|), j, |slots|)] != null
  }

  // Linear probing's own invariant.
  ghost predicate AllReached(slots: Slots) {
    forall s: nat :: s < |slots| && slots[s] != null ==> exists i: nat :: i < |slots| && ReachedBy(slots, s, i)
  }

  ghost predicate Proper(slots: Slots) {
    DistinctKeys(slots) && AllReached(slots)
  }

  // The finite map the slot array stands for.
  ghost function View(slots: Slots): (m: map<string, Record>) {
    if |slots| == 0 then map[]
    else
      var n := |slots| - 1;
      if slots[n] == null then View(slots[..n]) else View(slots[..n])[slots[n].key := slots[n]]
  }

  lemma {:induction false} ViewHolds(slots: Slots)
    requires DistinctKeys(slots)
    ensures forall s: nat :: s < |slots| && slots[s] != null ==> slots[s].key in View(slots) && View(slots)[slots[s].key] == slots[s]
    ensures forall k :: k in View(slots) ==> exists s: nat :: s < |slots| && slots[s] != null && slots[s].key == k
  {
    if |slots| > 0 {
      var n := |slots| - 1;
      ViewHolds(slots[..n]);
      forall k | k in View(slots) ensures exists s: nat :: s < |slots| && slots[s] != null && slots[s].key == k {
        if k in View(slots[..n]) {
          var s: nat :| s < n && slots[..n][s] != null && slots[..n][s].key == k;
          assert slots[s].key == k;
        } else {
          assert slots[n].key == k;
        }
      }
    }
  }

  // Where a search ends, in terms of the map alone.
  lemma SearchIsLookup(slots: Slots, key: string)
    requires |slots| > 0 && Proper(slots)
    ensures var r := Search(slots, key); var m := View(slots);
            && (r.None? ==> key !in m && forall s :: 0 <= s < |slots| ==> slots[s] != null)
            && (r.Some? && slots[r.value] == null ==> key !in m)
            && (r.Some? && slots[r.value] != null ==> key in m && m[key] == slots[r.value])
  {
    ViewHolds(slots);
    if key in View(slots) {
      var s: nat :| s < |slots| && slots[s] != null && slots[s].key == key;
      SearchFinds(slots, s);
    }
    if Search(slots, key).None? { FullWhenError(slots, key); }
  }

  lemma SearchFinds(slots: Slots, s: nat)
    requires Proper(slots) && s < |slots| && slots[s] != null
    ensures Search(slots, slots[s].key) == Some(s)
  {
    var n, key := |slots|, slots[s].key;
    var i: nat :| i < n && ReachedBy(slots, s, i);
    assert Stops(slots, ProbeAt(Home(key, n), i, n), key);
  }

  lemma FullWhenError(slots: Slots, key: string)
    requires |slots| > 0 && Search(slots, key) == None
    ensures forall s :: 0 <= s < |slots| ==> slots[s] != null
  {
    var n, h := |slots|, Home(key, |slots|);
    forall s: nat | s < n ensures slots[s] != null {
      var i := if s >= h then s - h else s - h + n;
      assert !Stops(slots, ProbeAt(h, i, n), key);
    }
  }

  lemma InsertIsUpdate(slots: Slots, rec: Record)
    requires |slots| > 0 && Proper(slots)
    requires Search(slots, rec.key).Some? && slots[Search(slots, rec.key).value] == null
    ensures var slots' := slots[Search(slots, rec.key).value := rec];
            Proper(slots') && View(slots') == View(slots)[rec.key := rec]
            && Occupied(slots') == Occupied(slots) + 1
  {
    var s := Search(slots, rec.key).value;
    SearchIsLookup(slots, rec.key);
    UpdateOneSlot(slots, s, rec);
    InsertKeepsDistinct(slots, s, rec);
    InsertKeepsReached(slots, s, rec);
  }

  lemma InsertKeepsDistinct(slots: Slots, s: nat, rec: Record)
    requires DistinctKeys(slots) && rec.key !in View(slots)
    requires s < |slots| && slots[s] == null
    ensures DistinctKeys(slots[s := rec])
  {
    ViewHolds(slots);
  }

  lemma InsertKeepsReached(slots: Slots, s: nat, rec: Record)
    requires |slots| > 0 && AllReached(slots)
    requires Search(slots, rec.key) == Some(s) && slots[s] == null
    ensures AllReached(slots[s := rec])
  {
    var n, slots' := |slots|, slots[s := rec];
    forall t: nat | t < n && slots'[t] != null ensures exists i: nat :: i < n && ReachedBy(slots', t, i) {
      if t == s {
        assert ReachedBy(slots', s, ProbeFrom(slots, rec.key, 0).value);
      } else {
        var i: nat :| i < n && ReachedBy(slots, t, i);
        assert ReachedBy(slots', t, i);
      }
    }
  }

  lemma {:induction false} UpdateOneSlot(slots: Slots, s: nat, rec: Record)
    requires s < |slots| && slots[s] == null && rec.key !in View(slots)
    ensures Occupied(slots[s := rec]) == Occupied(slots) + 1
    ensures View(slots[s := rec]) == View(slots)[rec.key := rec]
  {
    var n := |slots| - 1;
    if s == n {
      assert slots[s := rec][..n] == slots[..n];
    } else {
      assert slots[s := rec][..n] == slots[..n][s := rec];
      UpdateOneSlot(slots[..n], s, rec);
    }
  }

  lemma {:induction false} FullOrSpare(slots: Slots)
    ensures Occupied(slots) <= |slots|
    ensures Occupied(slots) == |slots| <==> forall s :: 0 <= s < |slots| ==> slots[s] != null
  {
    if |slots| > 0 { FullOrSpare(slots[..|slots| - 1]); }
  }

  // ------------------------------------------------------------------- tables

  datatype Table = Table(slots: Slots, numitems: nat)

  // Line 294: `numitems > hashsize * .666`.
  predicate Overloaded(t: Table) {
    t.numitems * 1000 > |t.slots| * 666
  }

  // One move of a resize; line 253 reports a record that finds no free slot.
  function Place(t: Table, rec: Record): (r: Table)
    requires |t.slots| > 0
    ensures |r.slots| == |t.slots|
  {
    match Search(t.slots, rec.key)
    case Some(s) => if t.slots[s] == null then Table(t.slots[s := rec], t.numitems + 1) else t
    case None => t
  }

  // Moves the records of `from[i..]` into the table `t`.
  function Rehash(from: Slots, i: nat, t: Table): (r: Table)
    requires i <= |from| && |t.slots| > 0
    ensures |r.slots| == |t.slots|
    decreases |from| - i
  {
    if i == |from| then t
    else Rehash(from, i + 1, if from[i] == null then t else Place(t, from[i]))
  }

  function Blank(size: nat): (t: Table)
    ensures |t.slots| == size
  {
    Table(seq(size, _ => null), 0)
  }

  function Resize(t: Table, newsize: nat): (r: Table)
    requires newsize > 0
    ensures |r.slots| == newsize
  {
    Rehash(t.slots, 0, Blank(newsize))
  }

  // A key `add_hashtable` will not store is replaced (lines 284-290).
  function EffectiveKey(key: string, keysize: nat): string {
    if key == "" || |key| >= keysize then "123456" else key
  }

  datatype AddResult = AddResult(table: Table, created: bool, ptr: Record?)

  // `add_hashtable` with `alloc` the record that line 306 allocates when the key is new.
  function Add(t: Table, key: string, alloc: Record?): (r: AddResult)
    requires |t.slots| > 0
    ensures |r.table.slots| > 0
  {
    var u := if Overloaded(t) then Resize(t, |t.slots| * HASHTABLE_RESIZEFACTOR) else t;
    match Search(u.slots, key)
    case None => AddResult(u, false, null)
    case Some(s) =>
      if u.slots[s] == null then AddResult(Table(u.slots[s := alloc], u.numitems + 1), true, alloc)
      else AddResult(u, false, u.slots[s])
  }

  // What every reachable table satisfies.
  ghost predicate Valid(t: Table) {
    && |t.slots| >= 3
    && Proper(t.slots)
    && t.numitems == Occupied(t.slots)
    && t.numitems * 1000 <= |t.slots| * 666 + 1000
  }

  lemma {:induction false} BlankIsEmpty(size: nat)
    ensures Proper(Blank(size).slots) && View(Blank(size).slots) == map[] && Occupied(Blank(size).slots) == 0
  {
    if size > 0 {
      BlankIsEmpty(size - 1);
      assert Blank(size).slots[..size - 1] == Blank(size - 1).slots;
    }
  }

  // A valid table always has an empty slot.
  lemma SpareSlot(t: Table)
    requires Valid(t)
    ensures t.numitems < |t.slots|
    ensures exists s :: 0 <= s < |t.slots| && t.slots[s] == null
  {
    FullOrSpare(t.slots);
  }

  // Every record of `from[..i]` is in the new table, nothing else is, and there is room for the rest.
  ghost predicate Moved(from: Slots, i: nat, t: Table)
    requires i <= |from|
  {
    && |t.slots| > Occupied(from)
    && Proper(t.slots)
    && t.numitems == Occupied(t.slots) == Occupied(from[..i])
    && View(t.slots) == View(from[..i])
  }

  lemma {:induction false} RehashKeeps(from: Slots, i: nat, t: Table)
    requires i <= |from| && DistinctKeys(from) && Moved(from, i, t)
    ensures Moved(from, |from|, Rehash(from, i, t))
    decreases |from| - i
  {
    if i < |from| {
      MovedStep(from, i, t);
      RehashKeeps(from, i + 1, if from[i] == null then t else Place(t, from[i]));
    }
  }

  // While a resize runs, its error branch at line 253 is never taken.
  lemma MovedStep(from: Slots, i: nat, t: Table)
    requires i < |from| && DistinctKeys(from) && Moved(from, i, t)
    ensures from[i] == null ==> Moved(from, i + 1, t)
    ensures from[i] != null ==> Moved(from, i + 1, Place(t, from[i])) && Place(t, from[i]).numitems == t.numitems + 1
  {
    assert from[..i + 1][..i] == from[..i];
    if from[i] != null {
      OccupiedMonotone(from, i + 1);
      FullOrSpare(t.slots);
      SearchIsLookup(t.slots, from[i].key);
      ViewHolds(from[..i]);
      InsertIsUpdate(t.slots, from[i]);
    }
  }

  lemma OccupiedMonotone(slots: Slots, i: nat)
    requires i <= |slots|
    ensures Occupied(slots[..i]) <= Occupied(slots)
    decreases |slots|
  {
    if i == |slots| {
      assert slots[..i] == slots;
    } else {
      var n := |slots| - 1;
      assert slots[..n][..i] == slots[..i];
      OccupiedMonotone(slots[..n], i);
    }
  }

  // Growing loses nothing, duplicates nothing and leaves room.
  lemma ResizeKeeps(t: Table)
    requires Valid(t)
    ensures var r := Resize(t, |t.slots| * HASHTABLE_RESIZEFACTOR);
            Valid(r) && View(r.slots) == View(t.slots) && r.numitems == t.numitems && !Overloaded(r)
  {
    var size := |t.slots| * HASHTABLE_RESIZEFACTOR;
    BlankIsEmpty(size);
    FullOrSpare(t.slots);
    assert t.slots[..0] == [];
    assert t.slots[..|t.slots|] == t.slots;
    RehashKeeps(t.slots, 0, Blank(size));
  }

  // One addition, seen on the map: the first one under a key creates the record,
  // every later one returns it.
  lemma AddIsFirstWins(t: Table, key: string, alloc: Record?)
    requires Valid(t) && (key !in View(t.slots) ==> alloc != null && alloc.key == key)
    ensures var r := Add(t, key, alloc); var m := View(t.slots);
            && Valid(r.table)
            && r.created == (key !in m)
            && View(r.table.slots) == (if key in m then m else m[key := alloc])
            && r.ptr == View(r.table.slots)[key]
  {
    if Overloaded(t) { ResizeKeeps(t); }
    var u := if Overloaded(t) then Resize(t, |t.slots| * HASHTABLE_RESIZEFACTOR) else t;
    SpareSlot(u);
    SearchIsLookup(u.slots, key);
    if key !in View(u.slots) { InsertIsUpdate(u.slots, alloc); }
  }

  // --------------------------------------------------------------------- runs

  datatype Op = AddOp(key: string, alloc: Record) | FindOp(key: string)

  // `Failed` is a null pointer from an addition or HASHSEARCH_ERROR from a search;
  // a successful search reports what lies in the slot it returns.
  datatype Outcome = Added(created: bool, ptr: Record) | Found(slot: Record?) | Failed

  predicate Allocates(op: Op) {
    op.AddOp? ==> op.alloc.key == op.key
  }

  function Step(t: Table, op: Op): (r: (Table, Outcome))
    requires |t.slots| > 0
    ensures |r.0.slots| > 0
  {
    match op
    case AddOp(key, alloc) =>
      var a := Add(t, key, alloc);
      (a.table, if a.ptr == null then Failed else Added(a.created, a.ptr))
    case FindOp(key) =>
      (t, match Search(t.slots, key) case None => Failed case Some(s) => Found(t.slots[s]))
  }

  function Run(t: Table, ops: seq<Op>): (r: (Table, seq<Outcome>))
    requires |t.slots| > 0
    ensures |r.1| == |ops|
    decreases |ops|
  {
    if ops == [] then (t, [])
    else
      var (u, out) := Step(t, ops[0]);
      var (v, rest) := Run(u, ops[1..]);
      (v, [out] + rest)
  }

  // The same operations on a finite map.
  function MapStep(m: map<string, Record>, op: Op): (map<string, Record>, Outcome) {
    match op
    case AddOp(key, alloc) =>
      if key in m then (m, Added(false, m[key])) else (m[key := alloc], Added(true, alloc))
    case FindOp(key) => (m, Found(if key in m then m[key] else null))
  }

  function MapRun(m: map<string, Record>, ops: seq<Op>): (r: (map<string, Record>, seq<Outcome>))
    ensures |r.1| == |ops|
    decreases |ops|
  {
    if ops == [] then (m, [])
    else
      var (n, out) := MapStep(m, ops[0]);
      var (k, rest) := MapRun(n, ops[1..]);
      (k, [out] + rest)
  }

  // Over any run, with any number of resizes, the table is the map.
  lemma {:induction false} RunRefinesMap(t: Table, ops: seq<Op>)
    requires Valid(t) && forall i :: 0 <= i < |ops| ==> Allocates(ops[i])
    ensures var (u, outs) := Run(t, ops); var (m, mouts) := MapRun(View(t.slots), ops);
            Valid(u) && View(u.slots) == m && outs == mouts
    decreases |ops|
  {
    if ops != [] {
      StepRefinesMap(t, ops[0]);
      RunRefinesMap(Step(t, ops[0]).0, ops[1..]);
    }
  }

  lemma StepRefinesMap(t: Table, op: Op)
    requires Valid(t) && Allocates(op)
    ensures var (u, out) := Step(t, op); var (m, mout) := MapStep(View(t.slots), op);
            Valid(u) && View(u.slots) == m && out == mout
  {
    match op
    case AddOp(key, alloc) => AddIsFirstWins(t, key, alloc);
    case FindOp(key) =>
      SearchIsLookup(t.slots, key);
      SpareSlot(t);
  }

  // Within a run of the table the record created under a key is the one every later addition
  // or search under that key returns, whatever else is added and however often the table grows.
  lemma SameRecordForEver(t: Table, ops: seq<Op>, key: string)
    requires Valid(t) && key in View(t.slots) && forall i :: 0 <= i < |ops| ==> Allocates(ops[i])
    ensures var (u, outs) := Run(t, ops); var ptr := View(t.slots)[key];
            && Valid(u) && key in View(u.slots) && View(u.slots)[key] == ptr
            && forall j :: 0 <= j < |ops| && ops[j].key == key ==>
                 outs[j] == if ops[j].AddOp? then Added(false, ptr) else Found(ptr)
  {
    RunRefinesMap(t, ops);
    MapKeepsRecord(View(t.slots), ops, key);
  }

  lemma {:induction false} MapKeepsRecord(m: map<string, Record>, ops: seq<Op>, key: string)
    requires key in m
    ensures var (n, outs) := MapRun(m, ops);
            && key in n && n[key] == m[key]
            && forall j :: 0 <= j < |ops| && ops[j].key == key ==>
                 outs[j] == if ops[j].AddOp? then Added(false, m[key]) else Found(m[key])
    decreases |ops|
  {
    if ops != [] { MapKeepsRecord(MapStep(m, ops[0]).0, ops[1..], key); }
  }

  // A table never fails exactly when it starts with at least three slots; the
  // sources all start at HASHTABLES_STARTSIZE.
  lemma StartSizeExact(size: nat, a: Record, b: Record, absent: string)
    requires size > 0 && a.key != b.key && absent != a.key && absent != b.key
    ensures (forall ops: seq<Op> :: (forall i :: 0 <= i < |ops| ==> Allocates(ops[i])) ==>
                                      Failed !in Run(Blank(size), ops).1)
            <==> size >= 3
    ensures HASHTABLES_STARTSIZE >= 3
  {
    if size >= 3 {
      forall ops: seq<Op> | forall i :: 0 <= i < |ops| ==> Allocates(ops[i]) ensures Failed !in Run(Blank(size), ops).1 {
        StartsSafely(size, ops);
      }
    } else {
      var ops := SmallTableFills(size, a, b, absent);
    }
  }

  lemma StartsSafely(size: nat, ops: seq<Op>)
    requires size >= 3 && forall i :: 0 <= i < |ops| ==> Allocates(ops[i])
    ensures Failed !in Run(Blank(size), ops).1
  {
    BlankIsEmpty(size);
    RunRefinesMap(Blank(size), ops);
    MapNeverFails(map[], ops);
  }

  lemma {:induction false} MapNeverFails(m: map<string, Record>, ops: seq<Op>)
    ensures Failed !in MapRun(m, ops).1
    decreases |ops|
  {
    if ops != [] { MapNeverFails(MapStep(m, ops[0]).0, ops[1..]); }
  }

  // One or two slots fill up before the load test fires.
  lemma SmallTableFills(size: nat, a: Record, b: Record, absent: string) returns (ops: seq<Op>)
    requires 0 < size < 3 && a.key != b.key && absent != a.key && absent != b.key
    ensures (forall i :: 0 <= i < |ops| ==> Allocates(ops[i])) && Failed in Run(Blank(size), ops).1
  {
    var find := FindOp(absent);
    var t0 := Blank(size);
    BlankIsEmpty(size);
    var t1 := AddWithRoom(t0, a);
    if size == 1 {
      SearchWhenFull(t1, absent);
      assert Run(t1, [find]).1 == [Failed];
      ops := [AddOp(a.key, a), find];
      assert Run(t0, ops).1[1] == Failed;
    } else {
      var t2 := AddWithRoom(t1, b);
      SearchWhenFull(t2, absent);
      assert Run(t2, [find]).1 == [Failed];
      assert Run(t1, [AddOp(b.key, b), find]).1[1] == Failed;
      ops := [AddOp(a.key, a), AddOp(b.key, b), find];
      assert ops[1..] == [AddOp(b.key, b), find];
      assert Run(t0, ops).1[2] == Failed;
    }
  }

  lemma AddWithRoom(t: Table, rec: Record) returns (u: Table)
    requires 0 < |t.slots| < 3 && Proper(t.slots) && t.numitems == Occupied(t.slots) < |t.slots|
    requires !Overloaded(t) && rec.key !in View(t.slots)
    ensures u == Step(t, AddOp(rec.key, rec)).0 && |u.slots| == |t.slots|
    ensures Proper(u.slots) && u.numitems == Occupied(u.slots) == t.numitems + 1
    ensures View(u.slots) == View(t.slots)[rec.key := rec]
  {
    FullOrSpare(t.slots);
    SearchIsLookup(t.slots, rec.key);
    InsertIsUpdate(t.slots, rec);
    u := Step(t, AddOp(rec.key, rec)).0;
  }

  lemma SearchWhenFull(t: Table, key: string)
    requires 0 < |t.slots| == Occupied(t.slots) && Proper(t.slots) && key !in View(t.slots)
    ensures Step(t, FindOp(key)) == (t, Failed)
  {
    FullOrSpare(t.slots);
    SearchIsLookup(t.slots, key);
  }

  // ------------------------------------------------------------------ gathers

  // A forced gather: the records in slot order.
  function Gather(slots: Slots): (r: seq<Record>) {
    if |slots| == 0 then []
    else
      var n := |slots| - 1;
      if slots[n] == null then Gather(slots[..n]) else Gather(slots[..n]) + [slots[n]]
  }

  lemma {:induction false} GatherIsContents(slots: Slots)
    requires DistinctKeys(slots)
    ensures |Gather(slots)| == Occupied(slots) == |View(slots)|
    ensures forall i :: 0 <= i < |Gather(slots)| ==>
              Gather(slots)[i].key in View(slots) && View(slots)[Gather(slots)[i].key] == Gather(slots)[i]
    ensures forall k :: k in View(slots) ==> View(slots)[k] in Gather(slots)
  {
    if |slots| > 0 {
      var n := |slots| - 1;
      GatherIsContents(slots[..n]);
      ViewHolds(slots[..n]);
    }
  }
}

// The mutable table. Line numbers refer to utils/jl777hash.h.
module HashTables {
  import opened HashSpec
  import opened Wrappers
  import Words

  method CalcDecimalHash(key: string) returns (hashval: nat)
    ensures hashval == DecimalHash(key)
  {
    hashval := 0;
    var a, b, i := 63689, 378551, 0;
    while i < |key|
      invariant 0 <= i <= |key| && 0 <= a
      invariant HashFrom(key, i, hashval, a) == DecimalHash(key)
    {
      var c := key[i];
      if '0' <= c <= '9' {
        hashval := (hashval * a + (c as int - '0' as int)) % Words.TWO_64;
      }
      i, a := i + 1, a * b % Words.TWO_64;
    }
  }

  class Hashtable {
    var hashtable: array<Record?>
    var numitems: nat
    var numsearches: nat
    var numiterations: nat
    const keysize: nat

    ghost function Value(): Table
      reads this, hashtable
    {
      Table(hashtable[..], numitems)
    }

    ghost predicate Valid()
      reads this, hashtable
    {
      HashSpec.Valid(Value())
    }

    constructor (hashsize: nat, keysize: nat)
      ensures fresh(hashtable) && Value() == Blank(hashsize)
      ensures this.keysize == keysize && numsearches == 0
      ensures hashsize >= 3 ==> Valid() && View(Value().slots) == map[]
    {
      this.keysize := keysize;
      numitems, numsearches, numiterations := 0, 0, 0;
      hashtable := new Record?[hashsize](_ => null);
      new;
      assert hashtable[..] == Blank(hashsize).slots;
      BlankIsEmpty(hashsize);
    }

    method Search(key: string) returns (ind: Option<nat>)
      requires hashtable.Length > 0
      modifies this`numsearches, this`numiterations
      ensures ind == HashSpec.Search(hashtable[..], key)
      ensures numsearches == old(numsearches) + 1
      ensures old(numiterations) < numiterations <= old(numiterations) + hashtable.Length
    {
      var size := hashtable.Length;
      var hashval := CalcDecimalHash(key);
      var s := hashval % size;
      numsearches := numsearches + 1;
      ghost var slots := hashtable[..];
      var i := 0;
      while i < size
        invariant 0 <= i <= size && hashtable[..] == slots
        invariant numsearches == old(numsearches) + 1 && numiterations == old(numiterations) + i
        invariant i < size ==> s < size + 1 && (if s == size then 0 else s) == ProbeAt(Home(key, size), i, size)
        invariant ProbeFrom(slots, key, 0) == ProbeFrom(slots, key, i)
      {
        numiterations := numiterations + 1;
        if s >= size {
          s := 0;
        }
        var ptr := hashtable[s];
        assert ptr == slots[s];
        if ptr == null || ptr.key == key {
          return Some(s);
        }
        i, s := i + 1, s + 1;
      }
      ind := None;
    }

    // Lines 178-204: counts, then collects. `mismatch` is the report of line 200.
    method GatherModified(force: bool) returns (list: seq<Record>, mismatch: bool)
      ensures force ==> list == Gather(hashtable[..])
      ensures force && Valid() ==> |list| == numitems
      ensures !mismatch
      ensures list == Wanted(hashtable[..], force)
    {
      var slots := hashtable[..];
      var n, i := 0, 0;
      while i < hashtable.Length
        invariant 0 <= i <= hashtable.Length && n == |Wanted(slots[..i], force)|
      {
        assert slots[..i + 1][..i] == slots[..i];
        var ptr := hashtable[i];
        if ptr != null && (force || ptr.modified != 0) {
          n := n + 1;
        }
        i := i + 1;
      }
      assert slots[..i] == slots;
      list := [];
      if n != 0 {
        i := 0;
        while i < hashtable.Length
          invariant 0 <= i <= hashtable.Length && list == Wanted(slots[..i], force)
        {
          assert slots[..i + 1][..i] == slots[..i];
          var ptr := hashtable[i];
          if ptr != null && (force || ptr.modified != 0) {
            list := list + [ptr];
          }
          i := i + 1;
        }
        assert slots[..i] == slots;
      }
      mismatch := |list| != n;
      if force { WantedAll(slots); }
      if force && Valid() { GatherIsContents(slots); }
    }
  }

  // The records a gather takes: all of them, or those marked as modified.
  ghost function Wanted(slots: Slots, force: bool): (r: seq<Record>)
    reads set r: Record | r in slots
  {
    if |slots| == 0 then []
    else
      var n := |slots| - 1;
      Wanted(slots[..n], force) + if slots[n] != null && (force || slots[n].modified != 0) then [slots[n]] else []
  }

  lemma {:induction false} WantedAll(slots: Slots)
    ensures Wanted(slots, true) == Gather(slots)
  {
    if |slots| > 0 { WantedAll(slots[..|slots| - 1]); }
  }

  // The pointer cell through which callers reach a table (`struct hashtable **`).
  class TableRef {
    var hp: Hashtable
    constructor (hp: Hashtable)
      ensures this.hp == hp
    {
      this.hp := hp;
    }
  }

  // `errors` counts the reports of lines 253, 257 and 267.
  method ResizeHashtable(hp: Hashtable, newsize: nat) returns (newhp: Hashtable, errors: int)
    requires newsize > 0
    ensures fresh(newhp) && fresh(newhp.hashtable)
    ensures newhp.Value() == Resize(hp.Value(), newsize) && newhp.keysize == hp.keysize
    ensures hp.Valid() && newsize == hp.hashtable.Length * HASHTABLE_RESIZEFACTOR ==> errors == 0
  {
    newhp := new Hashtable(newsize, hp.keysize);
    newhp.numsearches, newhp.numiterations := hp.numsearches, hp.numiterations;
    if hp.Valid() && newsize == hp.hashtable.Length * HASHTABLE_RESIZEFACTOR { MovedAtStart(hp.Value(), newsize); }
    errors := MoveRecords(hp, newhp);
    assert hp.hashtable[..|hp.hashtable[..]|] == hp.hashtable[..];
    if hp.numitems != newhp.numitems {
      errors := errors + 1;
    } else {
      var missing := CheckMoved(hp, newhp);
      errors := errors + missing;
    }
  }

  // Lines 242-255.
  method MoveRecords(hp: Hashtable, newhp: Hashtable) returns (errors: int)
    requires hp != newhp && hp.hashtable != newhp.hashtable && newhp.hashtable.Length > 0
    modifies newhp, newhp.hashtable
    ensures newhp.hashtable == old(newhp.hashtable)
    ensures newhp.Value() == Rehash(hp.hashtable[..], 0, old(newhp.Value()))
    ensures old(Moved(hp.hashtable[..], 0, newhp.Value())) && DistinctKeys(hp.hashtable[..]) ==>
              errors == 0 && Moved(hp.hashtable[..], hp.hashtable.Length, newhp.Value())
  {
    hide Moved, Search, DistinctKeys;
    errors := 0;
    ghost var slots, t0 := hp.hashtable[..], newhp.Value();
    ghost var safe := Moved(slots, 0, t0) && DistinctKeys(slots);
    var ind := 0;
    while ind < hp.hashtable.Length
      invariant 0 <= ind <= hp.hashtable.Length && hp.hashtable[..] == slots
      invariant newhp.hashtable == old(newhp.hashtable)
      invariant Rehash(slots, ind, newhp.Value()) == Rehash(slots, 0, t0)
      invariant safe ==> errors == 0 && Moved(slots, ind, newhp.Value())
    {
      var ptr := hp.hashtable[ind];
      if safe { MovedStep(slots, ind, newhp.Value()); }
      if ptr != null {
        ghost var t := newhp.Value();
        var newind := newhp.Search(ptr.key);
        if newind.Some? && newhp.hashtable[newind.value] == null {
          newhp.hashtable[newind.value] := ptr;
          newhp.numitems := newhp.numitems + 1;
          assert newhp.hashtable[..] == t.slots[newind.value := ptr];
        } else {
          errors := errors + 1;
        }
        assert newhp.Value() == Place(t, ptr);
      }
      ind := ind + 1;
    }
  }

  // Lines 260-269.
  method CheckMoved(hp: Hashtable, newhp: Hashtable) returns (missing: int)
    requires hp != newhp && newhp.hashtable.Length > 0
    modifies newhp`numsearches, newhp`numiterations
    ensures Moved(hp.hashtable[..], hp.hashtable.Length, newhp.Value()) && DistinctKeys(hp.hashtable[..]) ==> missing == 0
  {
    hide Moved, DistinctKeys;
    missing := 0;
    ghost var slots, t := hp.hashtable[..], newhp.Value();
    var ind := 0;
    while ind < hp.hashtable.Length
      invariant 0 <= ind <= hp.hashtable.Length && hp.hashtable[..] == slots && newhp.Value() == t
      invariant Moved(slots, |slots|, t) && DistinctKeys(slots) ==> missing == 0
    {
      var ptr := hp.hashtable[ind];
      if ptr != null {
        var newind := newhp.Search(ptr.key);
        if Moved(slots, |slots|, t) && DistinctKeys(slots) { MovedIsFound(slots, ind, t); }
        if newind.None? || newhp.hashtable[newind.value] == null {
          missing := missing + 1;
        }
      }
      ind := ind + 1;
    }
  }

  lemma MovedAtStart(t: Table, newsize: nat)
    requires HashSpec.Valid(t) && newsize == |t.slots| * HASHTABLE_RESIZEFACTOR
    ensures Moved(t.slots, 0, Blank(newsize))
  {
    BlankIsEmpty(newsize);
    FullOrSpare(t.slots);
    assert t.slots[..0] == [];
  }

  lemma MovedIsFound(from: Slots, ind: nat, t: Table)
    requires ind < |from| && from[ind] != null && DistinctKeys(from) && Moved(from, |from|, t)
    ensures Search(t.slots, from[ind].key).Some?
    ensures t.slots[Search(t.slots, from[ind].key).value] == from[ind]
  {
    assert from[..|from|] == from;
    ViewHolds(from);
    SearchIsLookup(t.slots, from[ind].key);
  }

  // `errors` also counts the report of line 314.
  method AddHashtable(hpPtr: TableRef, key: string) returns (created: bool, ptr: Record?, errors: int)
    requires hpPtr.hp.hashtable.Length > 0
    modifies hpPtr, hpPtr.hp, hpPtr.hp.hashtable
    ensures hpPtr.hp == old(hpPtr.hp) || fresh(hpPtr.hp)
    ensures hpPtr.hp.hashtable == old(hpPtr.hp.hashtable) || fresh(hpPtr.hp.hashtable)
    ensures hpPtr.hp.keysize == old(hpPtr.hp.keysize)
    ensures created ==> fresh(ptr) && ptr.key == EffectiveKey(key, hpPtr.hp.keysize) && ptr.modified == 0
    ensures AddResult(hpPtr.hp.Value(), created, ptr)
         == Add(old(hpPtr.hp.Value()), EffectiveKey(key, hpPtr.hp.keysize), if created then ptr else null)
    ensures old(hpPtr.hp.Valid()) ==> errors == 0 && ptr != null && hpPtr.hp.Valid()
    ensures old(hpPtr.hp.Valid()) ==>
              var k := if 0 < |key| < hpPtr.hp.keysize then key else "123456";
              var before, after := old(View(hpPtr.hp.hashtable[..])), View(hpPtr.hp.hashtable[..]);
              && created == (k !in before) && ptr.key == k && k in after && after[k] == ptr
              && after == if created then before[k := ptr] else before
  {
    hide HashSpec.Valid, View, Add;
    ghost var t0 := hpPtr.hp.Value();
    var k := key;
    if key == "" || |key| >= hpPtr.hp.keysize {
      k := "123456";
    }
    created, ptr, errors := AddUnder(hpPtr, k);
    if HashSpec.Valid(t0) { AddMeans(t0, hpPtr.hp.Value(), k, created, ptr); }
  }

  // Lines 291-317, for a key that can be stored.
  method AddUnder(hpPtr: TableRef, k: string) returns (created: bool, ptr: Record?, errors: int)
    requires hpPtr.hp.hashtable.Length > 0
    modifies hpPtr, hpPtr.hp, hpPtr.hp.hashtable
    ensures hpPtr.hp == old(hpPtr.hp) || fresh(hpPtr.hp)
    ensures hpPtr.hp.hashtable == old(hpPtr.hp.hashtable) || fresh(hpPtr.hp.hashtable)
    ensures hpPtr.hp.keysize == old(hpPtr.hp.keysize)
    ensures created ==> fresh(ptr) && ptr.key == k && ptr.modified == 0
    ensures AddResult(hpPtr.hp.Value(), created, ptr) == Add(old(hpPtr.hp.Value()), k, if created then ptr else null)
    ensures old(hpPtr.hp.Valid()) ==> errors == 0
  {
    hide HashSpec.Valid, HashSpec.Search, View, HashSpec.Resize;
    var hp := hpPtr.hp;
    ghost var t0 := hp.Value();
    created, errors := false, 0;
    if hp.numitems * 1000 > hp.hashtable.Length * 666 {
      hp, errors := ResizeHashtable(hp, hp.hashtable.Length * HASHTABLE_RESIZEFACTOR);
      hpPtr.hp := hp;
    }
    var ind := hp.Search(k);
    if ind.None? {
      ptr := null;
    } else {
      ptr := hp.hashtable[ind.value];
      if ptr == null {
        ptr := new Record(k);
        ghost var before := hp.hashtable[..];
        hp.hashtable[ind.value] := ptr;
        assert hp.hashtable[..] == before[ind.value := ptr];
        hp.numitems := hp.numitems + 1;
        created := true;
        ghost var mid := hp.hashtable[..];
        ind := hp.Search(k);
        if HashSpec.Valid(t0) { AddIsFirstWins(t0, k, ptr); SearchIsLookup(mid, k); }
        if ind.None? || hp.hashtable[ind.value] == null {
          errors := errors + 1;
        }
      }
    }
  }

  // What an addition means on a valid table.
  lemma AddMeans(t0: Table, t1: Table, k: string, created: bool, ptr: Record?)
    requires HashSpec.Valid(t0) && AddResult(t1, created, ptr) == Add(t0, k, if created then ptr else null)
    requires created ==> ptr != null && ptr.key == k
    ensures HashSpec.Valid(t1) && created == (k !in View(t0.slots)) && ptr != null && ptr.key == k
    ensures k in View(t1.slots) && View(t1.slots)[k] == ptr
    ensures View(t1.slots) == if created then View(t0.slots)[k := ptr] else View(t0.slots)
  {
    if !created { NotCreated(t0, k); }
    AddIsFirstWins(t0, k, if created then ptr else null);
    hide HashSpec.Valid, View, Add;
    KeyOfRecord(t1, k);
  }

  // A record is found under its own key.
  lemma KeyOfRecord(t: Table, key: string)
    requires HashSpec.Valid(t) && key in View(t.slots)
    ensures View(t.slots)[key].key == key
  {
    ViewHolds(t.slots);
  }

  lemma NotCreated(t: Table, key: string)
    requires HashSpec.Valid(t) && !Add(t, key, null).created
    ensures key in View(t.slots)
  {
    if Overloaded(t) { ResizeKeeps(t); }
    var u := if Overloaded(t) then Resize(t, |t.slots| * HASHTABLE_RESIZEFACTOR) else t;
    SpareSlot(u);
    SearchIsLookup(u.slots, key);
  }
}
