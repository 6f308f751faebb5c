// `find_coin_txid` (multigateway/multifind.h:201-211). The search returns a slot, and the caller
// reads that slot itself, after its call has returned and while the server goes on.

module CoinTxids {
  import opened HashSpec
  import opened HashProtocol
  import opened Wrappers
  import Words

  // The record under a key, or null.
  ghost function Lookup(slots: Slots, key: string): Record? {
    if key in View(slots) then View(slots)[key] else null
  }

  // ------------------------------------------------------------- what the server keeps

  // A table that has not grown keeps its records in their slots.
  ghost predicate Stays(before: Slots, after: Slots) {
    && |before| <= |after|
    && (|before| == |after| ==> forall i :: 0 <= i < |before| && before[i] != null ==> after[i] == before[i])
  }

  lemma AddStays(t: Table, key: string, alloc: Record?)
    requires |t.slots| > 0
    ensures Stays(t.slots, Add(t, key, alloc).table.slots)
  {
    hide Resize, Search;
  }

  lemma PerformStays(tables: seq<Shared>, req: Request, alloc: Record, t: nat)
    requires t < |tables|
    ensures Stays(tables[t].table.slots, Perform(tables, req, alloc).0[t].table.slots)
  {
    hide Add;
    if Names(req, tables) && req.AddReq? && req.table == t {
      AddStays(tables[t].table, EffectiveKey(req.key, tables[t].keysize), alloc);
    }
  }

  lemma {:induction false} LogStays(start: seq<Shared>, log: seq<Entry>, p: nat, t: nat)
    requires p <= |log| && t < |start|
    ensures |Sequential(start, log[..p]).0| == |Sequential(start, log).0| == |start|
    ensures Stays(Sequential(start, log[..p]).0[t].table.slots, Sequential(start, log).0[t].table.slots)
  {
    SameTables(start, log);
    SameTables(start, log[..p]);
    if p == |log| {
      assert log[..p] == log;
    } else {
      var n := |log| - 1;
      assert log[..n][..p] == log[..p];
      LogStays(start, log[..n], p, t);
      PerformStays(Sequential(start, log[..n]).0, log[n].req, log[n].alloc, t);
    }
  }

  lemma {:induction false} SameTables(start: seq<Shared>, log: seq<Entry>)
    ensures |Sequential(start, log).0| == |start|
  {
    if log != [] { SameTables(start, log[..|log| - 1]); }
  }

  // ------------------------------------------------------------------ the later read

  // A slot without the key's record, at which a search for it would still end, means that there is
  // none.
  lemma NullMeansAbsent(before: Slots, now: Slots, key: string, ind: nat)
    requires |before| == |now| > 0 && Proper(now) && Stays(before, now)
    requires Search(before, key) == Some(ind) && now[ind] == null
    ensures key !in View(now)
  {
    var n, home := |now|, Home(key, |now|);
    var i, j := ProbeFrom(before, key, 0), ProbeFrom(now, key, 0);
    assert Stops(now, ProbeAt(home, i.value, n), key);
    forall k: nat | k < i.value ensures !Stops(now, ProbeAt(home, k, n), key) {
      assert !Stops(before, ProbeAt(home, k, n), key);
    }
    assert j.Some? && j.value == i.value;
    SearchIsLookup(now, key);
  }

  // When the slot of an earlier search is read. In a table that has not grown, the slot holds what
  // a search would find now exactly when no other key has come to it, and always when the key was
  // there; in one that has grown, it must not have lost the key's record either.
  lemma ReadLater(before: Slots, now: Slots, key: string, ind: nat)
    requires |before| > 0 && Proper(before) && Proper(now) && Stays(before, now) && Search(before, key) == Some(ind)
    ensures ind < |now|
    ensures now[ind] == Lookup(now, key) <==> if now[ind] == null then key !in View(now) else now[ind].key == key
    ensures |before| == |now| ==> (now[ind] == Lookup(now, key) <==> now[ind] == null || now[ind].key == key)
    ensures |before| == |now| && key in View(before) ==> now[ind] == Lookup(now, key) == Lookup(before, key)
  {
    SearchIsLookup(before, key);
    ViewHolds(before);
    ViewHolds(now);
    if |before| == |now| && now[ind] == null { NullMeansAbsent(before, now, key, ind); }
  }

  // The same of a completed call: `now` is its table at any moment after its return.
  lemma FindCoinTxid(tables: seq<Shared>, steps: seq<Step>, i: nat)
    requires AllValid(tables) && Exec(Start(tables), steps).Some?
    requires var s := Exec(Start(tables), steps).value;
             i < |s.calls| && s.calls[i].phase.Returned? && s.calls[i].req.SearchReq?
    ensures var s := Exec(Start(tables), steps).value;
            var c := s.calls[i];
            && c.took.Some? && c.took.value <= |s.log|
            && c.req.table < |tables| && |Sequential(tables, s.log[..c.took.value]).0| == |s.tables| == |tables|
            && c.phase.reply.Index? && c.phase.reply.ind.Some?
            && var before := Sequential(tables, s.log[..c.took.value]).0[c.req.table].table.slots;
               var now, key, ind := s.tables[c.req.table].table.slots, c.req.key, c.phase.reply.ind.value;
               && ind < |now|
               && (now[ind] == Lookup(now, key) <==> if now[ind] == null then key !in View(now) else now[ind].key == key)
               && (|before| == |now| ==> (now[ind] == Lookup(now, key) <==> now[ind] == null || now[ind].key == key))
               && (|before| == |now| && key in View(before) ==> now[ind] == Lookup(now, key) == Lookup(before, key))
  {
    var s := Exec(Start(tables), steps).value;
    Linearizable(tables, steps, i);
    OrderIsRealTime(tables, steps);
    ReachableFits(tables, steps);
    hide Exec;
    var p, req := s.calls[i].took.value, s.calls[i].req;
    AnswerAt(tables, s.log, p);
    assert Fits(tables, s.log[p].req, s.log[p].alloc);
    var before := Sequential(tables, s.log[..p]).0;
    SequentialServes(tables, s.log);
    SequentialServes(tables, s.log[..p]);
    LogStays(tables, s.log, p, req.table);
    ReadLater(before[req.table].table.slots, s.tables[req.table].table.slots, req.key, s.calls[i].phase.reply.ind.value);
  }

  // The answer at one position of the log.
  lemma {:induction false} AnswerAt(start: seq<Shared>, log: seq<Entry>, p: nat)
    requires p < |log|
    ensures Sequential(start, log).1[p] == Perform(Sequential(start, log[..p]).0, log[p].req, log[p].alloc).1
  {
    hide Perform;
    var n := |log| - 1;
    if p < n {
      assert log[..n][..p] == log[..p];
      AnswerAt(start, log[..n], p);
    }
  }

  // ------------------------------------------------------- a read that goes wrong

  // Nobody is served, waits or holds the flag.
  ghost predicate Quiet(s: State) {
    s.server.Idle? && s.searchQueue == multiset{} && s.addQueue == multiset{} && !s.hashprocessing
  }

  // A call that has queued its packet on a quiet server.
  function Asked(s: State, req: Request, addr: Addr): State {
    s.(calls := s.calls + [Call(req, addr, Waiting, Some(s.clock + 3), None, None)],
       heap := s.heap[addr := Packet(|s.calls|, req, false, None)], hashprocessing := true, clock := s.clock + 4,
       searchQueue := if req.AddReq? then multiset{} else multiset{addr},
       addQueue := if req.AddReq? then multiset{addr} else multiset{})
  }

  lemma Asks(s0: State, steps: seq<Step>, req: Request, addr: Addr) returns (more: seq<Step>)
    requires Exec(s0, steps).Some?
    requires var s := Exec(s0, steps).value; Quiet(s) && addr !in s.heap && Names(req, s.tables)
    ensures steps <= more && Exec(s0, more) == Some(Asked(Exec(s0, steps).value, req, addr))
  {
    var s := Exec(s0, steps).value;
    var c := |s.calls|;
    var t := ExecThen(s0, steps, Invoke(req, addr));
    more := steps + [Invoke(req, addr)];
    hide Exec;
    t := ExecThen(s0, more, ReadFlag(c));
    more := more + [ReadFlag(c)];
    t := ExecThen(s0, more, SetFlag(c));
    more := more + [SetFlag(c)];
    t := ExecThen(s0, more, HashProtocol.Enqueue(c));
    more := more + [HashProtocol.Enqueue(c)];
    assert multiset{} + multiset{addr} == multiset{addr};
    assert t.calls == Asked(s, req, addr).calls;
  }

  // The server has taken it.
  function Taken(s: State, req: Request, addr: Addr): State {
    var t := Asked(s, req, addr);
    t.(searchQueue := multiset{}, addQueue := multiset{}, server := Fetched(addr), dequeued := s.dequeued + [|s.calls|],
       clock := s.clock + 5)
  }

  // The tables and the log after its request.
  function Performed(s: State, req: Request, addr: Addr, alloc: Record, phase: Phase): State {
    var (tables, reply) := Perform(s.tables, req, alloc);
    s.(calls := s.calls + [Call(req, addr, phase, Some(s.clock + 3), Some(|s.log|), None)],
       heap := s.heap[addr := Packet(|s.calls|, req, true, Some(reply))], hashprocessing := true,
       searchQueue := multiset{}, addQueue := multiset{}, server := Idle,
       tables := tables, dequeued := s.dequeued + [|s.calls|],
       log := s.log + [Entry(|s.calls|, req, alloc, s.clock + 5)])
  }

  function Answered(s: State, req: Request, addr: Addr, alloc: Record): State {
    Performed(s, req, addr, alloc, Waiting).(clock := s.clock + 7)
  }

  lemma Takes(s: State, req: Request, addr: Addr)
    requires Quiet(s)
    ensures Enabled(Asked(s, req, addr), Fetch(addr)) && Next(Asked(s, req, addr), Fetch(addr)) == Taken(s, req, addr)
  {
    assert multiset{addr} - multiset{addr} == multiset{};
  }

  lemma Performs(s: State, req: Request, addr: Addr, alloc: Record)
    requires Fits(s.tables, req, alloc)
    ensures var t := Taken(s, req, addr);
            Enabled(t, Execute(alloc)) && Enabled(Next(t, Execute(alloc)), Finish)
            && Next(Next(t, Execute(alloc)), Finish) == Answered(s, req, addr, alloc)
  {
    hide Perform, Unqueue;
    var t, u := Taken(s, req, addr), Next(Taken(s, req, addr), Execute(alloc));
    LastCall(s.calls, Call(req, addr, Waiting, Some(s.clock + 3), None, None),
             Call(req, addr, Waiting, Some(s.clock + 3), Some(|s.log|), None));
    assert u.heap == s.heap[addr := Packet(|s.calls|, req, false, Some(Perform(s.tables, req, alloc).1))];
  }

  lemma LastCall(calls: seq<Call>, c: Call, d: Call)
    ensures (calls + [c])[|calls| := d] == calls + [d]
  {
  }

  lemma IsAnswered(s0: State, steps: seq<Step>, s: State, req: Request, addr: Addr, alloc: Record) returns (more: seq<Step>)
    requires Exec(s0, steps) == Some(Asked(s, req, addr)) && Quiet(s) && Fits(s.tables, req, alloc)
    ensures steps <= more && Exec(s0, more) == Some(Answered(s, req, addr, alloc))
  {
    hide Exec, Next, Enabled, Asked, Taken, Answered, Quiet, Fits;
    Takes(s, req, addr);
    Performs(s, req, addr, alloc);
    var t := ExecThen(s0, steps, Fetch(addr));
    more := steps + [Fetch(addr)];
    t := ExecThen(s0, more, Execute(alloc));
    more := more + [Execute(alloc)];
    t := ExecThen(s0, more, Finish);
    more := more + [Finish];
  }

  // It has returned.
  function Completed(s: State, req: Request, addr: Addr, alloc: Record): State {
    var reply := Perform(s.tables, req, alloc).1;
    Performed(s, req, addr, alloc, Waiting).(
      calls := s.calls + [Call(req, addr, Returned(reply), Some(s.clock + 3), Some(|s.log|), Some(s.clock + 10))],
      heap := s.heap[addr := Packet(|s.calls|, req, true, Some(reply))] - {addr}, hashprocessing := false, clock := s.clock + 11)
  }

  lemma Reads(s: State, req: Request, addr: Addr, alloc: Record)
    ensures var t, c, reply := Answered(s, req, addr, alloc), |s.calls|, Perform(s.tables, req, alloc).1;
            && Enabled(t, ReadDone(c)) && Enabled(Next(t, ReadDone(c)), ReadReply(c))
            && Next(Next(t, ReadDone(c)), ReadReply(c))
               == Performed(s, req, addr, alloc, HasReply(reply)).(clock := s.clock + 9)
  {
    hide Perform, Unqueue;
    var reply := Perform(s.tables, req, alloc).1;
    var first := Call(req, addr, Waiting, Some(s.clock + 3), Some(|s.log|), None);
    LastCall(s.calls, first, first.(phase := SawDone));
    LastCall(s.calls, first.(phase := SawDone), first.(phase := HasReply(reply)));
  }

  lemma Returns(s: State, req: Request, addr: Addr, alloc: Record)
    ensures var c, reply := |s.calls|, Perform(s.tables, req, alloc).1;
            var t := Performed(s, req, addr, alloc, HasReply(reply)).(clock := s.clock + 9);
            && Enabled(t, Free(c)) && Enabled(Next(t, Free(c)), Return(c))
            && Next(Next(t, Free(c)), Return(c)) == Completed(s, req, addr, alloc)
  {
    hide Perform, Unqueue;
    var reply := Perform(s.tables, req, alloc).1;
    var first := Call(req, addr, HasReply(reply), Some(s.clock + 3), Some(|s.log|), None);
    LastCall(s.calls, first, first.(phase := Freed(reply)));
    LastCall(s.calls, first.(phase := Freed(reply)), first.(phase := Returned(reply), returned := Some(s.clock + 10)));
  }

  lemma IsCompleted(s0: State, steps: seq<Step>, s: State, req: Request, addr: Addr, alloc: Record) returns (more: seq<Step>)
    requires Exec(s0, steps) == Some(Answered(s, req, addr, alloc))
    ensures steps <= more && Exec(s0, more) == Some(Completed(s, req, addr, alloc))
  {
    hide Exec, Next, Enabled, Answered, Completed, Performed, Perform;
    Reads(s, req, addr, alloc);
    Returns(s, req, addr, alloc);
    var c := |s.calls|;
    var t := ExecThen(s0, steps, ReadDone(c));
    more := steps + [ReadDone(c)];
    t := ExecThen(s0, more, ReadReply(c));
    more := more + [ReadReply(c)];
    t := ExecThen(s0, more, Free(c));
    more := more + [Free(c)];
    t := ExecThen(s0, more, Return(c));
    more := more + [Return(c)];
  }

  // A search for a key that is absent, and an addition of another one that probes from the same
  // slot: when the search's slot is read after it, it holds the other key's record.
  lemma AnotherKeyTakesTheSlot(tables: seq<Shared>, t: nat, key: string, other: Record, alloc: Record) returns (steps: seq<Step>)
    requires t < |tables| && AllValid(tables) && !Overloaded(tables[t].table)
    requires var slots := tables[t].table.slots;
             key !in View(slots) && other.key !in View(slots) && Home(key, |slots|) == Home(other.key, |slots|)
    requires other.key != key && other.key == EffectiveKey(other.key, tables[t].keysize)
    ensures Exec(Start(tables), steps).Some?
    ensures var s := Exec(Start(tables), steps).value;
            && |s.calls| == 2 && s.calls[0].req == SearchReq(t, key) && s.calls[0].phase.Returned?
            && s.calls[0].phase.reply.Index? && s.calls[0].phase.reply.ind.Some? && |s.tables| == |tables|
            && var now, ind := s.tables[t].table.slots, s.calls[0].phase.reply.ind.value;
               ind < |now| && now[ind] == other && Lookup(now, key) == null
  {
    var s0 := Start(tables);
    assert Exec(s0, []) == Some(s0);
    var search, add := SearchReq(t, key), AddReq(t, other.key);
    hide Exec, Perform, View, Home;
    var more := Asks(s0, [], search, 0);
    more := IsAnswered(s0, more, s0, search, 0, alloc);
    more := IsCompleted(s0, more, s0, search, 0, alloc);
    var s1 := Completed(s0, search, 0, alloc);
    SearchesAlone(tables, search, alloc);
    more := Asks(s0, more, add, 1);
    steps := IsAnswered(s0, more, s1, add, 1, other);
    TakesTheSlot(tables, t, key, other);
  }

  lemma SearchesAlone(tables: seq<Shared>, req: Request, alloc: Record)
    requires req.SearchReq? && Names(req, tables)
    ensures Perform(tables, req, alloc) == (tables, Index(Search(tables[req.table].table.slots, req.key)))
  {
  }

  // Both searches end in the same slot.
  lemma TakesTheSlot(tables: seq<Shared>, t: nat, key: string, other: Record)
    requires t < |tables| && AllValid(tables) && !Overloaded(tables[t].table)
    requires var slots := tables[t].table.slots;
             key !in View(slots) && other.key !in View(slots) && Home(key, |slots|) == Home(other.key, |slots|)
    requires other.key != key && other.key == EffectiveKey(other.key, tables[t].keysize)
    ensures var slots, now := tables[t].table.slots, Perform(tables, AddReq(t, other.key), other).0[t].table.slots;
            var ind := Search(slots, key);
            ind.Some? && ind.value < |now| && now[ind.value] == other && Lookup(now, key) == null
  {
    var slots := tables[t].table.slots;
    var n, home := |slots|, Home(key, |slots|);
    SpareSlot(tables[t].table);
    SearchIsLookup(slots, key);
    SearchIsLookup(slots, other.key);
    ViewHolds(slots);
    var i, j := ProbeFrom(slots, key, 0), ProbeFrom(slots, other.key, 0);
    assert slots[ProbeAt(home, i.value, n)] == null && slots[ProbeAt(home, j.value, n)] == null;
    assert Stops(slots, ProbeAt(home, j.value, n), key) && Stops(slots, ProbeAt(home, i.value, n), other.key);
    assert i.value == j.value;
    InsertIsUpdate(slots, other);
  }

  // Such keys: the hash passes over all that are no digits, so "1" and "1a" share every slot.
  lemma SameHash(size: nat)
    requires size > 0
    ensures Home("1", size) == Home("1a", size)
  {
    assert HashFrom("1", 1, 1, 63689 * 378551 % Words.TWO_64) == 1;
    assert HashFrom("1a", 2, 1, 63689 * 378551 % Words.TWO_64 * 378551 % Words.TWO_64) == 1;
    assert HashFrom("1a", 1, 1, 63689 * 378551 % Words.TWO_64) == 1;
  }

  // So it happens to the table with which the program starts.
  lemma LaterReadCanBeWrong(keysize: nat, other: Record) returns (steps: seq<Step>)
    requires keysize > 2 && other.key == "1a"
    ensures var tables := [Shared(Blank(HASHTABLES_STARTSIZE), keysize)];
            Exec(Start(tables), steps).Some?
            && var s := Exec(Start(tables), steps).value;
               && |s.calls| == 2 && s.calls[0].req == SearchReq(0, "1") && s.calls[0].phase.Returned?
               && s.calls[0].phase.reply.Index? && s.calls[0].phase.reply.ind.Some? && |s.tables| == 1
               && var now, ind := s.tables[0].table.slots, s.calls[0].phase.reply.ind.value;
                  ind < |now| && now[ind] == other && Lookup(now, "1") == null
  {
    var tables := [Shared(Blank(HASHTABLES_STARTSIZE), keysize)];
    BlankIsEmpty(HASHTABLES_STARTSIZE);
    SameHash(HASHTABLES_STARTSIZE);
    hide Home, Exec;
    steps := AnotherKeyTakesTheSlot(tables, 0, "1", other, other);
  }
}
