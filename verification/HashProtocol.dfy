// The request/response protocol around the hash tables while `Historical_done` is 0
// (utils/jl777hash.h:319-413): each caller allocates a packet, puts it in one of two
// queues and waits for its `doneflag`; one server thread owns the tables.
//
// Every call is its own thread, so any interleaving of any number of clients is a run.
// A queue is a bag: packets leave it in any order and may be lost, which is all the ring
// of utils/jl777hash.h:33-80 guarantees (see RingSpec.BagOfEnqueue).

module HashProtocol {
  import opened HashSpec
  import opened Wrappers

  type Addr = nat

  datatype Request = AddReq(table: nat, key: string) | SearchReq(table: nat, key: string)

  datatype Reply = Ptr(created: bool, ptr: Record?) | Index(ind: Option<nat>)

  // A table and the key size it was created with.
  datatype Shared = Shared(table: Table, keysize: nat)

  datatype Packet = Packet(call: nat, req: Request, doneflag: bool, reply: Option<Reply>)

  datatype Phase =
    | Allocated          // packet filled in, waiting for `hashprocessing == 0`
    | SawClear           // read it as 0, has not yet set it
    | Claimed            // set it to 1, has not yet queued the packet
    | Waiting            // queued the packet, polls `doneflag`
    | SawDone            // read `doneflag` as 1
    | HasReply(reply: Reply)   // copied the reply, has not yet freed the packet
    | Freed(reply: Reply)      // freed it, has not yet cleared `hashprocessing`
    | Returned(reply: Reply)

  // `enqueued`, `returned`: when; `took`: the position of the call in the server's log.
  datatype Call = Call(req: Request, addr: Addr, phase: Phase,
                       enqueued: Option<nat>, took: Option<nat>, returned: Option<nat>)

  datatype Server = Idle | Fetched(a: Addr) | Executed(a: Addr)

  // One operation carried out by the server. `alloc` is the record it would allocate.
  datatype Entry = Entry(call: nat, req: Request, alloc: Record, time: nat)

  datatype State = State(
    calls: seq<Call>, heap: map<Addr, Packet>, hashprocessing: bool,
    searchQueue: multiset<Addr>, addQueue: multiset<Addr>, server: Server,
    tables: seq<Shared>, dequeued: seq<nat>, log: seq<Entry>, clock: nat)

  // ----------------------------------------------------- sequential semantics

  predicate Names(req: Request, tables: seq<Shared>) {
    req.table < |tables| && |tables[req.table].table.slots| > 0
  }

  // What the server does with one packet when nothing else runs (lines 397-400).
  function Perform(tables: seq<Shared>, req: Request, alloc: Record): (r: (seq<Shared>, Reply))
    ensures |r.0| == |tables|
    ensures forall t :: 0 <= t < |tables| ==>
              r.0[t].keysize == tables[t].keysize && (|r.0[t].table.slots| > 0 <==> |tables[t].table.slots| > 0)
  {
    if !Names(req, tables) then (tables, Index(None))
    else
      var hp := tables[req.table];
      match req
      case AddReq(t, key) =>
        var a := Add(hp.table, EffectiveKey(key, hp.keysize), alloc);
        (tables[t := Shared(a.table, hp.keysize)], Ptr(a.created, a.ptr))
      case SearchReq(_, key) => (tables, Index(Search(hp.table.slots, key)))
  }

  function Sequential(tables: seq<Shared>, log: seq<Entry>): (r: (seq<Shared>, seq<Reply>))
    ensures |r.1| == |log|
  {
    if log == [] then (tables, [])
    else
      var n := |log| - 1;
      var (before, replies) := Sequential(tables, log[..n]);
      var (after, reply) := Perform(before, log[n].req, log[n].alloc);
      (after, replies + [reply])
  }

  ghost predicate AllValid(tables: seq<Shared>) {
    forall t :: 0 <= t < |tables| ==> Valid(tables[t].table)
  }

  // The allocation carries the key the table will store.
  predicate Fits(tables: seq<Shared>, req: Request, alloc: Record) {
    Names(req, tables) && (req.AddReq? ==> alloc.key == EffectiveKey(req.key, tables[req.table].keysize))
  }

  // On valid tables a packet's answer is the map's answer. A key of no or too great length is added
  // as "123456", and any other as it is.
  lemma PerformIsLookup(tables: seq<Shared>, req: Request, alloc: Record)
    requires AllValid(tables) && Fits(tables, req, alloc)
    ensures var (after, reply) := Perform(tables, req, alloc);
            var m, m' := View(tables[req.table].table.slots), View(after[req.table].table.slots);
            && AllValid(after)
            && (forall t :: 0 <= t < |tables| ==> after[t].keysize == tables[t].keysize && (t != req.table ==> after[t] == tables[t]))
            && match req
               case AddReq(_, key) =>
                 var k := if 0 < |key| < tables[req.table].keysize then key else "123456";
                 && alloc.key == k && m' == (if k in m then m else m[k := alloc])
                 && reply == Ptr(k !in m, m'[k]) && m'[k].key == k
               case SearchReq(_, key) =>
                 && after == tables && reply.Index? && reply.ind.Some? && reply.ind.value < |tables[req.table].table.slots|
                 && tables[req.table].table.slots[reply.ind.value] == if key in m then m[key] else null
  {
    var t := tables[req.table].table;
    match req
    case AddReq(_, _) =>
      AddIsFirstWins(t, alloc.key, alloc);
      ViewHolds(Add(t, alloc.key, alloc).table.slots);
    case SearchReq(_, key) =>
      SearchIsLookup(t.slots, key);
      SpareSlot(t);
  }

  // An addition and a later search of the same key meet: the slot holds the record that was added
  // or found, whose key it is.
  lemma AddedIsFound(tables: seq<Shared>, t: nat, key: string, alloc: Record, other: Record)
    requires t < |tables| && AllValid(tables) && 0 < |key| < tables[t].keysize && alloc.key == key
    ensures var (mid, added) := Perform(tables, AddReq(t, key), alloc);
            var (after, found) := Perform(mid, SearchReq(t, key), other);
            && |mid| == |tables| && after == mid && added.Ptr? && added.ptr != null && added.ptr.key == key
            && found.Index? && found.ind.Some? && found.ind.value < |mid[t].table.slots|
            && mid[t].table.slots[found.ind.value] == added.ptr
  {
    var mid := Perform(tables, AddReq(t, key), alloc).0;
    PerformIsLookup(tables, AddReq(t, key), alloc);
    PerformIsLookup(mid, SearchReq(t, key), other);
  }

  predicate SameShape(a: seq<Shared>, b: seq<Shared>) {
    |a| == |b| && forall t :: 0 <= t < |a| ==>
                    a[t].keysize == b[t].keysize && (|a[t].table.slots| > 0 <==> |b[t].table.slots| > 0)
  }

  // A record for an addition, a slot for a search.
  predicate Served(req: Request, reply: Reply) {
    if req.AddReq? then reply.Ptr? && reply.ptr != null else reply.Index? && reply.ind.Some?
  }

  // So no caller ever gets a null pointer or HASHSEARCH_ERROR.
  lemma {:induction false} SequentialServes(start: seq<Shared>, log: seq<Entry>)
    requires AllValid(start) && forall k :: 0 <= k < |log| ==> Fits(start, log[k].req, log[k].alloc)
    ensures AllValid(Sequential(start, log).0) && SameShape(Sequential(start, log).0, start)
    ensures forall k :: 0 <= k < |log| ==> Served(log[k].req, Sequential(start, log).1[k])
  {
    if log != [] {
      var n := |log| - 1;
      SequentialServes(start, log[..n]);
      var before := Sequential(start, log[..n]).0;
      assert Fits(before, log[n].req, log[n].alloc);
      hide AllValid, Perform;
      PerformServes(before, log[n].req, log[n].alloc);
    }
  }

  lemma PerformServes(tables: seq<Shared>, req: Request, alloc: Record)
    requires AllValid(tables) && Fits(tables, req, alloc)
    ensures var (after, reply) := Perform(tables, req, alloc);
            AllValid(after) && SameShape(after, tables) && Served(req, reply)
  {
    PerformIsLookup(tables, req, alloc);
  }

  // -------------------------------------------------------------------- steps

  datatype Step =
    | Invoke(req: Request, addr: Addr)
    | ReadFlag(c: nat) | SetFlag(c: nat) | Enqueue(c: nat)
    | ReadDone(c: nat) | ReadReply(c: nat) | Free(c: nat) | Return(c: nat)
    | Lose(a: Addr) | Fetch(a: Addr) | Execute(alloc: Record) | Finish

  function In(s: State, c: nat, phase: Phase): bool {
    c < |s.calls| && s.calls[c].phase == phase
  }

  function To(s: State, c: nat, phase: Phase): State
    requires c < |s.calls|
  {
    s.(calls := s.calls[c := s.calls[c].(phase := phase)])
  }

  predicate Enabled(s: State, step: Step) {
    match step
    case Invoke(req, addr) => addr !in s.heap && Names(req, s.tables)
    case ReadFlag(c) => In(s, c, Allocated) && !s.hashprocessing
    case SetFlag(c) => In(s, c, SawClear)
    case Enqueue(c) => In(s, c, Claimed)
    case ReadDone(c) => In(s, c, Waiting) && s.calls[c].addr in s.heap && s.heap[s.calls[c].addr].doneflag
    case ReadReply(c) => In(s, c, SawDone) && s.calls[c].addr in s.heap && s.heap[s.calls[c].addr].reply.Some?
    case Free(c) => c < |s.calls| && s.calls[c].phase.HasReply? && s.calls[c].addr in s.heap
    case Return(c) => c < |s.calls| && s.calls[c].phase.Freed?
    case Lose(a) => Queued(s, a) > 0
    case Fetch(a) => s.server.Idle? && Queued(s, a) > 0 && a in s.heap
    case Execute(alloc) => s.server.Fetched? && s.server.a in s.heap && Fits(s.tables, s.heap[s.server.a].req, alloc)
    case Finish => s.server.Executed? && s.server.a in s.heap
  }

  // Takes one copy of a packet out of the queue that holds it.
  function Unqueue(s: State, a: Addr): State {
    if a in s.addQueue then s.(addQueue := s.addQueue - multiset{a})
    else s.(searchQueue := s.searchQueue - multiset{a})
  }

  function Effect(s: State, step: Step): State
    requires Enabled(s, step)
  {
    match step
    case Invoke(req, addr) =>
      s.(calls := s.calls + [Call(req, addr, Allocated, None, None, None)],
         heap := s.heap[addr := Packet(|s.calls|, req, false, None)])
    case ReadFlag(c) => To(s, c, SawClear)
    case SetFlag(c) => To(s, c, Claimed).(hashprocessing := true)
    case Enqueue(c) =>
      var a := s.calls[c].addr;
      var t := s.(calls := s.calls[c := s.calls[c].(phase := Waiting, enqueued := Some(s.clock))]);
      if s.calls[c].req.AddReq? then t.(addQueue := s.addQueue + multiset{a})
      else t.(searchQueue := s.searchQueue + multiset{a})
    case ReadDone(c) => To(s, c, SawDone)
    case ReadReply(c) => To(s, c, HasReply(s.heap[s.calls[c].addr].reply.value))
    case Free(c) => To(s, c, Freed(s.calls[c].phase.reply)).(heap := s.heap - {s.calls[c].addr})
    case Return(c) =>
      s.(calls := s.calls[c := s.calls[c].(phase := Returned(s.calls[c].phase.reply), returned := Some(s.clock))],
         hashprocessing := false)
    case Lose(a) => Unqueue(s, a)
    case Fetch(a) => Unqueue(s, a).(server := Fetched(a), dequeued := s.dequeued + [s.heap[a].call])
    case Execute(alloc) =>
      var a := s.server.a;
      var p := s.heap[a];
      var (tables, reply) := Perform(s.tables, p.req, alloc);
      s.(tables := tables, heap := s.heap[a := p.(reply := Some(reply))], server := Executed(a),
         calls := if p.call < |s.calls| then s.calls[p.call := s.calls[p.call].(took := Some(|s.log|))] else s.calls,
         log := s.log + [Entry(p.call, p.req, alloc, s.clock)])
    case Finish => s.(heap := s.heap[s.server.a := s.heap[s.server.a].(doneflag := true)], server := Idle)
  }

  function Next(s: State, step: Step): State
    requires Enabled(s, step)
  {
    Effect(s, step).(clock := s.clock + 1)
  }

  function Start(tables: seq<Shared>): State {
    State([], map[], false, multiset{}, multiset{}, Idle, tables, [], [], 0)
  }

  // The state after a run, or `None` if some step of it was not enabled.
  function Exec(s: State, steps: seq<Step>): (r: Option<State>)
    decreases |steps|
  {
    if steps == [] then Some(s)
    else
      var n := |steps| - 1;
      match Exec(s, steps[..n])
      case None => None
      case Some(t) => if Enabled(t, steps[n]) then Some(Next(t, steps[n])) else None
  }

  // ---------------------------------------------------------------- invariant

  predicate OwnsPacket(phase: Phase) {
    phase.Allocated? || phase.SawClear? || phase.Claimed? || phase.Waiting? || phase.SawDone? || phase.HasReply?
  }

  // The packet of a call that still has one, and who may touch it.
  ghost predicate PacketOk(s: State, a: Addr)
    requires a in s.heap
  {
    var p := s.heap[a];
    && p.call < |s.calls|
    && var c := s.calls[p.call];
    && c.addr == a && c.req == p.req && OwnsPacket(c.phase)
    && (p.doneflag || s.server == Executed(a) <==> c.took.Some?)
    && (p.reply.Some? <==> c.took.Some?)
    && (p.doneflag ==> c.phase.Waiting? || c.phase.SawDone? || c.phase.HasReply?)
    && (Queued(s, a) > 0 || Holds(s.server, a) ==> c.phase.Waiting? && !p.doneflag)
    && (Queued(s, a) > 0 ==> !Holds(s.server, a) && c.took.None?)
    && Queued(s, a) <= 1
  }

  // How many copies of a packet the two queues hold.
  function Queued(s: State, a: Addr): nat {
    s.searchQueue[a] + s.addQueue[a]
  }

  predicate Holds(server: Server, a: Addr) {
    !server.Idle? && server.a == a
  }

  ghost predicate CallOk(s: State, i: nat, replies: seq<Reply>)
    requires i < |s.calls| && |replies| == |s.log|
  {
    var c := s.calls[i];
    && (OwnsPacket(c.phase) ==> c.addr in s.heap && s.heap[c.addr].call == i)
    && (c.enqueued.Some? <==> !(c.phase.Allocated? || c.phase.SawClear? || c.phase.Claimed?))
    && (c.enqueued.Some? ==> c.enqueued.value < s.clock)
    && (c.phase.SawDone? ==> s.heap[c.addr].doneflag)
    && (c.phase.HasReply? || c.phase.Freed? || c.phase.Returned? ==> c.took.Some?)
    && (c.took.Some? ==>
          && c.took.value < |s.log|
          && s.log[c.took.value].call == i && s.log[c.took.value].req == c.req
          && c.enqueued.Some? && c.enqueued.value < s.log[c.took.value].time
          && (OwnsPacket(c.phase) ==> s.heap[c.addr].reply == Some(replies[c.took.value]))
          && (c.phase.HasReply? || c.phase.Freed? || c.phase.Returned? ==> c.phase.reply == replies[c.took.value]))
    && (c.returned.Some? <==> c.phase.Returned?)
    && (c.returned.Some? ==> s.log[c.took.value].time < c.returned.value)
  }

  ghost predicate LogOk(s: State) {
    && (forall k :: 0 <= k < |s.log| ==> s.log[k].time < s.clock)
    && (forall j, k :: 0 <= j < k < |s.log| ==> s.log[j].time < s.log[k].time)
    && (forall k :: 0 <= k < |s.log| ==> s.log[k].call < |s.calls| && s.calls[s.log[k].call].took == Some(k))
  }

  // The server's log is the dequeue order, up to the packet it has just fetched.
  ghost predicate OrderOk(s: State) {
    && |s.dequeued| == |s.log| + (if s.server.Fetched? then 1 else 0)
    && (forall k :: 0 <= k < |s.log| ==> s.dequeued[k] == s.log[k].call)
    && (s.server.Fetched? ==> s.server.a in s.heap && s.dequeued[|s.log|] == s.heap[s.server.a].call)
    && (s.server.Executed? ==> s.server.a in s.heap)
    && (forall a: Addr :: Queued(s, a) > 0 ==> a in s.heap)
  }

  ghost predicate Inv(s: State, start: seq<Shared>) {
    var (tables, replies) := Sequential(start, s.log);
    && s.tables == tables
    && (forall a :: a in s.heap ==> PacketOk(s, a))
    && (forall i: nat :: i < |s.calls| ==> CallOk(s, i, replies))
    && LogOk(s)
    && OrderOk(s)
  }

  lemma InvStart(tables: seq<Shared>)
    ensures Inv(Start(tables), tables)
  {
  }

  // Same packet, owner, queue counts and server: same standing.
  ghost predicate SamePacket(s: State, t: State, a: Addr)
    requires a in s.heap
  {
    && a in t.heap && t.heap[a] == s.heap[a] && Queued(t, a) == Queued(s, a)
    && Holds(t.server, a) == Holds(s.server, a) && (t.server == Executed(a) <==> s.server == Executed(a))
    && s.heap[a].call < |s.calls| && s.heap[a].call < |t.calls| && t.calls[s.heap[a].call] == s.calls[s.heap[a].call]
  }

  lemma PacketFrame(s: State, t: State, a: Addr)
    requires a in s.heap && PacketOk(s, a) && SamePacket(s, t, a)
    ensures PacketOk(t, a)
  {
  }

  lemma CallFrame(s: State, t: State, j: nat, replies: seq<Reply>, replies': seq<Reply>)
    requires j < |s.calls| && j < |t.calls| && t.calls[j] == s.calls[j] && s.clock <= t.clock
    requires |replies| == |s.log| && |replies'| == |t.log| && s.log <= t.log && replies <= replies'
    requires CallOk(s, j, replies)
    requires OwnsPacket(s.calls[j].phase) ==> s.calls[j].addr in t.heap && t.heap[s.calls[j].addr] == s.heap[s.calls[j].addr]
    ensures CallOk(t, j, replies')
  {
  }

  // A step that touches only call `c` and packet `a` keeps the invariant if it leaves those
  // two in order.
  lemma Framed(s: State, t: State, start: seq<Shared>, c: nat, a: Addr)
    requires Inv(s, start) && t.clock == s.clock + 1
    requires s.log <= t.log && t.tables == Sequential(start, t.log).0
    requires Sequential(start, s.log).1 <= Sequential(start, t.log).1
    requires |s.calls| <= |t.calls| <= if c == |s.calls| then c + 1 else |s.calls|
    requires forall j: nat :: j < |s.calls| && j != c ==> t.calls[j] == s.calls[j]
    requires forall b: Addr :: b != a ==>
               (b in s.heap <==> b in t.heap) && Queued(t, b) == Queued(s, b)
               && Holds(t.server, b) == Holds(s.server, b) && (t.server == Executed(b) <==> s.server == Executed(b))
    requires forall b :: b in s.heap && b != a ==> t.heap[b] == s.heap[b] && s.heap[b].call != c
    requires a in s.heap ==> s.heap[a].call == c || SamePacket(s, t, a)
    requires c < |t.calls| ==> CallOk(t, c, Sequential(start, t.log).1)
    requires a in t.heap ==> PacketOk(t, a)
    requires LogOk(t) && OrderOk(t)
    ensures Inv(t, start)
  {
    var replies, replies' := Sequential(start, s.log).1, Sequential(start, t.log).1;
    hide Sequential, LogOk, OrderOk;
    forall j: nat | j < |t.calls| ensures CallOk(t, j, replies') {
      if j != c {
        assert j < |s.calls| && t.calls[j] == s.calls[j];
        assert CallOk(s, j, replies);
        if OwnsPacket(s.calls[j].phase) && s.calls[j].addr == a { assert SamePacket(s, t, a); }
        CallFrame(s, t, j, replies, replies');
      }
    }
    forall b | b in t.heap ensures PacketOk(t, b) {
      if b != a {
        assert PacketOk(s, b);
        PacketFrame(s, t, b);
      }
    }
  }

  // The same for a step that leaves the server and its log alone.
  lemma FramedQuiet(s: State, t: State, start: seq<Shared>, c: nat, a: Addr)
    requires Inv(s, start) && t.clock == s.clock + 1 && c < |s.calls|
    requires t.log == s.log && t.tables == s.tables && t.server == s.server && t.dequeued == s.dequeued
    requires |t.calls| == |s.calls| && t.calls == s.calls[c := t.calls[c]] && t.calls[c].took == s.calls[c].took
    requires forall b: Addr :: b != a ==> (b in s.heap <==> b in t.heap) && Queued(t, b) == Queued(s, b)
    requires forall b :: b in s.heap && b != a ==> t.heap[b] == s.heap[b] && s.heap[b].call != c
    requires a in s.heap ==> s.heap[a].call == c || SamePacket(s, t, a)
    requires CallOk(t, c, Sequential(start, t.log).1)
    requires a in t.heap ==> PacketOk(t, a)
    requires Queued(t, a) > 0 || Holds(s.server, a) ==> a in t.heap && a in s.heap && t.heap[a].call == s.heap[a].call
    ensures Inv(t, start)
  {
    hide Sequential, CallOk, PacketOk;
    Framed(s, t, start, c, a);
  }

  // A packet belongs to the call whose address it is.
  lemma OneOwner(s: State, start: seq<Shared>, c: nat)
    requires Inv(s, start) && c < |s.calls|
    ensures forall b :: b in s.heap && b != s.calls[c].addr ==> s.heap[b].call != c
    ensures CallOk(s, c, Sequential(start, s.log).1)
    ensures s.calls[c].addr in s.heap ==> PacketOk(s, s.calls[c].addr)
  {
    hide Sequential, LogOk, OrderOk, CallOk;
    forall b | b in s.heap && b != s.calls[c].addr ensures s.heap[b].call != c { assert PacketOk(s, b); }
  }

  lemma Owned(s: State, start: seq<Shared>, a: Addr) returns (c: nat)
    requires Inv(s, start) && a in s.heap
    ensures c < |s.calls| && c == s.heap[a].call && s.calls[c].addr == a
    ensures PacketOk(s, a) && CallOk(s, c, Sequential(start, s.log).1)
    ensures forall b :: b in s.heap && b != a ==> s.heap[b].call != c
  {
    hide Sequential, LogOk, OrderOk, CallOk;
    assert PacketOk(s, a);
    c := s.heap[a].call;
    OneOwner(s, start, c);
  }

  lemma OrderHolds(s: State, start: seq<Shared>)
    requires Inv(s, start)
    ensures LogOk(s) && OrderOk(s) && s.tables == Sequential(start, s.log).0
  {
  }

  // The server's step: the log, the tables and the reply advance together.
  lemma ExecuteKeeps(s: State, alloc: Record, start: seq<Shared>)
    requires Inv(s, start) && Enabled(s, Execute(alloc))
    ensures Inv(Next(s, Execute(alloc)), start)
  {
    hide Inv, Sequential;
    var t, a := Next(s, Execute(alloc)), s.server.a;
    var c := Owned(s, start, a);
    OrderHolds(s, start);
    var e := Entry(c, s.heap[a].req, alloc, s.clock);
    SequentialSnoc(start, s.log, e);
    hide Perform;
    assert t.log == s.log + [e];
    SameQueues(s, t);
    hide Queued;
    assert LogOk(t) && OrderOk(t);
    hide LogOk, OrderOk;
    Framed(s, t, start, c, a);
  }

  lemma SequentialSnoc(start: seq<Shared>, log: seq<Entry>, e: Entry)
    ensures var (tables, replies) := Sequential(start, log);
            var (tables', reply) := Perform(tables, e.req, e.alloc);
            Sequential(start, log + [e]) == (tables', replies + [reply])
  {
    assert (log + [e])[..|log|] == log;
  }

  lemma FinishKeeps(s: State, step: Step, start: seq<Shared>)
    requires Inv(s, start) && Enabled(s, step) && step.Finish?
    ensures Inv(Next(s, step), start)
  {
    hide Inv, Sequential, Queued;
    var t, a := Next(s, step), s.server.a;
    var c := Owned(s, start, a);
    OrderHolds(s, start);
    SameQueues(s, t);
    Framed(s, t, start, c, a);
  }

  lemma UnqueueCounts(s: State, a: Addr)
    requires Queued(s, a) > 0
    ensures Unqueue(s, a) == s.(searchQueue := Unqueue(s, a).searchQueue, addQueue := Unqueue(s, a).addQueue)
    ensures forall b: Addr :: Queued(Unqueue(s, a), b) == Queued(s, b) - if b == a then 1 else 0
  {
  }

  lemma LoseKeeps(s: State, a: Addr, start: seq<Shared>)
    requires Inv(s, start) && Enabled(s, Lose(a))
    ensures Inv(Next(s, Lose(a)), start)
  {
    hide Inv, Sequential;
    ServerOwns(s, start);
    var c := Owned(s, start, a);
    UnqueueCounts(s, a);
    var u, t := Unqueue(s, a), Next(s, Lose(a));
    assert t == u.(clock := s.clock + 1);
    SameQueues(u, t);
    hide Unqueue, Queued;
    FramedQuiet(s, t, start, c, a);
  }

  lemma FetchKeeps(s: State, a: Addr, start: seq<Shared>)
    requires Inv(s, start) && Enabled(s, Fetch(a))
    ensures Inv(Next(s, Fetch(a)), start)
  {
    hide Inv, Sequential;
    var c := Owned(s, start, a);
    OrderHolds(s, start);
    UnqueueCounts(s, a);
    var u, t := Unqueue(s, a), Next(s, Fetch(a));
    assert t == u.(clock := s.clock + 1, server := Fetched(a), dequeued := s.dequeued + [s.heap[a].call]);
    SameQueues(u, t);
    hide Unqueue, Queued;
    Framed(s, t, start, c, a);
  }

  lemma InvokeKeeps(s: State, step: Step, start: seq<Shared>)
    requires Inv(s, start) && Enabled(s, step) && step.Invoke?
    ensures Inv(Next(s, step), start)
  {
    hide Sequential;
    assert forall b :: b in s.heap ==> PacketOk(s, b);
    Framed(s, Next(s, step), start, |s.calls|, step.addr);
  }

  lemma EnqueueKeeps(s: State, step: Step, start: seq<Shared>)
    requires Inv(s, start) && Enabled(s, step) && step.Enqueue?
    ensures Inv(Next(s, step), start)
  {
    hide Sequential, LogOk;
    OneOwner(s, start, step.c);
    var t, a := Next(s, step), s.calls[step.c].addr;
    assert forall b: Addr :: Queued(t, b) == Queued(s, b) + if b == a then 1 else 0;
    hide Queued;
    FramedQuiet(s, t, start, step.c, a);
  }

  lemma PhaseKeeps(s: State, step: Step, start: seq<Shared>)
    requires Inv(s, start) && Enabled(s, step)
    requires step.ReadFlag? || step.SetFlag? || step.ReadDone? || step.ReadReply?
    ensures Inv(Next(s, step), start)
  {
    hide Sequential, Queued, LogOk, OrderOk;
    OneOwner(s, start, step.c);
    var t := Next(s, step);
    SameQueues(s, t);
    ServerOwns(s, start);
    FramedQuiet(s, t, start, step.c, s.calls[step.c].addr);
  }

  lemma ServerOwns(s: State, start: seq<Shared>)
    requires Inv(s, start)
    ensures !s.server.Idle? ==> s.server.a in s.heap
    ensures forall a: Addr :: Queued(s, a) > 0 ==> a in s.heap
  {
  }

  lemma SameQueues(s: State, t: State)
    requires t.searchQueue == s.searchQueue && t.addQueue == s.addQueue
    ensures forall b: Addr :: Queued(t, b) == Queued(s, b)
  {
  }

  lemma FreeKeeps(s: State, step: Step, start: seq<Shared>)
    requires Inv(s, start) && Enabled(s, step) && step.Free?
    ensures Inv(Next(s, step), start)
  {
    hide Sequential, Queued, LogOk, OrderOk;
    OneOwner(s, start, step.c);
    var t := Next(s, step);
    SameQueues(s, t);
    ServerOwns(s, start);
    FramedQuiet(s, t, start, step.c, s.calls[step.c].addr);
  }

  lemma ReturnKeeps(s: State, step: Step, start: seq<Shared>)
    requires Inv(s, start) && Enabled(s, step) && step.Return?
    ensures Inv(Next(s, step), start)
  {
    hide Sequential, Queued, OrderOk;
    OneOwner(s, start, step.c);
    var t, a := Next(s, step), s.calls[step.c].addr;
    SameQueues(s, t);
    ServerOwns(s, start);
    if a in s.heap { PacketFrame(s, t, a); }
    FramedQuiet(s, t, start, step.c, a);
  }

  lemma NextKeeps(s: State, step: Step, start: seq<Shared>)
    requires Inv(s, start) && Enabled(s, step)
    ensures Inv(Next(s, step), start)
  {
    hide Inv, Next, Enabled;
    match step
    case Invoke(_, _) => InvokeKeeps(s, step, start);
    case Enqueue(_) => EnqueueKeeps(s, step, start);
    case Free(_) => FreeKeeps(s, step, start);
    case Return(_) => ReturnKeeps(s, step, start);
    case Lose(a) => LoseKeeps(s, a, start);
    case Fetch(a) => FetchKeeps(s, a, start);
    case Execute(alloc) => ExecuteKeeps(s, alloc, start);
    case Finish => FinishKeeps(s, step, start);
    case _ => PhaseKeeps(s, step, start);
  }

  lemma {:induction false} ReachableInv(tables: seq<Shared>, steps: seq<Step>)
    ensures Exec(Start(tables), steps).Some? ==> Inv(Exec(Start(tables), steps).value, tables)
    decreases |steps|
  {
    hide Inv;
    if steps == [] {
      InvStart(tables);
    } else {
      var n := |steps| - 1;
      ReachableInv(tables, steps[..n]);
      var before := Exec(Start(tables), steps[..n]);
      if before.Some? && Enabled(before.value, steps[n]) { NextKeeps(before.value, steps[n], tables); }
    }
  }

  // In every run each call that has returned took effect at one position of the server's
  // log, between its own enqueue and its return, and returned what a sequential run of
  // that log gives there.
  lemma Linearizable(tables: seq<Shared>, steps: seq<Step>, i: nat)
    requires Exec(Start(tables), steps).Some?
    ensures var s := Exec(Start(tables), steps).value;
            i < |s.calls| && s.calls[i].phase.Returned? ==>
              var c := s.calls[i];
              && c.took.Some? && c.took.value < |s.log| && c.enqueued.Some? && c.returned.Some?
              && s.log[c.took.value].call == i && s.log[c.took.value].req == c.req
              && c.enqueued.value < s.log[c.took.value].time < c.returned.value
              && c.phase.reply == Sequential(tables, s.log).1[c.took.value]
  {
    hide Sequential;
    ReachableInv(tables, steps);
    var s := Exec(Start(tables), steps).value;
    hide Exec;
    if i < |s.calls| { OneOwner(s, tables, i); }
  }

  // A call that returned before another was enqueued comes before it in that order, and the
  // order is the one in which packets left the queues; each call occurs at most once.
  lemma OrderIsRealTime(tables: seq<Shared>, steps: seq<Step>)
    requires Exec(Start(tables), steps).Some?
    ensures var s := Exec(Start(tables), steps).value;
            && s.tables == Sequential(tables, s.log).0
            && |s.log| <= |s.dequeued| && (forall k :: 0 <= k < |s.log| ==> s.dequeued[k] == s.log[k].call)
            && (forall j, k :: 0 <= j < k < |s.log| ==> s.log[j].call != s.log[k].call)
            && (forall i: nat, j: nat :: i < |s.calls| && j < |s.calls| && Precedes(s.calls[i], s.calls[j]) ==>
                    s.calls[i].took.Some? && s.calls[i].took.value < s.calls[j].took.value)
  {
    hide Sequential;
    ReachableInv(tables, steps);
    var s := Exec(Start(tables), steps).value;
    hide Exec;
    forall i: nat, j: nat | i < |s.calls| && j < |s.calls| && Precedes(s.calls[i], s.calls[j])
      ensures s.calls[i].took.Some? && s.calls[i].took.value < s.calls[j].took.value
    {
      OneOwner(s, tables, i);
      OneOwner(s, tables, j);
    }
  }

  // The first call returned before the second was enqueued, and the second has taken effect.
  predicate Precedes(c: Call, d: Call) {
    c.returned.Some? && d.took.Some? && d.enqueued.Some? && c.returned.value < d.enqueued.value
  }

  // The server never touches a freed packet, and never finds one it has already answered.
  lemma NoStalePacket(tables: seq<Shared>, steps: seq<Step>)
    requires Exec(Start(tables), steps).Some?
    ensures var s := Exec(Start(tables), steps).value;
            && (!s.server.Idle? ==> s.server.a in s.heap)
            && (forall a: Addr :: Queued(s, a) > 0 ==> a in s.heap && !s.heap[a].doneflag && Queued(s, a) == 1)
  {
    hide Sequential;
    ReachableInv(tables, steps);
    var s := Exec(Start(tables), steps).value;
    hide Exec;
    forall a: Addr | Queued(s, a) > 0 ensures a in s.heap && !s.heap[a].doneflag && Queued(s, a) == 1 {
      assert PacketOk(s, a);
    }
  }

  lemma ExecThen(s: State, steps: seq<Step>, step: Step) returns (t: State)
    requires Exec(s, steps).Some? && Enabled(Exec(s, steps).value, step)
    ensures Exec(s, steps + [step]) == Some(t) && t == Next(Exec(s, steps).value, step)
  {
    assert (steps + [step])[..|steps|] == steps;
    t := Next(Exec(s, steps).value, step);
  }

  // ------------------------------------------------------------- `hashprocessing`

  // Between setting the flag and clearing it.
  predicate Holding(phase: Phase) {
    phase.Claimed? || phase.Waiting? || phase.SawDone? || phase.HasReply? || phase.Freed?
  }

  ghost predicate OneHolder(s: State) {
    forall c, d :: 0 <= c < d < |s.calls| ==> !(Holding(s.calls[c].phase) && Holding(s.calls[d].phase))
  }

  // What an exclusive flag would say.
  ghost predicate FlagTells(s: State) {
    OneHolder(s) && (s.hashprocessing <==> exists c :: 0 <= c < |s.calls| && Holding(s.calls[c].phase))
  }

  // At no moment of the run do two calls hold the flag.
  ghost predicate Exclusive(s: State, steps: seq<Step>)
    requires Exec(s, steps).Some?
    decreases |steps|
  {
    OneHolder(Exec(s, steps).value) && (steps != [] ==> Exclusive(s, steps[..|steps| - 1]))
  }

  // Every call that sets the flag finds it still clear, as a caller could have tested.
  ghost predicate SetsWhenClear(s: State, steps: seq<Step>)
    requires Exec(s, steps).Some?
    decreases |steps|
  {
    steps == []
    || (var n := |steps| - 1;
        SetsWhenClear(s, steps[..n]) && (steps[n].SetFlag? ==> !Exec(s, steps[..n]).value.hashprocessing))
  }

  // `hashprocessing` excludes other callers in exactly the runs in which every call that sets it
  // finds it still clear.
  lemma {:induction false} FlagExcludesExactly(tables: seq<Shared>, steps: seq<Step>)
    requires Exec(Start(tables), steps).Some?
    ensures Exclusive(Start(tables), steps) <==> SetsWhenClear(Start(tables), steps)
    ensures Exclusive(Start(tables), steps) ==> FlagTells(Exec(Start(tables), steps).value)
    decreases |steps|
  {
    hide Next, Enabled, OneHolder, FlagTells;
    if steps == [] {
      NobodyHolds(tables);
    } else {
      var n := |steps| - 1;
      FlagExcludesExactly(tables, steps[..n]);
      if Exclusive(Start(tables), steps[..n]) {
        StepExcludes(Exec(Start(tables), steps[..n]).value, steps[n]);
      }
    }
  }

  lemma NobodyHolds(tables: seq<Shared>)
    ensures OneHolder(Start(tables)) && FlagTells(Start(tables))
  {
  }

  lemma StepExcludes(s: State, step: Step)
    requires Enabled(s, step) && FlagTells(s)
    ensures OneHolder(Next(s, step)) <==> (step.SetFlag? ==> !s.hashprocessing)
    ensures OneHolder(Next(s, step)) ==> FlagTells(Next(s, step))
  {
    match step {
      case SetFlag(c) =>
        hide *;
        SetExcludes(s, c);
      case Return(c) =>
        hide Perform, Fits, Unqueue;
        assert Holding(s.calls[c].phase);
      case Invoke(req, addr) =>
        hide Perform, Fits, Unqueue, FlagTells, OneHolder;
        OneMore(s, Next(s, step));
        TellsOne(Next(s, step));
      case Lose(a) =>
        hide *;
        ServerKeepsHolders(s, step);
      case Fetch(a) =>
        hide *;
        ServerKeepsHolders(s, step);
      case Execute(alloc) =>
        hide *;
        ServerKeepsHolders(s, step);
      case Finish =>
        hide *;
        ServerKeepsHolders(s, step);
      case ReadFlag(c) =>
        hide *;
        CallerKeepsHolders(s, step);
      case Enqueue(c) =>
        hide *;
        CallerKeepsHolders(s, step);
      case ReadDone(c) =>
        hide *;
        CallerKeepsHolders(s, step);
      case ReadReply(c) =>
        hide *;
        CallerKeepsHolders(s, step);
      case Free(c) =>
        hide *;
        CallerKeepsHolders(s, step);
    }
  }

  lemma TellsOne(s: State)
    requires FlagTells(s)
    ensures OneHolder(s)
  {
  }

  lemma ServerKeepsHolders(s: State, step: Step)
    requires Enabled(s, step) && FlagTells(s) && (step.Lose? || step.Fetch? || step.Execute? || step.Finish?)
    ensures FlagTells(Next(s, step)) && OneHolder(Next(s, step))
  {
    hide Perform, Fits, FlagTells, OneHolder;
    SameHolders(s, Next(s, step));
    TellsOne(Next(s, step));
  }

  lemma CallerKeepsHolders(s: State, step: Step)
    requires Enabled(s, step) && FlagTells(s)
    requires step.ReadFlag? || step.Enqueue? || step.ReadDone? || step.ReadReply? || step.Free?
    ensures FlagTells(Next(s, step)) && OneHolder(Next(s, step))
  {
    hide Perform, Fits, Unqueue, FlagTells, OneHolder;
    SameHolders(s, Next(s, step));
    TellsOne(Next(s, step));
  }

  lemma SetExcludes(s: State, c: nat)
    requires Enabled(s, SetFlag(c)) && FlagTells(s)
    ensures OneHolder(Next(s, SetFlag(c))) <==> !s.hashprocessing
    ensures OneHolder(Next(s, SetFlag(c))) ==> FlagTells(Next(s, SetFlag(c)))
  {
    var t := Next(s, SetFlag(c));
    assert Holding(t.calls[c].phase);
    if s.hashprocessing {
      var d :| 0 <= d < |s.calls| && Holding(s.calls[d].phase);
      assert d != c && Holding(t.calls[d].phase);
    }
  }

  lemma SameHolders(s: State, t: State)
    requires FlagTells(s) && |t.calls| == |s.calls| && t.hashprocessing == s.hashprocessing
    requires forall c :: 0 <= c < |s.calls| ==> Holding(t.calls[c].phase) == Holding(s.calls[c].phase)
    ensures FlagTells(t)
  {
  }

  lemma OneMore(s: State, t: State)
    requires FlagTells(s) && |t.calls| == |s.calls| + 1 && t.hashprocessing == s.hashprocessing
    requires s.calls <= t.calls && !Holding(t.calls[|s.calls|].phase)
    ensures FlagTells(t)
  {
    if s.hashprocessing {
      var c :| 0 <= c < |s.calls| && Holding(s.calls[c].phase);
      assert Holding(t.calls[c].phase);
    }
  }

  // It can fail to: two calls can both be waiting on queued packets.
  lemma FlagIsNoLock(tables: seq<Shared>, r0: Request, r1: Request) returns (steps: seq<Step>)
    requires Names(r0, tables) && Names(r1, tables)
    ensures Exec(Start(tables), steps).Some?
    ensures var s := Exec(Start(tables), steps).value;
            |s.calls| == 2 && s.calls[0].phase == Waiting && s.calls[1].phase == Waiting && !OneHolder(s)
  {
    var s0 := Start(tables);
    var t := ExecThen(s0, [], Invoke(r0, 0));
    hide Exec;
    t := ExecThen(s0, [Invoke(r0, 0)], Invoke(r1, 1));
    steps := [Invoke(r0, 0)] + [Invoke(r1, 1)];
    t := ExecThen(s0, steps, ReadFlag(0));
    steps := steps + [ReadFlag(0)];
    t := ExecThen(s0, steps, ReadFlag(1));
    steps := steps + [ReadFlag(1)];
    t := ExecThen(s0, steps, SetFlag(0));
    steps := steps + [SetFlag(0)];
    t := ExecThen(s0, steps, SetFlag(1));
    steps := steps + [SetFlag(1)];
    t := ExecThen(s0, steps, Enqueue(0));
    steps := steps + [Enqueue(0)];
    t := ExecThen(s0, steps, Enqueue(1));
    steps := steps + [Enqueue(1)];
    hide OneHolder;
    TwoWaiting(t);
  }

  lemma TwoWaiting(s: State)
    requires |s.calls| == 2 && s.calls[0].phase == Waiting && s.calls[1].phase == Waiting
    ensures !OneHolder(s)
  {
    assert Holding(s.calls[0].phase) && Holding(s.calls[1].phase);
  }

  lemma {:induction false} ReachableFits(tables: seq<Shared>, steps: seq<Step>)
    ensures Exec(Start(tables), steps).Some? ==>
              var s := Exec(Start(tables), steps).value;
              && SameShape(s.tables, tables)
              && (forall k :: 0 <= k < |s.log| ==> Fits(tables, s.log[k].req, s.log[k].alloc))
    decreases |steps|
  {
    if steps != [] {
      var n := |steps| - 1;
      ReachableFits(tables, steps[..n]);
      var before := Exec(Start(tables), steps[..n]);
      if before.Some? && Enabled(before.value, steps[n]) { FitsStep(before.value, steps[n], tables); }
    }
  }

  lemma FitsStep(s: State, step: Step, start: seq<Shared>)
    requires Enabled(s, step) && SameShape(s.tables, start)
    requires forall k :: 0 <= k < |s.log| ==> Fits(start, s.log[k].req, s.log[k].alloc)
    ensures var t := Next(s, step);
            SameShape(t.tables, start) && forall k :: 0 <= k < |t.log| ==> Fits(start, t.log[k].req, t.log[k].alloc)
  {
    hide Perform;
    var t := Next(s, step);
    if step.Execute? {
      assert t.tables == Perform(s.tables, s.heap[s.server.a].req, step.alloc).0;
    } else {
      assert t.log == s.log && t.tables == s.tables;
    }
  }

  // From valid tables, every completed addition returned a record and every completed
  // search a slot.
  lemma CallersAreServed(tables: seq<Shared>, steps: seq<Step>, i: nat)
    requires AllValid(tables) && Exec(Start(tables), steps).Some?
    ensures var s := Exec(Start(tables), steps).value;
            i < |s.calls| && s.calls[i].phase.Returned? ==>
              Served(s.calls[i].req, s.calls[i].phase.reply)
  {
    Linearizable(tables, steps, i);
    ReachableFits(tables, steps);
    hide Exec;
    SequentialServes(tables, Exec(Start(tables), steps).value.log);
  }
}
