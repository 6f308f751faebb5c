// The three gateways as a state machine. Each pays for the deposits of the accounts that are its
// own modulo 3, marks the coin transaction, and after a crash has only the NXT chain to rebuild
// its marks from (multigateway.h:61-171 and 547-564, NXTprotocol.c:534-622).

module GatewayProtocol {
  import opened Words
  import opened FundsSpec
  import opened DepositSpec
  import opened DepositRuns
  import opened Wrappers

  const COIN := 4    // the one coin that a DEBUG_MODE build looks at

  // The id of a transfer that was issued.
  type PaymentId = n: nat | 0 < n < TWO_64 witness 1

  // An asset transfer whose comment names an output of a coin transaction. Senders 0, 1 and 2 are the
  // gateways; anybody may send one, and its comment is believed (multigateway.h:537-550).
  datatype Payment = Payment(tx: Tx, vout: nat, account: U64, sender: nat, txid: PaymentId)

  // A gateway: what it knows, and how far the history thread has come. `stop` is the index of the
  // block at which that thread ends, which it does not process; `heard` holds the coin transactions
  // that were named in what either thread has processed since the start.
  datatype Local = Local(node: Node, replayed: nat, stop: nat, done: bool, heard: set<Tx>)

  // `pool` holds the transfers that are in no block yet; `issued` lists all that a gateway ever
  // issued.
  datatype State = State(chain: seq<seq<Payment>>, pool: seq<Payment>, local: seq<Local>, issued: seq<Payment>)

  datatype Action =
    | Forge(n: nat, foreign: seq<Payment>)            // a block of the first `n` waiting transfers and others
    | Restart(g: nat, history: bool)                   // a crash, and a start with or without history mode
    // The history thread processes one block; the transactions at the places `lost` are not
    // delivered (NXTprotocol.c:375 and 470).
    | Replay(g: nat, lost: set<nat>)
    // The history thread ends and sets `Historical_done`: at its end, or earlier when a block fails
    // twice to be delivered (NXTprotocol.c:574-575).
    | Finish(g: nat)
    | Live(g: nat, b: nat, k: nat, linked: Option<nat>)// the other thread processes a transaction of a block
    | Act(g: nat, event: Event)                        // the coin loop, or a message

  // A gateway that has just started.
  function NewLocal(stop: nat): Local {
    Local(Start(COIN), 0, stop, false, {})
  }

  function Init(): State {
    State([[]], [], seq(3, _ => NewLocal(0)), [])
  }

  // Where the history thread will stop: at the current block. Without history mode nothing is
  // replayed (libwebsocketsglue.h:158-174).
  function Stop(s: State, history: bool): nat {
    if history && |s.chain| > 0 then |s.chain| - 1 else 0
  }

  predicate Enabled(s: State, a: Action) {
    match a
    case Forge(n, foreign) => n <= |s.pool| && forall k :: 0 <= k < |foreign| ==> foreign[k].sender >= NUM_GATEWAYS
    case Restart(g, _) => g < |s.local|
    case Replay(g, _) => g < |s.local| && !s.local[g].done && s.local[g].replayed < s.local[g].stop <= |s.chain|
    case Finish(g) => g < |s.local| && !s.local[g].done
    case Live(g, b, k, linked) =>
      g < |s.local| && b < |s.chain| && k < |s.chain[b]| && (linked.Some? ==> linked.value < |s.local[g].node.records|)
    case Act(g, e) =>
      && g < |s.local| && s.local[g].node.coinid in s.local[g].node.books.totals && Possible(s.local[g].node, e)
      && match e
         case Paid(_, _, _) => false                   // comes from blocks only
         case Heard(_, _) => true
         case Pend(_, _, _, _) => true
         case _ => s.local[g].done                     // `Coinloop` waits for `Historical_done`
  }

  // The events of one block, on a node that has no records yet.
  function Seen(n: Node, block: seq<Payment>, lost: set<nat>): Node {
    if block == [] then n
    else
      var last := |block| - 1;
      var before := Seen(n, block[..last], lost);
      if last in lost then before else Marked(before, block[last].tx, block[last].txid, None)
  }

  // The coin transactions that they name.
  function HeardIn(block: seq<Payment>, lost: set<nat>): set<Tx> {
    set k | 0 <= k < |block| && k !in lost :: block[k].tx
  }

  // The transfer that an event issues, if it does.
  predicate Issuing(n: Node, g: nat, e: Event)
    requires n.coinid in n.books.totals && Possible(n, e)
  {
    e.Authorize? && e.issued != 0 && IssuesFor(n, e.k, e.now, g, e.hasAsset)
  }

  function IssuedBy(n: Node, g: nat, e: Event): Payment
    requires n.coinid in n.books.totals && Possible(n, e) && Issuing(n, g, e)
  {
    var r := n.records[n.xps[e.k]];
    Payment(r.tx, r.vout, r.xp.account, g, e.issued)
  }

  // One step; an action that is not enabled changes nothing.
  function Next(s: State, a: Action): State {
    if !Enabled(s, a) then s
    else match a
      case Forge(n, foreign) => s.(chain := s.chain + [s.pool[..n] + foreign], pool := s.pool[n..])
      case Restart(g, history) => s.(local := s.local[g := NewLocal(Stop(s, history))])
      case Replay(g, lost) =>
        var l := s.local[g];
        var block := s.chain[l.replayed];
        s.(local := s.local[g := l.(node := Seen(l.node, block, lost), replayed := l.replayed + 1,
                                    heard := l.heard + HeardIn(block, lost))])
      case Finish(g) => s.(local := s.local[g := s.local[g].(done := true)])
      case Live(g, b, k, linked) =>
        var l, t := s.local[g], s.chain[b][k];
        s.(local := s.local[g := l.(node := Marked(l.node, t.tx, t.txid, linked), heard := l.heard + {t.tx})])
      case Act(g, e) =>
        var l := s.local[g];
        var more := if Issuing(l.node, g, e) then [IssuedBy(l.node, g, e)] else [];
        s.(local := s.local[g := l.(node := Step(l.node, g, e))], pool := s.pool + more, issued := s.issued + more)
  }

  function Exec(s: State, acts: seq<Action>): State
    decreases |acts|
  {
    if acts == [] then s else Exec(Next(s, acts[0]), acts[1..])
  }

  // -------------------------------------------------------------- what is claimed

  predicate Named(block: seq<Payment>, tx: Tx) {
    exists k :: 0 <= k < |block| && block[k].tx == tx
  }

  predicate NamedWithin(chain: seq<seq<Payment>>, lo: nat, hi: nat, tx: Tx) {
    exists b :: lo <= b < hi && b < |chain| && Named(chain[b], tx)
  }

  // Every coin transaction that the gateway has paid for is named in what it has processed since its
  // start.
  predicate Ready(s: State, g: nat)
    requires g < |s.local|
  {
    forall i :: 0 <= i < |s.issued| && s.issued[i].sender == g ==> s.issued[i].tx in s.local[g].heard
  }

  // No history thread ends before that.
  predicate ReadyRun(s: State, acts: seq<Action>)
    decreases |acts|
  {
    acts == []
    || ((acts[0].Finish? && Enabled(s, acts[0]) ==> Ready(s, acts[0].g)) && ReadyRun(Next(s, acts[0]), acts[1..]))
  }

  // No coin transaction is paid for twice to one account.
  ghost predicate PaidOnce(issued: seq<Payment>) {
    forall i, j :: 0 <= i < j < |issued| ==> !(issued[i].tx == issued[j].tx && issued[i].account == issued[j].account)
  }

  // ------------------------------------------------------------------- invariants

  // Until the history thread ends a node has marks only, and exactly the ones it has heard of; from
  // then on it has marked all that it ever paid for.
  ghost predicate LocalOk(s: State, g: nat)
    requires g < |s.local|
  {
    var l := s.local[g];
    && l.node.coinid == COIN && COIN in l.node.books.totals && l.replayed <= l.stop < |s.chain|
    && (!l.done ==> Blank(l.node) && forall tx :: Marks(l.node, tx).xfer != 0 <==> tx in l.heard)
    && (l.done ==> forall i :: 0 <= i < |s.issued| && s.issued[i].sender == g ==> Marks(l.node, s.issued[i].tx).xfer != 0)
  }

  predicate Blank(n: Node) {
    n == Start(COIN).(marks := n.marks)
  }

  // Only the account's own gateway issues, once for each coin transaction.
  ghost predicate IssuedOk(issued: seq<Payment>) {
    && (forall i :: 0 <= i < |issued| ==> issued[i].sender == issued[i].account % NUM_GATEWAYS)
    && (forall i, j :: 0 <= i < j < |issued| && issued[i].sender == issued[j].sender ==> issued[i].tx != issued[j].tx)
  }

  ghost predicate Inv(s: State) {
    && |s.local| == 3 && |s.chain| > 0
    && (forall g :: 0 <= g < 3 ==> LocalOk(s, g))
    && IssuedOk(s.issued)
  }

  lemma InvMeansPaidOnce(s: State)
    requires Inv(s)
    ensures PaidOnce(s.issued)
  {
  }

  // A mark, once set, is never cleared.
  lemma StepKeepsMarks(n: Node, g: nat, e: Event, tx: Tx)
    requires n.coinid in n.books.totals && Possible(n, e) && !e.Paid? && Marks(n, tx).xfer != 0
    ensures Marks(Step(n, g, e), tx).xfer != 0
  {
    hide DepositBooks, AfterUpdate, Verified, Looked, Credited;
  }

  lemma StepMarksIssued(n: Node, g: nat, e: Event)
    requires n.coinid in n.books.totals && Possible(n, e) && Issuing(n, g, e)
    ensures var t := IssuedBy(n, g, e);
            Marks(n, t.tx).xfer == 0 && Marks(Step(n, g, e), t.tx).xfer == t.txid && t.account % NUM_GATEWAYS == g
  {
    hide Verified, Looked;
  }

  lemma {:induction false} SeenMarks(n: Node, block: seq<Payment>, lost: set<nat>, tx: Tx)
    ensures Marks(Seen(n, block, lost), tx).xfer != 0 <==> Marks(n, tx).xfer != 0 || tx in HeardIn(block, lost)
    ensures Seen(n, block, lost) == n.(marks := Seen(n, block, lost).marks)
  {
    hide HeardIn;
    if block == [] {
      HeardNothing(lost);
    } else {
      var last := |block| - 1;
      SeenMarks(n, block[..last], lost, tx);
      HeardLast(block, lost);
    }
  }

  lemma HeardNothing(lost: set<nat>)
    ensures HeardIn([], lost) == {}
  {
  }

  lemma HeardLast(block: seq<Payment>, lost: set<nat>)
    requires block != []
    ensures var last := |block| - 1;
            HeardIn(block, lost) == HeardIn(block[..last], lost) + if last in lost then {} else {block[last].tx}
  {
    var last := |block| - 1;
    assert forall k :: 0 <= k < last ==> block[..last][k] == block[k];
    forall tx | tx in HeardIn(block[..last], lost) ensures tx in HeardIn(block, lost) {
      var k :| 0 <= k < last && k !in lost && block[..last][k].tx == tx;
      assert block[k].tx == tx;
    }
    forall tx | tx in HeardIn(block, lost)
      ensures tx in HeardIn(block[..last], lost) || (last !in lost && tx == block[last].tx)
    {
      var k :| 0 <= k < |block| && k !in lost && block[k].tx == tx;
      assert k == last || block[..last][k].tx == tx;
    }
  }

  // ------------------------------------------------------- every step keeps it

  lemma ForgeKeeps(s: State, n: nat, foreign: seq<Payment>)
    requires Inv(s)
    ensures Inv(Next(s, Forge(n, foreign)))
  {
    hide IssuedOk, Marks, Blank;
    var t := Next(s, Forge(n, foreign));
    forall g | 0 <= g < 3 ensures LocalOk(t, g) {
      assert LocalOk(s, g);
    }
  }

  // One gateway's state changes, and perhaps it issues; the others do not notice.
  lemma OthersKeep(s: State, t: State, g: nat)
    requires Inv(s) && g < 3 && |t.local| == 3 && t.chain == s.chain
    requires forall h :: 0 <= h < 3 && h != g ==> t.local[h] == s.local[h]
    requires t.issued == s.issued || (|t.issued| == |s.issued| + 1 && s.issued <= t.issued && t.issued[|s.issued|].sender == g)
    ensures forall h :: 0 <= h < 3 && h != g ==> LocalOk(t, h)
  {
    hide IssuedOk, Blank, Marks;
    forall h | 0 <= h < 3 && h != g ensures LocalOk(t, h) {
      assert LocalOk(s, h);
    }
  }

  lemma RestartKeeps(s: State, g: nat, history: bool)
    requires Inv(s)
    ensures Inv(Next(s, Restart(g, history)))
  {
    hide IssuedOk, Start;
    var t := Next(s, Restart(g, history));
    if g < 3 {
      OthersKeep(s, t, g);
      NewLocalOk(t, g, Stop(s, history));
    }
  }

  lemma NewLocalOk(t: State, g: nat, stop: nat)
    requires g < |t.local| && t.local[g] == NewLocal(stop) && stop < |t.chain|
    ensures LocalOk(t, g)
  {
    hide Empty;
  }

  lemma ReplayKeeps(s: State, g: nat, lost: set<nat>)
    requires Inv(s)
    ensures Inv(Next(s, Replay(g, lost)))
  {
    hide IssuedOk, Marks, Seen, HeardIn, Start;
    var t := Next(s, Replay(g, lost));
    if Enabled(s, Replay(g, lost)) {
      OthersKeep(s, t, g);
      var l, m := s.local[g], t.local[g];
      assert LocalOk(s, g);
      SeenMarks(l.node, s.chain[l.replayed], lost, "");
      forall tx ensures Marks(m.node, tx).xfer != 0 <==> tx in m.heard {
        SeenMarks(l.node, s.chain[l.replayed], lost, tx);
      }
      assert LocalOk(t, g);
    }
  }

  lemma LiveKeeps(s: State, g: nat, b: nat, k: nat, linked: Option<nat>)
    requires Inv(s)
    ensures Inv(Next(s, Live(g, b, k, linked)))
  {
    hide IssuedOk, Empty;
    var a := Live(g, b, k, linked);
    var t := Next(s, a);
    if Enabled(s, a) {
      OthersKeep(s, t, g);
      assert LocalOk(s, g);
      assert LocalOk(t, g);
    }
  }

  lemma FinishKeeps(s: State, g: nat)
    requires Inv(s) && (Enabled(s, Finish(g)) ==> Ready(s, g))
    ensures Inv(Next(s, Finish(g)))
  {
    hide IssuedOk, Marks, Blank;
    var t := Next(s, Finish(g));
    if Enabled(s, Finish(g)) {
      OthersKeep(s, t, g);
      assert LocalOk(s, g);
      assert LocalOk(t, g);
    }
  }

  lemma ActKeeps(s: State, g: nat, e: Event)
    requires Inv(s)
    ensures Inv(Next(s, Act(g, e)))
  {
    hide IssuedOk;
    if Enabled(s, Act(g, e)) {
      assert LocalOk(s, g);
      if s.local[g].done {
        DoneActKeeps(s, g, e);
      } else {
        EarlyActKeeps(s, g, e);
      }
    }
  }

  // Before the history thread has ended, only messages come in.
  lemma EarlyActKeeps(s: State, g: nat, e: Event)
    requires Inv(s) && Enabled(s, Act(g, e)) && !s.local[g].done
    ensures Inv(Next(s, Act(g, e)))
  {
    hide IssuedOk, Empty;
    var t := Next(s, Act(g, e));
    assert LocalOk(s, g);
    assert e.Heard?;
    OthersKeep(s, t, g);
    assert LocalOk(t, g);
  }

  lemma DoneActKeeps(s: State, g: nat, e: Event)
    requires Inv(s) && Enabled(s, Act(g, e)) && s.local[g].done
    ensures Inv(Next(s, Act(g, e)))
  {
    hide Possible, Step, Marks, Issuing, IssuedBy, Blank;
    var t := Next(s, Act(g, e));
    var l, m := s.local[g], t.local[g];
    assert LocalOk(s, g);
    StepKeepsCoin(l.node, g, e);
    if Issuing(l.node, g, e) {
      IssuingIsAuthorize(l.node, g, e);
      var more := IssuedBy(l.node, g, e);
      StepMarksIssued(l.node, g, e);
      SenderIsGateway(l.node, g, e);
      assert forall i :: 0 <= i < |s.issued| && s.issued[i].sender == g ==> s.issued[i].tx != more.tx;
    }
    OthersKeep(s, t, g);
    forall i | 0 <= i < |t.issued| && t.issued[i].sender == g ensures Marks(m.node, t.issued[i].tx).xfer != 0 {
      if i < |s.issued| { StepKeepsMarks(l.node, g, e, s.issued[i].tx); }
    }
    assert LocalOk(t, g);
  }

  lemma StepKeepsCoin(n: Node, g: nat, e: Event)
    requires n.coinid in n.books.totals && Possible(n, e)
    ensures Step(n, g, e).coinid == n.coinid && n.coinid in Step(n, g, e).books.totals
  {
    hide Step;
  }

  lemma IssuingIsAuthorize(n: Node, g: nat, e: Event)
    requires n.coinid in n.books.totals && Possible(n, e) && Issuing(n, g, e)
    ensures e.Authorize?
  {
  }

  lemma SenderIsGateway(n: Node, g: nat, e: Event)
    requires n.coinid in n.books.totals && Possible(n, e) && Issuing(n, g, e)
    ensures IssuedBy(n, g, e).sender == g
  {
  }

  lemma NextKeeps(s: State, a: Action)
    requires Inv(s) && (a.Finish? && Enabled(s, a) ==> Ready(s, a.g))
    ensures Inv(Next(s, a))
  {
    hide Inv, Next, Ready, Enabled;
    match a {
      case Forge(n, foreign) => ForgeKeeps(s, n, foreign);
      case Restart(g, history) => RestartKeeps(s, g, history);
      case Replay(g, lost) => ReplayKeeps(s, g, lost);
      case Finish(g) => FinishKeeps(s, g);
      case Live(g, b, k, linked) => LiveKeeps(s, g, b, k, linked);
      case Act(g, e) => ActKeeps(s, g, e);
    }
  }

  lemma InitInv()
    ensures Inv(Init())
  {
    hide Start;
    forall g | 0 <= g < 3 ensures LocalOk(Init(), g) { NewLocalOk(Init(), g, 0); }
  }

  lemma {:induction false} RunKeeps(s: State, acts: seq<Action>)
    requires Inv(s) && ReadyRun(s, acts)
    ensures Inv(Exec(s, acts))
    decreases |acts|
  {
    hide Inv, Next, Ready, Enabled;
    if acts != [] {
      NextKeeps(s, acts[0]);
      RunKeeps(Next(s, acts[0]), acts[1..]);
    }
  }

  // In every run of the three gateways, with any number of crashes, in which no history thread ends
  // before all that its gateway has paid for was processed again, no coin transaction is paid for
  // twice to one account, nor twice by one gateway.
  lemma AtMostOneTransfer(acts: seq<Action>)
    requires ReadyRun(Init(), acts)
    ensures PaidOnce(Exec(Init(), acts).issued) && IssuedOk(Exec(Init(), acts).issued)
  {
    hide Exec, ReadyRun, Init;
    InitInv();
    RunKeeps(Init(), acts);
    InvMeansPaidOnce(Exec(Init(), acts));
  }

  // The mark is one for the whole coin transaction: of all its outputs that one gateway owes, to one
  // account or to several, the one that is paid first is the only one that ever is.
  lemma SecondOutputIsNeverPaid(acts: seq<Action>, i: nat, vout: nat, account: U64)
    requires ReadyRun(Init(), acts) && i < |Exec(Init(), acts).issued|
    requires var first := Exec(Init(), acts).issued[i];
             (vout, account) != (first.vout, first.account) && account % NUM_GATEWAYS == first.account % NUM_GATEWAYS
    ensures var issued := Exec(Init(), acts).issued;
            forall j :: 0 <= j < |issued| ==> !(issued[j].tx == issued[i].tx && issued[j].vout == vout && issued[j].account == account)
  {
    hide Exec, ReadyRun, Init, PaidOnce;
    AtMostOneTransfer(acts);
    var issued := Exec(Init(), acts).issued;
    forall j | 0 <= j < |issued| && issued[j].vout == vout && issued[j].account == account
      ensures issued[j].tx != issued[i].tx
    {
      assert issued[j].sender == issued[i].sender && j != i;
    }
  }

  // ------------------------------------------------------ what is paid for at all

  // What one confirmed output adds to a node that has no mark for its transaction.
  lemma OutputAdds(n: Node, g: nat, tx: Tx, vout: nat, value: int, account: U64)
    requires n.coinid in n.books.totals && Marks(n, tx).xfer == 0
    ensures var m := Step(n, g, Output(tx, vout, value, Some(account), 1, 0, 0, 0));
            && m.coinid == n.coinid && m.books == Updated(n.books, Deposit, n.coinid, account, value) && m.marks == n.marks
            && m.xps == n.xps + [|n.records|] && |m.records| == |n.records| + 1 && n.records <= m.records
            && Owes(m.records[|n.records|], tx, vout, value, account)
  {
    hide Updated, Empty, WithAnnouncement;
    AnnouncementOnly(n, g, tx, account);
  }

  // The record of a confirmed deposit that is not paid for.
  predicate Owes(r: Record, tx: Tx, vout: nat, value: int, account: U64) {
    && r.tx == tx && r.vout == vout && Due(r.xp, None)
    && r.xp.mask == 1 && r.xp.pending == 0 && r.xp.account == account && r.xp.assetoshis == r.xp.value == value
  }

  lemma AnnouncementOnly(n: Node, g: nat, tx: Tx, account: U64)
    ensures forall x: Xp, t: Tp :: var y := WithAnnouncement(x, t, g, 0); y == x.(am := y.am)
  {
  }

  // The gateway of the account pays for it, when the books cover it.
  lemma AuthorizePays(n: Node, g: nat, k: nat, tx: Tx, vout: nat, value: int, account: U64)
    requires n.coinid in n.books.totals && k < |n.xps| && n.xps[k] < |n.records|
    requires Owes(n.records[n.xps[k]], tx, vout, value, account) && value != 0 && account % NUM_GATEWAYS == g
    requires Marks(n, tx).xfer == 0 && Verified(n, account, value)
    ensures var e := Authorize(k, None, true, 1, 0);
            && Possible(n, e) && Issuing(n, g, e) && IssuedBy(n, g, e) == Payment(tx, vout, account, g, 1)
            && var m := Step(n, g, e);
               && m.xps == n.xps && |m.records| == |n.records| && Marks(m, tx).xfer == 1
               && forall i :: 0 <= i < |n.records| && i != n.xps[k] ==> m.records[i] == n.records[i]
  {
    hide Verified, Looked;
  }

  function Larger(x: int, y: int): int {
    if x < y then y else x
  }

  // A deposit that makes up for what the coin and the account have paid out beyond their deposits.
  function Missing(b: Books, coinid: int, account: U64): (v: nat)
    requires coinid in b.totals
  {
    var f, h := b.totals[coinid], Held(b.accounts, coinid, account);
    Larger(0, Larger(f.transfers - f.deposits, h.transfers - h.deposits))
  }

  // What a deposit changes in the coin's total and in an account.
  lemma DepositAdds(b: Books, account: U64, value: int, a: U64)
    requires COIN in b.totals
    ensures var c := Updated(b, Deposit, COIN, account, value);
            && COIN in c.totals && c.totals[COIN] == Changed(b.totals[COIN], Deposit, value)
            && Held(c.accounts, COIN, a) == if a == account then Changed(Held(b.accounts, COIN, a), Deposit, value)
                                            else Held(b.accounts, COIN, a)
  {
    hide Booked, Held, Changed;
    HeldAfter(b.accounts, COIN, account, Deposit, value, COIN, a);
  }

  // After that deposit and another of 1, the books cover a transfer of 1.
  lemma TwoDepositsCover(b: Books, account: U64)
    requires COIN in b.totals
    ensures var c := Updated(Updated(b, Deposit, COIN, account, Missing(b, COIN, account)), Deposit, COIN, account, 1);
            Covers(c.totals[COIN], false, 1) && Covers(Held(c.accounts, COIN, account), false, 1)
  {
    hide Updated, Held;
    var v := Missing(b, COIN, account);
    DepositAdds(b, account, v, account);
    DepositAdds(Updated(b, Deposit, COIN, account, v), account, 1, account);
  }

  // Without a mark the gateway can pay for any output of the transaction: an output that makes up
  // for missing funds, the output itself, and an authorization.
  lemma PaysNow(s: State, g: nat, tx: Tx, vout: nat, account: U64) returns (acts: seq<Action>)
    requires g < |s.local| && account % NUM_GATEWAYS == g && s.local[g].done
    requires var n := s.local[g].node; n.coinid == COIN && COIN in n.books.totals && Marks(n, tx).xfer == 0
    ensures NoRestart(acts, g) && ReadyRun(s, acts) && CompleteRun(s, acts)
    ensures Exec(s, acts).issued == s.issued + [Payment(tx, vout, account, g, 1)]
  {
    hide Step, Marks, Possible, Issuing, IssuedBy, Updated, Missing, Verified;
    var n := s.local[g].node;
    var value := Missing(n.books, COIN, account);
    var fund, seen := Output(tx, vout + 1, value, Some(account), 1, 0, 0, 0), Output(tx, vout, 1, Some(account), 1, 0, 0, 0);
    var n1 := OutputIsPossible(n, g, tx, vout + 1, value, account);
    var n2 := OutputIsPossible(n1, g, tx, vout, 1, account);
    var pay := Authorize(|n1.xps|, None, true, 1, 0);
    CoversMeansVerified(n, n2, account);
    AuthorizePays(n2, g, |n1.xps|, tx, vout, 1, account);
    acts := [Act(g, fund), Act(g, seen), Act(g, pay)];
    var s1 := ActOnce(s, g, fund);
    var s2 := ActOnce(s1, g, seen);
    var s3 := ActOnce(s2, g, pay);
    ThreeActs(s, g, fund, seen, pay);
  }

  lemma OutputIsPossible(n: Node, g: nat, tx: Tx, vout: nat, value: int, account: U64) returns (m: Node)
    requires n.coinid in n.books.totals && Marks(n, tx).xfer == 0
    ensures var e := Output(tx, vout, value, Some(account), 1, 0, 0, 0);
            Possible(n, e) && m == Step(n, g, e) && !Issuing(n, g, e)
    ensures m.coinid == n.coinid && m.coinid in m.books.totals && m.books == Updated(n.books, Deposit, n.coinid, account, value)
    ensures m.marks == n.marks && Marks(m, tx).xfer == 0
    ensures m.xps == n.xps + [|n.records|] && |m.records| == |n.records| + 1 && n.records <= m.records
    ensures Owes(m.records[|n.records|], tx, vout, value, account)
  {
    hide Updated;
    OutputAdds(n, g, tx, vout, value, account);
    hide Step;
    m := Step(n, g, Output(tx, vout, value, Some(account), 1, 0, 0, 0));
  }

  lemma CoversMeansVerified(n: Node, m: Node, account: U64)
    requires n.coinid == COIN == m.coinid && COIN in n.books.totals
    requires m.books == Updated(Updated(n.books, Deposit, COIN, account, Missing(n.books, COIN, account)), Deposit, COIN, account, 1)
    ensures COIN in m.books.totals && Verified(m, account, 1)
  {
    hide Updated, Missing, Covers, Held;
    TwoDepositsCover(n.books, account);
  }

  // One action of a gateway that has started.
  lemma ActOnce(s: State, g: nat, e: Event) returns (t: State)
    requires g < |s.local| && s.local[g].done && s.local[g].node.coinid in s.local[g].node.books.totals
    requires Possible(s.local[g].node, e) && (e.Output? || e.Authorize?)
    ensures t == Next(s, Act(g, e)) && g < |t.local| && t.local == s.local[g := t.local[g]] && t.local[g].done
    ensures t.local[g].node == Step(s.local[g].node, g, e)
    ensures t.issued == s.issued + if Issuing(s.local[g].node, g, e) then [IssuedBy(s.local[g].node, g, e)] else []
  {
    hide Step, Possible, Issuing, IssuedBy;
    t := Next(s, Act(g, e));
  }

  lemma ThreeActs(s: State, g: nat, e0: Event, e1: Event, e2: Event)
    ensures var acts := [Act(g, e0), Act(g, e1), Act(g, e2)];
            && Exec(s, acts) == Next(Next(Next(s, Act(g, e0)), Act(g, e1)), Act(g, e2))
            && NoRestart(acts, g) && ReadyRun(s, acts) && CompleteRun(s, acts)
  {
    hide Next, Enabled;
    var acts := [Act(g, e0), Act(g, e1), Act(g, e2)];
    assert acts[1..] == [Act(g, e1), Act(g, e2)] && acts[1..][1..] == [Act(g, e2)] && [Act(g, e2)][1..] == [];
    var s1, s2 := Next(s, Act(g, e0)), Next(Next(s, Act(g, e0)), Act(g, e1));
    var s3 := Next(s2, Act(g, e2));
    assert Exec(s3, []) == s3 && ReadyRun(s3, []) && CompleteRun(s3, []);
    assert Exec(s2, [Act(g, e2)]) == s3 && ReadyRun(s2, [Act(g, e2)]) && CompleteRun(s2, [Act(g, e2)]);
    assert Exec(s1, acts[1..]) == s3 && ReadyRun(s1, acts[1..]) && CompleteRun(s1, acts[1..]);
  }

  predicate NoRestart(acts: seq<Action>, g: nat) {
    forall k :: 0 <= k < |acts| && acts[k].Restart? ==> acts[k].g != g
  }

  // The gateway issues a payment for an output in the course of a run.
  ghost predicate Pays(s: State, acts: seq<Action>, g: nat, tx: Tx, vout: nat, account: U64) {
    var issued := Exec(s, acts).issued;
    exists i :: |s.issued| <= i < |issued| && issued[i].sender == g
                && issued[i].tx == tx && issued[i].vout == vout && issued[i].account == account
  }

  // It does so in some run in which it is not restarted.
  ghost predicate Payable(s: State, g: nat, tx: Tx, vout: nat, account: U64) {
    exists acts: seq<Action> :: NoRestart(acts, g) && Pays(s, acts, g, tx, vout, account)
  }

  // With a mark, nothing pays for the transaction.
  lemma NextKeepsMark(s: State, a: Action, g: nat, tx: Tx)
    requires g < |s.local| && Marks(s.local[g].node, tx).xfer != 0 && (a.Restart? ==> a.g != g)
    ensures var t := Next(s, a);
            && g < |t.local| && Marks(t.local[g].node, tx).xfer != 0 && s.issued <= t.issued
            && forall i :: |s.issued| <= i < |t.issued| ==> !(t.issued[i].sender == g && t.issued[i].tx == tx)
  {
    hide Possible, Step, Issuing, IssuedBy, Marked, Seen;
    match a {
      case Replay(h, lost) => if h == g && Enabled(s, a) { SeenMarks(s.local[g].node, s.chain[s.local[g].replayed], lost, tx); }
      case Live(h, b, k, linked) => if Enabled(s, a) { MarkedKeepsMark(s.local[h].node, s.chain[b][k].tx, s.chain[b][k].txid, linked, tx); }
      case Act(h, e) =>
        if Enabled(s, a) {
          var n := s.local[h].node;
          if h == g { StepKeepsMarks(n, g, e, tx); }
          if Issuing(n, h, e) {
            SenderIsGateway(n, h, e);
            StepMarksIssued(n, h, e);
          }
        }
      case _ =>
    }
  }

  lemma MarkedKeepsMark(n: Node, named: Tx, txid: PaymentId, linked: Option<nat>, tx: Tx)
    requires linked.Some? ==> linked.value < |n.records|
    ensures Marks(n, tx).xfer != 0 ==> Marks(Marked(n, named, txid, linked), tx).xfer != 0
  {
  }

  lemma {:induction false} NeverPays(s: State, acts: seq<Action>, g: nat, tx: Tx)
    requires g < |s.local| && Marks(s.local[g].node, tx).xfer != 0 && NoRestart(acts, g)
    ensures var t := Exec(s, acts);
            && s.issued <= t.issued
            && forall i :: |s.issued| <= i < |t.issued| ==> !(t.issued[i].sender == g && t.issued[i].tx == tx)
    decreases |acts|
  {
    hide Next, Marks;
    if acts != [] {
      NextKeepsMark(s, acts[0], g, tx);
      NeverPays(Next(s, acts[0]), acts[1..], g, tx);
    }
  }

  lemma MarkedIsNotPayable(s: State, g: nat, tx: Tx, vout: nat, account: U64)
    requires g < |s.local| && Marks(s.local[g].node, tx).xfer != 0
    ensures !Payable(s, g, tx, vout, account)
  {
    hide Exec, Marks, NoRestart;
    forall acts: seq<Action> | NoRestart(acts, g) ensures !Pays(s, acts, g, tx, vout, account) {
      NeverPays(s, acts, g, tx);
    }
  }

  // An output that a gateway owes, whether it has begun to pay or still replays, can be paid for
  // before its next restart exactly when its transaction is not marked (multideposit.h:246).
  lemma PayableExactly(s: State, g: nat, tx: Tx, vout: nat, account: U64)
    requires Inv(s) && g < NUM_GATEWAYS && account % NUM_GATEWAYS == g
    ensures Payable(s, g, tx, vout, account) <==> Marks(s.local[g].node, tx).xfer == 0
  {
    hide Exec, Marks, IssuedOk, Blank, Payable;
    assert LocalOk(s, g);
    if Marks(s.local[g].node, tx).xfer != 0 {
      MarkedIsNotPayable(s, g, tx, vout, account);
    } else {
      IsPayable(s, g, tx, vout, account);
    }
  }

  lemma IsPayable(s: State, g: nat, tx: Tx, vout: nat, account: U64)
    requires g < |s.local| && account % NUM_GATEWAYS == g
    requires var n := s.local[g].node; n.coinid == COIN && COIN in n.books.totals && Marks(n, tx).xfer == 0
    ensures Payable(s, g, tx, vout, account)
  {
    hide Marks;
    var paid := Payment(tx, vout, account, g, 1);
    if s.local[g].done {
      var acts := PaysNow(s, g, tx, vout, account);
      assert Exec(s, acts).issued[|s.issued|] == paid;
      assert Pays(s, acts, g, tx, vout, account);
    } else {
      var t := Next(s, Finish(g));
      var more := PaysNow(t, g, tx, vout, account);
      var acts := [Finish(g)] + more;
      assert acts[1..] == more;
      assert Exec(s, acts).issued[|s.issued|] == paid;
      assert Pays(s, acts, g, tx, vout, account);
    }
  }

  // Anybody's transfer that names a transaction sets the mark: here nothing was issued, and the
  // gateway will pay for no output of `tx`.
  lemma ForeignTransferMarks(tx: Tx, vout: nat, account: U64) returns (acts: seq<Action>)
    requires account % NUM_GATEWAYS == 0
    ensures ReadyRun(Init(), acts)
    ensures var t := Exec(Init(), acts); t.issued == [] && !Payable(t, 0, tx, vout, account)
  {
    hide Start, Payable;
    var transfer := Payment(tx, vout, account, NUM_GATEWAYS, 7);
    acts := [Finish(0), Forge(0, [transfer]), Live(0, 1, 0, None)];
    var s1 := Next(Init(), Finish(0));
    var s2 := Next(s1, Forge(0, [transfer]));
    var s3 := Next(s2, Live(0, 1, 0, None));
    assert acts[1..] == [Forge(0, [transfer]), Live(0, 1, 0, None)] && acts[1..][1..] == [Live(0, 1, 0, None)];
    assert Exec(s3, []) == s3 && ReadyRun(s3, []);
    assert Exec(s2, [Live(0, 1, 0, None)]) == s3 && ReadyRun(s2, [Live(0, 1, 0, None)]);
    assert Exec(s1, acts[1..]) == s3 && ReadyRun(s1, acts[1..]);
    assert s2.chain[1] == [transfer];
    MarkedIsNotPayable(s3, 0, tx, vout, account);
  }

  // Two outputs of one transaction that gateway 0 owes, to one account or to two: it pays for the
  // first, and never for the second, which stays on its list of confirmed deposits.
  lemma OneOfTwoOutputs(tx: Tx, a: U64, b: U64) returns (acts: seq<Action>)
    requires a % NUM_GATEWAYS == b % NUM_GATEWAYS == 0
    ensures ReadyRun(Init(), acts)
    ensures var t := Exec(Init(), acts);
            && t.issued == [Payment(tx, 0, a, 0, 1)] && !Payable(t, 0, tx, 1, b)
            && |t.local| == 3 && t.local[0].node.xps == [0, 1] && |t.local[0].node.records| == 2
            && Owes(t.local[0].node.records[1], tx, 1, 1, b)
  {
    hide Start, Payable, Step, Marks, Possible, Issuing, IssuedBy, Updated, Verified;
    var first, second := Output(tx, 0, 1, Some(a), 1, 0, 0, 0), Output(tx, 1, 1, Some(b), 1, 0, 0, 0);
    var pay := Authorize(0, None, true, 1, 0);
    var s := Next(Init(), Finish(0));
    var n := s.local[0].node;
    StartIsBlank(tx);
    var n1 := OutputIsPossible(n, 0, tx, 0, 1, a);
    var n2 := OutputIsPossible(n1, 0, tx, 1, 1, b);
    TwoDepositsVerify(n2, a, b);
    AuthorizePays(n2, 0, 0, tx, 0, 1, a);
    var s1 := ActOnce(s, 0, first);
    var s2 := ActOnce(s1, 0, second);
    var s3 := ActOnce(s2, 0, pay);
    ThreeActs(s, 0, first, second, pay);
    var more := [Act(0, first), Act(0, second), Act(0, pay)];
    acts := [Finish(0)] + more;
    assert acts[1..] == more;
    MarkedIsNotPayable(s3, 0, tx, 1, b);
  }

  lemma StartIsBlank(tx: Tx)
    ensures var n := Start(COIN); n.coinid == COIN && COIN in n.books.totals && n.books == Empty({COIN})
    ensures Start(COIN).xps == [] && Start(COIN).records == [] && Marks(Start(COIN), tx).xfer == 0
  {
    hide Empty;
  }

  lemma TwoDepositsVerify(m: Node, a: U64, b: U64)
    requires m.coinid == COIN && m.books == Updated(Updated(Empty({COIN}), Deposit, COIN, a, 1), Deposit, COIN, b, 1)
    ensures COIN in m.books.totals && Verified(m, a, 1)
  {
    hide Updated, Held, Empty;
    EmptyTotals(COIN);
    EmptyHolds(a);
    var c := Updated(Empty({COIN}), Deposit, COIN, a, 1);
    DepositAdds(Empty({COIN}), a, 1, a);
    DepositAdds(c, b, 1, a);
  }

  lemma EmptyHolds(account: U64)
    ensures Empty({COIN}).accounts == [] && Held([], COIN, account) == NOTHING
  {
  }

  // ------------------------------------------------- when it is too early to end

  // A gateway whose replay has ended without a mark for a transaction that it paid for pays again.
  lemma PaysAtOnce(s: State, g: nat, i: nat) returns (acts: seq<Action>)
    requires i < |s.issued| && g < |s.local| && s.issued[i].account % NUM_GATEWAYS == g && s.local[g].done
    requires var n := s.local[g].node; n.coinid == COIN && COIN in n.books.totals && Marks(n, s.issued[i].tx).xfer == 0
    ensures ReadyRun(s, acts) && CompleteRun(s, acts) && !PaidOnce(Exec(s, acts).issued)
  {
    hide Marks, Exec, ReadyRun, CompleteRun;
    acts := PaysNow(s, g, s.issued[i].tx, s.issued[i].vout, s.issued[i].account);
    var issued := Exec(s, acts).issued;
    assert issued[i] == s.issued[i] && issued[|s.issued|].tx == issued[i].tx && issued[|s.issued|].account == issued[i].account;
  }

  // Nothing that happens after an action, other than a history thread that ends too early, pays
  // twice.
  ghost predicate SafeAfter(s: State, a: Action) {
    forall acts: seq<Action> :: ReadyRun(Next(s, a), acts) ==> PaidOnce(Exec(Next(s, a), acts).issued)
  }

  // However much of the chain was replayed, lost, or seen by the other thread: ending the replay is
  // safe exactly when every transaction that the gateway has paid for was named in what it has
  // processed since its start.
  lemma SafeExactlyWhenReady(s: State, g: nat)
    requires Inv(s) && g < NUM_GATEWAYS && Enabled(s, Finish(g))
    ensures SafeAfter(s, Finish(g)) <==> Ready(s, g)
  {
    hide Exec, ReadyRun, PaidOnce, IssuedOk, Start, Marks;
    var a := Finish(g);
    assert LocalOk(s, g);
    if Ready(s, g) {
      ReadyIsSafe(s, g);
    } else {
      var i :| 0 <= i < |s.issued| && s.issued[i].sender == g && s.issued[i].tx !in s.local[g].heard;
      IssuedByOwn(s, i);
      var acts := PaysAtOnce(Next(s, a), g, i);
    }
  }

  lemma ReadyIsSafe(s: State, g: nat)
    requires Inv(s) && g < NUM_GATEWAYS && Enabled(s, Finish(g)) && Ready(s, g)
    ensures SafeAfter(s, Finish(g))
  {
    hide Inv, Next, Exec, ReadyRun, PaidOnce, Ready, Enabled;
    NextKeeps(s, Finish(g));
    AlwaysPaidOnce(Next(s, Finish(g)));
  }

  lemma AlwaysPaidOnce(s: State)
    requires Inv(s)
    ensures forall acts: seq<Action> :: ReadyRun(s, acts) ==> PaidOnce(Exec(s, acts).issued)
  {
    hide Inv, Exec, ReadyRun, PaidOnce;
    forall acts: seq<Action> | ReadyRun(s, acts) ensures PaidOnce(Exec(s, acts).issued) {
      RunKeeps(s, acts);
      InvMeansPaidOnce(Exec(s, acts));
    }
  }

  lemma IssuedByOwn(s: State, i: nat)
    requires Inv(s) && i < |s.issued|
    ensures s.issued[i].sender == s.issued[i].account % NUM_GATEWAYS
  {
  }

  // So a replay that ends before its first block makes any earlier payment unsafe, settled or not.
  lemma EarlyEndForgets(s: State, g: nat, i: nat, history: bool)
    requires Inv(s) && g < NUM_GATEWAYS && i < |s.issued| && s.issued[i].sender == g
    ensures !SafeAfter(Next(s, Restart(g, history)), Finish(g))
  {
    hide SafeAfter, IssuedOk, Start;
    var t := Next(s, Restart(g, history));
    RestartKeeps(s, g, history);
    SafeExactlyWhenReady(t, g);
    assert t.issued[i].tx !in t.local[g].heard;
  }

  // ----------------------------------------------------------- complete replays

  // Every coin transaction that the gateway has paid for is named below a block.
  predicate NamedBelow(s: State, g: nat, stop: nat) {
    forall i :: 0 <= i < |s.issued| && s.issued[i].sender == g ==> NamedWithin(s.chain, 0, stop, s.issued[i].tx)
  }

  // The same of the blocks that a restart would replay.
  predicate Settled(s: State, g: nat, history: bool) {
    NamedBelow(s, g, Stop(s, history))
  }

  // Restarts happen at settled moments; the NXT server delivers all that the history thread asks
  // for, so that it loses no transaction and does not end early.
  predicate CompleteRun(s: State, acts: seq<Action>)
    decreases |acts|
  {
    acts == [] || (Complete(s, acts[0]) && CompleteRun(Next(s, acts[0]), acts[1..]))
  }

  predicate Complete(s: State, a: Action) {
    match a
    case Restart(g, history) => Settled(s, g, history)
    case Replay(_, lost) => lost == {}
    case Finish(g) => Enabled(s, a) ==> s.local[g].replayed == s.local[g].stop
    case _ => true
  }

  // All that was replayed was heard.
  ghost predicate HeardAll(s: State, g: nat)
    requires g < |s.local|
  {
    forall tx :: NamedWithin(s.chain, 0, s.local[g].replayed, tx) ==> tx in s.local[g].heard
  }

  // What complete runs keep.
  ghost predicate Settling(s: State) {
    && |s.local| == 3
    && forall g :: 0 <= g < 3 ==>
         && s.local[g].replayed <= |s.chain|
         && (!s.local[g].done ==> HeardAll(s, g) && s.local[g].stop <= |s.chain| && NamedBelow(s, g, s.local[g].stop))
  }

  lemma SettlingIsReady(s: State, g: nat)
    requires Settling(s) && g < 3 && Enabled(s, Finish(g)) && s.local[g].replayed == s.local[g].stop
    ensures Ready(s, g)
  {
    hide NamedWithin;
  }

  lemma MoreBlocks(chain: seq<seq<Payment>>, longer: seq<seq<Payment>>, hi: nat, tx: Tx)
    requires chain <= longer
    ensures NamedWithin(chain, 0, hi, tx) ==> NamedWithin(longer, 0, hi, tx)
    ensures hi <= |chain| && NamedWithin(longer, 0, hi, tx) ==> NamedWithin(chain, 0, hi, tx)
  {
    hide Named;
    assert forall b :: 0 <= b < |chain| ==> longer[b] == chain[b];
  }

  lemma OneMoreBlock(chain: seq<seq<Payment>>, n: nat, tx: Tx)
    requires n < |chain|
    ensures NamedWithin(chain, 0, n + 1, tx) <==> NamedWithin(chain, 0, n, tx) || Named(chain[n], tx)
  {
    hide Named;
  }

  lemma NamedIsHeard(block: seq<Payment>, tx: Tx)
    ensures Named(block, tx) ==> tx in HeardIn(block, {})
  {
  }

  // A replayed block is heard.
  lemma ReplayHears(s: State, g: nat)
    requires Enabled(s, Replay(g, {})) && HeardAll(s, g)
    ensures HeardAll(Next(s, Replay(g, {})), g)
  {
    hide Named, NamedWithin, HeardIn, Seen;
    var l, t := s.local[g], Next(s, Replay(g, {}));
    forall tx | NamedWithin(t.chain, 0, l.replayed + 1, tx) ensures tx in t.local[g].heard {
      OneMoreBlock(s.chain, l.replayed, tx);
      NamedIsHeard(s.chain[l.replayed], tx);
    }
  }

  lemma ForgeSettles(s: State, n: nat, foreign: seq<Payment>)
    requires Settling(s)
    ensures Settling(Next(s, Forge(n, foreign)))
  {
    hide NamedWithin;
    var t := Next(s, Forge(n, foreign));
    forall hi: nat, tx ensures NamedWithin(s.chain, 0, hi, tx) ==> NamedWithin(t.chain, 0, hi, tx) {
      MoreBlocks(s.chain, t.chain, hi, tx);
    }
    forall hi: nat, tx | hi <= |s.chain| && NamedWithin(t.chain, 0, hi, tx) ensures NamedWithin(s.chain, 0, hi, tx) {
      MoreBlocks(s.chain, t.chain, hi, tx);
    }
  }

  lemma RestartSettles(s: State, g: nat, history: bool)
    requires Settling(s) && Settled(s, g, history)
    ensures Settling(Next(s, Restart(g, history)))
  {
    hide Named, Start;
  }

  lemma ReplaySettles(s: State, g: nat)
    requires Settling(s)
    ensures Settling(Next(s, Replay(g, {})))
  {
    hide NamedWithin, Seen, HeardIn;
    if Enabled(s, Replay(g, {})) { ReplayHears(s, g); }
  }

  lemma FinishSettles(s: State, g: nat)
    requires Settling(s)
    ensures Settling(Next(s, Finish(g)))
  {
    hide NamedWithin;
  }

  lemma LiveSettles(s: State, g: nat, b: nat, k: nat, linked: Option<nat>)
    requires Settling(s)
    ensures Settling(Next(s, Live(g, b, k, linked)))
  {
    hide NamedWithin, Marked;
  }

  lemma ActSettles(s: State, g: nat, e: Event)
    requires Settling(s)
    ensures Settling(Next(s, Act(g, e)))
  {
    hide NamedWithin, Step, Possible, Issuing, IssuedBy;
    if Enabled(s, Act(g, e)) && Issuing(s.local[g].node, g, e) {
      IssuingIsAuthorize(s.local[g].node, g, e);
      SenderIsGateway(s.local[g].node, g, e);
    }
  }

  lemma NextSettles(s: State, a: Action)
    requires Settling(s) && Complete(s, a)
    ensures Settling(Next(s, a))
    ensures a.Finish? && Enabled(s, a) ==> Ready(s, a.g)
  {
    hide Settling, Next, Ready, Enabled, Settled;
    match a {
      case Forge(n, foreign) => ForgeSettles(s, n, foreign);
      case Restart(g, history) => RestartSettles(s, g, history);
      case Replay(g, lost) => ReplaySettles(s, g);
      case Finish(g) =>
        FinishSettles(s, g);
        if Enabled(s, a) {
          FinishesInside(s, g);
          SettlingIsReady(s, g);
        }
      case Live(g, b, k, linked) => LiveSettles(s, g, b, k, linked);
      case Act(g, e) => ActSettles(s, g, e);
    }
  }

  lemma FinishesInside(s: State, g: nat)
    requires Settling(s) && Enabled(s, Finish(g))
    ensures g < 3
  {
  }

  // In a complete run no history thread ends too early.
  lemma {:induction false} CompleteIsReady(s: State, acts: seq<Action>)
    requires Settling(s) && CompleteRun(s, acts)
    ensures ReadyRun(s, acts) && Settling(Exec(s, acts))
    decreases |acts|
  {
    hide Settling, Next, Ready, Enabled, Complete;
    if acts != [] {
      NextSettles(s, acts[0]);
      CompleteIsReady(Next(s, acts[0]), acts[1..]);
    }
  }

  lemma InitSettles()
    ensures Settling(Init())
  {
    hide Start;
  }

  // So in every complete run no coin transaction is paid for twice to one account.
  lemma CompleteRunsPayOnce(acts: seq<Action>)
    requires CompleteRun(Init(), acts)
    ensures PaidOnce(Exec(Init(), acts).issued) && IssuedOk(Exec(Init(), acts).issued)
  {
    hide Exec, CompleteRun, ReadyRun, Init, Settling;
    InitSettles();
    CompleteIsReady(Init(), acts);
    AtMostOneTransfer(acts);
  }

  // A gateway that replays and has not heard of `tx`, nor will.
  ghost predicate Forgot(s: State, g: nat, tx: Tx) {
    && g < |s.local| && g < NUM_GATEWAYS
    && var l := s.local[g];
       && !l.done && l.replayed <= l.stop <= |s.chain| && Blank(l.node)
       && Marks(l.node, tx).xfer == 0 && !NamedWithin(s.chain, l.replayed, l.stop, tx)
  }

  // It pays for it again, though its replay is complete.
  lemma {:induction false} PaysAgain(s: State, g: nat, i: nat) returns (acts: seq<Action>)
    requires i < |s.issued| && s.issued[i].account % NUM_GATEWAYS == g && Forgot(s, g, s.issued[i].tx)
    ensures CompleteRun(s, acts) && !PaidOnce(Exec(s, acts).issued)
    decreases s.local[g].stop - s.local[g].replayed
  {
    hide Seen, Marks, Start, PaidOnce, Named;
    var l, tx := s.local[g], s.issued[i].tx;
    if l.replayed < l.stop {
      var t := Next(s, Replay(g, {}));
      HeardIsNamed(s.chain[l.replayed], tx);
      assert Named(s.chain[l.replayed], tx) ==> NamedWithin(s.chain, l.replayed, l.stop, tx);
      SeenMarks(l.node, s.chain[l.replayed], {}, tx);
      assert Forgot(t, g, tx);
      var more := PaysAgain(t, g, i);
      acts := [Replay(g, {})] + more;
      assert acts[1..] == more;
    } else {
      var more := PaysAtOnce(Next(s, Finish(g)), g, i);
      acts := [Finish(g)] + more;
      assert acts[1..] == more;
    }
  }

  lemma HeardIsNamed(block: seq<Payment>, tx: Tx)
    ensures tx in HeardIn(block, {}) ==> Named(block, tx)
  {
  }

  ghost predicate SafeRestart(s: State, g: nat, history: bool) {
    var t := Next(s, Restart(g, history));
    forall acts: seq<Action> :: CompleteRun(t, acts) ==> PaidOnce(Exec(t, acts).issued)
  }

  // A restart whose replay is complete is safe exactly when it is settled.
  lemma SafeExactlyWhenSettled(s: State, g: nat, history: bool)
    requires Inv(s) && Settling(s) && g < NUM_GATEWAYS
    ensures SafeRestart(s, g, history) <==> Settled(s, g, history)
  {
    hide Exec, CompleteRun, PaidOnce, NamedWithin, Start, Inv;
    if Settled(s, g, history) {
      SettledIsSafe(s, g, history);
    } else {
      var i :| 0 <= i < |s.issued| && s.issued[i].sender == g && !NamedWithin(s.chain, 0, Stop(s, history), s.issued[i].tx);
      IssuedByOwn(s, i);
      Forgets(s, g, history, i);
      var acts := PaysAgain(Next(s, Restart(g, history)), g, i);
    }
  }

  lemma Forgets(s: State, g: nat, history: bool, i: nat)
    requires Inv(s) && g < NUM_GATEWAYS && i < |s.issued| && !NamedWithin(s.chain, 0, Stop(s, history), s.issued[i].tx)
    ensures Forgot(Next(s, Restart(g, history)), g, s.issued[i].tx)
  {
    hide NamedWithin, IssuedOk;
  }

  lemma SettledIsSafe(s: State, g: nat, history: bool)
    requires Inv(s) && Settling(s) && Settled(s, g, history)
    ensures SafeRestart(s, g, history)
  {
    hide Inv, Settling, Next, Exec, CompleteRun, ReadyRun, PaidOnce, Settled;
    var t := Next(s, Restart(g, history));
    RestartKeeps(s, g, history);
    RestartSettles(s, g, history);
    AlwaysPaidOnce(t);
    forall acts: seq<Action> | CompleteRun(t, acts) ensures PaidOnce(Exec(t, acts).issued) {
      CompleteIsReady(t, acts);
    }
  }

  // Without history mode a gateway may only be restarted before it has paid for anything.
  lemma SafeWithoutHistory(s: State, g: nat)
    requires Inv(s) && Settling(s) && g < NUM_GATEWAYS
    ensures SafeRestart(s, g, false) <==> forall i :: 0 <= i < |s.issued| ==> s.issued[i].sender != g
  {
    hide SafeRestart, Inv, Settling;
    SafeExactlyWhenSettled(s, g, false);
  }

  // With it, the last block is the one that is not replayed: after a payment that is in it and
  // nowhere before, even a complete replay can lead to a second payment.
  lemma LastBlockIsNotReplayed(s: State, g: nat, i: nat)
    requires Inv(s) && Settling(s) && g < NUM_GATEWAYS && i < |s.issued| && s.issued[i].sender == g
    requires Named(s.chain[|s.chain| - 1], s.issued[i].tx)
    requires forall b :: 0 <= b < |s.chain| - 1 ==> !Named(s.chain[b], s.issued[i].tx)
    ensures !SafeRestart(s, g, true)
  {
    hide SafeRestart, Named, Settling, LocalOk, IssuedOk;
    SafeExactlyWhenSettled(s, g, true);
  }

  // ------------------------------------------------- the other thread closes the gap

  // A gateway is replaying after a restart, all that it paid for being named up to the block at
  // which the history thread will stop.
  ghost predicate Replaying(s: State, g: nat) {
    && g < |s.local| && !s.local[g].done && s.local[g].replayed <= s.local[g].stop < |s.chain|
    && HeardAll(s, g) && NamedBelow(s, g, s.local[g].stop + 1)
  }

  // It loses nothing, and neither restarts nor ends.
  predicate GoesOn(a: Action, g: nat) {
    match a
    case Restart(h, _) => h != g
    case Replay(h, lost) => h == g ==> lost == {}
    case Finish(h) => h != g
    case _ => true
  }

  // A later state of the same replay.
  predicate Later(s: State, t: State, g: nat)
    requires g < |s.local|
  {
    && g < |t.local| && t.local[g].stop == s.local[g].stop && s.chain <= t.chain && s.local[g].heard <= t.local[g].heard
  }

  lemma NextReplays(s: State, a: Action, g: nat)
    requires Replaying(s, g) && GoesOn(a, g)
    ensures Replaying(Next(s, a), g) && Later(s, Next(s, a), g)
  {
    hide NamedWithin, Seen, HeardIn, Marked, Step, Possible, Issuing, IssuedBy;
    var t := Next(s, a);
    match a {
      case Forge(n, foreign) => ForgeReplays(s, n, foreign, g);
      case Replay(h, lost) => if h == g && Enabled(s, a) { ReplayHears(s, g); }
      case Act(h, e) =>
        if Enabled(s, a) && Issuing(s.local[h].node, h, e) {
          IssuingIsAuthorize(s.local[h].node, h, e);
          SenderIsGateway(s.local[h].node, h, e);
        }
      case _ =>
    }
  }

  lemma ForgeReplays(s: State, n: nat, foreign: seq<Payment>, g: nat)
    requires Replaying(s, g)
    ensures var t := Next(s, Forge(n, foreign)); Replaying(t, g) && Later(s, t, g)
  {
    hide NamedWithin;
    var t := Next(s, Forge(n, foreign));
    var l := s.local[g];
    forall tx | NamedWithin(t.chain, 0, l.replayed, tx) ensures tx in l.heard {
      MoreBlocks(s.chain, t.chain, l.replayed, tx);
    }
    forall i | 0 <= i < |s.issued| && s.issued[i].sender == g ensures NamedWithin(t.chain, 0, l.stop + 1, s.issued[i].tx) {
      MoreBlocks(s.chain, t.chain, l.stop + 1, s.issued[i].tx);
    }
  }

  lemma {:induction false} RunReplays(s: State, acts: seq<Action>, g: nat)
    requires Replaying(s, g) && forall j :: 0 <= j < |acts| ==> GoesOn(acts[j], g)
    ensures var t := Exec(s, acts);
            && Replaying(t, g) && Later(s, t, g)
            && forall k: nat :: k < |s.chain[s.local[g].stop]| && Live(g, s.local[g].stop, k, None) in acts ==>
                                  s.chain[s.local[g].stop][k].tx in t.local[g].heard
    decreases |acts|
  {
    hide Next, Replaying, GoesOn;
    assert g < |s.local| && s.local[g].stop < |s.chain| by { ReplayingInside(s, g); }
    if acts != [] {
      var t := Next(s, acts[0]);
      NextReplays(s, acts[0], g);
      RunReplays(t, acts[1..], g);
      var stop := s.local[g].stop;
      assert t.chain[stop] == s.chain[stop];
      forall k: nat | k < |s.chain[stop]| && Live(g, stop, k, None) in acts
        ensures s.chain[stop][k].tx in Exec(s, acts).local[g].heard
      {
        if acts[0] == Live(g, stop, k, None) { LiveHears(s, g, stop, k); }
      }
    }
  }

  lemma ReplayingInside(s: State, g: nat)
    requires Replaying(s, g)
    ensures g < |s.local| && s.local[g].stop < |s.chain|
  {
  }

  lemma LiveHears(s: State, g: nat, b: nat, k: nat)
    requires g < |s.local| && b < |s.chain| && k < |s.chain[b]|
    ensures var t := Next(s, Live(g, b, k, None)); g < |t.local| && s.chain[b][k].tx in t.local[g].heard
  {
    hide Marked;
  }

  // The payments of the last block are not forgotten when the other thread, which begins with that
  // block (NXTprotocol.c:548-561), has processed it by the time the history thread ends.
  lemma SafeWhenStopBlockIsLive(s: State, g: nat, acts: seq<Action>)
    requires Inv(s) && g < NUM_GATEWAYS && NamedBelow(s, g, Stop(s, true) + 1)
    requires forall j :: 0 <= j < |acts| ==> GoesOn(acts[j], g)
    requires ReadyRun(Next(s, Restart(g, true)), acts)
    requires forall k: nat :: k < |s.chain[Stop(s, true)]| ==> Live(g, Stop(s, true), k, None) in acts
    requires var l := Exec(Next(s, Restart(g, true)), acts).local; g < |l| && l[g].replayed == l[g].stop
    ensures SafeAfter(Exec(Next(s, Restart(g, true)), acts), Finish(g))
  {
    hide Exec, ReadyRun, NamedWithin, Start, IssuedOk, SafeAfter, GoesOn;
    var s0 := Next(s, Restart(g, true));
    RestartKeeps(s, g, true);
    assert Replaying(s0, g) by { StartsReplaying(s, g); }
    RunKeeps(s0, acts);
    RunReplays(s0, acts, g);
    var t := Exec(s0, acts);
    var l := t.local[g];
    var stop := s0.local[g].stop;
    forall i | 0 <= i < |t.issued| && t.issued[i].sender == g ensures t.issued[i].tx in l.heard {
      OneMoreBlock(t.chain, stop, t.issued[i].tx);
      if Named(t.chain[stop], t.issued[i].tx) {
        var k :| 0 <= k < |t.chain[stop]| && t.chain[stop][k].tx == t.issued[i].tx;
        assert t.chain[stop] == s.chain[stop];
      }
    }
    ReadyIsSafe(t, g);
  }

  lemma StartsReplaying(s: State, g: nat)
    requires Inv(s) && g < NUM_GATEWAYS && NamedBelow(s, g, Stop(s, true) + 1)
    ensures Replaying(Next(s, Restart(g, true)), g)
  {
    hide IssuedOk, Named;
  }
}

// Redeem requests (multigateway.h:569-621): the same NXT transaction seen again enqueues nothing.
module Redeems {

  datatype Withdraw = Withdraw(redeemtxid: string, sender: string, withdrawaddr: string, amount: int, twofactor: bool)

  datatype State = State(table: map<string, Withdraw>, enqueued: seq<Withdraw>)

  function Redeemed(s: State, w: Withdraw): State {
    if w.redeemtxid in s.table then s else State(s.table[w.redeemtxid := w], s.enqueued + [w])
  }

  function Run(events: seq<Withdraw>): State {
    if events == [] then State(map[], [])
    else Redeemed(Run(events[..|events| - 1]), events[|events| - 1])
  }

  predicate Earlier(events: seq<Withdraw>, n: nat, txid: string)
    requires n <= |events|
  {
    exists k :: 0 <= k < n && events[k].redeemtxid == txid
  }

  // The events that are the first of their transaction, in order.
  function Firsts(events: seq<Withdraw>): seq<Withdraw> {
    if events == [] then []
    else
      var last := |events| - 1;
      Firsts(events[..last]) + if Earlier(events, last, events[last].redeemtxid) then [] else [events[last]]
  }

  lemma EarlierInPrefix(events: seq<Withdraw>, txid: string)
    requires events != []
    ensures Earlier(events, |events| - 1, txid) <==> Earlier(events[..|events| - 1], |events| - 1, txid)
    ensures Earlier(events, |events|, txid) <==> Earlier(events, |events| - 1, txid) || events[|events| - 1].redeemtxid == txid
  {
    var last := |events| - 1;
    assert forall k :: 0 <= k < last ==> events[..last][k] == events[k];
  }

  ghost predicate NoneTwice(s: State) {
    && (forall i, j :: 0 <= i < j < |s.enqueued| ==> s.enqueued[i].redeemtxid != s.enqueued[j].redeemtxid)
    && (forall i :: 0 <= i < |s.enqueued| ==> s.enqueued[i].redeemtxid in s.table)
  }

  lemma RedeemedKeeps(s: State, w: Withdraw)
    requires NoneTwice(s)
    ensures NoneTwice(Redeemed(s, w))
  {
  }

  lemma {:induction false} TableHoldsEarlier(events: seq<Withdraw>, txid: string)
    ensures txid in Run(events).table <==> Earlier(events, |events|, txid)
  {
    if events != [] {
      TableHoldsEarlier(events[..|events| - 1], txid);
      EarlierInPrefix(events, txid);
    }
  }

  // What is enqueued over any run is each transaction's first request, once.
  lemma {:induction false} EnqueuedOnce(events: seq<Withdraw>)
    ensures Run(events).enqueued == Firsts(events) && NoneTwice(Run(events))
  {
    hide Earlier, NoneTwice;
    if events == [] {
      NoneAtStart();
    } else {
      var last := |events| - 1;
      EnqueuedOnce(events[..last]);
      RedeemedKeeps(Run(events[..last]), events[last]);
      TableHoldsEarlier(events[..last], events[last].redeemtxid);
      EarlierInPrefix(events, events[last].redeemtxid);
    }
  }

  lemma NoneAtStart()
    ensures NoneTwice(Run([]))
  {
  }
}
