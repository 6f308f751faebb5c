// What holds of the ledger after any list of transactions (NXTprotocol.c:363-472).

module LedgerRuns {
  import opened Words
  import opened LedgerSpec
  import opened Wrappers

  // ------------------------------------------------------------ quantities and lists

  // The signed sum over a list, as its account sees it.
  function Signed(list: seq<AssetTx>, addr: string): int {
    if list == [] then 0 else Signed(list[..|list| - 1], addr) + Contribution(list[|list| - 1], addr)
  }

  lemma SignedAppends(list: seq<AssetTx>, tx: AssetTx, addr: string)
    ensures Signed(list + [tx], addr) == Signed(list, addr) + Contribution(tx, addr)
  {
    assert (list + [tx])[..|list|] == list;
  }

  // A transfer to oneself is listed twice and counts for nothing, any other once.
  lemma SignedEntries(list: seq<AssetTx>, tx: AssetTx, addr: string)
    ensures Signed(list + Entries(tx, addr), addr) == Signed(list, addr) + Contribution(tx, addr)
  {
    hide Signed;
    SignedAppends(list, tx, addr);
    SignedAppends(list + [tx], tx, addr);
    assert list + [tx] + [tx] == list + ([tx] + [tx]);
    assert list + [] == list;
    assert [tx] + [] == [tx] == [] + [tx];
  }

  predicate Concerns(tx: AssetTx, addr: string, asset: U64) {
    tx.asset == asset && (tx.sender == addr || tx.receiver == addr)
  }

  // Everything held is explained by the list beside it, which holds nothing foreign.
  ghost predicate Explained(accts: seq<Acct>) {
    && (forall a, c: U64 :: Quantity(accts, a, c) == Signed(List(accts, a, c), a) % TWO_64)
    && (forall a, c: U64, k :: 0 <= k < |List(accts, a, c)| ==> Concerns(List(accts, a, c)[k], a, c))
  }

  lemma TransferExplained(accts: seq<Acct>, tx: AssetTx)
    requires Explained(accts)
    ensures Explained(Transferred(accts, tx))
  {
    hide Quantity, List, Contribution, Entries, Concerns, Signed;
    var after := Transferred(accts, tx);
    if tx.sender != "" && tx.receiver != "" {
      hide Transferred;
      forall a, c: U64 ensures Quantity(after, a, c) == Signed(List(after, a, c), a) % TWO_64 {
        QuantityExplained(accts, tx, a, c);
      }
      forall a, c: U64, k | 0 <= k < |List(after, a, c)| ensures Concerns(List(after, a, c)[k], a, c) {
        ListConcerns(accts, tx, a, c, k);
      }
    }
  }

  lemma QuantityExplained(accts: seq<Acct>, tx: AssetTx, a: string, c: U64)
    requires tx.sender != "" && tx.receiver != ""
    requires Quantity(accts, a, c) == Signed(List(accts, a, c), a) % TWO_64
    ensures var after := Transferred(accts, tx); Quantity(after, a, c) == Signed(List(after, a, c), a) % TWO_64
  {
    hide Transferred, Quantity, List, Contribution, Entries, Signed;
    TransferredHolds(accts, tx, a, c);
    SignedEntries(List(accts, a, c), tx, a);
    AddsModulo(Signed(List(accts, a, c), a), Contribution(tx, a));
  }

  lemma ListConcerns(accts: seq<Acct>, tx: AssetTx, a: string, c: U64, k: nat)
    requires tx.sender != "" && tx.receiver != "" && k < |List(Transferred(accts, tx), a, c)|
    requires forall i :: 0 <= i < |List(accts, a, c)| ==> Concerns(List(accts, a, c)[i], a, c)
    ensures Concerns(List(Transferred(accts, tx), a, c)[k], a, c)
  {
    hide Transferred, Quantity, List, Entries, Concerns;
    TransferredHolds(accts, tx, a, c);
    if k >= |List(accts, a, c)| {
      EntryConcerns(tx, a, k - |List(accts, a, c)|);
    }
  }

  lemma EntryConcerns(tx: AssetTx, a: string, k: nat)
    requires k < |Entries(tx, a)|
    ensures Concerns(Entries(tx, a)[k], a, tx.asset)
  {
  }

  // ------------------------------------------------------------------- conservation

  // What all accounts hold of an asset.
  function Total(accts: seq<Acct>, asset: U64): int {
    if accts == [] then 0
    else Total(accts[..|accts| - 1], asset) + SlotQuantity(accts[|accts| - 1].slots, asset)
  }

  lemma {:induction false} TotalAfter(accts: seq<Acct>, i: nat, a: Acct, asset: U64)
    requires i < |accts|
    ensures Total(accts[i := a], asset)
         == Total(accts, asset) - SlotQuantity(accts[i].slots, asset) + SlotQuantity(a.slots, asset)
  {
    hide SlotQuantity;
    var last, t := |accts| - 1, accts[i := a];
    if i == last {
      assert t[..last] == accts[..last];
    } else {
      assert t[..last] == accts[..last][i := a];
      TotalAfter(accts[..last], i, a, asset);
    }
  }

  lemma TotalOpened(accts: seq<Acct>, addr: string, asset: U64, c: U64)
    ensures Total(Opened(accts, addr, asset), c) == Total(accts, c)
  {
    hide SlotQuantity, WithSlot;
    var i, all := AcctIndex(accts, addr), WithAcct(accts, addr);
    OpenedSlotHolds(all[i].slots, asset, c);
    TotalAfter(all, i, all[i].(slots := WithSlot(all[i].slots, asset)), c);
    TotalWithAcct(accts, addr, c);
  }

  lemma TotalWithAcct(accts: seq<Acct>, addr: string, c: U64)
    ensures Total(WithAcct(accts, addr), c) == Total(accts, c)
  {
    if !HasAcct(accts, addr) {
      assert WithAcct(accts, addr)[..|accts|] == accts;
    }
  }

  lemma TotalAdded(accts: seq<Acct>, addr: string, asset: U64, delta: int, tx: AssetTx, c: U64)
    requires HasSlot(accts, addr, asset)
    ensures Total(Added(accts, addr, asset, delta, tx), c) % TWO_64
         == (Total(accts, c) + if c == asset then delta else 0) % TWO_64
  {
    hide SlotQuantity, Changed, Total;
    var i := AcctIndex(accts, addr);
    var slots := accts[i].slots;
    var j := SlotIndex(slots, asset);
    AddedSlotHolds(slots, asset, delta, tx, c);
    TotalAfter(accts, i, accts[i].(slots := slots[j := Changed(slots[j], delta, tx)]), c);
    Carried(Total(accts, c), SlotQuantity(slots, c), delta);
  }

  lemma Carried(total: int, x: int, delta: int)
    ensures (total - x + (x + delta) % TWO_64) % TWO_64 == (total + delta) % TWO_64
  {
    ModShift(-((x + delta) / TWO_64), total + delta);
  }

  // A transfer leaves the total of every asset as it was, modulo 2^64.
  lemma TransferConserves(accts: seq<Acct>, tx: AssetTx, c: U64)
    ensures Total(Transferred(accts, tx), c) % TWO_64 == Total(accts, c) % TWO_64
  {
    hide Total, Opened, Added, HasSlot;
    if tx.sender != "" && tx.receiver != "" {
      var q: int := tx.quantity;
      var open := BothOpened(accts, tx);
      TotalOpened(accts, tx.sender, tx.asset, c);
      TotalOpened(Opened(accts, tx.sender, tx.asset), tx.receiver, tx.asset, c);
      OpenedHasSlots(accts, tx);
      AddedHasSlot(open, tx.sender, tx.asset, -q, tx, tx.receiver);
      TotalAdded(open, tx.sender, tx.asset, -q, tx, c);
      var mid := Added(open, tx.sender, tx.asset, -q, tx);
      TotalAdded(mid, tx.receiver, tx.asset, q, tx, c);
      if c == tx.asset { GoesBack(Total(accts, c), Total(mid, c), q); }
    }
  }

  lemma GoesBack(total: int, mid: int, q: int)
    requires mid % TWO_64 == (total - q) % TWO_64
    ensures (mid + q) % TWO_64 == total % TWO_64
  {
    AddsModulo(mid, q);
    AddsModulo(total - q, q);
  }

  // ------------------------------------------------------------------ shape

  predicate SlotsDistinct(slots: seq<Slot>) {
    forall i, j :: 0 <= i < j < |slots| ==> slots[i].asset != slots[j].asset
  }

  // No account is there twice, and none lists an asset twice.
  ghost predicate Shaped(accts: seq<Acct>) {
    && (forall i, j :: 0 <= i < j < |accts| ==> accts[i].addr != accts[j].addr)
    && (forall i :: 0 <= i < |accts| ==> SlotsDistinct(accts[i].slots))
  }

  lemma WithAcctShaped(accts: seq<Acct>, addr: string)
    requires Shaped(accts)
    ensures Shaped(WithAcct(accts, addr))
  {
  }

  lemma OpenedShaped(accts: seq<Acct>, addr: string, asset: U64)
    requires Shaped(accts)
    ensures Shaped(Opened(accts, addr, asset))
  {
    hide SlotsDistinct, WithSlot, WithAcct;
    WithAcctShaped(accts, addr);
    var i, all := AcctIndex(accts, addr), WithAcct(accts, addr);
    WithSlotDistinct(all[i].slots, asset);
  }

  lemma WithSlotDistinct(slots: seq<Slot>, asset: U64)
    requires SlotsDistinct(slots)
    ensures SlotsDistinct(WithSlot(slots, asset))
  {
  }

  lemma AddedShaped(accts: seq<Acct>, addr: string, asset: U64, delta: int, tx: AssetTx)
    requires Shaped(accts) && HasSlot(accts, addr, asset)
    ensures Shaped(Added(accts, addr, asset, delta, tx))
  {
    hide Changed;
    var i := AcctIndex(accts, addr);
    assert SlotsDistinct(accts[i].slots);
  }

  lemma TransferShaped(accts: seq<Acct>, tx: AssetTx)
    requires Shaped(accts)
    ensures Shaped(Transferred(accts, tx))
  {
    hide Shaped, Opened, Added, HasSlot;
    if tx.sender != "" && tx.receiver != "" {
      var open := BothOpened(accts, tx);
      OpenedShaped(accts, tx.sender, tx.asset);
      OpenedShaped(Opened(accts, tx.sender, tx.asset), tx.receiver, tx.asset);
      OpenedHasSlots(accts, tx);
      AddedHasSlot(open, tx.sender, tx.asset, -(tx.quantity as int), tx, tx.receiver);
      AddedShaped(open, tx.sender, tx.asset, -(tx.quantity as int), tx);
      AddedShaped(Added(open, tx.sender, tx.asset, -(tx.quantity as int), tx), tx.receiver, tx.asset, tx.quantity, tx);
    }
  }

  // ------------------------------------------------------------------ transactions

  // A transaction as the node's JSON gives it. One that carries a message has no asset.
  datatype Transaction = Transaction(hash: Option<string>, txid: string, kind: int, subtype: int,
                                     sender: Option<string>, recipient: Option<string>, asset: Option<U64>, quantity: U64)

  // The tables of transaction hashes and of asset transactions, and the accounts.
  datatype State = State(guids: set<string>, txids: set<string>, accts: seq<Acct>)

  function Addr(a: Option<string>): string {
    if a.Some? then a.value else ""
  }

  // `add_NXT_acct`
  function Mentioned(accts: seq<Acct>, a: Option<string>): seq<Acct> {
    if a.Some? then WithAcct(accts, a.value) else accts
  }

  // Lines 432-459: what a new asset transaction moves. An issue comes from the genesis account.
  function Moves(t: Transaction): Option<AssetTx> {
    if t.asset.None? || t.kind != 2 then None
    else if t.subtype == 0 && Addr(t.recipient) == GENESISACCT then
      Some(AssetTx(t.txid, t.asset.value, GENESISACCT, Addr(t.sender), t.quantity))
    else if t.subtype == 1 then Some(AssetTx(t.txid, t.asset.value, Addr(t.sender), Addr(t.recipient), t.quantity))
    else None
  }

  // `process_NXTtransaction`, without its handlers.
  function Processed(s: State, t: Transaction): State {
    if t.hash.Some? && t.hash.value in s.guids then s
    else
      var accts := Mentioned(Mentioned(s.accts, t.sender), t.recipient);
      State(if t.hash.Some? then s.guids + {t.hash.value} else s.guids,
            if t.asset.Some? then s.txids + {t.txid} else s.txids,
            if t.txid !in s.txids && Moves(t).Some? then Transferred(accts, Moves(t).value) else accts)
  }

  ghost predicate Sound(accts: seq<Acct>) {
    && Shaped(accts) && Explained(accts) && forall c: U64 :: Total(accts, c) % TWO_64 == 0
  }

  lemma MentionedSound(accts: seq<Acct>, a: Option<string>)
    requires Sound(accts)
    ensures Sound(Mentioned(accts, a))
  {
    hide Shaped, Quantity, List, Total, Signed, Concerns, WithAcct;
    if a.Some? {
      WithAcctShaped(accts, a.value);
      forall c: U64 ensures Total(WithAcct(accts, a.value), c) % TWO_64 == 0 { TotalWithAcct(accts, a.value, c); }
      forall b, c: U64
        ensures Quantity(WithAcct(accts, a.value), b, c) == Quantity(accts, b, c)
        ensures List(WithAcct(accts, a.value), b, c) == List(accts, b, c)
      {
        WithAcctHolds(accts, a.value, b, c);
      }
    }
  }

  lemma WithAcctHolds(accts: seq<Acct>, addr: string, a: string, c: U64)
    ensures Quantity(WithAcct(accts, addr), a, c) == Quantity(accts, a, c)
    ensures List(WithAcct(accts, addr), a, c) == List(accts, a, c)
  {
    assert SlotIndex([], c) == 0;
    var after := WithAcct(accts, addr);
    assert forall m :: 0 <= m < |accts| ==> after[m].addr == accts[m].addr;
    if HasAcct(accts, a) {
      AcctAt(after, a, AcctIndex(accts, a));
    } else if a == addr {
      AcctAt(after, a, |accts|);
    } else {
      NoAcct(accts, after, addr, a);
    }
  }

  lemma TransferSound(accts: seq<Acct>, tx: AssetTx)
    requires Sound(accts)
    ensures Sound(Transferred(accts, tx))
  {
    hide Shaped, Explained, Total, Transferred;
    TransferShaped(accts, tx);
    TransferExplained(accts, tx);
    forall c: U64 ensures Total(Transferred(accts, tx), c) % TWO_64 == 0 { TransferConserves(accts, tx, c); }
  }

  lemma ProcessedSound(s: State, t: Transaction)
    requires Sound(s.accts)
    ensures Sound(Processed(s, t).accts)
  {
    hide Sound, Mentioned, Transferred, Moves;
    MentionedSound(s.accts, t.sender);
    MentionedSound(Mentioned(s.accts, t.sender), t.recipient);
    var accts := Mentioned(Mentioned(s.accts, t.sender), t.recipient);
    if Moves(t).Some? { TransferSound(accts, Moves(t).value); }
  }

  function Run(ts: seq<Transaction>): State {
    if ts == [] then State({}, {}, []) else Processed(Run(ts[..|ts| - 1]), ts[|ts| - 1])
  }

  lemma NothingIsSound()
    ensures Sound([])
  {
  }

  // In every reachable ledger, no account is there twice or lists an asset twice, every quantity is
  // the signed sum over the list beside it, and each asset sums to 0 over all accounts.
  lemma {:induction false} RunIsSound(ts: seq<Transaction>)
    ensures Sound(Run(ts).accts)
  {
    hide Sound, Processed;
    if ts == [] {
      NothingIsSound();
    } else {
      RunIsSound(ts[..|ts| - 1]);
      ProcessedSound(Run(ts[..|ts| - 1]), ts[|ts| - 1]);
    }
  }

  // ------------------------------------------------------- what an account ends up with

  // No earlier transaction has the hash of the `k`-th.
  predicate FreshHash(ts: seq<Transaction>, k: nat)
    requires k < |ts|
  {
    ts[k].hash.Some? ==> forall j :: 0 <= j < k ==> ts[j].hash != ts[k].hash
  }

  // It is the first of its hash, and brings an asset transaction with this id.
  predicate Brings(ts: seq<Transaction>, j: nat, txid: string)
    requires j < |ts|
  {
    FreshHash(ts, j) && ts[j].asset.Some? && ts[j].txid == txid
  }

  // Nor has it come before under another hash.
  predicate FreshId(ts: seq<Transaction>, k: nat)
    requires k < |ts|
  {
    forall j :: 0 <= j < k ==> !Brings(ts, j, ts[k].txid)
  }

  predicate Party(a: Option<string>) {
    a.Some? && a.value != ""
  }

  // What one transaction moves to an account and away from it: a transfer from its sender to its
  // recipient, an issue from the genesis account to its sender.
  function Flow(t: Transaction, a: string, c: U64): int {
    if t.asset != Some(c) || t.kind != 2 || !Party(t.sender) || !Party(t.recipient) then 0
    else if t.subtype == 1 then
      (if t.recipient == Some(a) then t.quantity as int else 0) - (if t.sender == Some(a) then t.quantity as int else 0)
    else if t.subtype == 0 && t.recipient == Some(GENESISACCT) then
      (if t.sender == Some(a) then t.quantity as int else 0) - (if a == GENESISACCT then t.quantity as int else 0)
    else 0
  }

  // The sum over the transactions that are new when they come.
  function Net(ts: seq<Transaction>, a: string, c: U64): int {
    if ts == [] then 0
    else
      var last := |ts| - 1;
      Net(ts[..last], a, c) + if FreshHash(ts, last) && FreshId(ts, last) then Flow(ts[last], a, c) else 0
  }

  // The tables hold the hashes and the ids of what was processed.
  lemma {:induction false} HashesOfRun(ts: seq<Transaction>)
    ensures forall h :: h in Run(ts).guids <==> exists j :: 0 <= j < |ts| && ts[j].hash == Some(h)
  {
    if ts != [] {
      var last := |ts| - 1;
      var p := ts[..last];
      HashesOfRun(p);
      HashesAfter(Run(p), ts[last]);
      hide Processed;
      forall h ensures h in Run(ts).guids <==> exists j :: 0 <= j < |ts| && ts[j].hash == Some(h) {
        if h in Run(p).guids {
          var j :| 0 <= j < last && p[j].hash == Some(h);
          assert ts[j].hash == Some(h);
        } else {
          assert forall j :: 0 <= j < last ==> p[j] == ts[j];
          assert ts[last].hash == Some(h) <==> h in Run(ts).guids;
        }
      }
    }
  }

  lemma HashesAfter(s: State, t: Transaction)
    ensures Processed(s, t).guids == s.guids + if t.hash.Some? then {t.hash.value} else {}
    ensures Processed(s, t).txids == s.txids + if t.asset.Some? && !(t.hash.Some? && t.hash.value in s.guids) then {t.txid} else {}
  {
    hide Mentioned, Moves, Transferred;
  }

  lemma BringsBefore(ts: seq<Transaction>, j: nat, txid: string)
    requires j < |ts| - 1
    ensures Brings(ts[..|ts| - 1], j, txid) == Brings(ts, j, txid)
  {
    var p := ts[..|ts| - 1];
    assert forall i :: 0 <= i < |p| ==> p[i] == ts[i];
  }

  lemma {:induction false} IdsOfRun(ts: seq<Transaction>, txid: string)
    ensures txid in Run(ts).txids <==> exists j :: 0 <= j < |ts| && Brings(ts, j, txid)
  {
    if ts != [] {
      var last := |ts| - 1;
      var p := ts[..last];
      IdsOfRun(p, txid);
      HashesOfRun(p);
      FreshOrKnown(ts);
      HashesAfter(Run(p), ts[last]);
      forall j | 0 <= j < last ensures Brings(p, j, txid) == Brings(ts, j, txid) { BringsBefore(ts, j, txid); }
      hide Processed, Brings;
      assert Run(ts) == Processed(Run(p), ts[last]);
      LastBrings(ts, txid);
    }
  }

  lemma LastBrings(ts: seq<Transaction>, txid: string)
    requires ts != []
    ensures var last := |ts| - 1;
            Brings(ts, last, txid) <==> FreshHash(ts, last) && ts[last].asset.Some? && ts[last].txid == txid
  {
  }

  lemma FreshOrKnown(ts: seq<Transaction>)
    requires ts != []
    requires var p := ts[..|ts| - 1]; forall h :: h in Run(p).guids <==> exists j :: 0 <= j < |p| && p[j].hash == Some(h)
    ensures var last := |ts| - 1;
            FreshHash(ts, last) <==> !(ts[last].hash.Some? && ts[last].hash.value in Run(ts[..last]).guids)
  {
    hide Run;
    var last := |ts| - 1;
    assert forall j :: 0 <= j < last ==> ts[..last][j] == ts[j];
  }

  // After any transactions, what an account holds of an asset is what came to it less what went away
  // by the transfers and issues that were new, modulo 2^64.
  lemma {:induction false} HoldsNet(ts: seq<Transaction>, a: string, c: U64)
    ensures Quantity(Run(ts).accts, a, c) == Net(ts, a, c) % TWO_64
  {
    hide *;
    if ts == [] {
      NothingHeld(a, c);
    } else {
      var last := |ts| - 1;
      HoldsNet(ts[..last], a, c);
      HoldsNext(ts, a, c);
      NetNext(ts, a, c);
      Accumulates(Quantity(Run(ts[..last]).accts, a, c), Net(ts[..last], a, c), Flow(ts[last], a, c),
                  FreshHash(ts, last) && FreshId(ts, last), Quantity(Run(ts).accts, a, c), Net(ts, a, c));
    }
  }

  lemma HoldsNext(ts: seq<Transaction>, a: string, c: U64)
    requires ts != []
    ensures var last := |ts| - 1;
            var q := Quantity(Run(ts[..last]).accts, a, c);
            Quantity(Run(ts).accts, a, c)
            == if FreshHash(ts, last) && FreshId(ts, last) then (q + Flow(ts[last], a, c)) % TWO_64 else q
  {
    hide *;
    var last := |ts| - 1;
    RunNext(ts);
    NewIsProcessed(ts);
    ProcessedHolds(Run(ts[..last]), ts[last], a, c);
  }

  lemma RunNext(ts: seq<Transaction>)
    requires ts != []
    ensures Run(ts) == Processed(Run(ts[..|ts| - 1]), ts[|ts| - 1])
  {
    hide Processed;
  }

  lemma Accumulates(q: U64, n: int, f: int, counts: bool, r: U64, m: int)
    requires q == n % TWO_64 && r == (if counts then (q + f) % TWO_64 else q) && m == n + if counts then f else 0
    ensures r == m % TWO_64
  {
    AddsModulo(n, f);
  }

  lemma NetNext(ts: seq<Transaction>, a: string, c: U64)
    requires ts != []
    ensures var last := |ts| - 1;
            Net(ts, a, c) == Net(ts[..last], a, c) + if FreshHash(ts, last) && FreshId(ts, last) then Flow(ts[last], a, c) else 0
  {
    hide Flow, FreshHash, FreshId;
  }

  // The tables tell what is new.
  lemma NewIsProcessed(ts: seq<Transaction>)
    requires ts != []
    ensures var last := |ts| - 1;
            var s, t := Run(ts[..last]), ts[last];
            FreshHash(ts, last) && FreshId(ts, last) <==> !(t.hash.Some? && t.hash.value in s.guids) && t.txid !in s.txids
  {
    hide Run, FreshHash, FreshId;
    HashesOfRun(ts[..|ts| - 1]);
    FreshOrKnown(ts);
    FreshIdIsNew(ts);
  }

  lemma FreshIdIsNew(ts: seq<Transaction>)
    requires ts != []
    ensures FreshId(ts, |ts| - 1) <==> ts[|ts| - 1].txid !in Run(ts[..|ts| - 1]).txids
  {
    var last := |ts| - 1;
    var p, txid := ts[..last], ts[last].txid;
    IdsOfRun(p, txid);
    hide Run;
    forall j | 0 <= j < last ensures Brings(p, j, txid) == Brings(ts, j, txid) { BringsBefore(ts, j, txid); }
    hide FreshHash;
  }

  lemma NothingHeld(a: string, c: U64)
    ensures Quantity(Run([]).accts, a, c) == 0 == Net([], a, c) % TWO_64
  {
  }

  // One transaction, in its own fields.
  lemma ProcessedHolds(s: State, t: Transaction, a: string, c: U64)
    ensures Quantity(Processed(s, t).accts, a, c)
         == if !(t.hash.Some? && t.hash.value in s.guids) && t.txid !in s.txids
            then (Quantity(s.accts, a, c) + Flow(t, a, c)) % TWO_64 else Quantity(s.accts, a, c)
  {
    hide Quantity, List, Transferred;
    var one := Mentioned(s.accts, t.sender);
    var two := Mentioned(one, t.recipient);
    if t.sender.Some? { WithAcctHolds(s.accts, t.sender.value, a, c); }
    if t.recipient.Some? { WithAcctHolds(one, t.recipient.value, a, c); }
    if Moves(t).Some? {
      var tx := Moves(t).value;
      if tx.sender != "" && tx.receiver != "" {
        TransferredHolds(two, tx, a, c);
      } else {
        NothingMoves(two, tx);
      }
    }
  }

  lemma NothingMoves(accts: seq<Acct>, tx: AssetTx)
    requires tx.sender == "" || tx.receiver == ""
    ensures Transferred(accts, tx) == accts
  {
  }

  // ------------------------------------------------------------------------- repeats

  // What processing a transaction leaves behind to recognise it by.
  predicate Recognised(s: State, t: Transaction) {
    if t.hash.Some? then t.hash.value in s.guids
    else
      && (t.sender.Some? ==> HasAcct(s.accts, t.sender.value)) && (t.recipient.Some? ==> HasAcct(s.accts, t.recipient.value))
      && (t.asset.Some? ==> t.txid in s.txids)
  }

  lemma RecognisedIsIgnored(s: State, t: Transaction)
    requires Recognised(s, t)
    ensures Processed(s, t) == s
  {
    hide HasAcct, Transferred;
    if t.hash.None? {
      if t.sender.Some? { KnownAcct(s.accts, t.sender.value); }
      if t.recipient.Some? { KnownAcct(s.accts, t.recipient.value); }
      assert t.asset.Some? ==> s.txids + {t.txid} == s.txids;
    }
  }

  lemma KnownAcct(accts: seq<Acct>, addr: string)
    requires HasAcct(accts, addr)
    ensures WithAcct(accts, addr) == accts
  {
  }

  // Accounts do not go away.
  lemma KeepsAccts(s: State, t: Transaction, addr: string)
    requires HasAcct(s.accts, addr)
    ensures HasAcct(Processed(s, t).accts, addr)
  {
    hide HasAcct, Opened, Added, WithAcct;
    if t.sender.Some? { WithAcctKeeps(s.accts, t.sender.value, addr); }
    var one := Mentioned(s.accts, t.sender);
    if t.recipient.Some? { WithAcctKeeps(one, t.recipient.value, addr); }
    var two := Mentioned(one, t.recipient);
    if Moves(t).Some? { TransferKeepsAccts(two, Moves(t).value, addr); }
  }

  lemma WithAcctKeeps(accts: seq<Acct>, addr: string, a: string)
    ensures HasAcct(accts, a) || a == addr ==> HasAcct(WithAcct(accts, addr), a)
  {
    var after := WithAcct(accts, addr);
    if HasAcct(accts, a) {
      AcctAt(after, a, AcctIndex(accts, a));
    } else if a == addr {
      AcctAt(after, a, |accts|);
    }
  }

  lemma TransferKeepsAccts(accts: seq<Acct>, tx: AssetTx, addr: string)
    requires HasAcct(accts, addr)
    ensures HasAcct(Transferred(accts, tx), addr)
  {
    hide HasAcct, Opened, Added, HasSlot;
    if tx.sender != "" && tx.receiver != "" {
      var q := -(tx.quantity as int);
      var first, open := Opened(accts, tx.sender, tx.asset), BothOpened(accts, tx);
      OpenedKeeps(accts, tx.sender, tx.asset, addr, 0);
      OpenedKeeps(first, tx.receiver, tx.asset, addr, 0);
      OpenedHasSlots(accts, tx);
      AddedHasSlot(open, tx.sender, tx.asset, q, tx, tx.receiver);
      AddedKeepsAcct(open, tx.sender, tx.asset, q, tx, addr);
      AddedKeepsAcct(Added(open, tx.sender, tx.asset, q, tx), tx.receiver, tx.asset, tx.quantity, tx, addr);
    }
  }

  lemma AddedKeepsAcct(accts: seq<Acct>, addr: string, asset: U64, delta: int, tx: AssetTx, a: string)
    requires HasSlot(accts, addr, asset) && HasAcct(accts, a)
    ensures HasAcct(Added(accts, addr, asset, delta, tx), a)
  {
    hide Changed;
    AcctAt(Added(accts, addr, asset, delta, tx), a, AcctIndex(accts, a));
  }

  lemma StaysRecognised(s: State, t: Transaction, u: Transaction)
    requires Recognised(s, t)
    ensures Recognised(Processed(s, u), t)
  {
    hide HasAcct, Transferred, Mentioned, Moves;
    if t.hash.None? {
      if t.sender.Some? { KeepsAccts(s, u, t.sender.value); }
      if t.recipient.Some? { KeepsAccts(s, u, t.recipient.value); }
    }
  }

  lemma ProcessedIsRecognised(s: State, t: Transaction)
    ensures Recognised(Processed(s, t), t)
  {
    hide HasAcct, Transferred, WithAcct, Moves;
    if t.hash.None? {
      var one := Mentioned(s.accts, t.sender);
      var two := Mentioned(one, t.recipient);
      if t.sender.Some? {
        WithAcctKeeps(s.accts, t.sender.value, t.sender.value);
        if t.recipient.Some? { WithAcctKeeps(one, t.recipient.value, t.sender.value); }
        if Moves(t).Some? { TransferKeepsAccts(two, Moves(t).value, t.sender.value); }
      }
      if t.recipient.Some? {
        WithAcctKeeps(one, t.recipient.value, t.recipient.value);
        if Moves(t).Some? { TransferKeepsAccts(two, Moves(t).value, t.recipient.value); }
      }
    }
  }

  lemma {:induction false} SeenIsRecognised(ts: seq<Transaction>, t: Transaction)
    requires t in ts
    ensures Recognised(Run(ts), t)
  {
    hide Recognised, Processed;
    var last := |ts| - 1;
    if ts[last] == t {
      ProcessedIsRecognised(Run(ts[..last]), t);
    } else {
      assert t in ts[..last];
      SeenIsRecognised(ts[..last], t);
      StaysRecognised(Run(ts[..last]), t, ts[last]);
    }
  }

  // The first occurrences, in order.
  function Deduplicated(ts: seq<Transaction>): seq<Transaction> {
    if ts == [] then []
    else
      var last := |ts| - 1;
      Deduplicated(ts[..last]) + if ts[last] in ts[..last] then [] else [ts[last]]
  }

  // Repeats change nothing at all.
  lemma {:induction false} RepeatsAreIgnored(ts: seq<Transaction>)
    ensures Run(ts) == Run(Deduplicated(ts))
  {
    hide Processed;
    if ts != [] {
      var last := |ts| - 1;
      RepeatsAreIgnored(ts[..last]);
      if ts[last] in ts[..last] {
        SeenIsRecognised(ts[..last], ts[last]);
        RecognisedIsIgnored(Run(ts[..last]), ts[last]);
        assert Deduplicated(ts) == Deduplicated(ts[..last]);
      } else {
        var d := Deduplicated(ts[..last]);
        assert (d + [ts[last]])[..|d|] == d;
      }
    }
  }

  // Nor does a transaction whose hash was seen on another one.
  lemma SameHashIsIgnored(ts: seq<Transaction>, t: Transaction, u: Transaction)
    requires t in ts && t.hash.Some? && u.hash == t.hash
    ensures Run(ts + [u]) == Run(ts)
  {
    hide Processed;
    SeenIsRecognised(ts, t);
    RecognisedIsIgnored(Run(ts), u);
    assert (ts + [u])[..|ts|] == ts;
  }
}
