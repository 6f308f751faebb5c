// The asset ledger (NXTprotocol.c:10-34, 75-116, 334-460) as values: what every transaction keeps.
// Quantities are numbers modulo 2^64. Asset ids stand for their canonical text.

module LedgerSpec {
  import opened Words

  const GENESISACCT := "1739068987193023818"

  // What an account's list keeps of a transaction.
  datatype AssetTx = AssetTx(txid: string, asset: U64, sender: string, receiver: string, quantity: U64)

  // The three parallel arrays of an account, entry by entry.
  datatype Slot = Slot(asset: U64, quantity: U64, txlist: seq<AssetTx>)

  datatype Acct = Acct(addr: string, slots: seq<Slot>)

  // ------------------------------------------------------------------ finding

  function SlotIndex(slots: seq<Slot>, asset: U64): (i: nat)
    ensures i <= |slots| && (i < |slots| ==> slots[i].asset == asset)
    ensures forall k :: 0 <= k < i ==> slots[k].asset != asset
  {
    if slots == [] || slots[0].asset == asset then 0 else 1 + SlotIndex(slots[1..], asset)
  }

  function AcctIndex(accts: seq<Acct>, addr: string): (i: nat)
    ensures i <= |accts| && (i < |accts| ==> accts[i].addr == addr)
    ensures forall k :: 0 <= k < i ==> accts[k].addr != addr
  {
    if accts == [] || accts[0].addr == addr then 0 else 1 + AcctIndex(accts[1..], addr)
  }

  predicate HasAcct(accts: seq<Acct>, addr: string) {
    AcctIndex(accts, addr) < |accts|
  }

  predicate HasSlot(accts: seq<Acct>, addr: string, asset: U64) {
    var i := AcctIndex(accts, addr);
    i < |accts| && SlotIndex(accts[i].slots, asset) < |accts[i].slots|
  }

  // ------------------------------------------------------------------ operations

  // `get_NXTacct`: an account that is not there is added.
  function WithAcct(accts: seq<Acct>, addr: string): (r: seq<Acct>)
    ensures |accts| <= |r| && AcctIndex(accts, addr) < |r| && r[AcctIndex(accts, addr)].addr == addr
  {
    if HasAcct(accts, addr) then accts else accts + [Acct(addr, [])]
  }

  // `get_asset_in_acct` with `createflag`: an asset that is not there is added, with nothing.
  function WithSlot(slots: seq<Slot>, asset: U64): (r: seq<Slot>)
    ensures SlotIndex(slots, asset) < |r| && r[SlotIndex(slots, asset)].asset == asset
  {
    if SlotIndex(slots, asset) < |slots| then slots else slots + [Slot(asset, 0, [])]
  }

  function Opened(accts: seq<Acct>, addr: string, asset: U64): seq<Acct> {
    var i, all := AcctIndex(accts, addr), WithAcct(accts, addr);
    all[i := all[i].(slots := WithSlot(all[i].slots, asset))]
  }

  function Changed(s: Slot, delta: int, tx: AssetTx): (r: Slot)
    ensures r.asset == s.asset
  {
    s.(quantity := (s.quantity + delta) % TWO_64, txlist := s.txlist + [tx])
  }

  // One account's quantity changes, and its list gets the transaction.
  function Added(accts: seq<Acct>, addr: string, asset: U64, delta: int, tx: AssetTx): seq<Acct>
    requires HasSlot(accts, addr, asset)
  {
    var i := AcctIndex(accts, addr);
    var j := SlotIndex(accts[i].slots, asset);
    accts[i := accts[i].(slots := accts[i].slots[j := Changed(accts[i].slots[j], delta, tx)])]
  }

  function BothOpened(accts: seq<Acct>, tx: AssetTx): seq<Acct> {
    Opened(Opened(accts, tx.sender, tx.asset), tx.receiver, tx.asset)
  }

  // `transfer_asset_balance`. Both sides are opened before either changes.
  function Transferred(accts: seq<Acct>, tx: AssetTx): seq<Acct> {
    if tx.sender == "" || tx.receiver == "" then accts
    else
      var open := BothOpened(accts, tx);
      OpenedHasSlots(accts, tx);
      AddedHasSlot(open, tx.sender, tx.asset, -(tx.quantity as int), tx, tx.receiver);
      Added(Added(open, tx.sender, tx.asset, -(tx.quantity as int), tx), tx.receiver, tx.asset, tx.quantity, tx)
  }

  // ----------------------------------------------------------- where things are found

  lemma {:induction false} SlotAt(slots: seq<Slot>, asset: U64, i: nat)
    requires i < |slots| && slots[i].asset == asset && forall k :: 0 <= k < i ==> slots[k].asset != asset
    ensures SlotIndex(slots, asset) == i
  {
  }

  lemma AcctAt(accts: seq<Acct>, addr: string, i: nat)
    requires i < |accts| && accts[i].addr == addr && forall k :: 0 <= k < i ==> accts[k].addr != addr
    ensures AcctIndex(accts, addr) == i
  {
  }

  // Opening a slot keeps all that is found where it is.
  lemma OpenedKeeps(accts: seq<Acct>, addr: string, asset: U64, a: string, c: U64)
    ensures HasSlot(Opened(accts, addr, asset), addr, asset)
    ensures HasSlot(accts, a, c) ==> HasSlot(Opened(accts, addr, asset), a, c)
    ensures HasAcct(accts, a) ==> HasAcct(Opened(accts, addr, asset), a)
  {
    var i, all := AcctIndex(accts, addr), WithAcct(accts, addr);
    var after := Opened(accts, addr, asset);
    AcctAt(after, addr, i);
    SlotAt(after[i].slots, asset, SlotIndex(all[i].slots, asset));
    if HasAcct(accts, a) {
      var k := AcctIndex(accts, a);
      assert forall m :: 0 <= m < |accts| ==> after[m].addr == accts[m].addr;
      AcctAt(after, a, k);
      if HasSlot(accts, a, c) {
        SlotAt(after[k].slots, c, SlotIndex(accts[k].slots, c));
      }
    }
  }

  lemma OpenedHasSlots(accts: seq<Acct>, tx: AssetTx)
    ensures HasSlot(BothOpened(accts, tx), tx.sender, tx.asset) && HasSlot(BothOpened(accts, tx), tx.receiver, tx.asset)
  {
    hide Opened, HasSlot;
    OpenedKeeps(accts, tx.sender, tx.asset, tx.sender, tx.asset);
    OpenedKeeps(Opened(accts, tx.sender, tx.asset), tx.receiver, tx.asset, tx.sender, tx.asset);
  }

  lemma AddedHasSlot(accts: seq<Acct>, addr: string, asset: U64, delta: int, tx: AssetTx, a: string)
    requires HasSlot(accts, addr, asset) && HasSlot(accts, a, asset)
    ensures HasSlot(Added(accts, addr, asset, delta, tx), a, asset)
  {
    hide Changed;
    var after, k := Added(accts, addr, asset, delta, tx), AcctIndex(accts, a);
    assert forall m :: 0 <= m < |accts| ==> after[m].addr == accts[m].addr;
    AcctAt(after, a, k);
    SlotAt(after[k].slots, asset, SlotIndex(accts[k].slots, asset));
  }

  // ------------------------------------------------------------------ what is held

  function SlotQuantity(slots: seq<Slot>, asset: U64): U64 {
    var j := SlotIndex(slots, asset);
    if j < |slots| then slots[j].quantity else 0
  }

  function SlotList(slots: seq<Slot>, asset: U64): seq<AssetTx> {
    var j := SlotIndex(slots, asset);
    if j < |slots| then slots[j].txlist else []
  }

  function Slots(accts: seq<Acct>, addr: string): seq<Slot> {
    var i := AcctIndex(accts, addr);
    if i < |accts| then accts[i].slots else []
  }

  function Quantity(accts: seq<Acct>, addr: string, asset: U64): U64 {
    SlotQuantity(Slots(accts, addr), asset)
  }

  function List(accts: seq<Acct>, addr: string, asset: U64): seq<AssetTx> {
    SlotList(Slots(accts, addr), asset)
  }

  // Opening changes what is held nowhere.
  lemma OpenedHolds(accts: seq<Acct>, addr: string, asset: U64, a: string, c: U64)
    ensures Quantity(Opened(accts, addr, asset), a, c) == Quantity(accts, a, c)
    ensures List(Opened(accts, addr, asset), a, c) == List(accts, a, c)
  {
    SlotsOfOpened(accts, addr, asset, a);
    OpenedSlotHolds(Slots(accts, addr), asset, c);
  }

  lemma SlotsOfOpened(accts: seq<Acct>, addr: string, asset: U64, a: string)
    ensures Slots(Opened(accts, addr, asset), a) == if a == addr then WithSlot(Slots(accts, addr), asset) else Slots(accts, a)
  {
    hide WithSlot;
    var i, after := AcctIndex(accts, addr), Opened(accts, addr, asset);
    assert forall m :: 0 <= m < |accts| ==> after[m].addr == accts[m].addr;
    if a == addr {
      AcctAt(after, addr, i);
    } else if HasAcct(accts, a) {
      AcctAt(after, a, AcctIndex(accts, a));
    } else {
      NoAcct(accts, after, addr, a);
    }
  }

  lemma NoAcct(accts: seq<Acct>, after: seq<Acct>, addr: string, a: string)
    requires !HasAcct(accts, a) && a != addr && |accts| <= |after|
    requires forall m :: 0 <= m < |accts| ==> after[m].addr == accts[m].addr
    requires forall m :: |accts| <= m < |after| ==> after[m].addr == addr
    ensures !HasAcct(after, a)
  {
  }

  lemma OpenedSlotHolds(slots: seq<Slot>, asset: U64, c: U64)
    ensures SlotQuantity(WithSlot(slots, asset), c) == SlotQuantity(slots, c)
    ensures SlotList(WithSlot(slots, asset), c) == SlotList(slots, c)
  {
    var after := WithSlot(slots, asset);
    if SlotIndex(slots, c) < |slots| {
      SlotAt(after, c, SlotIndex(slots, c));
    } else if c == asset {
      SlotAt(after, c, |slots|);
    } else {
      NoSlot(slots, after, asset, c);
    }
  }

  lemma NoSlot(slots: seq<Slot>, after: seq<Slot>, asset: U64, c: U64)
    requires SlotIndex(slots, c) == |slots| && c != asset && |slots| <= |after|
    requires forall m :: 0 <= m < |slots| ==> after[m].asset == slots[m].asset
    requires forall m :: |slots| <= m < |after| ==> after[m].asset == asset
    ensures SlotIndex(after, c) == |after|
  {
  }

  // A change is seen in one place only.
  lemma AddedHolds(accts: seq<Acct>, addr: string, asset: U64, delta: int, tx: AssetTx, a: string, c: U64)
    requires HasSlot(accts, addr, asset)
    ensures var here := a == addr && c == asset;
            && Quantity(Added(accts, addr, asset, delta, tx), a, c)
               == (if here then (Quantity(accts, a, c) + delta) % TWO_64 else Quantity(accts, a, c))
            && List(Added(accts, addr, asset, delta, tx), a, c)
               == (if here then List(accts, a, c) + [tx] else List(accts, a, c))
  {
    var i, after := AcctIndex(accts, addr), Added(accts, addr, asset, delta, tx);
    assert forall m :: 0 <= m < |accts| ==> after[m].addr == accts[m].addr;
    if HasAcct(accts, a) {
      AcctAt(after, a, AcctIndex(accts, a));
    } else {
      NoAcct(accts, after, addr, a);
    }
    AddedSlotHolds(accts[i].slots, asset, delta, tx, c);
  }

  lemma AddedSlotHolds(slots: seq<Slot>, asset: U64, delta: int, tx: AssetTx, c: U64)
    requires SlotIndex(slots, asset) < |slots|
    ensures var j := SlotIndex(slots, asset);
            var after := slots[j := Changed(slots[j], delta, tx)];
            && SlotQuantity(after, c) == (if c == asset then (SlotQuantity(slots, c) + delta) % TWO_64 else SlotQuantity(slots, c))
            && SlotList(after, c) == (if c == asset then SlotList(slots, c) + [tx] else SlotList(slots, c))
  {
    var j := SlotIndex(slots, asset);
    var after := slots[j := Changed(slots[j], delta, tx)];
    if SlotIndex(slots, c) < |slots| {
      SlotAt(after, c, SlotIndex(slots, c));
    } else {
      NoSlot(slots, after, asset, c);
    }
  }

  // What a transaction adds to an account, and how often its list gets it.
  function Contribution(tx: AssetTx, addr: string): int {
    (if tx.receiver == addr then tx.quantity else 0) - (if tx.sender == addr then tx.quantity else 0)
  }

  function Entries(tx: AssetTx, addr: string): (r: seq<AssetTx>)
    ensures |r| <= 2
  {
    (if tx.sender == addr then [tx] else []) + (if tx.receiver == addr then [tx] else [])
  }

  // What is held after a transfer, everywhere; a transfer to oneself changes no quantity.
  lemma TransferredHolds(accts: seq<Acct>, tx: AssetTx, a: string, c: U64)
    requires tx.sender != "" && tx.receiver != ""
    ensures Quantity(Transferred(accts, tx), a, c)
         == (if c == tx.asset then (Quantity(accts, a, c) + Contribution(tx, a)) % TWO_64 else Quantity(accts, a, c))
    ensures List(Transferred(accts, tx), a, c)
         == (if c == tx.asset then List(accts, a, c) + Entries(tx, a) else List(accts, a, c))
  {
    hide Quantity, List, Opened, Added, HasSlot;
    var q: int := tx.quantity;
    var first, open := Opened(accts, tx.sender, tx.asset), BothOpened(accts, tx);
    OpenedHolds(accts, tx.sender, tx.asset, a, c);
    OpenedHolds(first, tx.receiver, tx.asset, a, c);
    OpenedHasSlots(accts, tx);
    AddedHasSlot(open, tx.sender, tx.asset, -q, tx, tx.receiver);
    AddedHolds(open, tx.sender, tx.asset, -q, tx, a, c);
    var mid := Added(open, tx.sender, tx.asset, -q, tx);
    AddedHolds(mid, tx.receiver, tx.asset, q, tx, a, c);
    AddBack(Quantity(accts, a, c), q);
  }

  lemma AddBack(x: U64, q: int)
    ensures ((x - q) % TWO_64 + q) % TWO_64 == x && x % TWO_64 == x
  {
    var low := (x - q) % TWO_64;
    assert low == x - q - (x - q) / TWO_64 * TWO_64;
    ModShift(-((x - q) / TWO_64), x);
  }
}
