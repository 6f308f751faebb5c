// The ledger as the program keeps it: accounts with three parallel arrays, updated in place. The
// two sides of a transfer may be one and the same account.

module Ledger {
  import opened Words
  import opened LedgerSpec
  import opened LedgerRuns
  import opened Wrappers

  class NxtAcct {
    const addr: string
    var assets: seq<U64>
    var quantities: seq<U64>
    var txlists: seq<seq<AssetTx>>

    ghost predicate Valid()
      reads this
    {
      |assets| == |quantities| == |txlists|
    }

    ghost function View(): (a: Acct)
      requires Valid()
      reads this
      ensures a.addr == addr && |a.slots| == |assets|
    {
      Acct(addr, seq(|assets|, (i: nat) requires i < |assets| && Valid() reads this => Slot(assets[i], quantities[i], txlists[i])))
    }

    constructor (addr: string)
      ensures Valid() && View() == Acct(addr, [])
    {
      this.addr := addr;
      assets, quantities, txlists := [], [], [];
    }

    // `get_asset_in_acct`; -1 when the asset is not there and is not to be added.
    method GetAssetInAcct(assetbits: U64, create: bool) returns (ind: int)
      requires Valid()
      modifies this
      ensures Valid()
      ensures View() == if create then old(View()).(slots := WithSlot(old(View()).slots, assetbits)) else old(View())
      ensures var j := SlotIndex(old(View()).slots, assetbits);
              ind == if create || j < |old(View()).slots| then j else -1
    {
      ind := 0;
      while ind < |assets|
        invariant 0 <= ind <= |assets| && forall k :: 0 <= k < ind ==> View().slots[k].asset != assetbits
      {
        if assets[ind] == assetbits {
          SlotAt(View().slots, assetbits, ind);
          return;
        }
        assert View().slots[ind].asset == assets[ind];
        ind := ind + 1;
      }
      if !create {
        return -1;
      }
      ghost var before := View();
      assets, quantities, txlists := assets + [assetbits], quantities + [0], txlists + [[]];
      assert View().slots == before.slots + [Slot(assetbits, 0, [])];
    }

    // `quantities[ind] += delta`, and `addto_account_txlist`.
    method Change(ind: nat, delta: int, tp: AssetTx)
      requires Valid() && ind < |assets|
      modifies this
      ensures Valid() && ind < |old(View()).slots|
      ensures View() == old(View()).(slots := old(View()).slots[ind := Changed(old(View()).slots[ind], delta, tp)])
    {
      ghost var before := View();
      quantities := quantities[ind := (quantities[ind] + delta) % TWO_64];
      txlists := txlists[ind := txlists[ind] + [tp]];
      assert View().slots == before.slots[ind := Changed(before.slots[ind], delta, tp)];
    }
  }

  ghost function Views(accts: seq<NxtAcct>): (r: seq<Acct>)
    requires forall i :: 0 <= i < |accts| ==> accts[i].Valid()
    reads accts
    ensures |r| == |accts| && forall i :: 0 <= i < |accts| ==> r[i] == accts[i].View()
  {
    if accts == [] then [] else Views(accts[..|accts| - 1]) + [accts[|accts| - 1].View()]
  }

  // Where an account and its entry for an asset are found.
  predicate PlaceOf(accts: seq<Acct>, addr: string, asset: U64, i: nat, ind: nat) {
    i == AcctIndex(accts, addr) < |accts| && ind == SlotIndex(accts[i].slots, asset) < |accts[i].slots|
  }

  lemma PlaceIsSlot(accts: seq<Acct>, addr: string, asset: U64, i: nat, ind: nat)
    requires PlaceOf(accts, addr, asset, i, ind)
    ensures HasSlot(accts, addr, asset) && i < |accts| && ind < |accts[i].slots|
  {
  }

  // Opening another place leaves a place where it was.
  lemma SamePlace(accts: seq<Acct>, addr: string, asset: U64, a: string, c: U64, i: nat, ind: nat)
    requires PlaceOf(accts, a, c, i, ind)
    ensures PlaceOf(Opened(accts, addr, asset), a, c, i, ind)
  {
    var after := Opened(accts, addr, asset);
    assert forall m :: 0 <= m < |accts| ==> after[m].addr == accts[m].addr;
    AcctAt(after, a, i);
    SlotAt(after[i].slots, c, ind);
  }

  class NxtLedger {
    var accts: seq<NxtAcct>

    ghost predicate Valid()
      reads this, accts
    {
      && (forall i :: 0 <= i < |accts| ==> accts[i].Valid())
      && (forall i, j :: 0 <= i < j < |accts| ==> accts[i] != accts[j])
    }

    ghost function View(): seq<Acct>
      requires Valid()
      reads this, accts
    {
      Views(accts)
    }

    constructor ()
      ensures Valid() && View() == []
    {
      accts := [];
    }

    method FindAcct(addr: string) returns (j: nat)
      requires Valid()
      ensures j == AcctIndex(View(), addr) <= |accts|
    {
      j := 0;
      while j < |accts|
        invariant 0 <= j <= |accts| && forall k :: 0 <= k < j ==> View()[k].addr != addr
      {
        assert View()[j].addr == accts[j].addr;
        if accts[j].addr == addr {
          AcctAt(View(), addr, j);
          return;
        }
        j := j + 1;
      }
      NoSuchAcct(View(), addr);
    }

    // `get_NXTacct`, which is not part of this model beyond what it finds or adds.
    method GetNxtAcct(addr: string) returns (np: NxtAcct, ghost i: nat)
      requires Valid()
      modifies this`accts
      ensures Valid() && View() == WithAcct(old(View()), addr)
      ensures i == AcctIndex(old(View()), addr) < |accts| && np == accts[i]
      ensures old(accts) <= accts && forall k :: |old(accts)| <= k < |accts| ==> fresh(accts[k])
    {
      hide AcctIndex;
      var j := FindAcct(addr);
      i := j;
      if j < |accts| {
        np := accts[j];
      } else {
        ghost var before := View();
        np := new NxtAcct(addr);
        accts := accts + [np];
        assert View() == before + [Acct(addr, [])];
      }
    }

    // A place for an asset in one account.
    method OpenSlot(np: NxtAcct, ghost i: nat, assetbits: U64) returns (ind: nat)
      requires Valid() && i < |accts| && np == accts[i]
      modifies np
      ensures Valid() && ind == SlotIndex(old(View())[i].slots, assetbits)
      ensures View() == old(View())[i := old(View())[i].(slots := WithSlot(old(View())[i].slots, assetbits))]
    {
      hide WithSlot, SlotIndex;
      ind := np.GetAssetInAcct(assetbits, true);
    }

    // An account and its place for an asset, both there from now on.
    method Open(addr: string, assetbits: U64) returns (np: NxtAcct, ind: nat, ghost i: nat)
      requires Valid()
      modifies this, accts
      ensures Valid() && View() == Opened(old(View()), addr, assetbits)
      ensures i < |accts| && np == accts[i] && np.addr == addr && PlaceOf(View(), addr, assetbits, i, ind)
      ensures old(accts) <= accts && forall k :: |old(accts)| <= k < |accts| ==> fresh(accts[k])
    {
      ghost var before := View();
      np, i := GetNxtAcct(addr);
      ind := OpenSlot(np, i, assetbits);
      OpenedPlace(before, addr, assetbits);
    }

    // One quantity changes, and one list grows.
    method Book(np: NxtAcct, ghost i: nat, ind: nat, delta: int, tp: AssetTx)
      requires Valid() && i < |accts| && np == accts[i] && PlaceOf(View(), np.addr, tp.asset, i, ind)
      modifies np
      ensures Valid() && HasSlot(old(View()), np.addr, tp.asset) && View() == Added(old(View()), np.addr, tp.asset, delta, tp)
    {
      hide Changed, SlotIndex, AcctIndex;
      np.Change(ind, delta, tp);
    }

    // Both sides, which may be the same.
    method OpenBoth(tp: AssetTx) returns (src: NxtAcct, srcind: nat, dest: NxtAcct, destind: nat, ghost i: nat, ghost k: nat)
      requires Valid()
      modifies this, accts
      ensures Valid() && View() == BothOpened(old(View()), tp)
      ensures i < |accts| && src == accts[i] && src.addr == tp.sender && PlaceOf(View(), tp.sender, tp.asset, i, srcind)
      ensures k < |accts| && dest == accts[k] && dest.addr == tp.receiver && PlaceOf(View(), tp.receiver, tp.asset, k, destind)
      ensures old(accts) <= accts && forall m :: |old(accts)| <= m < |accts| ==> fresh(accts[m])
    {
      hide Opened, PlaceOf;
      src, srcind, i := Open(tp.sender, tp.asset);
      ghost var first := View();
      dest, destind, k := Open(tp.receiver, tp.asset);
      SamePlace(first, tp.receiver, tp.asset, tp.sender, tp.asset, i, srcind);
    }

    // The source is changed, then the destination as it is by now.
    method BookBoth(src: NxtAcct, ghost i: nat, srcind: nat, dest: NxtAcct, ghost k: nat, destind: nat, tp: AssetTx)
      requires Valid() && i < |accts| && src == accts[i] && PlaceOf(View(), src.addr, tp.asset, i, srcind)
      requires k < |accts| && dest == accts[k] && PlaceOf(View(), dest.addr, tp.asset, k, destind)
      modifies src, dest
      ensures Valid() && HasSlot(old(View()), src.addr, tp.asset)
      ensures var mid := Added(old(View()), src.addr, tp.asset, -(tp.quantity as int), tp);
              HasSlot(mid, dest.addr, tp.asset) && View() == Added(mid, dest.addr, tp.asset, tp.quantity, tp)
    {
      hide Added, HasSlot, PlaceOf;
      PlaceIsSlot(View(), src.addr, tp.asset, i, srcind);
      PlaceAfterAdd(View(), src.addr, tp.asset, -(tp.quantity as int), tp, dest.addr, k, destind);
      Book(src, i, srcind, -(tp.quantity as int), tp);
      Book(dest, k, destind, tp.quantity, tp);
    }

    // `transfer_asset_balance`
    method TransferAssetBalance(tp: AssetTx)
      requires Valid()
      modifies this, accts
      ensures Valid() && View() == Transferred(old(View()), tp)
    {
      ghost var before := View();
      if tp.sender == "" || tp.receiver == "" {
        return;
      }
      hide BothOpened, Added, HasSlot, PlaceOf, Views, Transferred;
      var src, srcind, dest, destind, i, k := OpenBoth(tp);
      BookBoth(src, i, srcind, dest, k, destind, tp);
      TransferredIs(before, tp, View());
    }
  }

  // The tables that transactions are looked up in, and the ledger.
  class NxtTables {
    var guids: set<string>
    var txids: set<string>
    const ledger: NxtLedger

    ghost predicate Valid()
      reads this, ledger, ledger.accts
    {
      ledger.Valid()
    }

    ghost function View(): State
      requires Valid()
      reads this, ledger, ledger.accts
    {
      State(guids, txids, ledger.View())
    }

    constructor ()
      ensures Valid() && View() == Run([])
    {
      guids, txids := {}, {};
      ledger := new NxtLedger();
    }

    // `process_NXTtransaction`, without its handlers.
    method ProcessTransaction(t: Transaction)
      requires Valid()
      modifies this, ledger, ledger.accts
      ensures Valid() && View() == Processed(old(View()), t)
    {
      hide WithAcct, Transferred, NxtLedger.View;
      if t.hash.Some? {
        if t.hash.value in guids {
          return;
        }
        guids := guids + {t.hash.value};
      }
      var sender, receiver := MentionBoth(t);
      if t.asset.Some? {
        var isNew := t.txid !in txids;
        txids := txids + {t.txid};
        if isNew && t.kind == 2 {
          match t.subtype {
            case 0 =>
              if receiver == GENESISACCT {
                ledger.TransferAssetBalance(AssetTx(t.txid, t.asset.value, GENESISACCT, sender, t.quantity));
              }
            case 1 => ledger.TransferAssetBalance(AssetTx(t.txid, t.asset.value, sender, receiver, t.quantity));
            case _ =>
          }
        }
      }
    }

    // Lines 403-409: both parties get accounts.
    method MentionBoth(t: Transaction) returns (sender: string, receiver: string)
      requires Valid()
      modifies ledger
      ensures Valid() && ledger.View() == Mentioned(Mentioned(old(ledger.View()), t.sender), t.recipient)
      ensures old(ledger.accts) <= ledger.accts && forall k :: |old(ledger.accts)| <= k < |ledger.accts| ==> fresh(ledger.accts[k])
      ensures sender == Addr(t.sender) && receiver == Addr(t.recipient)
    {
      hide WithAcct;
      sender, receiver := "", "";
      if t.sender.Some? {
        sender := t.sender.value;
        var np, i := ledger.GetNxtAcct(sender);
      }
      if t.recipient.Some? {
        receiver := t.recipient.value;
        var np, i := ledger.GetNxtAcct(receiver);
      }
    }
  }

  // Both sides opened, then both changed.
  lemma TransferredIs(accts: seq<Acct>, tp: AssetTx, after: seq<Acct>)
    requires tp.sender != "" && tp.receiver != "" && HasSlot(BothOpened(accts, tp), tp.sender, tp.asset)
    requires var mid := Added(BothOpened(accts, tp), tp.sender, tp.asset, -(tp.quantity as int), tp);
             HasSlot(mid, tp.receiver, tp.asset) && after == Added(mid, tp.receiver, tp.asset, tp.quantity, tp)
    ensures after == Transferred(accts, tp)
  {
    hide BothOpened, Added, HasSlot;
  }

  lemma OpenedPlace(accts: seq<Acct>, addr: string, asset: U64)
    ensures var i, all := AcctIndex(accts, addr), WithAcct(accts, addr);
            PlaceOf(Opened(accts, addr, asset), addr, asset, i, SlotIndex(all[i].slots, asset))
  {
    var i, all, after := AcctIndex(accts, addr), WithAcct(accts, addr), Opened(accts, addr, asset);
    AcctAt(after, addr, i);
    SlotAt(after[i].slots, asset, SlotIndex(all[i].slots, asset));
  }

  lemma NoSuchAcct(accts: seq<Acct>, addr: string)
    requires forall k :: 0 <= k < |accts| ==> accts[k].addr != addr
    ensures AcctIndex(accts, addr) == |accts|
  {
  }

  // A change leaves every place where it was, its own included.
  lemma PlaceAfterAdd(accts: seq<Acct>, addr: string, asset: U64, delta: int, tx: AssetTx, a: string, k: nat, ind: nat)
    requires HasSlot(accts, addr, asset) && PlaceOf(accts, a, asset, k, ind)
    ensures PlaceOf(Added(accts, addr, asset, delta, tx), a, asset, k, ind)
  {
    hide Changed;
    var after := Added(accts, addr, asset, delta, tx);
    assert forall m :: 0 <= m < |accts| ==> after[m].addr == accts[m].addr;
    AcctAt(after, a, k);
    SlotAt(after[k].slots, asset, ind);
  }
}
