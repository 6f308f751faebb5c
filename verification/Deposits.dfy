// Deposits and the asset transfers that pay for them (multigateway/multideposit.h): first as
// functions on the values of the records, then as methods on the records themselves.

module DepositSpec {
  import opened Words
  import opened FundsSpec
  import opened Wrappers

  type Flag = n: nat | n < 2
  const NUM_GATEWAYS := 3
  const MIN_NXTCONFIRMS := 10

  // The two marks of a `coin_txid`: the asset transfer that paid for it and the message that
  // confirmed it. 0 is no mark.
  datatype Tp = Tp(xfer: U64, am: U64)

  // `crosschain_info` with its `crosschain_NXTinfo`.
  // `msig` is the binding that was found last, and `rtflag` the NXT block count of the time when
  // the deposit was confirmed.
  datatype Xp = Xp(account: U64, msig: Option<U64>, value: int, assetoshis: int, mask: Flag, confirms: nat, rtflag: nat,
                   internal: nat, assetTxid: U64, am: U64, confirmed: Flag, pending: Flag)

  const NO_MARKS := Tp(0, 0)
  const NEW_XP := Xp(0, None, 0, 0, 0, 0, 0, 0, 0, 0, 0, 0)

  // ------------------------------------------------- update_crosschain_info

  // Lines 86-103. `binding` is the account that `search_multisig_addrs` has for the address.
  function Filled(x: Xp, value: int, binding: Option<U64>): (r: Xp)
    ensures r.value == value && r.confirms == x.confirms && r.pending == x.pending
  {
    var y := x.(value := value, assetoshis := value);
    if y.internal != 0 then y
    else if binding.None? then y.(mask := 1) else y.(mask := 1, account := binding.value, msig := binding)
  }

  // Line 104: the deposit is credited now.
  predicate CreditsDeposit(x: Xp, binding: Option<U64>, isconfirmed: nat) {
    (x.internal != 0 || binding.Some?) && x.confirms == 0 && isconfirmed != 0
  }

  // Lines 43-47. The gateway that the account belongs to announces the deposit; `announced` is
  // the message's id.
  function WithAnnouncement(x: Xp, t: Tp, gatewayid: int, announced: U64): Xp {
    if t.am != 0 then x.(am := t.am)
    else if x.am == 0 && x.account % NUM_GATEWAYS == gatewayid then x.(am := announced)
    else x
  }

  function AfterUpdate(x: Xp, t: Tp, value: int, binding: Option<U64>, isconfirmed: nat, rt: nat, gatewayid: int, announced: U64): Xp {
    var y := Filled(x, value, binding);
    if CreditsDeposit(x, binding, isconfirmed) then AfterConfirming(y, t, isconfirmed, rt, gatewayid, announced) else y
  }

  // Lines 106-119.
  function AfterConfirming(y: Xp, t: Tp, isconfirmed: nat, rt: nat, gatewayid: int, announced: U64): Xp {
    var z := WithAnnouncement(y.(confirms := y.confirms + isconfirmed, rtflag := rt), t, gatewayid, announced);
    if t.xfer != 0 then z.(confirmed := 1, pending := 1) else z
  }

  // Lines 109-119: the deposit was paid for before it was seen.
  predicate UpdateCreditsTransfer(x: Xp, t: Tp, binding: Option<U64>, isconfirmed: nat) {
    CreditsDeposit(x, binding, isconfirmed) && t.xfer != 0 && x.pending == 0
  }

  // --------------------------------------------------- set_pending_assetxfer

  predicate PendCreditsTransfer(x: Xp, txid: U64) {
    x.internal == 0 && txid != 0 && x.pending == 0
  }

  function XpAfterPend(x: Xp, txid: U64, assetoshis: int): Xp {
    if x.internal != 0 || txid == 0 then x
    else x.(assetTxid := txid, confirmed := 1, assetoshis := assetoshis, pending := 1)
  }

  function TpAfterPend(x: Xp, t: Tp, txid: U64): Tp {
    if x.internal != 0 || txid == 0 then t else t.(xfer := txid)
  }

  // decode_depositconfirmed_json, lines 200-202.
  function AfterHearing(t: Tp, am: U64): Tp {
    if am != 0 && t.am == 0 then t.(am := am) else t
  }

  // ------------------------------------------------- authorize_asset_transfer

  // Lines 233-237. `now` is the NXT block count, or none in a DEBUG_MODE build, which does not wait.
  predicate Due(x: Xp, now: Option<nat>) {
    && x.internal == 0 && x.confirms != 0 && x.mask != x.confirmed
    && (now.Some? ==> now.value >= x.rtflag + MIN_NXTCONFIRMS)
  }

  // Lines 240-246: all that has to hold before the transfer is issued.
  predicate Issues(x: Xp, t: Tp, now: Option<nat>, gatewayid: int, hasAsset: bool, verified: bool) {
    && Due(x, now) && gatewayid >= 0 && x.mask == 1 && x.pending == 0
    && x.account % NUM_GATEWAYS == gatewayid && hasAsset && x.assetoshis != 0 && verified && t.xfer == 0
  }

  // `issued` is the id of the transfer, 0 when it could not be issued.
  function XpAfterAuthorize(x: Xp, t: Tp, now: Option<nat>, gatewayid: int, hasAsset: bool, verified: bool, issued: U64,
                            confirmations: nat): Xp {
    if Issues(x, t, now, gatewayid, hasAsset, verified) then
      x.(assetTxid := issued, pending := if issued != 0 then 1 else 0)
    else if Due(x, now) && x.pending == 1 && x.confirmed == 0 && x.assetTxid != 0 && confirmations >= MIN_NXTCONFIRMS then
      x.(confirmed := 1)
    else x
  }

  function TpAfterAuthorize(x: Xp, t: Tp, now: Option<nat>, gatewayid: int, hasAsset: bool, verified: bool, issued: U64): Tp {
    if Issues(x, t, now, gatewayid, hasAsset, verified) then t.(xfer := issued) else t
  }

  // --------------------------------------------------------- multigateway_assetevent

  function XpAfterEvent(x: Xp, txid: U64): Xp {
    if x.assetTxid == 0 then x.(assetTxid := txid) else x
  }
}

// One coin on a node that runs its daemon: what is credited, over whole runs.
module DepositRuns {
  import opened Words
  import opened FundsSpec
  import opened DepositSpec
  import opened Wrappers

  type Tx = string
  datatype Record = Record(tx: Tx, vout: nat, xp: Xp)

  // `xps` lists the confirmed deposits by record; `transferred` lists, in order, the records for
  // which a transfer was credited.
  datatype Node = Node(coinid: int, marks: map<Tx, Tp>, records: seq<Record>, xps: seq<nat>, transferred: seq<nat>, books: Books)

  function Marks(n: Node, tx: Tx): Tp {
    if tx in n.marks then n.marks[tx] else NO_MARKS
  }

  function Credited(n: Node, kind: Kind, account: U64, value: int): Books
    requires n.coinid in n.books.totals
  {
    Updated(n.books, kind, n.coinid, account, value)
  }

  datatype Event =
    // An output of a transaction is processed: `process_vouts` has cleared the slot, so there is
    // always a new record (bitcoin.h:191-224). Its internal mark is set last (bitcoin.h:84-85).
    | Output(tx: Tx, vout: nat, value: int, binding: Option<U64>, isconfirmed: nat, rt: nat, internal: nat, announced: U64)
    // A record is updated once more.
    | Again(id: nat, value: int, binding: Option<U64>, isconfirmed: nat, rt: nat, announced: U64)
    // A retried confirmation finds the transfer.
    | Pend(id: nat, account: U64, txid: U64, assetoshis: int)
    // An asset transfer is seen on the NXT chain; `linked` is the record it
    // is linked to, if any.
    | Paid(tx: Tx, txid: U64, linked: Option<nat>)
    // A gateway's announcement of a deposit is seen.
    | Heard(tx: Tx, am: U64)
    // The gateway looks at one confirmed deposit.
    | Authorize(k: nat, now: Option<nat>, hasAsset: bool, issued: U64, confirmations: nat)

  // `balance_verification` for a record of funds.
  predicate Verified(n: Node, account: U64, value: int)
    requires n.coinid in n.books.totals
  {
    && Known(n.coinid) && Covers(n.books.totals[n.coinid], false, value)
    && Covers(Held(n.books.accounts, n.coinid, account), false, value)
  }

  predicate Possible(n: Node, e: Event) {
    match e
    case Output(_, _, _, _, _, _, _, _) => true
    case Again(id, _, _, _, _, _) => id < |n.records|
    case Pend(id, _, _, _) => id < |n.records|
    case Paid(_, _, linked) => linked.Some? ==> linked.value < |n.records|
    case Heard(_, _) => true
    case Authorize(k, _, _, _, _) => k < |n.xps| && n.xps[k] < |n.records|
  }

  function DepositBooks(n: Node, x: Xp, t: Tp, value: int, binding: Option<U64>, isconfirmed: nat): (b: Books)
    requires n.coinid in n.books.totals
    ensures b.totals.Keys == n.books.totals.Keys
  {
    var y := Filled(x, value, binding);
    var b := if CreditsDeposit(x, binding, isconfirmed) then Credited(n, Deposit, y.account, value) else n.books;
    if UpdateCreditsTransfer(x, t, binding, isconfirmed) then Updated(b, Transfer, n.coinid, y.account, value) else b
  }

  // Record `id`, which holds `x`, is updated.
  function Update(n: Node, id: nat, value: int, binding: Option<U64>, isconfirmed: nat, rt: nat, gatewayid: int, announced: U64): Node
    requires id < |n.records| && n.coinid in n.books.totals
  {
    var r := n.records[id];
    var t := Marks(n, r.tx);
    n.(records := n.records[id := r.(xp := AfterUpdate(r.xp, t, value, binding, isconfirmed, rt, gatewayid, announced))],
       xps := if CreditsDeposit(r.xp, binding, isconfirmed) then n.xps + [id] else n.xps,
       transferred := if UpdateCreditsTransfer(r.xp, t, binding, isconfirmed) then n.transferred + [id] else n.transferred,
       books := DepositBooks(n, r.xp, t, value, binding, isconfirmed))
  }

  function WithRecord(n: Node, tx: Tx, vout: nat): Node {
    n.(records := n.records + [Record(tx, vout, NEW_XP)])
  }

  function MarkedInternal(n: Node, id: nat, internal: nat): Node
    requires id < |n.records|
  {
    var r := n.records[id];
    n.(records := n.records[id := r.(xp := r.xp.(internal := r.xp.internal + internal))])
  }

  function Pended(n: Node, id: nat, account: U64, txid: U64, assetoshis: int): Node
    requires id < |n.records| && n.coinid in n.books.totals
  {
    var r := n.records[id];
    var credits := PendCreditsTransfer(r.xp, txid);
    n.(records := n.records[id := r.(xp := XpAfterPend(r.xp, txid, assetoshis))],
       marks := n.marks[r.tx := TpAfterPend(r.xp, Marks(n, r.tx), txid)],
       transferred := if credits then n.transferred + [id] else n.transferred,
       books := if credits then Credited(n, Transfer, account, r.xp.value) else n.books)
  }

  function Marked(n: Node, tx: Tx, txid: U64, id: Option<nat>): Node
    requires id.Some? ==> id.value < |n.records|
  {
    n.(marks := n.marks[tx := Marks(n, tx).(xfer := txid)],
       records := if id.None? then n.records
                  else n.records[id.value := n.records[id.value].(xp := XpAfterEvent(n.records[id.value].xp, txid))])
  }

  function Announced(n: Node, tx: Tx, am: U64): Node {
    n.(marks := n.marks[tx := AfterHearing(Marks(n, tx), am)])
  }

  predicate IssuesFor(n: Node, k: nat, now: Option<nat>, gatewayid: int, hasAsset: bool)
    requires k < |n.xps| && n.xps[k] < |n.records| && n.coinid in n.books.totals
  {
    var r := n.records[n.xps[k]];
    Issues(r.xp, Marks(n, r.tx), now, gatewayid, hasAsset, Verified(n, r.xp.account, r.xp.value))
  }

  function Authorized(n: Node, k: nat, now: Option<nat>, gatewayid: int, hasAsset: bool, issued: U64, confirmations: nat): Node
    requires k < |n.xps| && n.xps[k] < |n.records| && n.coinid in n.books.totals
  {
    var r := n.records[n.xps[k]];
    var t, v := Marks(n, r.tx), Verified(n, r.xp.account, r.xp.value);
    n.(records := n.records[n.xps[k] := r.(xp := XpAfterAuthorize(r.xp, t, now, gatewayid, hasAsset, v, issued, confirmations))],
       books := if Due(r.xp, now) then Looked(n.books, false, n.coinid, r.xp.account, r.xp.value) else n.books,
       marks := n.marks[r.tx := TpAfterAuthorize(r.xp, t, now, gatewayid, hasAsset, v, issued)])
  }

  function Step(n: Node, gatewayid: int, e: Event): (r: Node)
    requires Possible(n, e) && n.coinid in n.books.totals
    ensures r.coinid == n.coinid && r.coinid in r.books.totals && |r.records| >= |n.records|
  {
    match e
    case Output(tx, vout, value, binding, isconfirmed, rt, internal, announced) =>
      var id := |n.records|;
      MarkedInternal(Update(WithRecord(n, tx, vout), id, value, binding, isconfirmed, rt, gatewayid, announced), id, internal)
    case Again(id, value, binding, isconfirmed, rt, announced) => Update(n, id, value, binding, isconfirmed, rt, gatewayid, announced)
    case Pend(id, account, txid, assetoshis) => Pended(n, id, account, txid, assetoshis)
    case Paid(tx, txid, linked) => Marked(n, tx, txid, linked)
    case Heard(tx, am) => Announced(n, tx, am)
    case Authorize(k, now, hasAsset, issued, confirmations) => Authorized(n, k, now, gatewayid, hasAsset, issued, confirmations)
  }

  function Start(coinid: int): (n: Node)
    ensures n.coinid == coinid && coinid in n.books.totals
  {
    Node(coinid, map[], [], [], [], Empty({coinid}))
  }

  // ----------------------------------------------------------- what is credited

  // The values of a list of records.
  function Values(records: seq<Record>, ids: seq<nat>): int
    requires forall k :: 0 <= k < |ids| ==> ids[k] < |records|
  {
    if ids == [] then 0 else Values(records, ids[..|ids| - 1]) + records[ids[|ids| - 1]].xp.value
  }

  ghost predicate Distinct(ids: seq<nat>) {
    forall i, j :: 0 <= i < j < |ids| ==> ids[i] != ids[j]
  }

  ghost predicate Within(ids: seq<nat>, n: nat) {
    forall k :: 0 <= k < |ids| ==> ids[k] < n
  }

  // Every record is on each list at most once, and the totals are the values on the lists.
  ghost predicate Once(n: Node) {
    && n.coinid in n.books.totals
    && Within(n.xps, |n.records|) && Within(n.transferred, |n.records|)
    && Distinct(n.xps) && Distinct(n.transferred)
    && (forall k :: 0 <= k < |n.xps| ==> n.records[n.xps[k]].xp.confirms != 0)
    && (forall k :: 0 <= k < |n.transferred| ==> n.records[n.transferred[k]].xp.pending == 1)
    && n.books.totals[n.coinid].deposits == Values(n.records, n.xps)
    && n.books.totals[n.coinid].transfers == Values(n.records, n.transferred)
  }

  // Changing the value of one record changes the sums of the lists that it is on.
  lemma {:induction false} ValuesChange(records: seq<Record>, ids: seq<nat>, id: nat, r: Record)
    requires Within(ids, |records|) && Distinct(ids) && id < |records|
    ensures Values(records[id := r], ids)
         == Values(records, ids) + if id in ids then r.xp.value - records[id].xp.value else 0
    decreases |ids|
  {
    if ids != [] {
      var last := |ids| - 1;
      assert ids == ids[..last] + [ids[last]];
      ValuesChange(records, ids[..last], id, r);
    }
  }

  lemma ValuesAppend(records: seq<Record>, ids: seq<nat>, id: nat)
    requires Within(ids, |records|) && id < |records|
    ensures Values(records, ids + [id]) == Values(records, ids) + records[id].xp.value
  {
    assert (ids + [id])[..|ids|] == ids;
  }

  lemma {:induction false} ValuesOfMore(records: seq<Record>, r: Record, ids: seq<nat>)
    requires Within(ids, |records|)
    ensures Values(records + [r], ids) == Values(records, ids)
    decreases |ids|
  {
    if ids != [] { ValuesOfMore(records, r, ids[..|ids| - 1]); }
  }

  // The totals move by the amounts credited.
  lemma BooksOfUpdate(n: Node, x: Xp, t: Tp, value: int, binding: Option<U64>, isconfirmed: nat)
    requires n.coinid in n.books.totals
    ensures var f, g := n.books.totals[n.coinid], DepositBooks(n, x, t, value, binding, isconfirmed).totals[n.coinid];
            && g.deposits == f.deposits + (if CreditsDeposit(x, binding, isconfirmed) then value else 0)
            && g.transfers == f.transfers + (if UpdateCreditsTransfer(x, t, binding, isconfirmed) then value else 0)
  {
    hide Booked, CreditsDeposit, UpdateCreditsTransfer, Filled;
  }

  // Updating a record keeps the account exactly when the record keeps its value or is on neither
  // list yet.
  lemma UpdateKeepsOnce(n: Node, id: nat, value: int, binding: Option<U64>, isconfirmed: nat, rt: nat, gatewayid: int, announced: U64)
    requires Once(n) && id < |n.records|
    ensures Once(Update(n, id, value, binding, isconfirmed, rt, gatewayid, announced))
       <==> value == n.records[id].xp.value || (id !in n.xps && id !in n.transferred)
  {
    hide DepositBooks, Values;
    var m, r := Update(n, id, value, binding, isconfirmed, rt, gatewayid, announced), n.records[id];
    var t := Marks(n, r.tx);
    BooksOfUpdate(n, r.xp, t, value, binding, isconfirmed);
    ValuesChange(n.records, n.xps, id, m.records[id]);
    ValuesChange(n.records, n.transferred, id, m.records[id]);
    ValuesAppend(m.records, n.xps, id);
    ValuesAppend(m.records, n.transferred, id);
  }

  // What `UpdateKeepsOnce` asks of an event; only an update of an old record can fail it.
  predicate Steady(n: Node, e: Event) {
    e.Again? ==> e.id < |n.records| && (e.value == n.records[e.id].xp.value || (e.id !in n.xps && e.id !in n.transferred))
  }

  lemma SteadyIsExact(n: Node, gatewayid: int, e: Event)
    requires Once(n) && e.Again? && Possible(n, e)
    ensures Once(Step(n, gatewayid, e)) <==> Steady(n, e)
  {
    UpdateKeepsOnce(n, e.id, e.value, e.binding, e.isconfirmed, e.rt, gatewayid, e.announced);
    hide Update, Once;
  }

  lemma WithRecordKeepsOnce(n: Node, tx: Tx, vout: nat)
    requires Once(n)
    ensures var m := WithRecord(n, tx, vout); Once(m) && |n.records| !in m.xps && |n.records| !in m.transferred
  {
    hide Values;
    ValuesOfMore(n.records, Record(tx, vout, NEW_XP), n.xps);
    ValuesOfMore(n.records, Record(tx, vout, NEW_XP), n.transferred);
  }

  // A record rewritten without its value or either of its flags going back.
  lemma RewriteKeepsOnce(n: Node, m: Node, id: nat, r: Record)
    requires Once(n) && id < |n.records| && m == n.(records := n.records[id := r], marks := m.marks, books := m.books)
    requires m.books.totals == n.books.totals
    requires var x := n.records[id].xp;
             r.xp.value == x.value && (x.confirms != 0 ==> r.xp.confirms != 0) && (x.pending == 1 ==> r.xp.pending == 1)
    ensures Once(m)
  {
    hide Values;
    ValuesChange(n.records, n.xps, id, r);
    ValuesChange(n.records, n.transferred, id, r);
  }

  lemma PendKeepsOnce(n: Node, id: nat, account: U64, txid: U64, assetoshis: int)
    requires Once(n) && id < |n.records|
    ensures Once(Pended(n, id, account, txid, assetoshis))
  {
    hide Values, Booked;
    var m := Pended(n, id, account, txid, assetoshis);
    ValuesChange(n.records, n.xps, id, m.records[id]);
    ValuesChange(n.records, n.transferred, id, m.records[id]);
    ValuesAppend(m.records, n.transferred, id);
  }

  lemma StepKeepsOnce(n: Node, gatewayid: int, e: Event)
    requires Once(n) && Possible(n, e) && Steady(n, e)
    ensures Once(Step(n, gatewayid, e))
  {
    hide Once, Update, Pended;
    assert n.coinid in n.books.totals by { OnceHasTotals(n); }
    match e {
      case Output(tx, vout, value, binding, isconfirmed, rt, internal, announced) =>
        var a, id := WithRecord(n, tx, vout), |n.records|;
        var b := Update(a, id, value, binding, isconfirmed, rt, gatewayid, announced);
        WithRecordKeepsOnce(n, tx, vout);
        UpdateKeepsOnce(a, id, value, binding, isconfirmed, rt, gatewayid, announced);
        UpdateKeepsLength(a, id, value, binding, isconfirmed, rt, gatewayid, announced);
        RewriteKeepsOnce(b, MarkedInternal(b, id, internal), id, MarkedInternal(b, id, internal).records[id]);
      case Again(id, value, binding, isconfirmed, rt, announced) =>
        UpdateKeepsOnce(n, id, value, binding, isconfirmed, rt, gatewayid, announced);
      case Pend(id, account, txid, assetoshis) => PendKeepsOnce(n, id, account, txid, assetoshis);
      case Paid(tx, txid, linked) =>
        if linked.Some? {
          RewriteKeepsOnce(n, Marked(n, tx, txid, linked), linked.value, Marked(n, tx, txid, linked).records[linked.value]);
        } else {
          MarksDoNotMatter(n, Marked(n, tx, txid, linked));
        }
      case Heard(tx, am) => MarksDoNotMatter(n, Announced(n, tx, am));
      case Authorize(k, now, hasAsset, issued, confirmations) =>
        var m := Authorized(n, k, now, gatewayid, hasAsset, issued, confirmations);
        RewriteKeepsOnce(n, m, n.xps[k], m.records[n.xps[k]]);
    }
  }

  lemma OnceHasTotals(n: Node)
    requires Once(n)
    ensures n.coinid in n.books.totals
  {
  }

  lemma MarksDoNotMatter(n: Node, m: Node)
    requires Once(n) && m == n.(marks := m.marks)
    ensures Once(m)
  {
  }

  lemma UpdateKeepsLength(n: Node, id: nat, value: int, binding: Option<U64>, isconfirmed: nat, rt: nat, gatewayid: int, announced: U64)
    requires id < |n.records| && n.coinid in n.books.totals
    ensures |Update(n, id, value, binding, isconfirmed, rt, gatewayid, announced).records| == |n.records|
  {
  }

  // ------------------------------------------------------------------ whole runs

  predicate AllPossible(n: Node, gatewayid: int, events: seq<Event>)
    requires n.coinid in n.books.totals
    decreases |events|, 0
  {
    events == []
    || (var last := |events| - 1;
        AllPossible(n, gatewayid, events[..last]) && Possible(Run(n, gatewayid, events[..last]), events[last]))
  }

  function Run(n: Node, gatewayid: int, events: seq<Event>): (r: Node)
    requires n.coinid in n.books.totals && AllPossible(n, gatewayid, events)
    ensures r.coinid == n.coinid && r.coinid in r.books.totals
    decreases |events|, 1
  {
    if events == [] then n
    else var last := |events| - 1; Step(Run(n, gatewayid, events[..last]), gatewayid, events[last])
  }

  ghost predicate AllSteady(n: Node, gatewayid: int, events: seq<Event>)
    requires n.coinid in n.books.totals && AllPossible(n, gatewayid, events)
    decreases |events|
  {
    events == []
    || (var last := |events| - 1;
        AllSteady(n, gatewayid, events[..last]) && Steady(Run(n, gatewayid, events[..last]), events[last]))
  }

  lemma StartOnce(coinid: int)
    ensures Once(Start(coinid))
  {
    hide Empty;
    assert Empty({coinid}).totals[coinid] == NOTHING by { EmptyTotals(coinid); }
  }

  lemma EmptyTotals(coinid: int)
    ensures Empty({coinid}).totals[coinid] == NOTHING
  {
  }

  // In every run, the deposits are the values over the list of confirmed deposits, which has no
  // record twice, and the transfers are the values over the records credited by either of the
  // two sites, none of them twice.
  lemma {:induction false} EachCreditedOnce(coinid: int, gatewayid: int, events: seq<Event>)
    requires AllPossible(Start(coinid), gatewayid, events) && AllSteady(Start(coinid), gatewayid, events)
    ensures Once(Run(Start(coinid), gatewayid, events))
    decreases |events|
  {
    hide Once, Start, Step;
    if events == [] {
      StartOnce(coinid);
    } else {
      var last := |events| - 1;
      EachCreditedOnce(coinid, gatewayid, events[..last]);
      StepKeepsOnce(Run(Start(coinid), gatewayid, events[..last]), gatewayid, events[last]);
    }
  }

  // ------------------------------------------------------- how often an output is credited

  // The entries of the list of confirmed deposits that are records of one output.
  function Entries(records: seq<Record>, xps: seq<nat>, tx: Tx, vout: nat): nat
    requires forall k :: 0 <= k < |xps| ==> xps[k] < |records|
  {
    if xps == [] then 0
    else
      var r := records[xps[|xps| - 1]];
      Entries(records, xps[..|xps| - 1], tx, vout) + if r.tx == tx && r.vout == vout then 1 else 0
  }

  // An output is processed with enough confirmations, and its address is bound to an account.
  predicate Confirms(e: Event, tx: Tx, vout: nat) {
    e.Output? && e.tx == tx && e.vout == vout && e.binding.Some? && e.isconfirmed != 0
  }

  function Confirmed(events: seq<Event>, tx: Tx, vout: nat): nat {
    if events == [] then 0
    else Confirmed(events[..|events| - 1], tx, vout) + if Confirms(events[|events| - 1], tx, vout) then 1 else 0
  }

  // The records keep the outputs that they are of.
  predicate SameOutputs(records: seq<Record>, after: seq<Record>) {
    |records| <= |after| && forall k :: 0 <= k < |records| ==> after[k].tx == records[k].tx && after[k].vout == records[k].vout
  }

  lemma {:induction false} EntriesKept(records: seq<Record>, after: seq<Record>, xps: seq<nat>, tx: Tx, vout: nat)
    requires Within(xps, |records|) && SameOutputs(records, after)
    ensures Entries(after, xps, tx, vout) == Entries(records, xps, tx, vout)
    decreases |xps|
  {
    if xps != [] { EntriesKept(records, after, xps[..|xps| - 1], tx, vout); }
  }

  // Only an output that is processed adds an entry, and at most one.
  lemma StepEntries(n: Node, gatewayid: int, e: Event, tx: Tx, vout: nat)
    requires n.coinid in n.books.totals && Possible(n, e) && !e.Again? && Within(n.xps, |n.records|)
    ensures var m := Step(n, gatewayid, e);
            && Within(m.xps, |m.records|)
            && Entries(m.records, m.xps, tx, vout)
               == Entries(n.records, n.xps, tx, vout) + if Confirms(e, tx, vout) then 1 else 0
  {
    hide DepositBooks, Entries, Credited, AfterUpdate, Verified, Looked, Empty;
    var m := Step(n, gatewayid, e);
    assert SameOutputs(n.records, m.records);
    EntriesKept(n.records, m.records, n.xps, tx, vout);
    if e.Output? && e.binding.Some? && e.isconfirmed != 0 {
      assert m.xps == n.xps + [|n.records|];
      EntriesAppend(m.records, n.xps, |n.records|, tx, vout);
    } else {
      assert m.xps == n.xps;
    }
  }

  lemma EntriesAppend(records: seq<Record>, xps: seq<nat>, id: nat, tx: Tx, vout: nat)
    requires Within(xps, |records|) && id < |records|
    ensures Entries(records, xps + [id], tx, vout)
         == Entries(records, xps, tx, vout) + if records[id].tx == tx && records[id].vout == vout then 1 else 0
  {
    assert (xps + [id])[..|xps|] == xps;
  }

  // In every run in which no record is updated again, as `process_vouts` makes a new one each
  // time, an output is credited as often as it is processed with confirmations and a binding: at
  // most once exactly when that happens at most once.
  lemma {:induction false} CreditedAsConfirmed(coinid: int, gatewayid: int, events: seq<Event>, tx: Tx, vout: nat)
    requires AllPossible(Start(coinid), gatewayid, events) && forall k :: 0 <= k < |events| ==> !events[k].Again?
    ensures var n := Run(Start(coinid), gatewayid, events);
            Within(n.xps, |n.records|) && Entries(n.records, n.xps, tx, vout) == Confirmed(events, tx, vout)
    decreases |events|
  {
    hide Step, Possible, Entries, Confirms;
    if events == [] {
      NoEntries(coinid, tx, vout);
    } else {
      var last := |events| - 1;
      CreditedAsConfirmed(coinid, gatewayid, events[..last], tx, vout);
      StepEntries(Run(Start(coinid), gatewayid, events[..last]), gatewayid, events[last], tx, vout);
    }
  }

  lemma NoEntries(coinid: int, tx: Tx, vout: nat)
    ensures Start(coinid).xps == [] && Entries(Start(coinid).records, [], tx, vout) == 0
  {
    hide Empty;
  }

  // ------------------------------------------------------------------ announcements

  predicate Announces(e: Event, tx: Tx) {
    e.Heard? && e.tx == tx && e.am != 0
  }

  predicate FirstAnnounced(events: seq<Event>, k: nat, tx: Tx) {
    k < |events| && Announces(events[k], tx) && forall j :: 0 <= j < k ==> !Announces(events[j], tx)
  }

  // The first announcement of a transaction is kept for ever; without one there is no mark.
  lemma {:induction false} FirstAnnouncementStays(coinid: int, gatewayid: int, events: seq<Event>, tx: Tx)
    requires AllPossible(Start(coinid), gatewayid, events)
    ensures var t := Marks(Run(Start(coinid), gatewayid, events), tx);
            && ((forall k :: 0 <= k < |events| ==> !Announces(events[k], tx)) ==> t.am == 0)
            && (forall k: nat :: FirstAnnounced(events, k, tx) ==> t.am == events[k].am)
    decreases |events|
  {
    hide Step, Possible, Marks;
    if events == [] {
      NoMarks(coinid, tx);
    } else {
      var last := |events| - 1;
      var before := Run(Start(coinid), gatewayid, events[..last]);
      FirstAnnouncementStays(coinid, gatewayid, events[..last], tx);
      StepHears(before, gatewayid, events[last], tx);
      if k: nat :| FirstAnnounced(events[..last], k, tx) {
        forall i: nat | FirstAnnounced(events, i, tx) ensures i == k {
          assert Announces(events[k], tx);
        }
      } else {
        NoneFirst(events[..last], last, tx);
        assert forall k :: 0 <= k < last ==> events[..last][k] == events[k];
      }
    }
  }

  // Without a first one there is none.
  lemma {:induction false} NoneFirst(events: seq<Event>, n: nat, tx: Tx)
    requires n <= |events| && forall k: nat :: !FirstAnnounced(events, k, tx)
    ensures forall k :: 0 <= k < n ==> !Announces(events[k], tx)
  {
    if n > 0 {
      NoneFirst(events, n - 1, tx);
      assert !FirstAnnounced(events, n - 1, tx);
    }
  }

  lemma NoMarks(coinid: int, tx: Tx)
    ensures Marks(Start(coinid), tx).am == 0
  {
  }

  lemma StepHears(n: Node, gatewayid: int, e: Event, tx: Tx)
    requires n.coinid in n.books.totals && Possible(n, e)
    ensures var am := Marks(n, tx).am;
            Marks(Step(n, gatewayid, e), tx).am == if am == 0 && Announces(e, tx) then e.am else am
  {
    hide DepositBooks, Credited, AfterUpdate, Verified, Looked;
  }

  // A record carries an announcement exactly when its deposit is confirmed and its account is the
  // gateway's own.
  predicate OwnAnnounced(r: Record, gatewayid: int) {
    r.xp.am != 0 <==> r.xp.confirms != 0 && r.xp.account % NUM_GATEWAYS == gatewayid
  }

  lemma StepAnnounces(n: Node, gatewayid: int, e: Event, tx: Tx)
    requires n.coinid in n.books.totals && Possible(n, e) && !e.Again? && (e.Output? ==> e.announced != 0)
    requires Marks(n, tx).am == 0
    requires forall k :: 0 <= k < |n.records| && n.records[k].tx == tx ==> OwnAnnounced(n.records[k], gatewayid)
    ensures var m := Step(n, gatewayid, e);
            forall k :: 0 <= k < |m.records| && m.records[k].tx == tx ==> OwnAnnounced(m.records[k], gatewayid)
  {
    hide DepositBooks, Credited, Verified, Looked, Empty;
  }

  // In every run in which no announcement of a transaction is heard, every gateway announces exactly
  // the confirmed deposits of its own accounts.
  lemma {:induction false} AnnouncesItsOwn(coinid: int, gatewayid: int, events: seq<Event>, tx: Tx)
    requires AllPossible(Start(coinid), gatewayid, events)
    requires forall k :: 0 <= k < |events| ==> !events[k].Again? && !Announces(events[k], tx)
    requires forall k :: 0 <= k < |events| && events[k].Output? ==> events[k].announced != 0
    ensures var n := Run(Start(coinid), gatewayid, events);
            forall k :: 0 <= k < |n.records| && n.records[k].tx == tx ==> OwnAnnounced(n.records[k], gatewayid)
    decreases |events|
  {
    hide Step, Possible, Empty;
    if events != [] {
      var last := |events| - 1;
      AnnouncesItsOwn(coinid, gatewayid, events[..last], tx);
      FirstAnnouncementStays(coinid, gatewayid, events[..last], tx);
      assert forall k :: 0 <= k < last ==> events[..last][k] == events[k];
      StepAnnounces(Run(Start(coinid), gatewayid, events[..last]), gatewayid, events[last], tx);
    }
  }

  // When a transfer comes to count as confirmed, over all that can happen to a record: its deposit is
  // confirmed and the transaction has been paid for, a retried confirmation names a transfer, or the
  // gateway finds its pending transfer ten blocks deep.
  lemma CountsAsConfirmed(n: Node, gatewayid: int, e: Event, id: nat)
    requires n.coinid in n.books.totals && Possible(n, e) && id < |n.records| && n.records[id].xp.confirmed == 0
    ensures var r := n.records[id];
            Step(n, gatewayid, e).records[id].xp.confirmed == 1 <==>
              match e
              case Again(i, _, binding, isconfirmed, _, _) =>
                i == id && (r.xp.internal != 0 || binding.Some?) && r.xp.confirms == 0 && isconfirmed != 0 && Marks(n, r.tx).xfer != 0
              case Pend(i, _, txid, _) => i == id && r.xp.internal == 0 && txid != 0
              case Authorize(k, now, _, _, confirmations) =>
                && n.xps[k] == id && r.xp.internal == 0 && r.xp.confirms != 0 && r.xp.mask == 1
                && (now.Some? ==> now.value >= r.xp.rtflag + 10)
                && r.xp.pending == 1 && r.xp.assetTxid != 0 && confirmations >= 10
              case _ => false
  {
    hide DepositBooks, Credited, Verified, Looked, Empty;
  }
}

// The same on the program's own records, which it updates in place.
module Deposits {
  import opened Words
  import opened FundsSpec
  import opened GatewayFunds
  import opened DepositSpec
  import opened Wrappers

  class CoinTxid {
    var NXTxferbits: U64
    var confirmedAMbits: U64
    var vouts: seq<CrosschainInfo?>

    function View(): Tp
      reads this
    {
      Tp(NXTxferbits, confirmedAMbits)
    }

    constructor ()
      ensures View() == NO_MARKS && vouts == []
    {
      NXTxferbits, confirmedAMbits, vouts := 0, 0, [];
    }
  }

  class CrosschainInfo {
    const parent: CoinTxid
    var nxt64bits: U64
    var msig: Option<U64>
    var value: int
    var assetoshis: int
    var NXTxfermask: Flag
    var coin_confirmed: nat
    var NXTRTflag: nat
    var isinternal: nat
    var asset_txid: U64
    var confirmedAMbits: U64
    var confirmed: Flag
    var pending: Flag

    function View(): Xp
      reads this
    {
      Xp(nxt64bits, msig, value, assetoshis, NXTxfermask, coin_confirmed, NXTRTflag, isinternal, asset_txid, confirmedAMbits,
         confirmed, pending)
    }

    constructor (parent: CoinTxid)
      ensures View() == NEW_XP && this.parent == parent
    {
      this.parent := parent;
      nxt64bits, value, assetoshis, NXTxfermask, coin_confirmed, isinternal := 0, 0, 0, 0, 0, 0;
      msig, NXTRTflag, asset_txid, confirmedAMbits, confirmed, pending := None, 0, 0, 0, 0, 0;
    }
  }

  // One coin (`replicated_coininfo`) on a node with this gateway id, -1 for none.
  class Coin {
    const gatewayid: int
    const coinid: int
    const books: GatewayBooks
    var xps: seq<CrosschainInfo>

    ghost predicate Valid()
      reads this, books
    {
      coinid in books.totals
    }

    constructor (gatewayid: int, coinid: int)
      ensures Valid() && xps == [] && books.View() == Empty({coinid}) && fresh(books)
      ensures this.gatewayid == gatewayid && this.coinid == coinid
    {
      this.gatewayid, this.coinid, xps := gatewayid, coinid, [];
      books := new GatewayBooks({coinid});
    }

    // Lines 33-51. `announced` is what the broadcast returns.
    method AddConfirmedDeposit(tp: CoinTxid, xp: CrosschainInfo, announced: U64)
      requires Valid()
      modifies this`xps, xp`confirmedAMbits, books
      ensures Valid() && xps == old(xps) + [xp]
      ensures xp.View() == WithAnnouncement(old(xp.View()), tp.View(), gatewayid, announced)
      ensures books.View() == Updated(old(books.View()), Deposit, coinid, xp.nxt64bits, xp.value)
    {
      xps := xps + [xp];
      if tp.confirmedAMbits == 0 {
        if xp.confirmedAMbits == 0 && xp.nxt64bits % NUM_GATEWAYS == gatewayid {
          xp.confirmedAMbits := announced;
        }
      } else {
        xp.confirmedAMbits := tp.confirmedAMbits;
      }
      books.UpdateBalanceInfo(Deposit, coinid, xp.nxt64bits, xp.value);
    }

    // Lines 86-103: whether there is a deposit to confirm.
    method Fill(xp: CrosschainInfo, value: int, binding: Option<U64>) returns (deposit: bool)
      modifies xp
      ensures xp.View() == Filled(old(xp.View()), value, binding)
      ensures deposit <==> old(xp.isinternal) != 0 || binding.Some?
    {
      deposit := false;
      xp.value := value;
      xp.assetoshis := value;
      if xp.isinternal != 0 {
        deposit := true;
      } else {
        xp.NXTxfermask := 1;
        if binding.Some? {
          xp.msig := binding;
          xp.nxt64bits := binding.value;
          deposit := true;
        }
      }
    }

    // Lines 78-122.
    method UpdateCrosschainInfo(tp: CoinTxid, given: CrosschainInfo?, value: int, binding: Option<U64>, isconfirmed: nat,
                                rt: nat, announced: U64)
      returns (xp: CrosschainInfo)
      requires Valid()
      modifies this`xps, given, books
      ensures Valid()
      ensures if given != null then xp == given else fresh(xp) && xp.parent == tp
      ensures var x := if given != null then old(given.View()) else NEW_XP;
              && xp.View() == AfterUpdate(x, tp.View(), value, binding, isconfirmed, rt, gatewayid, announced)
              && xps == (if CreditsDeposit(x, binding, isconfirmed) then old(xps) + [xp] else old(xps))
              && books.View() ==
                 (var b := if CreditsDeposit(x, binding, isconfirmed)
                           then Updated(old(books.View()), Deposit, coinid, Filled(x, value, binding).account, value)
                           else old(books.View());
                  if UpdateCreditsTransfer(x, tp.View(), binding, isconfirmed)
                  then Updated(b, Transfer, coinid, Filled(x, value, binding).account, value) else b)
    {
      hide Updated, Known, AfterConfirming, Filled;
      if given == null {
        xp := new CrosschainInfo(tp);
      } else {
        xp := given;
      }
      var deposit := Fill(xp, value, binding);
      if deposit && xp.coin_confirmed == 0 && isconfirmed != 0 {
        ConfirmDeposit(tp, xp, isconfirmed, rt, announced);
      }
    }

    // Lines 106-120.
    method ConfirmDeposit(tp: CoinTxid, xp: CrosschainInfo, isconfirmed: nat, rt: nat, announced: U64)
      requires Valid()
      modifies this`xps, xp, books
      ensures Valid() && xps == old(xps) + [xp]
      ensures var y := old(xp.View());
              && xp.View() == AfterConfirming(y, tp.View(), isconfirmed, rt, gatewayid, announced)
              && books.View() ==
                 (var b := Updated(old(books.View()), Deposit, coinid, y.account, y.value);
                  if tp.NXTxferbits != 0 && y.pending == 0 then Updated(b, Transfer, coinid, y.account, y.value) else b)
    {
      hide Updated, Known;
      xp.NXTRTflag := rt;
      xp.coin_confirmed := xp.coin_confirmed + isconfirmed;
      AddConfirmedDeposit(tp, xp, announced);
      if tp.NXTxferbits != 0 {
        xp.confirmed := 1;
        if xp.pending == 0 {
          books.UpdateBalanceInfo(Transfer, coinid, xp.nxt64bits, xp.value);
        }
        xp.pending := 1;
      }
    }

    // Lines 124-166. `tp` is what `find_coin_txid` found.
    method SetPendingAssetxfer(tp: CoinTxid?, vout: int, account: U64, txid: U64, assetoshis: int) returns (r: int)
      requires Valid()
      modifies tp, if tp != null && 0 <= vout < |tp.vouts| then {tp.vouts[vout]} else {}, books
      ensures Valid()
      ensures r == if tp != null && 0 <= vout < |tp.vouts| && tp.vouts[vout] != null then 0 else -1
      ensures r == -1 ==> books.View() == old(books.View()) && (tp != null ==> tp.View() == old(tp.View()))
      ensures tp != null ==> tp.vouts == old(tp.vouts)
      ensures r == 0 ==>
                var xp, x := tp.vouts[vout], old(tp.vouts[vout].View());
                && xp.View() == XpAfterPend(x, txid, assetoshis)
                && tp.View() == TpAfterPend(x, old(tp.View()), txid)
                && books.View() == if PendCreditsTransfer(x, txid)
                                   then Updated(old(books.View()), Transfer, coinid, account, x.value) else old(books.View())
    {
      hide Booked, Changed;
      if tp == null || vout < 0 || vout >= |tp.vouts| || tp.vouts[vout] == null {
        return -1;
      }
      var xp := tp.vouts[vout];
      if xp.isinternal != 0 {
        return 0;
      }
      var pends: Flag := 0;
      if txid != 0 {
        tp.NXTxferbits, xp.asset_txid := txid, txid;
        xp.confirmed := 1;
        xp.assetoshis := assetoshis;
        pends := 1;
      }
      if pends != 0 {
        if xp.pending == 0 {
          books.UpdateBalanceInfo(Transfer, coinid, account, xp.value);
        }
        xp.pending := 1;
      }
      return 0;
    }

    // Lines 227-279. `issued` is what `issue_transferAsset` returns.
    method AuthorizeAssetTransfer(xp: CrosschainInfo, now: Option<nat>, hasAsset: bool, issued: U64, confirmations: nat)
      returns (flag: int)
      requires Valid()
      modifies xp, xp.parent, books
      ensures Valid()
      ensures var x, t := old(xp.View()), old(xp.parent.View());
              var v := Known(coinid) && Covers(old(books.totals)[coinid], false, x.value)
                       && Covers(Held(old(books.accounts), coinid, x.account), false, x.value);
              && xp.View() == XpAfterAuthorize(x, t, now, gatewayid, hasAsset, v, issued, confirmations)
              && xp.parent.View() == TpAfterAuthorize(x, t, now, gatewayid, hasAsset, v, issued)
              && flag == (if Issues(x, t, now, gatewayid, hasAsset, v) && issued != 0 then 1 else 0)
              && books.View() == if Due(x, now) then Looked(old(books.View()), false, coinid, x.account, x.value) else old(books.View())
    {
      hide Held, Opened, Covers, Known;
      flag := 0;
      if xp.isinternal == 0 && xp.coin_confirmed != 0 && xp.NXTxfermask != xp.confirmed
         && (now.None? || now.value >= xp.NXTRTflag + MIN_NXTCONFIRMS) {
        var verification := books.BalanceVerification(false, coinid, xp.nxt64bits, xp.value);
        if gatewayid >= 0 && xp.NXTxfermask == 1 && xp.pending == 0 {
          if xp.nxt64bits % NUM_GATEWAYS == gatewayid && hasAsset && xp.assetoshis != 0 && verification > 0 {
            if xp.parent.NXTxferbits == 0 {
              xp.asset_txid := issued;
              xp.parent.NXTxferbits := xp.asset_txid;
              if xp.asset_txid != 0 {
                xp.pending, flag := 1, 1;
              }
            }
          }
        } else if xp.pending == 1 && xp.confirmed == 0 && xp.asset_txid != 0 {
          if confirmations >= MIN_NXTCONFIRMS {
            xp.confirmed := 1;
          }
        }
      }
    }

    // multigateway.h:547-564, on a node with a daemon. `txid` is the id of the transfer.
    method AssetEvent(tp: CoinTxid, txid: U64, vout: int)
      modifies tp, if 0 <= vout < |tp.vouts| then {tp.vouts[vout]} else {}
      ensures tp.View() == old(tp.View()).(xfer := txid) && tp.vouts == old(tp.vouts)
      ensures 0 <= vout < |tp.vouts| && tp.vouts[vout] != null ==>
                tp.vouts[vout].View() == XpAfterEvent(old(tp.vouts[vout].View()), txid)
    {
      tp.NXTxferbits := txid;
      if 0 <= vout < |tp.vouts| && tp.vouts[vout] != null {
        var xp := tp.vouts[vout];
        if xp.asset_txid == 0 {
          xp.asset_txid := txid;
        }
      }
    }
  }
}
