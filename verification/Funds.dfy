// The gateway's books (multigateway/balances.h, multigateway/multifind.h:152-181): one record
// of funds for every coin, and one for every NXT account that holds the coin. Satoshi amounts
// are unbounded integers.

module FundsSpec {
  import opened Words

  datatype Kind = Deposit | Transfer | Withdraw | MoneySend

  datatype Funds = Funds(deposits: int, transfers: int, withdraws: int, moneysends: int,
                         remainingTransfers: int, remainingMoneysends: int, balance: int)

  const NOTHING := Funds(0, 0, 0, 0, 0, 0, 0)

  function Plus(f: Funds, g: Funds): Funds {
    Funds(f.deposits + g.deposits, f.transfers + g.transfers, f.withdraws + g.withdraws,
          f.moneysends + g.moneysends, f.remainingTransfers + g.remainingTransfers,
          f.remainingMoneysends + g.remainingMoneysends, f.balance + g.balance)
  }

  // `_update_balance_info` with `recalc_balance_info`.
  function Changed(f: Funds, kind: Kind, value: int): Funds {
    var g := match kind
             case Deposit => f.(deposits := f.deposits + value)
             case Transfer => f.(transfers := f.transfers + value)
             case Withdraw => f.(withdraws := f.withdraws + value)
             case MoneySend => f.(moneysends := f.moneysends + value);
    g.(remainingTransfers := g.deposits - g.transfers,
       remainingMoneysends := g.withdraws - g.moneysends,
       balance := g.deposits - g.withdraws)
  }

  // The derived fields agree with the four that are added to.
  predicate Balanced(f: Funds) {
    && f.remainingTransfers == f.deposits - f.transfers
    && f.remainingMoneysends == f.withdraws - f.moneysends
    && f.balance == f.deposits - f.withdraws
  }

  datatype CoinAcct = CoinAcct(coinid: int, funds: Funds)
  datatype Account = Account(addr: U64, coins: seq<CoinAcct>)
  datatype Books = Books(totals: map<int, Funds>, accounts: seq<Account>)

  // The coins that have a name (multidefines.h:50-112); no account holds any other.
  predicate Known(coinid: int) {
    coinid in {1, 2, 3, 4, 5, 7, 62, 63}
  }

  const ILLEGAL_COIN := "ERR"

  // `coinid_str`
  function CoinStr(coinid: int): string {
    match coinid
    case 1 => "BTC"
    case 2 => "LTC"
    case 3 => "CGB"
    case 4 => "DOGE"
    case 5 => "DRK"
    case 7 => "BC"
    case 63 => "USD"
    case 62 => "CNY"
    case _ => ILLEGAL_COIN
  }

  lemma IllegalIsUnknown(coinid: int)
    ensures CoinStr(coinid) == ILLEGAL_COIN <==> !Known(coinid)
  {
  }

  // `conv_coinstr` finds every known coin by its name. Any other number is named as number 0 is, so
  // that its name is taken for that one.
  method ConvCoinstr(name: string) returns (coinid: int)
    ensures forall c :: Known(c) && name == CoinStr(c) ==> coinid == c
    ensures name == ILLEGAL_COIN ==> coinid == 0
    ensures coinid == -1 <==> forall c :: 0 <= c < 64 ==> CoinStr(c) != name
    ensures -1 <= coinid < 64 && (coinid >= 0 ==> CoinStr(coinid) == name)
  {
    hide CoinStr;
    NamesDiffer();
    coinid := 0;
    while coinid < 64
      invariant 0 <= coinid <= 64 && forall c :: 0 <= c < coinid ==> CoinStr(c) != name
    {
      if CoinStr(coinid) == name {
        return;
      }
      coinid := coinid + 1;
    }
    coinid := -1;
  }

  lemma NamesDiffer()
    ensures forall c, d :: Known(c) && CoinStr(c) == CoinStr(d) ==> c == d
    ensures CoinStr(0) == ILLEGAL_COIN
  {
    forall c, d | Known(c) && c != d ensures CoinStr(c) != CoinStr(d) {
      assert |CoinStr(c)| != |CoinStr(d)| || CoinStr(c)[0] != CoinStr(d)[0] || CoinStr(c)[1] != CoinStr(d)[1] ;
    }
  }

  // The first entry of a coin, or the length when there is none.
  function CoinIndex(coins: seq<CoinAcct>, coinid: int): (i: nat)
    ensures i <= |coins| && (i < |coins| ==> coins[i].coinid == coinid)
    ensures forall k :: 0 <= k < i ==> coins[k].coinid != coinid
  {
    if coins == [] || coins[0].coinid == coinid then 0 else 1 + CoinIndex(coins[1..], coinid)
  }

  function AccountIndex(accounts: seq<Account>, addr: U64): (i: nat)
    ensures i <= |accounts| && (i < |accounts| ==> accounts[i].addr == addr)
    ensures forall k :: 0 <= k < i ==> accounts[k].addr != addr
  {
    if accounts == [] || accounts[0].addr == addr then 0 else 1 + AccountIndex(accounts[1..], addr)
  }

  // `ensure_coin_acct` and `get_NXTacct`: an entry that is missing is appended, empty.
  function WithCoin(coins: seq<CoinAcct>, coinid: int): (r: seq<CoinAcct>)
    ensures CoinIndex(coins, coinid) < |r|
  {
    if CoinIndex(coins, coinid) < |coins| then coins else coins + [CoinAcct(coinid, NOTHING)]
  }

  function WithAccount(accounts: seq<Account>, addr: U64): (r: seq<Account>)
    ensures AccountIndex(accounts, addr) < |r|
  {
    if AccountIndex(accounts, addr) < |accounts| then accounts else accounts + [Account(addr, [])]
  }

  // `get_coin_acct`
  function Opened(accounts: seq<Account>, coinid: int, addr: U64): seq<Account> {
    var i, all := AccountIndex(accounts, addr), WithAccount(accounts, addr);
    all[i := all[i].(coins := WithCoin(all[i].coins, coinid))]
  }

  // The funds an account has in a coin.
  function Held(accounts: seq<Account>, coinid: int, addr: U64): Funds {
    var i := AccountIndex(accounts, addr);
    if i == |accounts| then NOTHING
    else
      var j := CoinIndex(accounts[i].coins, coinid);
      if j == |accounts[i].coins| then NOTHING else accounts[i].coins[j].funds
  }

  // The conditions of `balance_verification`, for one record of funds.
  predicate Covers(f: Funds, moneysend: bool, value: int) {
    if moneysend then value <= f.remainingMoneysends && value <= f.balance else value <= f.remainingTransfers
  }

  // What `balance_verification` leaves behind: it opens the account when it gets to look at it.
  function Looked(b: Books, moneysend: bool, coinid: int, addr: U64, value: int): Books
    requires coinid in b.totals
  {
    if Known(coinid) && Covers(b.totals[coinid], moneysend, value)
    then b.(accounts := Opened(b.accounts, coinid, addr)) else b
  }

  // Entry changed; the account is opened first.
  function Booked(accounts: seq<Account>, coinid: int, addr: U64, kind: Kind, value: int): seq<Account> {
    var i, all := AccountIndex(accounts, addr), WithAccount(accounts, addr);
    var j, coins := CoinIndex(all[i].coins, coinid), WithCoin(all[i].coins, coinid);
    all[i := all[i].(coins := coins[j := CoinAcct(coins[j].coinid, Changed(coins[j].funds, kind, value))])]
  }

  // `update_balance_info`
  function Updated(b: Books, kind: Kind, coinid: int, addr: U64, value: int): (r: Books)
    requires coinid in b.totals
    ensures r.totals.Keys == b.totals.Keys
  {
    Books(b.totals[coinid := Changed(b.totals[coinid], kind, value)],
          if Known(coinid) then Booked(b.accounts, coinid, addr, kind, value) else b.accounts)
  }

  // The sum over all accounts of what they hold of one coin.
  function CoinSum(coins: seq<CoinAcct>, coinid: int): Funds {
    if coins == [] then NOTHING
    else Plus(CoinSum(coins[..|coins| - 1], coinid),
              var c := coins[|coins| - 1]; if c.coinid == coinid then c.funds else NOTHING)
  }

  function Sum(accounts: seq<Account>, coinid: int): Funds {
    if accounts == [] then NOTHING
    else Plus(Sum(accounts[..|accounts| - 1], coinid), CoinSum(accounts[|accounts| - 1].coins, coinid))
  }

  // What one change adds.
  function Delta(kind: Kind, value: int): Funds {
    Changed(NOTHING, kind, value)
  }

  lemma ChangedAdds(f: Funds, kind: Kind, value: int)
    requires Balanced(f)
    ensures Changed(f, kind, value) == Plus(f, Delta(kind, value)) && Balanced(Changed(f, kind, value))
  {
  }

  lemma PlusLaws(f: Funds, g: Funds, h: Funds)
    ensures Plus(Plus(f, g), h) == Plus(Plus(f, h), g) == Plus(f, Plus(g, h))
    ensures Plus(f, NOTHING) == f
  {
  }

  lemma {:induction false} CoinSumAfter(coins: seq<CoinAcct>, j: nat, c: CoinAcct, coinid: int, d: Funds)
    requires j < |coins| && c.coinid == coins[j].coinid && c.funds == Plus(coins[j].funds, d)
    ensures CoinSum(coins[j := c], coinid)
         == Plus(CoinSum(coins, coinid), if c.coinid == coinid then d else NOTHING)
  {
    hide Plus;
    var last, t := |coins| - 1, coins[j := c];
    var e := if c.coinid == coinid then d else NOTHING;
    var own := (x: CoinAcct) => if x.coinid == coinid then x.funds else NOTHING;
    PlusLaws(CoinSum(coins[..last], coinid), own(coins[last]), e);
    PlusLaws(NOTHING, NOTHING, NOTHING);
    if j == last {
      assert t[..last] == coins[..last];
    } else {
      assert t[..last] == coins[..last][j := c];
      CoinSumAfter(coins[..last], j, c, coinid, d);
    }
  }

  lemma {:induction false} SumAfter(accounts: seq<Account>, i: nat, a: Account, coinid: int, d: Funds)
    requires i < |accounts| && CoinSum(a.coins, coinid) == Plus(CoinSum(accounts[i].coins, coinid), d)
    ensures Sum(accounts[i := a], coinid) == Plus(Sum(accounts, coinid), d)
  {
    hide Plus, CoinSum;
    var last, t := |accounts| - 1, accounts[i := a];
    PlusLaws(Sum(accounts[..last], coinid), CoinSum(accounts[last].coins, coinid), d);
    if i == last {
      assert t[..last] == accounts[..last];
    } else {
      assert t[..last] == accounts[..last][i := a];
      SumAfter(accounts[..last], i, a, coinid, d);
    }
  }

  lemma CoinSumAppends(coins: seq<CoinAcct>, c: CoinAcct, coinid: int)
    ensures CoinSum(coins + [c], coinid) == Plus(CoinSum(coins, coinid), if c.coinid == coinid then c.funds else NOTHING)
  {
    hide Plus;
    assert (coins + [c])[..|coins|] == coins;
  }

  lemma SumAppends(accounts: seq<Account>, a: Account, coinid: int)
    ensures Sum(accounts + [a], coinid) == Plus(Sum(accounts, coinid), CoinSum(a.coins, coinid))
  {
    hide Plus, CoinSum;
    assert (accounts + [a])[..|accounts|] == accounts;
  }

  // An entry is opened with nothing in it.
  lemma OpeningAccount(accounts: seq<Account>, addr: U64, coinid: int)
    ensures Sum(WithAccount(accounts, addr), coinid) == Sum(accounts, coinid)
  {
    hide Sum, CoinSum, Plus, AccountIndex;
    SumOfNothing(coinid);
    PlusLaws(Sum(accounts, coinid), NOTHING, NOTHING);
    SumAppends(accounts, Account(addr, []), coinid);
  }

  lemma SumOfNothing(coinid: int)
    ensures CoinSum([], coinid) == NOTHING
  {
  }

  lemma OpeningCoin(coins: seq<CoinAcct>, coinid: int, other: int)
    ensures CoinSum(WithCoin(coins, other), coinid) == CoinSum(coins, coinid)
  {
    hide CoinSum, Plus, CoinIndex;
    PlusLaws(CoinSum(coins, coinid), NOTHING, NOTHING);
    CoinSumAppends(coins, CoinAcct(other, NOTHING), coinid);
  }

  // Every entry's derived fields agree with its sums.
  ghost predicate AllBalanced(accounts: seq<Account>) {
    forall i, j :: 0 <= i < |accounts| && 0 <= j < |accounts[i].coins| ==> Balanced(accounts[i].coins[j].funds)
  }

  lemma BookedAdds(accounts: seq<Account>, coinid: int, addr: U64, kind: Kind, value: int, other: int)
    requires AllBalanced(accounts)
    ensures Sum(Booked(accounts, coinid, addr, kind, value), other)
         == Plus(Sum(accounts, other), if other == coinid then Delta(kind, value) else NOTHING)
  {
    hide Sum, CoinSum, Plus, Changed, AccountIndex, CoinIndex, WithAccount, WithCoin, AllBalanced;
    var i, all := AccountIndex(accounts, addr), WithAccount(accounts, addr);
    var j, coins := CoinIndex(all[i].coins, coinid), WithCoin(all[i].coins, coinid);
    OpeningAccount(accounts, addr, other);
    OpeningCoin(all[i].coins, other, coinid);
    OpenedBalanced(accounts, coinid, addr);
    ChangedAdds(coins[j].funds, kind, value);
    var c := CoinAcct(coins[j].coinid, Changed(coins[j].funds, kind, value));
    CoinSumAfter(coins, j, c, other, Delta(kind, value));
    FoundCoin(all[i].coins, coinid);
    SumAfter(all, i, all[i].(coins := coins[j := c]), other, if other == coinid then Delta(kind, value) else NOTHING);
  }

  lemma FoundCoin(coins: seq<CoinAcct>, coinid: int)
    ensures WithCoin(coins, coinid)[CoinIndex(coins, coinid)].coinid == coinid
  {
  }

  // The entry that is booked on is balanced, also when it is new.
  lemma OpenedBalanced(accounts: seq<Account>, coinid: int, addr: U64)
    requires AllBalanced(accounts)
    ensures var all := WithAccount(accounts, addr);
            var coins := all[AccountIndex(accounts, addr)].coins;
            AllBalanced(all) && Balanced(WithCoin(coins, coinid)[CoinIndex(coins, coinid)].funds)
  {
    hide AccountIndex, CoinIndex;
  }

  lemma BookedBalanced(accounts: seq<Account>, coinid: int, addr: U64, kind: Kind, value: int)
    requires AllBalanced(accounts)
    ensures AllBalanced(Booked(accounts, coinid, addr, kind, value))
  {
    hide AccountIndex, CoinIndex, Changed, Balanced;
    OpenedBalanced(accounts, coinid, addr);
    var i, all := AccountIndex(accounts, addr), WithAccount(accounts, addr);
    var j, coins := CoinIndex(all[i].coins, coinid), WithCoin(all[i].coins, coinid);
    ChangedAdds(coins[j].funds, kind, value);
  }

  // Booking touches one entry only, opening none.
  lemma HeldAfter(accounts: seq<Account>, coinid: int, addr: U64, kind: Kind, value: int, c: int, a: U64)
    ensures Held(Booked(accounts, coinid, addr, kind, value), c, a)
         == if c == coinid && a == addr then Changed(Held(accounts, c, a), kind, value) else Held(accounts, c, a)
  {
    hide Changed;
    var i, all := AccountIndex(accounts, addr), WithAccount(accounts, addr);
    var j, coins := CoinIndex(all[i].coins, coinid), WithCoin(all[i].coins, coinid);
    var booked := coins[j := CoinAcct(coins[j].coinid, Changed(coins[j].funds, kind, value))];
    SameAccountIndex(accounts, Booked(accounts, coinid, addr, kind, value), addr, a);
    SameCoinIndex(all[i].coins, booked, coinid, c);
  }

  lemma HeldOpened(accounts: seq<Account>, coinid: int, addr: U64, c: int, a: U64)
    ensures Held(Opened(accounts, coinid, addr), c, a) == Held(accounts, c, a)
  {
    var i, all := AccountIndex(accounts, addr), WithAccount(accounts, addr);
    SameAccountIndex(accounts, Opened(accounts, coinid, addr), addr, a);
    SameCoinIndex(all[i].coins, WithCoin(all[i].coins, coinid), coinid, c);
  }

  // Where an account is found does not change; a new one is found at the end.
  lemma SameAccountIndex(accounts: seq<Account>, after: seq<Account>, addr: U64, a: U64)
    requires var all := WithAccount(accounts, addr);
             |after| == |all| && forall k :: 0 <= k < |all| ==> after[k].addr == all[k].addr
    ensures var k := AccountIndex(accounts, a);
            AccountIndex(after, a) == if k == |accounts| && a != addr then |after| else k
  {
    var k, k' := AccountIndex(accounts, a), AccountIndex(after, a);
    if k < |accounts| {
      assert after[k].addr == a;
      assert accounts[k'].addr == after[k'].addr;
    }
  }

  lemma SameCoinIndex(coins: seq<CoinAcct>, after: seq<CoinAcct>, coinid: int, c: int)
    requires var all := WithCoin(coins, coinid);
             |after| == |all| && forall k :: 0 <= k < |all| ==> after[k].coinid == all[k].coinid
    ensures var k := CoinIndex(coins, c);
            CoinIndex(after, c) == if k == |coins| && c != coinid then |after| else k
  {
    var k, k' := CoinIndex(coins, c), CoinIndex(after, c);
    if k < |coins| {
      assert after[k].coinid == c;
      assert coins[k'].coinid == after[k'].coinid;
    }
  }

  // ------------------------------------------------------------------ whole runs

  // `update_balance_info`, or `get_coin_acct` on its own, as other callers and
  // `balance_verification` make it.
  datatype Call =
    | Book(kind: Kind, coinid: int, addr: U64, value: int)
    | Open(coinid: int, addr: U64)

  predicate Callable(c: Call, b: Books) {
    c.Book? ==> c.coinid in b.totals.Keys
  }

  function Made(b: Books, c: Call): (r: Books)
    requires Callable(c, b)
    ensures r.totals.Keys == b.totals.Keys
  {
    match c
    case Book(kind, coinid, addr, value) => Updated(b, kind, coinid, addr, value)
    case Open(coinid, addr) => if Known(coinid) then b.(accounts := Opened(b.accounts, coinid, addr)) else b
  }

  function Run(b: Books, calls: seq<Call>): (r: Books)
    requires forall k :: 0 <= k < |calls| ==> Callable(calls[k], b)
    ensures r.totals.Keys == b.totals.Keys
    decreases |calls|
  {
    if calls == [] then b
    else
      var c, was := calls[|calls| - 1], Run(b, calls[..|calls| - 1]);
      assert Callable(c, b);
      Made(was, c)
  }

  function Empty(coinids: set<int>): (b: Books)
    ensures b.totals.Keys == coinids
  {
    Books(map c | c in coinids :: NOTHING, [])
  }

  // What every call keeps, for one known coin.
  ghost predicate Tallied(b: Books, c: int) {
    && AllBalanced(b.accounts)
    && c in b.totals && Balanced(b.totals[c]) && b.totals[c] == Sum(b.accounts, c)
  }

  lemma EmptyTallies(coinids: set<int>, c: int)
    requires c in coinids
    ensures Tallied(Empty(coinids), c)
  {
  }

  lemma UpdatedTallies(b: Books, kind: Kind, coinid: int, addr: U64, value: int, c: int)
    requires Tallied(b, c) && coinid in b.totals && Known(c)
    ensures Tallied(Updated(b, kind, coinid, addr, value), c)
  {
    hide Sum, Booked, Changed, AllBalanced;
    if Known(coinid) {
      BookedAdds(b.accounts, coinid, addr, kind, value, c);
      BookedBalanced(b.accounts, coinid, addr, kind, value);
      PlusLaws(Sum(b.accounts, c), NOTHING, NOTHING);
      if c == coinid { ChangedAdds(b.totals[c], kind, value); }
    }
  }

  lemma OpenedSums(accounts: seq<Account>, coinid: int, addr: U64, c: int)
    ensures Sum(Opened(accounts, coinid, addr), c) == Sum(accounts, c)
  {
    hide Sum, CoinSum, Plus, AccountIndex, WithAccount, WithCoin;
    var i, all := AccountIndex(accounts, addr), WithAccount(accounts, addr);
    OpeningAccount(accounts, addr, c);
    OpeningCoin(all[i].coins, c, coinid);
    PlusLaws(CoinSum(all[i].coins, c), NOTHING, NOTHING);
    PlusLaws(Sum(all, c), NOTHING, NOTHING);
    SumAfter(all, i, all[i].(coins := WithCoin(all[i].coins, coinid)), c, NOTHING);
  }

  lemma OpenedAllBalanced(accounts: seq<Account>, coinid: int, addr: U64)
    requires AllBalanced(accounts)
    ensures AllBalanced(Opened(accounts, coinid, addr))
  {
    hide AccountIndex, CoinIndex;
  }

  lemma OpenTallies(b: Books, coinid: int, addr: U64, c: int)
    requires Tallied(b, c)
    ensures Tallied(b.(accounts := Opened(b.accounts, coinid, addr)), c)
  {
    hide Sum, Opened, AllBalanced;
    OpenedSums(b.accounts, coinid, addr, c);
    OpenedAllBalanced(b.accounts, coinid, addr);
  }

  // From empty books, after any calls, every field of a known coin's total is the sum of that
  // field over all the accounts.
  lemma TotalsAreSums(coinids: set<int>, calls: seq<Call>, c: int)
    requires forall k :: 0 <= k < |calls| ==> Callable(calls[k], Empty(coinids))
    requires c in coinids && Known(c)
    ensures var b := Run(Empty(coinids), calls); b.totals[c] == Sum(b.accounts, c)
  {
    hide Run, Sum, Empty, Tallied, Callable;
    EmptyTallies(coinids, c);
    RunTallies(Empty(coinids), calls, c);
    TalliedSums(Run(Empty(coinids), calls), c);
  }

  lemma TalliedSums(b: Books, c: int)
    requires Tallied(b, c)
    ensures c in b.totals && b.totals[c] == Sum(b.accounts, c)
  {
  }

  lemma {:induction false} RunTallies(b: Books, calls: seq<Call>, c: int)
    requires Tallied(b, c) && Known(c) && forall k :: 0 <= k < |calls| ==> Callable(calls[k], b)
    ensures Tallied(Run(b, calls), c)
    decreases |calls|
  {
    hide Tallied, Updated, Opened, Known;
    if calls != [] {
      var was := Run(b, calls[..|calls| - 1]);
      RunTallies(b, calls[..|calls| - 1], c);
      match calls[|calls| - 1] {
        case Book(kind, coinid, addr, value) => UpdatedTallies(was, kind, coinid, addr, value, c);
        case Open(coinid, addr) => OpenTallies(was, coinid, addr, c);
      }
    }
  }
}

// What the books say, in terms of the calls that made them.
module FundsMeaning {
  import opened Words
  import opened FundsSpec

  // The values that were booked of a kind in a coin, by all accounts.
  function Booked(calls: seq<Call>, kind: Kind, coinid: int): int {
    if calls == [] then 0
    else
      var c := calls[|calls| - 1];
      Booked(calls[..|calls| - 1], kind, coinid) + if c.Book? && c.kind == kind && c.coinid == coinid then c.value else 0
  }

  // And by one.
  function BookedBy(calls: seq<Call>, kind: Kind, coinid: int, addr: U64): int {
    if calls == [] then 0
    else
      var c := calls[|calls| - 1];
      BookedBy(calls[..|calls| - 1], kind, coinid, addr)
      + if c.Book? && c.kind == kind && c.coinid == coinid && c.addr == addr then c.value else 0
  }

  // Deposits, transfers, withdrawals and sent money are four sums, and the other fields what is left.
  lemma {:induction false} TotalsAreBooked(coinids: set<int>, calls: seq<Call>, c: int)
    requires (forall k :: 0 <= k < |calls| ==> Callable(calls[k], Empty(coinids))) && c in coinids
    ensures var b := Run(Empty(coinids), calls);
            && c in b.totals
            && var f, d, t := b.totals[c], Booked(calls, Deposit, c), Booked(calls, Transfer, c);
               var w, m := Booked(calls, Withdraw, c), Booked(calls, MoneySend, c);
               && f.deposits == d && f.transfers == t && f.withdraws == w && f.moneysends == m
               && f.remainingTransfers == d - t && f.remainingMoneysends == w - m && f.balance == d - w
    decreases |calls|
  {
    if calls != [] {
      TotalsAreBooked(coinids, calls[..|calls| - 1], c);
      hide Opened, FundsSpec.Booked, Known;
    }
  }

  // The same of every account in a coin that is known.
  lemma {:induction false} AccountsAreBooked(coinids: set<int>, calls: seq<Call>, c: int, a: U64)
    requires (forall k :: 0 <= k < |calls| ==> Callable(calls[k], Empty(coinids))) && Known(c)
    ensures var f := Held(Run(Empty(coinids), calls).accounts, c, a);
            var d, t := BookedBy(calls, Deposit, c, a), BookedBy(calls, Transfer, c, a);
            var w, m := BookedBy(calls, Withdraw, c, a), BookedBy(calls, MoneySend, c, a);
            && f.deposits == d && f.transfers == t && f.withdraws == w && f.moneysends == m
            && f.remainingTransfers == d - t && f.remainingMoneysends == w - m && f.balance == d - w
    decreases |calls|
  {
    if calls == [] {
      assert Held([], c, a) == NOTHING;
    } else {
      var was := Run(Empty(coinids), calls[..|calls| - 1]);
      AccountsAreBooked(coinids, calls[..|calls| - 1], c, a);
      hide Held, Known;
      HeldAfterCall(was, calls[|calls| - 1], c, a);
      hide Made, Changed;
      ChangedFields(Held(was.accounts, c, a), calls[|calls| - 1]);
    }
  }

  // One call, seen in one account and coin.
  lemma HeldAfterCall(b: Books, call: Call, c: int, a: U64)
    requires Callable(call, b) && Known(c)
    ensures var f := Held(b.accounts, c, a);
            Held(Made(b, call).accounts, c, a)
            == if call.Book? && call.coinid == c && call.addr == a then Changed(f, call.kind, call.value) else f
  {
    hide Held, Opened, FundsSpec.Booked, Changed;
    match call {
      case Book(kind, coinid, addr, value) => HeldAfter(b.accounts, coinid, addr, kind, value, c, a);
      case Open(coinid, addr) => HeldOpened(b.accounts, coinid, addr, c, a);
    }
  }

  lemma ChangedFields(f: Funds, call: Call)
    ensures call.Book? ==>
              var g, v := Changed(f, call.kind, call.value), call.value;
              && g.deposits == f.deposits + (if call.kind == Deposit then v else 0)
              && g.transfers == f.transfers + (if call.kind == Transfer then v else 0)
              && g.withdraws == f.withdraws + (if call.kind == Withdraw then v else 0)
              && g.moneysends == f.moneysends + (if call.kind == MoneySend then v else 0)
              && g.remainingTransfers == g.deposits - g.transfers
              && g.remainingMoneysends == g.withdraws - g.moneysends && g.balance == g.deposits - g.withdraws
  {
  }

  ghost predicate AllKnown(accounts: seq<Account>) {
    forall i, j :: 0 <= i < |accounts| && 0 <= j < |accounts[i].coins| ==> Known(accounts[i].coins[j].coinid)
  }

  lemma OpenedKnown(accounts: seq<Account>, coinid: int, addr: U64)
    requires AllKnown(accounts) && Known(coinid)
    ensures AllKnown(Opened(accounts, coinid, addr))
  {
    hide Known, AccountIndex, CoinIndex;
  }

  lemma BookedKnown(accounts: seq<Account>, coinid: int, addr: U64, kind: Kind, value: int)
    requires AllKnown(accounts) && Known(coinid)
    ensures AllKnown(FundsSpec.Booked(accounts, coinid, addr, kind, value))
  {
    hide Known, AccountIndex, CoinIndex, Changed;
    FoundCoin(WithAccount(accounts, addr)[AccountIndex(accounts, addr)].coins, coinid);
  }

  // No account ever holds a coin that is not known.
  lemma {:induction false} OnlyKnownCoins(coinids: set<int>, calls: seq<Call>)
    requires forall k :: 0 <= k < |calls| ==> Callable(calls[k], Empty(coinids))
    ensures AllKnown(Run(Empty(coinids), calls).accounts)
    decreases |calls|
  {
    if calls != [] {
      var was := Run(Empty(coinids), calls[..|calls| - 1]);
      OnlyKnownCoins(coinids, calls[..|calls| - 1]);
      hide Known, AllKnown, Opened, FundsSpec.Booked;
      match calls[|calls| - 1] {
        case Book(kind, coinid, addr, value) => if Known(coinid) { BookedKnown(was.accounts, coinid, addr, kind, value); }
        case Open(coinid, addr) => if Known(coinid) { OpenedKnown(was.accounts, coinid, addr); }
      }
    }
  }

  // What `balance_verification` allows never overdraws: neither the coin nor the account transfers
  // more than was deposited, and neither sends more money than was withdrawn, or at once more than
  // its balance. It allows whatever does not.
  ghost predicate Overdraws(calls: seq<Call>, moneysend: bool, c: int, a: U64, value: int) {
    if moneysend then
      || Booked(calls, MoneySend, c) + value > Booked(calls, Withdraw, c)
      || BookedBy(calls, MoneySend, c, a) + value > BookedBy(calls, Withdraw, c, a)
      || value > Booked(calls, Deposit, c) - Booked(calls, Withdraw, c)
      || value > BookedBy(calls, Deposit, c, a) - BookedBy(calls, Withdraw, c, a)
    else
      || Booked(calls, Transfer, c) + value > Booked(calls, Deposit, c)
      || BookedBy(calls, Transfer, c, a) + value > BookedBy(calls, Deposit, c, a)
  }

  lemma VerifiedExactly(coinids: set<int>, calls: seq<Call>, moneysend: bool, c: int, a: U64, value: int)
    requires (forall k :: 0 <= k < |calls| ==> Callable(calls[k], Empty(coinids))) && c in coinids && Known(c)
    ensures var b := Run(Empty(coinids), calls);
            && c in b.totals
            && (Covers(b.totals[c], moneysend, value) && Covers(Held(b.accounts, c, a), moneysend, value)
                <==> !Overdraws(calls, moneysend, c, a, value))
  {
    TotalsAreBooked(coinids, calls, c);
    AccountsAreBooked(coinids, calls, c, a);
    hide Run, Booked, BookedBy, Held;
  }
}

module GatewayFunds {
  import opened Words
  import opened FundsSpec

  class GatewayBooks {
    var totals: map<int, Funds>
    var accounts: seq<Account>

    function View(): Books
      reads this
    {
      Books(totals, accounts)
    }

    constructor (coinids: set<int>)
      ensures View() == Empty(coinids)
    {
      totals, accounts := map c | c in coinids :: NOTHING, [];
    }

    // `ensure_coin_acct`
    method EnsureCoinAcct(i: nat, coinid: int) returns (j: nat)
      requires i < |accounts|
      modifies this`accounts
      ensures j == CoinIndex(old(accounts)[i].coins, coinid)
      ensures accounts == old(accounts)[i := old(accounts)[i].(coins := WithCoin(old(accounts)[i].coins, coinid))]
    {
      var np := accounts[i];
      j := 0;
      while j < |np.coins|
        invariant 0 <= j <= |np.coins| && forall k :: 0 <= k < j ==> np.coins[k].coinid != coinid
      {
        if np.coins[j].coinid == coinid {
          assert accounts == accounts[i := np];
          return;
        }
        j := j + 1;
      }
      accounts := accounts[i := np.(coins := np.coins + [CoinAcct(coinid, NOTHING)])];
    }

    // `get_coin_acct`
    method GetCoinAcct(coinid: int, addr: U64) returns (known: bool, i: nat, j: nat)
      modifies this`accounts
      ensures known == Known(coinid)
      ensures accounts == if known then Opened(old(accounts), coinid, addr) else old(accounts)
      ensures known ==> i < |accounts| && i == AccountIndex(old(accounts), addr)
                        && j == CoinIndex(WithAccount(old(accounts), addr)[i].coins, coinid) < |accounts[i].coins|
    {
      hide CoinIndex, AccountIndex, Known, CoinStr;
      IllegalIsUnknown(coinid);
      known, i, j := CoinStr(coinid) != ILLEGAL_COIN, 0, 0;
      if known {
        i := AccountIndex(accounts, addr);
        accounts := WithAccount(accounts, addr);
        j := EnsureCoinAcct(i, coinid);
      }
    }

    // `_update_balance_info` with `recalc_balance_info`, on one record.
    static method Change(bp: Funds, kind: Kind, value: int) returns (f: Funds)
      ensures f == Changed(bp, kind, value)
    {
      f := bp;
      match kind {
        case Deposit => f := f.(deposits := f.deposits + value);
        case Transfer => f := f.(transfers := f.transfers + value);
        case Withdraw => f := f.(withdraws := f.withdraws + value);
        case MoneySend => f := f.(moneysends := f.moneysends + value);
      }
      f := f.(remainingTransfers := f.deposits - f.transfers);
      f := f.(remainingMoneysends := f.withdraws - f.moneysends);
      f := f.(balance := f.deposits - f.withdraws);
    }

    method UpdateBalanceInfo(kind: Kind, coinid: int, addr: U64, value: int)
      requires coinid in totals
      modifies this
      ensures View() == Updated(old(View()), kind, coinid, addr, value)
    {
      hide CoinIndex, AccountIndex, Changed, WithAccount, Known;
      var total := Change(totals[coinid], kind, value);
      totals := totals[coinid := total];
      var known, i, j := GetCoinAcct(coinid, addr);
      if known {
        var np := accounts[i];
        var funds := Change(np.coins[j].funds, kind, value);
        accounts := accounts[i := np.(coins := np.coins[j := CoinAcct(np.coins[j].coinid, funds)])];
      }
    }

    // Both the coin's total and the account have to cover the value. Looking may open an account,
    // which holds nothing.
    method BalanceVerification(moneysend: bool, coinid: int, addr: U64, value: int) returns (r: int)
      requires coinid in totals
      modifies this`accounts
      ensures r > 0 <==> Known(coinid) && Covers(totals[coinid], moneysend, value)
                         && Covers(Held(old(accounts), coinid, addr), moneysend, value)
      ensures var f, h := totals[coinid], Held(old(accounts), coinid, addr);
              Known(coinid) && Balanced(f) && Balanced(h) ==>
                (r > 0 <==> if moneysend then && f.moneysends + value <= f.withdraws && value <= f.deposits - f.withdraws
                                              && h.moneysends + value <= h.withdraws && value <= h.deposits - h.withdraws
                            else f.transfers + value <= f.deposits && h.transfers + value <= h.deposits)
      ensures r == -1 <==> !Known(coinid) && Covers(totals[coinid], moneysend, value)
      ensures -1 <= r <= 1
      ensures View() == Looked(old(View()), moneysend, coinid, addr, value)
      ensures forall c: int, a: U64 :: Held(accounts, c, a) == Held(old(accounts), c, a)
    {
      hide CoinIndex, AccountIndex, Known, Held;
      var bp := totals[coinid];
      if !moneysend {
        if value > bp.remainingTransfers {
          return 0;
        }
      } else if value > bp.remainingMoneysends || value > bp.balance {
        return 0;
      }
      var known, i, j := GetCoinAcct(coinid, addr);
      if !known {
        return -1;
      }
      forall c: int, a: U64 ensures Held(accounts, c, a) == Held(old(accounts), c, a) {
        HeldOpened(old(accounts), coinid, addr, c, a);
      }
      OpenedHolds(old(accounts), coinid, addr);
      bp := accounts[i].coins[j].funds;
      if !moneysend {
        if value > bp.remainingTransfers {
          return 0;
        }
      } else if value > bp.remainingMoneysends || value > bp.balance {
        return 0;
      }
      return 1;
    }
  }

  lemma OpenedHolds(accounts: seq<Account>, coinid: int, addr: U64)
    ensures var all, i := Opened(accounts, coinid, addr), AccountIndex(accounts, addr);
            var j := CoinIndex(WithAccount(accounts, addr)[i].coins, coinid);
            i < |all| && j < |all[i].coins| && all[i].coins[j].funds == Held(accounts, coinid, addr)
  {
    assert CoinIndex([], coinid) == 0;
    hide CoinIndex, AccountIndex;
  }
}
