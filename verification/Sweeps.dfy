// Which blocks of a coin a gateway processes, and how often with confirmations: the history sweep
// and the live sweep of `Coinloop` (multigateway/multigateway.h:112-161) over
// `add_bitcoind_uniquetxids` (multigateway/bitcoin.h:322-380).

module SweepSpec {
  import opened Wrappers

  // One pass over a block that was delivered, and if `update_coin_values` takes its outputs for
  // confirmed. A text that does not parse has no outputs to show, and is passed over all the same.
  datatype Pass = Pass(height: int, isconfirmed: bool)

  // What one turn of the loop meets: the daemon's height at lines 114 and 138, whether it delivers
  // the first and the second block it is asked for, and the health of the NXT network.
  datatype Turn = Turn(height: int, latest: int, first: bool, second: bool, healthy: bool)

  // `began` is the height at which the live sweep began; `initdone` is set then.
  datatype Sweep = Sweep(blockheight: int, began: Option<int>)

  // Lines 283-286 of bitcoin.h; `m` is the coin's `min_confirms`.
  predicate IsConfirmed(live: bool, block: int, blockheight: int, m: nat) {
    !live || block <= blockheight - m
  }

  // The blocks that are asked for, in order: in the live sweep the one `m` blocks back comes second.
  function Asked(live: bool, blockheight: int, m: nat): seq<Pass> {
    [Pass(blockheight, IsConfirmed(live, blockheight, blockheight, m))]
    + if live then [Pass(blockheight - m, IsConfirmed(live, blockheight - m, blockheight, m))] else []
  }

  // How many of them are processed before one is not delivered.
  function Delivered(live: bool, first: bool, second: bool): (n: nat)
    ensures n <= if live then 2 else 1
  {
    if !first then 0 else if live && second then 2 else 1
  }

  function Added(live: bool, blockheight: int, m: nat, t: Turn): (r: (seq<Pass>, bool)) {
    var n := Delivered(live, t.first, t.second);
    (Asked(live, blockheight, m)[..n], n == |Asked(live, blockheight, m)|)
  }

  // One turn: the new state, and the passes made.
  function Turned(s: Sweep, m: nat, t: Turn): (Sweep, seq<Pass>) {
    if s.began.None? && s.blockheight <= t.height - m - 1 then
      var (passes, ok) := Added(false, s.blockheight, m, t);
      (if ok then s.(blockheight := s.blockheight + 1) else s, passes)
    else
      var u := if s.began.None? then s.(began := Some(s.blockheight)) else s;
      if t.healthy && u.blockheight <= t.latest then
        var (passes, ok) := Added(true, u.blockheight, m, t);
        (if ok then u.(blockheight := u.blockheight + 1) else u, passes)
      else (u, [])
  }

  // All turns since the program started with the configured height.
  function Swept(start: int, m: nat, turns: seq<Turn>): (Sweep, seq<Pass>) {
    if turns == [] then (Sweep(start, None), [])
    else
      var (s, passes) := Swept(start, m, turns[..|turns| - 1]);
      var (t, more) := Turned(s, m, turns[|turns| - 1]);
      (t, passes + more)
  }

  // How often a block is processed with confirmations.
  function Confirmations(passes: seq<Pass>, h: int): nat {
    if passes == [] then 0
    else Confirmations(passes[..|passes| - 1], h) + if passes[|passes| - 1] == Pass(h, true) then 1 else 0
  }

  lemma {:induction false} ConfirmationsAdd(passes: seq<Pass>, more: seq<Pass>, h: int)
    ensures Confirmations(passes + more, h) == Confirmations(passes, h) + Confirmations(more, h)
  {
    if more == [] {
      assert passes + more == passes;
    } else {
      assert (passes + more)[..|passes + more| - 1] == passes + more[..|more| - 1];
      ConfirmationsAdd(passes, more[..|more| - 1], h);
    }
  }

  lemma ConfirmationsOfTwo(p: Pass, q: Pass, h: int)
    ensures Confirmations([], h) == 0
    ensures Confirmations([p], h) == if p == Pass(h, true) then 1 else 0
    ensures Confirmations([p, q], h) == (if p == Pass(h, true) then 1 else 0) + if q == Pass(h, true) then 1 else 0
  {
    assert [p][..0] == [] && [p, q][..1] == [p];
  }

  function Between(lo: int, h: int, hi: int): nat {
    if lo <= h < hi then 1 else 0
  }

  // The confirmed passes of one call.
  lemma AddedConfirms(live: bool, blockheight: int, m: nat, t: Turn, h: int)
    ensures var (passes, ok) := Added(live, blockheight, m, t);
            && (!live ==> Confirmations(passes, h) == if ok && h == blockheight then 1 else 0)
            && (live && m > 0 ==> Confirmations(passes, h) == if ok && h == blockheight - m then 1 else 0)
            && (live && m == 0 ==> Confirmations(passes, h) >= if ok && h == blockheight then 2 else 0)
  {
    var asked := Asked(live, blockheight, m);
    var p, q := asked[0], Pass(blockheight - m, true);
    ConfirmationsOfTwo(p, q, h);
    assert asked[..0] == [] && asked[..1] == [p];
    if live { assert asked[..2] == [p, q]; }
  }

  // How often each height is confirmed. The history sweep takes every height below the one at
  // which the live sweep began, and the live sweep takes every height again from `m` blocks before.
  lemma {:induction false} ConfirmedPasses(start: int, m: nat, turns: seq<Turn>, h: int)
    ensures var (s, passes) := Swept(start, m, turns);
            && start <= s.blockheight
            && (s.began.None? ==> Confirmations(passes, h) == Between(start, h, s.blockheight))
            && (s.began.Some? ==>
                  && start <= s.began.value <= s.blockheight
                  && (m > 0 ==> Confirmations(passes, h)
                                == Between(start, h, s.began.value) + Between(s.began.value - m, h, s.blockheight - m))
                  && (m == 0 ==> Confirmations(passes, h)
                                 >= Between(start, h, s.began.value) + 2 * Between(s.began.value, h, s.blockheight)))
  {
    hide Confirmations, Added;
    if turns == [] {
      ConfirmationsOfTwo(Pass(h, true), Pass(h, true), h);
    } else {
      var last := |turns| - 1;
      ConfirmedPasses(start, m, turns[..last], h);
      var (s, passes) := Swept(start, m, turns[..last]);
      var (t, more) := Turned(s, m, turns[last]);
      ConfirmationsAdd(passes, more, h);
      ConfirmationsOfTwo(Pass(h, true), Pass(h, true), h);
      AddedConfirms(false, s.blockheight, m, turns[last], h);
      AddedConfirms(true, s.blockheight, m, turns[last], h);
    }
  }

  // Once the live sweep has left a height behind, it was confirmed twice when it is one of the `m`
  // heights before the live sweep began, and once otherwise; without confirmations to wait for,
  // every height of the live sweep is confirmed twice at least.
  lemma OverlapIsTwice(start: int, m: nat, turns: seq<Turn>, h: int)
    requires Swept(start, m, turns).0.began.Some? && start <= h < Swept(start, m, turns).0.blockheight - m
    ensures var (s, passes) := Swept(start, m, turns);
            && (m > 0 ==> Confirmations(passes, h) == if s.began.value - m <= h < s.began.value then 2 else 1)
            && (m == 0 && h >= s.began.value ==> Confirmations(passes, h) >= 2)
  {
    hide Swept, Confirmations;
    ConfirmedPasses(start, m, turns, h);
  }

  // The least run in which a height is confirmed twice: a chain of three blocks, one confirmation.
  lemma OverlapExists() returns (turns: seq<Turn>)
    ensures Swept(0, 1, turns) == (Sweep(2, Some(1)), [Pass(0, true), Pass(1, false), Pass(0, true)])
    ensures Confirmations(Swept(0, 1, turns).1, 0) == 2
  {
    var t := Turn(2, 2, true, true, true);
    turns := [t, t];
    assert turns[..1] == [t] && [t][..0] == [];
    assert Swept(0, 1, []) == (Sweep(0, None), []);
    assert Asked(false, 0, 1) == [Pass(0, true)];
    assert Added(false, 0, 1, t) == ([Pass(0, true)], true);
    assert Turned(Sweep(0, None), 1, t) == (Sweep(1, None), [Pass(0, true)]);
    assert [] + [Pass(0, true)] == [Pass(0, true)];
    assert Swept(0, 1, [t]) == (Sweep(1, None), [Pass(0, true)]);
    assert Asked(true, 1, 1) == [Pass(1, false), Pass(0, true)] == Asked(true, 1, 1)[..2];
    assert Added(true, 1, 1, t) == ([Pass(1, false), Pass(0, true)], true);
    assert Turned(Sweep(1, None), 1, t) == (Sweep(2, Some(1)), [Pass(1, false), Pass(0, true)]);
    assert [Pass(0, true)] + [Pass(1, false), Pass(0, true)] == [Pass(0, true), Pass(1, false), Pass(0, true)];
    ConfirmedPasses(0, 1, turns, 0);
  }
}

// The loop on the gateway's own fields.
module Sweeps {
  import opened SweepSpec
  import opened Wrappers

  class GatewayInfo {
    const min_confirms: nat
    var blockheight: int
    var initdone: bool
    ghost var began: Option<int>

    ghost predicate Valid()
      reads this
    {
      initdone <==> began.Some?
    }

    ghost function View(): Sweep
      reads this
    {
      Sweep(blockheight, began)
    }

    constructor (start: int, min_confirms: nat)
      ensures Valid() && View() == Sweep(start, None) && this.min_confirms == min_confirms
    {
      this.min_confirms, blockheight, initdone, began := min_confirms, start, false, None;
    }

    // `add_bitcoind_uniquetxids`; 0 when both blocks, or the one, could be had.
    method AddUniqueTxids(RTmode: nat, t: Turn) returns (passes: seq<Pass>, r: int)
      requires RTmode < 2
      ensures (passes, r == 0) == Added(RTmode == 1, blockheight, min_confirms, t)
    {
      passes := [];
      var iter := 0;
      while iter < 1 + RTmode
        invariant 0 <= iter <= 1 + RTmode && iter <= Delivered(RTmode == 1, t.first, t.second)
        invariant passes == Asked(RTmode == 1, blockheight, min_confirms)[..iter]
      {
        var block := blockheight - iter * min_confirms;
        if !(if iter == 0 then t.first else t.second) {
          return passes, -1;
        }
        passes := passes + [Pass(block, RTmode == 0 || block <= blockheight - min_confirms)];
        iter := iter + 1;
      }
      return passes, 0;
    }

    // Lines 112-161, as far as blocks are concerned.
    method Coinloop(t: Turn) returns (passes: seq<Pass>)
      requires Valid()
      modifies this
      ensures Valid() && (View(), passes) == Turned(old(View()), min_confirms, t)
    {
      hide Added;
      passes := [];
      var r: int;
      if !initdone {
        if blockheight <= t.height - min_confirms - 1 {
          passes, r := AddUniqueTxids(0, t);
          if r == 0 {
            blockheight := blockheight + 1;
          }
          return;
        }
        initdone, began := true, Some(blockheight);
      }
      if blockheight <= t.latest && t.healthy {
        passes, r := AddUniqueTxids(1, t);
        var flag := if r == 0 then 1 else 0;
        blockheight := blockheight + flag;
      }
    }
  }
}

// The deposits of a coin over both sweeps.
module CreditedHeights {
  import opened DepositRuns
  import opened SweepSpec
  import opened Wrappers

  type Place = (Tx, nat)               // an output
  type Chain = int -> seq<Place>       // the outputs of every block

  function Flagged(block: seq<Place>, isconfirmed: bool): seq<(Place, bool)> {
    if block == [] then [] else Flagged(block[..|block| - 1], isconfirmed) + [(block[|block| - 1], isconfirmed)]
  }

  // What the passes show to `process_vouts`, in order.
  function Shown(chain: Chain, passes: seq<Pass>): seq<(Place, bool)> {
    if passes == [] then []
    else
      var p := passes[|passes| - 1];
      Shown(chain, passes[..|passes| - 1]) + Flagged(chain(p.height), p.isconfirmed)
  }

  // The outputs that the events of a node process, in order; other events may come in between.
  function Processed(events: seq<Event>): seq<(Place, bool)> {
    if events == [] then []
    else
      var e := events[|events| - 1];
      Processed(events[..|events| - 1]) + if e.Output? then [((e.tx, e.vout), e.isconfirmed != 0)] else []
  }

  // The output is in one block, once.
  ghost predicate OnlyAt(chain: Chain, at: Place, h: int) {
    forall g :: multiset(chain(g))[at] == if g == h then 1 else 0
  }

  // Its address is bound whenever it is processed.
  ghost predicate Bound(events: seq<Event>, at: Place) {
    forall k :: 0 <= k < |events| && events[k].Output? && (events[k].tx, events[k].vout) == at ==> events[k].binding.Some?
  }

  lemma {:induction false} FlaggedCounts(block: seq<Place>, isconfirmed: bool, at: Place)
    ensures multiset(Flagged(block, isconfirmed))[(at, true)] == if isconfirmed then multiset(block)[at] else 0
  {
    if block != [] {
      var last := |block| - 1;
      FlaggedCounts(block[..last], isconfirmed, at);
      assert block == block[..last] + [block[last]];
    }
  }

  lemma {:induction false} ShownCounts(chain: Chain, passes: seq<Pass>, at: Place, h: int)
    requires OnlyAt(chain, at, h)
    ensures multiset(Shown(chain, passes))[(at, true)] == Confirmations(passes, h)
  {
    if passes != [] {
      var last := |passes| - 1;
      var p := passes[last];
      ShownCounts(chain, passes[..last], at, h);
      FlaggedCounts(chain(p.height), p.isconfirmed, at);
    }
  }

  lemma {:induction false} ProcessedCounts(events: seq<Event>, at: Place)
    requires Bound(events, at)
    ensures multiset(Processed(events))[(at, true)] == Confirmed(events, at.0, at.1)
  {
    if events != [] {
      var last := |events| - 1;
      assert Bound(events[..last], at) by {
        assert forall k :: 0 <= k < last ==> events[..last][k] == events[k];
      }
      ProcessedCounts(events[..last], at);
    }
  }

  // A deposit is credited as often as its height is confirmed: from the configured height on, once
  // both sweeps have passed it, twice when it is one of the `m` heights before the live sweep began
  // and once otherwise.
  lemma CreditedTwiceInOverlap(coinid: int, gatewayid: int, events: seq<Event>, chain: Chain, start: int, m: nat,
                               turns: seq<Turn>, at: Place, h: int)
    requires AllPossible(Start(coinid), gatewayid, events) && forall k :: 0 <= k < |events| ==> !events[k].Again?
    requires Processed(events) == Shown(chain, Swept(start, m, turns).1)
    requires OnlyAt(chain, at, h) && Bound(events, at)
    ensures var n := Run(Start(coinid), gatewayid, events); var (s, passes) := Swept(start, m, turns);
            && Within(n.xps, |n.records|)
            && Entries(n.records, n.xps, at.0, at.1) == Confirmations(passes, h)
            && (m > 0 && s.began.Some? && start <= h < s.blockheight - m ==>
                  Entries(n.records, n.xps, at.0, at.1) == if s.began.value - m <= h < s.began.value then 2 else 1)
  {
    hide Swept, Confirmations, Entries, Confirmed, Processed, Shown, Run, OnlyAt, Bound;
    CreditedAsConfirmed(coinid, gatewayid, events, at.0, at.1);
    ShownCounts(chain, Swept(start, m, turns).1, at, h);
    ProcessedCounts(events, at);
    var s := Swept(start, m, turns).0;
    if s.began.Some? && start <= h < s.blockheight - m { OverlapIsTwice(start, m, turns, h); }
  }
}
