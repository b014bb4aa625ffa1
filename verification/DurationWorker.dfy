/**
 The duration worker over all meetings: a pass takes the first fifty meetings its query selects, in
 the order of their start, and handles them one by one.  Rows stand in that order, requests leave
 them alone and their limits stay the same between passes.
 */
module DurationWorker {
  import opened Options
  import opened Meetings

  const BATCH: nat := 50

  datatype Row = Row(cfg: Config, state: State, limits: Limits)

  /** How the handling of one meeting ends. */
  datatype Ending = Ending(committed: CommitOutcome, close: Close, recorded: CommitOutcome)

  /** `ends` says for each row how its handling ends if the pass picks it. */
  datatype Pass = Pass(now: int, ends: nat -> Ending)

  predicate Waiting(row: Row, now: int) {
    Selected(row.state.meeting, EffectiveLimit(row.limits), now)
  }

  function WaitingIds(table: seq<Row>, now: int): (ids: seq<nat>)
    ensures forall k | 0 <= k < |ids| :: ids[k] < |table| && Waiting(table[ids[k]], now)
    ensures forall a, b | 0 <= a < b < |ids| :: ids[a] < ids[b]
  {
    if table == [] then []
    else
      var n := |table| - 1;
      WaitingIds(table[..n], now) + if Waiting(table[n], now) then [n] else []
  }

  /** `ORDER BY m.started_at NULLS LAST,m.id LIMIT 50`. */
  function Batch(table: seq<Row>, now: int): seq<nat> {
    var ids := WaitingIds(table, now);
    if |ids| <= BATCH then ids else ids[..BATCH]
  }

  function Enforced(row: Row, now: int, x: Ending): Row {
    row.(state := Step(row.cfg, row.state, Enforce(row.limits, x.committed, x.close, x.recorded, now)))
  }

  function PassStep(table: seq<Row>, p: Pass): (out: seq<Row>)
    ensures |out| == |table|
  {
    var batch := Batch(table, p.now);
    seq(|table|, i requires 0 <= i < |table| => if i in batch then Enforced(table[i], p.now, p.ends(i)) else table[i])
  }

  function After(table: seq<Row>, ps: seq<Pass>): (out: seq<Row>)
    ensures |out| == |table|
  {
    if ps == [] then table else PassStep(After(table, ps[..|ps| - 1]), ps[|ps| - 1])
  }

  // ---------- whom a pass picks ----------

  function WaitingBefore(table: seq<Row>, i: nat, now: int): set<nat>
    requires i <= |table|
  {
    set j: nat | j < i && Waiting(table[j], now)
  }

  lemma {:induction false} CountIsSize(table: seq<Row>, now: int)
    ensures |WaitingIds(table, now)| == |WaitingBefore(table, |table|, now)|
  {
    if table != [] {
      var n := |table| - 1;
      CountIsSize(table[..n], now);
      assert WaitingBefore(table, n + 1, now) ==
        WaitingBefore(table[..n], n, now) + if Waiting(table[n], now) then {n} else {};
    }
  }

  /** A waiting meeting stands in the query's result after those that wait before it. */
  lemma {:induction false} Position(table: seq<Row>, now: int, i: nat)
    requires i < |table| && Waiting(table[i], now)
    ensures var k := |WaitingBefore(table, i, now)|;
            k < |WaitingIds(table, now)| && WaitingIds(table, now)[k] == i
  {
    var n := |table| - 1;
    assert WaitingBefore(table, i, now) == WaitingBefore(table[..n], i, now);
    if i < n {
      Position(table[..n], now, i);
    } else {
      CountIsSize(table[..n], now);
    }
  }

  /** A pass picks a meeting exactly if it waits and fewer than fifty wait before it. */
  lemma PickedExactly(table: seq<Row>, now: int, i: nat)
    requires i < |table|
    ensures i in Batch(table, now) <==> Waiting(table[i], now) && |WaitingBefore(table, i, now)| < BATCH
  {
    var ids := WaitingIds(table, now);
    if Waiting(table[i], now) {
      Position(table, now, i);
      var k := |WaitingBefore(table, i, now)|;
      assert k < BATCH ==> Batch(table, now)[k] == i;
      forall a | 0 <= a < |ids| && ids[a] == i ensures a == k {
      }
    } else {
      assert i !in ids;
    }
  }

  // ---------- what handling a meeting does ----------

  ghost predicate TableOk(table: seq<Row>) {
    forall row <- table :: Inv(row.cfg, row.state)
  }

  predicate Works(x: Ending) {
    x.committed.Committed? && x.close != CloseFailed && !x.recorded.RolledBack?
  }

  lemma WaitsOn(row: Row, now: int, later: int)
    requires Waiting(row, now) && now <= later
    ensures Waiting(row, later)
  {
  }

  lemma FailedCloseWaits(row: Row, now: int, x: Ending)
    requires Inv(row.cfg, row.state) && Waiting(row, now) && x.close == CloseFailed
    ensures Waiting(Enforced(row, now, x), now)
  {
  }

  lemma WorkingCloseEnds(row: Row, now: int, x: Ending)
    requires Inv(row.cfg, row.state) && Waiting(row, now) && Works(x)
    ensures Enforced(row, now, x).state.meeting.roomClosedAt.Some?
  {
  }

  lemma ClosedWaitsNot(row: Row, now: int)
    requires Inv(row.cfg, row.state) && row.state.meeting.roomClosedAt.Some?
    ensures !Waiting(row, now)
  {
  }

  lemma PassKeepsOk(table: seq<Row>, p: Pass)
    requires TableOk(table)
    ensures TableOk(PassStep(table, p))
  {
    var out := PassStep(table, p);
    forall i | 0 <= i < |out| ensures Inv(out[i].cfg, out[i].state) {
      assert table[i] in table;
      if i in Batch(table, p.now) {
        var x, row := p.ends(i), table[i];
        StepKeepsInv(row.cfg, row.state, Enforce(row.limits, x.committed, x.close, x.recorded, p.now));
      }
    }
  }

  lemma {:induction false} AfterKeepsOk(table: seq<Row>, ps: seq<Pass>)
    requires TableOk(table)
    ensures TableOk(After(table, ps))
  {
    if ps != [] {
      AfterKeepsOk(table, ps[..|ps| - 1]);
      PassKeepsOk(After(table, ps[..|ps| - 1]), ps[|ps| - 1]);
    }
  }

  // ---------- whom later passes reach ----------

  predicate Forward(start: int, ps: seq<Pass>) {
    && (forall k | 0 <= k < |ps| :: start <= ps[k].now)
    && (forall j, k | 0 <= j < k < |ps| :: ps[j].now <= ps[k].now)
  }

  function Clock(start: int, ps: seq<Pass>): int {
    if ps == [] then start else ps[|ps| - 1].now
  }

  predicate PickedAt(table: seq<Row>, ps: seq<Pass>, k: nat, i: nat) {
    k < |ps| && i in Batch(After(table, ps[..k]), ps[k].now)
  }

  ghost predicate PickedIn(table: seq<Row>, ps: seq<Pass>, i: nat) {
    exists k: nat :: PickedAt(table, ps, k, i)
  }

  lemma PickedAtEarlier(table: seq<Row>, ps: seq<Pass>, k: nat, i: nat)
    requires k < |ps| - 1
    ensures PickedAt(table, ps, k, i) <==> PickedAt(table, ps[..|ps| - 1], k, i)
  {
    assert ps[..|ps| - 1][..k] == ps[..k];
  }

  lemma PickedEarlier(table: seq<Row>, ps: seq<Pass>, i: nat)
    requires ps != []
    ensures PickedIn(table, ps, i) <==>
            PickedIn(table, ps[..|ps| - 1], i) || PickedAt(table, ps, |ps| - 1, i)
  {
    var n := |ps| - 1;
    forall k: nat | PickedAt(table, ps, k, i) && k != n ensures PickedAt(table, ps[..n], k, i) {
      PickedAtEarlier(table, ps, k, i);
    }
    forall k: nat | PickedAt(table, ps[..n], k, i) ensures PickedAt(table, ps, k, i) {
      PickedAtEarlier(table, ps, k, i);
    }
  }

  lemma StaysWaiting(table: seq<Row>, p: Pass, j: nat, now: int)
    requires TableOk(table) && j < |table| && Waiting(table[j], now) && now <= p.now
    requires p.ends(j).close == CloseFailed || j !in Batch(table, p.now)
    ensures Waiting(PassStep(table, p)[j], p.now)
  {
    WaitsOn(table[j], now, p.now);
    assert table[j] in table;
    if j in Batch(table, p.now) {
      FailedCloseWaits(table[j], p.now, p.ends(j));
    }
  }

  /**
   Fifty meetings whose rooms never close keep every later one out: it is never picked and stays as it
   is, a running one beyond its limit.
   */
  lemma {:induction false} Starved(table: seq<Row>, start: int, ps: seq<Pass>, stuck: set<nat>, i: nat)
    requires TableOk(table) && i < |table| && Forward(start, ps) && |stuck| >= BATCH
    requires forall j <- stuck :: j < i && Waiting(table[j], start)
    requires forall p <- ps, j <- stuck :: p.ends(j).close == CloseFailed
    ensures !PickedIn(table, ps, i) && After(table, ps)[i] == table[i]
    ensures forall j <- stuck :: Waiting(After(table, ps)[j], Clock(start, ps))
  {
    if ps != [] {
      var n := |ps| - 1;
      var before, p := After(table, ps[..n]), ps[n];
      Starved(table, start, ps[..n], stuck, i);
      AfterKeepsOk(table, ps[..n]);
      forall j <- stuck ensures Waiting(before[j], p.now) && Waiting(After(table, ps)[j], p.now) {
        WaitsOn(before[j], Clock(start, ps[..n]), p.now);
        StaysWaiting(before, p, j, p.now);
      }
      assert stuck <= WaitingBefore(before, i, p.now);
      SubsetIsSmaller(stuck, WaitingBefore(before, i, p.now));
      PickedExactly(before, p.now, i);
      PickedEarlier(table, ps, i);
    }
  }

  lemma {:induction false} SubsetIsSmaller(a: set<nat>, b: set<nat>)
    requires a <= b
    ensures |a| <= |b|
    ensures |a| < |b| ==> b - a != {}
  {
    assert b == a + (b - a);
  }

  /** The meetings before `i` that can still wait and do not fail. */
  function Pending(table: seq<Row>, stuck: set<nat>, i: nat): set<nat>
    requires i <= |table|
  {
    set j: nat | j < i && j !in stuck && table[j].state.meeting.roomClosedAt.None?
  }

  lemma {:induction false} LeastOf(s: set<nat>) returns (j: nat)
    requires s != {}
    ensures j in s && forall k <- s :: j <= k
  {
    var x := Member(s);
    if s == {x} {
      j := x;
    } else {
      assert s - {x} != {};
      j := LeastOf(s - {x});
      if x < j { j := x; }
      assert forall k <- s :: k == x || k in s - {x};
    }
  }

  /** If a pass leaves `i` waiting outside its fifty, one of these is done with. */
  lemma OnePendingLess(table: seq<Row>, p: Pass, stuck: set<nat>, i: nat)
    requires TableOk(table) && i < |table| && |stuck| < BATCH
    requires Waiting(table[i], p.now) && i !in Batch(table, p.now)
    requires forall j: nat | j < i && j !in stuck :: Works(p.ends(j))
    ensures |Pending(PassStep(table, p), stuck, i)| < |Pending(table, stuck, i)|
  {
    PickedExactly(table, p.now, i);
    var before := WaitingBefore(table, i, p.now);
    assert before - stuck != {} by {
      if before - stuck == {} {
        assert forall k <- before :: k in stuck || k in before - stuck;
        SubsetIsSmaller(before, stuck);
      }
    }
    var j := LeastOf(before - stuck);
    SubsetIsSmaller(WaitingBefore(table, j, p.now), stuck) by {
      assert forall k <- WaitingBefore(table, j, p.now) :: k in before && (k in stuck || k in before - stuck);
    }
    PickedExactly(table, p.now, j);
    assert table[j] in table;
    WorkingCloseEnds(table[j], p.now, p.ends(j));
    if table[j].state.meeting.roomClosedAt.Some? { ClosedWaitsNot(table[j], p.now); }
    forall k <- Pending(PassStep(table, p), stuck, i) ensures k in Pending(table, stuck, i) - {j} {
      ClosedStays(table, p, k);
    }
    SubsetIsSmaller(Pending(PassStep(table, p), stuck, i), Pending(table, stuck, i) - {j});
  }

  lemma ClosedStays(table: seq<Row>, p: Pass, k: nat)
    requires TableOk(table) && k < |table|
    ensures table[k].state.meeting.roomClosedAt.Some? ==> PassStep(table, p)[k] == table[k]
  {
    assert table[k] in table;
    if table[k].state.meeting.roomClosedAt.Some? {
      ClosedWaitsNot(table[k], p.now);
      PickedExactly(table, p.now, k);
    }
  }

  lemma {:induction false} UnpickedCostsOne(table: seq<Row>, start: int, ps: seq<Pass>, stuck: set<nat>, i: nat)
    requires TableOk(table) && i < |table| && Forward(start, ps) && |stuck| < BATCH && Waiting(table[i], start)
    requires forall p <- ps, j: nat | j < i && j !in stuck :: Works(p.ends(j))
    requires !PickedIn(table, ps, i)
    ensures After(table, ps)[i] == table[i]
    ensures |Pending(After(table, ps), stuck, i)| + |ps| <= |Pending(table, stuck, i)|
  {
    if ps != [] {
      var n := |ps| - 1;
      var before, p := After(table, ps[..n]), ps[n];
      PickedEarlier(table, ps, i);
      UnpickedCostsOne(table, start, ps[..n], stuck, i);
      AfterKeepsOk(table, ps[..n]);
      WaitsOn(table[i], start, p.now);
      assert !PickedAt(table, ps, n, i);
      OnePendingLess(before, p, stuck, i);
    }
  }

  lemma {:induction false} BelowIsSmall(s: set<nat>, n: nat)
    requires forall j <- s :: j < n
    ensures |s| <= n
  {
    if n == 0 {
      assert s == {};
    } else {
      BelowIsSmall(s - {n - 1}, n - 1);
    }
  }

  /**
   Main result: of meetings whose rooms either never close or close at once, a waiting one is picked
   within as many passes as stand before it, and one more, exactly if fewer than fifty of those before
   it never close.
   */
  lemma ServedExactly(table: seq<Row>, start: int, ps: seq<Pass>, stuck: set<nat>, i: nat)
    requires TableOk(table) && i < |table| && Forward(start, ps) && Waiting(table[i], start) && |ps| > i
    requires forall j <- stuck :: j < i && Waiting(table[j], start)
    requires forall p <- ps, j <- stuck :: p.ends(j).close == CloseFailed
    requires forall p <- ps, j: nat | j < i && j !in stuck :: Works(p.ends(j))
    ensures PickedIn(table, ps, i) <==> |stuck| < BATCH
  {
    if |stuck| >= BATCH {
      Starved(table, start, ps, stuck, i);
    } else if !PickedIn(table, ps, i) {
      UnpickedCostsOne(table, start, ps, stuck, i);
      BelowIsSmall(Pending(table, stuck, i), i);
    }
  }

  // ---------- the worker ----------

  class Worker {
    var table: seq<Row>

    constructor (table: seq<Row>)
      ensures this.table == table
    {
      this.table := table;
    }

    /** One pass: the query's rows first, then each of them in turn, whatever fails. */
    method RunMeetingDurationEnforcement(p: Pass)
      modifies this
      ensures table == PassStep(old(table), p)
    {
      var items := Batch(table, p.now);
      for k := 0 to |items|
        invariant |table| == |old(table)|
        invariant forall i | 0 <= i < |table| ::
            table[i] == if i in items[..k] then Enforced(old(table)[i], p.now, p.ends(i)) else old(table)[i]
      {
        var item := items[k];
        assert item in items && item < |table|;
        assert items[..k + 1] == items[..k] + [item] && item !in items[..k];
        table := table[item := Enforced(table[item], p.now, p.ends(item))];
      }
      assert items[..|items|] == items;
    }
  }
}
