/**
 The in-memory rate limiter: one fixed window a key, restarted by the first request after it ran
 out, and a sweep of stale windows when the map has grown large.  Times are nanoseconds.
 */
module RateLimiter {
  import opened Options

  datatype Window = Window(started: int, count: nat)

  /** A request as the limiter sees it. */
  datatype Request = Request(key: string, limit: int, now: int)

  datatype Outcome = Outcome(allowed: bool, retryAfter: int)

  const MINUTE: int := 60_000_000_000
  const SWEEP_ABOVE: nat := 10000

  // ---------- one request ----------

  predicate Live(windows: map<string, Window>, key: string, duration: int, now: int) {
    key in windows && now - windows[key].started < duration
  }

  function Answer(windows: map<string, Window>, r: Request, duration: int): Outcome {
    if !Live(windows, r.key, duration, r.now) then Outcome(true, 0)
    else
      var w := windows[r.key];
      if w.count >= r.limit then Outcome(false, duration - (r.now - w.started)) else Outcome(true, 0)
  }

  /** The windows after the request, before any sweep. */
  function Counted(windows: map<string, Window>, r: Request, duration: int): map<string, Window> {
    if !Live(windows, r.key, duration, r.now) then windows[r.key := Window(r.now, 1)]
    else if windows[r.key].count >= r.limit then windows
    else windows[r.key := windows[r.key].(count := windows[r.key].count + 1)]
  }

  function Swept(windows: map<string, Window>, duration: int, now: int): map<string, Window> {
    map k | k in windows && now - windows[k].started < duration :: windows[k]
  }

  /** Only a request counted into a running window sweeps. */
  predicate Sweeps(windows: map<string, Window>, r: Request, duration: int) {
    && Live(windows, r.key, duration, r.now) && windows[r.key].count < r.limit
    && |Counted(windows, r, duration)| > SWEEP_ABOVE
  }

  function Served(windows: map<string, Window>, r: Request, duration: int): map<string, Window> {
    var counted := Counted(windows, r, duration);
    if Sweeps(windows, r, duration) then Swept(counted, duration, r.now) else counted
  }

  class Limiter {
    var windows: map<string, Window>

    constructor ()
      ensures windows == map[]
    {
      windows := map[];
    }

    method Allow(key: string, limit: int, duration: int, now: int) returns (allowed: bool, retryAfter: int)
      modifies this
      ensures windows == Served(old(windows), Request(key, limit, now), duration)
      ensures Outcome(allowed, retryAfter) == Answer(old(windows), Request(key, limit, now), duration)
    {
      if key !in windows || now - windows[key].started >= duration {
        windows := windows[key := Window(now, 1)];
        return true, 0;
      }
      var window := windows[key];
      if window.count >= limit {
        return false, duration - (now - window.started);
      }
      windows := windows[key := window.(count := window.count + 1)];
      if |windows| > SWEEP_ABOVE {
        Sweep(duration, now);
      }
      return true, 0;
    }

    /** The loop over the map that deletes while it iterates. */
    method Sweep(duration: int, now: int)
      modifies this
      ensures windows == Swept(old(windows), duration, now)
    {
      var candidates := windows.Keys;
      while candidates != {}
        invariant candidates <= windows.Keys <= old(windows).Keys
        invariant forall k :: k in windows ==> windows[k] == old(windows)[k]
        invariant forall k :: k in old(windows) && k !in candidates ==>
          (k in windows <==> now - old(windows)[k].started < duration)
        decreases |candidates|
      {
        ghost var some := Member(candidates);
        var candidate :| candidate in candidates;
        if now - windows[candidate].started >= duration {
          windows := windows - {candidate};
        }
        candidates := candidates - {candidate};
      }
      assert windows.Keys == Swept(old(windows), duration, now).Keys;
    }
  }

  // ---------- runs ----------

  ghost predicate Ordered(reqs: seq<Request>, from: int) {
    && (forall i :: 0 <= i < |reqs| ==> from <= reqs[i].now)
    && forall i, j :: 0 <= i < j < |reqs| ==> reqs[i].now <= reqs[j].now
  }

  lemma OrderedRest(reqs: seq<Request>, from: int)
    requires reqs != [] && Ordered(reqs, from)
    ensures from <= reqs[0].now && Ordered(reqs[1..], reqs[0].now)
  {
  }

  function Answers(windows: map<string, Window>, reqs: seq<Request>, duration: int): seq<Outcome>
    decreases |reqs|
  {
    if reqs == [] then []
    else [Answer(windows, reqs[0], duration)] + Answers(Served(windows, reqs[0], duration), reqs[1..], duration)
  }

  /** A limiter that never forgets a window. */
  function AnswersUnswept(windows: map<string, Window>, reqs: seq<Request>, duration: int): seq<Outcome>
    decreases |reqs|
  {
    if reqs == [] then []
    else [Answer(windows, reqs[0], duration)] + AnswersUnswept(Counted(windows, reqs[0], duration), reqs[1..], duration)
  }

  /** The two maps hold the same windows, apart from some that have run out. */
  ghost predicate SameLive(v: map<string, Window>, w: map<string, Window>, duration: int, now: int) {
    forall k :: (Live(v, k, duration, now) <==> Live(w, k, duration, now))
        && (Live(v, k, duration, now) ==> v[k] == w[k])
  }

  lemma SweepingIsInvisible(v: map<string, Window>, w: map<string, Window>, r: Request, duration: int, now: int)
    requires duration > 0 && SameLive(v, w, duration, now) && now <= r.now
    ensures Answer(v, r, duration) == Answer(w, r, duration)
    ensures SameLive(Served(v, r, duration), Counted(w, r, duration), duration, r.now)
  {
    forall k
      ensures Live(v, k, duration, r.now) <==> Live(w, k, duration, r.now)
      ensures Live(v, k, duration, r.now) ==> v[k] == w[k]
    {
      assert Live(v, k, duration, now) <==> Live(w, k, duration, now);
    }
    var x, y := Counted(v, r, duration), Counted(w, r, duration);
    assert SameLive(x, y, duration, r.now);
    forall k ensures Live(Swept(x, duration, r.now), k, duration, r.now) <==> Live(x, k, duration, r.now) {}
  }

  /** Sweeping never changes an answer, whatever the requests, if the clock does not run backwards. */
  lemma {:induction false} SweepNeverChangesAnswers(v: map<string, Window>, w: map<string, Window>,
    reqs: seq<Request>, duration: int, now: int)
    requires duration > 0 && SameLive(v, w, duration, now) && Ordered(reqs, now)
    ensures Answers(v, reqs, duration) == AnswersUnswept(w, reqs, duration)
    decreases |reqs|
  {
    if reqs != [] {
      OrderedRest(reqs, now);
      SweepingIsInvisible(v, w, reqs[0], duration, now);
      SweepNeverChangesAnswers(Served(v, reqs[0], duration), Counted(w, reqs[0], duration), reqs[1..], duration,
          reqs[0].now);
    }
  }

  // ---------- how many requests one window length can hold ----------

  /** Requests for `key` allowed at times in [a, a + duration). */
  function AllowedIn(reqs: seq<Request>, answers: seq<Outcome>, key: string, a: int, duration: int): nat
    requires |answers| == |reqs|
  {
    if reqs == [] then 0
    else
      (if answers[0].allowed && reqs[0].key == key && a <= reqs[0].now < a + duration then 1 else 0)
      + AllowedIn(reqs[1..], answers[1..], key, a, duration)
  }

  lemma AnswersLength(windows: map<string, Window>, reqs: seq<Request>, duration: int)
    ensures |Answers(windows, reqs, duration)| == |reqs| == |AnswersUnswept(windows, reqs, duration)|
    decreases |reqs|
  {
    if reqs != [] {
      AnswersLength(Served(windows, reqs[0], duration), reqs[1..], duration);
      AnswersLength(Counted(windows, reqs[0], duration), reqs[1..], duration);
    }
  }

  /** What `n` requests allowed so far in [a, a + duration) mean for the key's window at time `now`. */
  ghost predicate Budget(windows: map<string, Window>, key: string, limit: int, a: int, duration: int, now: int,
      n: int) {
    && (now < a ==> n == 0)
    && (key !in windows ==> n == 0)
    && (key in windows ==>
        var w := windows[key];
        && w.started <= now && 1 <= w.count <= limit
        && (w.started < a ==> n <= w.count - 1)
        && (a <= w.started < a + duration ==> n <= limit - 1 + w.count)
        && n <= 2 * limit - 1)
  }

  lemma {:induction false} BudgetHolds(windows: map<string, Window>, reqs: seq<Request>, key: string,
    limit: int, a: int, duration: int, now: int, n: int)
    requires duration > 0 && limit >= 1 && Ordered(reqs, now)
    requires forall r :: r in reqs && r.key == key ==> r.limit <= limit
    requires Budget(windows, key, limit, a, duration, now, n)
    ensures |AnswersUnswept(windows, reqs, duration)| == |reqs|
    ensures n + AllowedIn(reqs, AnswersUnswept(windows, reqs, duration), key, a, duration) <= 2 * limit - 1
    decreases |reqs|
  {
    AnswersLength(windows, reqs, duration);
    if reqs != [] {
      OrderedRest(reqs, now);
      var r := reqs[0];
      var next := Counted(windows, r, duration);
      var n1 := n + if Answer(windows, r, duration).allowed && r.key == key && a <= r.now < a + duration then 1 else 0;
      BudgetStep(windows, r, key, limit, a, duration, now, n);
      BudgetHolds(next, reqs[1..], key, limit, a, duration, r.now, n1);
      var answers := AnswersUnswept(windows, reqs, duration);
      assert answers[1..] == AnswersUnswept(next, reqs[1..], duration);
    }
  }

  lemma BudgetStep(windows: map<string, Window>, r: Request, key: string, limit: int, a: int, duration: int, now: int,
      n: int)
    requires duration > 0 && limit >= 1 && now <= r.now && (r.key == key ==> r.limit <= limit)
    requires Budget(windows, key, limit, a, duration, now, n)
    ensures
      var n1 := n + if Answer(windows, r, duration).allowed && r.key == key && a <= r.now < a + duration then 1 else 0;
      Budget(Counted(windows, r, duration), key, limit, a, duration, r.now, n1)
  {
  }

  /**
   With every limit used for a key at most `limit`, any interval of one window length holds at
   most 2 * limit - 1 allowed requests for it.
   */
  lemma AtMostTwoWindows(reqs: seq<Request>, key: string, limit: int, a: int, duration: int, from: int)
    requires duration > 0 && limit >= 1 && Ordered(reqs, from)
    requires forall r :: r in reqs && r.key == key ==> r.limit <= limit
    ensures |Answers(map[], reqs, duration)| == |reqs|
    ensures AllowedIn(reqs, Answers(map[], reqs, duration), key, a, duration) <= 2 * limit - 1
  {
    SweepNeverChangesAnswers(map[], map[], reqs, duration, from);
    BudgetHolds(map[], reqs, key, limit, a, duration, if from < a then from else from, 0);
  }

  /** `n` copies of one request into a window with room for them are all allowed. */
  lemma {:induction false} BurstIsAllowed(windows: map<string, Window>, r: Request, n: nat, duration: int, a: int)
    requires Live(windows, r.key, duration, r.now) && windows[r.key].count + n <= r.limit
    requires a <= r.now < a + duration
    ensures var reqs := seq(n, i => r);
      && |AnswersUnswept(windows, reqs, duration)| == n
      && AllowedIn(reqs, AnswersUnswept(windows, reqs, duration), r.key, a, duration) == n
    decreases n
  {
    var reqs := seq(n, i => r);
    if n > 0 {
      assert reqs[1..] == seq(n - 1, i => r);
      BurstIsAllowed(Counted(windows, r, duration), r, n - 1, duration, a);
      assert AnswersUnswept(windows, reqs, duration)[1..] ==
          AnswersUnswept(Counted(windows, r, duration), reqs[1..], duration);
    }
  }

  /** One request at 0, the rest of a window just before it ends, and a full window just after. */
  function BurstRun(limit: nat, duration: int): seq<Request>
    requires limit >= 1
  {
    [Request("k", limit, 0)] + (seq(limit - 1, i => Request("k", limit, duration - 1)) +
        seq(limit, i => Request("k", limit, duration)))
  }

  /** The bound is reached for every limit, in the window length that starts at 1. */
  lemma BurstAcrossTheBoundary(limit: nat, duration: int)
    requires limit >= 1 && duration >= 2
    ensures var reqs := BurstRun(limit, duration);
      && Ordered(reqs, 0) && (forall r :: r in reqs ==> r.key == "k" && r.limit == limit)
      && |Answers(map[], reqs, duration)| == |reqs|
      && AllowedIn(reqs, Answers(map[], reqs, duration), "k", 1, duration) == 2 * limit - 1
  {
    var reqs := BurstRun(limit, duration);
    SweepNeverChangesAnswers(map[], map[], reqs, duration, 0);
    BurstCounts(limit, duration);
  }

  lemma BurstCounts(limit: nat, duration: int)
    requires limit >= 1 && duration >= 2
    ensures var reqs := BurstRun(limit, duration);
      && |AnswersUnswept(map[], reqs, duration)| == |reqs|
      && AllowedIn(reqs, AnswersUnswept(map[], reqs, duration), "k", 1, duration) == 2 * limit - 1
  {
    var reqs := BurstRun(limit, duration);
    var late, next := Request("k", limit, duration - 1), Request("k", limit, duration);
    var started := map["k" := Window(0, 1)];
    FillThenRestart(started, late, next, limit - 1, limit, duration);
    assert reqs[1..] == seq(limit - 1, i => late) + seq(limit, i => next);
    assert Counted(map[], reqs[0], duration) == started;
    AnswersLength(map[], reqs, duration);
    assert AnswersUnswept(map[], reqs, duration)[1..] == AnswersUnswept(started, reqs[1..], duration);
  }

  lemma {:induction false} FillThenRestart(windows: map<string, Window>, late: Request, next: Request, m: nat,
      limit: nat, duration: int)
    requires duration >= 2 && limit >= 1 && late == Request("k", limit, duration - 1)
        && next == Request("k", limit, duration)
    requires "k" in windows && windows["k"].started == 0 && windows["k"].count + m <= limit
    ensures var reqs := seq(m, i => late) + seq(limit, i => next);
      && |AnswersUnswept(windows, reqs, duration)| == |reqs|
      && AllowedIn(reqs, AnswersUnswept(windows, reqs, duration), "k", 1, duration) == m + limit
    decreases m
  {
    var reqs := seq(m, i => late) + seq(limit, i => next);
    AnswersLength(windows, reqs, duration);
    if m > 0 {
      assert reqs[1..] == seq(m - 1, i => late) + seq(limit, i => next);
      FillThenRestart(Counted(windows, late, duration), late, next, m - 1, limit, duration);
      assert AnswersUnswept(windows, reqs, duration)[1..] ==
          AnswersUnswept(Counted(windows, late, duration), reqs[1..], duration);
    } else {
      assert reqs[0] == next && reqs[1..] == seq(limit - 1, i => next);
      var restarted := Counted(windows, next, duration);
      BurstIsAllowed(restarted, next, limit - 1, duration, 1);
      assert AnswersUnswept(windows, reqs, duration)[1..] == AnswersUnswept(restarted, reqs[1..], duration);
    }
  }

  // ---------- what Retry-After promises ----------

  function After(windows: map<string, Window>, reqs: seq<Request>, duration: int): map<string, Window>
    decreases |reqs|
  {
    if reqs == [] then windows else After(Served(windows, reqs[0], duration), reqs[1..], duration)
  }

  /**
   After a refusal, whatever else is asked in between, the same request is refused again until
   exactly `retryAfter` has passed, and allowed the first time it is made after that.
   */
  lemma {:induction false} RetryAfterIsExact(windows: map<string, Window>, refused: Request,
    reqs: seq<Request>, again: Request, duration: int)
    requires duration > 0 && !Answer(windows, refused, duration).allowed
    requires Ordered(reqs, refused.now) && Ordered(reqs + [again], refused.now)
    requires again.key == refused.key && again.limit == refused.limit
    requires forall r :: r in reqs && r.key == refused.key ==>
      r.limit <= refused.limit && r.now < refused.now + Answer(windows, refused, duration).retryAfter
    ensures 0 < Answer(windows, refused, duration).retryAfter
    ensures var answer := Answer(After(windows, reqs, duration), again, duration);
      answer.allowed <==> again.now >= refused.now + Answer(windows, refused, duration).retryAfter
  {
    var w := windows[refused.key];
    if reqs == [] {
      assert (reqs + [again])[0] == again;
    } else {
      OtherRequestsKeepWindow(windows, refused.key, refused.limit, reqs, again, duration, refused.now);
    }
  }

  /** A full window stays as it is until it runs out; then it stays or is swept, until its key is asked again. */
  lemma {:induction false} OtherRequestsKeepWindow(windows: map<string, Window>, key: string, limit: int,
    reqs: seq<Request>, again: Request, duration: int, now: int)
    requires duration > 0 && key in windows && windows[key].count >= limit
    requires Ordered(reqs + [again], now)
    requires forall r :: r in reqs && r.key == key ==> r.limit <= limit && r.now - windows[key].started < duration
    ensures var last := After(windows, reqs, duration);
      if key in last then last[key] == windows[key] else again.now - windows[key].started >= duration
    decreases |reqs|
  {
    if reqs != [] {
      var r := reqs[0];
      var next := Served(windows, r, duration);
      assert (reqs + [again])[1..] == reqs[1..] + [again];
      OrderedRest(reqs + [again], now);
      assert (reqs + [again])[|reqs|] == again;
      if key in next {
        OtherRequestsKeepWindow(next, key, limit, reqs[1..], again, duration, r.now);
      } else {
        GoneStaysGone(next, key, reqs[1..], duration);
        forall q | q in reqs[1..] ensures q.key != key {
          var i :| 0 <= i < |reqs[1..]| && reqs[1..][i] == q;
          assert (reqs + [again])[i + 1] == q;
        }
      }
    }
  }

  lemma {:induction false} GoneStaysGone(windows: map<string, Window>, key: string, reqs: seq<Request>, duration: int)
    requires key !in windows
    ensures (forall r :: r in reqs ==> r.key != key) ==> key !in After(windows, reqs, duration)
    decreases |reqs|
  {
    if reqs != [] && (forall r :: r in reqs ==> r.key != key) {
      GoneStaysGone(Served(windows, reqs[0], duration), key, reqs[1..], duration);
    }
  }

  // ---------- limits and buckets of real requests ----------

  datatype Http = Http(ip: string, path: string, isRead: bool, now: int)

  const AUTH := "/api/v1/auth/"

  predicate Credentials(path: string) {
    || path == "/api/v1/auth/login"
    || path == "/api/v1/auth/signup"
    || path == "/api/v1/auth/forgot-password"
    || path == "/api/v1/auth/reset-password"
  }

  predicate Bootstrap(path: string) {
    path == "/api/v1/auth/bootstrap"
  }

  function RequestLimit(path: string, isRead: bool): int {
    if Credentials(path) then 10 else if Bootstrap(path) then 5 else if !isRead then 60 else 300
  }

  function RateLimitBucket(path: string, isRead: bool): string {
    if AUTH <= path then path else if isRead then "read" else "write"
  }

  function Seen(h: Http): Request {
    Request(h.ip + "|" + RateLimitBucket(h.path, h.isRead), RequestLimit(h.path, h.isRead), h.now)
  }

  lemma ListedPathsAreAuth(path: string)
    requires Credentials(path) || Bootstrap(path)
    ensures AUTH <= path
  {
  }

  /**
   Two requests of one bucket have one limit, except on authentication paths outside the five
   listed ones: there reads (300) and writes (60) share a window.
   */
  lemma SameBucketSameLimit(p: string, r: bool, q: string, s: bool)
    requires RateLimitBucket(p, r) == RateLimitBucket(q, s)
    ensures RequestLimit(p, r) == RequestLimit(q, s) <==> (AUTH <= p && !Credentials(p) && !Bootstrap(p) ==> r == s)
  {
    assert "read"[0] == 'r' && "write"[0] == 'w' && AUTH[0] == '/';
    if AUTH <= p { assert p[0] == '/'; }
    if AUTH <= q { assert q[0] == '/'; }
    if Credentials(p) || Bootstrap(p) { ListedPathsAreAuth(p); }
    if Credentials(q) || Bootstrap(q) { ListedPathsAreAuth(q); }
  }

  /** So the two-window bound for a key uses the larger limit on those paths. */
  function BucketLimit(path: string, isRead: bool): int {
    if AUTH <= path && !Credentials(path) && !Bootstrap(path) then 300 else RequestLimit(path, isRead)
  }

  /** An IP address gets at most 2 * limit - 1 requests of one bucket through in any minute. */
  lemma MinuteBound(all: seq<Http>, h: Http, a: int, from: int)
    requires forall x :: x in all ==> '|' !in x.ip
    requires h in all && Ordered(seq(|all|, i requires 0 <= i < |all| => Seen(all[i])), from)
    ensures var reqs := seq(|all|, i requires 0 <= i < |all| => Seen(all[i]));
      && |Answers(map[], reqs, MINUTE)| == |reqs|
      && AllowedIn(reqs, Answers(map[], reqs, MINUTE), Seen(h).key, a, MINUTE) <= 2 * BucketLimit(h.path, h.isRead) - 1
  {
    var reqs := seq(|all|, i requires 0 <= i < |all| => Seen(all[i]));
    forall r | r in reqs && r.key == Seen(h).key ensures r.limit <= BucketLimit(h.path, h.isRead) {
      var i :| 0 <= i < |reqs| && reqs[i] == r;
      var x := all[i];
      assert x in all && Seen(x) == r;
      SameBucket(x, h);
      SameBucketSameLimit(x.path, x.isRead, h.path, h.isRead);
    }
    AtMostTwoWindows(reqs, Seen(h).key, BucketLimit(h.path, h.isRead), a, MINUTE, from);
  }

  lemma SameBucket(x: Http, y: Http)
    requires '|' !in x.ip && '|' !in y.ip && Seen(x).key == Seen(y).key
    ensures x.ip == y.ip && RateLimitBucket(x.path, x.isRead) == RateLimitBucket(y.path, y.isRead)
  {
    var key, m, n := Seen(x).key, |x.ip|, |y.ip|;
    assert key[m] == '|' && key[n] == '|';
    assert key[..m] == x.ip && key[..n] == y.ip;
    assert key[m + 1..] == RateLimitBucket(x.path, x.isRead);
    assert key[n + 1..] == RateLimitBucket(y.path, y.isRead);
  }
}
