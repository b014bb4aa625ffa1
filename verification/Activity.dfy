/**
 The merged activity feed: six queries, each bounded and ordered by the database, appended to
 one slice that is sorted and cut.  The reference definition of a page does not know about the
 per-query bound: it sorts the union of all six sources.
 */
module Activity {
  import opened Options

  /** `time` is the row's timestamp; `id` stands for everything else shown. */
  datatype Item = Item(id: string, time: int)

  /** A query parameter: absent (or blank), not parsable, or a value. */
  datatype Parameter = Absent | Malformed | Given(value: int)

  datatype Reply = Rejected | Page(items: seq<Item>, hasMore: bool, nextBefore: Option<int>)

  const MINUTE: int := 60_000_000

  // ---------- sequences of items ----------

  ghost predicate Descending(s: seq<Item>) {
    forall i, j :: 0 <= i < j < |s| ==> s[i].time >= s[j].time
  }

  function Take(s: seq<Item>, n: nat): seq<Item> {
    if |s| <= n then s else s[..n]
  }

  /** `WHERE time < before`, in place. */
  function Before(s: seq<Item>, before: int): seq<Item> {
    if s == [] then []
    else if s[0].time < before then [s[0]] + Before(s[1..], before)
    else Before(s[1..], before)
  }

  function At(s: seq<Item>, time: int): seq<Item> {
    if s == [] then []
    else if s[0].time == time then [s[0]] + At(s[1..], time)
    else At(s[1..], time)
  }

  function Union(sources: seq<seq<Item>>): seq<Item> {
    if sources == [] then [] else sources[0] + Union(sources[1..])
  }

  function Insert(x: Item, s: seq<Item>): seq<Item> {
    if s == [] || x.time >= s[0].time then [x] + s else [s[0]] + Insert(x, s[1..])
  }

  /** `sort.SliceStable`, newest first. */
  function Sort(s: seq<Item>): seq<Item> {
    if s == [] then [] else Insert(s[0], Sort(s[1..]))
  }

  /** The newest `limit` items of the union that are older than `before`. */
  function PageOf(all: seq<Item>, limit: nat, before: int): Reply {
    var s := Sort(Before(all, before));
    if |s| <= limit then Page(s, false, None)
    else Page(s[..limit], true, if limit > 0 then Some(s[limit - 1].time) else None)
  }

  // ---------- Sort is the stable descending sort ----------

  lemma {:induction false} InsertKeeps(x: Item, s: seq<Item>)
    ensures multiset(Insert(x, s)) == multiset(s) + multiset{x}
  {
    if s != [] && x.time < s[0].time {
      InsertKeeps(x, s[1..]);
      assert s == [s[0]] + s[1..];
    }
  }

  lemma {:induction false} InsertDescends(x: Item, s: seq<Item>)
    requires Descending(s)
    ensures Descending(Insert(x, s))
    ensures Insert(x, s)[0].time == if s == [] || x.time >= s[0].time then x.time else s[0].time
  {
    if s != [] && x.time < s[0].time {
      InsertDescends(x, s[1..]);
      DescendingPair(s[0], Insert(x, s[1..]));
    } else if s != [] {
      DescendingPair(x, s);
    }
  }

  lemma DescendingPair(x: Item, s: seq<Item>)
    requires Descending(s) && s != [] && x.time >= s[0].time
    ensures Descending([x] + s)
  {
  }

  lemma {:induction false} InsertKeepsOrder(x: Item, s: seq<Item>, t: int)
    ensures At(Insert(x, s), t) == (if x.time == t then [x] else []) + At(s, t)
  {
    if s == [] || x.time >= s[0].time {
      AtOfPair(x, s, t);
    } else {
      InsertKeepsOrder(x, s[1..], t);
      AtOfPair(s[0], Insert(x, s[1..]), t);
    }
  }

  lemma AtOfPair(x: Item, s: seq<Item>, t: int)
    ensures At([x] + s, t) == (if x.time == t then [x] else []) + At(s, t)
  {
    assert ([x] + s)[1..] == s;
  }

  lemma {:induction false} SortDescends(s: seq<Item>)
    ensures Descending(Sort(s))
  {
    if s != [] {
      SortDescends(s[1..]);
      InsertDescends(s[0], Sort(s[1..]));
    }
  }

  lemma {:induction false} SortIsStable(s: seq<Item>)
    ensures Descending(Sort(s))
    ensures multiset(Sort(s)) == multiset(s)
    ensures forall t :: At(Sort(s), t) == At(s, t)
  {
    SortDescends(s);
    if s != [] {
      SortIsStable(s[1..]);
      InsertKeeps(s[0], Sort(s[1..]));
      assert s == [s[0]] + s[1..];
      forall t ensures At(Sort(s), t) == At(s, t) {
        InsertKeepsOrder(s[0], Sort(s[1..]), t);
      }
    }
  }

  // ---------- a bounded merge shows the same page ----------

  /** Merging two descending sequences; on equal times the left one goes first. */
  ghost function Merge(a: seq<Item>, b: seq<Item>): seq<Item>
    decreases |a| + |b|
  {
    if a == [] then b
    else if b == [] then a
    else if a[0].time >= b[0].time then [a[0]] + Merge(a[1..], b)
    else [b[0]] + Merge(a, b[1..])
  }

  lemma {:induction false} InsertIntoMerge(x: Item, a: seq<Item>, b: seq<Item>)
    requires Descending([x] + a) && Descending(b)
    ensures Insert(x, Merge(a, b)) == Merge([x] + a, b)
    decreases |b|
  {
    assert ([x] + a)[1..] == a;
    assert a != [] ==> ([x] + a)[1] == a[0];
    if b != [] && x.time < b[0].time {
      InsertIntoMerge(x, a, b[1..]);
      assert Merge(a, b) == [b[0]] + Merge(a, b[1..]);
    }
  }

  lemma {:induction false} SortOfSorted(a: seq<Item>, b: seq<Item>)
    requires Descending(a)
    ensures Sort(a + b) == Merge(a, Sort(b))
  {
    SortDescends(b);
    if a == [] {
      assert a + b == b;
    } else {
      SortOfSorted(a[1..], b);
      assert (a + b)[1..] == a[1..] + b && (a + b)[0] == a[0];
      assert [a[0]] + a[1..] == a;
      InsertIntoMerge(a[0], a[1..], Sort(b));
    }
  }

  lemma LeftGoesFirst(a: seq<Item>, b: seq<Item>, m: nat, n: nat, k: nat)
    requires a != [] && b != [] && a[0].time >= b[0].time && 0 < k <= m && k <= n
    requires Take(Merge(Take(a[1..], m - 1), Take(b, n)), k - 1) == Take(Merge(a[1..], b), k - 1)
    ensures Take(Merge(Take(a, m), Take(b, n)), k) == Take(Merge(a, b), k)
  {
    assert Take(a, m)[1..] == Take(a[1..], m - 1);
    assert Take(a, m)[0] == a[0] && Take(b, n)[0] == b[0];
    TakeOfPair(a[0], Merge(Take(a[1..], m - 1), Take(b, n)), k);
    TakeOfPair(a[0], Merge(a[1..], b), k);
  }

  lemma RightGoesFirst(a: seq<Item>, b: seq<Item>, m: nat, n: nat, k: nat)
    requires a != [] && b != [] && a[0].time < b[0].time && 0 < k <= m && k <= n
    requires Take(Merge(Take(a, m), Take(b[1..], n - 1)), k - 1) == Take(Merge(a, b[1..]), k - 1)
    ensures Take(Merge(Take(a, m), Take(b, n)), k) == Take(Merge(a, b), k)
  {
    assert Take(b, n)[1..] == Take(b[1..], n - 1);
    assert Take(a, m)[0] == a[0] && Take(b, n)[0] == b[0];
    TakeOfPair(b[0], Merge(Take(a, m), Take(b[1..], n - 1)), k);
    TakeOfPair(b[0], Merge(a, b[1..]), k);
  }

  /** The first `k` of a merge come from the first `k` of each side. */
  lemma {:induction false} MergeOfPrefixes(a: seq<Item>, b: seq<Item>, m: nat, n: nat, k: nat)
    requires k <= m && k <= n
    ensures Take(Merge(Take(a, m), Take(b, n)), k) == Take(Merge(a, b), k)
    decreases |a| + |b|
  {
    if a == [] || b == [] || k == 0 {
    } else if a[0].time >= b[0].time {
      MergeOfPrefixes(a[1..], b, m - 1, n, k - 1);
      LeftGoesFirst(a, b, m, n, k);
    } else {
      MergeOfPrefixes(a, b[1..], m, n - 1, k - 1);
      RightGoesFirst(a, b, m, n, k);
    }
  }

  lemma TakeOfPair(x: Item, s: seq<Item>, k: nat)
    requires k > 0
    ensures Take([x] + s, k) == [x] + Take(s, k - 1)
  {
  }

  /** What the six queries return: each its own newest `bound` rows. */
  function Bounded(sources: seq<seq<Item>>, before: int, bound: nat): seq<seq<Item>> {
    seq(|sources|, i requires 0 <= i < |sources| => Take(Before(sources[i], before), bound))
  }

  lemma {:induction false} BeforeIsOlder(s: seq<Item>, before: int)
    ensures forall x :: x in Before(s, before) <==> x in s && x.time < before
  {
    if s != [] {
      assert s == [s[0]] + s[1..];
      BeforeIsOlder(s[1..], before);
    }
  }

  lemma {:induction false} BeforeDescends(s: seq<Item>, before: int)
    requires Descending(s)
    ensures Descending(Before(s, before))
    ensures Before(s, before) != [] ==> Before(s, before)[0].time <= s[0].time
  {
    if s != [] {
      BeforeDescends(s[1..], before);
      var rest := Before(s[1..], before);
      if rest != [] && s[0].time < before { DescendingPair(s[0], rest); }
    }
  }

  lemma {:induction false} BeforeOfSum(a: seq<Item>, b: seq<Item>, before: int)
    ensures Before(a + b, before) == Before(a, before) + Before(b, before)
  {
    if a == [] {
      assert a + b == b;
    } else {
      BeforeOfSum(a[1..], b, before);
      assert (a + b)[1..] == a[1..] + b && (a + b)[0] == a[0];
      var x, y := Before(a[1..], before), Before(b, before);
      assert [a[0]] + (x + y) == ([a[0]] + x) + y;
    }
  }

  /** Fetching `bound` rows from each source is enough for the first `bound` rows of the union, ties included. */
  lemma {:induction false} BoundedSourcesSuffice(sources: seq<seq<Item>>, before: int, bound: nat)
    requires forall s :: s in sources ==> Descending(s)
    ensures Take(Sort(Union(Bounded(sources, before, bound))), bound) ==
        Take(Sort(Before(Union(sources), before)), bound)
  {
    if sources == [] {
    } else {
      var a, rest := Before(sources[0], before), sources[1..];
      var found := Bounded(sources, before, bound);
      BoundedSourcesSuffice(rest, before, bound);
      assert found[1..] == Bounded(rest, before, bound);
      BeforeOfSum(sources[0], Union(rest), before);
      BeforeDescends(sources[0], before);
      SortOfSorted(Take(a, bound), Union(found[1..]));
      SortOfSorted(a, Before(Union(rest), before));
      var x, y := Sort(Union(found[1..])), Sort(Before(Union(rest), before));
      MergeOfPrefixes(Take(a, bound), x, bound, bound, bound);
      MergeOfPrefixes(a, y, bound, bound, bound);
    }
  }

  /** The query loop: each source adds its own newest rows. */
  method QueryAll(sources: seq<seq<Item>>, before: int, bound: nat) returns (items: seq<Item>)
    requires forall s :: s in sources ==> Descending(s)
    ensures Take(Sort(items), bound) == Take(Sort(Before(Union(sources), before)), bound)
  {
    items := [];
    var i := 0;
    ghost var found := Bounded(sources, before, bound);
    while i < |sources|
      invariant 0 <= i <= |sources|
      invariant items + Union(found[i..]) == Union(found)
    {
      assert found[i..][1..] == found[i + 1..];
      assert items + (found[i] + Union(found[i + 1..])) == (items + found[i]) + Union(found[i + 1..]);
      items := items + Take(Before(sources[i], before), bound);
      i := i + 1;
    }
    assert items + [] == items;
    BoundedSourcesSuffice(sources, before, bound);
  }

  /** The handler answers with the reference page, or rejects the parameters and reads nothing. */
  method WorkspaceActivity(rawLimit: Parameter, rawBefore: Parameter, now: int, sources: seq<seq<Item>>)
      returns (r: Reply)
    requires forall s :: s in sources ==> Descending(s)
    ensures (r == Rejected) == (rawLimit.Malformed? || (rawLimit.Given? && !(5 <= rawLimit.value <= 50))
        || rawBefore.Malformed?)
    ensures r != Rejected ==>
      r == PageOf(
        Union(sources), if rawLimit.Given? then rawLimit.value else 12,
        if rawBefore.Given? then rawBefore.value else now + MINUTE)
  {
    var limit := 12;
    if !rawLimit.Absent? {
      if rawLimit.Malformed? || rawLimit.value < 5 || rawLimit.value > 50 { return Rejected; }
      limit := rawLimit.value;
    }
    var before := now + MINUTE;
    if !rawBefore.Absent? {
      if rawBefore.Malformed? { return Rejected; }
      before := rawBefore.value;
    }
    var items := QueryAll(sources, before, limit + 1);
    items := Sort(items);
    CutOfCut(items, Sort(Before(Union(sources), before)), limit);
    var hasMore := |items| > limit;
    if hasMore {
      items := items[..limit];
    }
    var nextBefore: Option<int> := None;
    if hasMore && |items| > 0 {
      nextBefore := Some(items[|items| - 1].time);
    }
    return Page(items, hasMore, nextBefore);
  }

  lemma CutOfCut(a: seq<Item>, b: seq<Item>, n: nat)
    requires Take(a, n + 1) == Take(b, n + 1)
    ensures |a| > n <==> |b| > n
    ensures |a| > n ==> a[..n] == b[..n]
    ensures |a| <= n ==> a == b
  {
    if |a| > n {
      assert a[..n] == Take(a, n + 1)[..n];
      assert b[..n] == Take(b, n + 1)[..n];
    }
  }

  // ---------- following the cursor over fixed data ----------

  lemma {:induction false} SortCommutesWithBefore(s: seq<Item>, before: int)
    ensures Sort(Before(s, before)) == Before(Sort(s), before)
  {
    if s != [] {
      SortCommutesWithBefore(s[1..], before);
      SortDescends(s[1..]);
      InsertThenBefore(s[0], Sort(s[1..]), before);
    }
  }

  lemma {:induction false} InsertThenBefore(x: Item, s: seq<Item>, before: int)
    requires Descending(s)
    ensures Before(Insert(x, s), before) == if x.time < before then Insert(x, Before(s, before)) else Before(s, before)
  {
    if s == [] || x.time >= s[0].time {
      assert ([x] + s)[1..] == s;
      BeforeIsOlder(s, before);
      assert x.time < before && s != [] ==> s[0].time < before;
    } else {
      InsertThenBefore(x, s[1..], before);
      assert Insert(x, s)[1..] == Insert(x, s[1..]);
    }
  }

  lemma {:induction false} BeforeTwice(s: seq<Item>, early: int, late: int)
    requires early <= late
    ensures Before(Before(s, late), early) == Before(s, early)
  {
    if s != [] {
      BeforeTwice(s[1..], early, late);
    }
  }

  /** In descending order the rows older than the cursor are a suffix. */
  lemma {:induction false} BeforeIsSuffix(s: seq<Item>, k: nat)
    requires Descending(s) && 0 < k <= |s|
    ensures |Before(s, s[k - 1].time)| <= |s| - k
    ensures (k < |s| ==> s[k].time < s[k - 1].time) <==> Before(s, s[k - 1].time) == s[k..]
    ensures (k < |s| && s[k].time == s[k - 1].time) ==> |Before(s, s[k - 1].time)| < |s| - k
  {
    var cut := s[k - 1].time;
    assert s == s[..k] + s[k..];
    BeforeOfSum(s[..k], s[k..], cut);
    NothingBefore(s[..k], cut);
    if k < |s| {
      if s[k].time < cut {
        AllBefore(s[k..], cut);
      } else {
        assert s[k..] == [s[k]] + s[k + 1..];
        BeforeShrinks(s[k + 1..], cut);
      }
    }
  }

  lemma {:induction false} NothingBefore(s: seq<Item>, cut: int)
    requires forall x :: x in s ==> x.time >= cut
    ensures Before(s, cut) == []
  {
    if s != [] { NothingBefore(s[1..], cut); }
  }

  lemma {:induction false} AllBefore(s: seq<Item>, cut: int)
    requires forall x :: x in s ==> x.time < cut
    ensures Before(s, cut) == s
  {
    if s != [] { AllBefore(s[1..], cut); }
  }

  lemma {:induction false} BeforeShrinks(s: seq<Item>, cut: int)
    ensures |Before(s, cut)| <= |s|
  {
    if s != [] { BeforeShrinks(s[1..], cut); }
  }

  /** The page at a cursor, and how much is left behind the next one. */
  lemma NextPageIsSmaller(all: seq<Item>, limit: nat, before: int)
    requires limit > 0
    ensures PageOf(all, limit, before).hasMore ==>
      var next := PageOf(all, limit, before).nextBefore;
      next.Some? && next.value < before
      && Sort(Before(all, next.value)) == Before(Sort(Before(all, before)), next.value)
      && |Sort(Before(all, next.value))| < |Sort(Before(all, before))|
  {
    var s := Sort(Before(all, before));
    if |s| > limit {
      SortIsStable(Before(all, before));
      BeforeIsOlder(all, before);
      var cut := s[limit - 1].time;
      assert s[limit - 1] in multiset(s);
      BeforeTwice(all, cut, before);
      SortCommutesWithBefore(Before(all, before), cut);
      BeforeIsSuffix(s, limit);
    }
  }

  /** Everything a reader sees who follows `nextBefore` until `hasMore` is false. */
  ghost function Follow(all: seq<Item>, limit: nat, before: int): seq<Item>
    requires limit > 0
    decreases |Sort(Before(all, before))|
  {
    var page := PageOf(all, limit, before);
    if !page.hasMore then page.items
    else
      NextPageIsSmaller(all, limit, before);
      page.items + Follow(all, limit, page.nextBefore.value)
  }

  /** No page ends between two rows with the same timestamp. */
  ghost predicate CleanCuts(s: seq<Item>, limit: nat)
    requires limit > 0
  {
    forall i :: 0 < i < |s| && i % limit == 0 ==> s[i].time < s[i - 1].time
  }

  lemma SameRemainder(i: nat, limit: nat)
    requires 0 < limit
    ensures (i + limit) % limit == i % limit
  {
    var q, r := i / limit, i % limit;
    assert i + limit == limit * (q + 1) + r;
    UniqueRemainder(i + limit, limit, q + 1, r);
  }

  lemma UniqueRemainder(x: int, d: nat, q: int, r: int)
    requires 0 <= r < d && x == d * q + r
    ensures x % d == r
  {
    var e := x / d - q;
    assert x == d * (x / d) + x % d;
    assert d * e == r - x % d;
    Multiples(d, e);
  }

  lemma Multiples(d: int, e: int)
    requires d > 0
    ensures e >= 1 ==> d * e >= d
    ensures e <= -1 ==> d * e <= -d
  {
  }

  lemma CleanCutsAfterPage(s: seq<Item>, limit: nat)
    requires 0 < limit < |s|
    ensures CleanCuts(s, limit) <==> s[limit].time < s[limit - 1].time && CleanCuts(s[limit..], limit)
  {
    var rest := s[limit..];
    SameRemainder(0, limit);
    assert s[limit].time == rest[0].time;
    if s[limit].time < s[limit - 1].time && CleanCuts(rest, limit) {
      forall i | 0 < i < |s| && i % limit == 0
        ensures s[i].time < s[i - 1].time
      {
        if i < limit {
          UniqueRemainder(i, limit, 0, i);
        } else if i > limit {
          var j := i - limit;
          SameRemainder(j, limit);
          assert rest[j].time < rest[j - 1].time;
        }
      }
    }
    if CleanCuts(s, limit) {
      forall i | 0 < i < |rest| && i % limit == 0
        ensures rest[i].time < rest[i - 1].time
      {
        SameRemainder(i, limit);
        assert s[i + limit].time < s[i + limit - 1].time;
      }
    }
  }

  /** One page `s[..limit]`, the rows `b` behind its cursor, and what the reader finds there. */
  lemma OnePageMore(s: seq<Item>, limit: nat, b: seq<Item>, later: seq<Item>)
    requires 0 < limit < |s| && Descending(s)
    requires b == Before(s, s[limit - 1].time)
    requires later == b <==> CleanCuts(b, limit)
    requires |later| <= |b|
    ensures s[..limit] + later == s <==> CleanCuts(s, limit)
    ensures |later| <= |s| - limit
  {
    BeforeIsSuffix(s, limit);
    CleanCutsAfterPage(s, limit);
    assert s == s[..limit] + s[limit..];
    assert (s[..limit] + later)[limit..] == later;
  }

  /** The reader sees every row once, newest first, exactly when no page ends inside a tie. */
  lemma {:induction false} FollowListsEverything(all: seq<Item>, limit: nat, before: int)
    requires limit > 0
    ensures Follow(all, limit, before) == Sort(Before(all, before)) <==> CleanCuts(Sort(Before(all, before)), limit)
    ensures |Follow(all, limit, before)| <= |Sort(Before(all, before))|
    decreases |Sort(Before(all, before))|
  {
    var s := Sort(Before(all, before));
    if |s| <= limit {
      forall i | 0 < i < |s| ensures i < limit ==> i % limit == i {
        if i < limit { UniqueRemainder(i, limit, 0, i); }
      }
    } else {
      NextPageIsSmaller(all, limit, before);
      var cut := s[limit - 1].time;
      FollowListsEverything(all, limit, cut);
      SortIsStable(Before(all, before));
      OnePageMore(s, limit, Sort(Before(all, cut)), Follow(all, limit, cut));
    }
  }

  /** With distinct timestamps nothing is lost or repeated. */
  lemma DistinctTimesAreListedOnce(all: seq<Item>, limit: nat, before: int)
    requires limit > 0
    requires forall i, j :: 0 <= i < j < |Before(all, before)| ==>
        Before(all, before)[i].time != Before(all, before)[j].time
    ensures Follow(all, limit, before) == Sort(Before(all, before))
    ensures multiset(Follow(all, limit, before)) == multiset(Before(all, before))
    ensures Descending(Follow(all, limit, before))
  {
    var b := Before(all, before);
    var s := Sort(b);
    SortIsStable(b);
    forall i | 0 < i < |s|
      ensures s[i].time < s[i - 1].time
    {
      if s[i].time == s[i - 1].time {
        TwoAt(s, i - 1, i);
        AtMostOneAt(b, s[i].time);
      }
    }
    FollowListsEverything(all, limit, before);
  }

  lemma {:induction false} TwoAt(s: seq<Item>, i: nat, j: nat)
    requires i < j < |s| && s[i].time == s[j].time
    ensures |At(s, s[i].time)| >= 2
  {
    if i > 0 {
      TwoAt(s[1..], i - 1, j - 1);
    } else {
      OneAt(s[1..], j - 1);
    }
  }

  lemma {:induction false} OneAt(s: seq<Item>, j: nat)
    requires j < |s|
    ensures |At(s, s[j].time)| >= 1
  {
    if j > 0 { OneAt(s[1..], j - 1); }
  }

  lemma {:induction false} AtMostOneAt(s: seq<Item>, t: int)
    requires forall i, j :: 0 <= i < j < |s| ==> s[i].time != s[j].time
    ensures |At(s, t)| <= 1
  {
    if s != [] {
      AtMostOneAt(s[1..], t);
      if s[0].time == t {
        NoneAt(s[1..], t);
      }
    }
  }

  lemma {:induction false} NoneAt(s: seq<Item>, t: int)
    requires forall x :: x in s ==> x.time != t
    ensures At(s, t) == []
  {
    if s != [] { NoneAt(s[1..], t); }
  }

  /** Rows written in one transaction share a timestamp: those beyond the page are never shown. */
  lemma TiesBeyondAPageAreLost(all: seq<Item>, limit: nat, t: int)
    requires 0 < limit < |all|
    requires forall x :: x in all ==> x.time == t
    ensures PageOf(all, limit, t + 1) == Page(all[..limit], true, Some(t))
    ensures PageOf(all, limit, t) == Page([], false, None)
    ensures Follow(all, limit, t + 1) == all[..limit]
  {
    AllBefore(all, t + 1);
    NothingBefore(all, t);
    SameTimesStay(all, t);
    assert Follow(all, limit, t) == [];
    assert all[..limit] + [] == all[..limit];
  }

  lemma {:induction false} SameTimesStay(s: seq<Item>, t: int)
    requires forall x :: x in s ==> x.time == t
    ensures Sort(s) == s
  {
    if s != [] { SameTimesStay(s[1..], t); }
  }
}
