/**
 The purge of expired recording objects as one serial run: list at most 50 rows, oldest
 expiry first, then remove and mark them one by one while any of them may fail.  Holds are
 filtered before the limit is applied, so held rows never take a place in the batch.
 */
module RetentionPurge {

  import opened Options

  datatype Row = Row(expiredAt: Option<int>, deletedAt: Option<int>, size: nat)

  /**
   What happens to one item's transaction; `RemoveReplyLost` and `CommitUnseen` are the failures
   where the store or the database did the work and the program saw an error.
   */
  datatype Fate = Fine | NotStarted | RemoveFails | RemoveReplyLost | CommitFails | CommitUnseen

  predicate Removes(f: Fate) {
    f != NotStarted && f != RemoveFails
  }

  predicate Marks(f: Fate) {
    f == Fine || f == CommitUnseen
  }

  const BATCH := 50

  predicate IsEligible(rows: map<int, Row>, held: set<int>, id: int) {
    id in rows && rows[id].expiredAt.Some? && rows[id].deletedAt.None? && id !in held
  }

  function Expiry(rows: map<int, Row>, id: int): int {
    if id in rows && rows[id].expiredAt.Some? then rows[id].expiredAt.value else 0
  }

  function Eligible(rows: map<int, Row>, held: set<int>): set<int> {
    set id | id in rows && IsEligible(rows, held, id)
  }

  /** A result of the listing query: the oldest `limit` eligible rows, or all if there are fewer. */
  ghost predicate IsListing(rows: map<int, Row>, held: set<int>, limit: nat, items: seq<int>) {
    && (forall k | 0 <= k < |items| :: IsEligible(rows, held, items[k]))
    && (forall j, k | 0 <= j < k < |items| ::
          items[j] != items[k] && Expiry(rows, items[j]) <= Expiry(rows, items[k]))
    && (forall id, k | IsEligible(rows, held, id) && id !in items && 0 <= k < |items| ::
          Expiry(rows, items[k]) <= Expiry(rows, id))
    && |items| == if |Eligible(rows, held)| <= limit then |Eligible(rows, held)| else limit
  }

  /** The table after the items in `done` were marked. */
  function Marked(rows: map<int, Row>, done: set<int>, now: int): map<int, Row> {
    map id | id in rows :: if id in done then rows[id].(deletedAt := Some(now), size := 0) else rows[id]
  }

  function ItemSet(items: seq<int>): set<int> {
    set id | id in items
  }

  /** The items a predicate picks. */
  function Which(items: seq<int>, pick: int -> bool): set<int> {
    set id | id in items && pick(id)
  }

  function Marking(fate: int -> Fate): int -> bool {
    id => Marks(fate(id))
  }

  function Removing(fate: int -> Fate): int -> bool {
    id => Removes(fate(id))
  }

  function Counting(fate: int -> Fate): int -> bool {
    id => fate(id) == Fine
  }

  lemma NextWhich(items: seq<int>, n: nat, pick: int -> bool)
    requires n < |items| && items[n] !in items[..n]
    ensures Which(items[..n + 1], pick) == Which(items[..n], pick) + if pick(items[n]) then {items[n]} else {}
    ensures items[n] !in Which(items[..n], pick)
    ensures |Which(items[..n + 1], pick)| == |Which(items[..n], pick)| + if pick(items[n]) then 1 else 0
  {
    assert items[..n + 1] == items[..n] + [items[n]];
    assert Which(items[..n + 1], pick) == Which(items[..n], pick) + if pick(items[n]) then {items[n]} else {};
  }

  function MarkOne(rows: map<int, Row>, id: int, now: int): map<int, Row>
    requires id in rows
  {
    rows[id := rows[id].(deletedAt := Some(now), size := 0)]
  }

  lemma NextMark(rows: map<int, Row>, held: set<int>, done: set<int>, id: int, now: int)
    requires IsEligible(rows, held, id) && id !in done
    ensures IsEligible(Marked(rows, done, now), held, id)
    ensures Marked(rows, done + {id}, now) == MarkOne(Marked(rows, done, now), id, now)
  {
  }

  /** Table, store and counter after the transactions of `items`. */
  datatype Progress = Progress(rows: map<int, Row>, objects: set<int>, removed: int)

  ghost function Purged(before: Progress, items: seq<int>, fate: int -> Fate, now: int): Progress {
    Progress(Marked(before.rows, Which(items, Marking(fate)), now),
             before.objects - Which(items, Removing(fate)),
             before.removed + |Which(items, Counting(fate))|)
  }

  /** The transaction of one item: the hold check, the object delete, the guarded mark. */
  ghost function OneItem(p: Progress, held: set<int>, id: int, fate: Fate, now: int): Progress {
    var marked := Marks(fate) && IsEligible(p.rows, held, id);
    Progress(if marked then MarkOne(p.rows, id, now) else p.rows,
             if id !in held && Removes(fate) then p.objects - {id} else p.objects,
             p.removed + if marked && fate == Fine then 1 else 0)
  }

  lemma NextRows(rows: map<int, Row>, held: set<int>, items: seq<int>, n: nat, fate: int -> Fate, now: int)
    requires n < |items| && items[n] !in items[..n] && IsEligible(rows, held, items[n])
    ensures var before := Marked(rows, Which(items[..n], Marking(fate)), now);
      && IsEligible(before, held, items[n])
      && Marked(rows, Which(items[..n + 1], Marking(fate)), now) ==
         if Marks(fate(items[n])) then MarkOne(before, items[n], now) else before
  {
    NextWhich(items, n, Marking(fate));
    NextMark(rows, held, Which(items[..n], Marking(fate)), items[n], now);
  }

  lemma NextObjects(objects: set<int>, items: seq<int>, n: nat, fate: int -> Fate)
    requires n < |items| && items[n] !in items[..n]
    ensures objects - Which(items[..n + 1], Removing(fate)) ==
      if Removes(fate(items[n])) then objects - Which(items[..n], Removing(fate)) - {items[n]}
      else objects - Which(items[..n], Removing(fate))
  {
    NextWhich(items, n, Removing(fate));
  }

  lemma NextItem(before: Progress, held: set<int>, items: seq<int>, n: nat, fate: int -> Fate, now: int)
    requires n < |items| && items[n] !in items[..n] && IsEligible(before.rows, held, items[n])
    ensures Purged(before, items[..n + 1], fate, now) ==
            OneItem(Purged(before, items[..n], fate, now), held, items[n], fate(items[n]), now)
  {
    NextRows(before.rows, held, items, n, fate, now);
    NextObjects(before.objects, items, n, fate);
    NextWhich(items, n, Counting(fate));
  }

  method Oldest(rows: map<int, Row>, held: set<int>, rest: set<int>) returns (oldest: int)
    requires rest != {}
    requires forall id | id in rest :: IsEligible(rows, held, id)
    ensures oldest in rest
    ensures forall id | id in rest :: Expiry(rows, oldest) <= Expiry(rows, id)
  {
    ghost var some := Member(rest);
    oldest :| oldest in rest;
    var left := rest - {oldest};
    while left != {}
      invariant left <= rest && oldest in rest
      invariant forall id | id in rest - left :: Expiry(rows, oldest) <= Expiry(rows, id)
      decreases |left|
    {
      ghost var another := Member(left);
      var id :| id in left;
      if Expiry(rows, id) < Expiry(rows, oldest) {
        oldest := id;
      }
      left := left - {id};
    }
  }

  /** `after` is the table after a run without failures. */
  ghost predicate CleanRun(rows: map<int, Row>, held: set<int>, after: map<int, Row>) {
    exists items, now :: IsListing(rows, held, BATCH, items) && after == Marked(rows, ItemSet(items), now)
  }

  lemma SizeOfItems(items: seq<int>)
    requires forall j, k | 0 <= j < k < |items| :: items[j] != items[k]
    ensures |ItemSet(items)| == |items|
  {
    if items != [] {
      var rest := items[1..];
      assert items == [items[0]] + rest;
      SizeOfItems(rest);
      assert ItemSet(items) == ItemSet(rest) + {items[0]};
    }
  }

  /** A run in which every transaction goes through is a clean one, and reports all its items. */
  lemma FineRunIsClean(rows: map<int, Row>, held: set<int>, items: seq<int>, fate: int -> Fate, now: int)
    requires IsListing(rows, held, BATCH, items)
    ensures (forall id | id in items :: fate(id) == Fine) ==>
              CleanRun(rows, held, Marked(rows, Which(items, Marking(fate)), now))
                  && |Which(items, Counting(fate))| == |items|
  {
    if forall id | id in items :: fate(id) == Fine {
      assert Which(items, Marking(fate)) == ItemSet(items) == Which(items, Counting(fate));
      SizeOfItems(items);
    }
  }

  class RecordingTable {
    var rows: map<int, Row>
    var held: set<int>
    var objects: set<int>

    /** `ORDER BY retention_expired_at LIMIT`: picks the oldest remaining row until the batch is full. */
    method List(limit: nat) returns (items: seq<int>)
      ensures IsListing(rows, held, limit, items)
    {
      items := [];
      var rest := Eligible(rows, held);
      while |items| < limit && rest != {}
        invariant forall k | 0 <= k < |items| :: IsEligible(rows, held, items[k]) && items[k] !in rest
        invariant forall j, k | 0 <= j < k < |items| ::
            items[j] != items[k] && Expiry(rows, items[j]) <= Expiry(rows, items[k])
        invariant forall id | IsEligible(rows, held, id) :: id in items || id in rest
        invariant forall id | id in rest :: IsEligible(rows, held, id)
        invariant forall id, k | id in rest && 0 <= k < |items| ::
            Expiry(rows, items[k]) <= Expiry(rows, id)
        invariant |items| + |rest| == |Eligible(rows, held)|
        invariant |items| <= limit
        decreases |rest|
      {
        var oldest := Oldest(rows, held, rest);
        items := items + [oldest];
        rest := rest - {oldest};
      }
    }

    method PurgeOne(id: int, now: int, fate: Fate) returns (count: nat)
      modifies this
      ensures held == old(held)
      ensures Progress(rows, objects, count) == OneItem(Progress(old(rows), old(objects), 0), held, id, fate, now)
    {
      count := 0;
      if fate == NotStarted || id in held || fate == RemoveFails {
        return;
      }
      objects := objects - {id};
      if fate == RemoveReplyLost || fate == CommitFails {
        return;
      }
      if IsEligible(rows, held, id) {
        rows := rows[id := rows[id].(deletedAt := Some(now), size := 0)];
        if fate != CommitUnseen {
          count := 1;
        }
      }
    }

    method PurgeListed(items: seq<int>, now: int, fate: int -> Fate) returns (removed: nat)
      requires forall k | 0 <= k < |items| :: IsEligible(rows, held, items[k]) && items[k] !in items[..k]
      modifies this
      ensures held == old(held)
      ensures Progress(rows, objects, removed) == Purged(Progress(old(rows), old(objects), 0), items, fate, now)
    {
      removed := 0;
      ghost var before := Progress(rows, objects, 0);
      for n := 0 to |items|
        invariant held == old(held)
        invariant Progress(rows, objects, removed) == Purged(before, items[..n], fate, now)
      {
        NextItem(before, held, items, n, fate, now);
        var count := PurgeOne(items[n], now, fate(items[n]));
        removed := removed + count;
      }
      assert items[..|items|] == items;
    }

    /** One purge run; `fate` says which item's transaction fails and where. */
    method PurgeExpired(now: int, fate: int -> Fate) returns (removed: nat, items: seq<int>)
      modifies this
      ensures held == old(held) && IsListing(old(rows), old(held), BATCH, items)
      ensures Progress(rows, objects, removed) == Purged(Progress(old(rows), old(objects), 0), items, fate, now)
      ensures (forall id | id in items :: fate(id) == Fine) ==> CleanRun(old(rows), held, rows) && removed == |items|
    {
      items := List(BATCH);
      removed := PurgeListed(items, now, fate);
      FineRunIsClean(old(rows), held, items, fate, now);
    }
  }

  // ---------- what runs amount to ----------

  /** A run takes exactly the items it marked off the eligible set, whatever failed. */
  lemma RunShrinksEligible(rows: map<int, Row>, held: set<int>, items: seq<int>, done: set<int>, now: int)
    requires IsListing(rows, held, BATCH, items)
    requires done <= ItemSet(items)
    ensures Eligible(Marked(rows, done, now), held) == Eligible(rows, held) - done
    ensures |Eligible(Marked(rows, done, now), held)| == |Eligible(rows, held)| - |done|
    ensures forall id | id in held && id in rows :: Marked(rows, done, now)[id] == rows[id]
  {
    assert forall id | id in done :: id in items && IsEligible(rows, held, id);
    assert done <= Eligible(rows, held);
  }

  /** n expired, unheld recordings are drained by ceil(n / 50) runs without failures, and by no fewer. */
  lemma {:induction false} DrainsInCeilRuns(tables: seq<map<int, Row>>, held: set<int>, k: nat)
    requires k < |tables|
    requires forall j | 0 <= j < |tables| - 1 :: CleanRun(tables[j], held, tables[j + 1])
    ensures var n := |Eligible(tables[0], held)|;
            && |Eligible(tables[k], held)| == (if n <= BATCH * k then 0 else n - BATCH * k)
            && (Eligible(tables[k], held) == {} <==> k >= (n + BATCH - 1) / BATCH)
  {
    if k > 0 {
      DrainsInCeilRuns(tables, held, k - 1);
      assert CleanRun(tables[k - 1], held, tables[(k - 1) + 1]);
      var items, now :| IsListing(tables[k - 1], held, BATCH, items)
          && tables[k] == Marked(tables[k - 1], ItemSet(items), now);
      SizeOfItems(items);
      RunShrinksEligible(tables[k - 1], held, items, ItemSet(items), now);
    }
  }
}
