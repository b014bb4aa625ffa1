/**
 What the purge runs and deletions of module LegalHold leave in the tables and report to their
 callers: which rows are marked, how often each mark is counted, and which recordings can be without
 their object.
 */
module RetentionLedger {
  import opened Options
  import opened LegalHold

  /** A recording with `storage_deleted_at`, or an attachment or file whose row is gone. */
  ghost predicate RowMarked(w: World, i: Item) {
    i in w.used &&
    match i
    case RecordingItem(_, _) => i in w.db.recordings && w.db.recordings[i].storageDeleted
    case AttachmentItem(_, _, _) => i !in w.db.attachments
    case FileItem(_, _) => i !in w.db.files
  }

  /** How many acknowledged marks a run made. */
  ghost function Counted(marks: seq<Mark>, p: nat): nat {
    if marks == [] then 0
    else Counted(marks[..|marks| - 1], p) +
         if marks[|marks| - 1].run == p && marks[|marks| - 1].acknowledged then 1 else 0
  }

  ghost predicate MarksOk(w: World) {
    && (forall j, k | 0 <= j < k < |w.marks| :: w.marks[j].item != w.marks[k].item)
    && (forall m <- w.marks :: RowMarked(w, m.item) && m.item !in w.deleted)
    && (forall i <- w.deleted :: RowMarked(w, i))
    && (forall i <- w.used :: RowMarked(w, i) ==> i in w.deleted || exists m <- w.marks :: m.item == i)
  }

  /** What run `q` has counted so far. */
  ghost function Reported(w: World, q: nat): nat {
    if q in w.procs && w.procs[q].Purge? then w.procs[q].removed else 0
  }

  ghost predicate CountersOk(w: World) {
    forall p: nat :: Counted(w.marks, p) == Reported(w, p)
  }

  lemma MarksAfterTable(w: World, t: TableEvent)
    requires RowsOk(w) && MarksOk(w) && TableEnabled(w, t)
    ensures MarksOk(TableStep(w, t))
  {
    assert forall i: Item :: RowMarked(TableStep(w, t), i) <==> RowMarked(w, i);
  }

  lemma AppendMark(w: World, w': World, m: Mark)
    requires MarksOk(w) && m.item in w.used && !RowMarked(w, m.item)
    requires w'.used == w.used && w'.deleted == w.deleted && w'.marks == w.marks + [m]
    requires forall j: Item :: RowMarked(w', j) <==> RowMarked(w, j) || j == m.item
    ensures MarksOk(w')
  {
    forall i <- w'.used | RowMarked(w', i) && i !in w'.deleted
      ensures exists k <- w'.marks :: k.item == i
    {
      if i == m.item {
        assert w'.marks[|w.marks|] == m;
      } else {
        var k :| k in w.marks && k.item == i;
        assert k in w'.marks;
      }
    }
  }

  lemma MarkedOne(w: World, w': World, i: Item)
    requires i in w.used && w'.used == w.used && w'.db == MarkRow(w.db, i)
    requires !i.FileItem? && (i.RecordingItem? ==> i in w.db.recordings)
    ensures forall j: Item :: RowMarked(w', j) <==> RowMarked(w, j) || j == i
  {
  }

  lemma MarkedNow(sql: Sql, w: World, p: nat, e: PurgeEvent)
    requires Inv(sql, w) && PurgeEnabled(sql, w, p, e) && PurgeStep(sql, w, p, e).marks != w.marks
    ensures var w', i := PurgeStep(sql, w, p, e), w.procs[p].todo[0];
      && w'.used == w.used && w'.deleted == w.deleted && w'.db == MarkRow(w.db, i)
      && |w'.marks| == |w.marks| + 1 && w'.marks == w.marks + [w'.marks[|w.marks|]] && w'.marks[|w.marks|].item == i
      && ListedOk(w, i) && Markable(w.db, i)
  {
    assert ProcOk(w, p);
  }

  lemma MarksAfterPurge(sql: Sql, w: World, p: nat, e: PurgeEvent)
    requires Inv(sql, w) && MarksOk(w) && PurgeEnabled(sql, w, p, e)
    ensures MarksOk(PurgeStep(sql, w, p, e))
  {
    var w' := PurgeStep(sql, w, p, e);
    if w'.marks == w.marks {
      assert w'.db == w.db && w'.deleted == w.deleted && w'.used == w.used;
    } else {
      MarkedNow(sql, w, p, e);
      MarkedOne(w, w', w.procs[p].todo[0]);
      AppendMark(w, w', w'.marks[|w.marks|]);
    }
  }

  lemma MarksAfterDelete(sql: Sql, w: World, p: nat, e: DeleteEvent)
    requires Inv(sql, w) && MarksOk(w) && DeleteEnabled(w, p, e)
    ensures MarksOk(DeleteStep(w, p, e))
  {
    var w' := DeleteStep(w, p, e);
    if w'.db == w.db && w'.deleted == w.deleted {
      assert forall j: Item :: RowMarked(w', j) <==> RowMarked(w, j);
    } else {
      var i := w.procs[p].pending[0];
      assert ProcOk(w, p) && ReadOk(w, i) && DeleteCounts(w.db, i);
      assert forall j: Item :: RowMarked(w', j) <==> RowMarked(w, j) || j == i;
    }
  }

  lemma MarksStep(sql: Sql, w: World, e: Event)
    requires Inv(sql, w) && MarksOk(w)
    ensures MarksOk(Step(sql, w, e))
  {
    if Enabled(sql, w, e) {
      match e
      case Table(t) => MarksAfterTable(w, t);
      case Placing(p, place) =>
        var w' := PlaceStep(sql, w, p, place);
        assert w'.marks == w.marks && w'.deleted == w.deleted && w'.used == w.used;
        assert forall j: Item :: RowMarked(w', j) <==> RowMarked(w, j);
      case Purging(p, purge) => MarksAfterPurge(sql, w, p, purge);
      case Deleting(p, delete) => MarksAfterDelete(sql, w, p, delete);
    }
  }

  lemma CountedSnoc(marks: seq<Mark>, m: Mark, p: nat)
    ensures Counted(marks + [m], p) == Counted(marks, p) + if m.run == p && m.acknowledged then 1 else 0
  {
    assert (marks + [m])[..|marks|] == marks;
  }

  lemma CountsItsMark(sql: Sql, w: World, p: nat, e: PurgeEvent, q: nat)
    requires PurgeEnabled(sql, w, p, e)
    ensures var w' := PurgeStep(sql, w, p, e);
            if w'.marks == w.marks then Reported(w', q) == Reported(w, q)
            else
              var m := w'.marks[|w.marks|];
              && w'.marks == w.marks + [m]
              && Reported(w', q) == Reported(w, q) + if m.run == q && m.acknowledged then 1 else 0
  {
  }

  lemma CountersAfterPurge(sql: Sql, w: World, p: nat, e: PurgeEvent)
    requires CountersOk(w) && PurgeEnabled(sql, w, p, e)
    ensures CountersOk(PurgeStep(sql, w, p, e))
  {
    var w' := PurgeStep(sql, w, p, e);
    forall q: nat ensures Counted(w'.marks, q) == Reported(w', q) {
      CountsItsMark(sql, w, p, e, q);
      if w'.marks != w.marks {
        CountedSnoc(w.marks, w'.marks[|w.marks|], q);
      }
    }
  }

  lemma CountersStep(sql: Sql, w: World, e: Event)
    requires CountersOk(w)
    ensures CountersOk(Step(sql, w, e))
  {
    if Enabled(sql, w, e) {
      match e
      case Table(t) => assert TableStep(w, t).procs == w.procs && TableStep(w, t).marks == w.marks;
      case Placing(p, place) => assert PlaceStep(sql, w, p, place).marks == w.marks;
      case Purging(p, purge) => CountersAfterPurge(sql, w, p, purge);
      case Deleting(p, delete) =>
        var w' := DeleteStep(w, p, delete);
        assert w'.marks == w.marks;
        assert forall q: nat :: Reported(w', q) == Reported(w, q);
    }
  }

  /**
   Overlapping runs count each row they mark exactly once: no row is marked twice, a row is
   marked exactly if one committed purge or a deletion without a lock marked it and never both, and the
   number a run reports is the number of its acknowledged commits.
   */
  lemma {:induction false} EachMarkCountedOnce(sql: Sql, es: seq<Event>)
    ensures MarksOk(Run(sql, es)) && CountersOk(Run(sql, es))
  {
    if es != [] {
      var w := Run(sql, es[..|es| - 1]);
      EachMarkCountedOnce(sql, es[..|es| - 1]);
      RunKeepsInv(sql, es[..|es| - 1]);
      MarksStep(sql, w, es[|es| - 1]);
      CountersStep(sql, w, es[|es| - 1]);
    }
  }

  /** A recording with `storage_deleted_at` lost its object and has `retention_expired_at`, whatever failed. */
  lemma MarkedMeansDeleted(sql: Sql, es: seq<Event>, i: Item)
    requires i.RecordingItem? && RowMarked(Run(sql, es), i)
    ensures i in Run(sql, es).used && i !in Run(sql, es).objects
    ensures Run(sql, es).db.recordings[i].expired
  {
    RunKeepsInv(sql, es);
  }

  // ---------- which held recordings still have their object ----------

  ghost predicate Kept(w: World, i: Item) {
    i in w.objects || i in w.strayed
  }

  ghost predicate KeptUnlessForeign(w: World, i: Item) {
    Kept(w, i) || Guard(i) in w.foreign
  }

  /** Process `q` has removed the object of `i` in a transaction that is still open. */
  ghost predicate Removing(w: World, q: nat, i: Item) {
    IsPurge(w, q) && w.procs[q].todo[0] == i && (w.procs[q].purging.Deleted? || w.procs[q].purging.Marked?)
  }

  ghost predicate Placeable(w: World, p: nat, i: Item) {
    p in w.procs && w.procs[p].Place? && Guard(i) == w.procs[p].res &&
    (w.procs[p].placing.PlaceSeen? || w.procs[p].placing.PlaceInserted?)
  }

  ghost predicate KeptOk(w: World) {
    && (forall i <- w.db.recordings :: Covered(w.db, Guard(i)) ==> KeptUnlessForeign(w, i))
    && (forall i <- w.db.recordings, p: nat :: Placeable(w, p, i) ==> KeptUnlessForeign(w, i))
    && (forall i <- w.db.recordings :: !w.db.recordings[i].storageDeleted ==>
        Kept(w, i) || exists q: nat :: Removing(w, q, i))
  }

  lemma KeptAfterTable(w: World, t: TableEvent)
    requires RowsOk(w) && KeptOk(w) && TableEnabled(w, t)
    ensures KeptOk(TableStep(w, t))
  {
    var w' := TableStep(w, t);
    assert w'.procs == w.procs;
    forall i <- w'.db.recordings
      ensures Covered(w'.db, Guard(i)) ==> KeptUnlessForeign(w', i)
      ensures forall p: nat :: Placeable(w', p, i) ==> KeptUnlessForeign(w', i)
      ensures !w'.db.recordings[i].storageDeleted ==> Kept(w', i) || exists q: nat :: Removing(w', q, i)
    {
      TableCoversNothing(w, t, Guard(i));
      assert i in w.db.recordings || i in w'.objects;
      assert forall q: nat :: Placeable(w', q, i) <==> Placeable(w, q, i);
      assert forall q: nat :: Removing(w', q, i) <==> Removing(w, q, i);
      assert i in w.db.recordings && Kept(w, i) ==> Kept(w', i);
    }
  }

  lemma OneHolder(sql: Sql, w: World, p: nat, q: nat)
    requires Inv(sql, w) && p in w.procs && q in w.procs
    requires HoldsLock(w.procs[p]) && HoldsLock(w.procs[q])
    requires LockId(sql, LockedResource(w.procs[p])) == LockId(sql, LockedResource(w.procs[q]))
    ensures p == q
  {
    assert LockOk(sql, w, p) && LockOk(sql, w, q);
  }

  lemma SeenIsKept(sql: Sql, w: World, p: nat, i: Item)
    requires Inv(sql, w) && KeptOk(w) && IsPlace(w, p, PlaceLocked)
    requires i in w.db.recordings && Guard(i) == w.procs[p].res && ResourceExists(w.db, w.procs[p].res)
    ensures KeptUnlessForeign(w, i)
  {
    if !KeptUnlessForeign(w, i) {
      var q: nat :| Removing(w, q, i);
      OneHolder(sql, w, p, q);
    }
  }

  lemma ItemKeptAfterPlace(sql: Sql, w: World, p: nat, e: PlaceEvent, i: Item)
    requires Inv(sql, w) && KeptOk(w) && PlaceEnabled(sql, w, p, e) && i in w.db.recordings
    ensures var w' := PlaceStep(sql, w, p, e);
            && (Covered(w'.db, Guard(i)) ==> KeptUnlessForeign(w', i))
            && (forall q: nat :: Placeable(w', q, i) ==> KeptUnlessForeign(w', i))
  {
    PlaceCoversOwnResource(sql, w, p, e, Guard(i));
    assert e.CommitPlace? && w.procs[p].res == Guard(i) ==> Placeable(w, p, i);
    if e.SeeResource? && w.procs[p].res == Guard(i) {
      SeenIsKept(sql, w, p, i);
    }
    assert forall q: nat :: Placeable(PlaceStep(sql, w, p, e), q, i) ==>
        Placeable(w, q, i) || (e.SeeResource? && q == p);
  }

  lemma RemovingAfterPlace(sql: Sql, w: World, p: nat, e: PlaceEvent, i: Item)
    requires PlaceEnabled(sql, w, p, e)
    ensures forall q: nat :: Removing(w, q, i) ==> Removing(PlaceStep(sql, w, p, e), q, i)
    ensures Kept(w, i) ==> Kept(PlaceStep(sql, w, p, e), i)
  {
  }

  lemma KeptAfterPlace(sql: Sql, w: World, p: nat, e: PlaceEvent)
    requires Inv(sql, w) && KeptOk(w) && PlaceEnabled(sql, w, p, e)
    ensures KeptOk(PlaceStep(sql, w, p, e))
  {
    var w' := PlaceStep(sql, w, p, e);
    assert w'.db.recordings == w.db.recordings;
    forall i <- w'.db.recordings
      ensures Covered(w'.db, Guard(i)) ==> KeptUnlessForeign(w', i)
      ensures forall q: nat :: Placeable(w', q, i) ==> KeptUnlessForeign(w', i)
      ensures !w'.db.recordings[i].storageDeleted ==> Kept(w', i) || exists q: nat :: Removing(w', q, i)
    {
      ItemKeptAfterPlace(sql, w, p, e, i);
      RemovingAfterPlace(sql, w, p, e, i);
    }
  }

  /** The purged item itself: nobody can be placing a hold on it while its lock is taken ... */
  lemma PlaceableOwnItem(sql: Sql, w: World, p: nat, e: PurgeEvent, q: nat)
    requires Inv(sql, w) && KeptOk(w) && PurgeEnabled(sql, w, p, e) && p in w.procs
    requires w.procs[p].todo[0] in w.db.recordings && Placeable(w, q, w.procs[p].todo[0])
    ensures KeptUnlessForeign(PurgeStep(sql, w, p, e), w.procs[p].todo[0])
  {
    var i, w' := w.procs[p].todo[0], PurgeStep(sql, w, p, e);
    assert LockOk(sql, w, p) && LockOk(sql, w, q);
    if HoldsLock(w.procs[p]) {
      assert Guard(i) in w.foreign;
      assert w'.foreign == w.foreign;
    }
  }

  /** ... and what a hold covers it does not take. */
  lemma CoveredOwnItem(sql: Sql, w: World, p: nat, e: PurgeEvent)
    requires Inv(sql, w) && KeptOk(w) && PurgeEnabled(sql, w, p, e) && p in w.procs
    requires w.procs[p].todo[0] in w.db.recordings && Covered(w.db, Guard(w.procs[p].todo[0]))
    ensures KeptUnlessForeign(PurgeStep(sql, w, p, e), w.procs[p].todo[0])
  {
    assert ProcOk(w, p);
  }

  lemma KeptOwnItem(sql: Sql, w: World, p: nat, e: PurgeEvent)
    requires Inv(sql, w) && KeptOk(w) && PurgeEnabled(sql, w, p, e) && p in w.procs
    requires w.procs[p].todo[0] in PurgeStep(sql, w, p, e).db.recordings
    ensures var i, w' := w.procs[p].todo[0], PurgeStep(sql, w, p, e);
            !w'.db.recordings[i].storageDeleted ==> Kept(w', i) || exists q: nat :: Removing(w', q, i)
  {
    var i, w' := w.procs[p].todo[0], PurgeStep(sql, w, p, e);
    assert ProcOk(w, p) && ListedOk(w, i);
    if Removing(w, p, i) || e == RemoveObject(Removed) {
      assert Removing(w', p, i) || i in w'.strayed || w'.db.recordings[i].storageDeleted;
    } else {
      KeptUntouched(sql, w, p, e);
    }
  }

  lemma KeptUntouched(sql: Sql, w: World, p: nat, e: PurgeEvent)
    requires PurgeEnabled(sql, w, p, e) && p in w.procs
    requires !Removing(w, p, w.procs[p].todo[0]) && e != RemoveObject(Removed)
    ensures var i, w' := w.procs[p].todo[0], PurgeStep(sql, w, p, e);
            && (Kept(w, i) ==> Kept(w', i))
            && (i in w'.db.recordings ==> i in w.db.recordings && w'.db.recordings[i] == w.db.recordings[i])
            && forall q: nat :: Removing(w, q, i) ==> Removing(w', q, i)
  {
    assert forall q <- w.procs :: q != p ==> q in PurgeStep(sql, w, p, e).procs;
  }

  lemma KeptOtherItem(sql: Sql, w: World, p: nat, e: PurgeEvent, i: Item)
    requires Inv(sql, w) && PurgeEnabled(sql, w, p, e)
    requires p in w.procs ==> w.procs[p].todo[0] != i
    ensures var w' := PurgeStep(sql, w, p, e);
            && (Kept(w, i) ==> Kept(w', i))
            && (i in w'.db.recordings ==> i in w.db.recordings && w'.db.recordings[i] == w.db.recordings[i])
  {
  }

  lemma RemovingAfterPurge(sql: Sql, w: World, p: nat, e: PurgeEvent, i: Item)
    requires PurgeEnabled(sql, w, p, e) && (p in w.procs ==> w.procs[p].todo[0] != i)
    ensures forall q: nat :: Removing(w, q, i) ==> Removing(PurgeStep(sql, w, p, e), q, i)
  {
    assert forall q: nat :: q in w.procs && q != p ==>
      q in PurgeStep(sql, w, p, e).procs && PurgeStep(sql, w, p, e).procs[q] == w.procs[q];
  }

  lemma KeptAfterPurge(sql: Sql, w: World, p: nat, e: PurgeEvent)
    requires Inv(sql, w) && KeptOk(w) && PurgeEnabled(sql, w, p, e)
    ensures KeptOk(PurgeStep(sql, w, p, e))
  {
    var w' := PurgeStep(sql, w, p, e);
    forall i <- w'.db.recordings
      ensures Covered(w'.db, Guard(i)) ==> KeptUnlessForeign(w', i)
      ensures forall q: nat :: Placeable(w', q, i) ==> KeptUnlessForeign(w', i)
      ensures !w'.db.recordings[i].storageDeleted ==> Kept(w', i) || exists q: nat :: Removing(w', q, i)
    {
      PurgeCoversNothing(sql, w, p, e, Guard(i));
      PlacersStay(sql, w, p, e, i);
      if p in w.procs && w.procs[p].todo[0] == i {
        assert i in w.db.recordings;
        forall q: nat | Placeable(w, q, i) ensures KeptUnlessForeign(w', i) { PlaceableOwnItem(sql, w, p, e, q); }
        if Covered(w.db, Guard(i)) { CoveredOwnItem(sql, w, p, e); }
        KeptOwnItem(sql, w, p, e);
      } else {
        KeptOtherItem(sql, w, p, e, i);
        RemovingAfterPurge(sql, w, p, e, i);
      }
    }
  }

  lemma PlacersStay(sql: Sql, w: World, p: nat, e: PurgeEvent, i: Item)
    requires PurgeEnabled(sql, w, p, e)
    ensures forall q: nat :: Placeable(PurgeStep(sql, w, p, e), q, i) ==> Placeable(w, q, i)
  {
  }

  lemma KeptAfterDelete(sql: Sql, w: World, p: nat, e: DeleteEvent)
    requires Inv(sql, w) && KeptOk(w) && DeleteEnabled(w, p, e)
    ensures KeptOk(DeleteStep(w, p, e))
  {
    var w' := DeleteStep(w, p, e);
    assert forall q <- w.procs :: q != p ==> q in w'.procs && w'.procs[q] == w.procs[q];
    forall i <- w'.db.recordings
      ensures Covered(w'.db, Guard(i)) ==> KeptUnlessForeign(w', i)
      ensures forall q: nat :: Placeable(w', q, i) ==> KeptUnlessForeign(w', i)
      ensures !w'.db.recordings[i].storageDeleted ==> Kept(w', i) || exists q: nat :: Removing(w', q, i)
    {
      DeleteCoversNothing(w, p, e, Guard(i));
      DeleteKeeps(w, p, e, i);
      assert forall q: nat :: Placeable(w', q, i) ==> Placeable(w, q, i);
      assert forall q: nat :: Removing(w, q, i) ==> Removing(w', q, i);
    }
  }

  lemma DeleteKeeps(w: World, p: nat, e: DeleteEvent, i: Item)
    requires DeleteEnabled(w, p, e)
    ensures var w' := DeleteStep(w, p, e);
            && (Kept(w, i) ==> Kept(w', i)) && w'.foreign == w.foreign
            && (i in w'.db.recordings && !w'.db.recordings[i].storageDeleted ==>
                  i in w.db.recordings && !w.db.recordings[i].storageDeleted)
            && (i in w'.db.recordings ==> i in w.db.recordings)
  {
  }

  lemma {:induction false} RunKeepsKept(sql: Sql, es: seq<Event>)
    ensures KeptOk(Run(sql, es))
  {
    if es != [] {
      var w, e := Run(sql, es[..|es| - 1]), es[|es| - 1];
      RunKeepsKept(sql, es[..|es| - 1]);
      RunKeepsInv(sql, es[..|es| - 1]);
      if Enabled(sql, w, e) {
        match e
        case Table(t) => KeptAfterTable(w, t);
        case Placing(p, place) => KeptAfterPlace(sql, w, p, place);
        case Purging(p, purge) => KeptAfterPurge(sql, w, p, purge);
        case Deleting(p, delete) => KeptAfterDelete(sql, w, p, delete);
      }
    }
  }

  /** Event `e` takes the object of `i` away without a committed mark by a purge. */
  ghost predicate Strays(sql: Sql, w: World, e: Event, i: Item) {
    Enabled(sql, w, e) &&
    match e
    case Table(t) => t == LateRemove(i)
    case Deleting(p, delete) =>
      delete.RemoveUnlocked? && (delete.reply.Removed? || delete.reply.ReplyLost?) && w.procs[p].pending[0] == i
    case Placing(_, _) => false
    case Purging(p, purge) =>
      match purge
      case RemoveObject(reply) =>
        (reply.ReplyLost? || (reply.Removed? && w.procs[p].purging.Severed?)) && w.procs[p].todo[0] == i
      case CommitItem(outcome) =>
        (outcome.RolledBack? || w.procs[p].purging.count == 0) && w.procs[p].todo[0] == i
      case AbortItem => w.procs[p].todo[0] == i && (w.procs[p].purging.Deleted? || w.procs[p].purging.Marked?)
      case _ => false
  }

  ghost predicate StraysAt(sql: Sql, es: seq<Event>, j: nat, i: Item) {
    j < |es| && Strays(sql, Run(sql, es[..j]), es[j], i)
  }

  ghost predicate StrayedIn(sql: Sql, es: seq<Event>, i: Item) {
    exists j: nat :: StraysAt(sql, es, j, i)
  }

  ghost predicate StrayedGone(w: World) {
    forall i <- w.strayed :: i in w.used && i !in w.objects
  }

  lemma StrayedStep(sql: Sql, w: World, e: Event)
    requires Inv(sql, w) && StrayedGone(w)
    ensures StrayedGone(Step(sql, w, e))
    ensures forall i: Item :: i in Step(sql, w, e).strayed <==> i in w.strayed || Strays(sql, w, e, i)
  {
    if Enabled(sql, w, e) {
      match e
      case Table(t) => StrayedAfterTable(sql, w, t);
      case Placing(p, place) =>
        var w' := PlaceStep(sql, w, p, place);
        assert w'.strayed == w.strayed && w'.objects == w.objects && w'.used == w.used;
      case Purging(p, purge) => StrayedAfterPurge(sql, w, p, purge);
      case Deleting(p, delete) => StrayedAfterDelete(sql, w, p, delete);
    }
  }

  lemma StrayedAfterTable(sql: Sql, w: World, t: TableEvent)
    requires Inv(sql, w) && StrayedGone(w) && TableEnabled(w, t)
    ensures StrayedGone(TableStep(w, t))
    ensures forall i: Item :: i in TableStep(w, t).strayed <==> i in w.strayed || Strays(sql, w, Table(t), i)
  {
    assert t.LateRemove? ==> t.item in w.used;
  }

  lemma StrayedAfterDelete(sql: Sql, w: World, p: nat, e: DeleteEvent)
    requires Inv(sql, w) && StrayedGone(w) && DeleteEnabled(w, p, e)
    ensures StrayedGone(DeleteStep(w, p, e))
    ensures forall i: Item :: i in DeleteStep(w, p, e).strayed <==> i in w.strayed || Strays(sql, w, Deleting(p, e), i)
  {
    if p in w.procs {
      assert ProcOk(w, p) && ReadOk(w, w.procs[p].pending[0]);
    }
  }

  lemma StrayedAfterPurge(sql: Sql, w: World, p: nat, e: PurgeEvent)
    requires Inv(sql, w) && StrayedGone(w) && PurgeEnabled(sql, w, p, e)
    ensures StrayedGone(PurgeStep(sql, w, p, e))
    ensures forall i: Item ::
              i in PurgeStep(sql, w, p, e).strayed <==> i in w.strayed || Strays(sql, w, Purging(p, e), i)
  {
    if p in w.procs {
      var i := w.procs[p].todo[0];
      assert ProcOk(w, p) && ListedOk(w, i);
    }
  }

  lemma {:induction false} StrayedAreGone(sql: Sql, es: seq<Event>, i: Item)
    ensures StrayedGone(Run(sql, es))
    ensures i in Run(sql, es).strayed <==> StrayedIn(sql, es, i)
  {
    if es != [] {
      var n := |es| - 1;
      var w := Run(sql, es[..n]);
      StrayedAreGone(sql, es[..n], i);
      RunKeepsInv(sql, es[..n]);
      StrayedStep(sql, w, es[n]);
      StrayedEarlier(sql, es, i);
    }
  }

  lemma StraysEarlier(sql: Sql, es: seq<Event>, j: nat, i: Item)
    requires j < |es| - 1
    ensures StraysAt(sql, es, j, i) <==> StraysAt(sql, es[..|es| - 1], j, i)
  {
    assert es[..|es| - 1][..j] == es[..j];
  }

  lemma StrayedEarlier(sql: Sql, es: seq<Event>, i: Item)
    requires es != []
    ensures StrayedIn(sql, es, i) <==> StrayedIn(sql, es[..|es| - 1], i) || StraysAt(sql, es, |es| - 1, i)
  {
    var n := |es| - 1;
    forall j: nat | StraysAt(sql, es, j, i) && j != n ensures StraysAt(sql, es[..n], j, i) {
      StraysEarlier(sql, es, j, i);
    }
    forall j: nat | StraysAt(sql, es[..n], j, i) ensures StraysAt(sql, es, j, i) {
      StraysEarlier(sql, es, j, i);
    }
  }

  /**
   Main result: every recording still has its object exactly if it is not marked, no open purge
   transaction has just deleted it, and no event took it without a purge's mark: a deletion without a
   lock, a lost reply of the store, a call carried out late, a lost session, or a transaction that
   marked nothing.
   */
  lemma RecordingHasObject(sql: Sql, es: seq<Event>, i: Item)
    requires i in Run(sql, es).db.recordings
    ensures var w := Run(sql, es);
            i in w.objects <==>
              !w.db.recordings[i].storageDeleted && !StrayedIn(sql, es, i) && !exists q: nat :: Removing(w, q, i)
  {
    RunKeepsInv(sql, es);
    RunKeepsKept(sql, es);
    StrayedAreGone(sql, es, i);
    var w := Run(sql, es);
    forall q: nat | Removing(w, q, i) ensures i !in w.objects { assert ProcOk(w, q); }
  }

  /**
   Under a committed ACTIVE hold only the last of the three is left, if every placement for the
   recording was called with a text of its id that takes the lock a purge takes.
   */
  lemma HeldRecordingHasObject(sql: Sql, es: seq<Event>, i: Item)
    requires i in Run(sql, es).db.recordings && Covered(Run(sql, es).db, Guard(i))
    requires forall call <- es :: !ForeignCall(sql, call, Guard(i))
    ensures i in Run(sql, es).objects <==> !StrayedIn(sql, es, i)
  {
    RunKeepsKept(sql, es);
    StrayedAreGone(sql, es, i);
    if Guard(i) in Run(sql, es).foreign {
      ForeignWasCalled(sql, es, Guard(i));
    }
  }

  const TAPE := RecordingItem("tenant", "tape")

  /** The exception is real: a rollback after the delete, then a hold on a row that still claims its object. */
  lemma HeldWithoutObject(sql: Sql) returns (es: seq<Event>)
    requires (sql.canon)(TAPE.id) == TAPE.id
    ensures TAPE in Run(sql, es).db.recordings && !Run(sql, es).db.recordings[TAPE].storageDeleted
    ensures Covered(Run(sql, es).db, Guard(TAPE)) && TAPE !in Run(sql, es).objects
  {
    es := RolledBackPurge(sql);
    var w := Run(sql, es);
    es, w := Extend(sql, es, w, Placing(2, StartPlace(HOLD, Guard(TAPE), TAPE.id)));
    es, w := Extend(sql, es, w, Placing(2, LockPlace));
    es, w := Extend(sql, es, w, Placing(2, SeeResource));
    es, w := Extend(sql, es, w, Placing(2, InsertHeld));
    es, w := Extend(sql, es, w, Placing(2, CommitPlace));
    assert Covers(w.db, HOLD, Guard(TAPE));
  }

  lemma ListedTape(sql: Sql) returns (es: seq<Event>)
    ensures Run(sql, es) ==
            World(Db(map[HOLD := Hold("tenant", ACTIVE)], {}, map[TAPE := Recording(true, false)], {}, {}, map[]),
                  {TAPE}, map[],
                  map[1 := Purge([TAPE], Idle, 0)], {TAPE}, [], {}, {}, {}, {})
  {
    var w := EMPTY;
    es := [];
    es, w := Extend(sql, es, w, Table(CreateHold(HOLD, "tenant")));
    es, w := Extend(sql, es, w, Table(AddRecording(TAPE)));
    es, w := Extend(sql, es, w, Table(ExpireRecordings({TAPE})));
    assert w.db.recordings == map[TAPE := Recording(true, false)];
    es, w := Extend(sql, es, w, Purging(1, StartPurge([TAPE])));
  }

  lemma RolledBackPurge(sql: Sql) returns (es: seq<Event>)
    ensures Run(sql, es) ==
            World(Db(map[HOLD := Hold("tenant", ACTIVE)], {}, map[TAPE := Recording(true, false)], {}, {}, map[]), {},
                  map[],
                  map[1 := Purge([], Idle, 0)], {TAPE}, [], {}, {TAPE}, {}, {})
  {
    es := ListedTape(sql);
    var w := Run(sql, es);
    es, w := Extend(sql, es, w, Purging(1, LockItem));
    es, w := Extend(sql, es, w, Purging(1, CheckHold));
    assert w.procs[1] == Purge([TAPE], Checked(true), 0);
    es, w := Extend(sql, es, w, Purging(1, RemoveObject(Removed)));
    es, w := Extend(sql, es, w, Purging(1, AbortItem));
    assert [TAPE][1..] == [] && w.locks == map[] && w.objects == {};
  }
}
