/**
 Exactly what callers and the database must grant for a hold to protect its objects in module
 LegalHold: a placement that reaches something purgeable takes the lock a purge takes, no purge
 loses its session between its hold check and the delete call, the store carries no delete call out
 after it failed, and nothing that can be held is deleted without a lock.
 */
module HoldPolicy {
  import opened LegalHold

  /**
   `spells(r, text)`: a placement may be called for `r` with this text; `mayLose`: a purge may lose its
   session; `mayDelay`: a delete call may fail and be carried out later; `deletes(r)`: a delete handler
   or the clean-up of the drive trash may start on `r`.
   */
  datatype Policy = Policy(
    spells: (Resource, string) -> bool, mayLose: bool, mayDelay: bool, deletes: Resource -> bool)

  predicate Follows(policy: Policy, e: Event) {
    (Delays(e) ==> policy.mayDelay) &&
    match e
    case Table(_) => true
    case Placing(_, place) => place.StartPlace? ==> policy.spells(place.res, place.spelling)
    case Purging(_, purge) => purge.LoseSession? ==> policy.mayLose
    case Deleting(_, delete) => delete.StartDelete? ==> forall i <- delete.pending :: policy.deletes(Guard(i))
  }

  predicate AllFollow(policy: Policy, es: seq<Event>) {
    forall e <- es :: Follows(policy, e)
  }

  /** Event `e` takes the object of an item under a committed ACTIVE hold out of the store. */
  ghost predicate TakesHeld(sql: Sql, es: seq<Event>, e: Event, i: Item) {
    i in Run(sql, es).objects && Covered(Run(sql, es).db, Guard(i)) && i !in Run(sql, es + [e]).objects
  }

  /** No run that follows the policy takes a held object. */
  ghost predicate Safe(sql: Sql, policy: Policy) {
    forall es: seq<Event>, e: Event, i: Item :: AllFollow(policy, es + [e]) ==> !TakesHeld(sql, es, e, i)
  }

  /** A placement may be called with this text, and the database reads it as the id of `r`. */
  predicate Reaches(sql: Sql, policy: Policy, r: Resource, spelling: string) {
    policy.spells(r, spelling) && (sql.canon)(spelling) == r.id
  }

  /** What purges delete, they delete under the placement's lock and at once; what else deletes leaves `r` alone. */
  predicate Protects(sql: Sql, policy: Policy, r: Resource, spelling: string) {
    && (!r.kind.DRIVE_FILE? ==> SameLock(sql, r, spelling) && !policy.mayLose && !policy.mayDelay)
    && (!r.kind.CHAT_CONVERSATION? ==> !policy.deletes(r))
  }

  // ---------- enough ----------

  /** `r` is under a hold, released or not, or a placement for it is open. */
  ghost predicate Concerns(w: World, r: Resource) {
    (exists row <- w.db.held :: row.1 == r) || exists p <- w.procs :: w.procs[p].Place? && w.procs[p].res == r
  }

  lemma ConcernsAfterPlace(sql: Sql, w: World, p: nat, e: PlaceEvent, r: Resource)
    requires PlaceEnabled(sql, w, p, e) && Concerns(PlaceStep(sql, w, p, e), r)
    ensures Concerns(w, r) || CallsFor(sql, Placing(p, e), r)
  {
    var w' := PlaceStep(sql, w, p, e);
    if q :| q in w'.procs && w'.procs[q].Place? && w'.procs[q].res == r {
      assert q == p || w.procs[q] == w'.procs[q];
    } else {
      var row :| row in w'.db.held && row.1 == r;
      assert row in w.db.held || (p in w.procs && w.procs[p].Place? && w.procs[p].res == r);
    }
  }

  lemma ConcernsAfterPurge(sql: Sql, w: World, p: nat, e: PurgeEvent, r: Resource)
    requires PurgeEnabled(sql, w, p, e) && Concerns(PurgeStep(sql, w, p, e), r)
    ensures Concerns(w, r)
  {
    var w' := PurgeStep(sql, w, p, e);
    assert w'.db.held == w.db.held && w'.procs[p].Purge?;
    assert forall q <- w'.procs :: q != p ==> q in w.procs && w'.procs[q] == w.procs[q];
  }

  lemma ConcernsAfterDelete(w: World, p: nat, e: DeleteEvent, r: Resource)
    requires DeleteEnabled(w, p, e) && Concerns(DeleteStep(w, p, e), r)
    ensures Concerns(w, r)
  {
    var w' := DeleteStep(w, p, e);
    assert w'.db.held == w.db.held && w'.procs[p].Delete?;
    assert forall q <- w'.procs :: q != p ==> q in w.procs && w'.procs[q] == w.procs[q];
  }

  lemma ConcernsStep(sql: Sql, w: World, e: Event, r: Resource)
    requires Concerns(Step(sql, w, e), r)
    ensures Concerns(w, r) || CallsFor(sql, e, r)
  {
    if Enabled(sql, w, e) {
      match e
      case Table(t) => assert TableStep(w, t).procs == w.procs && TableStep(w, t).db.held <= w.db.held;
      case Placing(p, place) => ConcernsAfterPlace(sql, w, p, place, r);
      case Purging(p, purge) => ConcernsAfterPurge(sql, w, p, purge, r);
      case Deleting(p, delete) => ConcernsAfterDelete(w, p, delete, r);
    }
  }

  /** Only a placement that was called for a resource can bring it under a hold. */
  lemma {:induction false} HeldWasCalled(sql: Sql, es: seq<Event>, r: Resource)
    requires Concerns(Run(sql, es), r)
    ensures exists e <- es :: CallsFor(sql, e, r)
  {
    var n := |es| - 1;
    ConcernsStep(sql, Run(sql, es[..n]), es[n], r);
    if Concerns(Run(sql, es[..n]), r) {
      HeldWasCalled(sql, es[..n], r);
      var e :| e in es[..n] && CallsFor(sql, e, r);
      assert e in es;
    } else {
      assert es[n] in es;
    }
  }

  ghost predicate AllProtected(sql: Sql, policy: Policy) {
    forall r: Resource, s: string :: Reaches(sql, policy, r, s) ==> Protects(sql, policy, r, s)
  }

  /** Whatever takes a held object, a placement reached its resource that the policy does not protect. */
  lemma TakenWasReached(sql: Sql, policy: Policy, es: seq<Event>, e: Event, i: Item) returns (s: string)
    requires AllFollow(policy, es + [e]) && TakesHeld(sql, es, e, i)
    ensures Reaches(sql, policy, Guard(i), s) && !Protects(sql, policy, Guard(i), s)
  {
    HeldObjectsStay(sql, es, e, i);
    assert forall x <- es :: x in es + [e] && Follows(policy, x);
    assert Concerns(Run(sql, es), Guard(i));
    HeldWasCalled(sql, es, Guard(i));
    var call :| call in es && CallsFor(sql, call, Guard(i));
    s := call.place.spelling;
    if e.Deleting? {
      var start :| start in es && StartsDelete(start, e.p, i);
      assert policy.deletes(Guard(i));
    } else if e.Table? {
      if i.FileItem? {
        var start :| start in es && start.Deleting? && StartsDelete(start, start.p, i);
        assert policy.deletes(Guard(i));
      }
    } else if other :| other in es && ForeignCall(sql, other, Guard(i)) {
      s := other.place.spelling;
    }
  }

  // ---------- necessary ----------

  /** A run that follows the policy and ends in `w`. */
  ghost predicate Leads(sql: Sql, policy: Policy, es: seq<Event>, w: World) {
    Run(sql, es) == w && AllFollow(policy, es)
  }

  lemma Then(sql: Sql, policy: Policy, es: seq<Event>, w: World, e: Event) returns (es': seq<Event>, w': World)
    requires Leads(sql, policy, es, w) && Enabled(sql, w, e) && Follows(policy, e)
    ensures es' == es + [e] && w' == Apply(sql, w, e) && Leads(sql, policy, es', w')
  {
    es', w' := Extend(sql, es, w, e);
  }

  /** Something that a hold on `r` keeps. */
  function ItemOf(r: Resource): (i: Item)
    ensures Guard(i) == r
  {
    match r.kind
    case RECORDING => RecordingItem(r.tenant, r.id)
    case DRIVE_FILE => FileItem(r.tenant, r.id)
    case CHAT_CONVERSATION => AttachmentItem(r.tenant, "file", r.id)
  }

  /** An active hold, something it could keep, and the processes at work. */
  ghost predicate Working(w: World, r: Resource, procs: map<nat, Proc>) {
    && w.db.holds == map[HOLD := Hold(r.tenant, ACTIVE)] && w.db.held == {}
    && ResourceExists(w.db, r) && ItemOf(r) in w.objects && w.procs == procs
  }

  /** The rows of the item as they are created. */
  ghost predicate New(db: Db, i: Item) {
    match i
    case RecordingItem(_, _) => i in db.recordings && db.recordings[i] == Recording(false, false)
    case AttachmentItem(_, _, _) => i in db.attachments
    case FileItem(_, _) => i in db.files && !db.files[i]
  }

  lemma NewItem(sql: Sql, policy: Policy, r: Resource) returns (es: seq<Event>, w: World)
    ensures Leads(sql, policy, es, w) && Working(w, r, map[]) && w.locks == map[] && New(w.db, ItemOf(r))
  {
    var i := ItemOf(r);
    es, w := [], EMPTY;
    es, w := Then(sql, policy, es, w, Table(CreateHold(HOLD, r.tenant)));
    match r.kind
    case RECORDING => es, w := Then(sql, policy, es, w, Table(AddRecording(i)));
    case DRIVE_FILE => es, w := Then(sql, policy, es, w, Table(AddFile(i)));
    case CHAT_CONVERSATION =>
      es, w := Then(sql, policy, es, w, Table(AddConversation(r)));
      es, w := Then(sql, policy, es, w, Table(AddAttachment(i)));
  }

  lemma ListedItem(sql: Sql, policy: Policy, r: Resource) returns (es: seq<Event>, w: World)
    requires !r.kind.DRIVE_FILE?
    ensures Leads(sql, policy, es, w) && Working(w, r, map[1 := Purge([ItemOf(r)], Idle, 0)]) && w.locks == map[]
    ensures RowPresent(w.db, ItemOf(r))
  {
    es, w := NewItem(sql, policy, r);
    if r.kind.RECORDING? {
      es, w := Then(sql, policy, es, w, Table(ExpireRecordings({ItemOf(r)})));
    }
    assert Purgeable(w.db, ItemOf(r));
    es, w := Then(sql, policy, es, w, Purging(1, StartPurge([ItemOf(r)])));
  }

  lemma CheckedItem(sql: Sql, policy: Policy, r: Resource) returns (es: seq<Event>, w: World)
    requires !r.kind.DRIVE_FILE?
    ensures Leads(sql, policy, es, w) && Working(w, r, map[1 := Purge([ItemOf(r)], Checked(true), 0)])
    ensures w.locks == map[LockId(sql, r) := 1]
  {
    es, w := ListedItem(sql, policy, r);
    es, w := Then(sql, policy, es, w, Purging(1, LockItem));
    es, w := Then(sql, policy, es, w, Purging(1, CheckHold));
  }

  /** A delete handler or the clean-up has read the row. */
  lemma ReadItem(sql: Sql, policy: Policy, r: Resource) returns (es: seq<Event>, w: World)
    requires !r.kind.CHAT_CONVERSATION? && policy.deletes(r)
    ensures Leads(sql, policy, es, w) && Working(w, r, map[1 := Delete([ItemOf(r)], Seen)]) && w.locks == map[]
  {
    es, w := NewItem(sql, policy, r);
    if r.kind.DRIVE_FILE? {
      es, w := Then(sql, policy, es, w, Table(SetTrashed(ItemOf(r), true)));
    }
    assert Deletable(w.db, ItemOf(r));
    es, w := Then(sql, policy, es, w, Deleting(1, StartDelete([ItemOf(r)])));
  }

  lemma SeenMeanwhile(sql: Sql, policy: Policy, es: seq<Event>, w: World, r: Resource, s: string, proc: Proc)
    returns (es': seq<Event>, w': World)
    requires Reaches(sql, policy, r, s)
    requires Leads(sql, policy, es, w) && Working(w, r, map[1 := proc]) && LockId(sql, r.(id := s)) !in w.locks
    ensures Leads(sql, policy, es', w') && Working(w', r, map[1 := proc, 2 := Place(HOLD, r, s, PlaceSeen)])
    ensures w'.late == w.late
  {
    es', w' := Then(sql, policy, es, w, Placing(2, StartPlace(HOLD, r, s)));
    es', w' := Then(sql, policy, es', w', Placing(2, LockPlace));
    es', w' := Then(sql, policy, es', w', Placing(2, SeeResource));
  }

  /** ... and a placement with a free lock goes through before the object is deleted. */
  lemma PlaceMeanwhile(sql: Sql, policy: Policy, es: seq<Event>, w: World, r: Resource, s: string, proc: Proc)
    returns (es': seq<Event>, w': World)
    requires Reaches(sql, policy, r, s)
    requires Leads(sql, policy, es, w) && Working(w, r, map[1 := proc]) && LockId(sql, r.(id := s)) !in w.locks
    ensures Leads(sql, policy, es', w') && Covers(w'.db, HOLD, r) && ItemOf(r) in w'.objects
    ensures 1 in w'.procs && w'.procs[1] == proc && w'.late == w.late
  {
    es', w' := SeenMeanwhile(sql, policy, es, w, r, s, proc);
    es', w' := Then(sql, policy, es', w', Placing(2, InsertHeld));
    es', w' := Then(sql, policy, es', w', Placing(2, CommitPlace));
  }

  const PURGED: Event := Purging(1, RemoveObject(Removed))
  const DELETED: Event := Deleting(1, RemoveUnlocked(Removed))

  /** A run that follows the policy and whose last event takes a held object of `r`. */
  ghost predicate Fails(sql: Sql, policy: Policy, es: seq<Event>, e: Event, r: Resource) {
    TakesHeld(sql, es, e, ItemOf(r)) && AllFollow(policy, es + [e])
  }

  lemma CallTakesHeld(sql: Sql, policy: Policy, es: seq<Event>, w: World, r: Resource, pc: PurgePc)
    requires !r.kind.DRIVE_FILE? && (pc.Checked? || pc.Severed?)
    requires Leads(sql, policy, es, w) && Covers(w.db, HOLD, r) && ItemOf(r) in w.objects
    requires 1 in w.procs && w.procs[1] == Purge([ItemOf(r)], pc, 0)
    ensures Fails(sql, policy, es, PURGED, r)
  {
    var es', w' := Then(sql, policy, es, w, PURGED);
  }

  /**
   The failing runs: a recording or conversation that is placed under a hold by a text of its id with
   another lock than the purge's, between the purge's check and its delete call ...
   */
  lemma OtherSpellingTakesHeld(sql: Sql, policy: Policy, r: Resource, s: string) returns (es: seq<Event>)
    requires Reaches(sql, policy, r, s) && !r.kind.DRIVE_FILE? && !SameLock(sql, r, s)
    ensures Fails(sql, policy, es, PURGED, r)
  {
    var w: World;
    es, w := CheckedItem(sql, policy, r);
    es, w := PlaceMeanwhile(sql, policy, es, w, r, s, Purge([ItemOf(r)], Checked(true), 0));
    CallTakesHeld(sql, policy, es, w, r, Checked(true));
  }

  /** ... or, under the right lock, after the purge lost its session and the lock with it ... */
  lemma LostSessionTakesHeld(sql: Sql, policy: Policy, r: Resource, s: string) returns (es: seq<Event>)
    requires Reaches(sql, policy, r, s) && !r.kind.DRIVE_FILE? && policy.mayLose
    ensures Fails(sql, policy, es, PURGED, r)
  {
    var w: World;
    es, w := CheckedItem(sql, policy, r);
    es, w := Then(sql, policy, es, w, Purging(1, LoseSession));
    assert w.locks == map[];
    es, w := PlaceMeanwhile(sql, policy, es, w, r, s, Purge([ItemOf(r)], Severed, 0));
    CallTakesHeld(sql, policy, es, w, r, Severed);
  }

  /** ... or, with lock and session, after the purge's delete call failed and before it is carried out ... */
  lemma LateRemoveTakesHeld(sql: Sql, policy: Policy, r: Resource, s: string) returns (es: seq<Event>)
    requires Reaches(sql, policy, r, s) && !r.kind.DRIVE_FILE? && policy.mayDelay
    ensures Fails(sql, policy, es, Table(LateRemove(ItemOf(r))), r)
  {
    var w: World;
    es, w := CheckedItem(sql, policy, r);
    es, w := Then(sql, policy, es, w, Purging(1, RemoveObject(Delayed)));
    assert w.locks == map[] && [ItemOf(r)][1..] == [];
    es, w := PlaceMeanwhile(sql, policy, es, w, r, s, Purge([], Idle, 0));
    var es', w' := Then(sql, policy, es, w, Table(LateRemove(ItemOf(r))));
  }

  /** ... or a recording or file that a delete handler or the clean-up has read, which take no lock. */
  lemma UnlockedDeleteTakesHeld(sql: Sql, policy: Policy, r: Resource, s: string) returns (es: seq<Event>)
    requires Reaches(sql, policy, r, s) && !r.kind.CHAT_CONVERSATION? && policy.deletes(r)
    ensures Fails(sql, policy, es, DELETED, r)
  {
    var w: World;
    es, w := ReadItem(sql, policy, r);
    es, w := PlaceMeanwhile(sql, policy, es, w, r, s, Delete([ItemOf(r)], Seen));
    var es', w' := Then(sql, policy, es, w, DELETED);
  }

  /**
   Main result: no run ever takes a held object exactly if every placement that reaches a recording or
   conversation spells its id so that it takes the purge's lock, then no purge may lose its session
   between its check and its delete call and no failed call is carried out late, and no recording or
   file that can be held is deleted without a lock.
   */
  lemma HoldsAreSafeExactly(sql: Sql, policy: Policy)
    ensures Safe(sql, policy) <==> AllProtected(sql, policy)
  {
    if Safe(sql, policy) {
      forall r: Resource, s: string | Reaches(sql, policy, r, s)
        ensures Protects(sql, policy, r, s)
      {
        if !r.kind.DRIVE_FILE? && !SameLock(sql, r, s) {
          var es := OtherSpellingTakesHeld(sql, policy, r, s);
        } else if !r.kind.DRIVE_FILE? && policy.mayLose {
          var es := LostSessionTakesHeld(sql, policy, r, s);
        } else if !r.kind.DRIVE_FILE? && policy.mayDelay {
          var es := LateRemoveTakesHeld(sql, policy, r, s);
        } else if !r.kind.CHAT_CONVERSATION? && policy.deletes(r) {
          var es := UnlockedDeleteTakesHeld(sql, policy, r, s);
        }
      }
    }
    if AllProtected(sql, policy) {
      forall es: seq<Event>, e: Event, i: Item | AllFollow(policy, es + [e])
        ensures !TakesHeld(sql, es, e, i)
      {
        if TakesHeld(sql, es, e, i) {
          var s := TakenWasReached(sql, policy, es, e, i);
        }
      }
    }
  }

  predicate Collide(sql: Sql, a: string, b: string) {
    a != b && (sql.hash)(a) == (sql.hash)(b)
  }

  /** What a caller can check: apart from colliding keys, only the text the database prints takes the purge's lock. */
  lemma CanonicalTakesTheLock(sql: Sql, r: Resource, s: string)
    requires ':' !in r.tenant
    ensures SameLock(sql, r, s) <==> s == r.id || Collide(sql, LockKey(r.(id := s)), LockKey(r))
  {
    LockKeyNamesOneResource(r.(id := s), r);
  }
}
