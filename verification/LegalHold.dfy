/**
 Legal hold against retention purge and the other deletions, as an interleaving of database
 transactions.

 Every statement of a transaction is one event, so any number of hold placements, purge runs and
 deletions may be between any two of their statements at the same time.  A statement
 sees what is committed when it runs (READ COMMITTED); what a transaction writes becomes
 visible at its commit, which also gives up its advisory lock.

 A request names a resource by text and the database reads that text as an id, so one id has
 several spellings.  A placement locks the text it was called with; a purge locks the text the
 database prints.  The handlers that delete a recording and the clean-up of the drive trash lock
 nothing.
 */
module LegalHold {
  import opened Options

  // ---------- resources and their lock keys ----------

  datatype ResourceType = RECORDING | DRIVE_FILE | CHAT_CONVERSATION

  datatype Resource = Resource(tenant: string, kind: ResourceType, id: string)

  function TypeName(kind: ResourceType): string {
    match kind
    case RECORDING => "RECORDING"
    case DRIVE_FILE => "DRIVE_FILE"
    case CHAT_CONVERSATION => "CHAT_CONVERSATION"
  }

  function LockKey(r: Resource): string {
    r.tenant + ":" + TypeName(r.kind) + ":" + r.id
  }

  lemma FirstColonSplits(x: string, y: string, u: string, v: string)
    requires ':' !in x && ':' !in u
    requires x + ":" + y == u + ":" + v
    ensures x == u && y == v
  {
    var s := x + ":" + y;
    assert s[|x|] == ':' && s[|u|] == ':';
    assert forall k | 0 <= k < |x| :: s[k] == x[k] != ':';
    assert forall k | 0 <= k < |u| :: s[k] == u[k] != ':';
    assert x == s[..|x|] && u == s[..|u|];
    assert y == s[|x| + 1..] && v == s[|u| + 1..];
  }

  /** Tenant ids are UUIDs, which hold no colon: two keys are equal exactly if tenant, type and text of the id are. */
  lemma LockKeyNamesOneResource(a: Resource, b: Resource)
    requires ':' !in a.tenant && ':' !in b.tenant
    ensures LockKey(a) == LockKey(b) <==> a == b
  {
    if LockKey(a) == LockKey(b) {
      var aRest, bRest := TypeName(a.kind) + ":" + a.id, TypeName(b.kind) + ":" + b.id;
      assert LockKey(a) == a.tenant + ":" + aRest;
      assert LockKey(b) == b.tenant + ":" + bRest;
      FirstColonSplits(a.tenant, aRest, b.tenant, bRest);
      FirstColonSplits(TypeName(a.kind), a.id, TypeName(b.kind), b.id);
      assert |TypeName(RECORDING)| == 9 && |TypeName(DRIVE_FILE)| == 10 && |TypeName(CHAT_CONVERSATION)| == 17;
    }
  }

  /**
   What the database does with text: `hash` is `hashtextextended`, `canon` gives the id a text
   stands for, as it prints it.  Nothing is assumed of either, so colliding keys are covered too.
   */
  datatype Sql = Sql(hash: string -> int, canon: string -> string)

  function LockId(sql: Sql, r: Resource): int {
    (sql.hash)(LockKey(r))
  }

  /** A call that spells the id of `r` this way takes the lock a purge takes. */
  predicate SameLock(sql: Sql, r: Resource, spelling: string) {
    LockId(sql, r.(id := spelling)) == LockId(sql, r)
  }

  // ---------- committed tables ----------

  datatype HoldStatus = ACTIVE | RELEASED

  datatype Hold = Hold(tenant: string, status: HoldStatus)

  /** What a hold keeps: a recording, an attachment of a conversation, a file of the drive. */
  datatype Item =
    | RecordingItem(tenant: string, id: string)
    | AttachmentItem(tenant: string, id: string, conversation: string)
    | FileItem(tenant: string, id: string)

  /** The resource whose lock and holds protect an item. */
  function Guard(i: Item): Resource {
    match i
    case RecordingItem(tenant, id) => Resource(tenant, RECORDING, id)
    case AttachmentItem(tenant, _, conversation) => Resource(tenant, CHAT_CONVERSATION, conversation)
    case FileItem(tenant, id) => Resource(tenant, DRIVE_FILE, id)
  }

  /** `retention_expired_at IS NOT NULL` and `storage_deleted_at IS NOT NULL`. */
  datatype Recording = Recording(expired: bool, storageDeleted: bool)

  datatype Db = Db(
    holds: map<string, Hold>,
    held: set<(string, Resource)>,
    recordings: map<Item, Recording>,
    attachments: set<Item>,
    conversations: set<Resource>,
    files: map<Item, bool>)  // whether the file is in the trash and past its retention

  ghost predicate Covers(db: Db, hold: string, r: Resource) {
    (hold, r) in db.held && hold in db.holds && db.holds[hold] == Hold(r.tenant, ACTIVE)
  }

  ghost predicate Covered(db: Db, r: Resource) {
    exists hold :: Covers(db, hold, r)
  }

  // ---------- processes ----------

  datatype PlacePc = PlaceStart | PlaceLocked | PlaceSeen | PlaceInserted | PlaceDone

  /**
   `Checked(present)`: the hold check said no hold; `present` tells whether the item's row was
   there.  `Severed`: as after the check, but the database session is lost and the lock with it.
   */
  datatype PurgePc = Idle | Locked | Checked(present: bool) | Severed | Deleted | Marked(count: nat)

  /** `Seen`: the row was read without a hold; `Gone`: its object has been deleted. */
  datatype DeletePc = Seen | Gone

  /** `res` is the resource as the database reads it, `spelling` the text the request gave for its id. */
  datatype Proc =
    | Place(hold: string, res: Resource, spelling: string, placing: PlacePc)
    | Purge(todo: seq<Item>, purging: PurgePc, removed: nat)
    | Delete(pending: seq<Item>, deleting: DeletePc)

  ghost predicate HoldsLock(proc: Proc) {
    match proc
    case Place(_, _, _, pc) => pc.PlaceLocked? || pc.PlaceSeen? || pc.PlaceInserted?
    case Purge(todo, pc, _) => todo != [] && !pc.Idle? && !pc.Severed?
    case Delete(_, _) => false
  }

  /** What a process locks: a resource under the text used for its id. */
  ghost function LockedResource(proc: Proc): Resource
    requires HoldsLock(proc)
  {
    match proc
    case Place(_, res, spelling, _) => res.(id := spelling)
    case Purge(todo, _, _) => Guard(todo[0])
  }

  /** One committed mark: who made it, what it marked, and whether the commit was acknowledged. */
  datatype Mark = Mark(run: nat, item: Item, acknowledged: bool)

  /**
   `objects` is the object store.  The five fields before the last are history: every item ever created,
   the committed purge marks in order, the items marked by a deletion without a lock, the items
   whose object was removed by a step that did not go through a committed mark of a purge, and the
   resources that a placement was called for under another lock than a purge takes.  `late` are the
   items whose delete call has failed and may still be carried out.
   */
  datatype World = World(
    db: Db,
    objects: set<Item>,
    locks: map<int, nat>,
    procs: map<nat, Proc>,
    used: set<Item>,
    marks: seq<Mark>,
    deleted: set<Item>,
    strayed: set<Item>,
    foreign: set<Resource>,
    late: set<Item>)

  const EMPTY: World := World(Db(map[], {}, map[], {}, {}, map[]), {}, map[], map[], {}, [], {}, {}, {}, {})

  /** `ReplyLost`: the object went, the program saw an error; `Delayed`: it saw one, the object may go later. */
  datatype RemoveReply = Removed | NotRemoved | ReplyLost | Delayed

  /** Statements that are a transaction of their own. */
  datatype TableEvent =
    | CreateHold(hold: string, tenant: string)
    | ReleaseHold(hold: string)
    | RemoveHeld(hold: string, res: Resource)
    | AddConversation(res: Resource)
    | AddRecording(item: Item)
    | AddAttachment(item: Item)
    | ExpireRecordings(items: set<Item>)
    | AddFile(item: Item)
    | SetTrashed(item: Item, trashed: bool)
    | LateRemove(item: Item)

  /** The statements of a hold placement, in order, and its rollback. */
  datatype PlaceEvent =
    | StartPlace(hold: string, res: Resource, spelling: string)
    | LockPlace
    | SeeResource
    | InsertHeld
    | CommitPlace
    | AbortPlace

  /** A purge run lists its items, then runs one transaction an item. */
  datatype PurgeEvent =
    | StartPurge(todo: seq<Item>)
    | LockItem
    | CheckHold
    | LoseSession
    | RemoveObject(reply: RemoveReply)
    | MarkItem
    | CommitItem(commit: CommitOutcome)
    | AbortItem

  /** The delete handlers and the clean-up of the drive trash: read, delete the object, mark or delete the row. */
  datatype DeleteEvent =
    | StartDelete(pending: seq<Item>)
    | RemoveUnlocked(reply: RemoveReply)
    | MarkDeleted(outcome: CommitOutcome)
    | StopDelete

  datatype Event =
    | Table(table: TableEvent)
    | Placing(p: nat, place: PlaceEvent)
    | Purging(p: nat, purge: PurgeEvent)
    | Deleting(p: nat, delete: DeleteEvent)

  // ---------- the statements ----------

  /** The filter of the listing queries, for one row. */
  ghost predicate Purgeable(db: Db, i: Item) {
    !Covered(db, Guard(i)) &&
    match i
    case RecordingItem(_, _) => i in db.recordings && db.recordings[i].expired && !db.recordings[i].storageDeleted
    case AttachmentItem(_, _, _) => i in db.attachments
    case FileItem(_, _) => false
  }

  /** What a delete handler checks before it calls the store, and the filter of the trash's clean-up. */
  ghost predicate Deletable(db: Db, i: Item) {
    !Covered(db, Guard(i)) &&
    match i
    case RecordingItem(_, _) => i in db.recordings && !db.recordings[i].expired
    case AttachmentItem(_, _, _) => false
    case FileItem(_, _) => i in db.files && db.files[i]
  }

  /** A handler deletes one recording, the clean-up up to fifty files. */
  predicate OneCall(pending: seq<Item>) {
    (|pending| == 1 && pending[0].RecordingItem?) || (|pending| <= 50 && forall i <- pending :: i.FileItem?)
  }

  ghost predicate ResourceExists(db: Db, r: Resource) {
    match r.kind
    case RECORDING =>
      var i := RecordingItem(r.tenant, r.id);
      i in db.recordings && !db.recordings[i].storageDeleted
    case DRIVE_FILE => FileItem(r.tenant, r.id) in db.files
    case CHAT_CONVERSATION => r in db.conversations
  }

  ghost predicate RowPresent(db: Db, i: Item) {
    !i.AttachmentItem? || i in db.attachments
  }

  /** Rows affected by the guarded mark (recordings) or row delete (attachments). */
  ghost function MarkCount(db: Db, i: Item): nat {
    if Purgeable(db, i) then 1 else 0
  }

  ghost function MarkRow(db: Db, i: Item): Db {
    match i
    case RecordingItem(_, _) =>
      if i in db.recordings then db.(recordings := db.recordings[i := db.recordings[i].(storageDeleted := true)])
          else db
    case AttachmentItem(_, _, _) => db.(attachments := db.attachments - {i})
    case FileItem(_, _) => db
  }

  /** A handler's guard looks at retention only, the clean-up's at the trash and the holds again. */
  ghost predicate DeleteCounts(db: Db, i: Item) {
    match i
    case RecordingItem(_, _) => i in db.recordings && !db.recordings[i].expired
    case AttachmentItem(_, _, _) => false
    case FileItem(_, _) => i in db.files && db.files[i] && !Covered(db, Guard(i))
  }

  ghost function DeleteRow(db: Db, i: Item): Db {
    match i
    case RecordingItem(_, _) => db.(recordings := db.recordings[i := Recording(true, true)])
    case AttachmentItem(_, _, _) => db
    case FileItem(_, _) => db.(files := db.files - {i})
  }

  ghost predicate IsPlace(w: World, p: nat, pc: PlacePc) {
    p in w.procs && w.procs[p].Place? && w.procs[p].placing == pc
  }

  ghost predicate IsPurge(w: World, p: nat) {
    p in w.procs && w.procs[p].Purge? && w.procs[p].todo != []
  }

  ghost predicate IsDelete(w: World, p: nat) {
    p in w.procs && w.procs[p].Delete? && w.procs[p].pending != []
  }

  ghost predicate TableEnabled(w: World, t: TableEvent) {
    match t
    case CreateHold(hold, _) => hold !in w.db.holds
    case ReleaseHold(hold) => hold in w.db.holds && w.db.holds[hold].status == ACTIVE
    case RemoveHeld(hold, res) => Covers(w.db, hold, res)
    case AddConversation(res) => res.kind.CHAT_CONVERSATION?
    case AddRecording(item) => item.RecordingItem? && item !in w.used
    case AddAttachment(item) => item.AttachmentItem? && item !in w.used
    case ExpireRecordings(items) =>
      forall i <- items :: i in w.db.recordings && !w.db.recordings[i].expired && !Covered(w.db, Guard(i))
    case AddFile(item) => item.FileItem? && item !in w.used
    case SetTrashed(item, _) => item in w.db.files
    case LateRemove(item) => item in w.late
  }

  ghost predicate PlaceEnabled(sql: Sql, w: World, p: nat, e: PlaceEvent) {
    match e
    case StartPlace(_, res, spelling) => p !in w.procs && (sql.canon)(spelling) == res.id
    case LockPlace => IsPlace(w, p, PlaceStart) && LockId(sql, w.procs[p].res.(id := w.procs[p].spelling)) !in w.locks
    case SeeResource => IsPlace(w, p, PlaceLocked) && ResourceExists(w.db, w.procs[p].res)
    case InsertHeld =>
      && IsPlace(w, p, PlaceSeen)
      && w.procs[p].hold in w.db.holds
      && w.db.holds[w.procs[p].hold] == Hold(w.procs[p].res.tenant, ACTIVE)
      && (w.procs[p].hold, w.procs[p].res) !in w.db.held
    case CommitPlace => IsPlace(w, p, PlaceInserted)
    case AbortPlace => p in w.procs && w.procs[p].Place? && HoldsLock(w.procs[p])
  }

  ghost predicate PurgeEnabled(sql: Sql, w: World, p: nat, e: PurgeEvent) {
    match e
    case StartPurge(todo) => p !in w.procs && |todo| <= 100 && forall i <- todo :: Purgeable(w.db, i)
    case LockItem => IsPurge(w, p) && w.procs[p].purging.Idle? && LockId(sql, Guard(w.procs[p].todo[0])) !in w.locks
    case CheckHold => IsPurge(w, p) && w.procs[p].purging.Locked?
    case LoseSession => IsPurge(w, p) && w.procs[p].purging.Checked?
    case RemoveObject(_) => IsPurge(w, p) && (w.procs[p].purging.Checked? || w.procs[p].purging.Severed?)
    case MarkItem => IsPurge(w, p) && w.procs[p].purging.Deleted?
    case CommitItem(_) => IsPurge(w, p) && w.procs[p].purging.Marked?
    case AbortItem => IsPurge(w, p)
  }

  ghost predicate DeleteEnabled(w: World, p: nat, e: DeleteEvent) {
    match e
    case StartDelete(pending) => p !in w.procs && OneCall(pending) && forall i <- pending :: Deletable(w.db, i)
    case RemoveUnlocked(_) => IsDelete(w, p) && w.procs[p].deleting.Seen?
    case MarkDeleted(_) => IsDelete(w, p) && w.procs[p].deleting.Gone?
    case StopDelete => IsDelete(w, p)
  }

  ghost predicate Enabled(sql: Sql, w: World, e: Event) {
    match e
    case Table(t) => TableEnabled(w, t)
    case Placing(p, place) => PlaceEnabled(sql, w, p, place)
    case Purging(p, purge) => PurgeEnabled(sql, w, p, purge)
    case Deleting(p, delete) => DeleteEnabled(w, p, delete)
  }

  /** The end of an item's transaction: the lock is given up and the loop goes on. */
  ghost function NextItem(sql: Sql, w: World, p: nat, counted: nat): World
    requires IsPurge(w, p)
  {
    var proc := w.procs[p];
    w.(procs := w.procs[p := Purge(proc.todo[1..], Idle, proc.removed + counted)],
       locks := if HoldsLock(proc) then w.locks - {LockId(sql, Guard(proc.todo[0]))} else w.locks)
  }

  /** A rollback after the object is gone leaves a row that still claims it. */
  ghost function Rollback(sql: Sql, w: World, p: nat): World
    requires IsPurge(w, p)
  {
    var w1 := NextItem(sql, w, p, 0);
    if w.procs[p].purging.Deleted? || w.procs[p].purging.Marked?
    then w1.(strayed := w1.strayed + {w.procs[p].todo[0]}) else w1
  }

  ghost function SetPurging(w: World, p: nat, pc: PurgePc): World
    requires IsPurge(w, p)
  {
    w.(procs := w.procs[p := w.procs[p].(purging := pc)])
  }

  ghost function SetPlacing(w: World, p: nat, pc: PlacePc): World
    requires p in w.procs && w.procs[p].Place?
  {
    w.(procs := w.procs[p := w.procs[p].(placing := pc)])
  }

  ghost function FinishPlace(sql: Sql, w: World, p: nat): World
    requires p in w.procs && w.procs[p].Place?
  {
    SetPlacing(w, p, PlaceDone).(locks := w.locks - {LockId(sql, w.procs[p].res.(id := w.procs[p].spelling))})
  }

  ghost function TableStep(w: World, t: TableEvent): World
    requires TableEnabled(w, t)
  {
    match t
    case CreateHold(hold, tenant) => w.(db := w.db.(holds := w.db.holds[hold := Hold(tenant, ACTIVE)]))
    case ReleaseHold(hold) =>
      w.(db := w.db.(holds := w.db.holds[hold := w.db.holds[hold].(status := RELEASED)]))
    case RemoveHeld(hold, res) => w.(db := w.db.(held := w.db.held - {(hold, res)}))
    case AddConversation(res) => w.(db := w.db.(conversations := w.db.conversations + {res}))
    case AddRecording(item) =>
      w.(db := w.db.(recordings := w.db.recordings[item := Recording(false, false)]),
         objects := w.objects + {item}, used := w.used + {item})
    case AddAttachment(item) =>
      w.(db := w.db.(attachments := w.db.attachments + {item}), objects := w.objects + {item}, used := w.used + {item})
    case ExpireRecordings(items) =>
      w.(db := w.db.(recordings :=
           map i | i in w.db.recordings :: if i in items then w.db.recordings[i].(expired := true)
               else w.db.recordings[i]))
    case AddFile(item) =>
      w.(db := w.db.(files := w.db.files[item := false]), objects := w.objects + {item}, used := w.used + {item})
    case SetTrashed(item, trashed) => w.(db := w.db.(files := w.db.files[item := trashed]))
    case LateRemove(item) =>
      w.(objects := w.objects - {item}, strayed := w.strayed + {item}, late := w.late - {item})
  }

  ghost function PlaceStep(sql: Sql, w: World, p: nat, e: PlaceEvent): World
    requires PlaceEnabled(sql, w, p, e)
  {
    match e
    case StartPlace(hold, res, spelling) =>
      w.(procs := w.procs[p := Place(hold, res, spelling, PlaceStart)],
         foreign := if SameLock(sql, res, spelling) then w.foreign else w.foreign + {res})
    case LockPlace =>
      SetPlacing(w, p, PlaceLocked).(locks := w.locks[LockId(sql, w.procs[p].res.(id := w.procs[p].spelling)) := p])
    case SeeResource => SetPlacing(w, p, PlaceSeen)
    case InsertHeld => SetPlacing(w, p, PlaceInserted)
    case CommitPlace =>
      FinishPlace(sql, w, p).(db := w.db.(held := w.db.held + {(w.procs[p].hold, w.procs[p].res)}))
    case AbortPlace => FinishPlace(sql, w, p)
  }

  ghost function PurgeStep(sql: Sql, w: World, p: nat, e: PurgeEvent): World
    requires PurgeEnabled(sql, w, p, e)
  {
    match e
    case StartPurge(todo) => w.(procs := w.procs[p := Purge(todo, Idle, 0)])
    case LockItem => SetPurging(w, p, Locked).(locks := w.locks[LockId(sql, Guard(w.procs[p].todo[0])) := p])
    case CheckHold =>
      var i := w.procs[p].todo[0];
      // the attachment query reaches the hold through the attachment's own row
      if RowPresent(w.db, i) && Covered(w.db, Guard(i)) then NextItem(sql, w, p, 0)
      else SetPurging(w, p, Checked(RowPresent(w.db, i)))
    case LoseSession => SetPurging(w, p, Severed).(locks := w.locks - {LockId(sql, Guard(w.procs[p].todo[0]))})
    case RemoveObject(reply) =>
      var i := w.procs[p].todo[0];
      // without its session the process cannot mark the row any more
      if reply.Removed? && w.procs[p].purging.Checked? then SetPurging(w, p, Deleted).(objects := w.objects - {i})
      else if reply.NotRemoved? then NextItem(sql, w, p, 0)
      else if reply.Delayed? then NextItem(sql, w, p, 0).(late := w.late + {i})
      else NextItem(sql, w, p, 0).(objects := w.objects - {i}, strayed := w.strayed + {i})
    case MarkItem => SetPurging(w, p, Marked(MarkCount(w.db, w.procs[p].todo[0])))
    case CommitItem(commit) =>
      var i, count := w.procs[p].todo[0], w.procs[p].purging.count;
      if commit.RolledBack? then Rollback(sql, w, p)
      else if count == 0 then NextItem(sql, w, p, 0).(strayed := w.strayed + {i})
      else NextItem(sql, w, p, if commit.Committed? then 1 else 0).(
             db := MarkRow(w.db, i), marks := w.marks + [Mark(p, i, commit.Committed?)])
    case AbortItem => Rollback(sql, w, p)
  }

  ghost function DeleteStep(w: World, p: nat, e: DeleteEvent): World
    requires DeleteEnabled(w, p, e)
  {
    match e
    case StartDelete(pending) => w.(procs := w.procs[p := Delete(pending, Seen)])
    case RemoveUnlocked(reply) =>
      var rest := w.procs[p].pending[1..];
      if reply.NotRemoved? then w.(procs := w.procs[p := Delete(rest, Seen)])
      else if reply.Delayed? then
        w.(procs := w.procs[p := Delete(rest, Seen)], late := w.late + {w.procs[p].pending[0]})
      else
        var i := w.procs[p].pending[0];
        w.(objects := w.objects - {i}, strayed := w.strayed + {i},
           procs := w.procs[p := if reply.Removed? then w.procs[p].(deleting := Gone) else Delete(rest, Seen)])
    case MarkDeleted(outcome) =>
      var i := w.procs[p].pending[0];
      var x := w.(procs := w.procs[p := Delete(w.procs[p].pending[1..], Seen)]);
      if outcome.RolledBack? || !DeleteCounts(w.db, i) then x
      else x.(db := DeleteRow(w.db, i), deleted := w.deleted + {i})
    case StopDelete => w.(procs := w.procs[p := Delete([], Seen)])
  }

  ghost function Apply(sql: Sql, w: World, e: Event): World
    requires Enabled(sql, w, e)
  {
    match e
    case Table(t) => TableStep(w, t)
    case Placing(p, place) => PlaceStep(sql, w, p, place)
    case Purging(p, purge) => PurgeStep(sql, w, p, purge)
    case Deleting(p, delete) => DeleteStep(w, p, delete)
  }

  /** An event that cannot happen now (a lock is taken, a guard fails) changes nothing. */
  ghost function Step(sql: Sql, w: World, e: Event): World {
    if Enabled(sql, w, e) then Apply(sql, w, e) else w
  }

  ghost function Run(sql: Sql, es: seq<Event>): World {
    if es == [] then EMPTY else Step(sql, Run(sql, es[..|es| - 1]), es[|es| - 1])
  }

  // ---------- the invariant ----------

  ghost predicate LockOk(sql: Sql, w: World, p: nat)
    requires p in w.procs
  {
    HoldsLock(w.procs[p]) ==>
      var l := LockId(sql, LockedResource(w.procs[p]));
      l in w.locks && w.locks[l] == p
  }

  /** An item that was once listed: it exists or was purged, and a listed recording stays expired. */
  ghost predicate ListedOk(w: World, i: Item) {
    i in w.used && !i.FileItem? && (i.RecordingItem? ==> i in w.db.recordings && w.db.recordings[i].expired)
  }

  /** An item that a deletion without a lock has read. */
  ghost predicate ReadOk(w: World, i: Item) {
    i in w.used && !i.AttachmentItem? && (i.RecordingItem? ==> i in w.db.recordings)
  }

  /** No hold covers the item, as far as its lock can tell. */
  ghost predicate Free(w: World, i: Item) {
    Covered(w.db, Guard(i)) ==> Guard(i) in w.foreign
  }

  /** The row the mark is about is there, whatever the holds say. */
  ghost predicate Markable(db: Db, i: Item) {
    match i
    case RecordingItem(_, _) => i in db.recordings && db.recordings[i].expired && !db.recordings[i].storageDeleted
    case AttachmentItem(_, _, _) => i in db.attachments
    case FileItem(_, _) => false
  }

  ghost predicate CurrentOk(w: World, i: Item, pc: PurgePc) {
    match pc
    case Idle => true
    case Locked => true
    case Checked(present) => if present then Free(w, i) else i.AttachmentItem? && i !in w.db.attachments
    case Severed => true
    case Deleted => i !in w.objects
    case Marked(count) => i !in w.objects && count <= 1 && (count == 1 ==> Markable(w.db, i))
  }

  ghost predicate ProcOk(w: World, p: nat)
    requires p in w.procs
  {
    match w.procs[p]
    case Place(hold, _, _, pc) => pc.PlaceInserted? ==> hold in w.db.holds
    case Purge(todo, pc, _) =>
      && (forall i <- todo :: ListedOk(w, i))
      && (todo != [] ==> CurrentOk(w, todo[0], pc))
    case Delete(pending, pc) =>
      && (forall i <- pending :: ReadOk(w, i))
      && (pending != [] && pc.Gone? ==> pending[0] !in w.objects)
  }

  ghost predicate RowsOk(w: World) {
    && (forall row <- w.db.held :: row.0 in w.db.holds)
    && w.late <= w.used
    && (forall i <- w.objects ::
          i in w.used && (i.AttachmentItem? ==> i in w.db.attachments) && (i.FileItem? ==> i in w.db.files))
    && (forall i <- w.db.attachments :: i.AttachmentItem? && i in w.used)
    && (forall i <- w.db.files :: i.FileItem? && i in w.used)
    && (forall i <- w.db.recordings ::
          i.RecordingItem? && i in w.used &&
          (w.db.recordings[i].storageDeleted ==> w.db.recordings[i].expired && i !in w.objects))
  }

  /** A placement under another lock than a purge takes is on record. */
  ghost predicate ForeignOk(sql: Sql, w: World) {
    forall p <- w.procs ::
      w.procs[p].Place? && !SameLock(sql, w.procs[p].res, w.procs[p].spelling) ==> w.procs[p].res in w.foreign
  }

  ghost predicate Inv(sql: Sql, w: World) {
    && RowsOk(w)
    && ForeignOk(sql, w)
    && (forall p <- w.procs :: LockOk(sql, w, p))
    && (forall p <- w.procs :: ProcOk(w, p))
  }

  /** Only the commit of a placement can bring a resource under a hold. */
  lemma TableCoversNothing(w: World, t: TableEvent, r: Resource)
    requires RowsOk(w) && TableEnabled(w, t)
    ensures Covered(TableStep(w, t).db, r) ==> Covered(w.db, r)
  {
    var w' := TableStep(w, t);
    if hold :| Covers(w'.db, hold, r) {
      assert Covers(w.db, hold, r);
    }
  }

  lemma PlaceCoversOwnResource(sql: Sql, w: World, p: nat, e: PlaceEvent, r: Resource)
    requires RowsOk(w) && PlaceEnabled(sql, w, p, e)
    ensures Covered(PlaceStep(sql, w, p, e).db, r) ==> Covered(w.db, r) || (e.CommitPlace? && w.procs[p].res == r)
  {
    var w' := PlaceStep(sql, w, p, e);
    if hold :| Covers(w'.db, hold, r) {
      assert Covers(w.db, hold, r) || (hold, r) == (w.procs[p].hold, w.procs[p].res);
    }
  }

  lemma PurgeCoversNothing(sql: Sql, w: World, p: nat, e: PurgeEvent, r: Resource)
    requires PurgeEnabled(sql, w, p, e)
    ensures Covered(PurgeStep(sql, w, p, e).db, r) ==> Covered(w.db, r)
  {
    var w' := PurgeStep(sql, w, p, e);
    assert w'.db.held == w.db.held && w'.db.holds == w.db.holds;
    if hold :| Covers(w'.db, hold, r) {
      assert Covers(w.db, hold, r);
    }
  }

  lemma DeleteCoversNothing(w: World, p: nat, e: DeleteEvent, r: Resource)
    requires DeleteEnabled(w, p, e)
    ensures Covered(DeleteStep(w, p, e).db, r) ==> Covered(w.db, r)
  {
    var w' := DeleteStep(w, p, e);
    assert w'.db.held == w.db.held && w'.db.holds == w.db.holds;
    if hold :| Covers(w'.db, hold, r) {
      assert Covers(w.db, hold, r);
    }
  }

  /** What other transactions must leave alone while one holds the lock of item `i`. */
  ghost predicate Undisturbed(w: World, w': World, i: Item) {
    && (Free(w, i) ==> Free(w', i))
    && (i in w'.objects ==> i in w.objects)
    && (i in w'.db.attachments <==> i in w.db.attachments)
    && (i.RecordingItem? ==> i in w.db.recordings && i in w'.db.recordings && w.db.recordings[i] == w'.db.recordings[i])
  }

  lemma TableDisturbsNone(w: World, t: TableEvent, i: Item)
    requires RowsOk(w) && TableEnabled(w, t) && ListedOk(w, i)
    ensures Undisturbed(w, TableStep(w, t), i)
  {
    TableCoversNothing(w, t, Guard(i));
  }

  lemma PlaceDisturbsNone(sql: Sql, w: World, p: nat, e: PlaceEvent, q: nat)
    requires Inv(sql, w) && PlaceEnabled(sql, w, p, e)
    requires IsPurge(w, q) && HoldsLock(w.procs[q])
    ensures Undisturbed(w, PlaceStep(sql, w, p, e), w.procs[q].todo[0])
  {
    var i := w.procs[q].todo[0];
    assert ProcOk(w, q) && ListedOk(w, i) && LockOk(sql, w, q);
    assert p in w.procs ==> LockOk(sql, w, p);
    PlaceCoversOwnResource(sql, w, p, e, Guard(i));
  }

  lemma PurgeDisturbsNone(sql: Sql, w: World, p: nat, e: PurgeEvent, q: nat)
    requires Inv(sql, w) && PurgeEnabled(sql, w, p, e) && p != q
    requires IsPurge(w, q) && HoldsLock(w.procs[q])
    ensures Undisturbed(w, PurgeStep(sql, w, p, e), w.procs[q].todo[0])
  {
    var i := w.procs[q].todo[0];
    assert ProcOk(w, q) && ListedOk(w, i) && LockOk(sql, w, q);
    assert p in w.procs ==> LockOk(sql, w, p);
    PurgeCoversNothing(sql, w, p, e, Guard(i));
  }

  /** A listed recording stays expired, which is what a deletion without a lock spares. */
  lemma DeleteDisturbsNone(w: World, p: nat, e: DeleteEvent, i: Item)
    requires DeleteEnabled(w, p, e) && ListedOk(w, i)
    ensures Undisturbed(w, DeleteStep(w, p, e), i)
  {
    DeleteCoversNothing(w, p, e, Guard(i));
  }

  /** What a process knows about its item while it holds the lock, no other process can undo. */
  lemma CurrentStable(w: World, w': World, i: Item, pc: PurgePc)
    requires CurrentOk(w, i, pc) && Undisturbed(w, w', i)
    ensures CurrentOk(w', i, pc)
  {
  }

  lemma RowsAfterTable(w: World, t: TableEvent)
    requires RowsOk(w) && TableEnabled(w, t)
    ensures RowsOk(TableStep(w, t))
  {
  }

  lemma RowsAfterPurge(sql: Sql, w: World, p: nat, e: PurgeEvent)
    requires Inv(sql, w) && PurgeEnabled(sql, w, p, e)
    ensures RowsOk(PurgeStep(sql, w, p, e))
  {
    var w' := PurgeStep(sql, w, p, e);
    assert w'.used == w.used && w'.objects <= w.objects;
    assert p in w.procs ==> ProcOk(w, p) && ListedOk(w, w.procs[p].todo[0]);
    assert w'.late <= w.late + if p in w.procs then {w.procs[p].todo[0]} else {};
    if w'.db == w.db {
    } else {
      var i := w.procs[p].todo[0];
      assert ProcOk(w, p) && ListedOk(w, i);
      assert w'.db == MarkRow(w.db, i) && w'.objects == w.objects;
    }
  }

  lemma RowsAfterPlace(sql: Sql, w: World, p: nat, e: PlaceEvent)
    requires Inv(sql, w) && PlaceEnabled(sql, w, p, e)
    ensures RowsOk(PlaceStep(sql, w, p, e))
  {
    assert p in w.procs ==> ProcOk(w, p);
  }

  lemma RowsAfterDelete(sql: Sql, w: World, p: nat, e: DeleteEvent)
    requires Inv(sql, w) && DeleteEnabled(w, p, e)
    ensures RowsOk(DeleteStep(w, p, e))
  {
    assert p in w.procs ==> ProcOk(w, p);
    assert p in w.procs ==> ReadOk(w, w.procs[p].pending[0]);
  }

  lemma LocksAfterPlace(sql: Sql, w: World, p: nat, e: PlaceEvent, q: nat)
    requires Inv(sql, w) && PlaceEnabled(sql, w, p, e)
    requires q in PlaceStep(sql, w, p, e).procs
    ensures LockOk(sql, PlaceStep(sql, w, p, e), q)
  {
    assert q in w.procs ==> LockOk(sql, w, q);
    assert p in w.procs ==> LockOk(sql, w, p);
  }

  lemma LocksAfterPurge(sql: Sql, w: World, p: nat, e: PurgeEvent, q: nat)
    requires Inv(sql, w) && PurgeEnabled(sql, w, p, e)
    requires q in PurgeStep(sql, w, p, e).procs
    ensures LockOk(sql, PurgeStep(sql, w, p, e), q)
  {
    if q == p {
      assert p in w.procs ==> LockOk(sql, w, p);
    } else {
      OtherLocksAfterPurge(sql, w, p, e, q);
    }
  }

  lemma PurgeLocks(sql: Sql, w: World, p: nat, e: PurgeEvent)
    requires PurgeEnabled(sql, w, p, e)
    ensures var before, after := w.locks, PurgeStep(sql, w, p, e).locks;
      || after == before
      || (exists l :: l !in before && after == before[l := p])
      || (p in w.procs && HoldsLock(w.procs[p]) && after == before - {LockId(sql, LockedResource(w.procs[p]))})
  {
    if e.LockItem? {
      var l := LockId(sql, Guard(w.procs[p].todo[0]));
      assert PurgeStep(sql, w, p, e).locks == w.locks[l := p];
    }
  }

  /** A purge gives up no lock but its own. */
  lemma OtherLocksAfterPurge(sql: Sql, w: World, p: nat, e: PurgeEvent, q: nat)
    requires Inv(sql, w) && PurgeEnabled(sql, w, p, e) && q != p
    requires q in PurgeStep(sql, w, p, e).procs
    ensures LockOk(sql, PurgeStep(sql, w, p, e), q)
  {
    PurgeLocks(sql, w, p, e);
    assert PurgeStep(sql, w, p, e).procs[q] == w.procs[q] && LockOk(sql, w, q);
    assert p in w.procs ==> LockOk(sql, w, p);
  }

  /** Recordings stay and stay expired, and no object comes back. */
  ghost predicate Onward(w: World, w': World) {
    && w.used <= w'.used
    && (forall i <- w.db.recordings ::
          i in w'.db.recordings && (w.db.recordings[i].expired ==> w'.db.recordings[i].expired))
    && (forall i <- w.used :: i in w'.objects ==> i in w.objects)
  }

  lemma TableOnward(w: World, t: TableEvent)
    requires RowsOk(w) && TableEnabled(w, t)
    ensures Onward(w, TableStep(w, t))
  {
  }

  lemma PlaceOnward(sql: Sql, w: World, p: nat, e: PlaceEvent)
    requires PlaceEnabled(sql, w, p, e)
    ensures Onward(w, PlaceStep(sql, w, p, e))
  {
    var w' := PlaceStep(sql, w, p, e);
    assert w'.db.recordings == w.db.recordings && w'.objects == w.objects && w'.used == w.used;
  }

  lemma PurgeOnward(sql: Sql, w: World, p: nat, e: PurgeEvent)
    requires PurgeEnabled(sql, w, p, e)
    ensures Onward(w, PurgeStep(sql, w, p, e))
  {
    var w' := PurgeStep(sql, w, p, e);
    assert w'.used == w.used && w'.objects <= w.objects;
    assert w'.db == w.db || w'.db == MarkRow(w.db, w.procs[p].todo[0]);
  }

  lemma DeleteOnward(w: World, p: nat, e: DeleteEvent)
    requires DeleteEnabled(w, p, e)
    ensures Onward(w, DeleteStep(w, p, e))
  {
    var w' := DeleteStep(w, p, e);
    assert w'.used == w.used && w'.objects <= w.objects;
    assert w'.db == w.db || w'.db == DeleteRow(w.db, w.procs[p].pending[0]);
  }

  lemma StepOnward(sql: Sql, w: World, e: Event)
    requires RowsOk(w) && Enabled(sql, w, e)
    ensures Onward(w, Apply(sql, w, e))
  {
    match e
    case Table(t) => TableOnward(w, t);
    case Placing(p, place) => PlaceOnward(sql, w, p, place);
    case Purging(p, purge) => PurgeOnward(sql, w, p, purge);
    case Deleting(p, delete) => DeleteOnward(w, p, delete);
  }

  lemma OwnDeleteStep(sql: Sql, w: World, q: nat, e: DeleteEvent)
    requires Inv(sql, w) && DeleteEnabled(w, q, e)
    ensures ProcOk(DeleteStep(w, q, e), q)
  {
    var w' := DeleteStep(w, q, e);
    DeleteOnward(w, q, e);
    if q in w.procs {
      assert ProcOk(w, q);
      assert forall i <- w'.procs[q].pending :: i in w.procs[q].pending;
    } else {
      assert forall i <- e.pending :: Deletable(w.db, i);
    }
    forall i <- w'.procs[q].pending
      ensures ReadOk(w', i)
    {
      assert ReadOk(w, i);
    }
  }

  lemma OwnListed(sql: Sql, w: World, q: nat, e: PurgeEvent, i: Item)
    requires Inv(sql, w) && PurgeEnabled(sql, w, q, e) && i in PurgeStep(sql, w, q, e).procs[q].todo
    ensures ListedOk(PurgeStep(sql, w, q, e), i)
  {
    PurgeOnward(sql, w, q, e);
    if q in w.procs {
      assert ProcOk(w, q) && i in w.procs[q].todo;
    } else {
      assert Purgeable(w.db, i);
    }
  }

  lemma OwnCurrent(sql: Sql, w: World, q: nat, e: PurgeEvent)
    requires Inv(sql, w) && PurgeEnabled(sql, w, q, e) && IsPurge(PurgeStep(sql, w, q, e), q)
    ensures var proc := PurgeStep(sql, w, q, e).procs[q];
            CurrentOk(PurgeStep(sql, w, q, e), proc.todo[0], proc.purging)
  {
    assert q in w.procs ==> ProcOk(w, q);
    if e.CheckHold? { assert PurgeStep(sql, w, q, e).db == w.db; }
  }

  lemma OwnPurgeStep(sql: Sql, w: World, q: nat, e: PurgeEvent)
    requires Inv(sql, w) && PurgeEnabled(sql, w, q, e)
    ensures ProcOk(PurgeStep(sql, w, q, e), q)
  {
    var w' := PurgeStep(sql, w, q, e);
    assert w'.procs[q].Purge?;
    forall i <- w'.procs[q].todo ensures ListedOk(w', i) { OwnListed(sql, w, q, e, i); }
    if w'.procs[q].todo != [] { OwnCurrent(sql, w, q, e); }
  }

  predicate Moves(e: Event, q: nat) {
    !e.Table? && e.p == q
  }

  /** A purge process that does not move keeps what it knows. */
  lemma IdlePurgeStep(sql: Sql, w: World, e: Event, q: nat)
    requires Inv(sql, w) && Enabled(sql, w, e) && !Moves(e, q)
    requires IsPurge(w, q)
    ensures CurrentOk(Apply(sql, w, e), w.procs[q].todo[0], w.procs[q].purging)
  {
    var i := w.procs[q].todo[0];
    assert ProcOk(w, q) && ListedOk(w, i);
    if HoldsLock(w.procs[q]) {
      match e {
        case Table(t) => TableDisturbsNone(w, t, i);
        case Placing(p, place) => PlaceDisturbsNone(sql, w, p, place, q);
        case Purging(p, purge) => PurgeDisturbsNone(sql, w, p, purge, q);
        case Deleting(p, delete) => DeleteDisturbsNone(w, p, delete, i);
      }
      CurrentStable(w, Apply(sql, w, e), i, w.procs[q].purging);
    }
  }

  lemma OthersStay(sql: Sql, w: World, e: Event, q: nat)
    requires Enabled(sql, w, e) && q in w.procs && !Moves(e, q)
    ensures q in Apply(sql, w, e).procs && Apply(sql, w, e).procs[q] == w.procs[q]
    ensures w.db.holds.Keys <= Apply(sql, w, e).db.holds.Keys
  {
    match e
    case Table(t) => assert TableStep(w, t).procs == w.procs;
    case Placing(p, place) => assert PlaceStep(sql, w, p, place).db.holds == w.db.holds;
    case Purging(p, purge) => assert PurgeStep(sql, w, p, purge).db.holds == w.db.holds;
    case Deleting(p, delete) => assert DeleteStep(w, p, delete).db.holds == w.db.holds;
  }

  lemma OwnPlaceStep(sql: Sql, w: World, q: nat, e: PlaceEvent)
    requires Inv(sql, w) && PlaceEnabled(sql, w, q, e)
    ensures ProcOk(PlaceStep(sql, w, q, e), q)
  {
    assert q in w.procs ==> ProcOk(w, q);
  }

  lemma ProcsStep(sql: Sql, w: World, e: Event, q: nat)
    requires Inv(sql, w) && Enabled(sql, w, e)
    requires q in Apply(sql, w, e).procs
    ensures ProcOk(Apply(sql, w, e), q)
  {
    match e
    case Table(_) => BystanderStep(sql, w, e, q);
    case Placing(p, place) =>
      if p == q {
        OwnPlaceStep(sql, w, q, place);
      } else {
        BystanderStep(sql, w, e, q);
      }
    case Purging(p, purge) =>
      if p == q {
        OwnPurgeStep(sql, w, q, purge);
      } else {
        BystanderStep(sql, w, e, q);
      }
    case Deleting(p, delete) =>
      if p == q {
        OwnDeleteStep(sql, w, q, delete);
      } else {
        BystanderStep(sql, w, e, q);
      }
  }

  lemma BystanderStep(sql: Sql, w: World, e: Event, q: nat)
    requires Inv(sql, w) && Enabled(sql, w, e) && q in w.procs && !Moves(e, q)
    ensures q in Apply(sql, w, e).procs && ProcOk(Apply(sql, w, e), q)
  {
    OthersStay(sql, w, e, q);
    StepOnward(sql, w, e);
    assert ProcOk(w, q);
    match w.procs[q]
    case Place(_, _, _, _) =>
    case Purge(todo, _, _) =>
      forall i <- todo ensures ListedOk(Apply(sql, w, e), i) { assert ListedOk(w, i); }
      if todo != [] { IdlePurgeStep(sql, w, e, q); }
    case Delete(pending, _) =>
      forall i <- pending
        ensures ReadOk(Apply(sql, w, e), i) && (i !in w.objects ==> i !in Apply(sql, w, e).objects)
      {
        assert ReadOk(w, i);
      }
  }

  lemma ForeignAfterPlace(sql: Sql, w: World, p: nat, e: PlaceEvent)
    requires ForeignOk(sql, w) && PlaceEnabled(sql, w, p, e)
    ensures ForeignOk(sql, PlaceStep(sql, w, p, e))
  {
    var w' := PlaceStep(sql, w, p, e);
    assert w.foreign <= w'.foreign;
    assert forall q <- w'.procs :: q != p ==> q in w.procs && w'.procs[q] == w.procs[q];
  }

  lemma ForeignAfterPurge(sql: Sql, w: World, p: nat, e: PurgeEvent)
    requires ForeignOk(sql, w) && PurgeEnabled(sql, w, p, e)
    ensures PurgeStep(sql, w, p, e).foreign == w.foreign && ForeignOk(sql, PurgeStep(sql, w, p, e))
  {
    var w' := PurgeStep(sql, w, p, e);
    assert w'.procs[p].Purge?;
    assert forall q <- w'.procs :: q != p ==> q in w.procs && w'.procs[q] == w.procs[q];
  }

  lemma ForeignAfterDelete(sql: Sql, w: World, p: nat, e: DeleteEvent)
    requires ForeignOk(sql, w) && DeleteEnabled(w, p, e)
    ensures DeleteStep(w, p, e).foreign == w.foreign && ForeignOk(sql, DeleteStep(w, p, e))
  {
    var w' := DeleteStep(w, p, e);
    assert w'.procs[p].Delete?;
    assert forall q <- w'.procs :: q != p ==> q in w.procs && w'.procs[q] == w.procs[q];
  }

  lemma ForeignAfterTable(sql: Sql, w: World, t: TableEvent)
    requires ForeignOk(sql, w) && TableEnabled(w, t)
    ensures TableStep(w, t).foreign == w.foreign && ForeignOk(sql, TableStep(w, t))
  {
    assert TableStep(w, t).procs == w.procs;
  }

  lemma InvStep(sql: Sql, w: World, e: Event)
    requires Inv(sql, w)
    ensures Inv(sql, Step(sql, w, e))
  {
    if Enabled(sql, w, e) {
      match e {
        case Table(t) =>
          RowsAfterTable(w, t);
          ForeignAfterTable(sql, w, t);
        case Placing(p, place) =>
          RowsAfterPlace(sql, w, p, place);
          ForeignAfterPlace(sql, w, p, place);
        case Purging(p, purge) =>
          RowsAfterPurge(sql, w, p, purge);
          ForeignAfterPurge(sql, w, p, purge);
        case Deleting(p, delete) =>
          RowsAfterDelete(sql, w, p, delete);
          ForeignAfterDelete(sql, w, p, delete);
      }
      forall q <- Apply(sql, w, e).procs
        ensures LockOk(sql, Apply(sql, w, e), q) && ProcOk(Apply(sql, w, e), q)
      {
        match e {
          case Table(_) => assert LockOk(sql, w, q);
          case Placing(p, place) => LocksAfterPlace(sql, w, p, place, q);
          case Purging(p, purge) => LocksAfterPurge(sql, w, p, purge, q);
          case Deleting(p, delete) => assert q != p ==> LockOk(sql, w, q);
        }
        ProcsStep(sql, w, e, q);
      }
    }
  }

  lemma {:induction false} RunKeepsInv(sql: Sql, es: seq<Event>)
    ensures Inv(sql, Run(sql, es))
  {
    if es != [] {
      RunKeepsInv(sql, es[..|es| - 1]);
      InvStep(sql, Run(sql, es[..|es| - 1]), es[|es| - 1]);
    }
  }

  // ---------- safety ----------

  lemma RunSnoc(sql: Sql, es: seq<Event>, e: Event)
    ensures Run(sql, es + [e]) == Step(sql, Run(sql, es), e)
  {
    assert (es + [e])[..|es|] == es;
  }

  lemma PurgeTakesNoHeldObject(sql: Sql, w: World, p: nat, e: PurgeEvent, i: Item)
    requires Inv(sql, w) && PurgeEnabled(sql, w, p, e) && i in w.objects && Covered(w.db, Guard(i))
    ensures i in PurgeStep(sql, w, p, e).objects
         || (!i.FileItem? && (Guard(i) in w.foreign || w.procs[p].purging.Severed?))
  {
    assert p in w.procs ==> ProcOk(w, p) && ListedOk(w, w.procs[p].todo[0]);
    if !e.RemoveObject? {
      assert PurgeStep(sql, w, p, e).objects == w.objects;
    }
  }

  /** A placement called for `r`, with some text that the database reads as its id. */
  predicate CallsFor(sql: Sql, e: Event, r: Resource) {
    e.Placing? && e.place.StartPlace? && e.place.res == r && (sql.canon)(e.place.spelling) == r.id
  }

  /** ... with a text that takes another lock than a purge takes. */
  predicate ForeignCall(sql: Sql, e: Event, r: Resource) {
    CallsFor(sql, e, r) && !SameLock(sql, r, e.place.spelling)
  }

  lemma ForeignStep(sql: Sql, w: World, e: Event, r: Resource)
    requires r in Step(sql, w, e).foreign
    ensures r in w.foreign || ForeignCall(sql, e, r)
  {
    if Enabled(sql, w, e) {
      match e
      case Table(t) => assert TableStep(w, t).foreign == w.foreign;
      case Placing(p, place) =>
        assert place.StartPlace? || PlaceStep(sql, w, p, place).foreign == w.foreign;
      case Purging(p, purge) => assert PurgeStep(sql, w, p, purge).foreign == w.foreign;
      case Deleting(p, delete) => assert DeleteStep(w, p, delete).foreign == w.foreign;
    }
  }

  lemma {:induction false} ForeignWasCalled(sql: Sql, es: seq<Event>, r: Resource)
    requires r in Run(sql, es).foreign
    ensures exists e <- es :: ForeignCall(sql, e, r)
  {
    var n := |es| - 1;
    ForeignStep(sql, Run(sql, es[..n]), es[n], r);
    if r in Run(sql, es[..n]).foreign {
      ForeignWasCalled(sql, es[..n], r);
      var e :| e in es[..n] && ForeignCall(sql, e, r);
      assert e in es;
    } else {
      assert es[n] in es;
    }
  }

  ghost predicate IsSevered(w: World, p: nat) {
    p in w.procs && w.procs[p].Purge? && w.procs[p].purging.Severed?
  }

  lemma SeveredStep(sql: Sql, w: World, e: Event, p: nat)
    requires IsSevered(Step(sql, w, e), p)
    ensures IsSevered(w, p) || e == Purging(p, LoseSession)
  {
    if Enabled(sql, w, e) && !(e.Purging? && e.p == p) {
      match e
      case Table(t) => assert TableStep(w, t).procs == w.procs;
      case Placing(q, place) =>
        assert forall x :: x in w.procs && x != q ==> PlaceStep(sql, w, q, place).procs[x] == w.procs[x];
      case Purging(q, purge) =>
      case Deleting(q, delete) =>
    }
  }

  lemma {:induction false} SeveredWasLost(sql: Sql, es: seq<Event>, p: nat)
    requires IsSevered(Run(sql, es), p)
    ensures Purging(p, LoseSession) in es
  {
    var n := |es| - 1;
    SeveredStep(sql, Run(sql, es[..n]), es[n], p);
    if IsSevered(Run(sql, es[..n]), p) {
      SeveredWasLost(sql, es[..n], p);
    }
  }

  /** Process `p` deletes without a lock and has yet to come to item `i`. */
  ghost predicate WillDelete(w: World, p: nat, i: Item) {
    p in w.procs && w.procs[p].Delete? && i in w.procs[p].pending
  }

  predicate StartsDelete(e: Event, p: nat, i: Item) {
    e.Deleting? && e.p == p && e.delete.StartDelete? && i in e.delete.pending
  }

  lemma WillDeleteStep(sql: Sql, w: World, e: Event, p: nat, i: Item)
    requires WillDelete(Step(sql, w, e), p, i)
    ensures WillDelete(w, p, i) || (StartsDelete(e, p, i) && Enabled(sql, w, e))
  {
    if Enabled(sql, w, e) {
      match e
      case Table(t) => assert TableStep(w, t).procs == w.procs;
      case Placing(q, place) =>
        assert q in PlaceStep(sql, w, q, place).procs && PlaceStep(sql, w, q, place).procs[q].Place?;
      case Purging(q, purge) =>
        assert q in PurgeStep(sql, w, q, purge).procs && PurgeStep(sql, w, q, purge).procs[q].Purge?;
      case Deleting(q, delete) =>
    }
  }

  lemma {:induction false} DeleteWasStarted(sql: Sql, es: seq<Event>, p: nat, i: Item)
    requires WillDelete(Run(sql, es), p, i)
    ensures exists e <- es :: StartsDelete(e, p, i)
  {
    var n := |es| - 1;
    WillDeleteStep(sql, Run(sql, es[..n]), es[n], p, i);
    if WillDelete(Run(sql, es[..n]), p, i) {
      DeleteWasStarted(sql, es[..n], p, i);
      var e :| e in es[..n] && StartsDelete(e, p, i);
      assert e in es;
    } else {
      assert es[n] in es;
    }
  }

  /** A delete call fails for its caller and may still be carried out. */
  predicate Delays(e: Event) {
    (e.Purging? && e.purge == RemoveObject(Delayed)) || (e.Deleting? && e.delete == RemoveUnlocked(Delayed))
  }

  lemma LateStep(sql: Sql, w: World, e: Event, i: Item)
    requires Inv(sql, w) && i in Step(sql, w, e).late
    ensures i in w.late || (Delays(e) && (i.FileItem? ==> e.Deleting? && WillDelete(w, e.p, i)))
  {
    if Enabled(sql, w, e) {
      match e
      case Table(t) => assert TableStep(w, t).late <= w.late;
      case Placing(p, place) => assert PlaceStep(sql, w, p, place).late == w.late;
      case Purging(p, purge) => assert p in w.procs ==> ProcOk(w, p) && ListedOk(w, w.procs[p].todo[0]);
      case Deleting(_, _) =>
    }
  }

  lemma {:induction false} LateWasDelayed(sql: Sql, es: seq<Event>, i: Item)
    requires i in Run(sql, es).late
    ensures exists e <- es :: Delays(e)
    ensures i.FileItem? ==> exists e <- es :: e.Deleting? && StartsDelete(e, e.p, i)
  {
    var n := |es| - 1;
    RunKeepsInv(sql, es[..n]);
    LateStep(sql, Run(sql, es[..n]), es[n], i);
    assert es[n] in es && forall e <- es[..n] :: e in es;
    if i in Run(sql, es[..n]).late {
      LateWasDelayed(sql, es[..n], i);
    } else if i.FileItem? {
      DeleteWasStarted(sql, es[..n], es[n].p, i);
    }
  }

  /**
   Main result: whatever the interleaving, no event takes an object out of the store while a
   committed ACTIVE hold covers its recording, conversation or file, unless it is a purge's and a
   placement was called with a text that takes another lock or the purge lost its database session
   after its check, or it is a deletion without a lock that had read the row before, or a delete call
   that failed earlier and is carried out late.
   */
  lemma HeldObjectsStay(sql: Sql, es: seq<Event>, e: Event, i: Item)
    requires i in Run(sql, es).objects && Covered(Run(sql, es).db, Guard(i))
    ensures
      || i in Run(sql, es + [e]).objects
      || (e.Purging? && !i.FileItem? && exists call <- es :: ForeignCall(sql, call, Guard(i)))
      || (e.Purging? && !i.FileItem? && Purging(e.p, LoseSession) in es)
      || (e.Deleting? && !i.AttachmentItem? && exists start <- es :: StartsDelete(start, e.p, i))
      || (e == Table(LateRemove(i)) && (exists call <- es :: Delays(call))
          && (i.FileItem? ==> exists start <- es :: start.Deleting? && StartsDelete(start, start.p, i)))
  {
    var w := Run(sql, es);
    RunKeepsInv(sql, es);
    RunSnoc(sql, es, e);
    if i !in Run(sql, es + [e]).objects {
      HeldObjectTaken(sql, w, e, i);
      if e.Deleting? {
        DeleteWasStarted(sql, es, e.p, i);
      } else if e.Table? {
        LateWasDelayed(sql, es, i);
      } else if Guard(i) in w.foreign {
        ForeignWasCalled(sql, es, Guard(i));
      } else {
        SeveredWasLost(sql, es, e.p);
      }
    }
  }

  lemma HeldObjectTaken(sql: Sql, w: World, e: Event, i: Item)
    requires Inv(sql, w) && i in w.objects && Covered(w.db, Guard(i)) && i !in Step(sql, w, e).objects
    ensures (e.Purging? && !i.FileItem? && (Guard(i) in w.foreign || IsSevered(w, e.p)))
         || (e.Deleting? && !i.AttachmentItem? && WillDelete(w, e.p, i))
         || (e == Table(LateRemove(i)) && i in w.late)
  {
    match e
    case Table(_) =>
    case Placing(p, place) => PlaceTakesNothing(sql, w, p, place);
    case Purging(p, purge) => PurgeTakesNoHeldObject(sql, w, p, purge, i);
    case Deleting(p, delete) =>
      assert p in w.procs ==> ProcOk(w, p);
      assert p in w.procs ==> w.procs[p].pending[0] == i && ReadOk(w, i);
  }

  lemma PlaceTakesNothing(sql: Sql, w: World, p: nat, e: PlaceEvent)
    ensures Step(sql, w, Placing(p, e)).objects == w.objects
  {
  }

  /** The purge process `p` is about to call the object store for item `i`. */
  ghost predicate AboutToRemove(w: World, p: nat, i: Item) {
    IsPurge(w, p) && (w.procs[p].purging.Checked? || w.procs[p].purging.Severed?) && w.procs[p].todo[0] == i
  }

  /**
   While the delete call is pending with its session: it is made under a hold only if the row was
   already gone at the hold check, then the object is gone too and it was no recording, or if a
   placement was called with a text that takes another lock.
   */
  lemma RemoveCallUnderHold(sql: Sql, es: seq<Event>, p: nat, i: Item)
    requires AboutToRemove(Run(sql, es), p, i) && Covered(Run(sql, es).db, Guard(i))
    ensures var w := Run(sql, es);
      match w.procs[p].purging
      case Checked(true) => exists call <- es :: ForeignCall(sql, call, Guard(i))
      case Checked(false) => i.AttachmentItem? && i !in w.objects && i !in w.db.attachments
      case _ => Purging(p, LoseSession) in es
  {
    RunKeepsInv(sql, es);
    var w := Run(sql, es);
    assert ProcOk(w, p);
    if w.procs[p].purging.Severed? {
      SeveredWasLost(sql, es, p);
    } else if w.procs[p].purging.present {
      ForeignWasCalled(sql, es, Guard(i));
    }
  }

  /**
   Exactly when the hold check leads to a delete call under a hold: the item is an attachment of a
   held conversation whose row is missing, so that the check cannot reach the hold.
   */
  lemma HeldCallAtCheck(sql: Sql, es: seq<Event>, p: nat, i: Item)
    requires PurgeEnabled(sql, Run(sql, es), p, CheckHold) && Run(sql, es).procs[p].todo[0] == i
    ensures var w, w' := Run(sql, es), Run(sql, es + [Purging(p, CheckHold)]);
            AboutToRemove(w', p, i) && Covered(w'.db, Guard(i)) <==>
              i.AttachmentItem? && i !in w.db.attachments && Covered(w.db, Guard(i))
  {
    var w := Run(sql, es);
    RunSnoc(sql, es, Purging(p, CheckHold));
    assert Enabled(sql, w, Purging(p, CheckHold));
    var w' := PurgeStep(sql, w, p, CheckHold);
    assert w'.db == w.db;
  }

  const HOLD := "hold"
  const ROOM := Resource("tenant", CHAT_CONVERSATION, "room")
  const ATTACHMENT := AttachmentItem("tenant", "file", "room")

  /** One more event of a witness run, which must be able to happen. */
  lemma Extend(sql: Sql, es: seq<Event>, w: World, e: Event) returns (es': seq<Event>, w': World)
    requires Run(sql, es) == w && Enabled(sql, w, e)
    ensures es' == es + [e] && w' == Apply(sql, w, e) && Run(sql, es') == w'
  {
    RunSnoc(sql, es, e);
    es', w' := es + [e], Apply(sql, w, e);
  }

  /** Two purge runs list the same attachment; the first one removes it and commits ... */
  lemma TwoListings(sql: Sql) returns (es: seq<Event>)
    ensures Run(sql, es) ==
            World(Db(map[HOLD := Hold("tenant", ACTIVE)], {}, map[], {ATTACHMENT}, {ROOM}, map[]), {ATTACHMENT}, map[],
                  map[1 := Purge([ATTACHMENT], Idle, 0), 2 := Purge([ATTACHMENT], Idle, 0)],
                  {ATTACHMENT}, [], {}, {}, {}, {})
  {
    var w := EMPTY;
    es := [];
    es, w := Extend(sql, es, w, Table(CreateHold(HOLD, "tenant")));
    es, w := Extend(sql, es, w, Table(AddConversation(ROOM)));
    es, w := Extend(sql, es, w, Table(AddAttachment(ATTACHMENT)));
    assert Purgeable(w.db, ATTACHMENT);
    es, w := Extend(sql, es, w, Purging(1, StartPurge([ATTACHMENT])));
    es, w := Extend(sql, es, w, Purging(2, StartPurge([ATTACHMENT])));
  }

  lemma MarkedItem(sql: Sql) returns (es: seq<Event>)
    ensures Run(sql, es) ==
            World(Db(map[HOLD := Hold("tenant", ACTIVE)], {}, map[], {ATTACHMENT}, {ROOM}, map[]), {},
                  map[LockId(sql, ROOM) := 1],
                  map[1 := Purge([ATTACHMENT], Marked(1), 0), 2 := Purge([ATTACHMENT], Idle, 0)],
                  {ATTACHMENT}, [], {}, {}, {}, {})
  {
    es := TwoListings(sql);
    var w := Run(sql, es);
    es, w := Extend(sql, es, w, Purging(1, LockItem));
    es, w := Extend(sql, es, w, Purging(1, CheckHold));
    assert w.procs[1] == Purge([ATTACHMENT], Checked(true), 0);
    es, w := Extend(sql, es, w, Purging(1, RemoveObject(Removed)));
    assert w.objects == {};
    es, w := Extend(sql, es, w, Purging(1, MarkItem));
  }

  lemma StaleItem(sql: Sql) returns (es: seq<Event>)
    ensures Run(sql, es) ==
            World(Db(map[HOLD := Hold("tenant", ACTIVE)], {}, map[], {}, {ROOM}, map[]), {}, map[],
                  map[1 := Purge([], Idle, 1), 2 := Purge([ATTACHMENT], Idle, 0)],
                  {ATTACHMENT}, [Mark(1, ATTACHMENT, true)], {}, {}, {}, {})
  {
    es := MarkedItem(sql);
    var w := Run(sql, es);
    assert [ATTACHMENT][1..] == [];
    es, w := Extend(sql, es, w, Purging(1, CommitItem(Committed)));
    assert w.db.attachments == {} && w.locks == map[];
    assert w.procs == map[1 := Purge([], Idle, 1), 2 := Purge([ATTACHMENT], Idle, 0)];
  }

  /** ... then the conversation is held ... */
  lemma HeldStaleItem(sql: Sql) returns (es: seq<Event>)
    requires (sql.canon)(ROOM.id) == ROOM.id
    ensures Covers(Run(sql, es).db, HOLD, ROOM) && Run(sql, es).locks == map[]
    ensures 2 in Run(sql, es).procs && Run(sql, es).procs[2] == Purge([ATTACHMENT], Idle, 0)
        && Run(sql, es).db.attachments == {}
  {
    es := StaleItem(sql);
    var w := Run(sql, es);
    es, w := Extend(sql, es, w, Placing(3, StartPlace(HOLD, ROOM, ROOM.id)));
    es, w := Extend(sql, es, w, Placing(3, LockPlace));
    es, w := Extend(sql, es, w, Placing(3, SeeResource));
    es, w := Extend(sql, es, w, Placing(3, InsertHeld));
    es, w := Extend(sql, es, w, Placing(3, CommitPlace));
    assert Covers(w.db, HOLD, ROOM) && w.locks == map[];
  }

  /** ... and the second run still calls the object store. */
  lemma RemoveCallUnderHoldHappens(sql: Sql) returns (es: seq<Event>)
    requires (sql.canon)(ROOM.id) == ROOM.id
    ensures AboutToRemove(Run(sql, es), 2, ATTACHMENT) && Covered(Run(sql, es).db, Guard(ATTACHMENT))
  {
    es := HeldStaleItem(sql);
    var w := Run(sql, es);
    es, w := Extend(sql, es, w, Purging(2, LockItem));
    es, w := Extend(sql, es, w, Purging(2, CheckHold));
    assert Covers(w.db, HOLD, ROOM);
  }
}
