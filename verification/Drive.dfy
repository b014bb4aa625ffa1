/**
 Version history of one drive file.  Upload and restore read the current row in one statement
 and commit in a later transaction, so commits of different requests interleave with stale
 reads; a rename bumps the version without recording a history row.  `past` is a history
 variable: `past[i - 1]` is the content the file had at version i.
 */
module Drive {
  import opened Options

  datatype Content = Content(key: string, kind: string, size: nat)

  datatype File = File(version: nat, content: Content, rows: map<nat, Content>)

  /** What a request has read, and the content it is going to make current. */
  datatype Pending = Pending(uploaded: bool, version: nat, content: Content, next: Content)

  /** `names` are all object names ever used; `past` and `names` are history. */
  datatype World = World(
    file: File, past: seq<Content>, objects: set<string>, names: set<string>, pending: map<nat, Pending>)

  /**
   `End` is the transaction of a request; when the program sees an error there, an upload deletes
   its new object, and `cleaned` says whether that delete worked.
   */
  datatype Event =
    | BeginUpload(session: nat, next: Content)
    | BeginRestore(session: nat, version: nat)
    | End(session: nat, outcome: CommitOutcome, cleaned: bool)
    | Rename

  // ---------- the row operations ----------

  /** `INSERT INTO drive_versions ... ON CONFLICT DO NOTHING`. */
  function Recorded(rows: map<nat, Content>, version: nat, content: Content): map<nat, Content> {
    if version in rows then rows else rows[version := content]
  }

  function CommitFile(f: File, p: Pending): File {
    File(f.version + 1, p.next, Recorded(f.rows, p.version, p.content))
  }

  function RenameFile(f: File): File {
    f.(version := f.version + 1)
  }

  function Upload(f: File, next: Content): Pending {
    Pending(true, f.version, f.content, next)
  }

  function Restore(f: File, version: nat): Option<Pending> {
    if version >= 1 && version in f.rows then Some(Pending(false, f.version, f.content, f.rows[version])) else None
  }

  // ---------- interleaved requests ----------

  /** Object names carry a nanosecond clock reading, so a new upload never reuses one. */
  predicate Enabled(w: World, e: Event) {
    match e
    case BeginUpload(s, next) => s !in w.pending && next.key !in w.names
    case BeginRestore(s, _) => s !in w.pending
    case End(s, _, _) => s in w.pending
    case Rename => true
  }

  /** What the object store holds after an upload's transaction ended. */
  function Cleanup(objects: set<string>, p: Pending, outcome: CommitOutcome, cleaned: bool): set<string> {
    if p.uploaded && !outcome.Committed? && cleaned then objects - {p.next.key} else objects
  }

  function Step(w: World, e: Event): World
    requires Enabled(w, e)
  {
    match e
    case BeginUpload(s, next) =>
      w.(objects := w.objects + {next.key}, names := w.names + {next.key},
          pending := w.pending[s := Upload(w.file, next)])
    case BeginRestore(s, version) =>
      var read := Restore(w.file, version);
      if read.Some? then w.(pending := w.pending[s := read.value]) else w
    case End(s, outcome, cleaned) =>
      var p := w.pending[s];
      var x := w.(objects := Cleanup(w.objects, p, outcome, cleaned), pending := w.pending - {s});
      if outcome.RolledBack? then x else x.(file := CommitFile(w.file, p), past := w.past + [p.next])
    case Rename =>
      w.(file := RenameFile(w.file), past := w.past + [w.file.content])
  }

  ghost predicate Run(w: World, events: seq<Event>, last: World)
    decreases |events|
  {
    if events == [] then last == w
    else Enabled(w, events[0]) && Run(Step(w, events[0]), events[1..], last)
  }

  function Start(content: Content): World {
    World(File(1, content, map[]), [content], {content.key}, {content.key}, map[])
  }

  // ---------- what every interleaving keeps ----------

  predicate IsPast(past: seq<Content>, version: nat, content: Content) {
    1 <= version <= |past| && past[version - 1] == content
  }

  ghost predicate Recording(f: File, past: seq<Content>) {
    && IsPast(past, f.version, f.content)
    && |past| == f.version
    && (forall v :: v in f.rows ==> v < f.version && IsPast(past, v, f.rows[v]))
  }

  ghost predicate Stored(past: seq<Content>, objects: set<string>) {
    forall c :: c in past ==> c.key in objects
  }

  /** An uploaded object belongs to its request alone until the commit; a restore brings back a past content. */
  ghost predicate Grounded(p: Pending, past: seq<Content>, objects: set<string>) {
    && IsPast(past, p.version, p.content)
    && if p.uploaded then p.next.key in objects && forall c :: c in past ==> c.key != p.next.key else p.next in past
  }

  ghost predicate Inv(w: World) {
    && Recording(w.file, w.past)
    && Stored(w.past, w.names) && w.objects <= w.names
    && (forall s :: s in w.pending ==> Grounded(w.pending[s], w.past, w.objects))
    && (forall s, t :: s in w.pending && t in w.pending && s != t && w.pending[s].uploaded && w.pending[t].uploaded ==>
          w.pending[s].next.key != w.pending[t].next.key)
  }

  lemma RowsStayPast(f: File, p: Pending, past: seq<Content>)
    requires Recording(f, past) && IsPast(past, p.version, p.content)
    ensures Recording(CommitFile(f, p), past + [p.next])
  {
    var g, now := CommitFile(f, p), past + [p.next];
    forall v | v in g.rows ensures v < g.version && IsPast(now, v, g.rows[v]) {
      if v in f.rows { assert IsPast(past, v, f.rows[v]); }
    }
  }

  lemma OthersStayGrounded(w: World, s: nat, landed: bool, objects: set<string>, t: nat)
    requires Inv(w) && s in w.pending && t in w.pending && t != s
    requires forall k :: k in w.objects && k !in objects ==> w.pending[s].uploaded && k == w.pending[s].next.key
    ensures Grounded(w.pending[t], if landed then w.past + [w.pending[s].next] else w.past, objects)
  {
    assert Grounded(w.pending[t], w.past, w.objects) && Grounded(w.pending[s], w.past, w.objects);
  }

  lemma EndKeepsInv(w: World, s: nat, outcome: CommitOutcome, cleaned: bool)
    requires Inv(w) && s in w.pending
    ensures Inv(Step(w, End(s, outcome, cleaned)))
  {
    var p := w.pending[s];
    var x := Step(w, End(s, outcome, cleaned));
    assert Grounded(p, w.past, w.objects);
    RowsStayPast(w.file, p, w.past);
    forall t | t in x.pending ensures Grounded(x.pending[t], x.past, x.objects) {
      OthersStayGrounded(w, s, !outcome.RolledBack?, x.objects, t);
    }
  }

  lemma RenameKeepsInv(w: World)
    requires Inv(w)
    ensures Inv(Step(w, Rename))
  {
    var x := Step(w, Rename);
    forall v | v in x.file.rows ensures v < x.file.version && IsPast(x.past, v, x.file.rows[v]) {
      assert IsPast(w.past, v, w.file.rows[v]);
    }
    forall t | t in x.pending ensures Grounded(x.pending[t], x.past, x.objects) {
      assert Grounded(w.pending[t], w.past, w.objects);
    }
  }

  lemma StepKeepsInv(w: World, e: Event)
    requires Inv(w) && Enabled(w, e)
    ensures Inv(Step(w, e))
  {
    match e {
      case BeginUpload(s, next) =>
        var x := Step(w, e);
        forall t | t in x.pending ensures Grounded(x.pending[t], x.past, x.objects) {
          assert t != s ==> Grounded(w.pending[t], w.past, w.objects);
        }
      case BeginRestore(s, version) =>
        if Restore(w.file, version).Some? {
          assert IsPast(w.past, version, w.file.rows[version]);
        }
      case End(s, outcome, cleaned) => EndKeepsInv(w, s, outcome, cleaned);
      case Rename => RenameKeepsInv(w);
    }
  }

  /** Nothing recorded and nothing past changes. */
  ghost predicate Extends(w: World, x: World) {
    && w.past <= x.past
    && forall v :: v in w.file.rows ==> v in x.file.rows && x.file.rows[v] == w.file.rows[v]
  }

  lemma StepExtends(w: World, e: Event)
    requires Enabled(w, e)
    ensures Extends(w, Step(w, e))
  {
  }

  /**
   In every interleaving, with failures and lost acknowledgements: a recorded row holds the content
   the file had at that version, and nothing already recorded or past changes.
   */
  lemma {:induction false} EveryRowIsPast(w: World, events: seq<Event>, last: World)
    requires Inv(w) && Run(w, events, last)
    ensures Inv(last) && Extends(w, last)
    decreases |events|
  {
    if events != [] {
      StepKeepsInv(w, events[0]);
      StepExtends(w, events[0]);
      EveryRowIsPast(Step(w, events[0]), events[1..], last);
    }
  }

  /** From the first upload on: each row of the history is a version before the current one, with its content. */
  lemma HistoryHoldsPast(content: Content, events: seq<Event>, last: World, v: nat)
    requires Run(Start(content), events, last) && v in last.file.rows
    ensures 1 <= v < last.file.version == |last.past| && last.file.rows[v] == last.past[v - 1]
        && last.past[0] == content
  {
    assert Inv(Start(content));
    EveryRowIsPast(Start(content), events, last);
    assert IsPast(last.past, v, last.file.rows[v]);
    assert last.past[0] == Start(content).past[0];
  }

  // ---------- when the objects of the history are there ----------

  /** The commit of an upload goes through unacknowledged, and the handler deletes the object that is now current. */
  predicate LosesObject(w: World, e: Event)
    requires Enabled(w, e)
  {
    e.End? && e.outcome.Unacknowledged? && e.cleaned && w.pending[e.session].uploaded
  }

  ghost predicate SomeObjectLost(w: World, events: seq<Event>)
    decreases |events|
  {
    events != [] && Enabled(w, events[0]) &&
    (LosesObject(w, events[0]) || SomeObjectLost(Step(w, events[0]), events[1..]))
  }

  lemma {:induction false} LostStaysLost(w: World, events: seq<Event>, last: World, c: Content)
    requires Inv(w) && Run(w, events, last) && c in w.past && c.key !in w.objects
    ensures c in last.past && c.key !in last.objects
    decreases |events|
  {
    if events != [] {
      var next := Step(w, events[0]);
      StepKeepsInv(w, events[0]);
      assert w.past <= next.past && c.key in w.names;
      LostStaysLost(next, events[1..], last, c);
    }
  }

  lemma StepKeepsStored(w: World, e: Event)
    requires Inv(w) && Enabled(w, e) && Stored(w.past, w.objects)
    ensures Stored(Step(w, e).past, Step(w, e).objects) <==> !LosesObject(w, e)
  {
    if e.End? {
      var p := w.pending[e.session];
      assert Grounded(p, w.past, w.objects);
      if LosesObject(w, e) {
        assert p.next in Step(w, e).past;
      }
    }
  }

  /** Every past content still has its object exactly if no upload's commit was lost and cleaned up after. */
  lemma {:induction false} StoredUnlessCommitLost(w: World, events: seq<Event>, last: World)
    requires Inv(w) && Stored(w.past, w.objects) && Run(w, events, last)
    ensures Stored(last.past, last.objects) <==> !SomeObjectLost(w, events)
    decreases |events|
  {
    if events != [] {
      var e := events[0];
      var next := Step(w, e);
      StepKeepsInv(w, e);
      StepKeepsStored(w, e);
      if LosesObject(w, e) {
        var c := w.pending[e.session].next;
        assert c in next.past && c.key !in next.objects;
        LostStaysLost(next, events[1..], last, c);
      } else {
        StoredUnlessCommitLost(next, events[1..], last);
      }
    }
  }

  /** It takes one upload: its content is current and its object is gone. */
  lemma UnacknowledgedUploadLosesObject(original: Content, next: Content)
    requires original.key != next.key
    ensures exists last ::
      && Run(Start(original), [BeginUpload(1, next), End(1, Unacknowledged, true)], last)
      && last.file.content == next && next.key !in last.objects
  {
    var w0 := Start(original);
    var w1 := Step(w0, BeginUpload(1, next));
    var w2 := Step(w1, End(1, Unacknowledged, true));
    var events := [BeginUpload(1, next), End(1, Unacknowledged, true)];
    assert events[1..] == [End(1, Unacknowledged, true)] && events[1..][1..] == [];
    assert Run(w2, [], w2);
    assert Run(w1, events[1..], w2);
    assert Run(w0, events, w2);
  }

  // ---------- looking a version up ----------

  /** The row with the least recorded version from `i` on, or the current content if there is none. */
  function Lookup(f: File, i: nat): Content
    decreases f.version - i
  {
    if i in f.rows then f.rows[i]
    else if i >= f.version then f.content
    else Lookup(f, i + 1)
  }

  /** The sparse history accounts for the content of every version. */
  ghost predicate Accounts(f: File, past: seq<Content>) {
    forall i :: 1 <= i <= |past| ==> Lookup(f, i) == past[i - 1]
  }

  lemma {:induction false} LookupFindsLeast(f: File, i: nat, v: nat)
    requires i <= v && v in f.rows && v < f.version
    requires forall u :: i <= u < v ==> u !in f.rows
    ensures Lookup(f, i) == f.rows[v]
    decreases v - i
  {
    if i < v { LookupFindsLeast(f, i + 1, v); }
  }

  lemma {:induction false} LookupFallsThrough(f: File, i: nat)
    requires forall u :: i <= u ==> u !in f.rows
    ensures Lookup(f, i) == f.content
    decreases f.version - i
  {
    if i < f.version { LookupFallsThrough(f, i + 1); }
  }

  /** A fresh commit closes the history up to the version it replaces. */
  lemma {:induction false} FreshCommitKeepsLookup(f: File, past: seq<Content>, next: Content, uploaded: bool, i: nat)
    requires Recording(f, past) && 1 <= i <= f.version
    ensures Lookup(CommitFile(f, Pending(uploaded, f.version, f.content, next)), i) == Lookup(f, i)
    decreases f.version - i
  {
    if i !in f.rows && i < f.version { FreshCommitKeepsLookup(f, past, next, uploaded, i + 1); }
  }

  /** A commit that leaves the current content alone changes no lookup, however stale its read. */
  lemma {:induction false} SameContentKeepsLookup(f: File, past: seq<Content>, p: Pending, i: nat)
    requires Recording(f, past) && Accounts(f, past) && IsPast(past, p.version, p.content)
    requires p.next == f.content && 1 <= i <= f.version
    ensures Lookup(CommitFile(f, p), i) == Lookup(f, i)
    decreases f.version - i
  {
    var g := CommitFile(f, p);
    if i in f.rows {
    } else if i == p.version {
      assert Lookup(f, i) == past[i - 1];
    } else if i < f.version {
      SameContentKeepsLookup(f, past, p, i + 1);
    } else {
      assert Lookup(g, i + 1) == g.content;
    }
  }

  /**
   A commit keeps the history complete exactly when the version it read is still the current
   one, or it changes no content.  Nothing in the code checks this: a stale commit succeeds.
   */
  lemma CommitKeepsHistoryWhenFresh(f: File, past: seq<Content>, p: Pending)
    requires Recording(f, past) && Accounts(f, past) && IsPast(past, p.version, p.content)
    ensures Accounts(CommitFile(f, p), past + [p.next]) <==> p.version == f.version || p.next == f.content
  {
    var g, now := CommitFile(f, p), past + [p.next];
    assert f.version !in f.rows && f.version + 1 !in f.rows;
    assert Lookup(g, f.version + 1) == p.next;
    if p.version == f.version || p.next == f.content {
      forall i | 1 <= i <= |now| ensures Lookup(g, i) == now[i - 1] {
        if i <= f.version {
          if p.version == f.version {
            FreshCommitKeepsLookup(f, past, p.next, p.uploaded, i);
          } else {
            SameContentKeepsLookup(f, past, p, i);
          }
        }
      }
    } else {
      assert f.version !in g.rows;
      assert Lookup(g, f.version) == Lookup(g, f.version + 1);
      assert now[f.version - 1] == f.content;
    }
  }

  lemma {:induction false} RenameKeepsLookup(f: File, past: seq<Content>, i: nat)
    requires Recording(f, past) && 1 <= i <= f.version
    ensures Lookup(RenameFile(f), i) == Lookup(f, i)
    decreases f.version - i
  {
    if i !in f.rows && i < f.version {
      RenameKeepsLookup(f, past, i + 1);
    } else if i !in f.rows {
      assert f.version + 1 !in f.rows;
      assert Lookup(RenameFile(f), i + 1) == f.content;
    }
  }

  lemma RenameKeepsHistory(f: File, past: seq<Content>)
    requires Recording(f, past) && Accounts(f, past)
    ensures Accounts(RenameFile(f), past + [f.content])
  {
    var g, now := RenameFile(f), past + [f.content];
    assert f.version + 1 !in f.rows;
    forall i | 1 <= i <= |now| ensures Lookup(g, i) == now[i - 1] {
      if i <= f.version { RenameKeepsLookup(f, past, i); }
    }
  }

  /** A run in which every commit finds the version its request read. */
  ghost predicate FreshRun(w: World, events: seq<Event>)
    decreases |events|
  {
    events != [] ==>
      && Enabled(w, events[0])
      && (events[0].End? && !events[0].outcome.RolledBack? ==> w.pending[events[0].session].version == w.file.version)
      && FreshRun(Step(w, events[0]), events[1..])
  }

  /** When no commit is overtaken, every past version can be looked up, renames included. */
  lemma {:induction false} FreshRunsAccountForEverything(w: World, events: seq<Event>, last: World)
    requires Inv(w) && Accounts(w.file, w.past) && Run(w, events, last) && FreshRun(w, events)
    ensures Accounts(last.file, last.past)
    decreases |events|
  {
    if events != [] {
      var e, next := events[0], Step(w, events[0]);
      StepKeepsInv(w, e);
      if e.End? {
        assert Grounded(w.pending[e.session], w.past, w.objects);
        CommitKeepsHistoryWhenFresh(w.file, w.past, w.pending[e.session]);
      } else if e.Rename? {
        RenameKeepsHistory(w.file, w.past);
      }
      FreshRunsAccountForEverything(next, events[1..], last);
    }
  }

  predicate Begins(e: Event) {
    e.BeginUpload? || e.BeginRestore?
  }

  /** Requests one after the other: what a request begins, it ends before the next one starts. */
  ghost predicate Serial(w: World, events: seq<Event>)
    decreases |events|
  {
    events != [] ==>
      && Enabled(w, events[0])
      && var x := Step(w, events[0]);
         if Begins(events[0]) && events[0].session in x.pending then
           && |events| > 1 && events[1].End? && events[1].session == events[0].session
           && Serial(Step(x, events[1]), events[2..])
         else !events[0].End? && Serial(x, events[1..])
  }

  lemma {:induction false} SerialRunsAreFresh(w: World, events: seq<Event>)
    requires Serial(w, events)
    ensures FreshRun(w, events)
    decreases |events|
  {
    if events != [] {
      var x := Step(w, events[0]);
      if Begins(events[0]) && events[0].session in x.pending {
        assert x.pending[events[0].session].version == x.file.version;
        SerialRunsAreFresh(Step(x, events[1]), events[2..]);
        assert events[1..][1..] == events[2..] && events[1..][0] == events[1];
        assert FreshRun(x, events[1..]);
      } else {
        SerialRunsAreFresh(x, events[1..]);
      }
    }
  }

  /** So serial requests, from the first upload on, keep the content of every version. */
  lemma SerialHistoryIsComplete(content: Content, events: seq<Event>, last: World)
    requires Run(Start(content), events, last) && Serial(Start(content), events)
    ensures Accounts(last.file, last.past)
    ensures forall c :: c in last.past ==>
        c == last.file.content || exists v :: v in last.file.rows && last.file.rows[v] == c
  {
    assert Inv(Start(content));
    assert Accounts(Start(content).file, Start(content).past);
    SerialRunsAreFresh(Start(content), events);
    FreshRunsAccountForEverything(Start(content), events, last);
    forall c | c in last.past
      ensures c == last.file.content || exists v :: v in last.file.rows && last.file.rows[v] == c
    {
      NothingPastIsLost(last.file, last.past, c);
    }
  }

  lemma {:induction false} LookupIsReachable(f: File, i: nat)
    ensures Lookup(f, i) == f.content || exists v :: v in f.rows && f.rows[v] == Lookup(f, i)
    decreases f.version - i
  {
    if i !in f.rows && i < f.version { LookupIsReachable(f, i + 1); }
  }

  /** So no past content becomes unreachable. */
  lemma NothingPastIsLost(f: File, past: seq<Content>, c: Content)
    requires Accounts(f, past) && c in past
    ensures c == f.content || exists v :: v in f.rows && f.rows[v] == c
  {
    var k :| 0 <= k < |past| && past[k] == c;
    assert Lookup(f, k + 1) == past[k + 1 - 1];
    LookupIsReachable(f, k + 1);
  }

  /** Row `v` is the least recorded one from version `i` on. */
  ghost predicate LeastFrom(rows: map<nat, Content>, i: nat, v: nat) {
    i <= v && v in rows && forall u :: i <= u < v ==> u !in rows
  }

  lemma {:induction false} FindLeast(rows: map<nat, Content>, i: nat, bound: nat) returns (v: nat)
    requires i <= bound && bound in rows
    ensures v <= bound && LeastFrom(rows, i, v)
    decreases bound - i
  {
    if i in rows {
      v := i;
    } else {
      v := FindLeast(rows, i + 1, bound);
    }
  }

  /**
   What a reader of the sparse history may do: after serial requests the content of any version is
   that of the least recorded row from it on, and the current one if no row is recorded from it on.
   */
  lemma PastIsLeastRow(content: Content, events: seq<Event>, last: World, i: nat)
    requires Run(Start(content), events, last) && Serial(Start(content), events) && 1 <= i <= last.file.version
    ensures |last.past| == last.file.version
    ensures (exists v :: LeastFrom(last.file.rows, i, v) && last.past[i - 1] == last.file.rows[v])
         || ((forall u :: i <= u ==> u !in last.file.rows) && last.past[i - 1] == last.file.content)
  {
    SerialHistoryIsComplete(content, events, last);
    assert Inv(Start(content));
    EveryRowIsPast(Start(content), events, last);
    assert Lookup(last.file, i) == last.past[i - 1];
    if u :| i <= u && u in last.file.rows {
      var v := FindLeast(last.file.rows, i, u);
      LookupFindsLeast(last.file, i, v);
    } else {
      LookupFallsThrough(last.file, i);
    }
  }

  const END1: Event := End(1, Committed, false)
  const END2: Event := End(2, Committed, false)

  /** Two uploads that read the same version: the first one committed is neither current nor recorded afterwards. */
  lemma OvertakenUploadIsLost(original: Content, first: Content, second: Content)
    requires original.key != first.key && original.key != second.key && first.key != second.key
    ensures
      var events := [BeginUpload(1, first), BeginUpload(2, second), END1, END2];
      exists last ::
        && Run(Start(original), events, last) && last.past == [original, first, second]
        && last.file.content == second && last.file.rows == map[1 := original]
  {
    var w0 := Start(original);
    var w1 := Step(w0, BeginUpload(1, first));
    var w2 := Step(w1, BeginUpload(2, second));
    var w3 := Step(w2, END1);
    var w4 := Step(w3, END2);
    assert Run(w4, [], w4);
    assert Run(w3, [END2], w4);
    assert Run(w2, [END1, END2], w4) by { assert [END1, END2][1..] == [END2]; }
    assert Run(w1, [BeginUpload(2, second), END1, END2], w4) by {
      assert [BeginUpload(2, second), END1, END2][1..] == [END1, END2];
    }
    var events := [BeginUpload(1, first), BeginUpload(2, second), END1, END2];
    assert events[1..] == [BeginUpload(2, second), END1, END2];
    assert Run(w0, events, w4);
    assert w4.past == [original, first, second];
    assert w4.file.rows == map[1 := original];
  }

  /**
   A restore that is not overtaken can be undone at any later time: whatever ran in between,
   restoring the version it replaced brings back exactly the content it replaced.
   */
  lemma RestoreCanBeUndone(w: World, session: nat, outcome: CommitOutcome, cleaned: bool, events: seq<Event>,
      last: World)
    requires Inv(w) && session in w.pending && w.pending[session].version == w.file.version && !outcome.RolledBack?
    requires Run(Step(w, End(session, outcome, cleaned)), events, last)
    ensures
      var undo := Restore(last.file, w.file.version);
      undo.Some? && CommitFile(last.file, undo.value).content == w.file.content
  {
    var e := End(session, outcome, cleaned);
    assert Grounded(w.pending[session], w.past, w.objects);
    StepKeepsInv(w, e);
    assert w.file.version !in w.file.rows;
    EveryRowIsPast(Step(w, e), events, last);
  }

  // ---------- the handlers ----------

  datatype Reply = InvalidVersion | NotFound | StorageError | SaveFailed | Saved(version: nat)

  class FileNode {
    var version: nat
    var content: Content
    var rows: map<nat, Content>
    var objects: set<string>
    ghost var past: seq<Content>

    ghost function State(): File
      reads this
    {
      File(version, content, rows)
    }

    ghost predicate Valid()
      reads this
    {
      Recording(State(), past)
    }

    constructor (first: Content)
      ensures Valid() && State() == Start(first).file && past == [first] && objects == {first.key}
    {
      version, content, rows, objects, past := 1, first, map[], {first.key}, [first];
    }

    /** The transaction of upload and restore; the read `p` may be stale by now. */
    method CommitVersion(p: Pending, outcome: CommitOutcome) returns (ok: bool)
      requires Valid() && IsPast(past, p.version, p.content)
      modifies this`version, this`content, this`rows, this`past
      ensures Valid()
      ensures ok == outcome.Committed?
      ensures outcome.RolledBack? ==> State() == old(State()) && past == old(past)
      ensures !outcome.RolledBack? ==> State() == CommitFile(old(State()), p) && past == old(past) + [p.next]
    {
      if outcome.RolledBack? { return false; }
      RowsStayPast(State(), p, past);
      if p.version !in rows {
        rows := rows[p.version := p.content];
      }
      content, version := p.next, version + 1;
      past := past + [p.next];
      return outcome.Committed?;
    }

    /**
     Upload with nothing in between; `put` says whether the object was stored, `outcome` how the
     transaction ended and `cleaned` whether the delete after an error worked.
     */
    method UploadVersion(next: Content, put: bool, outcome: CommitOutcome, cleaned: bool) returns (r: Reply)
      requires Valid() && next.key !in objects && forall c :: c in past ==> c.key != next.key
      modifies this
      ensures Valid()
      ensures r == if !put then StorageError else if outcome.Committed? then Saved(version) else SaveFailed
      ensures !put || outcome.RolledBack? ==> State() == old(State()) && past == old(past)
      ensures put && !outcome.RolledBack? ==> content == next && past == old(past) + [next]
      ensures old(objects) <= objects <= old(objects) + {next.key}
      ensures next.key in objects <==> put && (outcome.Committed? || !cleaned)
      ensures old(Stored(past, objects)) ==> (Stored(past, objects) <==> !(put && outcome.Unacknowledged? && cleaned))
      ensures old(Accounts(State(), past)) ==> Accounts(State(), past)
    {
      var oldVersion, oldContent := version, content;
      if !put { return StorageError; }
      objects := objects + {next.key};
      CommitKeepsWhenAccounted(State(), past, Pending(true, oldVersion, oldContent, next));
      var ok := CommitVersion(Pending(true, oldVersion, oldContent, next), outcome);
      if !ok {
        if cleaned { objects := objects - {next.key}; }
        assert outcome.Unacknowledged? ==> next in past;
        return SaveFailed;
      }
      return Saved(oldVersion + 1);
    }

    method RestoreVersion(wanted: int, outcome: CommitOutcome) returns (r: Reply)
      requires Valid()
      modifies this
      ensures Valid() && objects == old(objects)
      ensures r == if wanted < 1 then InvalidVersion else if wanted !in old(rows) then NotFound
        else if outcome.Committed? then Saved(version) else SaveFailed
      ensures r.InvalidVersion? || r.NotFound? || outcome.RolledBack? ==> State() == old(State()) && past == old(past)
      ensures !r.InvalidVersion? && !r.NotFound? && !outcome.RolledBack? ==>
        content == old(past)[wanted - 1] && past == old(past) + [content]
      ensures old(Stored(past, objects)) ==> Stored(past, objects)
      ensures old(Accounts(State(), past)) ==> Accounts(State(), past)
    {
      if wanted < 1 { return InvalidVersion; }
      if wanted !in rows { return NotFound; }
      assert IsPast(past, wanted, rows[wanted]);
      var p := Pending(false, version, content, rows[wanted]);
      CommitKeepsWhenAccounted(State(), past, p);
      var ok := CommitVersion(p, outcome);
      if !ok { return SaveFailed; }
      return Saved(p.version + 1);
    }

    method RenameNode(outcome: CommitOutcome) returns (ok: bool)
      requires Valid()
      modifies this
      ensures Valid() && objects == old(objects) && ok == outcome.Committed?
      ensures outcome.RolledBack? ==> State() == old(State()) && past == old(past)
      ensures !outcome.RolledBack? ==> State() == RenameFile(old(State())) && past == old(past) + [content]
      ensures old(Accounts(State(), past)) ==> Accounts(State(), past)
    {
      if outcome.RolledBack? { return false; }
      if Accounts(State(), past) { RenameKeepsHistory(State(), past); }
      assert forall v :: v in rows ==> IsPast(past, v, rows[v]);
      version := version + 1;
      past := past + [content];
      return outcome.Committed?;
    }
  }

  lemma CommitKeepsWhenAccounted(f: File, past: seq<Content>, p: Pending)
    requires Recording(f, past) && p.version == f.version && p.content == f.content
    ensures Accounts(f, past) ==> Accounts(CommitFile(f, p), past + [p.next])
  {
    if Accounts(f, past) { CommitKeepsHistoryWhenFresh(f, past, p); }
  }
}
