/**
 Incidents: operators move a case through its states, alerts raise and resolve it, and a worker
 escalates the ones nobody acknowledged.  Every write locks the row, so each is one step; the
 worker selects its candidates in an earlier statement and re-checks only the guard it updates by.
 */
module Incidents {
  import opened Options

  datatype Status = OPEN | ACKNOWLEDGED | INVESTIGATING | RESOLVED | CLOSED

  datatype Severity = P1 | P2 | P3 | P4

  datatype Action = Acknowledge | Investigate | Resolve | Close | Reopen

  /** A row of `incident_events`; `from`, `to` and `status` are what the row's metadata says. */
  datatype Entry =
    | Created
    | Manual(action: Action, from: Status, to: Status)
    | Alert(firing: bool, created: bool, status: Status)
    | SeverityChanged(severity: Severity)
    | Note
    | Escalated(severity: Severity, at: int)

  datatype Case = Case(
    key: Option<string>, severity: Severity, status: Status,
    acknowledgedAt: Option<int>, resolvedAt: Option<int>, createdAt: int, level: nat, log: seq<Entry>)

  /** What the worker's query returned for one incident, and when it ran. */
  datatype Candidate = Candidate(severity: Severity, seenAt: int)

  datatype World = World(cases: map<nat, Case>, selected: map<nat, Candidate>)

  datatype Op =
    | Create(id: nat, severity: Severity, now: int)
    | Update(id: nat, newSeverity: Severity)
    | Transition(id: nat, action: Action, now: int)
    | AddNote(id: nat)
    | Ingest(id: nat, key: string, firing: bool, severity: Severity, title: string, now: int)
    | Select(chosen: set<nat>, now: int)
    | Escalate(id: nat, now: int)

  const MINUTE: int := 60

  // ---------- one incident ----------

  function Target(a: Action): Status {
    match a
    case Acknowledge => ACKNOWLEDGED
    case Investigate => INVESTIGATING
    case Resolve => RESOLVED
    case Close => CLOSED
    case Reopen => OPEN
  }

  predicate Allowed(a: Action, s: Status) {
    match a
    case Acknowledge => s == OPEN
    case Investigate => s == OPEN || s == ACKNOWLEDGED
    case Resolve => s == OPEN || s == ACKNOWLEDGED || s == INVESTIGATING
    case Close => s == RESOLVED
    case Reopen => s == RESOLVED || s == CLOSED
  }

  function Sla(s: Severity): int {
    match s
    case P1 => 5 * MINUTE
    case P2 => 15 * MINUTE
    case P3 => 60 * MINUTE
    case P4 => 240 * MINUTE
  }

  function Opened(key: Option<string>, severity: Severity, status: Status, now: int, first: Entry): Case {
    Case(key, severity, status, None, if status == RESOLVED then Some(now) else None, now, 0, [first])
  }

  function TransitionCase(c: Case, a: Action, now: int): Case {
    var to := Target(a);
    c.(status := to,
       acknowledgedAt := if to == ACKNOWLEDGED then Some(now) else c.acknowledgedAt,
       resolvedAt := if to == RESOLVED then Some(now) else if to == OPEN then None else c.resolvedAt,
       log := c.log + [Manual(a, c.status, to)])
  }

  function AlertStatus(current: Status, firing: bool): Status {
    if !firing && current != CLOSED then RESOLVED
    else if firing && (current == RESOLVED || current == CLOSED) then OPEN
    else current
  }

  function AlertCase(c: Case, firing: bool, severity: Severity, now: int): Case {
    var to := AlertStatus(c.status, firing);
    c.(severity := severity, status := to,
       resolvedAt := if to == RESOLVED then (if c.resolvedAt.Some? then c.resolvedAt else Some(now))
         else if to == OPEN then None else c.resolvedAt,
       log := c.log + [Alert(firing, false, to)])
  }

  function UpdateCase(c: Case, severity: Severity): Case {
    c.(severity := severity, log := c.log + [SeverityChanged(severity)])
  }

  predicate Due(c: Case, now: int) {
    c.level == 0 && c.status == OPEN && c.acknowledgedAt.None? && c.createdAt <= now - Sla(c.severity)
  }

  /** The guarded update: the deadline is not looked at again. */
  function EscalateCase(c: Case, seen: Candidate, now: int): Case {
    if c.level == 0 && c.status == OPEN && c.acknowledgedAt.None?
    then c.(level := 1, log := c.log + [Escalated(seen.severity, now)])
    else c
  }

  // ---------- replaying the log ----------

  /** The status after `e`, from the kind of event alone. */
  function ReplayStep(before: Option<Status>, e: Entry): Option<Status> {
    match e
    case Created => Some(OPEN)
    case Manual(a, _, _) => Some(Target(a))
    case Alert(firing, _, _) =>
      if before.None? then Some(if firing then OPEN else RESOLVED)
      else if firing then (if before == Some(RESOLVED) || before == Some(CLOSED) then Some(OPEN) else before)
      else if before == Some(CLOSED) then before
      else Some(RESOLVED)
    case SeverityChanged(_) => before
    case Note => before
    case Escalated(_, _) => before
  }

  function Replay(log: seq<Entry>): Option<Status> {
    if log == [] then None else ReplayStep(Replay(log[..|log| - 1]), log[|log| - 1])
  }

  function Acknowledgements(log: seq<Entry>): nat {
    if log == [] then 0
    else
      var e := log[|log| - 1];
      Acknowledgements(log[..|log| - 1]) + if e.Manual? && e.action == Acknowledge then 1 else 0
  }

  function Escalations(log: seq<Entry>): nat {
    if log == [] then 0
    else Escalations(log[..|log| - 1]) + if log[|log| - 1].Escalated? then 1 else 0
  }

  /** What the entry after `prefix` says is what happened. */
  ghost predicate Honest(prefix: seq<Entry>, e: Entry, createdAt: int) {
    var before := Replay(prefix);
    match e
    case Created => prefix == []
    case Manual(a, from, to) => before == Some(from) && Allowed(a, from) && to == Target(a)
    case Alert(_, created, status) => ReplayStep(before, e) == Some(status) && created == (prefix == [])
    case Escalated(severity, at) =>
      before == Some(OPEN) && Acknowledgements(prefix) == 0 && Escalations(prefix) == 0
          && at >= createdAt + Sla(severity)
    case _ => prefix != []
  }

  ghost predicate Trail(log: seq<Entry>, createdAt: int) {
    log == [] || (Trail(log[..|log| - 1], createdAt) && Honest(log[..|log| - 1], log[|log| - 1], createdAt))
  }

  ghost predicate CaseInv(c: Case) {
    && c.log != [] && Trail(c.log, c.createdAt)
    && Replay(c.log) == Some(c.status)
    && (c.resolvedAt.Some? <==> c.status == RESOLVED || c.status == CLOSED)
    && (c.acknowledgedAt.Some? <==> Acknowledgements(c.log) > 0)
    && Escalations(c.log) == c.level <= 1
  }

  /** What one step may do to an incident that exists: its identity stays, its log grows. */
  ghost predicate Evolves(c: Case, d: Case) {
    && d.key == c.key && d.createdAt == c.createdAt && c.log <= d.log && c.level <= d.level
    && (c.acknowledgedAt.Some? ==> d.acknowledgedAt.Some? && d.level == c.level)
  }

  lemma Appended(log: seq<Entry>, e: Entry, createdAt: int)
    ensures Replay(log + [e]) == ReplayStep(Replay(log), e)
    ensures Acknowledgements(log + [e]) == Acknowledgements(log) + if e.Manual? && e.action == Acknowledge then 1 else 0
    ensures Escalations(log + [e]) == Escalations(log) + if e.Escalated? then 1 else 0
    ensures Trail(log, createdAt) && Honest(log, e, createdAt) ==> Trail(log + [e], createdAt)
  {
    var l := log + [e];
    assert l[..|l| - 1] == log && l[|l| - 1] == e;
  }

  lemma OpenedKeeps(key: Option<string>, severity: Severity, now: int, firing: bool)
    ensures CaseInv(Opened(key, severity, OPEN, now, Created))
    ensures var s := if firing then OPEN else RESOLVED; CaseInv(Opened(key, severity, s, now, Alert(firing, true, s)))
  {
    Appended([], Created, now);
    assert [] + [Created] == [Created];
    var s := if firing then OPEN else RESOLVED;
    Appended([], Alert(firing, true, s), now);
    assert [] + [Alert(firing, true, s)] == [Alert(firing, true, s)];
  }

  lemma TransitionKeeps(c: Case, a: Action, now: int)
    requires CaseInv(c) && Allowed(a, c.status)
    ensures CaseInv(TransitionCase(c, a, now)) && Evolves(c, TransitionCase(c, a, now))
  {
    Appended(c.log, Manual(a, c.status, Target(a)), c.createdAt);
  }

  lemma AlertKeeps(c: Case, firing: bool, severity: Severity, now: int)
    requires CaseInv(c)
    ensures CaseInv(AlertCase(c, firing, severity, now)) && Evolves(c, AlertCase(c, firing, severity, now))
  {
    Appended(c.log, Alert(firing, false, AlertStatus(c.status, firing)), c.createdAt);
  }

  lemma UpdateKeeps(c: Case, severity: Severity)
    requires CaseInv(c)
    ensures CaseInv(UpdateCase(c, severity)) && Evolves(c, UpdateCase(c, severity))
  {
    Appended(c.log, SeverityChanged(severity), c.createdAt);
  }

  lemma NoteKeeps(c: Case)
    requires CaseInv(c)
    ensures CaseInv(c.(log := c.log + [Note])) && Evolves(c, c.(log := c.log + [Note]))
  {
    Appended(c.log, Note, c.createdAt);
  }

  lemma EscalateKeeps(c: Case, seen: Candidate, now: int)
    requires CaseInv(c) && now >= seen.seenAt >= c.createdAt + Sla(seen.severity)
    ensures CaseInv(EscalateCase(c, seen, now)) && Evolves(c, EscalateCase(c, seen, now))
  {
    Appended(c.log, Escalated(seen.severity, now), c.createdAt);
  }

  // ---------- all incidents and the worker ----------

  predicate Enabled(w: World, op: Op) {
    match op
    case Create(id, _, _) => id !in w.cases
    case Ingest(id, _, _, _, _, _) => id !in w.cases
    case Select(chosen, now) => chosen <= w.cases.Keys && forall id :: id in chosen ==> Due(w.cases[id], now)
    case Escalate(id, now) => id in w.selected && id in w.cases && now >= w.selected[id].seenAt
    case _ => true
  }

  /** The incident already open for this fingerprint, if there is one. */
  function Matching(cases: map<nat, Case>, key: string): set<nat> {
    set id | id in cases && cases[id].key == Some(key)
  }

  /** The database refuses titles shorter than three characters. */
  predicate TitleFits(title: string) {
    3 <= |title|
  }

  function Candidates(cases: map<nat, Case>, chosen: set<nat>, now: int): map<nat, Candidate>
    requires chosen <= cases.Keys
  {
    map id | id in chosen :: Candidate(cases[id].severity, now)
  }

  ghost function Step(w: World, op: Op): World
    requires Enabled(w, op)
  {
    match op
    case Create(id, severity, now) =>
      w.(cases := w.cases[id := Opened(None, severity, OPEN, now, Created)])
    case Update(id, severity) =>
      if id in w.cases then w.(cases := w.cases[id := UpdateCase(w.cases[id], severity)]) else w
    case Transition(id, a, now) =>
      if id in w.cases && Allowed(a, w.cases[id].status)
          then w.(cases := w.cases[id := TransitionCase(w.cases[id], a, now)]) else w
    case AddNote(id) =>
      if id in w.cases then w.(cases := w.cases[id := w.cases[id].(log := w.cases[id].log + [Note])]) else w
    case Ingest(id, key, firing, severity, title, now) =>
      if !TitleFits(title) then w
      else if Matching(w.cases, key) == {} then
        var s := if firing then OPEN else RESOLVED;
        w.(cases := w.cases[id := Opened(Some(key), severity, s, now, Alert(firing, true, s))])
      else
        var found :| found in Matching(w.cases, key);
        w.(cases := w.cases[found := AlertCase(w.cases[found], firing, severity, now)])
    case Select(chosen, now) =>
      w.(selected := Candidates(w.cases, chosen, now))
    case Escalate(id, now) =>
      w.(cases := w.cases[id := EscalateCase(w.cases[id], w.selected[id], now)])
  }

  ghost predicate Run(w: World, ops: seq<Op>, last: World)
    decreases |ops|
  {
    if ops == [] then last == w
    else Enabled(w, ops[0]) && Run(Step(w, ops[0]), ops[1..], last)
  }

  ghost predicate OneCasePerAlert(cases: map<nat, Case>) {
    forall i, j :: i in cases && j in cases && cases[i].key.Some? && cases[i].key == cases[j].key ==> i == j
  }

  ghost predicate Inv(w: World) {
    && (forall id :: id in w.cases ==> CaseInv(w.cases[id]))
    && OneCasePerAlert(w.cases)
    && (forall id :: id in w.selected ==>
          id in w.cases && w.selected[id].seenAt >= w.cases[id].createdAt + Sla(w.selected[id].severity))
  }

  ghost predicate Grows(w: World, x: World) {
    forall id :: id in w.cases ==> id in x.cases && Evolves(w.cases[id], x.cases[id])
  }

  lemma Replaced(w: World, id: nat, c: Case)
    requires Inv(w) && CaseInv(c) && id in w.cases && Evolves(w.cases[id], c)
    ensures Inv(w.(cases := w.cases[id := c]))
    ensures Grows(w, w.(cases := w.cases[id := c]))
  {
  }

  lemma Inserted(w: World, id: nat, c: Case)
    requires Inv(w) && CaseInv(c) && id !in w.cases
    requires forall i :: i in w.cases && c.key.Some? ==> w.cases[i].key != c.key
    ensures Inv(w.(cases := w.cases[id := c]))
    ensures Grows(w, w.(cases := w.cases[id := c]))
  {
  }

  lemma StepKeepsInv(w: World, op: Op)
    requires Inv(w) && Enabled(w, op)
    ensures Inv(Step(w, op))
    ensures Grows(w, Step(w, op))
  {
    match op {
      case Create(id, severity, now) =>
        OpenedKeeps(None, severity, now, true);
        Inserted(w, id, Opened(None, severity, OPEN, now, Created));
      case Update(id, severity) =>
        if id in w.cases {
          UpdateKeeps(w.cases[id], severity);
          Replaced(w, id, UpdateCase(w.cases[id], severity));
        }
      case Transition(id, a, now) =>
        if id in w.cases && Allowed(a, w.cases[id].status) {
          TransitionKeeps(w.cases[id], a, now);
          Replaced(w, id, TransitionCase(w.cases[id], a, now));
        }
      case AddNote(id) =>
        if id in w.cases {
          NoteKeeps(w.cases[id]);
          Replaced(w, id, w.cases[id].(log := w.cases[id].log + [Note]));
        }
      case Ingest(id, key, firing, severity, title, now) =>
        IngestKeepsInv(w, op);
      case Select(chosen, now) =>
      case Escalate(id, now) =>
        EscalateKeeps(w.cases[id], w.selected[id], now);
        Replaced(w, id, EscalateCase(w.cases[id], w.selected[id], now));
    }
  }

  lemma IngestKeepsInv(w: World, op: Op)
    requires Inv(w) && op.Ingest? && Enabled(w, op)
    ensures Inv(Step(w, op))
    ensures Grows(w, Step(w, op))
  {
    if TitleFits(op.title) {
      if Matching(w.cases, op.key) == {} {
        OpenedKeeps(Some(op.key), op.severity, op.now, op.firing);
        var s := if op.firing then OPEN else RESOLVED;
        forall i | i in w.cases ensures w.cases[i].key != Some(op.key) {
          assert i !in Matching(w.cases, op.key);
        }
        Inserted(w, op.id, Opened(Some(op.key), op.severity, s, op.now, Alert(op.firing, true, s)));
      } else {
        forall found | found in Matching(w.cases, op.key)
          ensures
            var x := w.(cases := w.cases[found := AlertCase(w.cases[found], op.firing, op.severity, op.now)]);
            Inv(x) && Grows(w, x)
        {
          AlertKeeps(w.cases[found], op.firing, op.severity, op.now);
          Replaced(w, found, AlertCase(w.cases[found], op.firing, op.severity, op.now));
        }
      }
    }
  }

  /** Over every run of the three writers the log accounts for each row, and never forgets. */
  lemma {:induction false} RunKeepsInv(w: World, ops: seq<Op>, last: World)
    requires Inv(w) && Run(w, ops, last)
    ensures Inv(last)
    ensures Grows(w, last)
    decreases |ops|
  {
    if ops != [] {
      var next := Step(w, ops[0]);
      StepKeepsInv(w, ops[0]);
      RunKeepsInv(next, ops[1..], last);
      forall id | id in w.cases ensures id in last.cases && Evolves(w.cases[id], last.cases[id]) {
        assert Evolves(w.cases[id], next.cases[id]);
        assert Evolves(next.cases[id], last.cases[id]);
      }
    }
  }

  lemma {:induction false} TrailAt(log: seq<Entry>, createdAt: int, k: nat)
    requires Trail(log, createdAt) && k < |log|
    ensures Honest(log[..k], log[k], createdAt)
  {
    if k < |log| - 1 {
      TrailAt(log[..|log| - 1], createdAt, k);
      assert log[..|log| - 1][..k] == log[..k];
    }
  }

  /** Every manual transition recorded the status the log before it replays to, and was allowed from there. */
  lemma ManualFromIsReplay(ops: seq<Op>, w: World, id: nat, k: nat)
    requires Run(World(map[], map[]), ops, w) && id in w.cases && k < |w.cases[id].log| && w.cases[id].log[k].Manual?
    ensures var c, e := w.cases[id], w.cases[id].log[k];
      Replay(c.log[..k]) == Some(e.from) && Allowed(e.action, e.from) && Replay(c.log[..k + 1]) == Some(e.to)
  {
    RunKeepsInv(World(map[], map[]), ops, w);
    var c := w.cases[id];
    TrailAt(c.log, c.createdAt, k);
    assert c.log[..k + 1] == c.log[..k] + [c.log[k]];
    Appended(c.log[..k], c.log[k], c.createdAt);
  }

  /** Replaying the log of any reachable incident gives its row; `resolved_at` is set exactly in RESOLVED and CLOSED. */
  lemma LogReplaysToRow(ops: seq<Op>, w: World, id: nat)
    requires Run(World(map[], map[]), ops, w) && id in w.cases
    ensures Replay(w.cases[id].log) == Some(w.cases[id].status)
    ensures w.cases[id].resolvedAt.Some? <==> w.cases[id].status == RESOLVED || w.cases[id].status == CLOSED
  {
    RunKeepsInv(World(map[], map[]), ops, w);
  }

  lemma {:induction false} EscalationsAt(log: seq<Entry>, j: nat, k: nat)
    requires j < k < |log| && log[j].Escalated? && log[k].Escalated?
    ensures Escalations(log) >= 2
  {
    if k < |log| - 1 {
      EscalationsAt(log[..|log| - 1], j, k);
    } else {
      SomeEscalation(log[..k], j);
    }
  }

  lemma {:induction false} SomeEscalation(log: seq<Entry>, k: nat)
    requires k < |log| && log[k].Escalated?
    ensures Escalations(log) >= 1
  {
    if k < |log| - 1 { SomeEscalation(log[..|log| - 1], k); }
  }

  lemma {:induction false} FindEscalation(log: seq<Entry>)
    requires Escalations(log) >= 1
    ensures exists k :: 0 <= k < |log| && log[k].Escalated?
  {
    if !log[|log| - 1].Escalated? {
      FindEscalation(log[..|log| - 1]);
      var k :| 0 <= k < |log| - 1 && log[..|log| - 1][k].Escalated?;
      assert log[k].Escalated?;
    }
  }

  lemma OneEscalation(c: Case, j: nat, k: nat)
    requires CaseInv(c) && j < |c.log| && k < |c.log| && c.log[j].Escalated? && c.log[k].Escalated?
    ensures j == k
  {
    if j < k { EscalationsAt(c.log, j, k); }
    if k < j { EscalationsAt(c.log, k, j); }
  }

  /** An incident is at level 1 exactly when its log holds an ESCALATED entry, and it never holds two. */
  lemma EscalatedOnce(ops: seq<Op>, w: World, id: nat)
    requires Run(World(map[], map[]), ops, w) && id in w.cases
    ensures var c := w.cases[id];
      && c.level <= 1
      && (c.level == 1 <==> exists k :: 0 <= k < |c.log| && c.log[k].Escalated?)
      && forall j, k :: 0 <= j < |c.log| && 0 <= k < |c.log| && c.log[j].Escalated? && c.log[k].Escalated? ==> j == k
  {
    RunKeepsInv(World(map[], map[]), ops, w);
    var c := w.cases[id];
    if c.level == 1 { FindEscalation(c.log); }
    forall k | 0 <= k < |c.log| && c.log[k].Escalated? ensures c.level == 1 {
      SomeEscalation(c.log, k);
    }
    forall j, k | 0 <= j < |c.log| && 0 <= k < |c.log| && c.log[j].Escalated? && c.log[k].Escalated?
      ensures j == k
    {
      OneEscalation(c, j, k);
    }
  }

  /**
   The escalation was raised while the incident was OPEN, with no acknowledgement before it, and
   not earlier than the deadline of the severity it records.
   */
  lemma EscalatedWhenDue(ops: seq<Op>, w: World, id: nat, k: nat)
    requires Run(World(map[], map[]), ops, w) && id in w.cases && k < |w.cases[id].log| && w.cases[id].log[k].Escalated?
    ensures var c := w.cases[id];
      && Replay(c.log[..k]) == Some(OPEN) && Acknowledgements(c.log[..k]) == 0
      && c.log[k].at >= c.createdAt + Sla(c.log[k].severity)
  {
    RunKeepsInv(World(map[], map[]), ops, w);
    TrailAt(w.cases[id].log, w.cases[id].createdAt, k);
  }

  /** Once acknowledged an incident is never escalated later, not even after it is reopened. */
  lemma AcknowledgedNeverEscalates(w: World, ops: seq<Op>, last: World, id: nat)
    requires Inv(w) && Run(w, ops, last) && id in w.cases && w.cases[id].acknowledgedAt.Some?
    ensures id in last.cases && last.cases[id].level == w.cases[id].level
    ensures Escalations(last.cases[id].log) == Escalations(w.cases[id].log)
  {
    RunKeepsInv(w, ops, last);
    assert Evolves(w.cases[id], last.cases[id]);
  }

  // ---------- the handlers ----------

  const BATCH: nat := 100

  /** The oldest due incidents, at most a hundred of them. */
  ghost predicate Selection(cases: map<nat, Case>, chosen: seq<nat>, now: int) {
    && |chosen| <= BATCH
    && (forall i, j :: 0 <= i < j < |chosen| ==> chosen[i] != chosen[j])
    && (forall id :: id in chosen ==> id in cases && Due(cases[id], now))
    && (|chosen| < BATCH ==> forall id :: id in cases && Due(cases[id], now) ==> id in chosen)
    && (forall id, c :: id in cases && Due(cases[id], now) && id !in chosen && c in chosen ==>
        cases[c].createdAt <= cases[id].createdAt)
  }

  datatype Reply = Done | BadInput | NotFound | Conflict | Failed

  function Answer(outcome: CommitOutcome): Reply {
    if outcome.Committed? then Done else Failed
  }

  function Acknowledged(outcomes: seq<CommitOutcome>): nat {
    if outcomes == [] then 0
    else Acknowledged(outcomes[..|outcomes| - 1]) + if outcomes[|outcomes| - 1].Committed? then 1 else 0
  }

  function Escalation(c: Case, now: int): Case {
    EscalateCase(c, Candidate(c.severity, now), now)
  }

  /** The rows after the transactions for `chosen`, in order. */
  function Pass(cases: map<nat, Case>, chosen: seq<nat>, outcomes: seq<CommitOutcome>, now: int): map<nat, Case>
    requires |outcomes| == |chosen|
  {
    if chosen == [] then cases
    else
      var n := |chosen| - 1;
      var m := Pass(cases, chosen[..n], outcomes[..n], now);
      if outcomes[n].RolledBack? || chosen[n] !in m then m else m[chosen[n] := Escalation(m[chosen[n]], now)]
  }

  /** One pass escalates exactly the selected incidents whose transaction went through. */
  lemma {:induction false} PassMeans(cases: map<nat, Case>, chosen: seq<nat>, outcomes: seq<CommitOutcome>, now: int)
    requires |outcomes| == |chosen| && forall id :: id in chosen ==> id in cases
    requires forall i, j :: 0 <= i < j < |chosen| ==> chosen[i] != chosen[j]
    ensures Pass(cases, chosen, outcomes, now).Keys == cases.Keys
    ensures forall id :: id in cases && id !in chosen ==> Pass(cases, chosen, outcomes, now)[id] == cases[id]
    ensures forall i :: 0 <= i < |chosen| ==>
      Pass(cases, chosen, outcomes, now)[chosen[i]] == if outcomes[i].RolledBack? then cases[chosen[i]]
          else Escalation(cases[chosen[i]], now)
  {
    if chosen != [] {
      var n := |chosen| - 1;
      PassMeans(cases, chosen[..n], outcomes[..n], now);
      assert chosen == chosen[..n] + [chosen[n]];
      assert chosen[n] !in chosen[..n];
    }
  }

  /** The next candidate is still as it was selected. */
  lemma NextCandidate(cases: map<nat, Case>, chosen: seq<nat>, outcomes: seq<CommitOutcome>, now: int, i: nat)
    requires Selection(cases, chosen, now) && |outcomes| == |chosen| && i < |chosen|
    ensures
      var m, id := Pass(cases, chosen[..i], outcomes[..i], now), chosen[i];
      && id in cases && m.Keys == cases.Keys && m[id] == cases[id] && Due(m[id], now)
      && Pass(cases, chosen[..i + 1], outcomes[..i + 1], now) == if outcomes[i].RolledBack? then m
          else m[id := Escalation(m[id], now)]
  {
    PassMeans(cases, chosen[..i], outcomes[..i], now);
    assert chosen[i] in chosen;
    assert chosen[i] !in chosen[..i];
    assert chosen[..i + 1][..i] == chosen[..i] && outcomes[..i + 1][..i] == outcomes[..i];
  }

  /** A pass without outcomes that was not cut at a hundred leaves nothing due. */
  lemma NothingDueLeft(cases: map<nat, Case>, chosen: seq<nat>, outcomes: seq<CommitOutcome>, now: int)
    requires Selection(cases, chosen, now) && |outcomes| == |chosen| < BATCH && RolledBack !in outcomes
    ensures Pass(cases, chosen, outcomes, now).Keys == cases.Keys
    ensures forall id :: id in cases ==> !Due(Pass(cases, chosen, outcomes, now)[id], now)
  {
    PassMeans(cases, chosen, outcomes, now);
    forall id | id in cases ensures !Due(Pass(cases, chosen, outcomes, now)[id], now) {
      if id in chosen {
        var i :| 0 <= i < |chosen| && chosen[i] == id;
        assert outcomes[i] in outcomes;
      }
    }
  }

  class IncidentStore {
    var cases: map<nat, Case>
    var selected: map<nat, Candidate>

    ghost function State(): World
      reads this
    {
      World(cases, selected)
    }

    ghost predicate Valid()
      reads this
    {
      Inv(State())
    }

    constructor ()
      ensures Valid() && State() == World(map[], map[])
    {
      cases, selected := map[], map[];
    }

    method CreateAdminIncident(id: nat, title: string, severity: Option<Severity>, now: int, outcome: CommitOutcome)
      returns (r: Reply)
      requires Valid() && id !in cases
      modifies this
      ensures Valid()
      ensures r == if !(3 <= |title| <= 160) || severity.None? then BadInput else Answer(outcome)
      ensures State() == if r.BadInput? || outcome.RolledBack? then old(State())
        else Step(old(State()), Create(id, severity.value, now))
    {
      if |title| < 3 || |title| > 160 || severity.None? { return BadInput; }
      StepKeepsInv(State(), Create(id, severity.value, now));
      if !outcome.RolledBack? {
        cases := cases[id := Opened(None, severity.value, OPEN, now, Created)];
      }
      return Answer(outcome);
    }

    /**
     `severity` is `Some(None)` when the request names one that is not valid.  An assignee never gets
     in: `NULLIF($3,'')` is text, which the database does not assign to a UUID column, so the
     statement fails and takes the severity back with it.
     */
    method UpdateAdminIncident(id: nat, severity: Option<Option<Severity>>, assignee: Option<string>,
        active: bool, outcome: CommitOutcome) returns (r: Reply)
      requires Valid()
      modifies this
      ensures Valid()
      ensures r ==
        if severity.Some? && severity.value.None? then BadInput
        else if severity.Some? && id !in old(cases) then NotFound
        else if (assignee.Some? && assignee.value != "" && !active) || (severity.None? && assignee.None?) then BadInput
        else if assignee.Some? then Failed
        else Answer(outcome)
      ensures State() ==
        if r.BadInput? || r.NotFound? || assignee.Some? || outcome.RolledBack? then old(State())
        else Step(old(State()), Update(id, severity.value.value))
    {
      var cases0 := cases;
      if severity.Some? {
        if severity.value.None? { return BadInput; }
        if id !in cases { return NotFound; }
        StepKeepsInv(State(), Update(id, severity.value.value));
        cases := cases[id := UpdateCase(cases[id], severity.value.value)];
      }
      if assignee.Some? {
        cases := cases0;
        return if assignee.value != "" && !active then BadInput else Failed;
      }
      if severity.None? { return BadInput; }
      if outcome.RolledBack? { cases := cases0; }
      return Answer(outcome);
    }

    method TransitionAdminIncident(id: nat, action: Option<Action>, now: int, outcome: CommitOutcome) returns (r: Reply)
      requires Valid()
      modifies this
      ensures Valid()
      ensures r == if action.None? then BadInput else if id !in old(cases) then NotFound
        else if !Allowed(action.value, old(cases)[id].status) then Conflict else Answer(outcome)
      ensures State() == if action.None? || outcome.RolledBack? then old(State())
        else Step(old(State()), Transition(id, action.value, now))
    {
      if action.None? { return BadInput; }
      if id !in cases { return NotFound; }
      var a, current := action.value, cases[id].status;
      if !Allowed(a, current) { return Conflict; }
      StepKeepsInv(State(), Transition(id, a, now));
      if !outcome.RolledBack? {
        cases := cases[id := TransitionCase(cases[id], a, now)];
      }
      return Answer(outcome);
    }

    method AddIncidentNote(id: nat, note: string, outcome: CommitOutcome) returns (r: Reply)
      requires Valid()
      modifies this
      ensures Valid()
      ensures r == if !(1 <= |note| <= 4000) then BadInput
          else if !outcome.Committed? || id !in old(cases) then NotFound else Done
      ensures State() == if r.BadInput? || outcome.RolledBack? then old(State()) else Step(old(State()), AddNote(id))
    {
      if |note| == 0 || |note| > 4000 { return BadInput; }
      StepKeepsInv(State(), AddNote(id));
      if id in cases && !outcome.RolledBack? {
        cases := cases[id := cases[id].(log := cases[id].log + [Note])];
      }
      return if id in cases && outcome.Committed? then Done else NotFound;
    }

    /** The title is the alert's summary, else its name, else a fixed text. */
    method UpsertAlertIncident(id: nat, key: string, firing: bool, severity: Severity, summary: string,
        name: string, now: int, outcome: CommitOutcome) returns (r: Reply)
      requires Valid() && id !in cases
      modifies this
      ensures Valid()
      ensures var title := if summary != "" then summary else if name != "" then name else "Prometheus alert";
        && r == (if TitleFits(title) then Answer(outcome) else Failed)
        && State() == if outcome.RolledBack? then old(State())
           else Step(old(State()), Ingest(id, key, firing, severity, title, now))
    {
      var title := if summary != "" then summary else if name != "" then name else "Prometheus alert";
      if !TitleFits(title) || outcome.RolledBack? { return Failed; }
      StepKeepsInv(State(), Ingest(id, key, firing, severity, title, now));
      var matching := Matching(cases, key);
      if matching == {} {
        var status := if firing then OPEN else RESOLVED;
        cases := cases[id := Opened(Some(key), severity, status, now, Alert(firing, true, status))];
      } else {
        var found :| found in matching;
        assert forall other :: other in matching ==> other == found;
        cases := cases[found := AlertCase(cases[found], firing, severity, now)];
      }
      return Answer(outcome);
    }

    /** One candidate of the worker; other requests may have run since it was selected. */
    method EscalateIncident(id: nat, now: int, outcome: CommitOutcome) returns (changed: bool)
      requires Valid() && Enabled(State(), Escalate(id, now))
      modifies this
      ensures Valid()
      ensures State() == if outcome.RolledBack? then old(State()) else Step(old(State()), Escalate(id, now))
      ensures selected == old(selected)
      ensures cases == if outcome.RolledBack? then old(cases)
          else old(cases)[id := EscalateCase(old(cases)[id], selected[id], now)]
      ensures changed <==> outcome.Committed? && EscalateCase(old(cases)[id], selected[id], now) != old(cases)[id]
    {
      if outcome.RolledBack? { return false; }
      StepKeepsInv(State(), Escalate(id, now));
      var c := cases[id];
      changed := outcome.Committed? && c.level == 0 && c.status == OPEN && c.acknowledgedAt.None?;
      cases := cases[id := EscalateCase(c, selected[id], now)];
    }

    /** The worker's query. */
    method SelectDue(chosen: seq<nat>, now: int)
      requires Valid() && Selection(cases, chosen, now)
      modifies this`selected
      ensures Valid()
      ensures forall id :: id in chosen ==> id in selected && selected[id] == Candidate(cases[id].severity, now)
    {
      var ids := set id | id in chosen;
      StepKeepsInv(State(), Select(ids, now));
      selected := Candidates(cases, ids, now);
    }

    /** The worker is about to escalate the i-th of the candidates it selected from `before`. */
    ghost predicate Midway(before: map<nat, Case>, chosen: seq<nat>, outcomes: seq<CommitOutcome>, now: int, i: nat)
      reads this
    {
      && |outcomes| == |chosen| && i <= |chosen| && Selection(before, chosen, now)
      && cases == Pass(before, chosen[..i], outcomes[..i], now)
      && forall id :: id in chosen ==> id in selected && selected[id] == Candidate(before[id].severity, now)
    }

    method EscalateNext(chosen: seq<nat>, now: int, i: nat, outcome: CommitOutcome, ghost before: map<nat, Case>,
        ghost outcomes: seq<CommitOutcome>)
      returns (changed: bool)
      requires Valid() && Midway(before, chosen, outcomes, now, i) && i < |chosen| && outcome == outcomes[i]
      modifies this
      ensures Valid() && Midway(before, chosen, outcomes, now, i + 1)
      ensures changed == outcome.Committed?
    {
      NextCandidate(before, chosen, outcomes, now, i);
      assert chosen[i] in chosen;
      changed := EscalateIncident(chosen[i], now, outcome);
    }

    /**
     One pass of the worker with nothing in between; `chosen` is the query's answer and
     `outcomes[i]` says how the i-th transaction ended.
     */
    method RunIncidentEscalation(chosen: seq<nat>, outcomes: seq<CommitOutcome>, now: int) returns (escalated: nat)
      requires Valid() && Selection(cases, chosen, now) && |outcomes| == |chosen|
      modifies this
      ensures Valid()
      ensures escalated == Acknowledged(outcomes)
      ensures cases == Pass(old(cases), chosen, outcomes, now)
    {
      SelectDue(chosen, now);
      escalated := 0;
      ghost var before := cases;
      var i := 0;
      while i < |chosen|
        invariant Valid() && Midway(before, chosen, outcomes, now, i)
        invariant escalated == Acknowledged(outcomes[..i])
      {
        assert outcomes[..i + 1][..i] == outcomes[..i];
        var changed := EscalateNext(chosen, now, i, outcomes[i], before, outcomes);
        if changed { escalated := escalated + 1; }
        i := i + 1;
      }
      assert outcomes[..|chosen|] == outcomes && chosen[..|chosen|] == chosen;
    }
  }
}
