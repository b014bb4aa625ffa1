/**
 One meeting and its participant rows, changed by the join, leave, token, moderation and
 delete handlers, by the reconciliation with the realtime room and by the duration worker.

 `rows` is in insertion order, so `ORDER BY created_at DESC LIMIT 1` is the greatest index.
 Times are nanoseconds.  Requests are serial: each step is one handler call or worker item.
 */
module Meetings {

  import opened Options

  const SECOND := 1_000_000_000
  const MINUTE := 60 * SECOND
  const JOIN_GRACE := 20 * SECOND
  const RECONNECT_GRACE := 2 * MINUTE

  datatype Status = PRE_JOIN | WAITING_ROOM | JOINED | DISCONNECTED | LEFT | REMOVED
  datatype Role = HOST | CO_HOST | MEMBER | GUEST

  /** `external` rows hold their user in `external_user_id`, the others in `user_id`. */
  datatype Participant = Participant(
    user: string, external: bool, role: Role, status: Status, joinedAt: Option<int>, leftAt: Option<int>)

  datatype MeetingStatus = SCHEDULED | WAITING | ACTIVE | ENDED | CANCELLED

  /** `planLimit` is `end_reason='PLAN_DURATION_LIMIT'`; `autoEnds` counts auto-end audit events. */
  datatype Meeting = Meeting(
    status: MeetingStatus, locked: bool, startedAt: Option<int>, endedAt: Option<int>,
    planLimit: bool, roomClosedAt: Option<int>, autoEnds: nat)

  /** Fixed for the life of the meeting; `members` are the users of its workspace. */
  datatype Config = Config(host: string, members: set<string>, waitingRoom: bool)

  datatype State = State(meeting: Meeting, rows: seq<Participant>)

  datatype Action = ADMIT | REJECT | REMOVE | PROMOTE
  datatype MeetingAction = LOCK | UNLOCK | END
  datatype Close = Closed | AlreadyClosed | CloseFailed

  /**
   `write`, `inserted`, `activated`, `committed` and `recorded` say how a handler's statement or
   transaction ends; a pass of the reconciliation ignores the rows whose update failed.
   */
  datatype Event =
    | Join(user: string, guestRole: bool, guestAccess: bool, consent: bool, inserted: CommitOutcome,
        activated: CommitOutcome, now: int)
    | Token(user: string, issuable: bool, write: CommitOutcome, now: int)
    | Leave(user: string, write: CommitOutcome, now: int)
    | Moderate(permitted: bool, row: nat, action: Action, write: CommitOutcome, now: int)
    | Reconcile(identities: seq<string>, failed: set<nat>, now: int)
    | ModerateMeeting(permitted: bool, change: MeetingAction, write: CommitOutcome, now: int)
    | Delete(permitted: bool, write: CommitOutcome, now: int)
    | Enforce(limits: Limits, committed: CommitOutcome, close: Close, recorded: CommitOutcome, now: int)

  /** The minutes the worker reads: entitlement override, plan, workspace setting. */
  datatype Limits = Limits(override: Option<int>, plan: Option<int>, setting: Option<int>)

  datatype Outcome =
    | Done
    | Granted(row: nat)
    | Refused(code: nat)

  // ---------- lookups ----------

  predicate Live(p: Participant) {
    p.status != LEFT && p.status != REMOVED
  }

  predicate Present(p: Participant) {
    p.status == JOINED || p.status == DISCONNECTED
  }

  function External(cfg: Config, user: string): bool {
    user !in cfg.members
  }

  predicate Mine(cfg: Config, p: Participant, user: string) {
    p.user == user && p.external == External(cfg, user)
  }

  /** The newest row that satisfies `match`, or the number of rows if there is none. */
  function Newest(rows: seq<Participant>, matches: Participant -> bool): (i: nat)
    ensures i <= |rows|
    ensures i < |rows| ==> matches(rows[i])
    ensures forall k | i < k < |rows| :: !matches(rows[k])
    ensures i == |rows| ==> forall k | 0 <= k < |rows| :: !matches(rows[k])
  {
    if rows == [] then 0
    else
      var last := |rows| - 1;
      if matches(rows[last]) then last
      else
        var i := Newest(rows[..last], matches);
        if i == last then |rows| else i
  }

  function NewestOf(cfg: Config, rows: seq<Participant>, user: string): nat {
    Newest(rows, (p: Participant) => Mine(cfg, p, user))
  }

  function NewestLiveOf(cfg: Config, rows: seq<Participant>, user: string): nat {
    Newest(rows, (p: Participant) => Mine(cfg, p, user) && Live(p))
  }

  function NewestLeavable(cfg: Config, rows: seq<Participant>, user: string): nat {
    Newest(rows, (p: Participant) => Mine(cfg, p, user) && (p.status == JOINED || p.status == WAITING_ROOM))
  }

  // ---------- what each handler does ----------

  function JoinRole(cfg: Config, user: string, guestRole: bool): Role {
    if user == cfg.host then HOST else if External(cfg, user) || guestRole then GUEST else MEMBER
  }

  function FirstStatus(cfg: Config, user: string): Status {
    if cfg.waitingRoom && user != cfg.host then WAITING_ROOM else JOINED
  }

  /** `INSERT ... ON CONFLICT`: a live row of the user only has its role refreshed. */
  function Upsert(cfg: Config, rows: seq<Participant>, user: string, guestRole: bool, now: int): seq<Participant> {
    var i := NewestLiveOf(cfg, rows, user);
    if i < |rows| then
      if External(cfg, user) || rows[i].role == CO_HOST then rows
      else rows[i := rows[i].(role := JoinRole(cfg, user, guestRole))]
    else
      var status := FirstStatus(cfg, user);
      rows + [Participant(user, External(cfg, user), JoinRole(cfg, user, guestRole), status,
                          if status == JOINED then Some(now) else None, None)]
  }

  function Activate(m: Meeting, now: int): Meeting {
    if m.status == SCHEDULED || m.status == WAITING
    then m.(status := ACTIVE, startedAt := if m.startedAt.Some? then m.startedAt else Some(now)) else m
  }

  function JoinCode(cfg: Config, s: State, e: Event): nat
    requires e.Join?
  {
    if !e.consent then 400
    else if s.meeting.status == CANCELLED then 404
    else if (External(cfg, e.user) || e.guestRole) && !e.guestAccess then 403
    else if s.meeting.status == ENDED then 409
    else if s.meeting.locked && e.user != cfg.host then 423
    else 201
  }

  /** One statement: what it leaves behind, and the answer if it went well. */
  function Written(before: State, after: State, write: CommitOutcome, good: Outcome): (State, Outcome) {
    (if write.RolledBack? then before else after, if write.Committed? then good else Refused(500))
  }

  function DoJoin(cfg: Config, s: State, e: Event): (State, Outcome)
    requires e.Join?
  {
    var code := JoinCode(cfg, s, e);
    if code != 201 then (s, Refused(code))
    else
      var joined := s.(rows := Upsert(cfg, s.rows, e.user, e.guestRole, e.now));
      if !e.inserted.Committed? || e.user != cfg.host || s.meeting.status == ACTIVE
      then Written(s, joined, e.inserted, Done)
      else Written(joined, joined.(meeting := Activate(s.meeting, e.now)), e.activated, Done)
  }

  function DoToken(cfg: Config, s: State, e: Event): (State, Outcome)
    requires e.Token?
  {
    var i := NewestOf(cfg, s.rows, e.user);
    if s.meeting.status == CANCELLED then (s, Refused(404))
    else if i == |s.rows| || !Present(s.rows[i]) then (s, Refused(403))
    else
      var answer := if e.issuable then Granted(i) else Refused(503);
      if s.rows[i].status == DISCONNECTED then
        var back := s.rows[i].(status := JOINED, joinedAt := Some(e.now), leftAt := None);
        Written(s, s.(rows := s.rows[i := back]), e.write, answer)
      else (s, answer)
  }

  function DoLeave(cfg: Config, s: State, e: Event): (State, Outcome)
    requires e.Leave?
  {
    var i := NewestLeavable(cfg, s.rows, e.user);
    if s.meeting.status == CANCELLED then (s, Refused(404))
    else
      var gone := if i == |s.rows| then s.rows else s.rows[i := s.rows[i].(status := LEFT, leftAt := Some(e.now))];
      Written(s, s.(rows := gone), e.write, Done)
  }

  predicate ActionAllowed(p: Participant, action: Action) {
    match action
    case ADMIT => p.status == WAITING_ROOM
    case REJECT => Live(p) && p.role != HOST
    case REMOVE => Live(p) && p.role != HOST
    case PROMOTE => p.status == JOINED && p.role == MEMBER
  }

  function ActOn(p: Participant, action: Action, now: int): Participant {
    match action
    case ADMIT => p.(status := JOINED, joinedAt := if p.joinedAt.Some? then p.joinedAt else Some(now))
    case REJECT => p.(status := REMOVED, leftAt := Some(now))
    case REMOVE => p.(status := REMOVED, leftAt := Some(now))
    case PROMOTE => p.(role := CO_HOST)
  }

  function DoModerate(s: State, e: Event): (State, Outcome)
    requires e.Moderate?
  {
    if !e.permitted then (s, Refused(403))
    else if e.row >= |s.rows| then (s, Refused(404))
    else if !ActionAllowed(s.rows[e.row], e.action) then (s, if e.write.Committed? then Refused(409) else Refused(500))
    else Written(s, s.(rows := s.rows[e.row := ActOn(s.rows[e.row], e.action, e.now)]), e.write, Done)
  }

  /** The part of a realtime identity before its first colon. */
  function LogicalIdentity(identity: string): string {
    if ':' in identity then identity[..FirstColon(identity)] else identity
  }

  function FirstColon(s: string): (i: nat)
    requires ':' in s
    ensures i < |s| && s[i] == ':' && ':' !in s[..i]
  {
    if s[0] == ':' then 0 else
    var i := FirstColon(s[1..]);
    assert s[..i + 1] == [s[0]] + s[1..][..i];
    i + 1
  }

  function LiveUsers(identities: seq<string>): set<string> {
    set identity | identity in identities && LogicalIdentity(identity) != "" :: LogicalIdentity(identity)
  }

  predicate Candidate(p: Participant, now: int) {
    Present(p) && p.joinedAt.Some? && p.joinedAt.value < now - JOIN_GRACE
  }

  function ReconcileRow(online: set<string>, now: int, p: Participant): Participant {
    if !Candidate(p, now) then p
    else if p.user in online then
      if p.status == DISCONNECTED then p.(status := JOINED, leftAt := None) else p
    else if p.status == JOINED then p.(status := DISCONNECTED, leftAt := Some(now))
    else if p.leftAt.Some? && now - p.leftAt.value >= RECONNECT_GRACE then p.(status := LEFT)
    else p
  }

  function ReconcileRows(online: set<string>, failed: set<nat>, now: int,
      rows: seq<Participant>): (out: seq<Participant>)
    ensures |out| == |rows|
    ensures forall i | 0 <= i < |rows| :: out[i] == if i in failed then rows[i] else ReconcileRow(online, now, rows[i])
  {
    seq(|rows|, i requires 0 <= i < |rows| => if i in failed then rows[i] else ReconcileRow(online, now, rows[i]))
  }

  function DoModerateMeeting(s: State, e: Event): (State, Outcome)
    requires e.ModerateMeeting?
  {
    if !e.permitted then (s, Refused(403))
    else
      var m := match e.change
               case LOCK => s.meeting.(locked := true)
               case UNLOCK => s.meeting.(locked := false)
               case END => s.meeting.(status := ENDED, endedAt := Some(e.now));
      Written(s, s.(meeting := m), e.write, Done)
  }

  function DoDelete(s: State, e: Event): (State, Outcome)
    requires e.Delete?
  {
    if s.meeting.status == CANCELLED then (s, Refused(404))
    else if !e.permitted then (s, Refused(403))
    else if s.meeting.status == ACTIVE then (s, Refused(409))
    else Written(s, s.(meeting := s.meeting.(status := CANCELLED)), e.write, Done)
  }

  /** `LEAST(COALESCE(e,p,120),COALESCE(c,e,p,120))` in minutes. */
  function EffectiveLimit(l: Limits): int {
    var base := if l.override.Some? then l.override.value else if l.plan.Some? then l.plan.value else 120;
    var chosen := if l.setting.Some? then l.setting.value else base;
    if base <= chosen then base else chosen
  }

  /** A workspace can shorten what its plan allows and never extend it; an override replaces the plan's limit. */
  lemma SettingOnlyShortens(l: Limits)
    ensures EffectiveLimit(l) <= EffectiveLimit(l.(setting := None))
    ensures l.setting.Some? && l.setting.value < EffectiveLimit(l.(setting := None)) <==>
              EffectiveLimit(l) < EffectiveLimit(l.(setting := None))
    ensures l.setting.Some? ==> EffectiveLimit(l) <= l.setting.value
    ensures l.override.Some? ==> forall plan :: EffectiveLimit(l.(plan := plan)) == EffectiveLimit(l)
  {
  }

  predicate Expired(m: Meeting, limit: int, now: int) {
    m.status == ACTIVE && m.startedAt.Some? && m.startedAt.value + limit * MINUTE <= now
  }

  predicate AwaitsClose(m: Meeting) {
    m.status == ENDED && m.planLimit && m.roomClosedAt.None?
  }

  predicate Selected(m: Meeting, limit: int, now: int) {
    Expired(m, limit, now) || AwaitsClose(m)
  }

  function LeaveRow(p: Participant, now: int): Participant {
    if Live(p) then p.(status := LEFT, leftAt := if p.leftAt.Some? then p.leftAt else Some(now)) else p
  }

  function LeaveRows(rows: seq<Participant>, now: int): (out: seq<Participant>)
    ensures |out| == |rows|
    ensures forall i | 0 <= i < |rows| :: out[i] == LeaveRow(rows[i], now)
  {
    seq(|rows|, i requires 0 <= i < |rows| => LeaveRow(rows[i], now))
  }

  function AutoEnd(s: State, now: int): State {
    State(s.meeting.(status := ENDED, endedAt := Some(now), planLimit := true, autoEnds := s.meeting.autoEnds + 1),
          LeaveRows(s.rows, now))
  }

  function MarkClosed(m: Meeting, now: int): Meeting {
    if m.status == ENDED && m.planLimit
    then m.(roomClosedAt := if m.roomClosedAt.Some? then m.roomClosedAt else Some(now)) else m
  }

  function DoEnforce(s: State, e: Event): (State, Outcome)
    requires e.Enforce?
  {
    if !Selected(s.meeting, EffectiveLimit(e.limits), e.now) then (s, Done)
    else
      var active := s.meeting.status == ACTIVE;
      var ended := if active && !e.committed.RolledBack? then AutoEnd(s, e.now) else s;
      if active && !e.committed.Committed? then (ended, Refused(500))
      else if e.close == CloseFailed then (ended, Refused(502))
      else Written(ended, ended.(meeting := MarkClosed(ended.meeting, e.now)), e.recorded, Done)
  }

  function Handle(cfg: Config, s: State, e: Event): (State, Outcome) {
    match e
    case Join(_, _, _, _, _, _, _) => DoJoin(cfg, s, e)
    case Token(_, _, _, _) => DoToken(cfg, s, e)
    case Leave(_, _, _) => DoLeave(cfg, s, e)
    case Moderate(_, _, _, _, _) => DoModerate(s, e)
    case Reconcile(identities, failed, now) => (s.(rows := ReconcileRows(LiveUsers(identities), failed, now, s.rows)),
        Done)
    case ModerateMeeting(_, _, _, _) => DoModerateMeeting(s, e)
    case Delete(_, _, _) => DoDelete(s, e)
    case Enforce(_, _, _, _, _) => DoEnforce(s, e)
  }

  function Step(cfg: Config, s: State, e: Event): State {
    Handle(cfg, s, e).0
  }

  predicate Fresh(s: State) {
    && s.rows == []
    && (s.meeting.status == SCHEDULED || s.meeting.status == WAITING)
    && s.meeting == Meeting(s.meeting.status, s.meeting.locked, None, None, false, None, 0)
  }

  function Run(cfg: Config, s: State, es: seq<Event>): State {
    if es == [] then s else Step(cfg, Run(cfg, s, es[..|es| - 1]), es[|es| - 1])
  }

  // ---------- invariants ----------

  predicate Away(p: Participant) {
    p.status == DISCONNECTED || p.status == LEFT || p.status == REMOVED
  }

  predicate RowOk(cfg: Config, p: Participant) {
    && p.status != PRE_JOIN
    && p.external == External(cfg, p.user)
    && (p.leftAt.Some? <==> Away(p))
    && (Present(p) ==> p.joinedAt.Some?)
  }

  ghost predicate RowsOk(cfg: Config, rows: seq<Participant>) {
    && (forall i | 0 <= i < |rows| :: RowOk(cfg, rows[i]))
    && (forall i, j | 0 <= i < j < |rows| && rows[i].user == rows[j].user :: !Live(rows[i]))
  }

  ghost predicate MeetingOk(s: State) {
    var m := s.meeting;
    && (m.status == ACTIVE ==> m.startedAt.Some?)
    && (m.planLimit ==> (m.status == ENDED || m.status == CANCELLED) && m.autoEnds == 1
                        && forall i | 0 <= i < |s.rows| :: !Live(s.rows[i]))
    && (!m.planLimit ==> m.autoEnds == 0 && m.roomClosedAt.None?)
  }

  ghost predicate Inv(cfg: Config, s: State) {
    RowsOk(cfg, s.rows) && MeetingOk(s)
  }

  /** A handler call, read row by row: what may become of row `i`. */
  ghost predicate RowStep(p: Participant, p': Participant) {
    && p'.user == p.user && p'.external == p.external
    && (!Live(p) ==> p'.status == p.status && p'.leftAt == p.leftAt)
  }

  /** Rows keep their place and only a join adds one, for a user without a live row. */
  ghost predicate RowsFollow(cfg: Config, s: State, e: Event, s': State) {
    && |s.rows| <= |s'.rows| <= |s.rows| + 1
    && (forall i | 0 <= i < |s.rows| :: RowStep(s.rows[i], s'.rows[i]))
    && (forall i | 0 <= i < |s'.rows| :: RowOk(cfg, s'.rows[i]))
    && (|s'.rows| > |s.rows| ==>
          e.Join? && s'.rows[|s.rows|].user == e.user && s'.rows[|s.rows|].status == FirstStatus(cfg, e.user)
          && NewestLiveOf(cfg, s.rows, e.user) == |s.rows|)
  }

  lemma RowsKept(cfg: Config, s: State, e: Event, s': State)
    requires Inv(cfg, s) && s'.rows == s.rows
    ensures RowsFollow(cfg, s, e, s')
  {
  }

  lemma RowReplaced(cfg: Config, s: State, e: Event, s': State, i: nat, p: Participant)
    requires Inv(cfg, s) && i < |s.rows| && s'.rows == s.rows[i := p]
    requires RowOk(cfg, s.rows[i]) ==> RowOk(cfg, p) && RowStep(s.rows[i], p)
    ensures RowsFollow(cfg, s, e, s')
  {
    assert RowOk(cfg, s.rows[i]);
  }

  lemma JoinRows(cfg: Config, s: State, e: Event)
    requires Inv(cfg, s) && e.Join?
    ensures RowsFollow(cfg, s, e, Step(cfg, s, e))
  {
    var s' := DoJoin(cfg, s, e).0;
    if s'.rows == s.rows {
      RowsKept(cfg, s, e, s');
    } else {
      assert s'.rows == Upsert(cfg, s.rows, e.user, e.guestRole, e.now);
      var i := NewestLiveOf(cfg, s.rows, e.user);
      if i < |s.rows| { RowReplaced(cfg, s, e, s', i, s'.rows[i]); }
    }
  }

  lemma TokenRows(cfg: Config, s: State, e: Event)
    requires Inv(cfg, s) && e.Token?
    ensures RowsFollow(cfg, s, e, Step(cfg, s, e))
  {
    var s' := DoToken(cfg, s, e).0;
    if s'.rows == s.rows {
      RowsKept(cfg, s, e, s');
    } else {
      var i := NewestOf(cfg, s.rows, e.user);
      RowReplaced(cfg, s, e, s', i, s'.rows[i]);
    }
  }

  lemma LeaveRowsOf(cfg: Config, s: State, e: Event)
    requires Inv(cfg, s) && e.Leave?
    ensures RowsFollow(cfg, s, e, Step(cfg, s, e))
  {
    var s' := DoLeave(cfg, s, e).0;
    if s'.rows == s.rows {
      RowsKept(cfg, s, e, s');
    } else {
      var i := NewestLeavable(cfg, s.rows, e.user);
      RowReplaced(cfg, s, e, s', i, s'.rows[i]);
    }
  }

  lemma ModeratedRows(cfg: Config, s: State, e: Event)
    requires Inv(cfg, s) && e.Moderate?
    ensures RowsFollow(cfg, s, e, Step(cfg, s, e))
  {
    var s' := DoModerate(s, e).0;
    if s'.rows == s.rows {
      RowsKept(cfg, s, e, s');
    } else {
      RowReplaced(cfg, s, e, s', e.row, ActOn(s.rows[e.row], e.action, e.now));
    }
  }

  lemma ReconciledRows(cfg: Config, s: State, e: Event)
    requires Inv(cfg, s) && e.Reconcile?
    ensures RowsFollow(cfg, s, e, Step(cfg, s, e))
  {
    assert forall i | 0 <= i < |s.rows| :: RowOk(cfg, s.rows[i]);
  }

  lemma EnforcedRows(cfg: Config, s: State, e: Event)
    requires Inv(cfg, s) && e.Enforce?
    ensures RowsFollow(cfg, s, e, Step(cfg, s, e))
  {
    var s' := DoEnforce(s, e).0;
    if s'.rows == s.rows {
      RowsKept(cfg, s, e, s');
    } else {
      assert s'.rows == LeaveRows(s.rows, e.now);
      assert forall i | 0 <= i < |s.rows| :: RowOk(cfg, s.rows[i]);
    }
  }

  lemma StepRows(cfg: Config, s: State, e: Event)
    requires Inv(cfg, s)
    ensures RowsFollow(cfg, s, e, Step(cfg, s, e))
  {
    match e
    case Join(_, _, _, _, _, _, _) => JoinRows(cfg, s, e);
    case Token(_, _, _, _) => TokenRows(cfg, s, e);
    case Leave(_, _, _) => LeaveRowsOf(cfg, s, e);
    case Moderate(_, _, _, _, _) => ModeratedRows(cfg, s, e);
    case Reconcile(_, _, _) => ReconciledRows(cfg, s, e);
    case ModerateMeeting(_, _, _, _) => RowsKept(cfg, s, e, DoModerateMeeting(s, e).0);
    case Delete(_, _, _) => RowsKept(cfg, s, e, DoDelete(s, e).0);
    case Enforce(_, _, _, _, _) => EnforcedRows(cfg, s, e);
  }

  lemma RowsStep(cfg: Config, s: State, e: Event)
    requires Inv(cfg, s)
    ensures RowsOk(cfg, Step(cfg, s, e).rows)
  {
    var rows, rows' := s.rows, Step(cfg, s, e).rows;
    StepRows(cfg, s, e);
    forall i, j | 0 <= i < j < |rows'| && rows'[i].user == rows'[j].user
      ensures !Live(rows'[i])
    {
      assert RowStep(rows[i], rows'[i]);
      if j < |rows| {
        assert RowStep(rows[j], rows'[j]);
      } else {
        assert RowOk(cfg, rows[i]) && Mine(cfg, rows[i], e.user);
      }
    }
  }

  lemma MeetingStep(cfg: Config, s: State, e: Event)
    requires Inv(cfg, s)
    ensures MeetingOk(Step(cfg, s, e))
  {
    StepRows(cfg, s, e);
    var s' := Step(cfg, s, e);
    if s.meeting.planLimit {
      assert forall i | 0 <= i < |s.rows| :: RowStep(s.rows[i], s'.rows[i]);
    }
  }

  lemma StepKeepsInv(cfg: Config, s: State, e: Event)
    requires Inv(cfg, s)
    ensures Inv(cfg, Step(cfg, s, e))
  {
    RowsStep(cfg, s, e);
    MeetingStep(cfg, s, e);
  }

  lemma {:induction false} RunKeepsInv(cfg: Config, s: State, es: seq<Event>)
    requires Fresh(s) || Inv(cfg, s)
    ensures Inv(cfg, Run(cfg, s, es))
  {
    if es != [] {
      RunKeepsInv(cfg, s, es[..|es| - 1]);
      StepKeepsInv(cfg, Run(cfg, s, es[..|es| - 1]), es[|es| - 1]);
    }
  }

  // ---------- the participant table ----------

  /** A user's live row is the only one and the newest, so the token lookup finds it. */
  lemma LiveRowIsNewest(cfg: Config, s: State, es: seq<Event>, i: nat)
    requires Fresh(s) && i < |Run(cfg, s, es).rows| && Live(Run(cfg, s, es).rows[i])
    ensures var rows := Run(cfg, s, es).rows;
            && NewestOf(cfg, rows, rows[i].user) == i
            && NewestLiveOf(cfg, rows, rows[i].user) == i
            && forall j | 0 <= j < |rows| && j != i && rows[j].user == rows[i].user :: !Live(rows[j])
  {
    RunKeepsInv(cfg, s, es);
    var rows := Run(cfg, s, es).rows;
    assert RowOk(cfg, rows[i]) && Mine(cfg, rows[i], rows[i].user);
  }

  /** `left_at` is set exactly while the row is DISCONNECTED, LEFT or REMOVED. */
  lemma LeftAtExactlyWhenAway(cfg: Config, s: State, es: seq<Event>, i: nat)
    requires Fresh(s) && i < |Run(cfg, s, es).rows|
    ensures Run(cfg, s, es).rows[i].leftAt.Some? <==> Away(Run(cfg, s, es).rows[i])
  {
    RunKeepsInv(cfg, s, es);
    assert RowOk(cfg, Run(cfg, s, es).rows[i]);
  }

  lemma StepKeepsRow(cfg: Config, s: State, e: Event, i: nat)
    requires Inv(cfg, s) && i < |s.rows|
    ensures i < |Step(cfg, s, e).rows| && RowStep(s.rows[i], Step(cfg, s, e).rows[i])
  {
    StepRows(cfg, s, e);
  }

  /** Rows are never taken away, and a LEFT or REMOVED row keeps its status and its `left_at` for good. */
  lemma {:induction false} DepartureIsFinal(cfg: Config, s: State, es: seq<Event>, i: nat)
    requires Inv(cfg, s) && i < |s.rows|
    ensures i < |Run(cfg, s, es).rows| && RowStep(s.rows[i], Run(cfg, s, es).rows[i])
  {
    if es != [] {
      DepartureIsFinal(cfg, s, es[..|es| - 1], i);
      RunKeepsInv(cfg, s, es[..|es| - 1]);
      StepKeepsRow(cfg, Run(cfg, s, es[..|es| - 1]), es[|es| - 1], i);
    }
  }

  // ---------- no token without admission ----------

  /** Event `e` admits the waiting row `i`. */
  predicate Admits(s: State, e: Event, i: nat) {
    && e.Moderate? && e.permitted && e.row == i && e.action == ADMIT && !e.write.RolledBack?
    && i < |s.rows| && s.rows[i].status == WAITING_ROOM
  }

  ghost predicate AdmittedDuring(cfg: Config, s: State, es: seq<Event>, i: nat) {
    exists j: nat :: j < |es| && Admits(Run(cfg, s, es[..j]), es[j], i)
  }

  lemma BecomesPresent(cfg: Config, s: State, e: Event, i: nat)
    requires Inv(cfg, s) && i < |Step(cfg, s, e).rows| && Present(Step(cfg, s, e).rows[i])
    ensures i < |s.rows| ==> Present(s.rows[i]) || Admits(s, e, i)
    ensures i >= |s.rows| ==> FirstStatus(cfg, Step(cfg, s, e).rows[i].user) == JOINED
  {
    StepRows(cfg, s, e);
  }

  lemma {:induction false} PresentWasAdmitted(cfg: Config, s: State, es: seq<Event>, i: nat)
    requires Fresh(s) && cfg.waitingRoom && i < |Run(cfg, s, es).rows|
    requires Present(Run(cfg, s, es).rows[i]) && Run(cfg, s, es).rows[i].user != cfg.host
    ensures AdmittedDuring(cfg, s, es, i)
  {
    var n := |es| - 1;
    var before := Run(cfg, s, es[..n]);
    RunKeepsInv(cfg, s, es[..n]);
    StepRows(cfg, before, es[n]);
    BecomesPresent(cfg, before, es[n], i);
    if Admits(before, es[n], i) {
    } else {
      assert RowStep(before.rows[i], Run(cfg, s, es).rows[i]);
      PresentWasAdmitted(cfg, s, es[..n], i);
      var j: nat :| j < n && Admits(Run(cfg, s, es[..n][..j]), es[..n][j], i);
      assert es[..n][..j] == es[..j];
    }
  }

  /**
   In a waiting-room meeting, a user other than the host gets a token only if the very row it is
   for was admitted by a moderator after that row was inserted.
   */
  lemma TokenNeedsAdmission(cfg: Config, s: State, es: seq<Event>, e: Event)
    requires Fresh(s) && cfg.waitingRoom && e.Token? && e.user != cfg.host
    requires Handle(cfg, Run(cfg, s, es), e).1.Granted?
    ensures var i := Handle(cfg, Run(cfg, s, es), e).1.row;
            && i < |Run(cfg, s, es).rows|
            && Mine(cfg, Run(cfg, s, es).rows[i], e.user)
            && AdmittedDuring(cfg, s, es, i)
  {
    PresentWasAdmitted(cfg, s, es, NewestOf(cfg, Run(cfg, s, es).rows, e.user));
  }

  // ---------- reconciliation ----------

  lemma IdentityNames(identity: string, user: string)
    requires ':' !in user
    ensures LogicalIdentity(identity) == user <==> identity == user || user + ":" <= identity
  {
    if user + ":" <= identity {
      assert identity[|user|] == ':' && identity[..|user|] == user;
      assert forall k | 0 <= k < |user| :: identity[k] == user[k] != ':';
      assert forall k | 0 <= k < FirstColon(identity) :: identity[k] == identity[..FirstColon(identity)][k] != ':';
    } else if ':' in identity {
      assert identity[..FirstColon(identity) + 1] == identity[..FirstColon(identity)] + ":";
    }
  }

  /** Both identity formats name their user: the plain id, and the id before a colon. */
  lemma BothIdentityFormats(identities: seq<string>, user: string)
    requires user != "" && ':' !in user
    ensures user in LiveUsers(identities) <==>
              user in identities || exists identity <- identities :: user + ":" <= identity
  {
    forall identity <- identities
      ensures LogicalIdentity(identity) == user <==> identity == user || user + ":" <= identity
    {
      IdentityNames(identity, user);
    }
  }

  /** Reconciliation at event `j` takes row `i` from JOINED to DISCONNECTED. */
  ghost predicate Demotes(cfg: Config, s: State, es: seq<Event>, j: nat, i: nat) {
    && j < |es| && es[j].Reconcile? && i !in es[j].failed
    && var before := Run(cfg, s, es[..j]);
       && i < |before.rows| && before.rows[i].status == JOINED
       && Candidate(before.rows[i], es[j].now)
  }

  /** After every event from `j` up to `n`, row `i` is DISCONNECTED since `since`. */
  ghost predicate AwaySince(cfg: Config, s: State, es: seq<Event>, j: nat, n: nat, i: nat, since: int) {
    forall m | j < m <= n <= |es| :: AwayAt(Run(cfg, s, es[..m]), i, since)
  }

  lemma BecomesDisconnected(cfg: Config, s: State, e: Event, i: nat)
    requires Inv(cfg, s) && i < |Step(cfg, s, e).rows| && Step(cfg, s, e).rows[i].status == DISCONNECTED
    ensures i < |s.rows|
    ensures var p, p' := s.rows[i], Step(cfg, s, e).rows[i];
            || (p.status == DISCONNECTED && p'.leftAt == p.leftAt && p'.joinedAt == p.joinedAt)
            || (e.Reconcile? && i !in e.failed && p.status == JOINED && Candidate(p, e.now)
                && p'.leftAt == Some(e.now) && p'.joinedAt == p.joinedAt)
  {
    StepRows(cfg, s, e);
  }

  ghost predicate AwayAt(s: State, i: nat, since: int) {
    && i < |s.rows| && s.rows[i].status == DISCONNECTED && s.rows[i].leftAt == Some(since)
    && s.rows[i].joinedAt.Some? && s.rows[i].joinedAt.value < since - JOIN_GRACE
  }

  lemma DemotesEarlier(cfg: Config, s: State, es: seq<Event>, j: nat, i: nat)
    requires j < |es| - 1 && Demotes(cfg, s, es[..|es| - 1], j, i)
    ensures Demotes(cfg, s, es, j, i)
  {
    assert es[..|es| - 1][..j] == es[..j];
  }

  lemma AwayEarlier(cfg: Config, s: State, es: seq<Event>, j: nat, m: nat, i: nat, since: int)
    requires j < m < |es| && AwaySince(cfg, s, es[..|es| - 1], j, |es| - 1, i, since)
    ensures AwayAt(Run(cfg, s, es[..m]), i, since)
  {
    assert es[..|es| - 1][..m] == es[..m];
  }

  lemma AwayOneMore(cfg: Config, s: State, es: seq<Event>, j: nat, i: nat, since: int)
    requires j < |es| - 1 && AwaySince(cfg, s, es[..|es| - 1], j, |es| - 1, i, since)
    requires AwayAt(Run(cfg, s, es), i, since)
    ensures AwaySince(cfg, s, es, j, |es|, i, since)
  {
    assert es[..|es|] == es;
    forall m | j < m <= |es| ensures AwayAt(Run(cfg, s, es[..m]), i, since) {
      if m < |es| { AwayEarlier(cfg, s, es, j, m, i, since); }
    }
  }

  lemma AwayNow(cfg: Config, s: State, es: seq<Event>, j: nat, i: nat, since: int)
    requires j < |es| && AwaySince(cfg, s, es, j, |es|, i, since)
    ensures AwayAt(Run(cfg, s, es), i, since)
  {
    assert es[..|es|] == es;
  }

  lemma JustDemoted(cfg: Config, s: State, es: seq<Event>, i: nat)
    requires es != [] && Demotes(cfg, s, es, |es| - 1, i) && AwayAt(Run(cfg, s, es), i, es[|es| - 1].now)
    ensures AwaySince(cfg, s, es, |es| - 1, |es|, i, es[|es| - 1].now)
  {
    assert es[..|es|] == es;
  }

  lemma {:induction false} DisconnectedSince(cfg: Config, s: State, es: seq<Event>, i: nat) returns (j: nat)
    requires Fresh(s) && i < |Run(cfg, s, es).rows| && Run(cfg, s, es).rows[i].status == DISCONNECTED
    ensures Demotes(cfg, s, es, j, i) && AwaySince(cfg, s, es, j, |es|, i, es[j].now)
  {
    var n := |es| - 1;
    var before := Run(cfg, s, es[..n]);
    RunKeepsInv(cfg, s, es[..n]);
    BecomesDisconnected(cfg, before, es[n], i);
    if before.rows[i].status == DISCONNECTED {
      j := DisconnectedSince(cfg, s, es[..n], i);
      AwayNow(cfg, s, es[..n], j, i, es[j].now);
      DemotesEarlier(cfg, s, es, j, i);
      AwayOneMore(cfg, s, es, j, i, es[j].now);
    } else {
      j := n;
      JustDemoted(cfg, s, es, i);
    }
  }

  predicate ClockForward(es: seq<Event>) {
    forall j, k | 0 <= j < k < |es| :: es[j].now <= es[k].now
  }

  /**
   While a row stays DISCONNECTED its user was granted no token, and no pass that wrote the row saw
   the user online.
   */
  lemma NothingSeen(cfg: Config, s: State, es: seq<Event>, j: nat, m: nat, i: nat)
    requires Fresh(s) && j < m < |es| && AwaySince(cfg, s, es, j, |es|, i, es[j].now)
    ensures i < |Run(cfg, s, es[..m]).rows|
    ensures var before := Run(cfg, s, es[..m]);
            && (es[m].Token? && es[m].user == before.rows[i].user ==> !Handle(cfg, before, es[m]).1.Granted?)
            && (es[m].Reconcile? && i !in es[m].failed && es[j].now <= es[m].now ==>
                  before.rows[i].user !in LiveUsers(es[m].identities))
  {
    var before, after := Run(cfg, s, es[..m]), Run(cfg, s, es[..m + 1]);
    assert es[..m + 1][..m] == es[..m];
    assert i < |before.rows| && before.rows[i].status == DISCONNECTED;
    assert i < |after.rows| && after.rows[i].status == DISCONNECTED;
    LiveRowIsNewest(cfg, s, es[..m], i);
  }

  /**
   Reconciliation turns a row to LEFT only 2 minutes or more after the pass that last turned it
   to DISCONNECTED; in between its user was granted no token and no pass that wrote the row saw
   the user online.
   */
  lemma LeftOnlyAfterGrace(cfg: Config, s: State, es: seq<Event>, e: Event, i: nat) returns (j: nat)
    requires Fresh(s) && ClockForward(es) && e.Reconcile?
    requires i < |Run(cfg, s, es).rows| && Run(cfg, s, es).rows[i].status != LEFT
    requires Step(cfg, Run(cfg, s, es), e).rows[i].status == LEFT
    ensures Demotes(cfg, s, es, j, i) && e.now - es[j].now >= RECONNECT_GRACE
    ensures AwaySince(cfg, s, es, j, |es|, i, es[j].now)
    ensures forall m | j < m < |es| ::
              var before := Run(cfg, s, es[..m]);
              && i < |before.rows|
              && (es[m].Token? && es[m].user == before.rows[i].user ==> !Handle(cfg, before, es[m]).1.Granted?)
              && (es[m].Reconcile? && i !in es[m].failed ==> before.rows[i].user !in LiveUsers(es[m].identities))
  {
    j := DisconnectedSince(cfg, s, es, i);
    assert es[..|es|] == es;
    forall m | j < m < |es|
      ensures var before := Run(cfg, s, es[..m]);
              && i < |before.rows|
              && (es[m].Token? && es[m].user == before.rows[i].user ==> !Handle(cfg, before, es[m]).1.Granted?)
              && (es[m].Reconcile? && i !in es[m].failed ==> before.rows[i].user !in LiveUsers(es[m].identities))
    {
      NothingSeen(cfg, s, es, j, m, i);
    }
  }

  // ---------- the meeting ----------

  predicate Over(m: Meeting) {
    m.status == ENDED || m.status == CANCELLED
  }

  /** What is never taken back of a meeting. */
  predicate Keeps(m: Meeting, m': Meeting) {
    && (Over(m) ==> Over(m'))
    && (m.startedAt.Some? ==> m'.startedAt == m.startedAt)
    && (m.roomClosedAt.Some? ==> m'.roomClosedAt == m.roomClosedAt)
    && (m.planLimit ==> m'.planLimit)
  }

  lemma StepKeepsMeeting(cfg: Config, s: State, e: Event)
    requires Inv(cfg, s)
    ensures Keeps(s.meeting, Step(cfg, s, e).meeting)
  {
  }

  /** ENDED and CANCELLED are never left, `started_at` is written once, an auto-end leaves nobody in, ever. */
  lemma {:induction false} EndIsFinal(cfg: Config, s: State, es: seq<Event>)
    requires Inv(cfg, s)
    ensures var s' := Run(cfg, s, es);
            && Keeps(s.meeting, s'.meeting)
            && (s.meeting.planLimit ==> s'.meeting.autoEnds == 1 && forall i | 0 <= i < |s'.rows| :: !Live(s'.rows[i]))
  {
    RunKeepsInv(cfg, s, es);
    if es != [] {
      EndIsFinal(cfg, s, es[..|es| - 1]);
      RunKeepsInv(cfg, s, es[..|es| - 1]);
      StepKeepsMeeting(cfg, Run(cfg, s, es[..|es| - 1]), es[|es| - 1]);
    }
  }

  /**
   An event auto-ends a meeting exactly if it is a worker's committed pass and the effective limit
   has passed since the start.
   */
  lemma AutoEndsAtLimit(cfg: Config, s: State, e: Event)
    requires Inv(cfg, s) && !s.meeting.planLimit
    ensures Step(cfg, s, e).meeting.planLimit <==>
      && e.Enforce? && !e.committed.RolledBack? && s.meeting.status == ACTIVE
      && s.meeting.startedAt.value + EffectiveLimit(e.limits) * MINUTE <= e.now
  {
  }

  /** The room is recorded as closed only by a worker pass that closed it or found it closed. */
  lemma {:induction false} RoomClosedAfterClose(cfg: Config, s: State, es: seq<Event>)
    requires Fresh(s) && Run(cfg, s, es).meeting.roomClosedAt.Some?
    ensures exists j: nat :: j < |es| && es[j].Enforce? && es[j].close != CloseFailed
                             && Run(cfg, s, es).meeting.roomClosedAt == Some(es[j].now)
  {
    var before, e := Run(cfg, s, es[..|es| - 1]), es[|es| - 1];
    if before.meeting.roomClosedAt.Some? {
      RunKeepsInv(cfg, s, es[..|es| - 1]);
      RoomClosedAfterClose(cfg, s, es[..|es| - 1]);
    } else {
      assert e.Enforce? && e.close != CloseFailed;
    }
  }

  /**
   An auto-ended meeting whose room is still open is picked up by every worker pass unless it was
   cancelled; a failed close keeps it waiting, a successful one that is written down records the room
   as closed.
   */
  lemma RetriedUntilClosed(cfg: Config, s: State, e: Event)
    requires Inv(cfg, s) && s.meeting.planLimit && s.meeting.roomClosedAt.None? && e.Enforce?
    ensures Selected(s.meeting, EffectiveLimit(e.limits), e.now) <==> s.meeting.status != CANCELLED
    ensures var m' := Step(cfg, s, e).meeting;
            var recorded := s.meeting.status != CANCELLED && e.close != CloseFailed && !e.recorded.RolledBack?;
            m'.roomClosedAt == if recorded then Some(e.now) else None
    ensures Step(cfg, s, e).rows == s.rows && Step(cfg, s, e).meeting.autoEnds == 1
  {
  }

  // ---------- the handlers ----------

  /** What a pass does, with everything else about a step left aside. */
  lemma ReconcileKeepsInv(cfg: Config, s: State, identities: seq<string>, failed: set<nat>, now: int)
    requires Inv(cfg, s)
    ensures var after := s.(rows := ReconcileRows(LiveUsers(identities), failed, now, s.rows));
            Step(cfg, s, Reconcile(identities, failed, now)) == after && Inv(cfg, after)
  {
    StepKeepsInv(cfg, s, Reconcile(identities, failed, now));
  }

  class MeetingRoom {
    const cfg: Config
    var meeting: Meeting
    var rows: seq<Participant>

    ghost predicate Valid()
      reads this
    {
      Inv(cfg, Now())
    }

    constructor (cfg: Config, scheduled: bool)
      ensures Valid() && this.cfg == cfg && Fresh(Now())
    {
      this.cfg := cfg;
      meeting := Meeting(if scheduled then SCHEDULED else WAITING, false, None, None, false, None, 0);
      rows := [];
    }

    function Now(): State
      reads this
    {
      State(meeting, rows)
    }

    method JoinMeeting(
      user: string, guestRole: bool, guestAccess: bool, consent: bool,
      inserted: CommitOutcome, activated: CommitOutcome, now: int)
      returns (outcome: Outcome)
      requires Valid()
      modifies this
      ensures Valid()
      ensures (Now(), outcome) == Handle(cfg, old(Now()),
          Join(user, guestRole, guestAccess, consent, inserted, activated, now))
    {
      StepKeepsInv(cfg, Now(), Join(user, guestRole, guestAccess, consent, inserted, activated, now));
      if !consent { return Refused(400); }
      if meeting.status == CANCELLED { return Refused(404); }
      if (External(cfg, user) || guestRole) && !guestAccess { return Refused(403); }
      if meeting.status == ENDED { return Refused(409); }
      if meeting.locked && user != cfg.host { return Refused(423); }
      var status := if cfg.waitingRoom && cfg.host != user then WAITING_ROOM else JOINED;
      var role := MEMBER;
      if cfg.host == user {
        role := HOST;
      } else if External(cfg, user) || guestRole {
        role := GUEST;
      }
      if !inserted.RolledBack? { InsertOrRefresh(user, role, status, guestRole, now); }
      if !inserted.Committed? { return Refused(500); }
      if cfg.host == user && meeting.status != ACTIVE {
        if !activated.RolledBack? && (meeting.status == SCHEDULED || meeting.status == WAITING) {
          meeting := meeting.(
            status := ACTIVE, startedAt := if meeting.startedAt.Some? then meeting.startedAt else Some(now));
        }
        if !activated.Committed? { return Refused(500); }
      }
      outcome := Done;
    }

    /** The upsert of the participant row. */
    method InsertOrRefresh(user: string, role: Role, status: Status, ghost guestRole: bool, now: int)
      requires role == JoinRole(cfg, user, guestRole) && status == FirstStatus(cfg, user)
      modifies this`rows
      ensures rows == Upsert(cfg, old(rows), user, guestRole, now)
    {
      var conflict := NewestLiveOf(cfg, rows, user);
      if conflict == |rows| {
        var joinedAt := if status == JOINED then Some(now) else None;
        rows := rows + [Participant(user, External(cfg, user), role, status, joinedAt, None)];
      } else if !External(cfg, user) && rows[conflict].role != CO_HOST {
        rows := rows[conflict := rows[conflict].(role := role)];
      }
    }

    method LiveKitToken(user: string, issuable: bool, write: CommitOutcome, now: int) returns (outcome: Outcome)
      requires Valid()
      modifies this
      ensures Valid()
      ensures (Now(), outcome) == Handle(cfg, old(Now()), Token(user, issuable, write, now))
    {
      StepKeepsInv(cfg, Now(), Token(user, issuable, write, now));
      if meeting.status == CANCELLED { return Refused(404); }
      var i := NewestOf(cfg, rows, user);
      if i == |rows| { return Refused(403); }
      var status := rows[i].status;
      if status != JOINED && status != DISCONNECTED { return Refused(403); }
      if status == DISCONNECTED {
        if !write.RolledBack? {
          rows := rows[i := rows[i].(status := JOINED, joinedAt := Some(now), leftAt := None)];
        }
        if !write.Committed? { return Refused(500); }
      }
      if !issuable { return Refused(503); }
      outcome := Granted(i);
    }

    method LeaveMeeting(user: string, write: CommitOutcome, now: int) returns (outcome: Outcome)
      requires Valid()
      modifies this
      ensures Valid()
      ensures (Now(), outcome) == Handle(cfg, old(Now()), Leave(user, write, now))
    {
      StepKeepsInv(cfg, Now(), Leave(user, write, now));
      if meeting.status == CANCELLED { return Refused(404); }
      var i := NewestLeavable(cfg, rows, user);
      if i < |rows| && !write.RolledBack? {
        rows := rows[i := rows[i].(status := LEFT, leftAt := Some(now))];
      }
      outcome := if write.Committed? then Done else Refused(500);
    }

    method ModerateParticipant(permitted: bool, row: nat, action: Action, write: CommitOutcome, now: int)
        returns (outcome: Outcome)
      requires Valid()
      modifies this
      ensures Valid()
      ensures (Now(), outcome) == Handle(cfg, old(Now()), Moderate(permitted, row, action, write, now))
    {
      StepKeepsInv(cfg, Now(), Moderate(permitted, row, action, write, now));
      if !permitted { return Refused(403); }
      if row >= |rows| { return Refused(404); }
      var p := rows[row];
      var affected := false;
      match action {
        case ADMIT =>
          if p.status == WAITING_ROOM {
            affected, p := true, p.(status := JOINED, joinedAt := if p.joinedAt.Some? then p.joinedAt else Some(now));
          }
        case REJECT =>
          if Live(p) && p.role != HOST { affected, p := true, p.(status := REMOVED, leftAt := Some(now)); }
        case REMOVE =>
          if Live(p) && p.role != HOST { affected, p := true, p.(status := REMOVED, leftAt := Some(now)); }
        case PROMOTE =>
          if p.status == JOINED && p.role == MEMBER { affected, p := true, p.(role := CO_HOST); }
      }
      if affected && !write.RolledBack? { rows := rows[row := p]; }
      if !write.Committed? { return Refused(500); }
      outcome := if affected then Done else Refused(409);
    }

    /** The candidates the query finds, in row order. */
    method FindCandidates(now: int) returns (candidates: seq<nat>)
      ensures forall c | 0 <= c < |candidates| :: candidates[c] < |rows|
      ensures forall i | 0 <= i < |rows| :: i in candidates <==> Candidate(rows[i], now)
      ensures forall c, d | 0 <= c < d < |candidates| :: candidates[c] != candidates[d]
    {
      candidates := [];
      for k := 0 to |rows|
        invariant forall c | 0 <= c < |candidates| :: candidates[c] < k
        invariant forall i | 0 <= i < k :: i in candidates <==> Candidate(rows[i], now)
        invariant forall c, d | 0 <= c < d < |candidates| :: candidates[c] != candidates[d]
      {
        if Candidate(rows[k], now) {
          candidates := candidates + [k];
        }
      }
    }

    method CollectLiveUsers(identities: seq<string>) returns (liveUsers: set<string>)
      ensures liveUsers == LiveUsers(identities)
    {
      liveUsers := {};
      for k := 0 to |identities|
        invariant liveUsers == LiveUsers(identities[..k])
      {
        assert identities[..k + 1] == identities[..k] + [identities[k]];
        var identity := LogicalIdentity(identities[k]);
        if identity != "" {
          liveUsers := liveUsers + {identity};
        }
      }
      assert identities[..|identities|] == identities;
    }

    /** Collects the live users and the candidates first, then updates the candidates one by one, whatever fails. */
    method ReconcileRealtime(identities: seq<string>, failed: set<nat>, now: int)
      requires Valid()
      modifies this
      ensures Valid()
      ensures Now() == Step(cfg, old(Now()), Reconcile(identities, failed, now))
    {
      ReconcileKeepsInv(cfg, Now(), identities, failed, now);
      var liveUsers := CollectLiveUsers(identities);
      var candidates := FindCandidates(now);
      UpdateCandidates(liveUsers, candidates, failed, now);
    }

    method UpdateCandidates(liveUsers: set<string>, candidates: seq<nat>, failed: set<nat>, now: int)
      requires forall c | 0 <= c < |candidates| :: candidates[c] < |rows|
      requires forall i | 0 <= i < |rows| :: i in candidates <==> Candidate(rows[i], now)
      requires forall c, d | 0 <= c < d < |candidates| :: candidates[c] != candidates[d]
      modifies this`rows
      ensures rows == ReconcileRows(liveUsers, failed, now, old(rows))
    {
      for c := 0 to |candidates|
        invariant |rows| == |old(rows)|
        invariant forall i | 0 <= i < |rows| ::
            rows[i] == if i in candidates[..c] && i !in failed then ReconcileRow(liveUsers, now, old(rows)[i])
                else old(rows)[i]
      {
        var i := candidates[c];
        assert candidates[..c + 1] == candidates[..c] + [i] && i !in candidates[..c];
        var p := rows[i];
        if p.user in liveUsers {
          if p.status == DISCONNECTED {
            p := p.(status := JOINED, leftAt := None);
          }
        } else if p.status == JOINED {
          p := p.(status := DISCONNECTED, leftAt := Some(now));
        } else if p.leftAt.Some? && now - p.leftAt.value >= RECONNECT_GRACE {
          p := p.(status := LEFT);
        }
        if i !in failed { rows := rows[i := p]; }
      }
      assert candidates[..|candidates|] == candidates;
      assert rows == ReconcileRows(liveUsers, failed, now, old(rows));
    }

    method ModerateMeeting(permitted: bool, change: MeetingAction, write: CommitOutcome, now: int)
        returns (outcome: Outcome)
      requires Valid()
      modifies this
      ensures Valid()
      ensures (Now(), outcome) == Handle(cfg, old(Now()), Event.ModerateMeeting(permitted, change, write, now))
    {
      StepKeepsInv(cfg, Now(), Event.ModerateMeeting(permitted, change, write, now));
      if !permitted { return Refused(403); }
      if !write.RolledBack? {
        match change {
          case LOCK => meeting := meeting.(locked := true);
          case UNLOCK => meeting := meeting.(locked := false);
          case END => meeting := meeting.(status := ENDED, endedAt := Some(now));
        }
      }
      outcome := if write.Committed? then Done else Refused(500);
    }

    method DeleteMeeting(permitted: bool, write: CommitOutcome, now: int) returns (outcome: Outcome)
      requires Valid()
      modifies this
      ensures Valid()
      ensures (Now(), outcome) == Handle(cfg, old(Now()), Delete(permitted, write, now))
    {
      StepKeepsInv(cfg, Now(), Delete(permitted, write, now));
      if meeting.status == CANCELLED { return Refused(404); }
      if !permitted { return Refused(403); }
      if meeting.status == ACTIVE { return Refused(409); }
      if !write.RolledBack? {
        meeting := meeting.(status := CANCELLED);
      }
      outcome := if write.Committed? then Done else Refused(500);
    }

    /** A worker item: end the meeting in one transaction, then close its room, then record that. */
    method EnforceDuration(limits: Limits, committed: CommitOutcome, close: Close, recorded: CommitOutcome, now: int)
      returns (outcome: Outcome)
      requires Valid()
      modifies this
      ensures Valid()
      ensures (Now(), outcome) == Handle(cfg, old(Now()), Enforce(limits, committed, close, recorded, now))
    {
      StepKeepsInv(cfg, Now(), Enforce(limits, committed, close, recorded, now));
      if !Selected(meeting, EffectiveLimit(limits), now) { return Done; }
      if meeting.status == ACTIVE {
        if !committed.RolledBack? {
          meeting := meeting.(
            status := ENDED, endedAt := Some(now), planLimit := true, autoEnds := meeting.autoEnds + 1);
          rows := LeaveRows(rows, now);
        }
        if !committed.Committed? { return Refused(500); }
      }
      if close == CloseFailed { return Refused(502); }
      if meeting.status == ENDED && meeting.planLimit && !recorded.RolledBack? {
        meeting := meeting.(roomClosedAt := if meeting.roomClosedAt.Some? then meeting.roomClosedAt else Some(now));
      }
      outcome := if recorded.Committed? then Done else Refused(500);
    }
  }
}
