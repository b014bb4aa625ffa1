/**
 Plan entitlements: the general quota check loads the plan, folds every override row into it
 and compares; the meeting check reads one row with one query.  Override rows come in any
 order, but a tenant has at most one row a key.
 */
module Plans {
  import opened Options
  import opened Subscriptions

  datatype Key =
    | UsersMax | MeetingsMonthly | MeetingDurationMinutes | StorageBytes | RecordingsMonthly
    | Feature(name: string)

  /** A row of `tenant_entitlements`; both values may be NULL. */
  datatype Override = Override(key: Key, enabled: Option<bool>, limit: Option<int>)

  /** `features` is `None` when the plan's JSON does not decode to an object: the Go map stays nil. */
  datatype Plan = Plan(
    maxUsers: int, maxMeetings: int, maxDuration: int, maxStorage: int, maxRecordings: int,
    features: Option<map<Key, bool>>)

  datatype Usage = Usage(users: int, meetings: int, storage: int, recordings: int)

  datatype Resource = Users | Meetings | Recordings | Storage | Drive | ChatAttachments | Unknown

  /** `Crashed`: an assignment into the nil features map. */
  datatype Verdict = Allowed | Denied(status: nat, code: string) | Unsupported | Crashed

  // ---------- the general path ----------

  function ApplyLimit(plan: Plan, key: Key, value: int): Plan {
    match key
    case UsersMax => plan.(maxUsers := value)
    case MeetingsMonthly => plan.(maxMeetings := value)
    case MeetingDurationMinutes => plan.(maxDuration := value)
    case StorageBytes => plan.(maxStorage := value)
    case RecordingsMonthly => plan.(maxRecordings := value)
    case Feature(_) => plan
  }

  function ApplyOverride(plan: Plan, o: Override): Option<Plan> {
    if o.enabled.Some? && plan.features.None? then None
    else
      var plan1 := if o.enabled.Some? then plan.(features := Some(plan.features.value[o.key := o.enabled.value]))
          else plan;
      Some(if o.limit.Some? then ApplyLimit(plan1, o.key, o.limit.value) else plan1)
  }

  /** The override loop, in row order. */
  function Fold(plan: Plan, rows: seq<Override>): Option<Plan> {
    if rows == [] then Some(plan)
    else
      var before := Fold(plan, rows[..|rows| - 1]);
      if before.None? then None else ApplyOverride(before.value, rows[|rows| - 1])
  }

  function Included(plan: Plan, key: Key): bool {
    plan.features.Some? && key in plan.features.value && plan.features.value[key]
  }

  function Inactive(): Verdict {
    Denied(402, "SUBSCRIPTION_INACTIVE")
  }

  function Compare(used: int, increment: int, limit: int): Verdict {
    if used + increment > limit then Denied(402, "QUOTA_EXCEEDED") else Allowed
  }

  function General(sub: Subscription, plan: Plan, rows: seq<Override>, usage: Usage, resource: Resource,
    increment: int, now: int): Verdict {
    var loaded := Fold(plan, rows);
    if loaded.None? then Crashed
    else if !Entitled(sub, now) then Inactive()
    else
      var p := loaded.value;
      match resource
      case Users => Compare(usage.users, increment, p.maxUsers)
      case Meetings => Compare(usage.meetings, increment, p.maxMeetings)
      case Recordings =>
        if !Included(p, Feature("recording")) then Denied(403, "FEATURE_NOT_INCLUDED")
        else Compare(usage.recordings, increment, p.maxRecordings)
      case Storage => Compare(usage.storage, increment, p.maxStorage)
      case Drive =>
        if !Included(p, Feature("drive")) then Denied(403, "FEATURE_NOT_INCLUDED")
        else Compare(usage.storage, increment, p.maxStorage)
      case ChatAttachments =>
        if !Included(p, Feature("chatAttachments")) then Denied(403, "FEATURE_NOT_INCLUDED")
        else Compare(usage.storage, increment, p.maxStorage)
      case Unknown => Unsupported
  }

  // ---------- the meeting fast path ----------

  /** `LEFT JOIN tenant_entitlements` on one key: the limit of its row, or NULL. */
  function JoinedLimit(rows: seq<Override>, key: Key): Option<int> {
    if rows == [] then None
    else if rows[0].key == key then rows[0].limit
    else JoinedLimit(rows[1..], key)
  }

  function MeetingQuota(sub: Subscription, plan: Plan, rows: seq<Override>, usage: Usage, increment: int,
      now: int): Verdict {
    var joined := JoinedLimit(rows, MeetingsMonthly);
    if !Entitled(sub, now) then Inactive()
    else Compare(usage.meetings, increment, if joined.Some? then joined.value else plan.maxMeetings)
  }

  // ---------- what the fold means, whatever the order ----------

  ghost predicate UniqueKeys(rows: seq<Override>) {
    forall i, j | 0 <= i < j < |rows| :: rows[i].key != rows[j].key
  }

  function Limit(plan: Plan, key: Key): int {
    match key
    case UsersMax => plan.maxUsers
    case MeetingsMonthly => plan.maxMeetings
    case MeetingDurationMinutes => plan.maxDuration
    case StorageBytes => plan.maxStorage
    case RecordingsMonthly => plan.maxRecordings
    case Feature(_) => 0
  }

  function Enabling(rows: seq<Override>): bool {
    exists o <- rows :: o.enabled.Some?
  }

  /** The loop crashes exactly if the plan has no features object and some row switches a feature. */
  lemma {:induction false} FoldCrashes(plan: Plan, rows: seq<Override>)
    ensures Fold(plan, rows).None? <==> plan.features.None? && Enabling(rows)
    ensures Fold(plan, rows).Some? ==> (Fold(plan, rows).value.features.None? <==> plan.features.None?)
  {
    if rows != [] {
      var before, last := rows[..|rows| - 1], rows[|rows| - 1];
      FoldCrashes(plan, before);
      assert forall o <- rows :: o in before || o == last;
    }
  }

  lemma {:induction false} FoldLimits(plan: Plan, rows: seq<Override>, key: Key)
    requires UniqueKeys(rows) && Fold(plan, rows).Some? && !key.Feature?
    ensures forall o <- rows :: o.key == key && o.limit.Some? ==> Limit(Fold(plan, rows).value, key) == o.limit.value
    ensures (forall o <- rows :: o.key == key ==> o.limit.None?) ==>
        Limit(Fold(plan, rows).value, key) == Limit(plan, key)
  {
    if rows != [] {
      var before, last := rows[..|rows| - 1], rows[|rows| - 1];
      FoldLimits(plan, before, key);
      assert forall o <- rows :: o in before || o == last;
      assert forall o <- before :: o in rows && o.key != last.key;
    }
  }

  lemma {:induction false} FoldFeatures(plan: Plan, rows: seq<Override>, key: Key)
    requires UniqueKeys(rows) && Fold(plan, rows).Some? && plan.features.Some?
    ensures Fold(plan, rows).value.features.Some?
    ensures var f, f' := plan.features.value, Fold(plan, rows).value.features.value;
            && (forall o <- rows :: o.key == key && o.enabled.Some? ==> key in f' && f'[key] == o.enabled.value)
            && ((forall o <- rows :: o.key == key ==> o.enabled.None?) ==>
                  (key in f' <==> key in f) && (key in f ==> f'[key] == f[key]))
  {
    if rows != [] {
      var before, last := rows[..|rows| - 1], rows[|rows| - 1];
      FoldFeatures(plan, before, key);
      assert forall o <- rows :: o in before || o == last;
      assert forall o <- before :: o in rows && o.key != last.key;
    }
  }

  /** Override rows may be read in any order. */
  lemma OrderDoesNotMatter(plan: Plan, rows: seq<Override>, others: seq<Override>)
    requires UniqueKeys(rows) && UniqueKeys(others)
    requires forall o :: o in rows <==> o in others
    ensures Fold(plan, rows) == Fold(plan, others)
  {
    FoldCrashes(plan, rows);
    FoldCrashes(plan, others);
    if Fold(plan, rows).Some? {
      var p, q := Fold(plan, rows).value, Fold(plan, others).value;
      forall key: Key | !key.Feature?
        ensures Limit(p, key) == Limit(q, key)
      {
        FoldLimits(plan, rows, key);
        FoldLimits(plan, others, key);
      }
      assert Limit(p, UsersMax) == Limit(q, UsersMax) && Limit(p, MeetingsMonthly) == Limit(q, MeetingsMonthly);
      assert Limit(p, MeetingDurationMinutes) == Limit(q, MeetingDurationMinutes);
      assert Limit(p, StorageBytes) == Limit(q, StorageBytes)
          && Limit(p, RecordingsMonthly) == Limit(q, RecordingsMonthly);
      if plan.features.Some? {
        forall key: Key
          ensures key in p.features.value <==> key in q.features.value
          ensures key in p.features.value ==> p.features.value[key] == q.features.value[key]
        {
          FoldFeatures(plan, rows, key);
          FoldFeatures(plan, others, key);
        }
        FoldFeatures(plan, rows, UsersMax);
        FoldFeatures(plan, others, UsersMax);
        assert p.features.value == q.features.value;
      }
    }
  }

  lemma {:induction false} JoinFindsRow(rows: seq<Override>, key: Key)
    requires UniqueKeys(rows)
    ensures forall o <- rows :: o.key == key ==> JoinedLimit(rows, key) == o.limit
    ensures (forall o <- rows :: o.key != key) ==> JoinedLimit(rows, key) == None
  {
    if rows != [] {
      JoinFindsRow(rows[1..], key);
      assert forall o <- rows :: o == rows[0] || o in rows[1..];
      assert forall o <- rows[1..] :: o.key != rows[0].key;
    }
  }

  /**
   The fast path gives the verdict of the general path for every plan, every set of override rows
   in any order and every clock value, except exactly where the general path would crash.
   */
  lemma FastPathAgrees(sub: Subscription, plan: Plan, rows: seq<Override>, shuffled: seq<Override>, usage: Usage,
      increment: int, now: int)
    requires UniqueKeys(rows) && UniqueKeys(shuffled) && forall o :: o in rows <==> o in shuffled
    ensures var fast := MeetingQuota(sub, plan, rows, usage, increment, now);
      fast == General(sub, plan, shuffled, usage, Meetings, increment, now)
      <==> !(plan.features.None? && Enabling(rows))
  {
    FoldCrashes(plan, rows);
    OrderDoesNotMatter(plan, rows, shuffled);
    JoinFindsRow(rows, MeetingsMonthly);
    if Fold(plan, rows).Some? {
      FoldLimits(plan, rows, MeetingsMonthly);
    }
  }

  /** A plan without a features object and one row that switches a feature: the two paths part. */
  lemma GeneralPathCrashes(sub: Subscription, plan: Plan, usage: Usage, now: int)
    requires plan.features.None? && Entitled(sub, now) && usage.meetings + 1 <= plan.maxMeetings
    ensures var rows := [Override(Feature("recording"), Some(true), None)];
      General(sub, plan, rows, usage, Meetings, 1, now) == Crashed
          && MeetingQuota(sub, plan, rows, usage, 1, now) == Allowed
  {
    var rows := [Override(Feature("recording"), Some(true), None)];
    assert rows[..0] == [] && rows[1..] == [];
    assert Fold(plan, rows[..0]) == Some(plan);
  }

  // ---------- the override loop ----------

  class PlanEntitlements {
    var maxUsers: int
    var maxMeetings: int
    var maxDuration: int
    var maxStorage: int
    var maxRecordings: int
    var features: Option<map<Key, bool>>

    constructor (plan: Plan)
      ensures Value() == plan
    {
      maxUsers, maxMeetings, maxDuration := plan.maxUsers, plan.maxMeetings, plan.maxDuration;
      maxStorage, maxRecordings, features := plan.maxStorage, plan.maxRecordings, plan.features;
    }

    function Value(): Plan
      reads this
    {
      Plan(maxUsers, maxMeetings, maxDuration, maxStorage, maxRecordings, features)
    }

    method ApplyLimitOverride(key: Key, value: int)
      modifies this
      ensures Value() == ApplyLimit(old(Value()), key, value)
    {
      match key
      case UsersMax => maxUsers := value;
      case MeetingsMonthly => maxMeetings := value;
      case MeetingDurationMinutes => maxDuration := value;
      case StorageBytes => maxStorage := value;
      case RecordingsMonthly => maxRecordings := value;
      case Feature(_) =>
    }

    method LoadOverrides(rows: seq<Override>) returns (crashed: bool)
      modifies this
      ensures crashed <==> Fold(old(Value()), rows).None?
      ensures !crashed ==> Value() == Fold(old(Value()), rows).value
    {
      for n := 0 to |rows|
        invariant Fold(old(Value()), rows[..n]) == Some(Value())
      {
        assert rows[..n + 1][..n] == rows[..n];
        var row := rows[n];
        if row.enabled.Some? {
          if features.None? {
            FoldCrashes(old(Value()), rows);
            FoldCrashes(old(Value()), rows[..n + 1]);
            assert row in rows;
            return true;
          }
          features := Some(features.value[row.key := row.enabled.value]);
        }
        if row.limit.Some? {
          ApplyLimitOverride(row.key, row.limit.value);
        }
      }
      assert rows[..|rows|] == rows;
      crashed := false;
    }
  }
}
