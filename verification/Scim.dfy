/**
 SCIM group and user updates.  A PATCH runs its operations in one transaction, member by member;
 the reference for a member operation is a single set operation.  Module ScimRfc compares it with
 section 3.5.2 of RFC 7644.
 User ids are UUIDs in canonical lower case; `Env.uuid` says which strings the database can read
 as one.
 */
module Scim {
  import opened Options

  datatype Verb = Add | Remove | Replace | OtherVerb

  /** The `value` of an operation as far as the handlers decode it. */
  datatype Json =
    | Missing | Null | Bool(b: bool) | Text(s: string)
    | Members(values: seq<string>) | Wrapped(values: seq<string>) | Other

  datatype Operation = Operation(verb: Verb, path: string, value: Json)

  datatype Group = Group(name: string, external: Option<string>, managed: bool, members: set<string>)

  /** What else the tenant holds: users that may be members, and names and external ids of other groups or users. */
  datatype Env = Env(eligible: set<string>, uuid: string -> bool, names: set<string>, externals: set<string>)

  ghost predicate Sound(env: Env) {
    forall u :: u in env.eligible ==> env.uuid(u)
  }

  // ---------- decoding ----------

  function TextOf(v: Json): string {
    if v.Text? then v.s else ""
  }

  function NonBlank(values: seq<string>): seq<string> {
    if values == [] then [] else (if values[0] != "" then [values[0]] else []) + NonBlank(values[1..])
  }

  function PatchMembers(v: Json): seq<string> {
    match v
    case Members(values) => NonBlank(values)
    case Wrapped(values) => NonBlank(values)
    case _ => []
  }

  const FILTER := "value eq \""

  predicate Occurs(s: string, needle: string, k: int) {
    0 <= k && k + |needle| <= |s| && s[k..k + |needle|] == needle
  }

  /** `strings.Index`: where `needle` first occurs at or after `i`. */
  function IndexFrom(s: string, needle: string, i: nat): (r: Option<nat>)
    requires i <= |s|
    ensures r.Some? ==> i <= r.value && r.value + |needle| <= |s|
    decreases |s| - i
  {
    if Occurs(s, needle, i) then Some(i) else if i == |s| then None else IndexFrom(s, needle, i + 1)
  }

  lemma {:induction false} IndexFromIsFirst(s: string, needle: string, i: nat, n: nat)
    requires i <= n <= |s| && Occurs(s, needle, n) && forall k :: i <= k < n ==> !Occurs(s, needle, k)
    ensures IndexFrom(s, needle, i) == Some(n)
    decreases n - i
  {
    if i < n { IndexFromIsFirst(s, needle, i + 1, n); }
  }

  function UpToQuote(s: string): string {
    var end := IndexFrom(s, "\"", 0);
    if end.None? then "" else s[..end.value]
  }

  function MemberFromFilter(path: string): string {
    var start := IndexFrom(path, FILTER, 0);
    if start.None? then "" else UpToQuote(path[start.value + |FILTER|..])
  }

  /** The filter form names exactly the id written between its quotes. */
  lemma FilterNamesMember(id: string)
    requires '\"' !in id
    ensures "members" <= "members[" + FILTER + id + "\"]"
    ensures MemberFromFilter("members[" + FILTER + id + "\"]") == id
  {
    var head := "members[";
    var path := head + FILTER + id + "\"]";
    var n := |head|;
    assert Occurs(path, FILTER, n);
    forall k | 0 <= k < n ensures !Occurs(path, FILTER, k) {
      NoFilterInHead(path, k);
    }
    IndexFromIsFirst(path, FILTER, 0, n);
    var value := path[n + |FILTER|..];
    assert value == id + "\"]";
    assert Occurs(value, "\"", |id|);
    forall k | 0 <= k < |id| ensures !Occurs(value, "\"", k) {
      assert value[k] == id[k] && id[k] in id;
    }
    IndexFromIsFirst(value, "\"", 0, |id|);
  }

  lemma NoFilterInHead(path: string, k: nat)
    requires "members[" <= path && k < |"members["|
    ensures !Occurs(path, FILTER, k)
  {
    OccursStart(path, FILTER, k);
    assert path[k] == "members["[k];
  }

  lemma OccursStart(s: string, needle: string, k: nat)
    requires needle != "" && k < |s|
    ensures Occurs(s, needle, k) ==> s[k] == needle[0]
  {
    if Occurs(s, needle, k) { assert s[k..k + |needle|][0] == needle[0]; }
  }

  // ---------- one operation as a set operation ----------

  function ToSet(s: seq<string>): set<string> {
    set u | u in s
  }

  predicate NamesDisplay(op: Operation) {
    op.path == "displayname" && op.verb == Replace
  }

  /** The users a member operation is about. */
  function Targets(op: Operation): seq<string> {
    var listed := PatchMembers(op.value);
    if op.verb == Remove && listed == [] then
      (var named := MemberFromFilter(op.path); if named != "" then [named] else [])
    else listed
  }

  predicate Acceptable(g: Group, op: Operation, env: Env) {
    var who := ToSet(Targets(op));
    match op.verb
    case Add => who <= env.eligible + g.members
    case Replace => who <= env.eligible
    case Remove => forall u :: u in who ==> env.uuid(u)
    case OtherVerb => who == {}
  }

  function PatchOne(g: Group, op: Operation, env: Env): Option<Group> {
    if NamesDisplay(op) then
      (var name := TextOf(op.value);
       if |name| < 2 || name in env.names then None else Some(g.(name := name)))
    else if !("members" <= op.path) || !Acceptable(g, op, env) then None
    else
      var who := ToSet(Targets(op));
      Some(g.(members :=
        match op.verb
        case Add => g.members + who
        case Replace => who
        case Remove => g.members - who
        case OtherVerb => g.members))
  }

  /** All operations from left to right, or nothing. */
  function Patch(g: Group, ops: seq<Operation>, env: Env): Option<Group> {
    if ops == [] then Some(g)
    else
      var before := Patch(g, ops[..|ops| - 1], env);
      if before.None? then None else PatchOne(before.value, ops[|ops| - 1], env)
  }

  /** Repeating any operation changes nothing more. */
  lemma RepeatIsIdempotent(g: Group, op: Operation, env: Env)
    ensures var once := PatchOne(g, op, env); once.Some? ==> PatchOne(once.value, op, env) == once
  {
    var who := ToSet(Targets(op));
    assert (g.members + who) + who == g.members + who;
    assert (g.members - who) - who == g.members - who;
  }

  /** Adding and then removing users that were not members restores the group. */
  lemma RemoveUndoesAdd(g: Group, add: Operation, remove: Operation, env: Env)
    requires add.verb == Add && remove.verb == Remove && "members" <= add.path && "members" <= remove.path
    requires ToSet(Targets(add)) == ToSet(Targets(remove)) && Sound(env)
    requires ToSet(Targets(add)) <= env.eligible && ToSet(Targets(add)) !! g.members
    ensures Patch(g, [add, remove], env) == Some(g)
  {
    var who := ToSet(Targets(add));
    var added := g.(members := g.members + who);
    assert [add][..0] == [] && Patch(g, [add], env) == Some(added);
    assert [add, remove][..1] == [add];
    assert (g.members + who) - who == g.members;
    assert PatchOne(added, remove, env) == Some(g);
  }

  // ---------- PUT ----------

  predicate Distinct(s: seq<string>) {
    forall i, j :: 0 <= i < j < |s| ==> s[i] != s[j]
  }

  /** PUT and a PATCH replace of the same list leave the same members, except that PUT refuses duplicates. */
  lemma PutIsPatchReplace(g: Group, values: seq<string>, env: Env)
    requires forall v :: v in values ==> v != ""
    ensures
      var put := if ToSet(values) <= env.eligible && Distinct(values) then Some(g.(members := ToSet(values))) else None;
      PatchOne(g, Operation(Replace, "members", Members(values)), env) == put <==>
          Distinct(values) || !(ToSet(values) <= env.eligible)
  {
    NonBlankIsAll(values);
  }

  lemma {:induction false} NonBlankIsAll(values: seq<string>)
    requires forall v :: v in values ==> v != ""
    ensures NonBlank(values) == values
  {
    if values != [] {
      assert values == [values[0]] + values[1..] && values[0] in values;
      forall v | v in values[1..] ensures v != "" {
        assert v in values;
      }
      NonBlankIsAll(values[1..]);
    }
  }

  datatype Reply = Fine | Refused(status: nat)

  class GroupRow {
    var group: Group

    constructor (g: Group)
      ensures group == g
    {
      group := g;
    }

    /** The inner loop over the users of one operation, on the transaction's copy. */
    method PatchUsers(g: Group, verb: Verb, users: seq<string>, env: Env) returns (r: Option<Group>)
      ensures verb == Remove ==>
        r == if forall u :: u in users ==> env.uuid(u) then Some(g.(members := g.members - ToSet(users))) else None
      ensures verb == Add || verb == Replace ==>
        r == if ToSet(users) <= env.eligible + g.members then Some(g.(members := g.members + ToSet(users))) else None
      ensures verb == OtherVerb ==> r == if users == [] then Some(g) else None
    {
      var members, i := g.members, 0;
      while i < |users|
        invariant 0 <= i <= |users|
        invariant verb == OtherVerb ==> i == 0 && members == g.members
        invariant verb == Remove ==> members == g.members - ToSet(users[..i])
        invariant verb == Remove ==> forall u :: u in users[..i] ==> env.uuid(u)
        invariant verb == Add || verb == Replace ==> members == g.members + ToSet(users[..i])
        invariant verb == Add || verb == Replace ==> ToSet(users[..i]) <= env.eligible + g.members
      {
        var u := users[i];
        assert users[..i + 1] == users[..i] + [u];
        assert ToSet(users[..i + 1]) == ToSet(users[..i]) + {u};
        assert u in ToSet(users);
        if verb == Remove {
          if !env.uuid(u) { return None; }
          members := members - {u};
        } else if verb == OtherVerb {
          return None;
        } else {
          if u !in env.eligible && u !in members { return None; }
          members := members + {u};
        }
        i := i + 1;
      }
      assert users[..|users|] == users;
      return Some(g.(members := members));
    }

    /** One operation of the list. */
    method PatchStep(g: Group, op: Operation, env: Env) returns (r: Option<Group>)
      ensures r == PatchOne(g, op, env)
    {
      if op.path == "displayname" && op.verb == Replace {
        var name := TextOf(op.value);
        if |name| < 2 || name in env.names { return None; }
        return Some(g.(name := name));
      }
      if !("members" <= op.path) { return None; }
      var members := PatchMembers(op.value);
      var base := if op.verb == Replace then g.(members := {}) else g;
      if op.verb == Remove && members == [] {
        var value := MemberFromFilter(op.path);
        if value != "" { members := [value]; }
      }
      assert members == Targets(op);
      if op.verb == OtherVerb && members != [] { assert members[0] in ToSet(members); }
      if op.verb == OtherVerb && members == [] { assert ToSet(members) == {}; }
      assert env.eligible + {} == env.eligible && {} + ToSet(members) == ToSet(members);
      r := PatchUsers(base, op.verb, members, env);
    }

    /** The whole PATCH. */
    method PatchGroup(ops: seq<Operation>, env: Env, outcome: CommitOutcome) returns (r: Reply)
      requires ops != []
      modifies this
      ensures var good := old(group).managed && Patch(old(group), ops, env).Some?;
        && (r.Fine? <==> good && outcome.Committed?)
        && group == if good && !outcome.RolledBack? then Patch(old(group), ops, env).value else old(group)
    {
      if !group.managed { return Refused(404); }
      var draft, i := group, 0;
      while i < |ops|
        invariant 0 <= i <= |ops| && group == old(group)
        invariant Patch(group, ops[..i], env) == Some(draft)
      {
        assert ops[..i + 1][..i] == ops[..i];
        var next := PatchStep(draft, ops[i], env);
        if next.None? {
          RefusalIsFinal(group, ops, env, i + 1);
          return Refused(400);
        }
        draft := next.value;
        i := i + 1;
      }
      assert ops[..|ops|] == ops;
      if !outcome.RolledBack? { group := draft; }
      return if outcome.Committed? then Fine else Refused(500);
    }

    /** Delete all rows and insert the listed users, in one transaction. */
    method ReplaceMembers(users: seq<string>, env: Env, outcome: CommitOutcome) returns (ok: bool)
      modifies this
      ensures var good := ToSet(users) <= env.eligible && Distinct(users);
        && (ok <==> good && outcome.Committed?)
        && group == if good && !outcome.RolledBack? then old(group).(members := ToSet(users)) else old(group)
    {
      var rows: set<string>, i := {}, 0;
      while i < |users|
        invariant 0 <= i <= |users|
        invariant rows == ToSet(users[..i]) && rows <= env.eligible && Distinct(users[..i])
      {
        assert users[..i + 1] == users[..i] + [users[i]];
        assert users[i] in ToSet(users);
        if users[i] !in env.eligible { return false; }
        // The primary key refuses a second row for the same user.
        if users[i] in rows {
          var j :| 0 <= j < i && users[..i][j] == users[i];
          return false;
        }
        rows := rows + {users[i]};
        i := i + 1;
      }
      assert users[..|users|] == users;
      if !outcome.RolledBack? { group := group.(members := rows); }
      return outcome.Committed?;
    }

    /** PUT: the row is updated on its own, before the members' transaction; any error there reads as a conflict. */
    method ReplaceGroup(name: string, external: Option<string>, users: seq<string>, env: Env, row: CommitOutcome,
        outcome: CommitOutcome)
      returns (r: Reply)
      modifies this
      ensures
        var free := name !in env.names && (external.Some? ==> external.value !in env.externals);
        var good := ToSet(users) <= env.eligible && Distinct(users);
        && r == (
          if !free || !row.Committed? then Refused(409) else if good && outcome.Committed? then Fine else Refused(400))
        && group ==
           if !free || row.RolledBack? then old(group)
           else
             var written := row.Committed? && good && !outcome.RolledBack?;
             Group(name, external, true, if written then ToSet(users) else old(group).members)
    {
      if name in env.names || (external.Some? && external.value in env.externals) { return Refused(409); }
      if !row.RolledBack? {
        group := group.(name := name, external := external, managed := true);
      }
      if !row.Committed? { return Refused(409); }
      var ok := ReplaceMembers(users, env, outcome);
      if !ok { return Refused(400); }
      return Fine;
    }
  }

  lemma {:induction false} RefusalIsFinal(g: Group, ops: seq<Operation>, env: Env, i: nat)
    requires i <= |ops| && Patch(g, ops[..i], env).None?
    ensures Patch(g, ops, env).None?
    decreases |ops| - i
  {
    if i == |ops| {
      assert ops[..i] == ops;
    } else {
      assert ops[..i + 1][..i] == ops[..i];
      RefusalIsFinal(g, ops, env, i + 1);
    }
  }

  // ---------- users ----------

  datatype User = User(active: bool, username: string, display: string, external: Option<string>)

  datatype Field = Active | UserName | DisplayName | ExternalId | UnknownField

  datatype UserOperation = UserOperation(replacing: bool, field: Field, value: Json)

  /** A JSON null decodes without an error and leaves the flag false. */
  function FlagOf(v: Json): Option<bool> {
    match v
    case Bool(b) => Some(b)
    case Null => Some(false)
    case _ => None
  }

  function Optional(s: string): Option<string> {
    if s == "" then None else Some(s)
  }

  predicate ValidUserOperation(op: UserOperation, env: Env) {
    op.replacing &&
    match op.field
    case Active => FlagOf(op.value).Some?
    case UserName => |TextOf(op.value)| >= 2 && TextOf(op.value) !in env.names
    case DisplayName => |TextOf(op.value)| >= 2
    case ExternalId => TextOf(op.value) == "" || TextOf(op.value) !in env.externals
    case UnknownField => false
  }

  /** The value of the last operation on a field. */
  function Last(ops: seq<UserOperation>, field: Field): Option<Json> {
    if ops == [] then None
    else if ops[|ops| - 1].field == field then Some(ops[|ops| - 1].value)
    else Last(ops[..|ops| - 1], field)
  }

  /** The last `active` of the list reads as false. */
  predicate Deactivates(ops: seq<UserOperation>) {
    var last := Last(ops, Active);
    last.Some? && FlagOf(last.value) == Some(false)
  }

  /** Last write wins, field by field. */
  function Written(u: User, ops: seq<UserOperation>): User {
    var a, n, d, x := Last(ops, Active), Last(ops, UserName), Last(ops, DisplayName), Last(ops, ExternalId);
    User(
      if a.Some? then FlagOf(a.value) == Some(true) else u.active,
      if n.Some? then TextOf(n.value) else u.username,
      if d.Some? then TextOf(d.value) else u.display,
      if x.Some? then Optional(TextOf(x.value)) else u.external)
  }

  /** One accepted operation. */
  function WriteOne(u: User, op: UserOperation): User {
    match op.field
    case Active => u.(active := FlagOf(op.value) == Some(true))
    case UserName => u.(username := TextOf(op.value))
    case DisplayName => u.(display := TextOf(op.value))
    case ExternalId => u.(external := Optional(TextOf(op.value)))
    case UnknownField => u
  }

  /** Writing one operation after the other is last write wins. */
  lemma WrittenStep(u: User, ops: seq<UserOperation>, i: nat)
    requires i < |ops|
    ensures Written(u, ops[..i + 1]) == WriteOne(Written(u, ops[..i]), ops[i])
    ensures Deactivates(ops[..i + 1]) ==
      if ops[i].field == Active then FlagOf(ops[i].value) == Some(false) else Deactivates(ops[..i])
  {
    assert ops[..i + 1][..i] == ops[..i];
  }

  class UserRow {
    var user: User
    var managed: bool
    var sessionsLive: bool

    constructor (u: User, managed: bool)
      ensures user == u && this.managed == managed && sessionsLive
    {
      user, this.managed, sessionsLive := u, managed, true;
    }

    /** One operation of the list, on the transaction's copy. */
    method PatchField(u: User, deactivated: bool, op: UserOperation, env: Env)
        returns (refused: nat, next: User, flag: bool)
      ensures refused == 0 <==> ValidUserOperation(op, env)
      ensures refused == 0 ==> next == WriteOne(u, op)
      ensures refused == 0 ==> flag == if op.field == Active then FlagOf(op.value) == Some(false) else deactivated
    {
      refused, next, flag := 0, u, deactivated;
      if !op.replacing { refused := 400; return; }
      match op.field {
        case Active =>
          var value := FlagOf(op.value);
          if value.None? { refused := 400; return; }
          next, flag := u.(active := value.value), !value.value;
        case UserName =>
          var value := TextOf(op.value);
          if |value| < 2 { refused := 400; return; }
          if value in env.names { refused := 409; return; }
          next := u.(username := value);
        case DisplayName =>
          var value := TextOf(op.value);
          if |value| < 2 { refused := 400; return; }
          next := u.(display := value);
        case ExternalId =>
          var value := TextOf(op.value);
          if value != "" && value in env.externals { refused := 409; return; }
          next := u.(external := Optional(value));
        case UnknownField =>
          refused := 400;
      }
    }

    /**
     The whole PATCH; `revokeFault` is an error of the later update of the sessions, which is
     ignored.  A commit without acknowledgement keeps the change and leaves the sessions alone.
     */
    method PatchUser(ops: seq<UserOperation>, env: Env, outcome: CommitOutcome, revokeFault: bool) returns (r: Reply)
      requires ops != []
      modifies this
      ensures managed == old(managed)
      ensures var good := managed && forall i :: 0 <= i < |ops| ==> ValidUserOperation(ops[i], env);
        && (r.Fine? <==> good && outcome.Committed?)
        && user == (if good && !outcome.RolledBack? then Written(old(user), ops) else old(user))
        && sessionsLive == (old(sessionsLive) && !(r.Fine? && Deactivates(ops) && !revokeFault))
    {
      if !managed { return Refused(404); }
      var draft, deactivated, i := user, false, 0;
      while i < |ops|
        invariant 0 <= i <= |ops| && user == old(user) && managed == old(managed) && sessionsLive == old(sessionsLive)
        invariant draft == Written(user, ops[..i])
        invariant deactivated == Deactivates(ops[..i])
        invariant forall j :: 0 <= j < i ==> ValidUserOperation(ops[j], env)
      {
        WrittenStep(user, ops, i);
        var refused, next, flag := PatchField(draft, deactivated, ops[i], env);
        if refused != 0 { return Refused(refused); }
        draft, deactivated := next, flag;
        i := i + 1;
      }
      assert ops[..|ops|] == ops;
      if !outcome.RolledBack? { user := draft; }
      if !outcome.Committed? { return Refused(500); }
      if deactivated && !revokeFault {
        sessionsLive := false;
      }
      return Fine;
    }
  }

  /** Only the last operation on each field matters. */
  lemma {:induction false} LastWriteWins(ops: seq<UserOperation>, k: nat)
    requires k < |ops| && forall j :: k < j < |ops| ==> ops[j].field != ops[k].field
    ensures Last(ops, ops[k].field) == Some(ops[k].value)
    decreases |ops|
  {
    if k < |ops| - 1 {
      LastWriteWins(ops[..|ops| - 1], k);
    }
  }

  /**
   An accepted request leaves an active user deactivated exactly if the last `active` in it is
   false or a JSON null, and exactly then it revokes the sessions.
   */
  lemma DeactivatedByFalseOrNull(u: User, ops: seq<UserOperation>, env: Env)
    requires u.active && forall i :: 0 <= i < |ops| ==> ValidUserOperation(ops[i], env)
    ensures !Written(u, ops).active <==> Deactivates(ops)
    ensures Deactivates(ops) <==> Last(ops, Active) == Some(Bool(false)) || Last(ops, Active) == Some(Null)
  {
    LastIsValid(ops, env);
  }

  lemma {:induction false} LastIsValid(ops: seq<UserOperation>, env: Env)
    requires forall i :: 0 <= i < |ops| ==> ValidUserOperation(ops[i], env)
    ensures Last(ops, Active).Some? ==> FlagOf(Last(ops, Active).value).Some?
  {
    if ops != [] {
      assert ValidUserOperation(ops[|ops| - 1], env);
      LastIsValid(ops[..|ops| - 1], env);
    }
  }
}
