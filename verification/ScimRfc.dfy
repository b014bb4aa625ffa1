/**
 The member operations of a SCIM PATCH as section 3.5.2 of RFC 7644 has them, written without
 the handler: a path is the whole attribute or the values a filter selects, or there is none and
 the value holds attributes of the group, and a filter is a formula over the attributes of a member.
 The handler gets the path as text.
 */
module ScimRfc {
  import opened Options
  import opened Scim

  datatype Attribute = ValueAttribute | DisplayAttribute | TypeAttribute | RefAttribute

  datatype Comparison = Eq | Ne | Co | Sw | Ew

  datatype Filter =
    | Compare(attribute: Attribute, comparison: Comparison, literal: string)
    | Present(attribute: Attribute)
    | And(left: Filter, right: Filter)
    | Or(left: Filter, right: Filter)
    | Not(inner: Filter)

  datatype Path = Whole | Where(filter: Filter)

  /** `Pathless`: the value holds the display name, the members, both or neither. */
  datatype Request =
    | Request(verb: Verb, path: Path, users: seq<string>)
    | Pathless(verb: Verb, name: Option<string>, members: Option<seq<string>>)

  // ---------- what a request means ----------

  /** An attribute of a member, given its id; `value` is the id itself. */
  type Reader = (string, Attribute) -> string

  function Read(read: Reader, member: string, a: Attribute): string {
    if a == ValueAttribute then member else read(member, a)
  }

  predicate Holds(c: Comparison, s: string, literal: string) {
    match c
    case Eq => s == literal
    case Ne => s != literal
    case Co => exists i :: 0 <= i <= |s| && Occurs(s, literal, i)
    case Sw => literal <= s
    case Ew => |literal| <= |s| && s[|s| - |literal|..] == literal
  }

  predicate Selects(f: Filter, member: string, read: Reader) {
    match f
    case Compare(a, c, literal) => Holds(c, Read(read, member, a), literal)
    case Present(a) => Read(read, member, a) != ""
    case And(l, r) => Selects(l, member, read) && Selects(r, member, read)
    case Or(l, r) => Selects(l, member, read) || Selects(r, member, read)
    case Not(inner) => !Selects(inner, member, read)
  }

  function Selected(members: set<string>, f: Filter, read: Reader): set<string> {
    set m | m in members && Selects(f, m, read)
  }

  /** Whom the provider takes as a member, and which names it takes, is its own rule. */
  predicate TakesUsers(g: Group, verb: Verb, users: seq<string>, env: Env) {
    ToSet(users) <= if verb == Add then env.eligible + g.members else env.eligible
  }

  predicate TakesAttributes(g: Group, r: Request, env: Env)
    requires r.Pathless?
  {
    && (r.name.Some? ==> |r.name.value| >= 2 && r.name.value !in env.names)
    && (r.members.Some? ==> TakesUsers(g, r.verb, r.members.value, env))
  }

  /**
   Add (3.5.2.1), which has no filtered form, remove (3.5.2.2), which has no value, and replace
   (3.5.2.3), which has no target if its filter selects nothing.
   */
  function PatchMembersByRfc(g: Group, verb: Verb, path: Path, users: seq<string>, env: Env, read: Reader):
      Option<Group> {
    var who := ToSet(users);
    match verb
    case Add => if TakesUsers(g, verb, users, env) then Some(g.(members := g.members + who)) else None
    case Remove =>
      (match path
       case Whole => Some(g.(members := {}))
       case Where(f) => Some(g.(members := g.members - Selected(g.members, f, read))))
    case Replace =>
      if !TakesUsers(g, verb, users, env) then None
      else
        (match path
         case Whole => Some(g.(members := who))
         case Where(f) =>
           var selected := Selected(g.members, f, read);
           if selected == {} then None else Some(g.(members := g.members - selected + who)))
    case OtherVerb => None
  }

  /** Without a path, add and replace are about the attributes in the value, and a remove has no target. */
  function PatchByRfc(g: Group, r: Request, env: Env, read: Reader): Option<Group> {
    match r
    case Request(verb, path, users) => PatchMembersByRfc(g, verb, path, users, env, read)
    case Pathless(verb, name, members) =>
      if verb == Remove || verb == OtherVerb || !TakesAttributes(g, r, env) then None
      else
        var named := if name.Some? then g.(name := name.value) else g;
        if members.None? then Some(named)
        else
          var who := ToSet(members.value);
          Some(named.(members := if verb == Add then g.members + who else who))
  }

  // ---------- what the handler gets ----------

  function AttributeName(a: Attribute): string {
    match a
    case ValueAttribute => "value"
    case DisplayAttribute => "display"
    case TypeAttribute => "type"
    case RefAttribute => "$ref"
  }

  function ComparisonName(c: Comparison): string {
    match c
    case Eq => "eq"
    case Ne => "ne"
    case Co => "co"
    case Sw => "sw"
    case Ew => "ew"
  }

  function FilterText(f: Filter): string {
    match f
    case Compare(a, c, literal) => AttributeName(a) + " " + ComparisonName(c) + " \"" + literal + "\""
    case Present(a) => AttributeName(a) + " pr"
    case And(l, r) => "(" + FilterText(l) + ") and (" + FilterText(r) + ")"
    case Or(l, r) => "(" + FilterText(l) + ") or (" + FilterText(r) + ")"
    case Not(inner) => "not (" + FilterText(inner) + ")"
  }

  function PathText(p: Path): string {
    match p
    case Whole => "members"
    case Where(f) => "members[" + (FilterText(f) + "]")
  }

  function AsOperation(r: Request): Operation {
    match r
    case Request(verb, path, users) => Operation(verb, PathText(path), Members(users))
    case Pathless(verb, _, members) => Operation(verb, "", if members.Some? then Wrapped(members.value) else Other)
  }

  /** What the handler's text can be read for: filters with plain literals, and users that are not blank. */
  predicate Readable(r: Request) {
    r.Request? ==> (r.path.Where? ==> Plain(r.path.filter)) && forall u <- r.users :: u != ""
  }

  /** The literal of the first `value eq` comparison of the text: all the handler reads of a filter. */
  function FirstId(f: Filter): Option<string> {
    match f
    case Compare(a, c, literal) => if a == ValueAttribute && c == Eq then Some(literal) else None
    case Present(_) => None
    case And(l, r) => if FirstId(l).Some? then FirstId(l) else FirstId(r)
    case Or(l, r) => if FirstId(l).Some? then FirstId(l) else FirstId(r)
    case Not(inner) => FirstId(inner)
  }

  const VALUE_EQ := "value eq "

  /** Literals hold no quote, and none ends in the very text the handler looks for. */
  predicate Plain(f: Filter) {
    match f
    case Compare(_, _, literal) => '\"' !in literal && !EndsIn(literal, VALUE_EQ)
    case Present(_) => true
    case And(l, r) => Plain(l) && Plain(r)
    case Or(l, r) => Plain(l) && Plain(r)
    case Not(inner) => Plain(inner)
  }

  predicate EndsIn(s: string, end: string) {
    |end| <= |s| && s[|s| - |end|..] == end
  }

  // ---------- reading the text ----------

  /** The first nine characters hold no quote: too few for a match that began earlier to end here. */
  predicate Roomy(s: string) {
    forall k :: 0 <= k < 9 && k < |s| ==> s[k] != '\"'
  }

  lemma {:induction false} IndexSkips(t: string, rest: string, needle: string, i: nat)
    requires i <= |t| && forall k :: i <= k < |t| ==> !Occurs(t + rest, needle, k)
    ensures IndexFrom(t + rest, needle, i) ==
      var r := IndexFrom(rest, needle, 0); if r.Some? then Some(|t| + r.value) else None
    decreases |t| - i
  {
    var s := t + rest;
    if i < |t| {
      IndexSkips(t, rest, needle, i + 1);
    } else {
      IndexShifts(t, rest, needle, 0);
    }
  }

  lemma {:induction false} IndexShifts(t: string, rest: string, needle: string, i: nat)
    requires i <= |rest|
    ensures IndexFrom(t + rest, needle, |t| + i) ==
      var r := IndexFrom(rest, needle, i); if r.Some? then Some(|t| + r.value) else None
    decreases |rest| - i
  {
    var s := t + rest;
    if |t| + i + |needle| <= |s| {
      assert s[|t| + i..|t| + i + |needle|] == rest[i..i + |needle|];
    }
    if i < |rest| { IndexShifts(t, rest, needle, i + 1); }
  }

  lemma DropFromSum(t: string, rest: string, i: nat)
    requires i <= |rest|
    ensures (t + rest)[|t| + i..] == rest[i..]
  {
  }

  /** Text in which no match begins is passed over. */
  lemma Skipped(t: string, rest: string)
    requires forall k :: 0 <= k < |t| ==> !Occurs(t + rest, FILTER, k)
    ensures MemberFromFilter(t + rest) == MemberFromFilter(rest)
  {
    IndexSkips(t, rest, FILTER, 0);
    var r := IndexFrom(rest, FILTER, 0);
    if r.Some? {
      DropFromSum(t, rest, r.value + |FILTER|);
      SameReading(t + rest, rest, |t|, r.value);
    }
  }

  lemma SameReading(path: string, rest: string, m: nat, n: nat)
    requires IndexFrom(rest, FILTER, 0) == Some(n) && IndexFrom(path, FILTER, 0) == Some(m + n)
    requires path[m + n + |FILTER|..] == rest[n + |FILTER|..]
    ensures MemberFromFilter(path) == MemberFromFilter(rest)
  {
  }

  lemma OccursAt(s: string, k: nat, j: nat)
    requires k + |FILTER| <= |s| && j < |FILTER|
    ensures Occurs(s, FILTER, k) ==> s[k + j] == FILTER[j]
  {
    if Occurs(s, FILTER, k) { assert s[k..k + |FILTER|][j] == FILTER[j]; }
  }

  lemma SkippedWithoutV(t: string, rest: string)
    requires 'v' !in t
    ensures MemberFromFilter(t + rest) == MemberFromFilter(rest)
  {
    forall k | 0 <= k < |t| ensures !Occurs(t + rest, FILTER, k) {
      assert (t + rest)[k] == t[k];
      if k + |FILTER| <= |t + rest| { OccursAt(t + rest, k, 0); }
    }
    Skipped(t, rest);
  }

  /** Text that holds no match is passed over if the rest is roomy. */
  lemma SkippedBeforeRoom(t: string, rest: string)
    requires Roomy(rest) && forall k :: 0 <= k ==> !Occurs(t, FILTER, k)
    ensures MemberFromFilter(t + rest) == MemberFromFilter(rest)
  {
    var s := t + rest;
    forall k | 0 <= k < |t| ensures !Occurs(s, FILTER, k) {
      if k + |FILTER| <= |t| {
        assert s[k..k + |FILTER|] == t[k..k + |FILTER|];
        assert !Occurs(t, FILTER, k);
      } else if k + |FILTER| <= |s| {
        OccursAt(s, k, 9);
        assert s[k + 9] == rest[k + 9 - |t|];
      }
    }
    Skipped(t, rest);
  }

  lemma IdIsRead(literal: string, rest: string)
    requires '\"' !in literal
    ensures MemberFromFilter("value eq \"" + literal + "\"" + rest) == literal
  {
    var path := "value eq \"" + literal + "\"" + rest;
    assert path[0..|FILTER|] == FILTER;
    IndexFromIsFirst(path, FILTER, 0, 0);
    var value := path[|FILTER|..];
    assert value == literal + "\"" + rest;
    assert value[|literal|..|literal| + 1] == "\"";
    assert Occurs(value, "\"", |literal|);
    forall k | 0 <= k < |literal| ensures !Occurs(value, "\"", k) {
      assert value[k] == literal[k] && literal[k] in literal;
    }
    IndexFromIsFirst(value, "\"", 0, |literal|);
    assert value[..|literal|] == literal;
  }

  /** A head and a quoted literal, neither ending in `value eq `, hold no match. */
  lemma QuotedHoldsNoMatch(t: string, head: string, literal: string, k: nat)
    requires t == head + ("\"" + literal + "\"") && '\"' !in head && '\"' !in literal
    requires !EndsIn(head, VALUE_EQ) && !EndsIn(literal, VALUE_EQ)
    ensures !Occurs(t, FILTER, k)
  {
    if k + |FILTER| <= |t| {
      OccursAt(t, k, 9);
      OccursSlice(t, k);
      QuotesOf(t, head, literal, k + 9);
      if k + 9 == |head| {
        assert t[k..k + 9] == head[k..];
      } else if k + 9 == |t| - 1 {
        MatchBeforeLastQuote(t, head, literal, k);
      }
    }
  }

  lemma QuotesOf(t: string, head: string, literal: string, j: nat)
    requires t == head + ("\"" + literal + "\"") && '\"' !in head && '\"' !in literal && j < |t|
    ensures t[j] == '\"' <==> j == |head| || j == |t| - 1
  {
    if j < |head| {
      assert t[j] == head[j];
    } else if |head| < j < |t| - 1 {
      assert t[j] == literal[j - |head| - 1];
    }
  }

  lemma MatchBeforeLastQuote(t: string, head: string, literal: string, k: nat)
    requires t == head + ("\"" + literal + "\"") && '\"' !in literal && !EndsIn(literal, VALUE_EQ)
    requires k + 9 == |t| - 1
    ensures !Occurs(t, FILTER, k)
  {
    OccursSlice(t, k);
    if k > |head| {
      var n := |literal|;
      assert t[k..k + 9] == literal[n - 9..];
    } else {
      OccursAt(t, k, |head| - k);
      NoQuoteInside(|head| - k);
    }
  }

  lemma NoQuoteInside(j: nat)
    requires j < 9
    ensures FILTER[j] != '\"'
  {
    assert FILTER == VALUE_EQ + "\"";
    assert FILTER[j] == VALUE_EQ[j];
  }

  /** A comparison other than `value eq` holds no match. */
  lemma ComparisonHoldsNoMatch(a: Attribute, c: Comparison, literal: string, k: nat)
    requires '\"' !in literal && !EndsIn(literal, VALUE_EQ) && !(a == ValueAttribute && c == Eq)
    ensures !Occurs(FilterText(Compare(a, c, literal)), FILTER, k)
  {
    var head := AttributeName(a) + " " + ComparisonName(c) + " ";
    var t := FilterText(Compare(a, c, literal));
    assert t == head + ("\"" + literal + "\"");
    HeadHasNoQuote(a, c);
    HeadIsNotValueEq(a, c);
    QuotedHoldsNoMatch(t, head, literal, k);
  }

  lemma OccursSlice(s: string, k: nat)
    requires k + |FILTER| <= |s|
    ensures Occurs(s, FILTER, k) ==> s[k..k + 9] == VALUE_EQ
  {
    if Occurs(s, FILTER, k) {
      assert s[k..k + 9] == s[k..k + |FILTER|][..9];
      assert FILTER[..9] == VALUE_EQ;
    }
  }

  lemma HeadHasNoQuote(a: Attribute, c: Comparison)
    ensures '\"' !in AttributeName(a) + " " + ComparisonName(c) + " "
  {
  }

  lemma EndsInAt(s: string, end: string, j: nat)
    requires |end| <= |s| && j < |end|
    ensures EndsIn(s, end) ==> s[|s| - |end| + j] == end[j]
  {
    if EndsIn(s, end) { assert s[|s| - |end|..][j] == end[j]; }
  }

  lemma HeadIsNotValueEq(a: Attribute, c: Comparison)
    requires !(a == ValueAttribute && c == Eq)
    ensures !EndsIn(AttributeName(a) + " " + ComparisonName(c) + " ", VALUE_EQ)
  {
    var head := AttributeName(a) + " " + ComparisonName(c) + " ";
    assert |head| == |AttributeName(a)| + 4;
    match a
    case ValueAttribute =>
      assert head[6] == ComparisonName(c)[0] && head[7] == ComparisonName(c)[1];
      EndsInAt(head, VALUE_EQ, 6);
      EndsInAt(head, VALUE_EQ, 7);
    case DisplayAttribute =>
      assert head[2] == AttributeName(a)[2];
      EndsInAt(head, VALUE_EQ, 0);
    case TypeAttribute =>
    case RefAttribute =>
  }

  lemma {:induction false} TextStartsPlain(f: Filter)
    ensures |FilterText(f)| >= 3 && forall k :: 0 <= k < 3 ==> FilterText(f)[k] != '\"'
  {
    match f
    case Compare(a, c, literal) => assert FilterText(f)[..4] == AttributeName(a)[..4];
    case Present(a) =>
    case And(l, r) => TextStartsPlain(l);
    case Or(l, r) => TextStartsPlain(l);
    case Not(inner) =>
  }

  /** Whatever follows, the handler reads the first `value eq` literal of a filter, or passes it over. */
  lemma {:induction false} ReadsFirstId(f: Filter, rest: string)
    requires Plain(f) && Roomy(rest)
    ensures MemberFromFilter(FilterText(f) + rest) == if FirstId(f).Some? then FirstId(f).value
        else MemberFromFilter(rest)
    decreases f, 1
  {
    match f
    case Compare(a, c, literal) =>
      if a == ValueAttribute && c == Eq {
        assert FilterText(f) + rest == "value eq \"" + literal + "\"" + rest;
        IdIsRead(literal, rest);
      } else {
        forall k: nat ensures !Occurs(FilterText(f), FILTER, k) {
          ComparisonHoldsNoMatch(a, c, literal, k);
        }
        SkippedBeforeRoom(FilterText(f), rest);
      }
    case Present(a) =>
      PresentHoldsNoMatch(a);
      SkippedBeforeRoom(FilterText(f), rest);
    case And(l, r) => ReadsFirstOfTwo(f, l, ") and (", r, rest);
    case Or(l, r) => ReadsFirstOfTwo(f, l, ") or (", r, rest);
    case Not(inner) =>
      var after := ")" + rest;
      assert FilterText(f) + rest == "not (" + (FilterText(inner) + after);
      SkippedWithoutV("not (", FilterText(inner) + after);
      ReadsFirstId(inner, after);
      SkippedWithoutV(")", rest);
  }

  lemma {:induction false} ReadsFirstOfTwo(f: Filter, l: Filter, between: string, r: Filter, rest: string)
    requires Plain(f) && Roomy(rest)
    requires (f == And(l, r) && between == ") and (") || (f == Or(l, r) && between == ") or (")
    ensures MemberFromFilter(FilterText(f) + rest) == if FirstId(f).Some? then FirstId(f).value
        else MemberFromFilter(rest)
    decreases f, 0
  {
    var after := ")" + rest;
    var second := FilterText(r) + after;
    var middle := between + second;
    assert FilterText(f) == "(" + FilterText(l) + between + FilterText(r) + ")";
    Regrouped("(", FilterText(l), between, FilterText(r), ")", rest);
    RoomBeforeText(between, r, after);
    RoomAfterParenthesis(rest);
    SkippedWithoutV("(", FilterText(l) + middle);
    ReadsFirstId(l, middle);
    SkippedWithoutV(between, second);
    ReadsFirstId(r, after);
    SkippedWithoutV(")", rest);
  }

  lemma Regrouped(a: string, b: string, c: string, d: string, e: string, rest: string)
    ensures a + b + c + d + e + rest == a + (b + (c + (d + (e + rest))))
  {
  }

  lemma RoomAfterParenthesis(rest: string)
    requires Roomy(rest)
    ensures Roomy(")" + rest)
  {
    var s := ")" + rest;
    assert forall k :: 0 < k < |s| ==> s[k] == rest[k - 1];
  }

  lemma RoomBeforeText(between: string, r: Filter, after: string)
    requires between == ") and (" || between == ") or ("
    ensures Roomy(between + (FilterText(r) + after)) && 'v' !in between
  {
    TextStartsPlain(r);
    var s := between + (FilterText(r) + after);
    forall k | 0 <= k < 9 && k < |s| ensures s[k] != '\"' {
      if k < |between| {
        assert s[k] == between[k];
      } else {
        assert s[k] == FilterText(r)[k - |between|];
      }
    }
  }

  lemma PresentHoldsNoMatch(a: Attribute)
    ensures forall k :: 0 <= k ==> !Occurs(AttributeName(a) + " pr", FILTER, k)
  {
    var t := AttributeName(a) + " pr";
    forall k | 0 <= k ensures !Occurs(t, FILTER, k) {
      if k + |FILTER| <= |t| { OccursAt(t, k, 9); }
    }
  }

  lemma PathNames(p: Path)
    requires p.Where? ==> Plain(p.filter)
    ensures "members" <= PathText(p) && PathText(p) != "displayname"
    ensures MemberFromFilter(PathText(p)) == if p.Where? && FirstId(p.filter).Some? then FirstId(p.filter).value else ""
  {
    assert "displayname"[0] == 'd';
    match p
    case Whole =>
      assert "members" + "" == "members";
      SkippedWithoutV("members", "");
    case Where(f) =>
      SkippedWithoutV("members[", FilterText(f) + "]");
      ReadsFirstId(f, "]");
      assert "]" + "" == "]";
      SkippedWithoutV("]", "");
  }

  // ---------- where the handler follows it ----------

  /** What a request without users takes away: everything, or what the filter selects. */
  function Meant(members: set<string>, p: Path, read: Reader): set<string> {
    match p
    case Whole => members
    case Where(f) => Selected(members, f, read)
  }

  /** The one user the handler takes from the path of a remove, if there is one. */
  function Named(p: Path): set<string> {
    if p.Where? && FirstId(p.filter).Some? && FirstId(p.filter).value != "" then {FirstId(p.filter).value} else {}
  }

  /** The users the handler removes: those listed, else the one it reads. */
  function Removed(r: Request): set<string>
    requires r.Request?
  {
    if r.users != [] then ToSet(r.users) else Named(r.path)
  }

  /**
   A remove follows section 3.5.2.2 exactly if the members its path means are those the handler
   removes, listed or read from the text, and their ids are ones the database can read; both refuse
   a remove without a path.
   */
  lemma RemoveFollowsRfc(g: Group, r: Request, env: Env, read: Reader)
    requires r.verb == Remove && Readable(r)
    ensures PatchOne(g, AsOperation(r), env) == PatchByRfc(g, r, env, read) <==>
      r.Pathless? ||
      (Meant(g.members, r.path, read) == Removed(r) * g.members && forall id <- Removed(r) :: env.uuid(id))
  {
    if r.Request? {
      RemovedByHandler(g, r, env);
      Subtracting(g.members, Removed(r), Meant(g.members, r.path, read));
      RemovedByRfc(g, r, env, read);
    }
  }

  lemma RemovedByHandler(g: Group, r: Request, env: Env)
    requires r.Request? && r.verb == Remove && Readable(r)
    ensures PatchOne(g, AsOperation(r), env) ==
      if forall id <- Removed(r) :: env.uuid(id) then Some(g.(members := g.members - Removed(r))) else None
  {
    PathNames(r.path);
    NonBlankIsAll(r.users);
    var op := AsOperation(r);
    assert r.users == [] ==> Targets(op) == if MemberFromFilter(op.path) != "" then [MemberFromFilter(op.path)] else [];
    assert ToSet(Targets(op)) == Removed(r);
  }

  lemma RemovedByRfc(g: Group, r: Request, env: Env, read: Reader)
    requires r.Request? && r.verb == Remove
    ensures PatchByRfc(g, r, env, read) == Some(g.(members := g.members - Meant(g.members, r.path, read)))
  {
    assert g.members - g.members == {};
  }

  lemma Subtracting(s: set<string>, a: set<string>, b: set<string>)
    requires b <= s
    ensures s - a == s - b <==> b == a * s
  {
    if s - a == s - b {
      assert forall x :: x in s ==> (x in a <==> x !in s - a);
      assert forall x :: x in s ==> (x in b <==> x !in s - b);
    }
  }

  /**
   For a path with one comparison: `value eq` on a well-formed id always follows the standard; the
   whole attribute or any other comparison does exactly if it selects no member of the group.
   */
  lemma SimpleRemoveFollowsRfc(g: Group, p: Path, env: Env, read: Reader)
    requires p.Where? ==> Plain(p.filter) && (p.filter.Compare? || p.filter.Present?)
    requires p.Where? && FirstId(p.filter).Some? ==> FirstId(p.filter).value != "" && env.uuid(FirstId(p.filter).value)
    ensures var r := Request(Remove, p, []);
      PatchOne(g, AsOperation(r), env) == PatchByRfc(g, r, env, read) <==>
        (p.Where? && FirstId(p.filter).Some?) || Meant(g.members, p, read) == {}
  {
    RemoveFollowsRfc(g, Request(Remove, p, []), env, read);
    if p.Where? && FirstId(p.filter).Some? {
      var id := FirstId(p.filter).value;
      assert forall m :: m in g.members ==> (Selects(p.filter, m, read) <==> m == id);
      assert Meant(g.members, p, read) == Named(p) * g.members;
    } else {
      assert Named(p) * g.members == {};
    }
  }

  /**
   With a path, add and an unfiltered replace follow the standard.  A filtered replace replaces all
   members, so it follows section 3.5.2.3 exactly if a user is refused, or the filter selects
   something and whatever it spares is among the new users.  An unknown verb is refused exactly if it
   names users.  Without a path the handler refuses everything, which follows the standard exactly if
   the verb is unknown or the provider takes one of the attributes not.
   */
  lemma OtherVerbsFollowRfc(g: Group, r: Request, env: Env, read: Reader)
    requires r.verb != Remove && Readable(r)
    ensures PatchOne(g, AsOperation(r), env) == PatchByRfc(g, r, env, read) <==>
      match r
      case Pathless(verb, _, _) => verb == OtherVerb || !TakesAttributes(g, r, env)
      case Request(verb, path, users) =>
        match verb
        case Add => true
        case Replace =>
          path.Whole? || !(ToSet(users) <= env.eligible)
          || (Meant(g.members, path, read) != {} && g.members - Meant(g.members, path, read) <= ToSet(users))
        case _ => users != []
  {
    if r.Request? {
      PathNames(r.path);
      NonBlankIsAll(r.users);
      var who := ToSet(r.users);
      assert Targets(AsOperation(r)) == r.users;
      if r.users != [] { assert r.users[0] in who; }
      if r.verb == Replace && r.path.Where? {
        var spared := g.members - Meant(g.members, r.path, read);
        assert spared + who == who <==> spared <= who;
      }
    }
  }

  /** The failing input without a path: users to add as attributes of the group, as section 3.5.2.1 has them. */
  lemma PathlessAddIsRefused(g: Group, users: seq<string>, env: Env, read: Reader)
    requires ToSet(users) <= env.eligible
    ensures var r := Pathless(Add, None, Some(users));
      PatchOne(g, AsOperation(r), env) == None
      && PatchByRfc(g, r, env, read) == Some(g.(members := g.members + ToSet(users)))
  {
    assert ToSet(users) <= env.eligible + g.members;
  }

  /** A remove of the whole attribute leaves every member in place. */
  lemma BareRemoveChangesNothing(g: Group, env: Env, read: Reader)
    requires g.members != {}
    ensures var r := Request(Remove, Whole, []);
      PatchOne(g, AsOperation(r), env) == Some(g) && PatchByRfc(g, r, env, read) == Some(g.(members := {}))
  {
    PathNames(Whole);
    var op := AsOperation(Request(Remove, Whole, []));
    assert Targets(op) == [] && ToSet([]) == {};
    assert g.members - {} == g.members;
  }
}
