/** The canonical renaming of identities in an observed provider trace. */
module TraceNormalize {
  import opened Text
  import JsonText
  import JsonReader

  datatype Json = Null | Bool(b: bool) | Number(n: real) | String(text: Text) | Array(items: seq<Json>) | Object(members: seq<Member>)
  datatype Member = Member(key: Text, value: Json)

  datatype Role = Host | Session | Provider | Execution | Snapshot | Plan

  function RoleOf(key: Text): Option<Role> {
    if key == Lit("hostId") then Some(Host)
    else if key == Lit("sessionId") then Some(Session)
    else if key == Lit("providerId") then Some(Provider)
    else if key == Lit("executionId") then Some(Execution)
    else if key == Lit("snapshotId") then Some(Snapshot)
    else if key == Lit("planId") then Some(Plan)
    else None
  }

  function BaseName(role: Role): Text {
    match role
    case Host => Lit("host")
    case Session => Lit("session")
    case Provider => Lit("provider")
    case Execution => Lit("execution")
    case Snapshot => Lit("snapshot")
    case Plan => Lit("plan")
  }

  function Decimal(n: nat): Text {
    var digits := JsonText.Digits(n);
    seq(|digits|, i requires 0 <= i < |digits| => digits[i])
  }

  /** The canonical name of the identity met as number `k` of its role, counting from zero. */
  function Name(role: Role, k: nat): Text {
    if (role == Host || role == Provider) && k == 0 then BaseName(role)
    else BaseName(role) + Lit("-") + Decimal(k + 1)
  }

  /** The identities of each role in the order they were first met. */
  type Seen = map<Role, seq<Text>>

  function Ids(seen: Seen, role: Role): seq<Text> { if role in seen then seen[role] else [] }

  function IndexOf(ids: seq<Text>, id: Text): (i: nat)
    requires id in ids
    ensures i < |ids| && ids[i] == id && forall k :: 0 <= k < i ==> ids[k] != id
  {
    if ids[0] == id then 0 else 1 + IndexOf(ids[1..], id)
  }

  datatype Named = Named(name: Text, seen: Seen)

  function Identify(seen: Seen, role: Role, id: Text): Named {
    if role == Session then Named(id, seen)
    else
      var ids := Ids(seen, role);
      if id in ids then Named(Name(role, IndexOf(ids, id)), seen)
      else Named(Name(role, |ids|), seen[role := ids + [id]])
  }

  datatype Projected<T> = Projected(value: T, seen: Seen)

  function Project(node: Json, seen: Seen): Projected<Json>
    decreases node, 1
  {
    match node
    case Array(items) => var r := ProjectItems(items, seen); Projected(Array(r.value), r.seen)
    case Object(members) => var r := ProjectMembers(members, seen); Projected(Object(r.value), r.seen)
    case _ => Projected(node, seen)
  }

  function ProjectItems(items: seq<Json>, seen: Seen): Projected<seq<Json>>
    decreases items, 0
  {
    if items == [] then Projected([], seen)
    else
      var first := Project(items[0], seen);
      var rest := ProjectItems(items[1..], first.seen);
      Projected([first.value] + rest.value, rest.seen)
  }

  function ProjectMember(member: Member, seen: Seen): Projected<Member>
    decreases member, 0
  {
    if RoleOf(member.key).Some? && member.value.String? then
      var named := Identify(seen, RoleOf(member.key).value, member.value.text);
      Projected(Member(member.key, String(named.name)), named.seen)
    else
      var r := Project(member.value, seen);
      Projected(Member(member.key, r.value), r.seen)
  }

  function ProjectMembers(members: seq<Member>, seen: Seen): Projected<seq<Member>>
    decreases members, 0
  {
    if members == [] then Projected([], seen)
    else
      var first := ProjectMember(members[0], seen);
      var rest := ProjectMembers(members[1..], first.seen);
      Projected([first.value] + rest.value, rest.seen)
  }

  function Normalize(trace: Json): Json { Project(trace, map[]).value }

  // ---- Renamings.

  type Renaming = map<(Role, Text), Text>

  /** Per role one-to-one. */
  ghost predicate OneToOne(rho: Renaming) {
    forall a <- rho, b <- rho :: a.0 == b.0 && rho[a] == rho[b] ==> a == b
  }

  /** Every identity of the tree, sessions excepted, has a new name. */
  ghost predicate Covers(rho: Renaming, node: Json)
    decreases node, 1
  {
    match node
    case Array(items) => CoversItems(rho, items)
    case Object(members) => CoversMembers(rho, members)
    case _ => true
  }

  ghost predicate CoversItems(rho: Renaming, items: seq<Json>)
    decreases items, 0
  {
    items == [] || (Covers(rho, items[0]) && CoversItems(rho, items[1..]))
  }

  ghost predicate CoversMember(rho: Renaming, member: Member)
    decreases member, 0
  {
    if RoleOf(member.key).Some? && member.value.String? then
      RoleOf(member.key).value == Session || (RoleOf(member.key).value, member.value.text) in rho
    else Covers(rho, member.value)
  }

  ghost predicate CoversMembers(rho: Renaming, members: seq<Member>)
    decreases members, 0
  {
    members == [] || (CoversMember(rho, members[0]) && CoversMembers(rho, members[1..]))
  }

  function NewName(rho: Renaming, role: Role, id: Text): Text {
    if role != Session && (role, id) in rho then rho[(role, id)] else id
  }

  /** The tree with its identities renamed and nothing else changed. */
  function Rename(rho: Renaming, node: Json): Json
    decreases node, 1
  {
    match node
    case Array(items) => Array(RenameItems(rho, items))
    case Object(members) => Object(RenameMembers(rho, members))
    case _ => node
  }

  function RenameItems(rho: Renaming, items: seq<Json>): seq<Json>
    decreases items, 0
  {
    if items == [] then [] else [Rename(rho, items[0])] + RenameItems(rho, items[1..])
  }

  function RenameMember(rho: Renaming, member: Member): Member
    decreases member, 0
  {
    if RoleOf(member.key).Some? && member.value.String? then
      Member(member.key, String(NewName(rho, RoleOf(member.key).value, member.value.text)))
    else Member(member.key, Rename(rho, member.value))
  }

  function RenameMembers(rho: Renaming, members: seq<Member>): seq<Member>
    decreases members, 0
  {
    if members == [] then [] else [RenameMember(rho, members[0])] + RenameMembers(rho, members[1..])
  }

  // ---- Names are distinct within a role.

  lemma DecimalInjective(m: nat, n: nat)
    requires Decimal(m) == Decimal(n)
    ensures m == n
  {
    var a, b := JsonText.Digits(m), JsonText.Digits(n);
    assert |a| == |Decimal(m)| == |b|;
    forall i | 0 <= i < |a| ensures a[i] == b[i] { assert a[i] == Decimal(m)[i] == Decimal(n)[i]; }
    assert a == b;
    JsonReader.FoldDigits(m);
    JsonReader.FoldDigits(n);
  }

  lemma NameInjective(role: Role, i: nat, j: nat)
    requires Name(role, i) == Name(role, j)
    ensures i == j
  {
    var base := BaseName(role) + Lit("-");
    var plain := role == Host || role == Provider;
    if !(plain && i == 0) && !(plain && j == 0) {
      assert Name(role, i)[|base|..] == Decimal(i + 1);
      assert Name(role, j)[|base|..] == Decimal(j + 1);
      DecimalInjective(i + 1, j + 1);
    }
  }

  // ---- Renaming keeps the canonical form.

  /** `rho` takes the first lists to the second ones, position by position. */
  ghost predicate Matched(rho: Renaming, first: Seen, second: Seen) {
    forall role :: role != Session ==>
      && |Ids(first, role)| == |Ids(second, role)|
      && forall i :: 0 <= i < |Ids(first, role)| ==>
        (role, Ids(first, role)[i]) in rho && rho[(role, Ids(first, role)[i])] == Ids(second, role)[i]
  }

  lemma MatchedIndex(rho: Renaming, first: Seen, second: Seen, role: Role, id: Text)
    requires OneToOne(rho) && Matched(rho, first, second) && role != Session && (role, id) in rho
    ensures id in Ids(first, role) <==> rho[(role, id)] in Ids(second, role)
    ensures id in Ids(first, role) ==> IndexOf(Ids(first, role), id) == IndexOf(Ids(second, role), rho[(role, id)])
  {
    var a, b, new' := Ids(first, role), Ids(second, role), rho[(role, id)];
    forall i | 0 <= i < |a| ensures a[i] == id <==> b[i] == new' {
      assert (role, a[i]) in rho && rho[(role, a[i])] == b[i];
    }
    if id in a {
      var i := IndexOf(a, id);
      assert b[i] == new' && b[i] in b;
      var j := IndexOf(b, new');
      assert a[j] == id;
    }
    if new' in b {
      var j := IndexOf(b, new');
      assert a[j] == id;
    }
  }

  lemma IdentifyMatched(rho: Renaming, first: Seen, second: Seen, role: Role, id: Text)
    requires OneToOne(rho) && Matched(rho, first, second) && (role == Session || (role, id) in rho)
    ensures var r, s := Identify(first, role, id), Identify(second, role, NewName(rho, role, id));
      r.name == s.name && Matched(rho, r.seen, s.seen)
  {
    if role != Session {
      MatchedIndex(rho, first, second, role, id);
      var new' := rho[(role, id)];
      var r, s := Identify(first, role, id).seen, Identify(second, role, new').seen;
      forall other: Role | other != Session
        ensures |Ids(r, other)| == |Ids(s, other)|
        ensures forall i :: 0 <= i < |Ids(r, other)| ==>
          (other, Ids(r, other)[i]) in rho && rho[(other, Ids(r, other)[i])] == Ids(s, other)[i]
      {
        if other != role {
          assert Ids(r, other) == Ids(first, other) && Ids(s, other) == Ids(second, other);
        }
      }
    }
  }

  lemma {:induction false} ProjectRenamed(rho: Renaming, node: Json, first: Seen, second: Seen)
    requires OneToOne(rho) && Matched(rho, first, second) && Covers(rho, node)
    ensures var r, s := Project(node, first), Project(Rename(rho, node), second);
      r.value == s.value && Matched(rho, r.seen, s.seen)
    decreases node, 1
  {
    match node
    case Array(items) => ItemsRenamed(rho, items, first, second);
    case Object(members) => MembersRenamed(rho, members, first, second);
    case _ =>
  }

  lemma {:induction false} ItemsRenamed(rho: Renaming, items: seq<Json>, first: Seen, second: Seen)
    requires OneToOne(rho) && Matched(rho, first, second) && CoversItems(rho, items)
    ensures var r, s := ProjectItems(items, first), ProjectItems(RenameItems(rho, items), second);
      r.value == s.value && Matched(rho, r.seen, s.seen)
    decreases items, 0
  {
    hide Matched, OneToOne;
    if items != [] {
      ProjectRenamed(rho, items[0], first, second);
      var r, s := Project(items[0], first), Project(Rename(rho, items[0]), second);
      ItemsRenamed(rho, items[1..], r.seen, s.seen);
      assert RenameItems(rho, items)[1..] == RenameItems(rho, items[1..]);
    }
  }

  lemma {:induction false} MemberRenamed(rho: Renaming, member: Member, first: Seen, second: Seen)
    requires OneToOne(rho) && Matched(rho, first, second) && CoversMember(rho, member)
    ensures var r, s := ProjectMember(member, first), ProjectMember(RenameMember(rho, member), second);
      r.value == s.value && Matched(rho, r.seen, s.seen)
    decreases member, 0
  {
    hide Matched, OneToOne, RoleOf, Identify, NewName;
    if RoleOf(member.key).Some? && member.value.String? {
      IdentifyMatched(rho, first, second, RoleOf(member.key).value, member.value.text);
    } else {
      ProjectRenamed(rho, member.value, first, second);
      assert !(RoleOf(member.key).Some? && Rename(rho, member.value).String?);
    }
  }

  lemma {:induction false} MembersRenamed(rho: Renaming, members: seq<Member>, first: Seen, second: Seen)
    requires OneToOne(rho) && Matched(rho, first, second) && CoversMembers(rho, members)
    ensures var r, s := ProjectMembers(members, first), ProjectMembers(RenameMembers(rho, members), second);
      r.value == s.value && Matched(rho, r.seen, s.seen)
    decreases members, 0
  {
    hide Matched, OneToOne, ProjectMember, RenameMember, CoversMember;
    if members != [] {
      MemberRenamed(rho, members[0], first, second);
      var r, s := ProjectMember(members[0], first), ProjectMember(RenameMember(rho, members[0]), second);
      MembersRenamed(rho, members[1..], r.seen, s.seen);
      assert RenameMembers(rho, members)[1..] == RenameMembers(rho, members[1..]);
    }
  }

  // ---- Equal canonical forms come from a renaming.

  ghost predicate Distinct(seen: Seen) {
    forall role, i, j :: 0 <= i < j < |Ids(seen, role)| ==> Ids(seen, role)[i] != Ids(seen, role)[j]
  }

  ghost predicate Extends(seen: Seen, more: Seen) {
    forall role :: Ids(seen, role) <= Ids(more, role)
  }

  ghost predicate SameSizes(first: Seen, second: Seen) {
    forall role :: |Ids(first, role)| == |Ids(second, role)|
  }

  /** `rho` pairs the lists as far as both go. */
  ghost predicate Reaches(rho: Renaming, all: Seen, other: Seen) {
    forall role, i :: role != Session && 0 <= i < |Ids(all, role)| && i < |Ids(other, role)| ==>
      (role, Ids(all, role)[i]) in rho && rho[(role, Ids(all, role)[i])] == Ids(other, role)[i]
  }

  lemma IdentifyGrows(seen: Seen, role: Role, id: Text)
    ensures Extends(seen, Identify(seen, role, id).seen)
    ensures Distinct(seen) ==> Distinct(Identify(seen, role, id).seen)
  {
    hide Name, IndexOf;
    if Distinct(seen) {
      IdentifyDistinct(seen, role, id);
    }
    hide Distinct;
  }

  lemma IdentifyDistinct(seen: Seen, role: Role, id: Text)
    requires Distinct(seen)
    ensures Distinct(Identify(seen, role, id).seen)
  {
    hide Name, IndexOf;
    var after := Identify(seen, role, id).seen;
    forall other, i, j | 0 <= i < j < |Ids(after, other)|
      ensures Ids(after, other)[i] != Ids(after, other)[j]
    {
      if j < |Ids(seen, other)| {
        assert Ids(seen, other)[i] != Ids(seen, other)[j];
      }
    }
  }

  lemma ExtendsTrans(a: Seen, b: Seen, c: Seen)
    requires Extends(a, b) && Extends(b, c)
    ensures Extends(a, c)
  {
    forall role ensures Ids(a, role) <= Ids(c, role) {
      assert Ids(a, role) <= Ids(b, role) && Ids(b, role) <= Ids(c, role);
    }
  }

  lemma {:induction false} ProjectGrows(node: Json, seen: Seen)
    ensures Extends(seen, Project(node, seen).seen)
    ensures Distinct(seen) ==> Distinct(Project(node, seen).seen)
    decreases node, 1
  {
    match node
    case Array(items) => ItemsGrow(items, seen);
    case Object(members) => MembersGrow(members, seen);
    case _ =>
  }

  lemma {:induction false} ItemsGrow(items: seq<Json>, seen: Seen)
    ensures Extends(seen, ProjectItems(items, seen).seen)
    ensures Distinct(seen) ==> Distinct(ProjectItems(items, seen).seen)
    decreases items, 0
  {
    if items != [] {
      var first := Project(items[0], seen).seen;
      ProjectGrows(items[0], seen);
      ItemsGrow(items[1..], first);
      ExtendsTrans(seen, first, ProjectItems(items, seen).seen);
    }
  }

  lemma {:induction false} MemberGrows(member: Member, seen: Seen)
    ensures Extends(seen, ProjectMember(member, seen).seen)
    ensures Distinct(seen) ==> Distinct(ProjectMember(member, seen).seen)
    decreases member, 0
  {
    hide Extends, Distinct, RoleOf, Identify;
    if RoleOf(member.key).Some? && member.value.String? {
      IdentifyGrows(seen, RoleOf(member.key).value, member.value.text);
    } else {
      ProjectGrows(member.value, seen);
    }
  }

  lemma {:induction false} MembersGrow(members: seq<Member>, seen: Seen)
    ensures Extends(seen, ProjectMembers(members, seen).seen)
    ensures Distinct(seen) ==> Distinct(ProjectMembers(members, seen).seen)
    decreases members, 0
  {
    hide ProjectMember, Extends, Distinct;
    if members != [] {
      var first := ProjectMember(members[0], seen).seen;
      MemberGrows(members[0], seen);
      MembersGrow(members[1..], first);
      ExtendsTrans(seen, first, ProjectMembers(members, seen).seen);
    } else {
      ExtendsSelf(seen);
    }
  }

  lemma ExtendsSelf(seen: Seen)
    ensures Extends(seen, seen)
  {
  }

  lemma SizesAfter(first: Seen, second: Seen, role: Role, a: Text, b: Text)
    requires SameSizes(first, second) && role != Session && (a in Ids(first, role) <==> b in Ids(second, role))
    ensures SameSizes(Identify(first, role, a).seen, Identify(second, role, b).seen)
  {
    var r, s := Identify(first, role, a).seen, Identify(second, role, b).seen;
    forall other ensures |Ids(r, other)| == |Ids(s, other)| {
      assert |Ids(first, other)| == |Ids(second, other)|;
    }
  }

  lemma SizeHere(first: Seen, second: Seen, role: Role)
    requires SameSizes(first, second)
    ensures |Ids(first, role)| == |Ids(second, role)|
  {
  }

  /** Equal names of two identities: the renaming between the final lists takes one to the other. */
  lemma IdentifySame(rho: Renaming, role: Role, a: Text, b: Text, first: Seen, second: Seen, all: Seen, other: Seen)
    requires SameSizes(first, second) && Reaches(rho, all, other)
    requires Extends(Identify(first, role, a).seen, all) && Extends(Identify(second, role, b).seen, other)
    requires Identify(first, role, a).name == Identify(second, role, b).name
    ensures SameSizes(Identify(first, role, a).seen, Identify(second, role, b).seen)
    ensures NewName(rho, role, a) == b && (role == Session || (role, a) in rho)
  {
    hide Name, IndexOf, Identify, Reaches, Extends, SameSizes;
    if role != Session {
      var i, j := Place(first, role, a), Place(second, role, b);
      Placed(first, role, a);
      Placed(second, role, b);
      NameInjective(role, i, j);
      SizeHere(first, second, role);
      SizesAfter(first, second, role, a, b);
      ExtendedAt(Identify(first, role, a).seen, all, role);
      ExtendedAt(Identify(second, role, b).seen, other, role);
      ReachedAt(rho, all, other, role, i);
    } else {
      SessionSame(first, a);
      SessionSame(second, b);
    }
  }

  /** The number under which an identity is met. */
  function Place(seen: Seen, role: Role, id: Text): nat {
    var ids := Ids(seen, role);
    if id in ids then IndexOf(ids, id) else |ids|
  }

  lemma Placed(seen: Seen, role: Role, id: Text)
    requires role != Session
    ensures var k, named := Place(seen, role, id), Identify(seen, role, id);
      && named.name == Name(role, k) && k < |Ids(named.seen, role)| && Ids(named.seen, role)[k] == id
      && (id in Ids(seen, role) <==> k < |Ids(seen, role)|)
  {
    hide Name;
  }

  lemma SessionSame(seen: Seen, id: Text)
    ensures Identify(seen, Session, id) == Named(id, seen)
  {
  }

  lemma ExtendedAt(seen: Seen, more: Seen, role: Role)
    requires Extends(seen, more)
    ensures Ids(seen, role) <= Ids(more, role)
  {
  }

  lemma ReachedAt(rho: Renaming, all: Seen, other: Seen, role: Role, i: nat)
    requires Reaches(rho, all, other) && role != Session && i < |Ids(all, role)| && i < |Ids(other, role)|
    ensures (role, Ids(all, role)[i]) in rho && rho[(role, Ids(all, role)[i])] == Ids(other, role)[i]
  {
  }

  lemma {:induction false} ProjectSame(rho: Renaming, a: Json, b: Json, first: Seen, second: Seen, all: Seen, other: Seen)
    requires SameSizes(first, second) && Reaches(rho, all, other)
    requires Extends(Project(a, first).seen, all) && Extends(Project(b, second).seen, other)
    requires Project(a, first).value == Project(b, second).value
    ensures SameSizes(Project(a, first).seen, Project(b, second).seen)
    ensures Covers(rho, a) && Rename(rho, a) == b
    decreases a, 1
  {
    match a
    case Array(items) => ItemsSame(rho, items, b.items, first, second, all, other);
    case Object(members) => MembersSame(rho, members, b.members, first, second, all, other);
    case _ =>
  }

  lemma {:induction false} ItemsSame(rho: Renaming, a: seq<Json>, b: seq<Json>, first: Seen, second: Seen, all: Seen, other: Seen)
    requires SameSizes(first, second) && Reaches(rho, all, other)
    requires Extends(ProjectItems(a, first).seen, all) && Extends(ProjectItems(b, second).seen, other)
    requires ProjectItems(a, first).value == ProjectItems(b, second).value
    ensures SameSizes(ProjectItems(a, first).seen, ProjectItems(b, second).seen)
    ensures CoversItems(rho, a) && RenameItems(rho, a) == b
    decreases a, 0
  {
    hide Reaches, Extends, SameSizes, Project;
    if a != [] {
      assert b != [];
      var r, s := Project(a[0], first), Project(b[0], second);
      var v, w := ProjectItems(a, first).value, ProjectItems(b, second).value;
      assert v[0] == r.value && w[0] == s.value;
      assert v[1..] == ProjectItems(a[1..], r.seen).value && w[1..] == ProjectItems(b[1..], s.seen).value;
      ItemsGrow(a[1..], r.seen);
      ItemsGrow(b[1..], s.seen);
      ExtendsTrans(r.seen, ProjectItems(a, first).seen, all);
      ExtendsTrans(s.seen, ProjectItems(b, second).seen, other);
      ProjectSame(rho, a[0], b[0], first, second, all, other);
      ItemsSame(rho, a[1..], b[1..], r.seen, s.seen, all, other);
      assert b == [b[0]] + b[1..];
    } else {
      assert b == [];
    }
  }

  lemma {:induction false} MemberSame(rho: Renaming, a: Member, b: Member, first: Seen, second: Seen, all: Seen, other: Seen)
    requires SameSizes(first, second) && Reaches(rho, all, other)
    requires Extends(ProjectMember(a, first).seen, all) && Extends(ProjectMember(b, second).seen, other)
    requires ProjectMember(a, first).value == ProjectMember(b, second).value
    ensures SameSizes(ProjectMember(a, first).seen, ProjectMember(b, second).seen)
    ensures CoversMember(rho, a) && RenameMember(rho, a) == b
    decreases a, 0
  {
    hide Reaches, Extends, SameSizes, RoleOf, Identify, NewName;
    assert a.key == b.key;
    if RoleOf(a.key).Some? && a.value.String? {
      assert b.value.String?;
      IdentifySame(rho, RoleOf(a.key).value, a.value.text, b.value.text, first, second, all, other);
    } else {
      assert !(RoleOf(b.key).Some? && b.value.String?);
      ProjectSame(rho, a.value, b.value, first, second, all, other);
    }
  }

  lemma {:induction false} MembersSame(rho: Renaming, a: seq<Member>, b: seq<Member>, first: Seen, second: Seen, all: Seen, other: Seen)
    requires SameSizes(first, second) && Reaches(rho, all, other)
    requires Extends(ProjectMembers(a, first).seen, all) && Extends(ProjectMembers(b, second).seen, other)
    requires ProjectMembers(a, first).value == ProjectMembers(b, second).value
    ensures SameSizes(ProjectMembers(a, first).seen, ProjectMembers(b, second).seen)
    ensures CoversMembers(rho, a) && RenameMembers(rho, a) == b
    decreases a, 0
  {
    hide Reaches, Extends, SameSizes, ProjectMember, RenameMember, CoversMember;
    if a != [] {
      assert b != [];
      var r, s := ProjectMember(a[0], first), ProjectMember(b[0], second);
      var v, w := ProjectMembers(a, first).value, ProjectMembers(b, second).value;
      assert v[0] == r.value && w[0] == s.value;
      assert v[1..] == ProjectMembers(a[1..], r.seen).value && w[1..] == ProjectMembers(b[1..], s.seen).value;
      MembersGrow(a[1..], r.seen);
      MembersGrow(b[1..], s.seen);
      ExtendsTrans(r.seen, ProjectMembers(a, first).seen, all);
      ExtendsTrans(s.seen, ProjectMembers(b, second).seen, other);
      MemberSame(rho, a[0], b[0], first, second, all, other);
      MembersSame(rho, a[1..], b[1..], r.seen, s.seen, all, other);
      assert b == [b[0]] + b[1..];
    } else {
      assert b == [];
    }
  }

  // ---- Main result.

  /** The renaming that takes the identities of one trace to those of another with the same canonical form. */
  function Pairing(all: Seen, other: Seen): Renaming {
    map role: Role, id: Text | role in all && id in all[role] && IndexOf(all[role], id) < |Ids(other, role)|
      :: (role, id) := Ids(other, role)[IndexOf(all[role], id)]
  }

  lemma PairingOneToOne(all: Seen, other: Seen)
    requires Distinct(other)
    ensures OneToOne(Pairing(all, other))
  {
    var rho := Pairing(all, other);
    forall a <- rho, b <- rho | a.0 == b.0 && rho[a] == rho[b]
      ensures a == b
    {
      hide IndexOf, OneToOne;
      var i, j := IndexOf(all[a.0], a.1), IndexOf(all[b.0], b.1);
      assert rho[a] == Ids(other, a.0)[i] && rho[b] == Ids(other, a.0)[j];
      assert i == j;
      assert all[a.0][i] == a.1 && all[a.0][j] == b.1;
    }
  }

  lemma PairingReaches(all: Seen, other: Seen)
    requires Distinct(all) && Distinct(other)
    ensures OneToOne(Pairing(all, other)) && Reaches(Pairing(all, other), all, other)
  {
    PairingOneToOne(all, other);
    hide OneToOne;
    var rho := Pairing(all, other);
    forall role, i | role != Session && 0 <= i < |Ids(all, role)| && i < |Ids(other, role)|
      ensures (role, Ids(all, role)[i]) in rho && rho[(role, Ids(all, role)[i])] == Ids(other, role)[i]
    {
      var j := IndexOf(all[role], Ids(all, role)[i]);
      assert Ids(all, role)[j] == Ids(all, role)[i];
      assert i == j;
    }
  }

  lemma NothingSeen()
    ensures SameSizes(map[], map[]) && Distinct(map[]) && forall rho :: Matched(rho, map[], map[])
  {
  }

  /** The canonical form is the same exactly for traces that differ by a one-to-one renaming of their identities. */
  lemma NormalizeCanonical(a: Json, b: Json)
    ensures Normalize(a) == Normalize(b) <==>
      exists rho: Renaming :: OneToOne(rho) && Covers(rho, a) && Rename(rho, a) == b
  {
    hide Matched, Distinct, Extends, SameSizes, Project, Rename, Covers, Pairing, OneToOne;
    NothingSeen();
    if Normalize(a) == Normalize(b) {
      var all, other := Project(a, map[]).seen, Project(b, map[]).seen;
      ProjectGrows(a, map[]);
      ProjectGrows(b, map[]);
      PairingReaches(all, other);
      ExtendsSelf(all);
      ExtendsSelf(other);
      ProjectSame(Pairing(all, other), a, b, map[], map[], all, other);
    }
    forall rho: Renaming | OneToOne(rho) && Covers(rho, a) && Rename(rho, a) == b
      ensures Normalize(a) == Normalize(b)
    {
      ProjectRenamed(rho, a, map[], map[]);
    }
  }
}
