/** The canonical form is itself a renaming of the trace, to the names of each role in the order of first appearance. */
module TraceNames {
  import opened Text
  import opened TraceNormalize

  /** The names of a role, one for each of its identities. */
  function Names(role: Role, n: nat): seq<Text> { seq(n, k requires 0 <= k < n => Name(role, k)) }

  function Canonical(all: Seen): Seen { map role <- all :: Names(role, |all[role]|) }

  lemma CanonicalIds(all: Seen, role: Role)
    ensures Ids(Canonical(all), role) == Names(role, |Ids(all, role)|)
  {
  }

  lemma CanonicalDistinct(all: Seen)
    ensures Distinct(Canonical(all))
  {
    hide Name;
    forall role, i, j | 0 <= i < j < |Ids(Canonical(all), role)|
      ensures Ids(Canonical(all), role)[i] != Ids(Canonical(all), role)[j]
    {
      CanonicalIds(all, role);
      if Name(role, i) == Name(role, j) {
        NameInjective(role, i, j);
      }
    }
  }

  /** `rho` gives every identity of `all` the name of its place. */
  ghost predicate GivesNames(rho: Renaming, all: Seen) { Reaches(rho, all, Canonical(all)) }

  lemma IdentityNamed(rho: Renaming, role: Role, id: Text, seen: Seen, all: Seen)
    requires GivesNames(rho, all) && Extends(Identify(seen, role, id).seen, all)
    ensures NewName(rho, role, id) == Identify(seen, role, id).name && (role == Session || (role, id) in rho)
  {
    hide Name, IndexOf, Identify, Reaches, Extends, Canonical, Names;
    if role == Session {
      SessionSame(seen, id);
    } else {
      var k := Place(seen, role, id);
      Placed(seen, role, id);
      ExtendedAt(Identify(seen, role, id).seen, all, role);
      CanonicalIds(all, role);
      NamedAt(role, |Ids(all, role)|, k);
      ReachedAt(rho, all, Canonical(all), role, k);
      assert Ids(all, role)[k] == id;
    }
  }

  lemma NamedAt(role: Role, n: nat, k: nat)
    requires k < n
    ensures |Names(role, n)| == n && Names(role, n)[k] == Name(role, k)
  {
    hide Name;
  }

  lemma {:induction false} NodeNamed(rho: Renaming, node: Json, seen: Seen, all: Seen)
    requires GivesNames(rho, all) && Extends(Project(node, seen).seen, all)
    ensures Covers(rho, node) && Rename(rho, node) == Project(node, seen).value
    decreases node, 1
  {
    match node
    case Array(items) => ItemsNamed(rho, items, seen, all);
    case Object(members) => MembersNamed(rho, members, seen, all);
    case _ =>
  }

  lemma {:induction false} ItemsNamed(rho: Renaming, items: seq<Json>, seen: Seen, all: Seen)
    requires GivesNames(rho, all) && Extends(ProjectItems(items, seen).seen, all)
    ensures CoversItems(rho, items) && RenameItems(rho, items) == ProjectItems(items, seen).value
    decreases items, 0
  {
    hide GivesNames, Extends, Project;
    if items != [] {
      var first := Project(items[0], seen).seen;
      ItemsGrow(items[1..], first);
      ExtendsTrans(first, ProjectItems(items, seen).seen, all);
      NodeNamed(rho, items[0], seen, all);
      ItemsNamed(rho, items[1..], first, all);
    }
  }

  lemma {:induction false} MemberNamed(rho: Renaming, member: Member, seen: Seen, all: Seen)
    requires GivesNames(rho, all) && Extends(ProjectMember(member, seen).seen, all)
    ensures CoversMember(rho, member) && RenameMember(rho, member) == ProjectMember(member, seen).value
    decreases member, 0
  {
    hide GivesNames, Extends, RoleOf, Identify, NewName;
    if RoleOf(member.key).Some? && member.value.String? {
      IdentityNamed(rho, RoleOf(member.key).value, member.value.text, seen, all);
    } else {
      NodeNamed(rho, member.value, seen, all);
    }
  }

  lemma {:induction false} MembersNamed(rho: Renaming, members: seq<Member>, seen: Seen, all: Seen)
    requires GivesNames(rho, all) && Extends(ProjectMembers(members, seen).seen, all)
    ensures CoversMembers(rho, members) && RenameMembers(rho, members) == ProjectMembers(members, seen).value
    decreases members, 0
  {
    hide GivesNames, Extends, ProjectMember, RenameMember, CoversMember;
    if members != [] {
      var first := ProjectMember(members[0], seen).seen;
      MembersGrow(members[1..], first);
      ExtendsTrans(first, ProjectMembers(members, seen).seen, all);
      MemberNamed(rho, members[0], seen, all);
      MembersNamed(rho, members[1..], first, all);
    }
  }

  /** Main result: the canonical form keeps the trace as it is, up to a one-to-one renaming to the names of the roles, in order. */
  lemma NormalIsRenaming(trace: Json) returns (rho: Renaming)
    ensures OneToOne(rho) && Covers(rho, trace) && Rename(rho, trace) == Normalize(trace)
    ensures forall key <- rho :: exists k: nat :: rho[key] == Name(key.0, k)
  {
    var all := Project(trace, map[]).seen;
    rho := Pairing(all, Canonical(all));
    ProjectGrows(trace, map[]);
    NothingSeen();
    CanonicalDistinct(all);
    PairingReaches(all, Canonical(all));
    PairingNames(all);
    ExtendsSelf(all);
    hide Pairing, OneToOne, Extends, Reaches, Canonical, Project, Rename, Covers, Distinct, Name;
    NodeNamed(rho, trace, map[], all);
  }

  lemma PairingNames(all: Seen)
    ensures var rho := Pairing(all, Canonical(all)); forall key <- rho :: exists k: nat :: rho[key] == Name(key.0, k)
  {
    var rho := Pairing(all, Canonical(all));
    hide Name;
    forall key <- rho
      ensures exists k: nat :: rho[key] == Name(key.0, k)
    {
      CanonicalIds(all, key.0);
      var k := IndexOf(all[key.0], key.1);
      assert rho[key] == Name(key.0, k);
    }
  }

  /** Normalizing twice is normalizing once. */
  lemma NormalizeIdempotent(trace: Json)
    ensures Normalize(Normalize(trace)) == Normalize(trace)
  {
    hide Normalize, OneToOne, Covers, Rename;
    var rho := NormalIsRenaming(trace);
    NormalizeCanonical(trace, Normalize(trace));
  }
}
