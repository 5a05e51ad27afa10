/** `normalize` with its role maps filled in place. */
module TraceNormalizer {
  import opened Text
  import opened TraceNormalize

  class Normalizer {
    var roles: map<Role, map<Text, Text>>
    ghost var seen: Seen

    ghost predicate Valid()
      reads this
    {
      forall role: Role :: role in roles && Filled(roles[role], role, Ids(seen, role))
    }

    constructor ()
      ensures Valid() && seen == map[]
    {
      roles := map[Host := map[], Session := map[], Provider := map[], Execution := map[], Snapshot := map[], Plan := map[]];
      seen := map[];
      new;
      forall role: Role ensures role in roles && Filled(roles[role], role, Ids(seen, role)) {
        match role { case Host => case Session => case Provider => case Execution => case Snapshot => case Plan => }
      }
    }

    method Identity(role: Role, id: Text) returns (name: Text)
      requires Valid()
      modifies this
      ensures Valid()
      ensures name == old(Identify(seen, role, id)).name && seen == old(Identify(seen, role, id)).seen
    {
      hide Name, Filled, BaseName, Decimal, Lit;
      if role == Session {
        return id;
      }
      FilledAt(roles[role], role, Ids(seen, role), id);
      if id in roles[role] {
        return roles[role][id];
      }
      name := CanonicalName(role, |roles[role]|);
      FilledAdd(roles[role], role, Ids(seen, role), id, name);
      roles := roles[role := roles[role][id := name]];
      seen := seen[role := Ids(seen, role) + [id]];
    }

    method ProjectNode(node: Json) returns (value: Json)
      requires Valid()
      modifies this
      ensures Valid()
      ensures value == old(Project(node, seen)).value && seen == old(Project(node, seen)).seen
      decreases node, 1
    {
      hide Filled;
      match node {
        case Array(items) =>
          var projected := ProjectArray(items);
          value := Array(projected);
        case Object(members) =>
          var projected := ProjectRecord(members);
          value := Object(projected);
        case _ => value := node;
      }
    }

    method ProjectArray(items: seq<Json>) returns (value: seq<Json>)
      requires Valid()
      modifies this
      ensures Valid()
      ensures value == old(ProjectItems(items, seen)).value && seen == old(ProjectItems(items, seen)).seen
      decreases items, 0
    {
      hide Filled, Project;
      if items == [] {
        return [];
      }
      var first := ProjectNode(items[0]);
      var rest := ProjectArray(items[1..]);
      return [first] + rest;
    }

    method ProjectRecord(members: seq<Member>) returns (value: seq<Member>)
      requires Valid()
      modifies this
      ensures Valid()
      ensures value == old(ProjectMembers(members, seen)).value && seen == old(ProjectMembers(members, seen)).seen
      decreases members, 0
    {
      hide Filled, Project, Identify, RoleOf;
      if members == [] {
        return [];
      }
      var key, item := members[0].key, members[0].value;
      var first: Member;
      if RoleOf(key).Some? && item.String? {
        var name := Identity(RoleOf(key).value, item.text);
        first := Member(key, String(name));
      } else {
        var projected := ProjectNode(item);
        first := Member(key, projected);
      }
      var rest := ProjectRecord(members[1..]);
      return [first] + rest;
    }
  }

  /** The role's map holds the canonical name of every identity met. */
  ghost predicate Filled(names: map<Text, Text>, role: Role, ids: seq<Text>) {
    && |names| == |ids|
    && (forall id :: id in names <==> id in ids)
    && forall id <- names :: names[id] == Name(role, IndexOf(ids, id))
  }

  method CanonicalName(role: Role, size: nat) returns (name: Text)
    ensures name == Name(role, size)
  {
    if (role == Host || role == Provider) && size == 0 {
      return BaseName(role);
    }
    return BaseName(role) + Lit("-") + Decimal(size + 1);
  }

  lemma FilledAt(names: map<Text, Text>, role: Role, ids: seq<Text>, id: Text)
    requires Filled(names, role, ids)
    ensures |names| == |ids| && (id in names <==> id in ids)
    ensures id in names ==> names[id] == Name(role, IndexOf(ids, id))
  {
    hide Name;
  }

  lemma {:induction false} IndexSnoc(ids: seq<Text>, last: Text, id: Text)
    requires id in ids + [last]
    ensures IndexOf(ids + [last], id) == if id in ids then IndexOf(ids, id) else |ids|
  {
    var all := ids + [last];
    var i := IndexOf(all, id);
    if id in ids {
      assert all[IndexOf(ids, id)] == id;
      assert ids[IndexOf(ids, id)] == id;
      if i < |ids| { assert ids[i] == id; }
    } else {
      assert all[|ids|] == last;
    }
  }

  lemma FilledAdd(names: map<Text, Text>, role: Role, ids: seq<Text>, id: Text, name: Text)
    requires Filled(names, role, ids) && id !in names && name == Name(role, |ids|)
    ensures Filled(names[id := name], role, ids + [id])
  {
    hide Name;
    var more, all := names[id := name], ids + [id];
    assert more.Keys == names.Keys + {id};
    forall other <- more ensures other in all && more[other] == Name(role, IndexOf(all, other)) {
      IndexSnoc(ids, id, other);
    }
  }

  method Normalized(trace: Json) returns (value: Json)
    ensures value == Normalize(trace)
  {
    var normalizer := new Normalizer();
    value := normalizer.ProjectNode(trace);
  }
}
