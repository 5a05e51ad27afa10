/** The namespace trie of a snapshot, grown node by node while rows are described. */
module NamespaceTrie {
  import opened Text
  import opened NamespaceRule

  /** Children are found by portable key and named by their place among the trie's nodes. */
  datatype Node = Node(spelling: Text, kind: Kind, children: map<Text, nat>)

  /** The paths already entered. */
  function EntrySet(rows: seq<Row>): set<seq<Text>> {
    set i | 0 <= i < |rows| :: rows[i].components
  }

  /** Where the node of a key path stands. */
  type Places = map<Path, nat>

  ghost predicate ChildrenOf(nodes: seq<Node>, at: Places, p: Path) {
    && p in at && at[p] < |nodes|
    && (forall key <- nodes[at[p]].children :: p + [key] in at && nodes[at[p]].children[key] == at[p + [key]])
    && forall key :: p + [key] in at ==> key in nodes[at[p]].children
  }

  ghost predicate Placed(nodes: seq<Node>, at: Places, space: Namespace) {
    && at.Keys == space.Keys && [] in at && at[[]] == 0
    && (forall p <- at :: at[p] < |nodes| && space[p] == Entry(nodes[at[p]].spelling, nodes[at[p]].kind))
    && (forall p <- at, q <- at :: at[p] == at[q] ==> p == q)
  }

  ghost predicate Downward(at: Places) {
    forall p <- at :: p != [] ==> p[..|p| - 1] in at
  }

  ghost predicate AllChildren(nodes: seq<Node>, at: Places) {
    forall p <- at :: ChildrenOf(nodes, at, p)
  }

  /** The nodes are the namespace: one for every key path, children linked by their keys. */
  ghost predicate Coherent(nodes: seq<Node>, at: Places, space: Namespace) {
    Placed(nodes, at, space) && Downward(at) && AllChildren(nodes, at)
  }

  lemma SnocInjective(p: Path, q: Path, a: Text, b: Text)
    ensures p + [a] == q + [b] <==> p == q && a == b
  {
    if p + [a] == q + [b] {
      assert (p + [a])[..|p|] == p && (q + [b])[..|q|] == q && (p + [a])[|p|] == a;
    }
  }

  function WithChild(nodes: seq<Node>, parent: nat, key: Text, component: Text): seq<Node>
    requires parent < |nodes|
  {
    nodes[parent := nodes[parent].(children := nodes[parent].children[key := |nodes|])] + [Node(component, Implicit, map[])]
  }

  lemma ChildPlaced(nodes: seq<Node>, at: Places, space: Namespace, p: Path, key: Text, component: Text)
    requires Placed(nodes, at, space) && p in at && p + [key] !in at
    ensures Placed(WithChild(nodes, at[p], key, component), at[p + [key] := |nodes|], space[p + [key] := Entry(component, Implicit)])
  {
  }

  lemma ChildDownward(at: Places, p: Path, key: Text, place: nat)
    requires Downward(at) && p in at
    ensures Downward(at[p + [key] := place])
  {
    assert (p + [key])[..|p|] == p;
  }

  lemma ChildChildren(nodes: seq<Node>, at: Places, p: Path, key: Text, component: Text)
    requires AllChildren(nodes, at) && Downward(at) && p in at && at[p] < |nodes| && p + [key] !in at
    requires forall q <- at :: at[q] < |nodes| && (at[q] == at[p] ==> q == p)
    ensures AllChildren(WithChild(nodes, at[p], key, component), at[p + [key] := |nodes|])
  {
    hide Downward, ChildrenOf, WithChild;
    var c := p + [key];
    var places := at[c := |nodes|];
    forall q <- places ensures ChildrenOf(WithChild(nodes, at[p], key, component), places, q) {
      if q == c {
        NewChildren(nodes, at, p, key, component);
      } else {
        KeptChildren(nodes, at, p, key, component, q);
      }
    }
  }

  lemma NewChildren(nodes: seq<Node>, at: Places, p: Path, key: Text, component: Text)
    requires Downward(at) && p in at && at[p] < |nodes| && p + [key] !in at
    ensures ChildrenOf(WithChild(nodes, at[p], key, component), at[p + [key] := |nodes|], p + [key])
  {
    hide Downward;
    var c := p + [key];
    forall k ensures c + [k] !in at[c := |nodes|] {
      NoGrandchild(at, c, k);
    }
  }

  lemma KeptChildren(nodes: seq<Node>, at: Places, p: Path, key: Text, component: Text, q: Path)
    requires p in at && at[p] < |nodes| && p + [key] !in at && q in at && ChildrenOf(nodes, at, q)
    requires at[q] == at[p] ==> q == p
    ensures ChildrenOf(WithChild(nodes, at[p], key, component), at[p + [key] := |nodes|], q)
  {
    forall k ensures q + [k] == p + [key] <==> q == p && k == key {
      SnocInjective(q, p, k, key);
    }
  }

  lemma ChildAdded(nodes: seq<Node>, at: Places, space: Namespace, p: Path, key: Text, component: Text)
    requires Coherent(nodes, at, space) && p in at && key !in nodes[at[p]].children
    ensures p + [key] !in at
    ensures Coherent(WithChild(nodes, at[p], key, component), at[p + [key] := |nodes|],
      space[p + [key] := Entry(component, Implicit)])
  {
    hide WithChild;
    assert ChildrenOf(nodes, at, p);
    ChildPlaced(nodes, at, space, p, key, component);
    ChildDownward(at, p, key, |nodes|);
    ChildChildren(nodes, at, p, key, component);
  }

  /** A path not in the trie has nothing below it. */
  lemma NoGrandchild(at: Places, c: Path, key: Text)
    requires Downward(at) && c !in at
    ensures c + [key] !in at && c + [key] != c
  {
    assert (c + [key])[..|c|] == c;
  }

  /** Marking the last node of a row. */
  lemma KindSet(nodes: seq<Node>, at: Places, space: Namespace, p: Path, kind: Kind)
    requires Coherent(nodes, at, space) && p in at
    ensures Coherent(nodes[at[p] := nodes[at[p]].(kind := kind)], at, space[p := Entry(space[p].spelling, kind)])
  {
    hide Downward;
    var marked := nodes[at[p] := nodes[at[p]].(kind := kind)];
    assert AllChildren(marked, at) by {
      forall q <- at ensures ChildrenOf(marked, at, q) {
        assert ChildrenOf(nodes, at, q);
        assert marked[at[q]].children == nodes[at[q]].children;
      }
    }
    hide ChildrenOf;
  }

  lemma HasChildHere(nodes: seq<Node>, at: Places, space: Namespace, p: Path)
    requires ChildrenOf(nodes, at, p) && at.Keys == space.Keys
    ensures nodes[at[p]].children != map[] <==> HasChild(space, p)
  {
    if nodes[at[p]].children != map[] {
      var key :| key in nodes[at[p]].children;
      assert p + [key] in space && (p + [key])[..|p|] == p;
    }
    if HasChild(space, p) {
      var c :| c in space && |c| == |p| + 1 && c[..|p|] == p;
      assert c == p + [c[|p|]];
    }
  }

  lemma RootTells(nodes: seq<Node>, at: Places, space: Namespace)
    requires Coherent(nodes, at, space)
    ensures [] in at && at[[]] == 0
  {
  }

  /** What the node of a path tells about its place in the namespace. */
  lemma NodeTells(nodes: seq<Node>, at: Places, space: Namespace, p: Path, key: Text)
    requires Coherent(nodes, at, space) && p in at
    ensures at[p] < |nodes| && p in space && nodes[at[p]].kind == space[p].kind && nodes[at[p]].spelling == space[p].spelling
    ensures key in nodes[at[p]].children <==> p + [key] in space
    ensures key in nodes[at[p]].children ==> p + [key] in at && nodes[at[p]].children[key] == at[p + [key]]
    ensures nodes[at[p]].children != map[] <==> HasChild(space, p)
  {
    hide Downward, HasChild;
    assert ChildrenOf(nodes, at, p);
    HasChildHere(nodes, at, space, p);
  }

  class Trie {
    const portable: Portable
    const rowLimit: nat         // declared entries
    const componentLimit: nat   // declared components; the root is one node more
    var nodes: seq<Node>
    var components: nat
    var count: nat
    var entries: set<seq<Text>>
    ghost var space: Namespace
    ghost var at: Places
    ghost var rows: seq<Row>      // accepted so far

    ghost predicate Valid()
      reads this
    {
      && Coherent(nodes, at, space) && Built(portable, space, rows)
      && |nodes| <= 1 + components <= 1 + componentLimit && count == |rows| == |entries| <= rowLimit
      && entries == EntrySet(rows)
    }

    predicate WithinCounts(row: Row)
      reads this`count, this`components
    {
      count < rowLimit && components + |row.components| <= componentLimit
    }

    constructor (portable: Portable, rowLimit: nat, componentLimit: nat)
      ensures Valid() && space == EMPTY && rows == [] && components == 0
      ensures this.portable == portable && this.rowLimit == rowLimit && this.componentLimit == componentLimit
    {
      this.portable, this.rowLimit, this.componentLimit := portable, rowLimit, componentLimit;
      nodes, components, count, entries := [Node([], Implicit, map[])], 0, 0, {};
      space, at, rows := EMPTY, map[[] := 0], [];
      new;
      EmptyBuilt(portable);
    }

    method AddChild(parent: nat, key: Text, component: Text, ghost p: Path) returns (child: nat)
      requires Coherent(nodes, at, space) && p in at && at[p] == parent && key !in nodes[parent].children
      modifies this`nodes, this`space, this`at
      ensures Coherent(nodes, at, space) && p + [key] in at && at[p + [key]] == child && |nodes| == old(|nodes|) + 1
      ensures space == old(space)[p + [key] := Entry(component, Implicit)]
    {
      ChildAdded(nodes, at, space, p, key, component);
      child := |nodes|;
      nodes := WithChild(nodes, parent, key, component);
      at := at[p + [key] := child];
      space := space[p + [key] := Entry(component, Implicit)];
    }

    /** One component of the walk: `node` stands at the first `k` keys of the row. */
    method Step(row: Row, k: nat, node: nat, ghost before: Namespace) returns (ok: bool, child: nat)
      requires Coherent(nodes, at, space) && k < |row.components| && space == Grown(portable, before, row, k)
      requires Keys(portable, row)[..k] in at && at[Keys(portable, row)[..k]] == node
      requires |nodes| <= componentLimit
      modifies this`nodes, this`space, this`at
      ensures ok <==> WalkOk(portable, before, row, k)
      ensures ok ==> Coherent(nodes, at, space) && space == Grown(portable, before, row, k + 1)
      ensures ok ==> Keys(portable, row)[..k + 1] in at && at[Keys(portable, row)[..k + 1]] == child
      ensures |nodes| <= old(|nodes|) + 1
    {
      hide Coherent, Grown, HasChild, Prefixes;
      ghost var keys := Keys(portable, row);
      GrownEnd(portable, before, row, k);
      GrownStep(portable, before, row, k);
      ok, child := false, 0;
      var component := row.components[k];
      var key := Key(portable, component);
      NodeTells(nodes, at, space, keys[..k], key);
      assert keys[..k + 1] == keys[..k] + [key];
      assert KindAt(space, keys[..k]) == KindAt(before, keys[..k]);
      if nodes[node].kind == File || portable(component).None? {
        return;
      }
      if key in nodes[node].children {
        child := nodes[node].children[key];
        NodeTells(nodes, at, space, keys[..k + 1], key);
        GrownKeeps(portable, before, row, k, keys[..k + 1]);
        ok := nodes[child].spelling == component;
        return;
      }
      if |nodes| >= componentLimit + 1 {
        return;
      }
      child := AddChild(node, key, component, keys[..k]);
      GrownAbsent(portable, before, row, k);
      ok := true;
    }

    method Walk(row: Row) returns (ok: bool, node: nat)
      requires Coherent(nodes, at, space) && |nodes| + |row.components| <= 1 + componentLimit
      modifies this`nodes, this`space, this`at
      ensures ok <==> forall k :: 0 <= k < |row.components| ==> WalkOk(portable, old(space), row, k)
      ensures ok ==> Coherent(nodes, at, space) && space == Grown(portable, old(space), row, |row.components|)
      ensures ok ==> Keys(portable, row) in at && at[Keys(portable, row)] == node
      ensures |nodes| <= old(|nodes|) + |row.components|
    {
      hide WalkOk, Grown, Coherent, Keys;
      GrownNone(portable, space, row);
      RootTells(nodes, at, space);
      node := 0;
      for k := 0 to |row.components|
        invariant Coherent(nodes, at, space) && space == Grown(portable, old(space), row, k)
        invariant Keys(portable, row)[..k] in at && at[Keys(portable, row)[..k]] == node
        invariant |nodes| <= old(|nodes|) + k
        invariant forall i :: 0 <= i < k ==> WalkOk(portable, old(space), row, i)
      {
        ok, node := Step(row, k, node, old(space));
        if !ok {
          return;
        }
      }
      ok := true;
      assert Keys(portable, row)[..|row.components|] == Keys(portable, row);
    }

    /**
      Adding one described row. It is refused exactly when the declared counts would be exceeded or
      the namespace of the rows before does not admit it; the checked node count never refuses.
     */
    method Add(row: Row) returns (ok: bool)
      requires Valid() && row.components != []
      modifies this
      ensures ok <==> old(WithinCounts(row)) && Admits(portable, old(space), row)
      ensures ok ==> Valid() && rows == old(rows) + [row] && components == old(components) + |row.components|
      ensures ok ==> space == After(portable, old(space), row)
    {
      hide Coherent, WalkOk, Grown, Built, HasChild, Keys;
      ghost var before := space;
      ghost var keys := Keys(portable, row);
      count := count + 1;
      components := components + |row.components|;
      if count > rowLimit || components > componentLimit {
        return false;
      }
      var walked, node := Walk(row);
      if !walked {
        return false;
      }
      NodeTells(nodes, at, space, keys, []);
      GrownEnd(portable, before, row, |row.components|);
      assert KindAt(space, keys) == KindAt(before, keys);
      if nodes[node].kind != Implicit || (!row.directory && nodes[node].children != map[]) {
        return false;
      }
      ok := Enter(row, node, before);
    }

    /** Marks the last node and enters the path; neither check of the entry map can refuse any more. */
    method Enter(row: Row, node: nat, ghost before: Namespace) returns (ok: bool)
      requires Coherent(nodes, at, space) && space == Grown(portable, before, row, |row.components|)
      requires Keys(portable, row) in at && at[Keys(portable, row)] == node
      requires Built(portable, before, rows) && Admits(portable, before, row)
      requires |nodes| <= 1 + components <= 1 + componentLimit && count == |rows| + 1 == |entries| + 1 <= rowLimit
      requires entries == EntrySet(rows)
      modifies this
      ensures ok && Valid() && rows == old(rows) + [row] && components == old(components)
      ensures space == After(portable, before, row)
    {
      hide Coherent, Admits, After, Grown, Built, HasChild, Keys, KindOf, EntrySet;
      ghost var keys := Keys(portable, row);
      RootTells(nodes, at, space);
      NodeTells(nodes, at, space, keys, []);
      KindSet(nodes, at, space, keys, KindOf(row));
      nodes := nodes[node := nodes[node].(kind := KindOf(row))];
      EnteredIs(portable, before, row);
      space := space[keys := Entry(space[keys].spelling, KindOf(row))];
      EntryIsNew(portable, before, rows, row);
      if |entries| >= rowLimit || row.components in entries {
        return false;
      }
      entries := entries + {row.components};
      AfterBuilt(portable, before, rows, row);
      EntriesAfter(rows, row);
      rows := rows + [row];
      return true;
    }
  }

  /** A node the walk can meet is old or was made with the row's own spelling. */
  lemma GrownKeeps(portable: Portable, before: Namespace, row: Row, k: nat, p: Path)
    requires k <= |row.components| && p in before
    ensures p in Grown(portable, before, row, k) && Grown(portable, before, row, k)[p] == before[p]
  {
  }

  lemma GrownAbsent(portable: Portable, before: Namespace, row: Row, k: nat)
    requires k < |row.components| && Keys(portable, row)[..k + 1] !in Grown(portable, before, row, k)
    ensures Keys(portable, row)[..k + 1] !in before
  {
  }

  lemma EnteredIs(portable: Portable, before: Namespace, row: Row)
    requires Admits(portable, before, row) && Keys(portable, row) in Grown(portable, before, row, |row.components|)
    ensures var grown, keys := Grown(portable, before, row, |row.components|), Keys(portable, row);
      grown[keys := Entry(grown[keys].spelling, KindOf(row))] == After(portable, before, row)
  {
    hide Grown, WalkOk;
    LastSpelling(portable, before, row);
  }

  lemma LastSpelling(portable: Portable, before: Namespace, row: Row)
    requires row.components != [] && Keys(portable, row) in Grown(portable, before, row, |row.components|)
    requires forall k :: 0 <= k < |row.components| ==> WalkOk(portable, before, row, k)
    ensures Grown(portable, before, row, |row.components|)[Keys(portable, row)].spelling == row.components[|row.components| - 1]
  {
    var n, q := |row.components|, Keys(portable, row);
    assert q[..n] == q;
    if q in before {
      assert WalkOk(portable, before, row, n - 1);
    } else {
      GrownFrom(portable, before, row, n, q);
    }
  }

  lemma EntriesAfter(rows: seq<Row>, row: Row)
    ensures EntrySet(rows + [row]) == EntrySet(rows) + {row.components}
  {
    var all := rows + [row];
    assert all[|rows|] == row && forall i :: 0 <= i < |rows| ==> all[i] == rows[i];
  }

  /** A path already entered would have been refused at its node. */
  lemma EntryIsNew(portable: Portable, before: Namespace, rows: seq<Row>, row: Row)
    requires Built(portable, before, rows) && Admits(portable, before, row)
    ensures row.components !in EntrySet(rows)
  {
    forall i | 0 <= i < |rows| ensures rows[i].components != row.components {
      assert KindAt(before, Keys(portable, rows[i])) == KindOf(rows[i]);
    }
  }

  function TotalComponents(rows: seq<Row>): nat {
    if rows == [] then 0 else |rows[0].components| + TotalComponents(rows[1..])
  }

  /**
    A description whose rows were counted before: accepted exactly under the pairwise rule,
    whatever the order of the rows.
   */
  method Describe(portable: Portable, rows: seq<Row>) returns (ok: bool)
    requires forall i :: 0 <= i < |rows| ==> rows[i].components != []
    ensures ok <==> Pairwise(portable, rows)
  {
    hide Pairwise, Admits, After, Coherent, Built;
    AcceptanceIsPairwise(portable, rows);
    var trie := new Trie(portable, |rows|, TotalComponents(rows));
    assert rows[0..] == rows;
    for i := 0 to |rows|
      invariant trie.Valid() && trie.portable == portable && |trie.rows| == i && fresh(trie)
      invariant trie.rowLimit == |rows| && trie.componentLimit == TotalComponents(rows)
      invariant trie.components + TotalComponents(rows[i..]) == TotalComponents(rows)
      invariant Accepted(portable, EMPTY, rows) <==> Accepted(portable, trie.space, rows[i..])
    {
      assert rows[i..][0] == rows[i] && rows[i..][1..] == rows[i + 1..];
      var added := trie.Add(rows[i]);
      if !added {
        return false;
      }
    }
    return true;
  }
}
