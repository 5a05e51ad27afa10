/** Which archive rows may stand together, and the namespace they make. */
module NamespaceRule {
  import opened Text

  /** A described row: the components of its path, and whether it is a directory. */
  datatype Row = Row(components: seq<Text>, directory: bool)

  datatype Kind = Implicit | File | Directory

  datatype Entry = Entry(spelling: Text, kind: Kind)

  type Path = seq<Text>

  /** The namespace as a map from portable-key paths. */
  type Namespace = map<Path, Entry>

  /** Parsing and portable keys are the host's; a component they refuse has none. */
  type Portable = Text -> Option<Text>

  function Key(portable: Portable, component: Text): Text {
    match portable(component) case Some(key) => key case None => []
  }

  function Keys(portable: Portable, row: Row): (keys: Path)
    ensures |keys| == |row.components|
  {
    seq(|row.components|, i requires 0 <= i < |row.components| => Key(portable, row.components[i]))
  }

  ghost predicate RowOk(portable: Portable, row: Row) {
    row.components != [] && forall i :: 0 <= i < |row.components| ==> portable(row.components[i]).Some?
  }

  /** The longest common prefix question, asked at one depth. */
  ghost predicate SharesPrefix(a: Path, b: Path, k: nat) {
    k <= |a| && k <= |b| && a[..k] == b[..k]
  }

  /**
    The pairwise rule: different key paths, no file above the other row, and one spelling for
    every shared key prefix.
   */
  ghost predicate Compatible(portable: Portable, a: Row, b: Row) {
    var p, q := Keys(portable, a), Keys(portable, b);
    && p != q
    && (!a.directory ==> !(p <= q))
    && (!b.directory ==> !(q <= p))
    && forall k :: 0 < k && SharesPrefix(p, q, k) ==> a.components[k - 1] == b.components[k - 1]
  }

  ghost predicate Pairwise(portable: Portable, rows: seq<Row>) {
    && (forall i :: 0 <= i < |rows| ==> RowOk(portable, rows[i]))
    && forall i, j :: 0 <= i < j < |rows| ==> Compatible(portable, rows[i], rows[j])
  }

  lemma CompatibleSymmetric(portable: Portable, a: Row, b: Row)
    requires Compatible(portable, a, b)
    ensures Compatible(portable, b, a)
  {
    var p, q := Keys(portable, a), Keys(portable, b);
    forall k | 0 < k && SharesPrefix(q, p, k) ensures b.components[k - 1] == a.components[k - 1] {
      assert SharesPrefix(p, q, k);
    }
  }

  // ---- The namespace of accepted rows.

  const EMPTY: Namespace := map[[] := Entry([], Implicit)]

  function Prefixes(keys: Path, k: nat): set<Path>
    requires k <= |keys|
  {
    set j | 0 < j <= k :: keys[..j]
  }

  /** The walk along `row` made the missing nodes of its first `k` prefixes. */
  ghost function Grown(portable: Portable, space: Namespace, row: Row, k: nat): Namespace
    requires k <= |row.components|
  {
    var keys := Keys(portable, row);
    space + map p | p in Prefixes(keys, k) && p !in space :: Entry(row.components[|p| - 1], Implicit)
  }

  ghost predicate HasChild(space: Namespace, path: Path) {
    exists q :: q in space && |q| == |path| + 1 && q[..|path|] == path
  }

  /** What the walk checks at depth `k`. */
  ghost predicate WalkOk(portable: Portable, space: Namespace, row: Row, k: nat)
    requires k < |row.components|
  {
    var keys := Keys(portable, row);
    && portable(row.components[k]).Some?
    && (keys[..k] in space ==> space[keys[..k]].kind != File)
    && (keys[..k + 1] in space ==> space[keys[..k + 1]].spelling == row.components[k])
  }

  ghost predicate EndOk(portable: Portable, space: Namespace, row: Row) {
    var keys := Keys(portable, row);
    && (keys in space ==> space[keys].kind == Implicit)
    && (!row.directory ==> !HasChild(space, keys))
  }

  ghost predicate Admits(portable: Portable, space: Namespace, row: Row) {
    && row.components != []
    && (forall k :: 0 <= k < |row.components| ==> WalkOk(portable, space, row, k))
    && EndOk(portable, space, row)
  }

  ghost function After(portable: Portable, space: Namespace, row: Row): Namespace {
    var n := |row.components|;
    var last := if n == 0 then [] else row.components[n - 1];
    Grown(portable, space, row, n)[Keys(portable, row) := Entry(last, KindOf(row))]
  }

  function KindOf(row: Row): Kind { if row.directory then Directory else File }

  function KindAt(space: Namespace, p: Path): Kind { if p in space then space[p].kind else Implicit }

  /** The namespace holds exactly the prefixes of the rows, with their spelling and kind. */
  ghost predicate Built(portable: Portable, space: Namespace, rows: seq<Row>) {
    && [] in space && space[[]].kind == Implicit
    && (forall i, k :: 0 <= i < |rows| && 0 < k <= |rows[i].components| ==>
      && Keys(portable, rows[i])[..k] in space
      && space[Keys(portable, rows[i])[..k]].spelling == rows[i].components[k - 1])
    && (forall i :: 0 <= i < |rows| ==>
      rows[i].components != [] && KindAt(space, Keys(portable, rows[i])) == KindOf(rows[i]))
    && (forall p <- space :: p != [] ==> Rooted(portable, p, rows))
    && (forall p <- space :: space[p].kind != Implicit ==> Owned(portable, p, rows))
  }

  ghost predicate Rooted(portable: Portable, p: Path, rows: seq<Row>) {
    exists i :: 0 <= i < |rows| && p <= Keys(portable, rows[i])
  }

  ghost predicate Owned(portable: Portable, p: Path, rows: seq<Row>) {
    exists i :: 0 <= i < |rows| && p == Keys(portable, rows[i])
  }

  lemma EmptyBuilt(portable: Portable)
    ensures Built(portable, EMPTY, [])
  {
  }

  lemma PrefixOfPrefix(c: Path, p: Path, n: nat)
    requires n <= |c|
    ensures c <= p ==> n <= |p| && p[..n] == c[..n]
  {
  }

  /** An admitted row is compatible with every row before it. */
  lemma AdmitsCompatible(portable: Portable, space: Namespace, rows: seq<Row>, row: Row, i: nat)
    requires Built(portable, space, rows) && Admits(portable, space, row) && i < |rows|
    ensures Compatible(portable, rows[i], row)
  {
    var a := rows[i];
    var p, q := Keys(portable, a), Keys(portable, row);
    assert p[..|a.components|] == p && p in space;
    assert KindAt(space, p) != Implicit;
    assert |p| < |q| && q[..|p|] == p && !a.directory ==> !WalkOk(portable, space, row, |p|);
    if |q| < |p| && p[..|q|] == q {
      var child := p[..|q| + 1];
      assert child in space && child[..|q|] == q;
      assert HasChild(space, q);
    }
    forall k | 0 < k && SharesPrefix(p, q, k) ensures a.components[k - 1] == row.components[k - 1] {
      assert p[..k] in space && space[p[..k]].spelling == a.components[k - 1];
      assert WalkOk(portable, space, row, k - 1);
    }
  }

  /** A row compatible with every row before it is admitted. */
  lemma CompatibleAdmits(portable: Portable, space: Namespace, rows: seq<Row>, row: Row)
    requires Built(portable, space, rows) && RowOk(portable, row)
    requires forall i :: 0 <= i < |rows| ==> Compatible(portable, rows[i], row)
    ensures Admits(portable, space, row)
  {
    var q := Keys(portable, row);
    NoRowAt(portable, rows, row);
    forall k | 0 <= k < |row.components| ensures WalkOk(portable, space, row, k) {
      FileAbove(portable, space, rows, row, k);
      if q[..k + 1] in space {
        OneSpelling(portable, space, rows, row, k);
      }
    }
    if !row.directory {
      forall c | c in space && |c| == |q| + 1 ensures c[..|q|] != q {
        NothingBelow(portable, rows, row, c);
        assert Rooted(portable, c, rows);
      }
    }
  }

  lemma NoRowAt(portable: Portable, rows: seq<Row>, row: Row)
    requires forall i :: 0 <= i < |rows| ==> Compatible(portable, rows[i], row)
    ensures !Owned(portable, Keys(portable, row), rows)
  {
    forall i | 0 <= i < |rows| ensures Keys(portable, row) != Keys(portable, rows[i]) {
      assert Compatible(portable, rows[i], row);
    }
  }

  lemma NothingBelow(portable: Portable, rows: seq<Row>, row: Row, c: Path)
    requires forall i :: 0 <= i < |rows| ==> Compatible(portable, rows[i], row)
    requires !row.directory && |c| > |row.components|
    ensures c[..|row.components|] == Keys(portable, row) ==> !Rooted(portable, c, rows)
  {
    var q := Keys(portable, row);
    forall i | 0 <= i < |rows| && c[..|q|] == q ensures !(c <= Keys(portable, rows[i])) {
      var p := Keys(portable, rows[i]);
      assert Compatible(portable, rows[i], row);
      PrefixOfPrefix(c, p, |q|);
    }
  }

  lemma FileAbove(portable: Portable, space: Namespace, rows: seq<Row>, row: Row, k: nat)
    requires Built(portable, space, rows) && k < |row.components|
    requires forall i :: 0 <= i < |rows| ==> Compatible(portable, rows[i], row)
    ensures KindAt(space, Keys(portable, row)[..k]) != File
  {
    var q := Keys(portable, row);
    var p := q[..k];
    forall i | 0 <= i < |rows| && p == Keys(portable, rows[i]) ensures rows[i].directory {
      assert Compatible(portable, rows[i], row) && p <= q;
    }
    if p in space && space[p].kind != Implicit {
      assert Owned(portable, p, rows);
      var i :| 0 <= i < |rows| && p == Keys(portable, rows[i]);
      assert KindAt(space, p) == KindOf(rows[i]);
    }
  }

  lemma OneSpelling(portable: Portable, space: Namespace, rows: seq<Row>, row: Row, k: nat)
    requires Built(portable, space, rows) && k < |row.components| && Keys(portable, row)[..k + 1] in space
    requires forall i :: 0 <= i < |rows| ==> Compatible(portable, rows[i], row)
    ensures space[Keys(portable, row)[..k + 1]].spelling == row.components[k]
  {
    var q := Keys(portable, row);
    assert Rooted(portable, q[..k + 1], rows);
    var i :| 0 <= i < |rows| && q[..k + 1] <= Keys(portable, rows[i]);
    var p := Keys(portable, rows[i]);
    assert p[..k + 1] == q[..k + 1];
    assert SharesPrefix(p, q, k + 1);
    assert Compatible(portable, rows[i], row);
  }

  lemma GrownHas(portable: Portable, space: Namespace, row: Row, k: nat, j: nat)
    requires j <= k <= |row.components| && [] in space
    ensures Keys(portable, row)[..j] in Grown(portable, space, row, k)
  {
  }

  lemma GrownFrom(portable: Portable, space: Namespace, row: Row, k: nat, p: Path)
    requires k <= |row.components| && p in Grown(portable, space, row, k) && p !in space
    ensures 0 < |p| <= k && p == Keys(portable, row)[..|p|]
    ensures Grown(portable, space, row, k)[p] == Entry(row.components[|p| - 1], Implicit)
  {
  }

  lemma GrownNone(portable: Portable, space: Namespace, row: Row)
    ensures Grown(portable, space, row, 0) == space
  {
    assert Prefixes(Keys(portable, row), 0) == {};
  }

  /** One more step of the walk: the next prefix is there already or is made. */
  lemma GrownStep(portable: Portable, space: Namespace, row: Row, k: nat)
    requires k < |row.components|
    ensures var p, grown := Keys(portable, row)[..k + 1], Grown(portable, space, row, k);
      Grown(portable, space, row, k + 1) == if p in grown then grown else grown[p := Entry(row.components[k], Implicit)]
    ensures Keys(portable, row)[..k + 1] in Grown(portable, space, row, k) ==> Keys(portable, row)[..k + 1] in space
  {
    var keys := Keys(portable, row);
    var p := keys[..k + 1];
    assert Prefixes(keys, k + 1) == Prefixes(keys, k) + {p};
    assert p !in Prefixes(keys, k);
  }

  /** The walk made no node below its end and changed no kind. */
  lemma GrownEnd(portable: Portable, space: Namespace, row: Row, k: nat)
    requires k <= |row.components|
    ensures forall p :: KindAt(Grown(portable, space, row, k), p) == KindAt(space, p)
    ensures HasChild(Grown(portable, space, row, k), Keys(portable, row)) == HasChild(space, Keys(portable, row))
  {
    var q, grown := Keys(portable, row), Grown(portable, space, row, k);
    if HasChild(grown, q) {
      var c :| c in grown && |c| == |q| + 1 && c[..|q|] == q;
      assert c !in Prefixes(q, k);
      assert c in space;
    }
    if HasChild(space, q) {
      var c :| c in space && |c| == |q| + 1 && c[..|q|] == q;
      assert c in grown;
    }
  }

  /** Admitting a row builds the namespace of one more row. */
  lemma AfterBuilt(portable: Portable, space: Namespace, rows: seq<Row>, row: Row)
    requires Built(portable, space, rows) && Admits(portable, space, row)
    ensures Built(portable, After(portable, space, row), rows + [row])
  {
    var n, q, all := |row.components|, Keys(portable, row), rows + [row];
    var grown, after := Grown(portable, space, row, n), After(portable, space, row);
    assert q[..n] == q;
    forall i, k | 0 <= i < |all| && 0 < k <= |all[i].components|
      ensures Keys(portable, all[i])[..k] in after && after[Keys(portable, all[i])[..k]].spelling == all[i].components[k - 1]
    {
      AfterSpelling(portable, space, rows, row, i, k);
    }
    forall i | 0 <= i < |all|
      ensures all[i].components != [] && KindAt(after, Keys(portable, all[i])) == KindOf(all[i])
    {
      if i < |rows| {
        AdmitsCompatible(portable, space, rows, row, i);
        assert Keys(portable, rows[i])[..|rows[i].components|] == Keys(portable, rows[i]);
      }
    }
    forall p <- after ensures (p != [] ==> Rooted(portable, p, all)) && (after[p].kind != Implicit ==> Owned(portable, p, all)) {
      AfterRooted(portable, space, rows, row, p);
    }
  }

  lemma AfterRooted(portable: Portable, space: Namespace, rows: seq<Row>, row: Row, p: Path)
    requires Built(portable, space, rows) && row.components != [] && p in After(portable, space, row)
    ensures p != [] ==> Rooted(portable, p, rows + [row])
    ensures After(portable, space, row)[p].kind != Implicit ==> Owned(portable, p, rows + [row])
  {
    var n, q, all := |row.components|, Keys(portable, row), rows + [row];
    assert all[|rows|] == row;
    if p == q {
      assert p <= Keys(portable, all[|rows|]) && p == Keys(portable, all[|rows|]);
    } else if p in space {
      assert After(portable, space, row)[p] == space[p];
      if p != [] {
        var i :| 0 <= i < |rows| && p <= Keys(portable, rows[i]);
        assert all[i] == rows[i];
      }
      if space[p].kind != Implicit {
        assert Owned(portable, p, rows);
        var i :| 0 <= i < |rows| && p == Keys(portable, rows[i]);
        assert all[i] == rows[i];
      }
    } else {
      GrownFrom(portable, space, row, n, p);
      assert p <= Keys(portable, all[|rows|]);
    }
  }

  lemma AfterSpelling(portable: Portable, space: Namespace, rows: seq<Row>, row: Row, i: nat, k: nat)
    requires Built(portable, space, rows) && Admits(portable, space, row)
    requires i <= |rows| && 0 < k <= |(rows + [row])[i].components| && [] in space
    ensures var r, after := (rows + [row])[i], After(portable, space, row);
      Keys(portable, r)[..k] in after && after[Keys(portable, r)[..k]].spelling == r.components[k - 1]
  {
    hide Built, Grown;
    var n, q := |row.components|, Keys(portable, row);
    assert q[..n] == q;
    if i < |rows| {
      var p := Keys(portable, rows[i])[..k];
      OldSpelling(portable, space, rows, row, i, k);
      if p == q {
        assert WalkOk(portable, space, row, n - 1);
      }
    } else if k < n {
      NewSpelling(portable, space, row, k);
    }
  }

  lemma OldSpelling(portable: Portable, space: Namespace, rows: seq<Row>, row: Row, i: nat, k: nat)
    requires Built(portable, space, rows) && i < |rows| && 0 < k <= |rows[i].components|
    ensures var p, grown := Keys(portable, rows[i])[..k], Grown(portable, space, row, |row.components|);
      p in space && p in grown && space[p] == grown[p] && space[p].spelling == rows[i].components[k - 1]
  {
  }

  lemma NewSpelling(portable: Portable, space: Namespace, row: Row, k: nat)
    requires [] in space && Admits(portable, space, row) && 0 < k < |row.components|
    ensures var q, grown := Keys(portable, row), Grown(portable, space, row, |row.components|);
      q[..k] in grown && grown[q[..k]].spelling == row.components[k - 1] && q[..k] != q
  {
    var n, q := |row.components|, Keys(portable, row);
    GrownHas(portable, space, row, n, k);
    if q[..k] in space {
      assert WalkOk(portable, space, row, k - 1);
    } else {
      GrownFrom(portable, space, row, n, q[..k]);
    }
  }

  // ---- Whole descriptions.

  /** Rows described one after the other, each admitted by the namespace of those before. */
  ghost predicate Accepted(portable: Portable, space: Namespace, rows: seq<Row>)
    decreases |rows|
  {
    rows == [] || (Admits(portable, space, rows[0]) && Accepted(portable, After(portable, space, rows[0]), rows[1..]))
  }

  lemma {:induction false} AcceptedPairwise(portable: Portable, space: Namespace, before: seq<Row>, rows: seq<Row>)
    requires Built(portable, space, before) && Pairwise(portable, before)
    ensures Accepted(portable, space, rows) <==> Pairwise(portable, before + rows)
    decreases |rows|
  {
    hide Compatible, RowOk, Built, Admits, After;
    if rows == [] {
      assert before + rows == before;
    } else {
      var row, more := rows[0], before + [rows[0]];
      assert more + rows[1..] == before + rows;
      if Admits(portable, space, row) {
        forall i | 0 <= i < |before| ensures Compatible(portable, before[i], row) {
          AdmitsCompatible(portable, space, before, row, i);
        }
        AdmitsRowOk(portable, space, row);
        AfterBuilt(portable, space, before, row);
        AcceptedPairwise(portable, After(portable, space, row), more, rows[1..]);
      } else if Pairwise(portable, before + rows) {
        var all := before + rows;
        assert all[|before|] == row;
        forall i | 0 <= i < |before| ensures Compatible(portable, before[i], row) {
          assert all[i] == before[i];
        }
        CompatibleAdmits(portable, space, before, row);
      }
    }
  }

  lemma AdmitsRowOk(portable: Portable, space: Namespace, row: Row)
    requires Admits(portable, space, row)
    ensures RowOk(portable, row)
  {
    forall i | 0 <= i < |row.components| ensures portable(row.components[i]).Some? {
      assert WalkOk(portable, space, row, i);
    }
  }

  /** Main result: the trie accepts a description exactly when its rows obey the pairwise rule. */
  lemma AcceptanceIsPairwise(portable: Portable, rows: seq<Row>)
    ensures Accepted(portable, EMPTY, rows) <==> Pairwise(portable, rows)
  {
    EmptyBuilt(portable);
    AcceptedPairwise(portable, EMPTY, [], rows);
    assert [] + rows == rows;
  }

  /** The rule asked of the rows without their order. */
  ghost predicate Together(portable: Portable, rows: multiset<Row>) {
    && (forall a <- rows :: rows[a] == 1 && RowOk(portable, a))
    && forall a <- rows, b <- rows :: a != b ==> Compatible(portable, a, b)
  }

  lemma RestKept(portable: Portable, rows: seq<Row>)
    requires rows != []
    ensures multiset(rows) == multiset{rows[0]} + multiset(rows[1..])
    ensures Pairwise(portable, rows) ==> Pairwise(portable, rows[1..])
  {
    hide RowOk, Compatible;
    var rest := rows[1..];
    assert rows == [rows[0]] + rest;
    assert forall i :: 0 <= i < |rest| ==> rest[i] == rows[i + 1];
  }

  lemma {:induction false} PairwiseTogether(portable: Portable, rows: seq<Row>)
    ensures Pairwise(portable, rows) ==> Together(portable, multiset(rows))
    decreases |rows|
  {
    hide RowOk, Compatible;
    if rows != [] && Pairwise(portable, rows) {
      var row, rest := rows[0], rows[1..];
      RestKept(portable, rows);
      PairwiseTogether(portable, rest);
      forall b | b in multiset(rest) ensures b != row && Compatible(portable, row, b) && Compatible(portable, b, row) {
        var j :| 0 <= j < |rest| && rest[j] == b;
        assert rows[j + 1] == b;
        CompatibleSymmetric(portable, row, b);
        NotSelf(portable, row, b);
      }
      assert row !in multiset(rest);
    }
  }

  lemma {:induction false} TogetherPairwise(portable: Portable, rows: seq<Row>)
    ensures Together(portable, multiset(rows)) ==> Pairwise(portable, rows)
    decreases |rows|
  {
    hide RowOk, Compatible;
    if rows != [] && Together(portable, multiset(rows)) {
      var row, rest := rows[0], rows[1..];
      RestKept(portable, rows);
      assert row in multiset(rows) && multiset(rows)[row] == 1;
      assert row !in multiset(rest);
      forall a | a in multiset(rest) ensures multiset(rest)[a] == 1 && RowOk(portable, a) && Compatible(portable, row, a) {
        assert a in multiset(rows) && multiset(rows)[a] == 1;
      }
      forall a, b | a in multiset(rest) && b in multiset(rest) && a != b ensures Compatible(portable, a, b) {
        assert a in multiset(rows) && b in multiset(rows);
      }
      assert Together(portable, multiset(rest));
      TogetherPairwise(portable, rest);
      forall i, j | 0 <= i < j < |rows| ensures Compatible(portable, rows[i], rows[j]) {
        assert rows[j] == rest[j - 1] && rest[j - 1] in multiset(rest);
        if i > 0 { assert rows[i] == rest[i - 1]; }
      }
      forall i | 0 <= i < |rows| ensures RowOk(portable, rows[i]) {
        assert rows[i] in multiset(rows);
      }
    }
  }

  lemma NotSelf(portable: Portable, a: Row, b: Row)
    requires Compatible(portable, a, b)
    ensures a != b
  {
  }

  /** Acceptance does not depend on the order in which rows are described. */
  lemma AcceptanceIgnoresOrder(portable: Portable, rows: seq<Row>, shuffled: seq<Row>)
    requires multiset(rows) == multiset(shuffled)
    ensures Accepted(portable, EMPTY, rows) <==> Accepted(portable, EMPTY, shuffled)
  {
    AcceptanceIsPairwise(portable, rows);
    AcceptanceIsPairwise(portable, shuffled);
    PairwiseTogether(portable, rows);
    TogetherPairwise(portable, rows);
    PairwiseTogether(portable, shuffled);
    TogetherPairwise(portable, shuffled);
  }
}
