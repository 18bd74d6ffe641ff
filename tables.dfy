/** What a watermark table under a container node means: each child is a
    process id whose data is the decimal sequence number that process has
    delivered up to. Both protocol variants read their tables this way. */
module Tables {
  import opened Failure
  import Decimal
  import opened Coordination

  /** The value a child's data denotes, if it parses as a Java int. */
  function Reading(nodes: map<Path, Node>, q: Path): Option<int> {
    if q in nodes then Decimal.ParseInt(nodes[q].data) else None
  }

  /** The table a full refresh of container p builds: every child whose data parses. */
  function Table(nodes: map<Path, Node>, p: Path): map<string, int> {
    map c | c in Children(nodes, p) && Reading(nodes, p + [c]).Some? :: Reading(nodes, p + [c]).value
  }

  /** Every child of p holds a decimal int, so a refresh does not throw. */
  predicate Readable(nodes: map<Path, Node>, p: Path) {
    forall c | c in Children(nodes, p) :: Reading(nodes, p + [c]).Some?
  }

  /** A child whose data parses is an entry of the table, with that value. */
  lemma EntryOf(nodes: map<Path, Node>, p: Path, c: string, v: int)
    requires Reading(nodes, p + [c]) == Some(v)
    ensures c in Table(nodes, p) && Table(nodes, p)[c] == v
  {
    ChildExists(nodes, p, c);
  }

  lemma TableOfReadable(nodes: map<Path, Node>, p: Path)
    requires Readable(nodes, p)
    ensures Table(nodes, p).Keys == Children(nodes, p)
  {
  }

  /** A table holds Java ints only. */
  lemma TableInRange(nodes: map<Path, Node>, p: Path, c: string)
    requires c in Table(nodes, p)
    ensures Decimal.INT_MIN <= Table(nodes, p)[c] <= Decimal.INT_MAX
  {
  }

  /** Writing child c of p adds c to the children of p. */
  lemma ChildrenAfterPut(nodes: map<Path, Node>, p: Path, c: string, n: Node)
    ensures Children(nodes[p + [c] := n], p) == Children(nodes, p) + {c}
  {
    forall x ensures x in Children(nodes[p + [c] := n], p) <==> x in Children(nodes, p) + {c} {
      ChildExists(nodes[p + [c] := n], p, x);
      ChildExists(nodes, p, x);
    }
  }

  /** Writing a node that is not a child of p leaves the children of p alone. */
  lemma ChildrenAfterPutElsewhere(nodes: map<Path, Node>, p: Path, q: Path, n: Node)
    requires !(|q| == |p| + 1 && q[..|p|] == p)
    ensures Children(nodes[q := n], p) == Children(nodes, p)
  {
    forall x ensures x in Children(nodes[q := n], p) <==> x in Children(nodes, p) {
      ChildExists(nodes[q := n], p, x);
      ChildExists(nodes, p, x);
      assert (p + [x])[..|p|] == p;
    }
  }

  lemma {:induction false} ChildrenAfterRemove(nodes: map<Path, Node>, p: Path, c: string)
    ensures Children(nodes - {p + [c]}, p) == Children(nodes, p) - {c}
  {
    forall x ensures x in Children(nodes - {p + [c]}, p) <==> x in Children(nodes, p) - {c} {
      ChildExists(nodes - {p + [c]}, p, x);
      ChildExists(nodes, p, x);
    }
  }

  /** Writing data d into child c of p (by create or setData) changes exactly
      the entry of c: it now holds what d denotes, or is absent if d does not parse. */
  lemma TableAfterPut(nodes: map<Path, Node>, p: Path, c: string, n: Node)
    ensures Decimal.ParseInt(n.data).Some? ==>
      Table(nodes[p + [c] := n], p) == Table(nodes, p)[c := Decimal.ParseInt(n.data).value]
    ensures Decimal.ParseInt(n.data).None? ==> Table(nodes[p + [c] := n], p) == Table(nodes, p) - {c}
  {
    var after := nodes[p + [c] := n];
    ChildrenAfterPut(nodes, p, c, n);
    forall x | x != c
      ensures Reading(after, p + [x]) == Reading(nodes, p + [x])
    {
      assert p + [x] != p + [c] by { assert (p + [x])[|p|] == x; }
    }
    assert Reading(after, p + [c]) == Decimal.ParseInt(n.data);
    var t, u := Table(after, p), Table(nodes, p);
    if Decimal.ParseInt(n.data).Some? {
      var w := u[c := Decimal.ParseInt(n.data).value];
      assert forall x :: x in t <==> x in w;
      assert forall x | x in t :: t[x] == w[x];
      assert t == w;
    } else {
      var w := u - {c};
      assert forall x :: x in t <==> x in w;
      assert forall x | x in t :: t[x] == w[x];
      assert t == w;
    }
  }

  /** Deleting child c of p removes exactly the entry of c. */
  lemma TableAfterRemove(nodes: map<Path, Node>, p: Path, c: string)
    ensures Table(nodes - {p + [c]}, p) == Table(nodes, p) - {c}
  {
    ChildrenAfterRemove(nodes, p, c);
    forall x | x != c
      ensures Reading(nodes - {p + [c]}, p + [x]) == Reading(nodes, p + [x])
    {
      assert p + [x] != p + [c] by { assert (p + [x])[|p|] == x; }
    }
  }

  /** Writing or deleting a node that is not a child of p leaves the table of p alone. */
  lemma TableElsewhere(nodes: map<Path, Node>, p: Path, q: Path, n: Node)
    requires !(|q| == |p| + 1 && q[..|p|] == p)
    ensures Table(nodes[q := n], p) == Table(nodes, p)
    ensures Table(nodes - {q}, p) == Table(nodes, p)
  {
    ChildrenAfterPutElsewhere(nodes, p, q, n);
    TableAfterRemoveAll(nodes, p, {q});
    forall x ensures Reading(nodes[q := n], p + [x]) == Reading(nodes, p + [x]) {
      assert (p + [x])[..|p|] == p;
    }
  }

  /** Deleting nodes none of which is a child of p leaves the table of p alone. */
  lemma TableAfterRemoveAll(nodes: map<Path, Node>, p: Path, gone: set<Path>)
    requires forall q | q in gone :: !(|q| == |p| + 1 && q[..|p|] == p)
    ensures Table(nodes - gone, p) == Table(nodes, p)
  {
    var after := nodes - gone;
    forall x ensures p + [x] in after <==> p + [x] in nodes {
      assert (p + [x])[..|p|] == p;
    }
    forall x ensures x in Children(after, p) <==> x in Children(nodes, p) {
      ChildExists(after, p, x);
      ChildExists(nodes, p, x);
    }
    assert Children(after, p) == Children(nodes, p);
    forall x ensures Reading(after, p + [x]) == Reading(nodes, p + [x]) {
    }
  }

  /** Writing a parseable value keeps a readable table readable. */
  lemma ReadableAfterPut(nodes: map<Path, Node>, p: Path, c: string, n: Node)
    requires Readable(nodes, p) && Decimal.ParseInt(n.data).Some?
    ensures Readable(nodes[p + [c] := n], p)
  {
    var q := p + [c];
    ChildrenAfterPut(nodes, p, c, n);
    forall x | x in Children(nodes[q := n], p)
      ensures Reading(nodes[q := n], p + [x]).Some?
    {
      if x != c {
        assert p + [x] != q by { assert (p + [x])[|p|] == x; }
      }
    }
  }

  /** The outcome of the "min = MAX_VALUE; if (i < min) min = i" loop over the
      values of t: the least value, or Integer.MAX_VALUE if t is empty. */
  predicate IsMinimum(t: map<string, int>, m: int) {
    m <= Decimal.INT_MAX &&
    (forall k | k in t :: m <= t[k]) &&
    (m == Decimal.INT_MAX || exists k | k in t :: t[k] == m)
  }

  /** The least value of t, Integer.MAX_VALUE if t is empty or holds nothing lower. */
  ghost function Minimum(t: map<string, int>): int
    decreases |t|
  {
    if t == map[] then Decimal.INT_MAX
    else
      var k :| k in t;
      var rest := Minimum(t - {k});
      if t[k] < rest then t[k] else rest
  }

  lemma {:induction false} MinimumIs(t: map<string, int>)
    ensures IsMinimum(t, Minimum(t))
    decreases |t|
  {
    if t != map[] {
      var k :| k in t && Minimum(t) == if t[k] < Minimum(t - {k}) then t[k] else Minimum(t - {k});
      var rest := t - {k};
      MinimumIs(rest);
      var m := Minimum(t);
      forall j | j in t ensures m <= t[j] {
        if j != k {
          assert j in rest && rest[j] == t[j];
        }
      }
      if m != Decimal.INT_MAX && m != t[k] {
        var w :| w in rest && rest[w] == m;
        assert w in t && t[w] == m;
      }
    }
  }

  /** The loop's outcome is determined by the table. */
  lemma MinimumUnique(t: map<string, int>, m: int)
    requires IsMinimum(t, m)
    ensures m == Minimum(t)
  {
    MinimumIs(t);
  }

  /** A Java int stable mark: min(a, b) as "a < b ? a : b". */
  function Lower(a: int, b: int): (r: int)
    ensures r <= a && r <= b && (r == a || r == b)
  {
    if a < b then a else b
  }
}
