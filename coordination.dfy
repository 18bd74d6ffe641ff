/** An in-memory stand-in for the ZooKeeper ensemble the protocol runs on:
    a map from path to node, one sequence counter per parent for sequential
    creates, and the set of open client sessions. Ephemeral nodes belong to
    the session that created them and go away when it is closed or expires. */
module Coordination {
  import opened Failure
  import Decimal

  type Path = seq<string>

  /** A node's data and, for an ephemeral node, the session that owns it. */
  datatype Node = Node(data: string, owner: Option<nat>)

  /** The names of the children of p. */
  function Children(nodes: map<Path, Node>, p: Path): set<string> {
    set q | q in nodes && |q| == |p| + 1 && q[..|p|] == p :: q[|p|]
  }

  lemma ChildExists(nodes: map<Path, Node>, p: Path, name: string)
    ensures name in Children(nodes, p) <==> p + [name] in nodes
  {
    var q := p + [name];
    assert |q| == |p| + 1 && q[..|p|] == p && q[|p|] == name;
    if name in Children(nodes, p) {
      var q' :| q' in nodes && |q'| == |p| + 1 && q'[..|p|] == p && q'[|p|] == name;
      assert q' == q;
    }
  }

  predicate Distinct<T(==)>(s: seq<T>) {
    forall i, j | 0 <= i < j < |s| :: s[i] != s[j]
  }

  /** The path of the sequential child of parent numbered n. */
  function SequentialName(parent: Path, prefix: string, n: nat): Path {
    parent + [prefix + Decimal.Pad10(n)]
  }

  /** The nodes that survive the end of session s. */
  function WithoutSession(nodes: map<Path, Node>, s: nat): (m: map<Path, Node>)
    ensures forall p :: p in m <==> p in nodes && nodes[p].owner != Some(s)
    ensures forall p | p in m :: m[p] == nodes[p]
  {
    map p | p in nodes && nodes[p].owner != Some(s) :: nodes[p]
  }

  /** The nodes after creating p as an empty persistent node, an existing p being left as it is. */
  function WithContainer(nodes: map<Path, Node>, p: Path): (m: map<Path, Node>)
    ensures p in m && nodes.Keys <= m.Keys && m.Keys <= nodes.Keys + {p}
    ensures forall q | q in nodes :: m[q] == nodes[q]
  {
    if p in nodes then nodes else nodes[p := Node("", None)]
  }

  class Store {
    var nodes: map<Path, Node>
    var counters: map<Path, nat>
    var live: set<nat>
    var sessions: nat

    ghost predicate Valid()
      reads this
    {
      forall s | s in live :: s < sessions
    }

    constructor ()
      ensures Valid() && nodes == map[] && counters == map[] && live == {}
    {
      nodes, counters, live, sessions := map[], map[], {}, 0;
    }

    /** The sequence number the next sequential child of parent receives. */
    function NextSequence(parent: Path): nat
      reads this
    {
      if parent in counters then counters[parent] else 0
    }

    /** Opening a client session (new ZooKeeper(...)). */
    method Open() returns (s: nat)
      requires Valid()
      modifies this
      ensures Valid()
      ensures s !in old(live) && live == old(live) + {s}
      ensures nodes == old(nodes) && counters == old(counters)
    {
      s := sessions;
      sessions := sessions + 1;
      live := live + {s};
    }

    /** Closing a session, or the ensemble expiring it: its ephemeral nodes vanish. */
    method Close(s: nat)
      modifies this
      ensures nodes == WithoutSession(old(nodes), s)
      ensures live == old(live) - {s}
      ensures counters == old(counters) && sessions == old(sessions)
    {
      nodes := WithoutSession(nodes, s);
      live := live - {s};
    }

    /** create(p, data, CreateMode.PERSISTENT or EPHEMERAL). */
    method Create(s: nat, p: Path, data: string, ephemeral: bool) returns (r: Outcome)
      modifies this
      ensures s !in live ==> r == Failure(ConnectionLoss) && nodes == old(nodes)
      ensures s in live && p in old(nodes) ==> r == Failure(NodeExists) && nodes == old(nodes)
      ensures s in live && p !in old(nodes) ==>
        r == Pass && nodes == old(nodes)[p := Node(data, if ephemeral then Some(s) else None)]
      ensures live == old(live) && counters == old(counters) && sessions == old(sessions)
    {
      if s !in live {
        return Failure(ConnectionLoss);
      }
      if p in nodes {
        return Failure(NodeExists);
      }
      nodes := nodes[p := Node(data, if ephemeral then Some(s) else None)];
      r := Pass;
    }

    /** create(parent + "/" + prefix, data, ..._SEQUENTIAL): the name gets the
        parent's next sequence number, zero-padded to ten digits. */
    method CreateSequential(s: nat, parent: Path, prefix: string, data: string, ephemeral: bool)
      returns (r: Result<Path, Fault>)
      modifies this
      ensures s !in live ==> r == Failure(ConnectionLoss) && nodes == old(nodes) && counters == old(counters)
      ensures s in live && SequentialName(parent, prefix, old(NextSequence(parent))) in old(nodes) ==>
        r == Failure(NodeExists) && nodes == old(nodes) && counters == old(counters)
      ensures s in live && SequentialName(parent, prefix, old(NextSequence(parent))) !in old(nodes) ==>
        var p := SequentialName(parent, prefix, old(NextSequence(parent)));
        r == Success(p) && nodes == old(nodes)[p := Node(data, if ephemeral then Some(s) else None)] &&
        counters == old(counters)[parent := old(NextSequence(parent)) + 1]
      ensures live == old(live) && sessions == old(sessions)
    {
      if s !in live {
        return Failure(ConnectionLoss);
      }
      var n := NextSequence(parent);
      var p := SequentialName(parent, prefix, n);
      if p in nodes {
        return Failure(NodeExists);
      }
      nodes := nodes[p := Node(data, if ephemeral then Some(s) else None)];
      counters := counters[parent := n + 1];
      r := Success(p);
    }

    /** getData(p). */
    method GetData(s: nat, p: Path) returns (r: Result<string, Fault>)
      ensures s !in live ==> r == Failure(ConnectionLoss)
      ensures s in live && p !in nodes ==> r == Failure(NoNode)
      ensures s in live && p in nodes ==> r == Success(nodes[p].data)
    {
      if s !in live {
        return Failure(ConnectionLoss);
      }
      if p !in nodes {
        return Failure(NoNode);
      }
      r := Success(nodes[p].data);
    }

    /** setData(p, data, -1): any version. */
    method SetData(s: nat, p: Path, data: string) returns (r: Outcome)
      modifies this
      ensures s !in live ==> r == Failure(ConnectionLoss) && nodes == old(nodes)
      ensures s in live && p !in old(nodes) ==> r == Failure(NoNode) && nodes == old(nodes)
      ensures s in live && p in old(nodes) ==>
        r == Pass && nodes == old(nodes)[p := old(nodes)[p].(data := data)]
      ensures live == old(live) && counters == old(counters) && sessions == old(sessions)
    {
      if s !in live {
        return Failure(ConnectionLoss);
      }
      if p !in nodes {
        return Failure(NoNode);
      }
      nodes := nodes[p := nodes[p].(data := data)];
      r := Pass;
    }

    /** delete(p, -1): any version. */
    method Delete(s: nat, p: Path) returns (r: Outcome)
      modifies this
      ensures s !in live ==> r == Failure(ConnectionLoss) && nodes == old(nodes)
      ensures s in live && p !in old(nodes) ==> r == Failure(NoNode) && nodes == old(nodes)
      ensures s in live && p in old(nodes) ==> r == Pass && nodes == old(nodes) - {p}
      ensures live == old(live) && counters == old(counters) && sessions == old(sessions)
    {
      if s !in live {
        return Failure(ConnectionLoss);
      }
      if p !in nodes {
        return Failure(NoNode);
      }
      nodes := nodes - {p};
      r := Pass;
    }

    /** exists(p). */
    method Exists(s: nat, p: Path) returns (r: Result<bool, Fault>)
      ensures s !in live ==> r == Failure(ConnectionLoss)
      ensures s in live ==> r == Success(p in nodes)
    {
      if s !in live {
        return Failure(ConnectionLoss);
      }
      r := Success(p in nodes);
    }

    /** getChildren(p): every child name once, in an order the ensemble chooses. */
    method GetChildren(s: nat, p: Path) returns (r: Result<seq<string>, Fault>)
      ensures s !in live ==> r == Failure(ConnectionLoss)
      ensures s in live && p !in nodes ==> r == Failure(NoNode)
      ensures s in live && p in nodes ==>
        r.Success? && Distinct(r.value) && (set x | x in r.value) == Children(nodes, p)
    {
      if s !in live {
        return Failure(ConnectionLoss);
      }
      if p !in nodes {
        return Failure(NoNode);
      }
      var left := Children(nodes, p);
      var listed: seq<string> := [];
      while left != {}
        invariant Distinct(listed)
        invariant (set x | x in listed) !! left
        invariant (set x | x in listed) + left == Children(nodes, p)
        decreases left
      {
        var x :| x in left;
        listed := listed + [x];
        left := left - {x};
      }
      r := Success(listed);
    }
  }
}
