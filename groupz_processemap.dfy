/** The watermark table of the groupz protocol (src/groupz/ProcesseMap.java,
    also the table the Endpoint uses): a container node with one ephemeral
    child per process, holding the last sequence number it delivered. Every
    read first refreshes the cached map from the store. */
module GroupzProcesseMap {
  import opened Failure
  import Decimal
  import opened Coordination
  import opened Tables

  /** The loop of update(): the children of the container, each read and
      parsed; a child that vanishes between listing and reading is skipped,
      a value that is not a number throws. */
  method Snapshot(store: Store, session: nat, path: Path) returns (r: Result<map<string, int>, Fault>)
    ensures r.Success? <==> session in store.live && path in store.nodes && Readable(store.nodes, path)
    ensures r.Success? ==> r.value == Table(store.nodes, path)
    ensures session !in store.live ==> r == Failure(ConnectionLoss)
    ensures session in store.live && path !in store.nodes ==> r == Failure(NoNode)
    ensures session in store.live && path in store.nodes && !Readable(store.nodes, path) ==> r == Failure(NumberFormat)
  {
    var listing := store.GetChildren(session, path);
    if listing.Failure? {
      return Failure(listing.error);
    }
    var children := listing.value;
    ghost var all := Children(store.nodes, path);
    var newdata: map<string, int> := map[];
    var i := 0;
    while i < |children|
      invariant 0 <= i <= |children|
      invariant forall j | 0 <= j < i :: Reading(store.nodes, path + [children[j]]).Some?
      invariant newdata.Keys == set j | 0 <= j < i :: children[j]
      invariant forall c | c in newdata :: Reading(store.nodes, path + [c]) == Some(newdata[c])
    {
      var child := children[i];
      ChildExists(store.nodes, path, child);
      var value := store.GetData(session, path + [child]);
      match value
      case Failure(e) =>
        if e != NoNode {
          return Failure(e);
        }
      case Success(v) =>
        var n := Decimal.ParseInt(v);
        if n.None? {
          assert child in all && Reading(store.nodes, path + [child]).None?;
          return Failure(NumberFormat);
        }
        newdata := newdata[child := n.value];
      i := i + 1;
    }
    assert forall c | c in all :: c in children;
    r := Success(newdata);
  }

  /** The loop of get(): the least value, Integer.MAX_VALUE if there is none. */
  method Least(data: map<string, int>) returns (min: int)
    ensures min == Minimum(data)
  {
    min := Decimal.INT_MAX;
    var left := data.Keys;
    while left != {}
      invariant left <= data.Keys
      invariant min <= Decimal.INT_MAX
      invariant forall k | k in data && k !in left :: min <= data[k]
      invariant min == Decimal.INT_MAX || exists k | k in data && k !in left :: data[k] == min
      decreases left
    {
      var k :| k in left;
      if data[k] < min {
        min := data[k];
      }
      left := left - {k};
    }
    MinimumUnique(data, min);
  }

  class ProcesseMap {
    const store: Store
    const session: nat
    const path: Path
    const me: string
    /** The cached snapshot of the table. */
    var data: map<string, int>

    constructor Attach(store: Store, session: nat, path: Path, me: string)
      ensures this.store == store && this.session == session && this.path == path && this.me == me
      ensures data == map[]
    {
      this.store, this.session, this.path, this.me := store, session, path, me;
      data := map[];
    }

    /** new ProcesseMap(path, me, ...): create the container (an existing one
        is fine) and take a first snapshot. */
    static method Make(store: Store, session: nat, path: Path, me: string)
      returns (r: Result<ProcesseMap, Fault>)
      modifies store
      ensures store.live == old(store.live) && store.counters == old(store.counters)
      ensures session !in store.live ==> r == Failure(ConnectionLoss) && store.nodes == old(store.nodes)
      ensures session in store.live ==>
        store.nodes == if path in old(store.nodes) then old(store.nodes) else old(store.nodes)[path := Node("", None)]
      ensures r.Success? <==> session in store.live && Readable(store.nodes, path)
      ensures r.Failure? && session in store.live ==> r.error == NumberFormat
      ensures r.Success? ==>
        fresh(r.value) && r.value.store == store && r.value.session == session &&
        r.value.path == path && r.value.me == me && r.value.data == Table(store.nodes, path)
    {
      var made := store.Create(session, path, "", false);
      if made.Failure? && made.error != NodeExists {
        return Failure(made.error);
      }
      var m := new ProcesseMap.Attach(store, session, path, me);
      var u := m.Update();
      if u.Failure? {
        return Failure(u.error);
      }
      r := Success(m);
    }

    /** Rebuild the snapshot from the children of the container (see Snapshot). */
    method Update() returns (r: Outcome)
      modifies this
      ensures r.Success? <==> session in store.live && path in store.nodes && Readable(store.nodes, path)
      ensures r.Success? ==> data == Table(store.nodes, path)
      ensures r.Failure? ==> data == old(data)
      ensures session !in store.live ==> r == Failure(ConnectionLoss)
      ensures session in store.live && path !in store.nodes ==> r == Failure(NoNode)
      ensures session in store.live && path in store.nodes && !Readable(store.nodes, path) ==> r == Failure(NumberFormat)
    {
      var snapshot := Snapshot(store, session, path);
      if snapshot.Failure? {
        return Failure(snapshot.error);
      }
      data := snapshot.value;
      r := Pass;
    }

    /** create(value): the own ephemeral entry, holding value. */
    method Create(value: int) returns (r: Outcome)
      requires Decimal.INT_MIN <= value <= Decimal.INT_MAX  // a Java int
      modifies store
      ensures store.live == old(store.live) && store.counters == old(store.counters)
      ensures session !in store.live ==> r == Failure(ConnectionLoss) && store.nodes == old(store.nodes)
      ensures session in store.live && path + [me] in old(store.nodes) ==>
        r == Failure(NodeExists) && store.nodes == old(store.nodes)
      ensures session in store.live && path + [me] !in old(store.nodes) ==>
        r == Pass && store.nodes == old(store.nodes)[path + [me] := Node(Decimal.Itos(value), Some(session))]
      ensures r.Success? ==> Table(store.nodes, path) == Table(old(store.nodes), path)[me := value]
    {
      r := store.Create(session, path + [me], Decimal.Itos(value), true);
      if r.Success? {
        Decimal.ParseItos(value);
        TableAfterPut(old(store.nodes), path, me, Node(Decimal.Itos(value), Some(session)));
      }
    }

    /** set(value): refresh, then write value only if it exceeds the own
        current watermark; a missing own entry is a NullPointerException. */
    method Set(value: int) returns (r: Outcome)
      requires Decimal.INT_MIN <= value <= Decimal.INT_MAX  // a Java int
      modifies this, store
      ensures store.live == old(store.live) && store.counters == old(store.counters)
      ensures r.Success? <==>
        session in store.live && path in old(store.nodes) && Readable(old(store.nodes), path) &&
        me in Table(old(store.nodes), path)
      ensures r.Failure? ==> store.nodes == old(store.nodes)
      ensures r.Success? ==> data == Table(old(store.nodes), path)
      ensures r.Success? && value <= data[me] ==> store.nodes == old(store.nodes)
      ensures r.Success? && value > data[me] ==>
        store.nodes == old(store.nodes)[path + [me] := old(store.nodes)[path + [me]].(data := Decimal.Itos(value))]
      ensures r.Success? ==>
        var before := Table(old(store.nodes), path)[me];
        Table(store.nodes, path) == Table(old(store.nodes), path)[me := if value > before then value else before]
      ensures r.Success? ==> Readable(store.nodes, path)
    {
      var u := Update();
      if u.Failure? {
        return u;
      }
      if me !in data {
        return Failure(NullPointer);
      }
      if value <= data[me] {
        assert Table(old(store.nodes), path)[me := data[me]] == Table(old(store.nodes), path);
        return Pass;
      }
      ChildExists(store.nodes, path, me);
      r := store.SetData(session, path + [me], Decimal.Itos(value));
      Decimal.ParseItos(value);
      var n := old(store.nodes)[path + [me]].(data := Decimal.Itos(value));
      TableAfterPut(old(store.nodes), path, me, n);
      ReadableAfterPut(old(store.nodes), path, me, n);
    }

    /** remove(): delete the own entry; an entry that is already gone is fine. */
    method Remove() returns (r: Outcome)
      modifies store
      ensures store.live == old(store.live) && store.counters == old(store.counters)
      ensures r.Success? <==> session in store.live
      ensures session !in store.live ==> r == Failure(ConnectionLoss)
      ensures store.nodes == if session in store.live then old(store.nodes) - {path + [me]} else old(store.nodes)
      ensures r.Success? ==> Table(store.nodes, path) == Table(old(store.nodes), path) - {me}
    {
      r := store.Delete(session, path + [me]);
      if r.Failure? && r.error == NoNode {
        assert old(store.nodes) - {path + [me]} == old(store.nodes);
        r := Pass;
      }
      if r.Success? {
        TableAfterRemove(old(store.nodes), path, me);
      }
    }

    /** get(): refresh, then the least watermark, Integer.MAX_VALUE if none. */
    method Get() returns (r: Result<int, Fault>)
      modifies this
      ensures r.Success? <==> session in store.live && path in store.nodes && Readable(store.nodes, path)
      ensures r.Success? ==> data == Table(store.nodes, path) && r.value == Minimum(data)
      ensures r.Failure? ==> data == old(data)
    {
      var u := Update();
      if u.Failure? {
        return Failure(u.error);
      }
      var min := Least(data);
      r := Success(min);
    }

    /** processSet(): refresh, then the process ids in the table. */
    method ProcessSet() returns (r: Result<set<string>, Fault>)
      modifies this
      ensures r.Success? <==> session in store.live && path in store.nodes && Readable(store.nodes, path)
      ensures r.Success? ==> data == Table(store.nodes, path) && r.value == Children(store.nodes, path)
      ensures r.Failure? ==> data == old(data)
      ensures r.Failure? && session !in store.live ==> r.error == ConnectionLoss
    {
      var u := Update();
      if u.Failure? {
        return Failure(u.error);
      }
      TableOfReadable(store.nodes, path);
      r := Success(data.Keys);
    }
  }
}
