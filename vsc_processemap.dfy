/** The watermark table of the vsc prototype (src/vsc/ProcesseMap.java). The
    store layout is the groupz one: a container node with one ephemeral child
    per process holding the last sequence number it delivered. Here the cached
    map is also kept in step with the own writes, and a refresh reports
    whether it changed the cache, which is when the owner is woken. */
module VscProcesseMap {
  import opened Failure
  import Decimal
  import opened Coordination
  import opened Tables
  import GroupzProcesseMap

  class ProcesseMap {
    const store: Store
    const session: nat
    const path: Path
    const me: string
    /** The cached snapshot; null until the first refresh. */
    var data: Option<map<string, int>>

    constructor Attach(store: Store, session: nat, path: Path, me: string)
      ensures this.store == store && this.session == session && this.path == path && this.me == me
      ensures data == None
    {
      this.store, this.session, this.path, this.me := store, session, path, me;
      data := None;
    }

    /** The cache agrees with the table in the store. */
    ghost predicate Coherent()
      reads this`data, store`nodes
    {
      data == Some(Table(store.nodes, path))
    }

    /** new ProcesseMap(path, me, view): create the container (an existing
        one is fine) and take a first snapshot. */
    static method Make(store: Store, session: nat, path: Path, me: string)
      returns (r: Result<ProcesseMap, Fault>)
      modifies store
      ensures store.live == old(store.live) && store.counters == old(store.counters)
      ensures session !in store.live ==> r == Failure(ConnectionLoss) && store.nodes == old(store.nodes)
      ensures session in store.live ==> store.nodes == WithContainer(old(store.nodes), path)
      ensures r.Success? <==> session in store.live && Readable(store.nodes, path)
      ensures r.Failure? && session in store.live ==> r.error == NumberFormat
      ensures r.Success? ==>
        fresh(r.value) && r.value.store == store && r.value.session == session &&
        r.value.path == path && r.value.me == me && r.value.Coherent()
    {
      var made := store.Create(session, path, "", false);
      if made.Failure? && made.error != NodeExists {
        return Failure(made.error);
      }
      var m := new ProcesseMap.Attach(store, session, path, me);
      var u := m.Update();
      if u.Failure? {
        return Failure(u.error);
      }
      r := Success(m);
    }

    /** update(): take a fresh snapshot; it replaces the cache, and the owner
        is woken, exactly when it differs from the cached one or nothing was
        cached. */
    method Update() returns (r: Result<bool, Fault>)
      modifies this`data
      ensures r.Success? <==> session in store.live && path in store.nodes && Readable(store.nodes, path)
      ensures r.Success? ==> Coherent() && (r.value <==> old(data) != data)
      ensures r.Failure? ==> data == old(data)
      ensures session !in store.live ==> r == Failure(ConnectionLoss)
      ensures session in store.live && path !in store.nodes ==> r == Failure(NoNode)
      ensures session in store.live && path in store.nodes && !Readable(store.nodes, path) ==> r == Failure(NumberFormat)
    {
      var snapshot := GroupzProcesseMap.Snapshot(store, session, path);
      if snapshot.Failure? {
        return Failure(snapshot.error);
      }
      var changed := data.None? || data.value != snapshot.value;
      if changed {
        data := Some(snapshot.value);
      }
      r := Success(changed);
    }

    /** create(value): the own ephemeral entry holding value, recorded in the
        cache as well; with no cache (a table that was never refreshed) the
        put is a NullPointerException after the write. */
    method Create(value: int) returns (r: Outcome)
      requires Decimal.INT_MIN <= value <= Decimal.INT_MAX  // a Java int
      modifies store, this`data
      ensures store.live == old(store.live) && store.counters == old(store.counters)
      ensures session !in store.live ==> r == Failure(ConnectionLoss) && store.nodes == old(store.nodes)
      ensures session in store.live && path + [me] in old(store.nodes) ==>
        r == Failure(NodeExists) && store.nodes == old(store.nodes)
      ensures session in store.live && path + [me] !in old(store.nodes) ==>
        store.nodes == old(store.nodes)[path + [me] := Node(Decimal.Itos(value), Some(session))] &&
        Table(store.nodes, path) == Table(old(store.nodes), path)[me := value] &&
        r == if old(data).Some? then Pass else Failure(NullPointer)
      ensures r.Success? ==> data == Some(old(data).value[me := value])
      ensures r.Failure? ==> data == old(data)
      ensures r.Success? && old(Coherent()) ==> Coherent()
    {
      r := store.Create(session, path + [me], Decimal.Itos(value), true);
      if r.Failure? {
        return;
      }
      Decimal.ParseItos(value);
      TableAfterPut(old(store.nodes), path, me, Node(Decimal.Itos(value), Some(session)));
      if data.None? {
        return Failure(NullPointer);
      }
      data := Some(data.value[me := value]);
    }

    /** set(value): refresh, then write and cache value only if it exceeds the
        own current watermark; a missing own entry is a NullPointerException. */
    method Set(value: int) returns (r: Outcome)
      requires Decimal.INT_MIN <= value <= Decimal.INT_MAX  // a Java int
      modifies this`data, store
      ensures store.live == old(store.live) && store.counters == old(store.counters)
      ensures r.Success? <==>
        session in store.live && path in old(store.nodes) && Readable(old(store.nodes), path) &&
        me in Table(old(store.nodes), path)
      ensures r.Failure? ==> store.nodes == old(store.nodes)
      ensures r.Success? ==>
        var before := Table(old(store.nodes), path)[me];
        Table(store.nodes, path) == Table(old(store.nodes), path)[me := if value > before then value else before] &&
        Coherent()
      ensures r.Success? && value <= Table(old(store.nodes), path)[me] ==> store.nodes == old(store.nodes)
      ensures r.Success? && value > Table(old(store.nodes), path)[me] ==>
        store.nodes == old(store.nodes)[path + [me] := old(store.nodes)[path + [me]].(data := Decimal.Itos(value))]
    {
      var u := Update();
      if u.Failure? {
        return Failure(u.error);
      }
      if me !in data.value {
        return Failure(NullPointer);
      }
      if value <= data.value[me] {
        assert Table(old(store.nodes), path)[me := data.value[me]] == Table(old(store.nodes), path);
        return Pass;
      }
      ChildExists(store.nodes, path, me);
      r := store.SetData(session, path + [me], Decimal.Itos(value));
      Decimal.ParseItos(value);
      var n := old(store.nodes)[path + [me]].(data := Decimal.Itos(value));
      TableAfterPut(old(store.nodes), path, me, n);
      data := Some(data.value[me := value]);
    }

    /** remove(): delete the own entry and drop it from the cache; an entry
        already gone is ignored, the cache then left as it is. With no cache
        the drop is a NullPointerException after the delete. */
    method Remove() returns (r: Outcome)
      modifies store, this`data
      ensures store.live == old(store.live) && store.counters == old(store.counters)
      ensures session !in store.live ==> r == Failure(ConnectionLoss)
      ensures session in store.live && path + [me] !in old(store.nodes) ==> r == Pass
      ensures session in store.live && path + [me] in old(store.nodes) ==>
        r == if old(data).Some? then Pass else Failure(NullPointer)
      ensures store.nodes == if session in store.live then old(store.nodes) - {path + [me]} else old(store.nodes)
      ensures session in store.live ==> Table(store.nodes, path) == Table(old(store.nodes), path) - {me}
      ensures r.Success? && path + [me] in old(store.nodes) ==> data == Some(old(data).value - {me})
      ensures r.Failure? || path + [me] !in old(store.nodes) ==> data == old(data)
      ensures r.Success? && path + [me] in old(store.nodes) && old(Coherent()) ==> Coherent()
    {
      r := store.Delete(session, path + [me]);
      if r.Failure? && r.error == NoNode {
        assert old(store.nodes) - {path + [me]} == old(store.nodes);
        TableAfterRemove(old(store.nodes), path, me);
        return Pass;
      }
      if r.Success? {
        TableAfterRemove(old(store.nodes), path, me);
        if data.None? {
          return Failure(NullPointer);
        }
        data := Some(data.value - {me});
      }
    }

    /** A second remove() changes nothing: the entry is gone and the cache is kept. */
    method RemoveTwice() returns (first: Outcome, second: Outcome)
      requires data.Some?
      modifies store, this`data
      ensures first.Success? ==> second.Success? && store.nodes == old(store.nodes) - {path + [me]}
      ensures first.Success? ==>
        data == if path + [me] in old(store.nodes) then Some(old(data).value - {me}) else old(data)
    {
      first := Remove();
      second := Remove();
    }

    /** get(): refresh, then the least watermark, Integer.MAX_VALUE if none. */
    method Get() returns (r: Result<int, Fault>)
      modifies this`data
      ensures r.Success? <==> session in store.live && path in store.nodes && Readable(store.nodes, path)
      ensures r.Success? ==> Coherent() && r.value == Minimum(Table(store.nodes, path))
      ensures r.Failure? ==> data == old(data)
    {
      var u := Update();
      if u.Failure? {
        return Failure(u.error);
      }
      var min := GroupzProcesseMap.Least(data.value);
      r := Success(min);
    }

    /** processSet(): refresh, then the process ids in the table. */
    method ProcessSet() returns (r: Result<set<string>, Fault>)
      modifies this`data
      ensures r.Success? <==> session in store.live && path in store.nodes && Readable(store.nodes, path)
      ensures r.Success? ==> Coherent() && r.value == Children(store.nodes, path)
      ensures r.Failure? ==> data == old(data)
      ensures r.Failure? && session !in store.live ==> r.error == ConnectionLoss
    {
      var u := Update();
      if u.Failure? {
        return Failure(u.error);
      }
      TableOfReadable(store.nodes, path);
      r := Success(data.value.Keys);
    }
  }
}
