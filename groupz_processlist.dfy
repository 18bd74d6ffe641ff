/** The membership record of a view in the groupz protocol
    (src/groupz/ProcessList.java): a node whose data is the comma-separated
    list of members. The first proposer to create it decides the view; later
    proposers adopt what is stored. */
module GroupzProcessList {
  import opened Failure
  import opened Coordination
  import opened JavaText

  /** The data the record must hold after a proposal of mine: what was
      there already, or else the proposal itself. */
  function Decided(nodes: map<Path, Node>, p: Path, mine: seq<string>): string
    requires |mine| > 0
  {
    if p in nodes then nodes[p].data else Joined(mine)
  }

  /** What reading the record at p yields: its members split on commas, or
      nothing while it is absent. */
  function Recorded(nodes: map<Path, Node>, p: Path): Option<seq<string>> {
    if p in nodes then Some(Split(nodes[p].data)) else None
  }

  /** The proposal value built by "value = v" then "value += "," + v": the ids
      joined by commas, or null for an empty collection. */
  method Serialise(mine: seq<string>) returns (value: Option<string>)
    ensures mine == [] ==> value == None
    ensures mine != [] ==> value == Some(Joined(mine))
  {
    value := None;
    var i := 0;
    while i < |mine|
      invariant 0 <= i <= |mine|
      invariant i == 0 ==> value == None
      invariant i > 0 ==> value == Some(Joined(mine[..i]))
    {
      if value.None? {
        assert mine[..1] == [mine[0]];
        value := Some(mine[i]);
      } else {
        JoinedSnoc(mine[..i], mine[i]);
        assert mine[..i + 1] == mine[..i] + [mine[i]];
        value := Some(value.value + "," + mine[i]);
      }
      i := i + 1;
    }
    assert mine[..|mine|] == mine;
  }

  class ProcessList {
    const store: Store
    const session: nat
    const path: Path
    /** The members, once the record has been read; null before. */
    var data: Option<seq<string>>

    constructor Attach(store: Store, session: nat, path: Path)
      ensures this.store == store && this.session == session && this.path == path && data == None
    {
      this.store, this.session, this.path := store, session, path;
      data := None;
    }

    /** new ProcessList(path, ...): read the record if it exists. */
    static method Make(store: Store, session: nat, path: Path) returns (r: Result<ProcessList, Fault>)
      ensures session !in store.live ==> r == Failure(ConnectionLoss)
      ensures session in store.live ==> r.Success?
      ensures r.Success? ==>
        (fresh(r.value) && r.value.store == store && r.value.session == session && r.value.path == path &&
         r.value.data == Recorded(store.nodes, path))
    {
      var present := store.Exists(session, path);
      if present.Failure? {
        return Failure(present.error);
      }
      var l := new ProcessList.Attach(store, session, path);
      if present.value {
        var u := l.Update();
      }
      r := Success(l);
    }

    /** update(): read and split the record; an absent record leaves data as it was. */
    method Update() returns (r: Outcome)
      modifies this
      ensures session !in store.live ==> r == Failure(ConnectionLoss) && data == old(data)
      ensures session in store.live ==> r == Pass
      ensures session in store.live && path !in store.nodes ==> data == old(data)
      ensures session in store.live && path in store.nodes ==> data == Some(Split(store.nodes[path].data))
    {
      var value := store.GetData(session, path);
      match value
      case Failure(e) =>
        r := if e == NoNode then Pass else Failure(e);
      case Success(v) =>
        data := Some(Split(v));
        r := Pass;
    }

    /** propose(mine): try to create the record with mine joined by commas
        (if it exists the proposal is discarded), then read what it holds.
        An empty proposal is a NullPointerException and writes nothing. */
    method Propose(mine: seq<string>) returns (r: Outcome)
      modifies this, store
      ensures store.live == old(store.live) && store.counters == old(store.counters)
      ensures mine == [] ==> r == Failure(NullPointer) && store.nodes == old(store.nodes) && data == old(data)
      ensures session !in store.live ==> r.Failure? && store.nodes == old(store.nodes) && data == old(data)
      ensures mine != [] && session in store.live ==>
        (r == Pass &&
         store.nodes == old(store.nodes)[path := if path in old(store.nodes) then old(store.nodes)[path] else Node(Joined(mine), None)] &&
         data == Some(Split(Decided(old(store.nodes), path, mine))))
    {
      var value := Serialise(mine);
      if value.None? {
        return Failure(NullPointer);
      }
      var made := store.Create(session, path, value.value, false);
      if made.Failure? && made.error != NodeExists {
        return made;
      }
      r := Update();
    }

    function Processes(): (members: Option<seq<string>>)
      reads this
      ensures members.Some? <==> IsKnown()
    {
      data
    }

    function IsKnown(): (known: bool)
      reads this
      ensures known <==> data.Some?
    {
      data != None
    }

    /** The watch callback: re-read the record, printing and dropping any error. */
    method Notify()
      modifies this
      ensures session !in store.live ==> data == old(data)
      ensures session in store.live && path !in store.nodes ==> data == old(data)
      ensures session in store.live && path in store.nodes ==> data == Some(Split(store.nodes[path].data))
    {
      var _ := Update();
    }
  }

  /** First writer wins: whichever of two proposals on one record comes
      second, both proposers end up with the first one's members, and these
      are exactly the ids proposed when they are non-empty and comma-free. */
  method Agreement(store: Store, s1: nat, s2: nat, p: Path, a: seq<string>, b: seq<string>)
    returns (first: ProcessList, second: ProcessList)
    requires s1 in store.live && s2 in store.live && p !in store.nodes
    requires |a| > 0 && |b| > 0 && WellFormedIds(a)
    modifies store
    ensures first.data == second.data == Some(a)
  {
    var r1 := ProcessList.Make(store, s1, p);
    var r2 := ProcessList.Make(store, s2, p);
    first, second := r1.value, r2.value;
    var _ := first.Propose(a);
    var _ := second.Propose(b);
    SplitJoined(a);
  }
}
