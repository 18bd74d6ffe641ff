/** The membership record of the vsc prototype (src/vsc/ProcessList.java):
    the groupz record, except that its cache is write-once. Once the record
    has been read, refreshing does nothing, so the record is read at most
    once, and the owner is woken exactly at that first read. */
module VscProcessList {
  import opened Failure
  import opened Coordination
  import opened JavaText
  import GroupzProcessList

  class ProcessList {
    const store: Store
    const session: nat
    const path: Path
    /** The members, once the record has been read; null before. */
    var data: Option<seq<string>>

    constructor Attach(store: Store, session: nat, path: Path)
      ensures this.store == store && this.session == session && this.path == path && data == None
    {
      this.store, this.session, this.path := store, session, path;
      data := None;
    }

    /** new ProcessList(path, view): read the record if it exists. */
    static method Make(store: Store, session: nat, path: Path) returns (r: Result<ProcessList, Fault>)
      ensures session !in store.live ==> r == Failure(ConnectionLoss)
      ensures session in store.live ==> r.Success?
      ensures r.Success? ==>
        fresh(r.value) && r.value.store == store && r.value.session == session && r.value.path == path &&
        r.value.data == GroupzProcessList.Recorded(store.nodes, path)
    {
      var present := store.Exists(session, path);
      if present.Failure? {
        return Failure(present.error);
      }
      var l := new ProcessList.Attach(store, session, path);
      if present.value {
        var _ := l.Update();
      }
      r := Success(l);
    }

    /** update(): a no-op once the members are known; otherwise read and
        split the record, an absent one leaving the members unknown. The
        flag says whether the owner was woken: only by the read that makes
        the members known. */
    method Update() returns (r: Result<bool, Fault>)
      modifies this`data
      ensures old(data).Some? ==> r == Success(false) && data == old(data)
      ensures old(data).None? && session !in store.live ==> r == Failure(ConnectionLoss) && data == None
      ensures old(data).None? && session in store.live ==>
        r == Success(path in store.nodes) && data == GroupzProcessList.Recorded(store.nodes, path)
      ensures r == Success(true) <==> old(data).None? && data.Some?
    {
      if data.Some? {
        return Success(false);
      }
      var value := store.GetData(session, path);
      match value
      case Failure(e) =>
        r := if e == NoNode then Success(false) else Failure(e);
      case Success(v) =>
        data := Some(Split(v));
        r := Success(true);
    }

    /** propose(mine): try to create the record with mine joined by commas
        (an existing record is kept), then read it unless the members are
        already known. An empty proposal is a NullPointerException. */
    method Propose(mine: seq<string>) returns (r: Outcome)
      modifies this`data, store
      ensures store.live == old(store.live) && store.counters == old(store.counters)
      ensures mine == [] ==> r == Failure(NullPointer) && store.nodes == old(store.nodes) && data == old(data)
      ensures session !in store.live ==> r.Failure? && store.nodes == old(store.nodes) && data == old(data)
      ensures mine != [] && session in store.live ==>
        r == Pass &&
        store.nodes == old(store.nodes)[path := if path in old(store.nodes) then old(store.nodes)[path] else Node(Joined(mine), None)] &&
        data == if old(data).Some? then old(data) else Some(Split(GroupzProcessList.Decided(old(store.nodes), path, mine)))
    {
      var value := GroupzProcessList.Serialise(mine);
      if value.None? {
        return Failure(NullPointer);
      }
      var made := store.Create(session, path, value.value, false);
      if made.Failure? && made.error != NodeExists {
        return made;
      }
      var woke := Update();
      r := Pass;
    }

    function Processes(): (members: Option<seq<string>>)
      reads this`data
      ensures members.Some? <==> IsKnown()
    {
      data
    }

    function IsKnown(): (known: bool)
      reads this`data
      ensures known <==> data.Some?
    {
      data != None
    }
  }

  /** Write-once: after a first proposal by one process and any later
      proposal by another, both hold the first one's members, and a further
      refresh of the first changes nothing and wakes nobody. */
  method Agreement(store: Store, s1: nat, s2: nat, p: Path, a: seq<string>, b: seq<string>)
    returns (first: ProcessList, second: ProcessList, again: Result<bool, Fault>)
    requires s1 in store.live && s2 in store.live && p !in store.nodes
    requires |a| > 0 && |b| > 0 && WellFormedIds(a)
    modifies store
    ensures first.data == second.data == Some(a)
    ensures again == Success(false)
  {
    var r1 := ProcessList.Make(store, s1, p);
    var r2 := ProcessList.Make(store, s2, p);
    first, second := r1.value, r2.value;
    var _ := first.Propose(a);
    var _ := second.Propose(b);
    SplitJoined(a);
    again := first.Update();
  }
}
