/** The group communication end-point of the groupz protocol
    (src/groupz/Endpoint.java): a view-change state machine over a
    watermark table per role (active, blocked, entering), a message log and a
    membership record per view, all kept in the coordination store.

    Store layout, under the group's node G = /vsc/group/<gid>:
      G/<vid>            the membership record of view vid
      G/<vid>/active     watermarks of members still delivering in view vid
      G/<vid>/blocked    watermarks of members that stopped sending in view vid
      G/<vid>/entering   processes asking to join after view vid
      G/<vid>/messages   the message log of view vid

    Application callbacks are recorded in `events`; the worker thread and the
    watches that wake it are replaced by the caller invoking `Reconcile`. */
module GroupzEndpoint {
  import opened Failure
  import Decimal
  import opened Coordination
  import opened Tables
  import opened JavaText
  import opened GroupzProcesseMap
  import opened GroupzMessages
  import opened GroupzProcessList

  datatype State = Connected | Joined | Blocking | Blocked | Disconnected

  /** Why a GroupException was thrown. */
  datatype Reason =
    | WrongState(actual: State, required: seq<State>)  // "the group is X, should be Y or Z"
    | DisconnectedOnError                               // "disconnected on internal error"

  datatype Exception =
    | Internal(fault: Fault)
    | GroupException(reason: Reason, cause: Option<Exception>)

  /** A callback into the application. */
  datatype Event = Receive(payload: string) | Install(vid: int, members: Option<seq<string>>) | Block

  const Root: Path := ["vsc"]

  function GroupPath(gid: string): Path { Root + ["group", gid] }

  function ViewPath(group: Path, vid: int): Path { group + [Decimal.Itos(vid)] }

  /** The node of the process whose id is sequence number n. */
  function PidPath(n: nat): Path { SequentialName(Root + ["process"], "", n) }

  /** The moves the state machine can make; DISCONNECTED is final. */
  predicate Allowed(from: State, to: State) {
    from == to || to == Disconnected ||
    (from == Connected && (to == Joined || to == Blocked)) ||
    (from == Joined && to == Blocking) ||
    (from == Blocking && to == Blocked) ||
    (from == Blocked && to == Joined)
  }

  lemma DisconnectedIsFinal(s: State)
    requires Allowed(Disconnected, s)
    ensures s == Disconnected
  {
  }

  /** Any run of allowed moves that reaches DISCONNECTED stays there. */
  lemma {:induction false} DisconnectedForever(run: seq<State>, i: nat)
    requires forall k | 0 <= k < |run| - 1 :: Allowed(run[k], run[k + 1])
    requires i < |run| && run[i] == Disconnected
    ensures forall k | i <= k < |run| :: run[k] == Disconnected
    decreases |run| - i
  {
    if i + 1 < |run| {
      DisconnectedIsFinal(run[i + 1]);
      DisconnectedForever(run, i + 1);
    }
  }

  /** readyToBlock(): the view must change once some member has left the
      active table or someone waits to enter, provided the previous change is
      over (nobody is left in the previous view's blocked table). */
  predicate BlockGuard(state: State, previousDrained: bool, activeCount: nat, memberCount: nat, enteringEmpty: bool) {
    state == Joined && previousDrained && (activeCount < memberCount || !enteringEmpty)
  }

  /** readyToInstall(): nobody is active any more and every message sent so
      far is stable (no log in a view joined from outside). */
  predicate InstallGuard(state: State, activeEmpty: bool, hasLog: bool, stable: int, last: int) {
    state == Blocked && activeEmpty && (!hasLog || stable >= last)
  }

  /** readyToDeliver(). */
  predicate DeliverGuard(state: State, hasLog: bool) {
    (state == Joined || state == Blocking || state == Blocked) && hasLog
  }

  /** The members of the previous view that blocked, in previous-view order. */
  function Survivors(prev: seq<string>, blocked: set<string>): (r: seq<string>)
    ensures forall x :: x in r <==> x in prev && x in blocked
    ensures |r| <= |prev|
  {
    if prev == [] then []
    else Survivors(prev[..|prev| - 1], blocked) + (if prev[|prev| - 1] in blocked then [prev[|prev| - 1]] else [])
  }

  /** The proposal for the next view: the survivors in order, then the arrivals. */
  function Proposal(prev: seq<string>, blocked: set<string>, arrivals: seq<string>): (r: seq<string>)
    ensures forall x :: x in r <==> (x in prev && x in blocked) || x in arrivals
  {
    Survivors(prev, blocked) + arrivals
  }

  /** An iteration of a set: every element once, in some order. */
  predicate Enumerates(e: seq<string>, s: set<string>) {
    Distinct(e) && Elements(e) == s
  }

  /** Survivors keeps the previous view's relative order. */
  lemma {:induction false} SurvivorsInOrder(prev: seq<string>, blocked: set<string>, i: nat, j: nat)
    requires Distinct(prev) && i < j < |Survivors(prev, blocked)|
    ensures exists a, b | 0 <= a < b < |prev| :: prev[a] == Survivors(prev, blocked)[i] && prev[b] == Survivors(prev, blocked)[j]
    decreases |prev|
  {
    var init := prev[..|prev| - 1];
    var r := Survivors(init, blocked);
    if j < |r| {
      SurvivorsInOrder(init, blocked, i, j);
      var a, b :| 0 <= a < b < |init| && init[a] == r[i] && init[b] == r[j];
      assert prev[a] == init[a] && prev[b] == init[b];
    } else {
      assert Survivors(prev, blocked)[j] == prev[|prev| - 1];
      assert Survivors(prev, blocked)[i] == r[i] && r[i] in Survivors(init, blocked);
      var a :| 0 <= a < |init| && init[a] == r[i];
      assert prev[a] == init[a];
    }
  }

  /** Largest view number among the children of the group node, visited in
      listing order, starting from acc; the first name that is not a number
      ends the search with what was found so far. */
  function Latest(names: seq<string>, acc: int): int
    decreases |names|
  {
    if names == [] then acc
    else match Decimal.ParseInt(names[0])
      case None => acc
      case Some(v) => Latest(names[1..], if v > acc then v else acc)
  }

  /** When every child is a view number, findView finds the largest one, or -1. */
  lemma {:induction false} LatestIsMax(names: seq<string>, acc: int)
    requires forall i | 0 <= i < |names| :: Decimal.ParseInt(names[i]).Some?
    ensures Latest(names, acc) >= acc
    ensures forall i | 0 <= i < |names| :: Decimal.ParseInt(names[i]).value <= Latest(names, acc)
    ensures Latest(names, acc) == acc || exists i | 0 <= i < |names| :: Decimal.ParseInt(names[i]).value == Latest(names, acc)
    decreases |names|
  {
    if names != [] {
      var v := Decimal.ParseInt(names[0]).value;
      var acc' := if v > acc then v else acc;
      LatestIsMax(names[1..], acc');
      var m := Latest(names, acc);
      forall i | 0 <= i < |names| ensures Decimal.ParseInt(names[i]).value <= m {
        if i > 0 {
          assert names[i] == names[1..][i - 1];
        }
      }
      if m != acc && m != acc' {
        var i :| 0 <= i < |names[1..]| && Decimal.ParseInt(names[1..][i]).value == m;
        assert names[i + 1] == names[1..][i];
      }
    }
  }

  /** The loop of findView() over the children of the group's node `group`:
      the largest view number, scanned in listing order; a listing that
      fails leaves -1, and a name that is not a number ends the scan. */
  method LatestView(store: Store, session: nat, group: Path) returns (target: int, ghost listing: seq<string>)
    ensures target == Latest(listing, -1)
    ensures session !in store.live || group !in store.nodes ==> listing == [] && target == -1
    ensures session in store.live && group in store.nodes ==>
      Distinct(listing) && (set x | x in listing) == Children(store.nodes, group)
    ensures (forall i | 0 <= i < |listing| :: Decimal.ParseInt(listing[i]).Some?) ==>
      (forall i | 0 <= i < |listing| :: Decimal.ParseInt(listing[i]).value <= target) &&
      (target == -1 || exists i | 0 <= i < |listing| :: Decimal.ParseInt(listing[i]).value == target)
  {
    target := -1;
    listing := [];
    var names := store.GetChildren(session, group);
    if names.Success? {
      listing := names.value;
      var i, stopped := 0, false;
      while i < |names.value| && !stopped
        invariant 0 <= i <= |listing|
        invariant Latest(listing, -1) == if stopped then target else Latest(listing[i..], target)
        decreases |listing| - i, if stopped then 0 else 1
      {
        var pvid := Decimal.ParseInt(names.value[i]);
        if pvid.None? {
          stopped := true;
        } else {
          assert listing[i..][1..] == listing[i + 1..];
          if pvid.value > target {
            target := pvid.value;
          }
          i := i + 1;
        }
      }
    }
    if forall i | 0 <= i < |listing| :: Decimal.ParseInt(listing[i]).Some? {
      LatestIsMax(listing, -1);
    }
  }

  /** The create of findPid(): an ephemeral sequential child of
      /vsc/process, whose last path component, the ten-digit sequence
      number, is the new process id. */
  method NewPid(store: Store, session: nat) returns (r: Result<string, Fault>)
    modifies store
    ensures store.live == old(store.live)
    ensures r.Success? <==> session in store.live && PidPath(old(store.NextSequence(Root + ["process"]))) !in old(store.nodes)
    ensures session !in store.live ==> r == Failure(ConnectionLoss)
    ensures r.Success? ==>
      r.value == Decimal.Pad10(old(store.NextSequence(Root + ["process"]))) &&
      store.nodes == old(store.nodes)[PidPath(old(store.NextSequence(Root + ["process"]))) := Node("", Some(session))]
    ensures r.Failure? ==> store.nodes == old(store.nodes)
  {
    var created := store.CreateSequential(session, Root + ["process"], "", "", true);
    if created.Failure? {
      return Failure(created.error);
    }
    r := Success(created.value[|created.value| - 1]);
  }

  /** Process ids are ten digits, so they can go into a membership record. */
  lemma PidWellFormed(n: nat)
    ensures WellFormedIds([Decimal.Pad10(n)])
  {
    var id := Decimal.Pad10(n);
    assert id[0] != ',';
    assert forall i | 0 <= i < |id| :: id[i] != ',';
  }

  /** The paths boot() creates before the record of view 0, and the process
      node, lie outside that record, so boot() proposes to the record as it
      was; as the first proposer it decides this process alone. */
  lemma BootRecord(nodes: map<Path, Node>, named: map<Path, Node>, pid: map<Path, Node>, gid: string, n: nat, me: string, owner: Node)
    requires named == WithContainer(WithContainer(WithContainer(WithContainer(nodes, Root), Root + ["group"]), Root + ["process"]), GroupPath(gid))
    requires pid == named[PidPath(n) := owner]
    requires me == Decimal.Pad10(n)
    ensures Split(Decided(pid, ViewPath(GroupPath(gid), 0), [me])) ==
      if ViewPath(GroupPath(gid), 0) in nodes then Split(nodes[ViewPath(GroupPath(gid), 0)].data) else [me]
  {
    PidWellFormed(n);
    SplitJoined([me]);
  }

  /** The process node lies outside the records of the group's views. */
  lemma PidApart(gid: string, v: int, n: nat)
    ensures PidPath(n) != ViewPath(GroupPath(gid), v) && PidPath(n) != ViewPath(GroupPath(gid), v + 1)
  {
  }

  /** The tables of view v are created before the record of view v + 1 is
      read, and lie outside it. */
  lemma NextRecordApart(nodes: map<Path, Node>, group: Path, v: int)
    ensures Recorded(WithContainer(WithContainer(WithContainer(nodes, ViewPath(group, v) + ["entering"]),
      ViewPath(group, v) + ["blocked"]), ViewPath(group, v) + ["active"]), ViewPath(group, v + 1)) ==
      Recorded(nodes, ViewPath(group, v + 1))
  {
  }

  /** The data delivered, as receive() callbacks in order. */
  function Receipts(values: seq<string>): (r: seq<Event>)
    ensures |r| == |values| && forall i | 0 <= i < |r| :: r[i] == Receive(values[i])
  {
    if values == [] then [] else Receipts(values[..|values| - 1]) + [Receive(values[|values| - 1])]
  }

  /** Two roles of one view: no entry of the one is a child of the other. */
  lemma RolesApart(view: Path, a: string, b: string, x: string)
    requires a != b
    ensures !(|view + [a] + [x]| == |view + [b]| + 1 && (view + [a] + [x])[..|view + [b]|] == view + [b])
  {
    assert (view + [a] + [x])[|view|] == a;
    assert (view + [b])[|view|] == b;
  }

  /** An entry of a table of view v is not a child of a table of another role in view w. */
  lemma TablesApart(group: Path, v: int, w: int, a: string, b: string, x: string)
    requires a != b
    ensures var q, p := ViewPath(group, v) + [a] + [x], ViewPath(group, w) + [b];
      !(|q| == |p| + 1 && q[..|p|] == p)
  {
    assert (ViewPath(group, v) + [a] + [x])[|group| + 1] == a;
    assert (ViewPath(group, w) + [b])[|group| + 1] == b;
  }

  /** Deleting log entries leaves every table of the view alone. */
  lemma LogApart(nodes: map<Path, Node>, view: Path, role: string, names: seq<string>)
    requires role != "messages"
    ensures Table(nodes - Under(view + ["messages"], names), view + [role]) == Table(nodes, view + [role])
  {
    forall q | q in Under(view + ["messages"], names)
      ensures !(|q| == |view + [role]| + 1 && q[..|view + [role]|] == view + [role])
    {
      var x :| x in names && q == view + ["messages"] + [x];
      RolesApart(view, "messages", role, x);
    }
    TableAfterRemoveAll(nodes, view + [role], Under(view + ["messages"], names));
  }

  /** blockOk() moves the own watermark from the active table to the blocked
      table of the view: the blocked table gains it, the active table loses it. */
  lemma HandOver(nodes: map<Path, Node>, view: Path, me: string, last: int, s: nat)
    requires Decimal.INT_MIN <= last <= Decimal.INT_MAX
    ensures var n := nodes[view + ["blocked"] + [me] := Node(Decimal.Itos(last), Some(s))] - {view + ["active"] + [me]};
      Table(n, view + ["blocked"]) == Table(nodes, view + ["blocked"])[me := last] &&
      Table(n, view + ["active"]) == Table(nodes, view + ["active"]) - {me}
  {
    var b, a := view + ["blocked"], view + ["active"];
    var entry := Node(Decimal.Itos(last), Some(s));
    var mid := nodes[b + [me] := entry];
    Decimal.ParseItos(last);
    TableAfterPut(nodes, b, me, entry);
    RolesApart(view, "active", "blocked", me);
    TableElsewhere(mid, b, a + [me], entry);
    RolesApart(view, "blocked", "active", me);
    TableElsewhere(nodes, a, b + [me], entry);
    TableAfterRemove(mid, a, me);
  }

  /** What one pass of deliver() over a log did: it visited the children of
      log (in names) in id order from cursor `from`, collecting at or below
      `low`; it ended at cursor `to` and handed over `values`, the data of
      the entries above the old cursor, in order. */
  ghost predicate Delivered(before: map<Path, Node>, log: Path, from: int, low: int, names: seq<string>, to: int, values: seq<string>) {
    Ascending(names) && Elements(names) == Children(before, log) &&
    var w := Scan(names, from, low);
    w.complete && to == w.last &&
    (forall i | 0 <= i < |w.taken| :: log + [w.taken[i]] in before) &&
    values == Payloads(before, log, w.taken)
  }

  /** The store after deliver() raised the own watermark held at q to `to`:
      the entry is rewritten with the decimal of `to` only when that exceeds
      what it holds, as ProcesseMap.set() does. */
  ghost function Lifted(nodes: map<Path, Node>, q: Path, to: int): map<Path, Node> {
    if q in nodes && Reading(nodes, q).Some? && to > Reading(nodes, q).value
    then nodes[q := nodes[q].(data := Decimal.Itos(to))]
    else nodes
  }

  /** What deliver() leaves in the store: the log children it collected are
      gone, and the own watermark in table `at` is raised to `to` (or kept
      when it is already higher), with nothing else of the table changed. */
  ghost predicate Raises(before: map<Path, Node>, after: map<Path, Node>, at: Path, me: string, log: Path, dropped: seq<string>, to: int) {
    me in Table(before, at) &&
    var marked := Table(before, at)[me];
    Table(after, at) == Table(before, at)[me := if to > marked then to else marked] &&
    after == Lifted(before - Under(log, dropped), at + [me], to)
  }

  /** Table m, when present, is the one at `at` seen by process me through session. */
  predicate Sits(m: ProcesseMap?, store: Store, session: nat, me: string, at: Path) {
    m != null ==> m.store == store && m.session == session && m.me == me && m.path == at
  }

  /** Record l, when present, is the one at `at` seen through session. */
  predicate Holds(l: ProcessList?, store: Store, session: nat, at: Path) {
    l != null ==> l.store == store && l.session == session && l.path == at
  }

  /** Where the components of a connected end-point of group `path` sit in
      the store layout of view vid, and which ones its state needs:
      the tables of the view, the previous view's blocked table, the record
      of the view and of the next one, and the log of the view. */
  predicate Shaped(store: Store, session: nat, path: Path, me: string, state: State, vid: int,
                   active: ProcesseMap?, blocked: ProcesseMap?, entering: ProcesseMap?, oldblocked: ProcesseMap?,
                   members: ProcessList?, future: ProcessList?, messages: Messages?)
  {
    var view := ViewPath(path, vid);
    state != Disconnected ==>
      Sits(active, store, session, me, view + ["active"]) && Sits(blocked, store, session, me, view + ["blocked"]) &&
      Sits(entering, store, session, me, view + ["entering"]) &&
      Sits(oldblocked, store, session, me, ViewPath(path, vid - 1) + ["blocked"]) &&
      Holds(members, store, session, view) && Holds(future, store, session, ViewPath(path, vid + 1)) &&
      (messages != null ==>
        messages.store == store && messages.session == session && messages.path == view + ["messages"]) &&
      (members != null && future != null ==> members != future) &&
      (state == Connected ==>
        active == null && blocked == null && entering == null && oldblocked == null &&
        members == null && future == null && messages == null) &&
      (state.Joined? || state.Blocking? || state.Blocked? ==> active != null && blocked != null && entering != null && members != null) &&
      (state.Joined? || state.Blocking? ==> messages != null && future == null) &&
      (state == Blocked ==> future != null)
  }

  /** The layout of an end-point that has just made view 0 and is JOINED. */
  lemma ShapedBoot(store: Store, session: nat, path: Path, me: string, l: ProcessList, a: ProcesseMap,
                   b: ProcesseMap, e: ProcesseMap, m: Messages)
    requires Holds(l, store, session, ViewPath(path, 0)) && Sits(a, store, session, me, ViewPath(path, 0) + ["active"])
    requires Sits(b, store, session, me, ViewPath(path, 0) + ["blocked"]) && Sits(e, store, session, me, ViewPath(path, 0) + ["entering"])
    requires m.store == store && m.session == session && m.path == ViewPath(path, 0) + ["messages"]
    ensures Shaped(store, session, path, me, Joined, 0, a, b, e, null, l, null, m)
  {
  }

  /** The layout of an end-point that has entered view v and waits BLOCKED. */
  lemma ShapedEntered(store: Store, session: nat, path: Path, me: string, v: int, l: ProcessList, e: ProcesseMap,
                      b: ProcesseMap, a: ProcesseMap, f: ProcessList)
    requires l != f
    requires Holds(l, store, session, ViewPath(path, v)) && Holds(f, store, session, ViewPath(path, v + 1))
    requires Sits(e, store, session, me, ViewPath(path, v) + ["entering"]) && Sits(b, store, session, me, ViewPath(path, v) + ["blocked"])
    requires Sits(a, store, session, me, ViewPath(path, v) + ["active"])
    ensures Shaped(store, session, path, me, Blocked, v, a, b, e, null, l, f, null)
  {
  }

  class Endpoint {
    const store: Store
    const session: nat
    /** The group's identifier and its node, /vsc/group/<gid>. */
    const gid: string
    const path: Path := GroupPath(gid)

    var me: string
    var vid: int
    var active: ProcesseMap?
    var blocked: ProcesseMap?
    var oldblocked: ProcesseMap?
    var entering: ProcesseMap?
    var members: ProcessList?
    var future: ProcessList?
    var messages: Messages?
    var state: State
    var cause: Option<Exception>
    /** The callbacks made so far, oldest first. */
    var events: seq<Event>

    predicate Placed(m: ProcesseMap?, role: string, v: int)
      reads this`me
    {
      Sits(m, store, session, me, ViewPath(path, v) + [role])
    }

    predicate RecordAt(l: ProcessList?, v: int)
    {
      Holds(l, store, session, ViewPath(path, v))
    }

    /** A disconnected end-point has closed its session. */
    ghost predicate Closed()
      reads this`state, store`live
    {
      state == Disconnected ==> session !in store.live
    }

    /** What the fields of a connected end-point satisfy (see Shaped). */
    ghost predicate Layout()
      reads this`state, this`vid, this`me, this`active, this`blocked, this`entering, this`oldblocked
      reads this`members, this`future, this`messages
    {
      Shaped(store, session, path, me, state, vid, active, blocked, entering, oldblocked, members, future, messages)
    }

    ghost predicate Valid()
      reads this`state, this`vid, this`me, this`active, this`blocked, this`entering, this`oldblocked
      reads this`members, this`future, this`messages, store`live
    {
      Closed() && Layout()
    }

    /** messages.getLast(), -1 when there is no log. */
    function Last(): int
      reads this`messages, (if messages == null then {} else {messages})`last
    {
      if messages == null then -1 else messages.last
    }

    constructor Attach(store: Store, session: nat, gid: string)
      ensures this.store == store && this.session == session && this.gid == gid
      ensures state == Connected && cause == None && events == []
      ensures active == null && blocked == null && oldblocked == null && entering == null
      ensures members == null && future == null && messages == null
      ensures Valid()
    {
      this.store, this.session, this.gid := store, session, gid;
      me, vid := "", 0;
      active, blocked, oldblocked, entering := null, null, null, null;
      members, future, messages := null, null, null;
      state, cause, events := Connected, None, [];
    }

    /** new Endpoint(gid, cb): a fresh client session, state CONNECTED. */
    static method Make(store: Store, gid: string) returns (e: Endpoint)
      requires store.Valid()
      modifies store
      ensures store.Valid() && fresh(e)
      ensures e.store == store && e.session !in old(store.live) && store.live == old(store.live) + {e.session}
      ensures e.gid == gid && e.state == Connected && e.events == [] && e.Valid()
      ensures store.nodes == old(store.nodes)
    {
      var s := store.Open();
      e := new Endpoint.Attach(store, s, gid);
    }

    /** cleanup(cause): the first call records the cause, moves to
        DISCONNECTED and closes the session (so the own ephemeral entries
        vanish); later calls do nothing. */
    method Cleanup(why: Option<Exception>)
      requires Closed()
      modifies this, store
      ensures Valid() && state == Disconnected
      ensures old(state) == Disconnected ==> cause == old(cause) && unchanged(store)
      ensures old(state) != Disconnected ==>
        cause == why && store.nodes == WithoutSession(old(store.nodes), session) &&
        store.live == old(store.live) - {session} && store.counters == old(store.counters)
      ensures store.sessions == old(store.sessions)
      ensures vid == old(vid) && me == old(me) && events == old(events)
      ensures active == old(active) && blocked == old(blocked) && oldblocked == old(oldblocked)
      ensures entering == old(entering) && members == old(members) && future == old(future)
      ensures messages == old(messages)
    {
      if state == Disconnected {
        return;
      }
      cause := why;
      state := Disconnected;
      store.Close(session);
    }

    /** onEntry(reqs): a public call made in any other state disconnects the
        end-point and throws, citing the cause of any earlier disconnection. */
    method OnEntry(reqs: seq<State>) returns (r: Result<(), Exception>)
      requires Valid()
      modifies this, store
      ensures Valid()
      ensures old(state) in reqs ==> r.Success? && state == old(state) && cause == old(cause) && unchanged(store)
      ensures old(state) !in reqs ==>
        r == Failure(GroupException(WrongState(old(state), reqs), old(cause))) && state == Disconnected &&
        (old(state) != Disconnected ==> cause == Some(r.error) && session !in store.live) &&
        (old(state) == Disconnected ==> cause == old(cause))
      ensures store.nodes == old(store.nodes) || store.nodes == WithoutSession(old(store.nodes), session)
      ensures store.live <= old(store.live) && store.counters == old(store.counters) && store.sessions == old(store.sessions)
      ensures vid == old(vid) && me == old(me) && events == old(events)
      ensures active == old(active) && blocked == old(blocked) && oldblocked == old(oldblocked)
      ensures entering == old(entering) && members == old(members) && future == old(future)
      ensures messages == old(messages)
    {
      if state in reqs {
        return Success(());
      }
      var e := GroupException(WrongState(state, reqs), cause);
      Cleanup(Some(e));
      r := Failure(e);
    }

    /** onExit(e): disconnect because of e and throw "disconnected on internal error". */
    method OnExit(e: Exception) returns (thrown: Exception)
      requires Closed()
      modifies this, store
      ensures Valid() && state == Disconnected
      ensures thrown == GroupException(DisconnectedOnError, Some(e))
      ensures old(state) != Disconnected ==> cause == Some(e) && session !in store.live
      ensures old(state) == Disconnected ==> cause == old(cause)
      ensures store.counters == old(store.counters) && store.sessions == old(store.sessions)
      ensures vid == old(vid) && me == old(me) && events == old(events)
      ensures active == old(active) && blocked == old(blocked) && oldblocked == old(oldblocked)
      ensures entering == old(entering) && members == old(members) && future == old(future)
      ensures messages == old(messages)
    {
      Cleanup(Some(e));
      thrown := GroupException(DisconnectedOnError, Some(e));
    }

    /** leave(): the end-point cannot be used again. */
    method Leave()
      requires Valid()
      modifies this, store
      ensures Valid() && state == Disconnected && session !in store.live
      ensures old(state) == Disconnected ==> cause == old(cause) && unchanged(store)
      ensures old(state) != Disconnected ==> cause == None && store.nodes == WithoutSession(old(store.nodes), session)
      ensures events == old(events)
    {
      Cleanup(None);
    }

    /** getProcessId(): only once a view is installed or being changed. */
    method GetProcessId() returns (r: Result<string, Exception>)
      requires Valid()
      modifies this, store
      ensures Valid()
      ensures old(state) in {Joined, Blocking, Blocked} ==> r == Success(me) && state == old(state) && unchanged(store)
      ensures old(state) !in {Joined, Blocking, Blocked} ==>
        r == Failure(GroupException(WrongState(old(state), [Joined, Blocking, Blocked]), old(cause))) &&
        state == Disconnected
      ensures events == old(events)
    {
      var ok := OnEntry([Joined, Blocking, Blocked]);
      if ok.Failure? {
        return Failure(ok.error);
      }
      r := Success(me);
    }

    /** getCurrentView(): the members of the current view, in record order. */
    method GetCurrentView() returns (r: Result<seq<string>, Exception>)
      requires Valid()
      modifies this, store
      ensures Valid()
      ensures old(state) in {Joined, Blocking, Blocked} ==> members != null
      ensures old(state) in {Joined, Blocking, Blocked} && members.data.Some? ==>
        r == Success(members.data.value) && state == old(state) && cause == old(cause) && unchanged(store)
      ensures old(state) in {Joined, Blocking, Blocked} && members.data.None? ==>
        r == Failure(GroupException(DisconnectedOnError, Some(Internal(NullPointer)))) && state == Disconnected
      ensures old(state) !in {Joined, Blocking, Blocked} ==>
        r == Failure(GroupException(WrongState(old(state), [Joined, Blocking, Blocked]), old(cause))) &&
        state == Disconnected
      ensures events == old(events) && vid == old(vid) && members == old(members) && future == old(future)
      ensures active == old(active) && blocked == old(blocked) && oldblocked == old(oldblocked)
      ensures entering == old(entering) && messages == old(messages)
    {
      var ok := OnEntry([Joined, Blocking, Blocked]);
      if ok.Failure? {
        return Failure(ok.error);
      }
      var known := members.data;
      match known
      case None =>
        var thrown := OnExit(Internal(NullPointer));
        r := Failure(thrown);
      case Some(ids) =>
        r := Success(ids);
    }

    /** readyToBlock() evaluated on the store as it is. */
    ghost predicate BlockReady()
      reads this, store, members
    {
      state == Joined && active != null && entering != null && members != null && members.data.Some? &&
      BlockGuard(state, oldblocked == null || Children(store.nodes, oldblocked.path) == {},
        |Children(store.nodes, active.path)|, |members.data.value|, Children(store.nodes, entering.path) == {})
    }

    /** A table can be refreshed: its container exists and every entry parses. */
    ghost predicate Fresh(m: ProcesseMap?)
      reads this, store
    {
      m != null && m.path in store.nodes && Readable(store.nodes, m.path)
    }

    /** Every read readyToBlock() may make succeeds. */
    ghost predicate BlockReadable()
      reads this, store, members
    {
      session in store.live && (oldblocked != null ==> Fresh(oldblocked)) &&
      Fresh(active) && Fresh(entering) && members != null && members.data.Some?
    }

    /** readyToBlock(): the tables are refreshed in the order of the
        short-circuit evaluation, so a drained previous view is read first. */
    method ReadyToBlock() returns (r: Result<bool, Fault>)
      requires Valid()
      modifies active, oldblocked, entering
      ensures state != Joined ==> r == Success(false)
      ensures state == Joined && r.Success? ==> r.value == BlockReady()
      ensures state == Joined && BlockReadable() ==> r.Success?
    {
      if state != Joined {
        return Success(false);
      }
      if oldblocked != null {
        var old_ := oldblocked.ProcessSet();
        if old_.Failure? {
          return Failure(old_.error);
        }
        if old_.value != {} {
          return Success(false);
        }
      }
      var present := active.ProcessSet();
      if present.Failure? {
        return Failure(present.error);
      }
      var known := members.data;
      match known
      case None =>
        r := Failure(NullPointer);
      case Some(ids) =>
        if |present.value| < |ids| {
          return Success(true);
        }
        var waiting := entering.ProcessSet();
        if waiting.Failure? {
          return Failure(waiting.error);
        }
        r := Success(waiting.value != {});
    }

    /** block(): start changing the view (BLOCKING) and call block() on the
        application. A fault while checking disconnects the end-point. */
    method Block() returns (r: Result<(), Exception>)
      requires Valid()
      modifies this, store, active, blocked, oldblocked, entering
      ensures Valid()
      ensures state == old(state) || state == Disconnected || (old(state) == Joined && state == Blocking)
      ensures r.Success? && old(BlockReady()) ==> state == Blocking && events == old(events) + [Event.Block]
      ensures r.Success? && !old(BlockReady()) ==> state == old(state) && events == old(events)
      ensures r.Success? ==> store.nodes == old(store.nodes) && cause == old(cause)
      ensures r.Failure? ==> state == Disconnected && events == old(events) && session !in store.live
      ensures old(state) != Joined ==> r.Success?
      ensures old(state == Joined && BlockReadable()) ==> r.Success?
      ensures vid == old(vid) && me == old(me) && active == old(active) && blocked == old(blocked)
      ensures oldblocked == old(oldblocked) && entering == old(entering) && members == old(members)
      ensures future == old(future) && messages == old(messages)
    {
      var ready := ReadyToBlock();
      if ready.Failure? {
        Cleanup(Some(Internal(ready.error)));
        return Failure(Internal(ready.error));
      }
      if !ready.value {
        return Success(());
      }
      state := Blocking;
      events := events + [Event.Block];
      r := Success(());
    }

    /** The two writes of blockOk(): create the own entry of the blocked
        table, then delete the own entry of the active table. */
    static method HandOverEntry(blocked: ProcesseMap, active: ProcesseMap, last: int) returns (r: Outcome)
      requires Decimal.INT_MIN <= last <= Decimal.INT_MAX
      requires blocked.store == active.store && blocked.session == active.session
      modifies blocked.store
      ensures blocked.store.live == old(blocked.store.live) && blocked.store.counters == old(blocked.store.counters)
      ensures r.Success? <==> blocked.session in blocked.store.live && blocked.path + [blocked.me] !in old(blocked.store.nodes)
      ensures r.Success? ==>
        blocked.store.nodes ==
          old(blocked.store.nodes)[blocked.path + [blocked.me] := Node(Decimal.Itos(last), Some(blocked.session))] - {active.path + [active.me]}
      ensures r.Failure? ==> blocked.store.nodes == old(blocked.store.nodes)
    {
      r := blocked.Create(last);
      if r.Success? {
        r := active.Remove();
      }
    }

    /** blockOk(): the application has stopped sending. The own watermark
        moves from the active to the blocked table and the record of the
        next view is attached; a fault disconnects the end-point. */
    method BlockOk() returns (r: Result<(), Exception>)
      requires Valid()
      modifies this, store
      ensures Valid() && events == old(events)
      ensures old(state) != Blocking ==>
        r == Failure(GroupException(WrongState(old(state), [Blocking]), old(cause))) && state == Disconnected
      ensures old(state) == Blocking && r.Success? ==>
        state == Blocked && vid == old(vid) && me == old(me) && active == old(active) && blocked == old(blocked) &&
        members == old(members) && entering == old(entering) && oldblocked == old(oldblocked) &&
        messages == old(messages) && cause == old(cause) &&
        store.nodes == old(store.nodes)[blocked.path + [me] := Node(Decimal.Itos(old(messages.last)), Some(session))] - {active.path + [me]} &&
        fresh(future) && future.path == ViewPath(path, vid + 1) &&
        future.data == if future.path in store.nodes then Some(Split(store.nodes[future.path].data)) else None
      ensures old(state == Blocking && session in store.live && blocked.path + [me] !in store.nodes) ==> r.Success?
      ensures old(state) == Blocking && r.Failure? ==> state == Disconnected && r.error.GroupException? && r.error.reason == DisconnectedOnError
    {
      var ok := OnEntry([Blocking]);
      if ok.Failure? {
        return Failure(ok.error);
      }
      state := Blocked;
      var moved := HandOverEntry(blocked, active, messages.last);
      if moved.Failure? {
        var thrown := OnExit(Internal(moved.error));
        return Failure(thrown);
      }
      // the session is live, so attaching the record cannot fail
      var next := ProcessList.Make(store, session, ViewPath(path, vid + 1));
      future := next.value;
      r := Success(());
    }

    /** The log entry the next send() creates. */
    ghost function NextMessage(): Path
      requires messages != null
      reads this, messages, store
    {
      SequentialName(messages.path, "", store.NextSequence(messages.path))
    }

    /** send(data): append to the log of the view; not allowed once blocked. */
    method Send(data: string) returns (r: Result<(), Exception>)
      requires Valid()
      modifies this, store
      ensures Valid() && events == old(events) && vid == old(vid)
      ensures old(state) !in {Joined, Blocking} ==>
        r == Failure(GroupException(WrongState(old(state), [Joined, Blocking]), old(cause))) && state == Disconnected
      ensures old(state in {Joined, Blocking} && session in store.live && NextMessage() !in store.nodes) ==>
        r.Success? && state == old(state) && store.nodes == old(store.nodes)[old(NextMessage()) := Node(data, None)]
      ensures old(state) in {Joined, Blocking} && session !in old(store.live) ==>
        r == Failure(GroupException(DisconnectedOnError, Some(Internal(ConnectionLoss)))) && state == Disconnected
      ensures r.Failure? ==> state == Disconnected
    {
      var ok := OnEntry([Joined, Blocking]);
      if ok.Failure? {
        return Failure(ok.error);
      }
      var sent := messages.Send(data);
      if sent.Failure? {
        var thrown := OnExit(Internal(sent.error));
        return Failure(thrown);
      }
      r := Success(());
    }

    /** getLastStableMessage() on the store as it is: the least watermark of
        the active and blocked tables. */
    ghost function Stable(): int
      requires active != null && blocked != null
      reads this, store
    {
      Lower(Minimum(Table(store.nodes, active.path)), Minimum(Table(store.nodes, blocked.path)))
    }

    /** getLastStableMessage(): every member has delivered up to here. */
    method GetLastStableMessage() returns (r: Result<int, Fault>)
      requires active != null && blocked != null && active.store == store && blocked.store == store
      requires active.session == session && blocked.session == session
      modifies active, blocked
      ensures r.Success? <==> session in store.live && Fresh(active) && Fresh(blocked)
      ensures r.Success? ==> r.value == Stable()
      ensures r.Success? ==> forall m | m in Table(store.nodes, active.path) :: r.value <= Table(store.nodes, active.path)[m]
      ensures r.Success? ==> forall m | m in Table(store.nodes, blocked.path) :: r.value <= Table(store.nodes, blocked.path)[m]
    {
      var lowa := active.Get();
      if lowa.Failure? {
        return Failure(lowa.error);
      }
      var lowb := blocked.Get();
      if lowb.Failure? {
        return Failure(lowb.error);
      }
      MinimumIs(Table(store.nodes, active.path));
      MinimumIs(Table(store.nodes, blocked.path));
      r := Success(Lower(lowa.value, lowb.value));
    }

    /** readyToInstall() evaluated on the store as it is. */
    ghost predicate InstallReady()
      reads this, store, messages
    {
      state == Blocked && active != null && blocked != null &&
      InstallGuard(state, Children(store.nodes, active.path) == {}, messages != null, Stable(), Last())
    }

    /** Every read readyToInstall() may make succeeds. */
    ghost predicate InstallReadable()
      reads this, store
    {
      session in store.live && Fresh(active) &&
      (Children(store.nodes, active.path) == {} && messages != null ==> Fresh(blocked))
    }

    /** readyToInstall(). */
    method ReadyToInstall() returns (r: Result<bool, Fault>)
      requires Valid()
      modifies active, blocked
      ensures state != Blocked ==> r == Success(false)
      ensures state == Blocked && r.Success? ==> r.value == InstallReady()
      ensures state == Blocked && InstallReadable() ==> r.Success?
    {
      if state != Blocked {
        return Success(false);
      }
      var present := active.ProcessSet();
      if present.Failure? {
        return Failure(present.error);
      }
      if present.value != {} {
        return Success(false);
      }
      if messages == null {
        return Success(true);
      }
      var low := GetLastStableMessage();
      if low.Failure? {
        return Failure(low.error);
      }
      r := Success(low.value >= messages.last);
    }

    /** The table deliver() advances the own watermark in: the active one
        while the view is current, the blocked one after blockOk(). */
    function Mark(): ProcesseMap?
      reads this
    {
      if future == null then active else blocked
    }

    /** The first half of deliver(): read the stable mark, then visit the
        log, delivering the new entries and collecting the stable ones. */
    method Collect() returns (delivered: Result<seq<string>, Fault>, ghost low: int, ghost names: seq<string>)
      requires Valid() && DeliverGuard(state, messages != null)
      modifies store, active, blocked, messages
      ensures Valid() && store.live == old(store.live)
      ensures delivered.Success? ==>
        low == old(Stable()) &&
        Delivered(old(store.nodes), messages.path, old(messages.last), low, names, messages.last, delivered.value) &&
        store.nodes == old(store.nodes) - Under(messages.path, Scan(names, old(messages.last), low).dropped)
    {
      low, names := 0, [];
      var stable := GetLastStableMessage();
      if stable.Failure? {
        return Failure(stable.error), low, names;
      }
      var mark := stable.value;
      low := mark;
      delivered, names := messages.Update(mark);
    }

    /** The second half of deliver(): raise the own watermark to the last id
        delivered. Collecting log entries did not touch the table. */
    method Raise(ghost before: map<Path, Node>, ghost dropped: seq<string>) returns (r: Outcome)
      requires Valid() && DeliverGuard(state, messages != null)
      requires store.nodes == before - Under(messages.path, dropped)
      modifies store, active, blocked
      ensures Valid() && store.live == old(store.live)
      ensures r.Success? ==>
        me in Table(before, Mark().path) &&
        var marked := Table(before, Mark().path)[me];
        Table(store.nodes, Mark().path) == Table(before, Mark().path)[me := if messages.last > marked then messages.last else marked]
      ensures r.Success? ==> store.nodes == Lifted(before - Under(messages.path, dropped), Mark().path + [me], messages.last)
    {
      LogApart(before, ViewPath(path, vid), if future == null then "active" else "blocked", dropped);
      r := Mark().Set(messages.last);
    }

    /** deliver(): pass the new messages of the log to the application in id
        order, collecting the stable ones, then raise the own watermark (see
        Raise). A fault disconnects the end-point, and callbacks already made
        stay made. */
    method Deliver() returns (r: Result<(), Exception>, ghost low: int, ghost names: seq<string>, ghost values: seq<string>)
      requires Valid()
      modifies this, store, active, blocked, messages
      ensures Valid()
      ensures state == old(state) || state == Disconnected
      ensures vid == old(vid) && me == old(me) && active == old(active) && blocked == old(blocked)
      ensures oldblocked == old(oldblocked) && entering == old(entering) && members == old(members)
      ensures future == old(future) && messages == old(messages)
      ensures !DeliverGuard(old(state), old(messages) != null) ==>
        r.Success? && state == old(state) && cause == old(cause) && events == old(events) && store.nodes == old(store.nodes)
      ensures r.Failure? ==> state == Disconnected && session !in store.live
      ensures DeliverGuard(old(state), old(messages) != null) && r.Success? ==>
        state == old(state) && low == old(Stable()) &&
        Delivered(old(store.nodes), messages.path, old(messages.last), low, names, messages.last, values) &&
        events == old(events) + Receipts(values) &&
        Raises(old(store.nodes), store.nodes, Mark().path, me, messages.path, Scan(names, old(messages.last), low).dropped, messages.last)
    {
      low, names, values := 0, [], [];
      if !DeliverGuard(state, messages != null) {
        return Success(()), low, names, values;
      }
      r, low, names, values := Receive();
    }

    /** deliver() once ready: collect from the log, pass what was delivered
        to the application, then raise the own watermark. */
    method Receive() returns (r: Result<(), Exception>, ghost low: int, ghost names: seq<string>, ghost values: seq<string>)
      requires Valid() && DeliverGuard(state, messages != null)
      modifies this, store, active, blocked, messages
      ensures Valid()
      ensures state == old(state) || state == Disconnected
      ensures vid == old(vid) && me == old(me) && active == old(active) && blocked == old(blocked)
      ensures oldblocked == old(oldblocked) && entering == old(entering) && members == old(members)
      ensures future == old(future) && messages == old(messages)
      ensures r.Failure? ==> state == Disconnected && session !in store.live
      ensures r.Success? ==>
        state == old(state) && low == old(Stable()) &&
        Delivered(old(store.nodes), messages.path, old(messages.last), low, names, messages.last, values) &&
        events == old(events) + Receipts(values)
      ensures r.Success? ==> Raises(old(store.nodes), store.nodes, Mark().path, me, messages.path, Scan(names, old(messages.last), low).dropped, messages.last)
    {
      values := [];
      var delivered;
      delivered, low, names := Collect();
      if delivered.Failure? {
        Cleanup(Some(Internal(delivered.error)));
        return Failure(Internal(delivered.error)), low, names, values;
      }
      values := delivered.value;
      r := Hand(old(store.nodes), Scan(names, old(messages.last), low).dropped, delivered.value);
    }

    /** The end of deliver(): pass what was collected to the application,
        then raise the own watermark (see Raise); a fault there disconnects
        the end-point after the callbacks. */
    method Hand(ghost before: map<Path, Node>, ghost dropped: seq<string>, values: seq<string>)
      returns (r: Result<(), Exception>)
      requires Valid() && DeliverGuard(state, messages != null)
      requires store.nodes == before - Under(messages.path, dropped)
      modifies this, store, active, blocked
      ensures Valid()
      ensures state == old(state) || state == Disconnected
      ensures vid == old(vid) && me == old(me) && active == old(active) && blocked == old(blocked)
      ensures oldblocked == old(oldblocked) && entering == old(entering) && members == old(members)
      ensures future == old(future) && messages == old(messages) && messages.last == old(messages.last)
      ensures r.Failure? ==> state == Disconnected && session !in store.live
      ensures r.Success? ==> state == old(state) && events == old(events) + Receipts(values)
      ensures r.Success? ==> Raises(before, store.nodes, Mark().path, me, messages.path, dropped, messages.last)
    {
      events := events + Receipts(values);
      assert Layout();
      var raised := Raise(before, dropped);
      if raised.Failure? {
        Cleanup(Some(Internal(raised.error)));
        return Failure(Internal(raised.error));
      }
      r := Success(());
    }

    /** The proposal loop of install(): the members of the current view found
        in the blocked table (refreshed for each of them), in view order, then
        the ids of the entering table in the order its set yields them. */
    static method BuildProposal(known: Option<seq<string>>, blocked: ProcesseMap, entering: ProcesseMap)
      returns (r: Result<seq<string>, Fault>, ghost arrivals: seq<string>)
      requires blocked.store == entering.store && blocked.session == entering.session
      modifies blocked, entering
      ensures known.None? ==> r == Failure(NullPointer)
      ensures r.Success? ==>
        known.Some? && Enumerates(arrivals, Children(blocked.store.nodes, entering.path)) &&
        r.value == Proposal(known.value, Children(blocked.store.nodes, blocked.path), arrivals)
      ensures (known.Some? && blocked.session in blocked.store.live && entering.path in blocked.store.nodes &&
               Readable(blocked.store.nodes, entering.path) &&
               (known.value != [] ==> blocked.path in blocked.store.nodes && Readable(blocked.store.nodes, blocked.path))) ==> r.Success?
      ensures r.Failure? && known.Some? && blocked.session !in blocked.store.live ==> r.error == ConnectionLoss
    {
      arrivals := [];
      if known.None? {
        return Failure(NullPointer), arrivals;
      }
      var prop := Survive(known.value, blocked);
      if prop.Failure? {
        return Failure(prop.error), arrivals;
      }
      var waiting := entering.ProcessSet();
      if waiting.Failure? {
        return Failure(waiting.error), arrivals;
      }
      var order := Enumerate(waiting.value);
      arrivals := order;
      r := Success(prop.value + order);
    }

    /** The first loop of install(): the ids of the previous view, in order,
        that the blocked table holds, refreshing it for every id. */
    static method Survive(ids: seq<string>, blocked: ProcesseMap) returns (r: Result<seq<string>, Fault>)
      modifies blocked
      ensures r.Success? ==> r.value == Survivors(ids, Children(blocked.store.nodes, blocked.path))
      ensures (ids == [] || (blocked.session in blocked.store.live && blocked.path in blocked.store.nodes &&
                             Readable(blocked.store.nodes, blocked.path))) ==> r.Success?
      ensures r.Failure? && blocked.session !in blocked.store.live ==> r.error == ConnectionLoss
    {
      var prop: seq<string> := [];
      var i := 0;
      while i < |ids|
        invariant 0 <= i <= |ids|
        invariant prop == Survivors(ids[..i], Children(blocked.store.nodes, blocked.path))
      {
        var there := blocked.ProcessSet();
        if there.Failure? {
          return Failure(there.error);
        }
        assert ids[..i + 1][..i] == ids[..i];
        if ids[i] in there.value {
          prop := prop + [ids[i]];
        }
        i := i + 1;
      }
      assert ids[..|ids|] == ids;
      r := Success(prop);
    }

    /** Iterating a set (the addAll of the entering ids): every element once. */
    static method Enumerate(s: set<string>) returns (order: seq<string>)
      ensures Enumerates(order, s)
    {
      order := [];
      var left := s;
      while left != {}
        invariant Distinct(order) && Elements(order) !! left && Elements(order) + left == s
        decreases left
      {
        var x :| x in left;
        order := order + [x];
        left := left - {x};
      }
    }

    /** future.propose(prop) on the proposal of install(). */
    method ProposeNext() returns (r: Outcome, ghost prop: seq<string>, ghost arrivals: seq<string>)
      requires Valid() && state == Blocked
      modifies store, blocked, entering, future
      ensures store.live == old(store.live) && store.counters == old(store.counters)
      ensures members.data == old(members.data)
      ensures r.Success? ==>
        members.data.Some? && Enumerates(arrivals, Children(old(store.nodes), entering.path)) &&
        prop == Proposal(members.data.value, Children(old(store.nodes), blocked.path), arrivals) && prop != [] &&
        store.nodes == old(store.nodes)[future.path := if future.path in old(store.nodes) then old(store.nodes)[future.path] else Node(JavaText.Joined(prop), None)] &&
        future.data == Some(Split(Decided(old(store.nodes), future.path, prop)))
      ensures r.Failure? ==> store.nodes == old(store.nodes)
    {
      var built;
      built, arrivals := BuildProposal(members.data, blocked, entering);
      prop := [];
      if built.Failure? {
        return Failure(built.error), prop, arrivals;
      }
      prop := built.value;
      r := future.Propose(built.value);
    }

    /** The three tables of view `view`, created in the order install() makes them. */
    static method MakeTables(store: Store, session: nat, view: Path, me: string)
      returns (r: Result<(ProcesseMap, ProcesseMap, ProcesseMap), Fault>)
      modifies store
      ensures store.live == old(store.live) && store.counters == old(store.counters)
      ensures session !in store.live ==> r.Failure?
      ensures r.Success? ==>
        var (a, e, b) := r.value;
        fresh(a) && fresh(e) && fresh(b) &&
        a.store == store && e.store == store && b.store == store &&
        a.session == session && e.session == session && b.session == session &&
        a.me == me && e.me == me && b.me == me &&
        a.path == view + ["active"] && e.path == view + ["entering"] && b.path == view + ["blocked"] &&
        store.nodes == WithContainer(WithContainer(WithContainer(old(store.nodes), a.path), e.path), b.path)
    {
      var a := ProcesseMap.Make(store, session, view + ["active"], me);
      if a.Failure? {
        return Failure(a.error);
      }
      var e := ProcesseMap.Make(store, session, view + ["entering"], me);
      if e.Failure? {
        return Failure(e.error);
      }
      var b := ProcesseMap.Make(store, session, view + ["blocked"], me);
      if b.Failure? {
        return Failure(b.error);
      }
      r := Success((a.value, e.value, b.value));
    }

    /** vid++, oldblocked = blocked, and the three tables of the new view. */
    method OpenView() returns (r: Outcome)
      requires state == Blocked
      modifies this`vid, this`oldblocked, this`active, this`entering, this`blocked, store
      ensures store.live == old(store.live) && store.counters == old(store.counters)
      ensures vid == old(vid) + 1 && oldblocked == old(blocked)
      ensures session !in store.live ==> r.Failure?
      ensures r.Success? ==>
        fresh(active) && fresh(entering) && fresh(blocked) &&
        Placed(active, "active", vid) && Placed(entering, "entering", vid) && Placed(blocked, "blocked", vid) &&
        store.nodes == WithContainer(WithContainer(WithContainer(old(store.nodes), active.path), entering.path), blocked.path)
    {
      vid := vid + 1;
      oldblocked := blocked;
      var made := MakeTables(store, session, ViewPath(path, vid), me);
      if made.Failure? {
        return Failure(made.error);
      }
      active, entering, blocked := made.value.0, made.value.1, made.value.2;
      r := Pass;
    }

    /** The writes install() makes for a member of the new view: its log
        (new Messages) and the own active watermark, -1. */
    static method OpenLog(store: Store, session: nat, view: Path, active: ProcesseMap) returns (r: Result<Messages, Fault>)
      requires active.store == store && active.session == session && active.path == view + ["active"]
      modifies store
      ensures store.live == old(store.live) && store.counters == old(store.counters)
      ensures r.Success? <==> session in store.live && active.path + [active.me] !in old(store.nodes)
      ensures r.Success? ==>
        fresh(r.value) && r.value.last == -1 &&
        r.value.store == store && r.value.session == session && r.value.path == view + ["messages"] &&
        Reading(store.nodes, active.path + [active.me]) == Some(-1)
    {
      r := Messages.Make(store, session, view);
      if r.Failure? {
        return;
      }
      RolesApart(view, "messages", "active", active.me);
      assert view + ["messages"] != active.path + [active.me];
      var made := active.Create(-1);
      if made.Failure? {
        return Failure(made.error);
      }
      Decimal.ParseItos(-1);
    }

    /** The branch of install() for a member of the new view: the record
        becomes the view, its log is opened, the own active watermark starts
        at -1 and the state is JOINED. */
    method Adopt() returns (r: Result<seq<string>, Fault>)
      requires Closed() && state == Blocked
      requires active != null && blocked != null && entering != null && future != null
      requires Placed(active, "active", vid) && Placed(blocked, "blocked", vid) && Placed(entering, "entering", vid)
      requires Placed(oldblocked, "blocked", vid - 1) && RecordAt(future, vid)
      requires future.data.Some? && me in future.data.value
      modifies this, store
      ensures store.live == old(store.live) && store.counters == old(store.counters)
      ensures vid == old(vid) && me == old(me) && cause == old(cause) && events == old(events)
      ensures active == old(active) && blocked == old(blocked) && entering == old(entering) && oldblocked == old(oldblocked)
      ensures members == old(future) && future == null
      ensures r.Success? <==> session in store.live && active.path + [me] !in old(store.nodes)
      ensures r.Success? ==>
        Valid() && state == Joined && r.value == members.data.value && messages.last == -1 &&
        Reading(store.nodes, active.path + [me]) == Some(-1)
      ensures r.Failure? ==> state == Blocked
    {
      members := future;
      future := null;
      var log := OpenLog(store, session, ViewPath(path, vid), active);
      if log.Failure? {
        return Failure(log.error);
      }
      var names := Seat(log.value);
      r := Success(names);
    }

    /** The last steps of the joining branch of install(): the log is the
        view's, the state is JOINED, and getCurrentView() gives the members
        of the record. */
    method Seat(log: Messages) returns (names: seq<string>)
      requires Closed() && state == Blocked && future == null
      requires active != null && blocked != null && entering != null && members != null && members.data.Some?
      requires Placed(active, "active", vid) && Placed(blocked, "blocked", vid) && Placed(entering, "entering", vid)
      requires Placed(oldblocked, "blocked", vid - 1) && RecordAt(members, vid)
      requires log.store == store && log.session == session && log.path == ViewPath(path, vid) + ["messages"]
      modifies this`messages, this`state
      ensures Valid() && state == Joined && messages == log && names == members.data.value
    {
      messages := log;
      state := Joined;
      names := members.data.value;
    }

    /** What install() has done once this process has joined the next view:
        the proposal was the members of the view (prev) found in the blocked
        table `left`, in order, then the ids of the entering table `arriving`
        as its set yields them; the record of the next view holds what was
        decided, which includes this process; that record is the view, vid
        has grown by one and the blocked table is now the previous one. */
    ghost predicate Adopted(before: map<Path, Node>, v: int, prev: Option<seq<string>>, left: ProcesseMap,
                            arriving: ProcesseMap, record: ProcessList, prop: seq<string>, arrivals: seq<string>)
      reads this`state, this`vid, this`me, this`members, this`future, this`oldblocked, record`data
    {
      prev.Some? && state == Joined && vid == v + 1 && members == record && future == null && oldblocked == left &&
      Enumerates(arrivals, Children(before, arriving.path)) &&
      prop == Proposal(prev.value, Children(before, left.path), arrivals) && prop != [] &&
      record.data == Some(Split(Decided(before, record.path, prop))) && me in record.data.value
    }

    /** What install() has done when the record of the next view, decided on
        `prop`, leaves this process out: vid has grown by one, the log is
        dropped and the end-point has left the group (cleanup(null)). */
    ghost predicate Excluded(before: map<Path, Node>, v: int, record: ProcessList, prop: seq<string>)
      reads this`state, this`cause, this`vid, this`me, this`messages
    {
      state == Disconnected && cause == None && vid == v + 1 && messages == null &&
      prop != [] && me !in Split(Decided(before, record.path, prop))
    }

    /** install() once ready, up to the removal of the own entry of the
        previous view's blocked table: propose the next view, open it, and
        either join it or, when the decided record leaves this process out,
        drop the log and disconnect. A fault disconnects the end-point. */
    method Advance() returns (r: Result<bool, Exception>, ghost prop: seq<string>, ghost arrivals: seq<string>)
      requires Valid() && state == Blocked
      modifies this, store, blocked, entering, future
      ensures Valid() && events == old(events)
      ensures r.Failure? ==> state == Disconnected && session !in store.live && cause.Some?
      ensures r.Success? ==>
        oldblocked == old(blocked) && active != null && Placed(active, "active", vid) && Placed(oldblocked, "blocked", vid - 1)
      ensures r.Success? && r.value ==>
        Adopted(old(store.nodes), old(vid), old(members.data), old(blocked), old(entering), old(future), prop, arrivals) &&
        messages.last == -1 && me in Table(store.nodes, active.path) && Table(store.nodes, active.path)[me] == -1
      ensures r.Success? && !r.value ==> Excluded(old(store.nodes), old(vid), old(future), prop) && session !in store.live
    {
      var proposed;
      proposed, prop, arrivals := ProposeNext();
      if proposed.Failure? {
        Cleanup(Some(Internal(proposed.error)));
        return Failure(Internal(proposed.error)), prop, arrivals;
      }
      var entered := OpenView();
      if entered.Failure? {
        Cleanup(Some(Internal(entered.error)));
        return Failure(Internal(entered.error)), prop, arrivals;
      }
      r := Settle();
      if r.Success? && r.value {
        EntryOf(store.nodes, active.path, me, -1);
      }
    }

    /** The branch of install() on the decided record of the next view, now
        open: join it if the record names this process, otherwise drop the
        log and disconnect (cleanup(null)). A fault disconnects the end-point. */
    method Settle() returns (r: Result<bool, Exception>)
      requires Closed() && state == Blocked
      requires active != null && blocked != null && entering != null && future != null
      requires Placed(active, "active", vid) && Placed(blocked, "blocked", vid) && Placed(entering, "entering", vid)
      requires Placed(oldblocked, "blocked", vid - 1) && RecordAt(future, vid) && future.data.Some?
      modifies this, store
      ensures Valid() && events == old(events) && vid == old(vid) && me == old(me)
      ensures active == old(active) && oldblocked == old(oldblocked)
      ensures r.Failure? ==> state == Disconnected && session !in store.live && cause.Some?
      ensures r.Success? && r.value ==>
        me in old(future.data.value) && state == Joined && members == old(future) && future == null &&
        messages.last == -1 && Reading(store.nodes, active.path + [me]) == Some(-1)
      ensures r.Success? && !r.value ==>
        me !in old(future.data.value) && state == Disconnected && cause == None && messages == null &&
        session !in store.live
    {
      if me in future.data.value {
        var joined := Adopt();
        if joined.Failure? {
          Cleanup(Some(Internal(joined.error)));
          return Failure(Internal(joined.error));
        }
        r := Success(true);
      } else {
        messages := null;
        Cleanup(None);
        r := Success(false);
      }
    }

    /** oldblocked.remove() on entering view v of group: the own entry of the
        previous view's blocked table goes, the new active table stays. */
    static method Retire(group: Path, v: int, oldblocked: ProcesseMap, active: ProcesseMap) returns (r: Outcome)
      requires oldblocked.path == ViewPath(group, v - 1) + ["blocked"] && active.path == ViewPath(group, v) + ["active"]
      requires oldblocked.store == active.store
      modifies oldblocked.store
      ensures oldblocked.store.live == old(oldblocked.store.live)
      ensures r.Success? <==> oldblocked.session in oldblocked.store.live
      ensures r.Success? ==>
        oldblocked.me !in Table(oldblocked.store.nodes, oldblocked.path) &&
        Table(oldblocked.store.nodes, active.path) == Table(old(oldblocked.store.nodes), active.path)
    {
      r := oldblocked.Remove();
      if r.Success? {
        TablesApart(group, v - 1, v, "blocked", "active", oldblocked.me);
        TableElsewhere(old(oldblocked.store.nodes), active.path, oldblocked.path + [oldblocked.me], Node("", None));
      }
    }

    /** The end of install() as written, the next view open: remove the own
        entry of the previous view's blocked table, a fault disconnecting
        the end-point, then call install(vid, names) on the application. */
    method Announce(names: Option<seq<string>>) returns (r: Result<(), Exception>)
      requires Valid() && active != null && oldblocked != null
      requires Placed(active, "active", vid) && Placed(oldblocked, "blocked", vid - 1)
      modifies this, store
      ensures Valid() && store.live <= old(store.live)
      ensures state == old(state) || state == Disconnected
      ensures r.Failure? ==> state == Disconnected && session !in store.live
      ensures old(state) == Disconnected ==> r.Failure? && cause == old(cause)
      ensures old(state) != Disconnected && r.Failure? ==> cause.Some?
      ensures vid == old(vid) && me == old(me) && members == old(members) && future == old(future)
      ensures active == old(active) && oldblocked == old(oldblocked) && messages == old(messages)
      ensures r.Failure? ==> events == old(events)
      ensures r.Success? ==>
        state == old(state) && cause == old(cause) &&
        Table(store.nodes, active.path) == Table(old(store.nodes), active.path) &&
        me !in Table(store.nodes, oldblocked.path) && events == old(events) + [Event.Install(vid, names)]
    {
      var removed := Retire(path, vid, oldblocked, active);
      if removed.Failure? {
        Cleanup(Some(Internal(removed.error)));
        return Failure(Internal(removed.error));
      }
      events := events + [Event.Install(vid, names)];
      r := Success(());
    }

    /** The rest of install() as written, once ready: advance to the next
        view, remove the own entry of the previous view's blocked table,
        then call install(vid, names) on the application. A process the
        decided record leaves out has closed its session by then, so that
        removal fails and the callback with null members is never made. */
    method Conclude() returns (r: Result<(), Exception>, ghost prop: seq<string>, ghost arrivals: seq<string>)
      requires Valid() && state == Blocked
      modifies this, store, blocked, entering, future
      ensures Valid()
      ensures state == Disconnected || state == Joined
      ensures r.Failure? ==> state == Disconnected && session !in store.live
      ensures r.Success? ==>
        Adopted(old(store.nodes), old(vid), old(members.data), old(blocked), old(entering), old(future), prop, arrivals) &&
        me in Table(store.nodes, active.path) && Table(store.nodes, active.path)[me] == -1 &&
        me !in Table(store.nodes, oldblocked.path) && events == old(events) + [Event.Install(vid, members.data)]
      ensures state == Disconnected && cause == None ==>
        Excluded(old(store.nodes), old(vid), old(future), prop) && events == old(events)
    {
      var joined;
      joined, prop, arrivals := Advance();
      if joined.Failure? {
        return Failure(joined.error), prop, arrivals;
      }
      r := Announce(if joined.value then members.data else None);
    }

    /** install() as written. */
    method Install() returns (r: Result<(), Exception>, ghost prop: seq<string>, ghost arrivals: seq<string>)
      requires Valid()
      modifies this, store, active, blocked, entering, future
      ensures Valid()
      ensures state == old(state) || state == Disconnected || (old(state) == Blocked && state == Joined)
      ensures r.Failure? ==> state == Disconnected && session !in store.live
      ensures !old(InstallReady()) && r.Success? ==>
        state == old(state) && vid == old(vid) && events == old(events) && store.nodes == old(store.nodes)
      ensures old(state) != Blocked ==> r.Success? && cause == old(cause)
      ensures old(InstallReady()) && r.Success? ==>
        Adopted(old(store.nodes), old(vid), old(members.data), old(blocked), old(entering), old(future), prop, arrivals) &&
        me in Table(store.nodes, active.path) && Table(store.nodes, active.path)[me] == -1 &&
        me !in Table(store.nodes, oldblocked.path) && events == old(events) + [Event.Install(vid, members.data)]
      ensures old(state) == Blocked && state == Disconnected && cause == None ==>
        Excluded(old(store.nodes), old(vid), old(future), prop) && events == old(events)
    {
      prop, arrivals := [], [];
      var ready := ReadyToInstall();
      if ready.Failure? {
        Cleanup(Some(Internal(ready.error)));
        return Failure(Internal(ready.error)), prop, arrivals;
      }
      if !ready.value {
        return Success(()), prop, arrivals;
      }
      r, prop, arrivals := Conclude();
    }

    /** The end of install() as evidently intended: a process left out of
        the next view has already closed its session, so it skips the
        removal, and every install ends with the callback, null members
        telling the application it was excluded. */
    method AnnounceCorrected(names: Option<seq<string>>) returns (r: Result<(), Exception>)
      requires Valid() && active != null && oldblocked != null
      requires Placed(active, "active", vid) && Placed(oldblocked, "blocked", vid - 1)
      modifies this, store
      ensures Valid() && store.live <= old(store.live)
      ensures state == old(state) || state == Disconnected
      ensures r.Failure? ==> state == Disconnected && session !in store.live && cause.Some? && events == old(events)
      ensures old(state) == Disconnected ==> r.Success? && cause == old(cause) && store.nodes == old(store.nodes)
      ensures vid == old(vid) && me == old(me) && members == old(members) && future == old(future)
      ensures active == old(active) && oldblocked == old(oldblocked) && messages == old(messages)
      ensures r.Success? ==> state == old(state) && cause == old(cause) && events == old(events) + [Event.Install(vid, names)]
      ensures r.Success? && old(state) != Disconnected ==>
        Table(store.nodes, active.path) == Table(old(store.nodes), active.path) && me !in Table(store.nodes, oldblocked.path)
    {
      if state != Disconnected {
        var removed := Retire(path, vid, oldblocked, active);
        if removed.Failure? {
          Cleanup(Some(Internal(removed.error)));
          return Failure(Internal(removed.error));
        }
      }
      events := events + [Event.Install(vid, names)];
      r := Success(());
    }

    /** The rest of install() once ready, with the corrected ending. */
    method ConcludeCorrected() returns (r: Result<(), Exception>, ghost prop: seq<string>, ghost arrivals: seq<string>)
      requires Valid() && state == Blocked
      modifies this, store, blocked, entering, future
      ensures Valid()
      ensures state == Disconnected || state == Joined
      ensures r.Failure? ==> state == Disconnected && session !in store.live && cause.Some?
      ensures r.Success? && state == Joined ==>
        Adopted(old(store.nodes), old(vid), old(members.data), old(blocked), old(entering), old(future), prop, arrivals) &&
        me in Table(store.nodes, active.path) && Table(store.nodes, active.path)[me] == -1 &&
        me !in Table(store.nodes, oldblocked.path) && events == old(events) + [Event.Install(vid, members.data)]
      ensures r.Success? && state == Disconnected ==>
        Excluded(old(store.nodes), old(vid), old(future), prop) && session !in store.live &&
        events == old(events) + [Event.Install(vid, None)]
    {
      var joined;
      joined, prop, arrivals := Advance();
      if joined.Failure? {
        return Failure(joined.error), prop, arrivals;
      }
      r := AnnounceCorrected(if joined.value then members.data else None);
    }

    /** install() with the corrected ending: once ready, the end-point
        either joins the next view or leaves the group, and in both cases
        the application hears of the new view. */
    method InstallCorrected() returns (r: Result<(), Exception>, ghost prop: seq<string>, ghost arrivals: seq<string>)
      requires Valid()
      modifies this, store, active, blocked, entering, future
      ensures Valid()
      ensures state == old(state) || state == Disconnected || (old(state) == Blocked && state == Joined)
      ensures r.Failure? ==> state == Disconnected && session !in store.live && cause.Some?
      ensures !old(InstallReady()) && r.Success? ==>
        state == old(state) && vid == old(vid) && events == old(events) && store.nodes == old(store.nodes)
      ensures old(state) != Blocked ==> r.Success? && cause == old(cause)
      ensures old(InstallReady()) && r.Success? && state == Joined ==>
        Adopted(old(store.nodes), old(vid), old(members.data), old(blocked), old(entering), old(future), prop, arrivals) &&
        me in Table(store.nodes, active.path) && Table(store.nodes, active.path)[me] == -1 &&
        me !in Table(store.nodes, oldblocked.path) && events == old(events) + [Event.Install(vid, members.data)]
      ensures old(InstallReady()) && r.Success? && state == Disconnected ==>
        Excluded(old(store.nodes), old(vid), old(future), prop) && events == old(events) + [Event.Install(vid, None)]
      ensures old(state) == Blocked && state == Disconnected && cause == None ==> r.Success?
    {
      prop, arrivals := [], [];
      var ready := ReadyToInstall();
      if ready.Failure? {
        Cleanup(Some(Internal(ready.error)));
        return Failure(Internal(ready.error)), prop, arrivals;
      }
      if !ready.value {
        return Success(()), prop, arrivals;
      }
      r, prop, arrivals := ConcludeCorrected();
    }
    /** One pass of the worker loop: deliver(), block(), install(), in that
        order. An exception ends the pass; the step that raised it has already
        disconnected the end-point, so the loop's cleanup(e) changes nothing.
        A pass makes at most one move of the state machine, and a
        disconnected end-point stays as it is. */
    method Reconcile() returns (r: Result<(), Exception>)
      requires Valid()
      modifies this, store, active, blocked, oldblocked, entering, future, messages
      ensures Valid() && Allowed(old(state), state)
      ensures r.Failure? ==> state == Disconnected && session !in store.live
      ensures old(state) == Disconnected ==> r.Success? && state == Disconnected && cause == old(cause)
    {
      var delivered, _, _, _ := Deliver();
      if delivered.Failure? {
        return delivered;
      }
      r := Change();
    }

    /** The view-change half of a pass: block(), then install() as written
        (see Install), so an excluded end-point's pass fails. */
    method Change() returns (r: Result<(), Exception>)
      requires Valid()
      modifies this, store, active, blocked, oldblocked, entering, future
      ensures Valid() && Allowed(old(state), state)
      ensures r.Failure? ==> state == Disconnected && session !in store.live
      ensures old(state) == Disconnected ==> r.Success? && state == Disconnected && cause == old(cause)
    {
      var blocked_ := Block();
      if blocked_.Failure? {
        return blocked_;
      }
      var installed, _, _ := Install();
      r := installed;
    }

    /* -- Joining the group */

    /** createPath(p): a persistent empty node; one that exists already is fine. */
    static method CreatePath(store: Store, session: nat, p: Path) returns (r: Outcome)
      modifies store
      ensures store.live == old(store.live) && store.counters == old(store.counters)
      ensures r.Success? <==> session in store.live
      ensures session !in store.live ==> r == Failure(ConnectionLoss) && store.nodes == old(store.nodes)
      ensures session in store.live ==> store.nodes == WithContainer(old(store.nodes), p)
    {
      r := store.Create(session, p, "", false);
      if r.Failure? && r.error == NodeExists {
        r := Pass;
      }
    }

    /** The four createPath calls of boot(): /vsc, /vsc/group, /vsc/process and the group's node. */
    static method CreatePaths(store: Store, session: nat, group: Path) returns (r: Outcome)
      modifies store
      ensures store.live == old(store.live) && store.counters == old(store.counters)
      ensures r.Success? <==> session in store.live
      ensures session !in store.live ==> r == Failure(ConnectionLoss) && store.nodes == old(store.nodes)
      ensures session in store.live ==>
        store.nodes == WithContainer(WithContainer(WithContainer(WithContainer(old(store.nodes), Root), Root + ["group"]), Root + ["process"]), group)
    {
      r := CreatePath(store, session, Root);
      if r.Failure? {
        return;
      }
      r := CreatePath(store, session, Root + ["group"]);
      r := CreatePath(store, session, Root + ["process"]);
      r := CreatePath(store, session, group);
    }

    /** findPid(): an ephemeral sequential child of /vsc/process; its name,
        the ten-digit sequence number, is this process's id. */
    method FindPid() returns (r: Outcome)
      modifies this`me, store
      ensures store.live == old(store.live)
      ensures r.Success? <==> session in store.live && PidPath(old(store.NextSequence(Root + ["process"]))) !in old(store.nodes)
      ensures session !in store.live ==> r == Failure(ConnectionLoss)
      ensures r.Success? ==>
        me == Decimal.Pad10(old(store.NextSequence(Root + ["process"]))) &&
        store.nodes == old(store.nodes)[PidPath(old(store.NextSequence(Root + ["process"]))) := Node("", Some(session))]
      ensures r.Failure? ==> me == old(me) && store.nodes == old(store.nodes)
    {
      var pid := NewPid(store, session);
      if pid.Failure? {
        return Failure(pid.error);
      }
      me := pid.value;
      r := Pass;
    }

    /** findView(): vid is set to the largest view number among the
        children of the group's node (see LatestView). */
    method FindView() returns (target: int, ghost listing: seq<string>)
      modifies this`vid
      ensures vid == target && target == Latest(listing, -1)
      ensures session !in store.live || path !in store.nodes ==> listing == [] && target == -1
      ensures session in store.live && path in store.nodes ==>
        Distinct(listing) && (set x | x in listing) == Children(store.nodes, path)
      ensures (forall i | 0 <= i < |listing| :: Decimal.ParseInt(listing[i]).Some?) ==>
        (forall i | 0 <= i < |listing| :: Decimal.ParseInt(listing[i]).value <= target) &&
        (target == -1 || exists i | 0 <= i < |listing| :: Decimal.ParseInt(listing[i]).value == target)
    {
      target, listing := LatestView(store, session, path);
      vid := target;
    }

    /** What boot() makes in view 0: the record, proposed with this
        process alone, the three tables, the log, and the own active
        watermark -1, written last. */
    static method Found(store: Store, session: nat, group: Path, me: string)
      returns (r: Outcome, l: ProcessList?, a: ProcesseMap?, b: ProcesseMap?, e: ProcesseMap?, m: Messages?)
      modifies store
      ensures store.live == old(store.live) && store.counters == old(store.counters)
      ensures session !in store.live ==> r == Failure(ConnectionLoss)
      ensures r.Success? ==>
        l != null && a != null && b != null && e != null && m != null &&
        fresh(l) && fresh(a) && fresh(b) && fresh(e) && fresh(m) &&
        Holds(l, store, session, ViewPath(group, 0)) && Sits(a, store, session, me, ViewPath(group, 0) + ["active"]) &&
        Sits(b, store, session, me, ViewPath(group, 0) + ["blocked"]) && Sits(e, store, session, me, ViewPath(group, 0) + ["entering"]) &&
        m.store == store && m.session == session && m.path == ViewPath(group, 0) + ["messages"] &&
        l.data == Some(Split(Decided(old(store.nodes), ViewPath(group, 0), [me]))) && m.last == -1 &&
        Reading(store.nodes, a.path + [me]) == Some(-1)
    {
      l, a, b, e, m := null, null, null, null, null;
      var view := ViewPath(group, 0);
      var list := ProcessList.Make(store, session, view);
      if list.Failure? {
        return Failure(list.error), l, a, b, e, m;
      }
      l := list.value;
      var proposed := l.Propose([me]);
      assert proposed == Pass;  // the session is live and the proposal is not empty
      var table := ProcesseMap.Make(store, session, view + ["active"], me);
      if table.Failure? {
        return Failure(table.error), l, a, b, e, m;
      }
      a := table.value;
      table := ProcesseMap.Make(store, session, view + ["blocked"], me);
      if table.Failure? {
        return Failure(table.error), l, a, b, e, m;
      }
      b := table.value;
      table := ProcesseMap.Make(store, session, view + ["entering"], me);
      if table.Failure? {
        return Failure(table.error), l, a, b, e, m;
      }
      e := table.value;
      var log := Messages.Make(store, session, view);
      assert log.Success?;  // the session is live
      m := log.value;
      r := a.Create(-1);
      Decimal.ParseItos(-1);
    }

    /** The end of boot(): with view 0 made, the end-point takes its
        components, is JOINED, and the application hears of view 0 with the
        members getCurrentView() gives. */
    method Take0(l: ProcessList, a: ProcesseMap, b: ProcesseMap, e: ProcesseMap, m: Messages)
      requires Closed() && state == Connected && vid == 0
      requires Holds(l, store, session, ViewPath(path, 0)) && Sits(a, store, session, me, ViewPath(path, 0) + ["active"])
      requires Sits(b, store, session, me, ViewPath(path, 0) + ["blocked"]) && Sits(e, store, session, me, ViewPath(path, 0) + ["entering"])
      requires m.store == store && m.session == session && m.path == ViewPath(path, 0) + ["messages"]
      requires oldblocked == null && future == null
      modifies this`members, this`active, this`blocked, this`entering, this`messages, this`state, this`events
      ensures Valid() && state == Joined
      ensures members == l && active == a && blocked == b && entering == e && messages == m
      ensures events == old(events) + [Event.Install(0, l.data)]
    {
      ShapedBoot(store, session, path, me, l, a, b, e, m);
      members, active, blocked, entering, messages := l, a, b, e, m;
      state := Joined;
      events := events + [Event.Install(vid, members.data)];
    }

    /** boot() from the making of view 0 on. */
    method Open0() returns (r: Outcome)
      requires Valid() && state == Connected && vid == 0
      modifies this, store
      ensures Valid() && store.live == old(store.live)
      ensures cause == old(cause) && vid == old(vid) && me == old(me)
      ensures session !in store.live ==> r == Failure(ConnectionLoss)
      ensures r.Failure? ==> state == Connected && events == old(events)
      ensures r.Success? ==>
        state == Joined && members.data == Some(Split(Decided(old(store.nodes), ViewPath(path, 0), [me]))) &&
        Reading(store.nodes, active.path + [me]) == Some(-1) &&
        messages.last == -1 && events == old(events) + [Event.Install(0, members.data)]
    {
      var l, a, b, e, m;
      r, l, a, b, e, m := Found(store, session, path, me);
      if r.Failure? {
        return;
      }
      Take0(l, a, b, e, m);
    }

    /** boot(): make the first view of a group nobody has joined: view 0,
        whose record is this process alone unless another booter wrote it
        first; the end-point is JOINED and the application hears of view 0. */
    method Boot() returns (r: Outcome)
      requires Valid() && state == Connected
      modifies this, store
      ensures Valid() && store.live == old(store.live)
      ensures cause == old(cause)
      ensures session !in store.live ==> r == Failure(ConnectionLoss)
      ensures r.Failure? ==> state == Connected && events == old(events)
      ensures r.Success? ==>
        state == Joined && vid == 0 && me == Decimal.Pad10(old(store.NextSequence(Root + ["process"]))) &&
        members.data == Some(if ViewPath(path, 0) in old(store.nodes) then Split(old(store.nodes)[ViewPath(path, 0)].data) else [me]) &&
        Reading(store.nodes, active.path + [me]) == Some(-1) &&
        messages.last == -1 && events == old(events) + [Event.Install(0, members.data)]
    {
      vid := 0;
      var made := CreatePaths(store, session, path);
      if made.Failure? {
        return made;
      }
      ghost var named := store.nodes;
      made := FindPid();
      if made.Failure? {
        return made;
      }
      ghost var n := old(store.NextSequence(Root + ["process"]));
      BootRecord(old(store.nodes), named, store.nodes, gid, n, me, store.nodes[PidPath(n)]);
      r := Open0();
    }

    /** What join() makes for a process entering a group at view v: the
        record of v, the three tables of v, the record of v + 1 it waits
        for, and its own entering watermark -1, written last. */
    static method Attend(store: Store, session: nat, group: Path, v: int, me: string)
      returns (r: Outcome, l: ProcessList?, e: ProcesseMap?, b: ProcesseMap?, a: ProcesseMap?, f: ProcessList?)
      modifies store
      ensures store.live == old(store.live) && store.counters == old(store.counters)
      ensures session !in store.live ==> r == Failure(ConnectionLoss)
      ensures r.Success? ==>
        l != null && e != null && b != null && a != null && f != null && l != f &&
        fresh(l) && fresh(e) && fresh(b) && fresh(a) && fresh(f) &&
        Holds(l, store, session, ViewPath(group, v)) && Holds(f, store, session, ViewPath(group, v + 1)) &&
        Sits(e, store, session, me, ViewPath(group, v) + ["entering"]) && Sits(b, store, session, me, ViewPath(group, v) + ["blocked"]) &&
        Sits(a, store, session, me, ViewPath(group, v) + ["active"]) &&
        l.data == Recorded(old(store.nodes), ViewPath(group, v)) &&
        f.data == Recorded(old(store.nodes), ViewPath(group, v + 1)) &&
        Reading(store.nodes, e.path + [me]) == Some(-1)
    {
      l, e, b, a, f := null, null, null, null, null;
      var view := ViewPath(group, v);
      var list := ProcessList.Make(store, session, view);
      if list.Failure? {
        return Failure(list.error), l, e, b, a, f;
      }
      l := list.value;
      var table := ProcesseMap.Make(store, session, view + ["entering"], me);
      if table.Failure? {
        return Failure(table.error), l, e, b, a, f;
      }
      e := table.value;
      table := ProcesseMap.Make(store, session, view + ["blocked"], me);
      if table.Failure? {
        return Failure(table.error), l, e, b, a, f;
      }
      b := table.value;
      table := ProcesseMap.Make(store, session, view + ["active"], me);
      if table.Failure? {
        return Failure(table.error), l, e, b, a, f;
      }
      a := table.value;
      NextRecordApart(old(store.nodes), group, v);
      list := ProcessList.Make(store, session, ViewPath(group, v + 1));
      assert list.Success?;  // the session is live
      f := list.value;
      r := e.Create(-1);
      Decimal.ParseItos(-1);
    }

    /** The end of the entering branch of join(): the end-point takes the
        components of view vid and the record of view vid + 1, and waits
        BLOCKED. */
    method Wait(l: ProcessList, e: ProcesseMap, b: ProcesseMap, a: ProcesseMap, f: ProcessList)
      requires Closed() && state == Connected && l != f
      requires Holds(l, store, session, ViewPath(path, vid)) && Holds(f, store, session, ViewPath(path, vid + 1))
      requires Sits(e, store, session, me, ViewPath(path, vid) + ["entering"]) && Sits(b, store, session, me, ViewPath(path, vid) + ["blocked"])
      requires Sits(a, store, session, me, ViewPath(path, vid) + ["active"])
      requires oldblocked == null && messages == null
      modifies this`members, this`entering, this`blocked, this`active, this`future, this`state
      ensures Valid() && state == Blocked
      ensures members == l && entering == e && blocked == b && active == a && future == f
    {
      ShapedEntered(store, session, path, me, vid, l, e, b, a, f);
      members, entering, blocked, active, future := l, e, b, a, f;
      state := Blocked;
    }

    /** The entering branch of join() once the process id is taken. */
    method Register() returns (r: Outcome)
      requires Valid() && state == Connected
      modifies this, store
      ensures Valid() && store.live == old(store.live)
      ensures cause == old(cause) && vid == old(vid) && me == old(me) && events == old(events)
      ensures session !in store.live ==> r == Failure(ConnectionLoss)
      ensures r.Failure? ==> state == Connected
      ensures r.Success? ==>
        state == Blocked &&
        members.data == Recorded(old(store.nodes), ViewPath(path, vid)) &&
        future.data == Recorded(old(store.nodes), ViewPath(path, vid + 1)) &&
        Reading(store.nodes, entering.path + [me]) == Some(-1)
    {
      var l, e, b, a, f;
      r, l, e, b, a, f := Attend(store, session, path, vid, me);
      if r.Failure? {
        return;
      }
      Wait(l, e, b, a, f);
    }

    /** The branch of join() for a group that has views: take a process id,
        open the tables of view vid, register in its entering table and
        wait BLOCKED for the record of view vid + 1. */
    method Enter() returns (r: Outcome)
      requires Valid() && state == Connected
      modifies this, store
      ensures Valid() && store.live == old(store.live)
      ensures cause == old(cause) && vid == old(vid) && events == old(events)
      ensures session !in store.live ==> r == Failure(ConnectionLoss)
      ensures r.Failure? ==> state == Connected
      ensures r.Success? ==>
        state == Blocked && me == Decimal.Pad10(old(store.NextSequence(Root + ["process"]))) &&
        members.data == Recorded(old(store.nodes), ViewPath(path, vid)) &&
        future.data == Recorded(old(store.nodes), ViewPath(path, vid + 1)) &&
        Reading(store.nodes, entering.path + [me]) == Some(-1)
    {
      r := FindPid();
      if r.Failure? {
        return;
      }
      PidApart(gid, vid, old(store.NextSequence(Root + ["process"])));
      r := Register();
    }

    /** The booting branch of join(), with its handler: a failure of boot()
        disconnects the end-point and throws "disconnected on internal error". */
    method JoinNew() returns (r: Result<(), Exception>)
      requires Valid() && state == Connected
      modifies this, store
      ensures Valid()
      ensures session !in old(store.live) ==> r.Failure?
      ensures r.Failure? ==>
        state == Disconnected && session !in store.live && events == old(events) &&
        cause.Some? && r.error == GroupException(DisconnectedOnError, cause)
      ensures r.Success? ==>
        Valid() && state == Joined && vid == 0 && me == Decimal.Pad10(old(store.NextSequence(Root + ["process"]))) &&
        members.data == Some(if ViewPath(path, 0) in old(store.nodes) then Split(old(store.nodes)[ViewPath(path, 0)].data) else [me]) &&
        Reading(store.nodes, active.path + [me]) == Some(-1) &&
        events == old(events) + [Event.Install(0, members.data)]
    {
      var made := Boot();
      if made.Failure? {
        var thrown := OnExit(Internal(made.error));
        return Failure(thrown);
      }
      r := Success(());
    }

    /** The entering branch of join(), with the same handler. */
    method JoinExisting() returns (r: Result<(), Exception>)
      requires Valid() && state == Connected
      modifies this, store
      ensures Valid() && vid == old(vid) && events == old(events)
      ensures session !in old(store.live) ==> r.Failure?
      ensures r.Failure? ==>
        state == Disconnected && session !in store.live && cause.Some? && r.error == GroupException(DisconnectedOnError, cause)
      ensures r.Success? ==>
        state == Blocked && me == Decimal.Pad10(old(store.NextSequence(Root + ["process"]))) &&
        members.data == Recorded(old(store.nodes), ViewPath(path, vid)) &&
        future.data == Recorded(old(store.nodes), ViewPath(path, vid + 1)) &&
        Reading(store.nodes, entering.path + [me]) == Some(-1)
    {
      var made := Enter();
      if made.Failure? {
        var thrown := OnExit(Internal(made.error));
        return Failure(thrown);
      }
      r := Success(());
    }

    /** What join() has done for a CONNECTED end-point, given the store
        (before), the sessions alive (live), the next process sequence number
        (n) and the callbacks (trace) when it was called, and the listing of
        the group's node it scanned. The latest view number found decides:
        without one the end-point booted view 0 and is JOINED, its record
        holding only this process unless another booter wrote it first;
        with one, vid, the end-point registered as entering with watermark
        -1 and waits BLOCKED for the record of vid + 1. On failure it is
        DISCONNECTED with the cause recorded. */
    ghost predicate JoinedAs(before: map<Path, Node>, live: set<nat>, n: nat, trace: seq<Event>,
                             r: Result<(), Exception>, listing: seq<string>)
      reads this, store, members, future
    {
      (session in live && path in before ==> Distinct(listing) && (set x | x in listing) == Children(before, path)) &&
      (session !in live || path !in before ==> listing == []) &&
      (session !in live ==> r.Failure?) &&
      (r.Failure? ==>
        state == Disconnected && session !in store.live && events == trace &&
        cause.Some? && r.error == GroupException(DisconnectedOnError, cause)) &&
      (r.Success? && Latest(listing, -1) < 0 ==>
        state == Joined && vid == 0 && me == Decimal.Pad10(n) && active != null && members != null &&
        members.data == Some(if ViewPath(path, 0) in before then Split(before[ViewPath(path, 0)].data) else [me]) &&
        Reading(store.nodes, active.path + [me]) == Some(-1) &&
        events == trace + [Event.Install(0, members.data)]) &&
      (r.Success? && Latest(listing, -1) >= 0 ==>
        state == Blocked && vid == Latest(listing, -1) && me == Decimal.Pad10(n) &&
        entering != null && members != null && future != null &&
        members.data == Recorded(before, ViewPath(path, vid)) &&
        future.data == Recorded(before, ViewPath(path, vid + 1)) &&
        Reading(store.nodes, entering.path + [me]) == Some(-1) &&
        events == trace)
    }

    /** The body of join() past its state check: find the latest view, then
        boot or enter. */
    method Joining() returns (r: Result<(), Exception>, ghost listing: seq<string>)
      requires Valid() && state == Connected
      modifies this, store
      ensures Valid()
      ensures JoinedAs(old(store.nodes), old(store.live), old(store.NextSequence(Root + ["process"])), old(events), r, listing)
    {
      var target;
      target, listing := FindView();
      if vid < 0 {
        r := JoinNew();
      } else {
        r := JoinExisting();
      }
    }

    /** join(): only a CONNECTED end-point may join. Without a view to find
        it boots view 0; otherwise it enters at the latest view found. Any
        failure disconnects it and throws "disconnected on internal error". */
    method Join() returns (r: Result<(), Exception>, ghost listing: seq<string>)
      requires Valid()
      modifies this, store
      ensures Valid()
      ensures old(state) != Connected ==>
        r == Failure(GroupException(WrongState(old(state), [Connected]), old(cause))) && state == Disconnected &&
        events == old(events) && listing == []
      ensures old(state) == Connected ==> JoinedAs(old(store.nodes), old(store.live), old(store.NextSequence(Root + ["process"])), old(events), r, listing)
    {
      listing := [];
      var ok := OnEntry([Connected]);
      if ok.Failure? {
        return Failure(ok.error), listing;
      }
      r, listing := Joining();
    }
  }
}
