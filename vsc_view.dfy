/** The state machine of the vsc prototype (src/vsc/View.java). A view vid
    of the group node `path` is the node path/vid holding its membership
    record, with an active, a leaving and an entering table and a log below
    it. A flag `blocked` marks a process that has decided to change view;
    blockOk() moves its watermark from the active to the leaving table and
    opens the record of the next view, which tryEnter() proposes and
    tryInstall() takes. An exception ends the worker thread.

    Application callbacks are recorded in `events`; the log hands its
    messages over as it reads them, when it is made and when its watch
    fires (Hear); one iteration of the worker loop is Round. */
module VscView {
  import opened Failure
  import Decimal
  import opened Coordination
  import opened Tables
  import opened JavaText
  import opened VscProcesseMap
  import opened VscProcessList
  import opened VscMessages
  import GroupzProcessList
  import GroupzMessages
  import GroupzEndpoint

  /** The exceptions the view throws itself. */
  const KickedOut: Fault := Raised("kicket out")
  const SendingWhileBlocked: Fault := Raised("sending while blocked")

  function ViewPath(group: Path, vid: int): Path { GroupzEndpoint.ViewPath(group, vid) }

  /** Table m, when present, is the one at `at` seen by process me through session. */
  predicate Sits(m: ProcesseMap?, store: Store, session: nat, me: string, at: Path) {
    m != null ==> m.store == store && m.session == session && m.me == me && m.path == at
  }

  /** Record l, when present, is the one at `at` seen through session. */
  predicate Holds(l: ProcessList?, store: Store, session: nat, at: Path) {
    l != null ==> l.store == store && l.session == session && l.path == at
  }

  /** The components of view vid of group `path`: its tables, the previous
      view's leaving table, its record (none while entering), the record of
      the next view once blockOk() or join() has opened it, and its log
      whenever no next record is open. */
  predicate Laid(store: Store, session: nat, path: Path, me: string, vid: int,
                 active: ProcesseMap?, leaving: ProcesseMap?, entering: ProcesseMap?, oldleaving: ProcesseMap?,
                 members: ProcessList?, future: ProcessList?, messages: Messages?)
  {
    var view := ViewPath(path, vid);
    active != null && leaving != null && entering != null &&
    Sits(active, store, session, me, view + ["active"]) && Sits(leaving, store, session, me, view + ["leaving"]) &&
    Sits(entering, store, session, me, view + ["entering"]) &&
    Sits(oldleaving, store, session, me, ViewPath(path, vid - 1) + ["leaving"]) &&
    Holds(members, store, session, view) && Holds(future, store, session, ViewPath(path, vid + 1)) &&
    (members == null ==> future != null) && (members != null && future != null ==> members != future) &&
    (messages != null ==>
      messages.store == store && messages.session == session && messages.path == view + ["messages"]) &&
    (future == null ==> messages != null)
  }

  /** The layout once tryInstall() has taken record l as view v. */
  lemma LaidInstalled(store: Store, session: nat, path: Path, me: string, v: int, a: ProcesseMap, l: ProcesseMap,
                      e: ProcesseMap, ol: ProcesseMap?, rec: ProcessList, m: Messages)
    requires Sits(a, store, session, me, ViewPath(path, v) + ["active"]) && Sits(l, store, session, me, ViewPath(path, v) + ["leaving"])
    requires Sits(e, store, session, me, ViewPath(path, v) + ["entering"])
    requires Sits(ol, store, session, me, ViewPath(path, v - 1) + ["leaving"]) && Holds(rec, store, session, ViewPath(path, v))
    requires m.store == store && m.session == session && m.path == ViewPath(path, v) + ["messages"]
    ensures Laid(store, session, path, me, v, a, l, e, ol, rec, null, m)
  {
  }

  /** The layout once boot() has made view 0. */
  lemma LaidBoot(store: Store, session: nat, path: Path, me: string, rec: ProcessList, a: ProcesseMap,
                 l: ProcesseMap, e: ProcesseMap, m: Messages)
    requires Holds(rec, store, session, ViewPath(path, 0)) && Sits(a, store, session, me, ViewPath(path, 0) + ["active"])
    requires Sits(l, store, session, me, ViewPath(path, 0) + ["leaving"]) && Sits(e, store, session, me, ViewPath(path, 0) + ["entering"])
    requires m.store == store && m.session == session && m.path == ViewPath(path, 0) + ["messages"]
    ensures Laid(store, session, path, me, 0, a, l, e, null, rec, null, m)
  {
  }

  /** The layout once join() has registered as entering view v: no record
      of v and no log, only the record of v + 1 awaited. */
  lemma LaidEntered(store: Store, session: nat, path: Path, me: string, v: int, e: ProcesseMap,
                    l: ProcesseMap, a: ProcesseMap, f: ProcessList)
    requires Holds(f, store, session, ViewPath(path, v + 1))
    requires Sits(e, store, session, me, ViewPath(path, v) + ["entering"]) && Sits(l, store, session, me, ViewPath(path, v) + ["leaving"])
    requires Sits(a, store, session, me, ViewPath(path, v) + ["active"])
    ensures Laid(store, session, path, me, v, a, l, e, null, null, f, null)
  {
  }

  /** blockOk()'s two writes touch one table each: the own leaving entry is
      not in the active table, and the own active entry not in the leaving table. */
  lemma LeavingApart(nodes: map<Path, Node>, view: Path, me: string, entry: Node)
    ensures Table(nodes[view + ["leaving"] + [me] := entry], view + ["active"]) == Table(nodes, view + ["active"])
    ensures Table(nodes - {view + ["active"] + [me]}, view + ["leaving"]) == Table(nodes, view + ["leaving"])
  {
    GroupzEndpoint.RolesApart(view, "leaving", "active", me);
    TableElsewhere(nodes, view + ["active"], view + ["leaving"] + [me], entry);
    GroupzEndpoint.RolesApart(view, "active", "leaving", me);
    TableElsewhere(nodes, view + ["leaving"], view + ["active"] + [me], entry);
  }

  /** The tables join() makes at view v lie outside the record of v + 1. */
  lemma NextRecordApart(nodes: map<Path, Node>, group: Path, v: int)
    ensures GroupzProcessList.Recorded(WithContainer(WithContainer(WithContainer(nodes, ViewPath(group, v) + ["entering"]),
      ViewPath(group, v) + ["leaving"]), ViewPath(group, v) + ["active"]), ViewPath(group, v + 1)) ==
      GroupzProcessList.Recorded(nodes, ViewPath(group, v + 1))
  {
  }

  class View {
    const store: Store
    const session: nat
    /** The group's node. */
    const path: Path
    const me: string

    var vid: int
    var active: ProcesseMap?
    var leaving: ProcesseMap?
    var oldleaving: ProcesseMap?
    var entering: ProcesseMap?
    var members: ProcessList?
    var future: ProcessList?
    var messages: Messages?
    var blocked: bool
    /** The callbacks made so far, oldest first. */
    var events: seq<GroupzEndpoint.Event>
    /** The fields do not describe a view: join() has not completed, or an
        exception ended the worker thread in the middle of tryInstall(). */
    ghost var adrift: bool

    predicate Placed(m: ProcesseMap?, role: string, v: int) {
      Sits(m, store, session, me, ViewPath(path, v) + [role])
    }

    /** Table m, when present, is one of this process's through this session. */
    predicate Owned(m: ProcesseMap?) {
      m != null ==> m.store == store && m.session == session && m.me == me
    }

    predicate RecordAt(l: ProcessList?, v: int) {
      Holds(l, store, session, ViewPath(path, v))
    }

    /** The components of view vid (see Laid). */
    ghost predicate Layout()
      reads this`vid, this`active, this`leaving, this`oldleaving, this`entering
      reads this`members, this`future, this`messages
    {
      Laid(store, session, path, me, vid, active, leaving, entering, oldleaving, members, future, messages)
    }

    /** The log is always this view's; blocked is set only by tryLeave() in
        a view with a log and no next record, and cleared by blockOk()
        before it opens one. */
    ghost predicate Valid()
      reads this`vid, this`active, this`leaving, this`oldleaving, this`entering
      reads this`members, this`future, this`messages, this`blocked, this`adrift
    {
      Owned(active) && Owned(leaving) &&
      (messages != null ==> messages.store == store && messages.session == session) &&
      (blocked ==> !adrift && future == null && messages != null) &&
      (!adrift ==> Layout())
    }

    /** What the constructor leaves: nothing joined yet. */
    ghost predicate Unjoined()
      reads this
    {
      active == null && leaving == null && oldleaving == null && entering == null &&
      members == null && future == null && messages == null && !blocked && events == [] && adrift
    }

    /** new View(path, me, cb, zk): a view on a session given by the caller. */
    constructor Attach(store: Store, session: nat, path: Path, me: string)
      ensures this.store == store && this.session == session && this.path == path && this.me == me
      ensures Unjoined() && Valid()
    {
      this.store, this.session, this.path, this.me := store, session, path, me;
      vid := 0;
      active, leaving, oldleaving, entering := null, null, null, null;
      members, future, messages := null, null, null;
      blocked, events := false, [];
      adrift := true;
    }

    /** The constructor of src/vsc/Group.java: a session of its own on the ensemble. */
    static method Connect(store: Store, path: Path, me: string) returns (v: View)
      requires store.Valid()
      modifies store
      ensures store.Valid() && fresh(v) && v.store == store && v.path == path && v.me == me
      ensures v.session !in old(store.live) && store.live == old(store.live) + {v.session}
      ensures store.nodes == old(store.nodes)
      ensures v.Unjoined() && v.Valid()
    {
      var s := store.Open();
      v := new View.Attach(store, s, path, me);
    }

    /** A table can be refreshed: its container exists and every entry parses. */
    ghost predicate Fresh(m: ProcesseMap?)
      reads store
    {
      m != null && m.path in store.nodes && Readable(store.nodes, m.path)
    }

    /* -- tryLeave() */

    /** tryLeave()'s condition on the store as it is. */
    ghost predicate LeaveReady()
      reads this, store, members
    {
      !blocked && future == null && active != null && leaving != null && entering != null &&
      members != null && members.data.Some? &&
      (oldleaving == null || Children(store.nodes, oldleaving.path) == {}) &&
      (|Children(store.nodes, active.path)| < |members.data.value| ||
       Children(store.nodes, leaving.path) != {} || Children(store.nodes, entering.path) != {})
    }

    /** Every read tryLeave()'s condition may make succeeds. */
    ghost predicate LeaveReadable()
      reads this, store
    {
      session in store.live && (oldleaving != null ==> Fresh(oldleaving)) &&
      Fresh(active) && Fresh(leaving) && Fresh(entering)
    }

    /** The condition of tryLeave(), its table reads made in the order of
        the short-circuit evaluation. */
    method ReadyToLeave() returns (r: Result<bool, Fault>)
      requires Valid() && !adrift
      modifies active, leaving, oldleaving, entering
      ensures r.Success? ==> r.value == LeaveReady()
      ensures blocked || future != null ==> r == Success(false)
      ensures LeaveReadable() ==> r.Success?
    {
      if blocked || future != null {
        return Success(false);
      }
      if oldleaving != null {
        var drained := oldleaving.ProcessSet();
        if drained.Failure? {
          return Failure(drained.error);
        }
        if drained.value != {} {
          return Success(false);
        }
      }
      var known := members.data;
      if known.None? {
        return Success(false);
      }
      var present := active.ProcessSet();
      if present.Failure? {
        return Failure(present.error);
      }
      if |present.value| < |known.value| {
        return Success(true);
      }
      var left := leaving.ProcessSet();
      if left.Failure? {
        return Failure(left.error);
      }
      if left.value != {} {
        return Success(true);
      }
      var waiting := entering.ProcessSet();
      if waiting.Failure? {
        return Failure(waiting.error);
      }
      r := Success(waiting.value != {});
    }

    /** tryLeave(): once some member has left the active table, or someone
        is leaving or waits to enter, and the previous change is over, set
        blocked and call block() on the application. */
    method TryLeave() returns (r: Outcome)
      requires Valid() && !adrift
      modifies this`blocked, this`events, active, leaving, oldleaving, entering
      ensures Valid()
      ensures r.Success? && old(LeaveReady()) ==> blocked && events == old(events) + [GroupzEndpoint.Block]
      ensures r.Success? && !old(LeaveReady()) ==> blocked == old(blocked) && events == old(events)
      ensures r.Failure? ==> blocked == old(blocked) && events == old(events)
      ensures old(LeaveReadable()) ==> r.Success?
    {
      var ready := ReadyToLeave();
      if ready.Failure? {
        return Failure(ready.error);
      }
      if ready.value {
        blocked := true;
        events := events + [GroupzEndpoint.Block];
      }
      r := Pass;
    }

    /* -- blockOk() */

    /** blockOk(): a no-op unless blocked. Otherwise clear the flag, write
        the own leaving watermark at the log's cursor, remove the own active
        entry, and open the record of the next view. */
    method BlockOk() returns (r: Outcome)
      requires Valid()
      modifies this`blocked, this`future, store, leaving, active
      ensures Valid() && !blocked && store.live == old(store.live)
      ensures !old(blocked) ==> r.Success? && future == old(future) && store.nodes == old(store.nodes)
      ensures old(blocked) && r.Success? ==>
        Table(store.nodes, leaving.path) == Table(old(store.nodes), leaving.path)[me := old(messages.last)] &&
        Table(store.nodes, active.path) == Table(old(store.nodes), active.path) - {me} &&
        store.nodes == old(store.nodes)[leaving.path + [me] := Node(Decimal.Itos(old(messages.last)), Some(session))] - {active.path + [me]} &&
        future != null && fresh(future) && RecordAt(future, vid + 1) &&
        future.data == GroupzProcessList.Recorded(store.nodes, future.path)
      ensures old(blocked) && r.Failure? ==> future == old(future)
      ensures (old(blocked) && session in old(store.live) && leaving.path + [me] !in old(store.nodes) &&
               old(leaving.data).Some? && old(active.data).Some?) ==> r.Success?
    {
      if !blocked {
        return Pass;
      }
      blocked := false;
      var next;
      r, next := Handover(store, session, path, vid, leaving, active, messages.last);
      future := next;
    }

    /** The writes and the read of blockOk() in view v. */
    static method Handover(store: Store, session: nat, group: Path, v: int, leaving: ProcesseMap, active: ProcesseMap,
                           last: int) returns (r: Outcome, next: ProcessList?)
      requires Decimal.INT_MIN <= last <= Decimal.INT_MAX
      requires Sits(leaving, store, session, leaving.me, ViewPath(group, v) + ["leaving"])
      requires Sits(active, store, session, leaving.me, ViewPath(group, v) + ["active"])
      modifies store, leaving, active
      ensures store.live == old(store.live)
      ensures r.Failure? ==> next == null
      ensures (session in old(store.live) && leaving.path + [leaving.me] !in old(store.nodes) &&
               old(leaving.data).Some? && old(active.data).Some?) ==> r.Success?
      ensures r.Success? ==>
        Table(store.nodes, leaving.path) == Table(old(store.nodes), leaving.path)[leaving.me := last] &&
        Table(store.nodes, active.path) == Table(old(store.nodes), active.path) - {leaving.me} &&
        store.nodes == old(store.nodes)[leaving.path + [leaving.me] := Node(Decimal.Itos(last), Some(session))] - {active.path + [leaving.me]} &&
        next != null && fresh(next) && Holds(next, store, session, ViewPath(group, v + 1)) &&
        next.data == GroupzProcessList.Recorded(store.nodes, next.path)
    {
      next := null;
      var view := ViewPath(group, v);
      r := leaving.Create(last);
      if r.Failure? {
        return;
      }
      ghost var mid := store.nodes;
      LeavingApart(old(store.nodes), view, leaving.me, Node(Decimal.Itos(last), Some(session)));
      r := active.Remove();
      if r.Failure? {
        return;
      }
      LeavingApart(mid, view, leaving.me, Node(Decimal.Itos(last), Some(session)));
      var made := ProcessList.Make(store, session, ViewPath(group, v + 1));
      assert made.Success?;  // the session has just written
      next := made.value;
    }

    /* -- tryEnter() */

    /** tryEnter()'s condition on the store as it is. */
    ghost predicate EnterReady()
      reads this, store, future, messages
    {
      future != null && future.data.None? && active != null && leaving != null &&
      Children(store.nodes, active.path) == {} &&
      (messages == null || Minimum(Table(store.nodes, leaving.path)) >= messages.last)
    }

    /** Every read tryEnter() may make succeeds. */
    ghost predicate EnterReadable()
      reads this, store
    {
      session in store.live && Fresh(active) && Fresh(leaving) && Fresh(entering)
    }

    /** The condition of tryEnter(): the next record is open but undecided,
        nobody is active any more, and every leaving process has caught up
        with the log. */
    method ReadyToEnter() returns (r: Result<bool, Fault>)
      requires Valid() && !adrift
      modifies active, leaving
      ensures r.Success? ==> r.value == EnterReady()
      ensures future == null || future.data.Some? ==> r == Success(false)
      ensures EnterReadable() ==> r.Success?
    {
      if future == null || future.data.Some? {
        return Success(false);
      }
      var present := active.ProcessSet();
      if present.Failure? {
        return Failure(present.error);
      }
      if present.value != {} {
        return Success(false);
      }
      if messages != null {
        var low := leaving.Get();
        if low.Failure? {
          return Failure(low.error);
        }
        if low.value < messages.last {
          return Success(false);
        }
      }
      r := Success(true);
    }

    /** The processes tryEnter() proposes: those of the leaving and of the
        entering table. */
    ghost function Candidates(): set<string>
      requires leaving != null && entering != null
      reads this`leaving, this`entering, store
    {
      Children(store.nodes, leaving.path) + Children(store.nodes, entering.path)
    }

    /** The union of the leaving and the entering table's processes, each
        refreshed first, in the order a HashSet of it yields them. */
    static method Gather(leaving: ProcesseMap, entering: ProcesseMap) returns (r: Result<seq<string>, Fault>)
      requires leaving.store == entering.store && leaving.session == entering.session
      modifies leaving, entering
      ensures r.Success? ==>
        GroupzEndpoint.Enumerates(r.value, Children(leaving.store.nodes, leaving.path) + Children(leaving.store.nodes, entering.path))
      ensures (leaving.session in leaving.store.live &&
               leaving.path in leaving.store.nodes && Readable(leaving.store.nodes, leaving.path) &&
               entering.path in leaving.store.nodes && Readable(leaving.store.nodes, entering.path)) ==> r.Success?
    {
      var left := leaving.ProcessSet();
      if left.Failure? {
        return Failure(left.error);
      }
      var waiting := entering.ProcessSet();
      if waiting.Failure? {
        return Failure(waiting.error);
      }
      var order := GroupzEndpoint.Endpoint.Enumerate(left.value + waiting.value);
      r := Success(order);
    }

    /** tryEnter(): once ready, propose for the next view everyone in the
        leaving and the entering table. An empty proposal is a
        NullPointerException. */
    method TryEnter() returns (r: Outcome, prop: seq<string>)
      requires Valid() && !adrift
      modifies store, active, leaving, entering, future
      ensures store.live == old(store.live) && store.counters == old(store.counters)
      ensures r.Failure? || !old(EnterReady()) ==> store.nodes == old(store.nodes)
      ensures old(EnterReady()) && r.Success? ==>
        GroupzEndpoint.Enumerates(prop, old(Candidates())) && prop != [] &&
        store.nodes == old(store.nodes)[future.path :=
          if future.path in old(store.nodes) then old(store.nodes)[future.path] else Node(Joined(prop), None)] &&
        future.data == Some(Split(GroupzProcessList.Decided(old(store.nodes), future.path, prop)))
      ensures old(EnterReady() && EnterReadable()) ==> (r.Success? <==> old(Candidates()) != {})
    {
      prop := [];
      var ready := ReadyToEnter();
      if ready.Failure? {
        return Failure(ready.error), prop;
      }
      if !ready.value {
        return Pass, prop;
      }
      var listed := Gather(leaving, entering);
      if listed.Failure? {
        return Failure(listed.error), prop;
      }
      prop := listed.value;
      assert prop == [] <==> Elements(prop) == {} by {
        if prop != [] {
          assert prop[0] in Elements(prop);
        }
      }
      r := future.Propose(prop);
    }

    /* -- tryInstall() */

    /** tryInstall()'s condition on the store as it is: the next record is
        decided and the leaving table has caught up with the log. */
    ghost predicate InstallReady()
      reads this, store, future, messages
    {
      future != null && future.data.Some? && leaving != null &&
      (messages == null || Minimum(Table(store.nodes, leaving.path)) >= messages.last)
    }

    /** The condition of tryInstall(). */
    method ReadyToInstall() returns (r: Result<bool, Fault>)
      requires Valid() && !adrift
      modifies leaving
      ensures r.Success? ==> r.value == InstallReady()
      ensures future == null || future.data.None? ==> r == Success(false)
      ensures messages == null ==> r.Success?
      ensures messages != null && session in store.live && Fresh(leaving) ==> r.Success?
    {
      if future == null || future.data.None? {
        return Success(false);
      }
      if messages != null {
        var low := leaving.Get();
        if low.Failure? {
          return Failure(low.error);
        }
        return Success(low.value >= messages.last);
      }
      r := Success(true);
    }

    /** tryInstall()'s reads succeed: the session is open and, with a log,
        the leaving table can be refreshed. */
    ghost predicate InstallReadable()
      reads this`messages, this`leaving, store
    {
      session in store.live && (messages != null ==> Fresh(leaving))
    }

    /** The part of tryInstall() after vid++ that talks to the store: the
        tables of view v in the order active, entering, leaving, then, for a
        process the decided record names, the log of v (which hands over
        the messages already in it) and the own active watermark 0; a
        process it leaves out is thrown "kicket out". */
    static method Seat(store: Store, session: nat, group: Path, v: int, me: string, names: seq<string>)
      returns (r: Outcome, a: ProcesseMap?, e: ProcesseMap?, l: ProcesseMap?, m: Messages?, delivered: seq<string>)
      modifies store
      ensures store.live == old(store.live)
      ensures session !in store.live ==> r.Failure? && delivered == []
      ensures a != null ==>
        e != null && l != null && fresh(a) && fresh(e) && fresh(l) &&
        Sits(a, store, session, me, ViewPath(group, v) + ["active"]) &&
        Sits(e, store, session, me, ViewPath(group, v) + ["entering"]) &&
        Sits(l, store, session, me, ViewPath(group, v) + ["leaving"])
      ensures m != null ==>
        a != null && me in names && fresh(m) && m.store == store && m.session == session && m.path == ViewPath(group, v) + ["messages"]
      ensures a != null && me !in names ==> r == Failure(KickedOut) && m == null && delivered == []
      ensures r.Success? ==> me in names && a != null && m != null && Reading(store.nodes, a.path + [me]) == Some(0)
    {
      a, e, l, m, delivered := null, null, null, null, [];
      var view := ViewPath(group, v);
      var made := ProcesseMap.Make(store, session, view + ["active"], me);
      if made.Failure? {
        return Failure(made.error), a, e, l, m, delivered;
      }
      var ma := made.value;
      made := ProcesseMap.Make(store, session, view + ["entering"], me);
      if made.Failure? {
        return Failure(made.error), a, e, l, m, delivered;
      }
      var me' := made.value;
      made := ProcesseMap.Make(store, session, view + ["leaving"], me);
      if made.Failure? {
        return Failure(made.error), a, e, l, m, delivered;
      }
      a, e, l := ma, me', made.value;
      if me !in names {
        return Failure(KickedOut), a, e, l, m, delivered;
      }
      var log;
      ghost var lognames;
      log, delivered, lognames := Messages.Make(store, session, view);
      if log.Failure? {
        return Failure(log.error), a, e, l, m, delivered;
      }
      m := log.value;
      GroupzEndpoint.RolesApart(view, "messages", "active", me);
      r := a.Create(0);
      Decimal.ParseItos(0);
    }

    /** tryInstall(): once ready, move to view vid + 1. The previous
        leaving table becomes oldleaving and the new view's tables are made.
        A process the record names takes it as its view, opens the log
        (receiving what is in it) and writes its active watermark 0, then
        drops its entry of the previous leaving table and calls install()
        on the application. A process left out drops its log and throws
        "kicket out". */
    method TryInstall() returns (r: Outcome, delivered: seq<string>)
      requires Valid() && !adrift
      modifies this`vid, this`oldleaving, this`active, this`entering, this`leaving, this`members, this`future
      modifies this`messages, this`events, this`adrift, store, leaving
      ensures Valid() && store.live == old(store.live)
      ensures (active == old(active) || fresh(active)) && (leaving == old(leaving) || fresh(leaving))
      ensures (entering == old(entering) || fresh(entering)) && (future == old(future) || future == null)
      ensures messages == old(messages) || messages == null || fresh(messages)
      ensures r.Failure? ==> events == old(events) + GroupzEndpoint.Receipts(delivered)
      ensures vid == old(vid) ==>
        events == old(events) && delivered == [] && store.nodes == old(store.nodes) && !adrift &&
        future == old(future) && members == old(members) && messages == old(messages)
      ensures vid == old(vid) || (vid == old(vid) + 1 && old(InstallReady()) && oldleaving == old(leaving))
      ensures old(InstallReady() && InstallReadable()) ==> vid == old(vid) + 1
      ensures vid == old(vid) + 1 && me !in old(future.data.value) ==> r.Failure? && adrift
      ensures vid == old(vid) + 1 && active != old(active) && me !in old(future.data.value) ==>
        r == Failure(KickedOut) && messages == null && delivered == []
      ensures vid == old(vid) + 1 && r.Success? ==>
        me in old(future.data.value) && !adrift && members == old(future) && future == null &&
        Reading(store.nodes, active.path + [me]) == Some(0) &&
        me !in Table(store.nodes, oldleaving.path) &&
        events == old(events) + GroupzEndpoint.Receipts(delivered) + [GroupzEndpoint.Install(vid, members.data)]
    {
      delivered := [];
      var ready := ReadyToInstall();
      if ready.Failure? {
        return Failure(ready.error), delivered;
      }
      if !ready.value {
        return Pass, delivered;
      }
      r, delivered := Shift();
      if r.Success? {
        r := Conclude();
      }
    }

    /** The first part of tryInstall() once ready: vid++, oldleaving =
        leaving, then the new view's tables and, for a member of it, the
        record as the view and its log. An exception here leaves the fields
        describing no view. */
    method Shift() returns (r: Outcome, delivered: seq<string>)
      requires Valid() && !adrift && future != null && future.data.Some?
      modifies this`vid, this`oldleaving, this`active, this`entering, this`leaving, this`members, this`future
      modifies this`messages, this`adrift, this`events, store
      ensures Valid() && store.live == old(store.live)
      ensures vid == old(vid) + 1 && oldleaving == old(leaving)
      ensures (active == old(active) || fresh(active)) && (leaving == old(leaving) || fresh(leaving))
      ensures (entering == old(entering) || fresh(entering)) && (future == old(future) || future == null)
      ensures messages == old(messages) || messages == null || fresh(messages)
      ensures events == old(events) + GroupzEndpoint.Receipts(delivered)
      ensures r.Failure? ==> adrift
      ensures me !in old(future.data.value) ==> r.Failure?
      ensures active != old(active) && me !in old(future.data.value) ==>
        r == Failure(KickedOut) && messages == null && delivered == []
      ensures r.Success? ==>
        !adrift && me in old(future.data.value) && members == old(future) && future == null && oldleaving != null &&
        Reading(store.nodes, active.path + [me]) == Some(0)
    {
      vid := vid + 1;
      oldleaving := leaving;
      var names := future.data.value;
      var a, e, l, m;
      r, a, e, l, m, delivered := Seat(store, session, path, vid, me, names);
      events := events + GroupzEndpoint.Receipts(delivered);
      if r.Success? {
        Take(a, e, l, m);
        return;
      }
      Strand(a, e, l, m, me !in names);
    }

    /** An exception in the middle of tryInstall(): what was assigned before
        it stays (the new tables, then either no log for a process left out,
        or the record as the view and the new log when it was made), and the
        fields describe no view. */
    method Strand(a: ProcesseMap?, e: ProcesseMap?, l: ProcesseMap?, m: Messages?, kicked: bool)
      requires !blocked && future != null
      requires a != null ==> e != null && l != null && Owned(a) && Owned(l)
      requires Owned(active) && Owned(leaving)
      requires m != null ==> m.store == store && m.session == session
      requires messages != null ==> messages.store == store && messages.session == session
      modifies this`active, this`entering, this`leaving, this`members, this`future, this`messages, this`adrift
      ensures adrift && Valid()
      ensures a != null ==> active == a && entering == e && leaving == l
      ensures a == null ==> active == old(active) && entering == old(entering) && leaving == old(leaving)
      ensures a != null && kicked ==> messages == null
      ensures messages == old(messages) || messages == null || messages == m
      ensures future == old(future) || future == null
    {
      if a != null {
        active, entering, leaving := a, e, l;
        if kicked {
          messages := null;
        } else {
          members, future := future, null;
          if m != null {
            messages := m;
          }
        }
      }
      adrift := true;
    }

    /** A member of the decided record takes it as view vid, with the
        tables and the log of vid. */
    method Take(a: ProcesseMap, e: ProcesseMap, l: ProcesseMap, m: Messages)
      requires !blocked && future != null && RecordAt(future, vid)
      requires Placed(a, "active", vid) && Placed(l, "leaving", vid) && Placed(e, "entering", vid)
      requires Placed(oldleaving, "leaving", vid - 1)
      requires m.store == store && m.session == session && m.path == ViewPath(path, vid) + ["messages"]
      modifies this`active, this`entering, this`leaving, this`members, this`future, this`messages, this`adrift
      ensures active == a && entering == e && leaving == l && messages == m
      ensures members == old(future) && future == null && !adrift && Valid()
    {
      LaidInstalled(store, session, path, me, vid, a, l, e, oldleaving, future, m);
      active, entering, leaving := a, e, l;
      members, future := future, null;
      messages := m;
      adrift := false;
    }

    /** The end of tryInstall(): drop the own entry of the previous view's
        leaving table, then call install(vid, members) on the application. */
    method Conclude() returns (r: Outcome)
      requires Valid() && !adrift && future == null && members != null && oldleaving != null
      modifies this`events, store, oldleaving
      ensures Valid() && store.live == old(store.live)
      ensures r.Failure? ==> events == old(events)
      ensures r.Success? && Reading(old(store.nodes), active.path + [me]) == Some(0) ==>
        Reading(store.nodes, active.path + [me]) == Some(0)
      ensures r.Success? ==>
        me !in Table(store.nodes, oldleaving.path) && events == old(events) + [GroupzEndpoint.Install(vid, members.data)]
    {
      r := oldleaving.Remove();
      if r.Failure? {
        return;
      }
      assert (oldleaving.path + [me])[|path| + 1] == "leaving" && (active.path + [me])[|path| + 1] == "active";
      events := events + [GroupzEndpoint.Install(vid, members.data)];
    }

    /* -- tryAck() and the log's watch */

    /** The table the own watermark is raised in: the active one while the
        view is current, the leaving one once the next record is open. */
    function Mark(): ProcesseMap?
      reads this`future, this`active, this`leaving
    {
      if future == null then active else leaving
    }

    /** tryAck(): with a log, raise the own watermark to the log's cursor
        (set() refreshes the table first, and never lowers the watermark). */
    method TryAck() returns (r: Outcome)
      requires Valid() && !adrift
      modifies store, active, leaving
      ensures store.live == old(store.live)
      ensures messages == null ==> r.Success? && store.nodes == old(store.nodes)
      ensures messages != null ==>
        (r.Success? <==>
          session in old(store.live) && Mark().path in old(store.nodes) &&
          Readable(old(store.nodes), Mark().path) && me in Table(old(store.nodes), Mark().path))
      ensures messages != null && r.Success? ==>
        var marked := Table(old(store.nodes), Mark().path)[me];
        Table(store.nodes, Mark().path) == Table(old(store.nodes), Mark().path)[me := if messages.last > marked then messages.last else marked]
      ensures messages != null && r.Success? ==> store.nodes == GroupzEndpoint.Lifted(old(store.nodes), Mark().path + [me], messages.last)
    {
      if messages == null {
        return Pass;
      }
      r := Mark().Set(messages.last);
    }

    /** The log's watch (process(), update() as written): read the log and
        hand its new messages to the application in order; an exception is
        printed and dropped, after what was handed over. */
    method Hear() returns (r: Result<bool, Fault>, delivered: seq<string>, ghost names: seq<string>)
      requires Valid() && messages != null
      modifies this`events, messages
      ensures Valid()
      ensures events == old(events) + GroupzEndpoint.Receipts(delivered)
      ensures session !in store.live ==> r == Failure(ConnectionLoss) && delivered == []
      ensures session in store.live && messages.path in store.nodes ==>
        Distinct(names) && Elements(names) == Children(store.nodes, messages.path) &&
        var w := Counting(names, old(messages.last));
        messages.last == w.last &&
        (forall i | 0 <= i < |w.taken| :: messages.path + [w.taken[i]] in store.nodes) &&
        delivered == GroupzMessages.Payloads(store.nodes, messages.path, w.taken) &&
        r == if w.fault.Some? then Failure(w.fault.value) else Success(messages.last > old(messages.last))
    {
      delivered, r, names := messages.Update();
      events := events + GroupzEndpoint.Receipts(delivered);
    }

    /** The log's watch with the corrected update(): the new messages reach
        the application in name order. */
    method HearCorrected() returns (r: Result<bool, Fault>, delivered: seq<string>, ghost names: seq<string>)
      requires Valid() && messages != null
      modifies this`events, messages
      ensures Valid()
      ensures events == old(events) + GroupzEndpoint.Receipts(delivered)
      ensures session !in store.live ==> r == Failure(ConnectionLoss) && delivered == []
      ensures session in store.live && messages.path in store.nodes ==>
        Ascending(names) && Elements(names) == Children(store.nodes, messages.path) &&
        var w := Tracking(names, old(messages.last));
        messages.last == w.last &&
        (forall i | 0 <= i < |w.taken| :: messages.path + [w.taken[i]] in store.nodes) &&
        delivered == GroupzMessages.Payloads(store.nodes, messages.path, w.taken) &&
        r == if w.fault.Some? then Failure(w.fault.value) else Success(w.taken != [])
    {
      delivered, r, names := messages.UpdateCorrected();
      events := events + GroupzEndpoint.Receipts(delivered);
    }

    /* -- The worker loop */

    /** One iteration of the worker loop: tryAck(), tryLeave(),
        tryInstall(), tryEnter(); an exception ends it, and the thread. It
        moves to view vid + 1 at most, and callbacks only accumulate. */
    method Round() returns (r: Outcome)
      requires Valid() && !adrift
      modifies this`vid, this`oldleaving, this`active, this`entering, this`leaving, this`members, this`future
      modifies this`messages, this`events, this`adrift, this`blocked, store
      modifies active, leaving, oldleaving, entering, future
      ensures Valid()
      ensures vid == old(vid) || vid == old(vid) + 1
      ensures old(events) <= events
    {
      r := Settle();
      if r.Failure? {
        return;
      }
      r := Advance();
    }

    /** tryAck() then tryLeave(), which stay in the view. */
    method Settle() returns (r: Outcome)
      requires Valid() && !adrift
      modifies this`events, this`blocked, store, active, leaving, oldleaving, entering
      ensures Valid() && !adrift && old(events) <= events
    {
      r := TryAck();
      if r.Failure? {
        return;
      }
      r := TryLeave();
    }

    /** tryInstall() then tryEnter(). */
    method Advance() returns (r: Outcome)
      requires Valid() && !adrift
      modifies this`vid, this`oldleaving, this`active, this`entering, this`leaving, this`members, this`future
      modifies this`messages, this`events, this`adrift, store, active, leaving, entering, future
      ensures Valid()
      ensures vid == old(vid) || vid == old(vid) + 1
      ensures old(events) <= events
    {
      var delivered, prop;
      r, delivered := TryInstall();
      if r.Failure? {
        return;
      }
      r, prop := TryEnter();
    }

    /* -- Public calls */

    /** The log entry the next send() creates. */
    ghost function NextMessage(): Path
      requires messages != null
      reads this`messages, store
    {
      SequentialName(messages.path, "m", store.NextSequence(messages.path))
    }

    /** send(data): refused while a next record is open; otherwise append
        to the log. */
    method Send(data: string) returns (r: Outcome)
      requires Valid()
      modifies store
      ensures store.live == old(store.live)
      ensures future != null ==> r == Failure(SendingWhileBlocked) && store.nodes == old(store.nodes)
      ensures future == null && messages == null ==> r == Failure(NullPointer) && store.nodes == old(store.nodes)
      ensures future == null && messages != null && session in old(store.live) && old(NextMessage()) !in old(store.nodes) ==>
        r.Success? && store.nodes == old(store.nodes)[old(NextMessage()) := Node(data, None)]
      ensures r.Failure? ==> store.nodes == old(store.nodes)
    {
      if future != null {
        return Failure(SendingWhileBlocked);
      }
      if messages == null {
        return Failure(NullPointer);
      }
      r := messages.Send(data);
    }

    /** leave(): remove the own entry of the active table, or of the leaving
        table once the next record is open; the session stays open. */
    method Leave() returns (r: Outcome)
      requires Valid()
      modifies store, active, leaving
      ensures store.live == old(store.live)
      ensures Mark() == null ==> r == Failure(NullPointer) && store.nodes == old(store.nodes)
      ensures Mark() != null ==>
        store.nodes == (if session in store.live then old(store.nodes) - {Mark().path + [me]} else old(store.nodes))
      ensures Mark() != null && session in store.live ==>
        me !in Table(store.nodes, Mark().path) &&
        Table(store.nodes, Mark().path) == Table(old(store.nodes), Mark().path) - {me}
    {
      var table := Mark();
      if table == null {
        return Failure(NullPointer);
      }
      r := table.Remove();
    }

    /** leave() of src/vsc/Group.java: close the session, so every own
        ephemeral entry goes at once. */
    method Close()
      modifies store
      ensures session !in store.live && store.live == old(store.live) - {session}
      ensures store.nodes == WithoutSession(old(store.nodes), session)
    {
      store.Close(session);
    }

    /* -- Joining the group */

    /** View 0, as boot() makes it after the group node: the record proposed
        with this process alone, then its tables, log and own watermark (Lay). */
    static method Found(store: Store, session: nat, group: Path, me: string)
      returns (r: Outcome, rec: ProcessList?, a: ProcesseMap?, l: ProcesseMap?, e: ProcesseMap?, m: Messages?,
               delivered: seq<string>)
      modifies store
      ensures store.live == old(store.live)
      ensures session !in store.live ==> r.Failure? && delivered == []
      ensures r.Success? ==>
        rec != null && a != null && l != null && e != null && m != null &&
        fresh(rec) && fresh(a) && fresh(l) && fresh(e) && fresh(m) &&
        Holds(rec, store, session, ViewPath(group, 0)) && Sits(a, store, session, me, ViewPath(group, 0) + ["active"]) &&
        Sits(l, store, session, me, ViewPath(group, 0) + ["leaving"]) && Sits(e, store, session, me, ViewPath(group, 0) + ["entering"]) &&
        m.store == store && m.session == session && m.path == ViewPath(group, 0) + ["messages"] &&
        rec.data == Some(Split(GroupzProcessList.Decided(old(store.nodes), ViewPath(group, 0), [me]))) &&
        Reading(store.nodes, a.path + [me]) == Some(0)
    {
      a, l, e, m, delivered := null, null, null, null, [];
      r, rec := Record(store, session, ViewPath(group, 0), me);
      if r.Failure? {
        return;
      }
      r, a, l, e, m, delivered := Lay(store, session, ViewPath(group, 0), me);
      if r.Failure? {
        rec := null;
      }
    }

    /** The record of view 0 (at `view`), proposed with this process alone;
        an existing record is read instead. */
    static method Record(store: Store, session: nat, view: Path, me: string) returns (r: Outcome, rec: ProcessList?)
      modifies store
      ensures store.live == old(store.live)
      ensures session !in store.live ==> r.Failure?
      ensures r.Success? ==>
        rec != null && fresh(rec) && Holds(rec, store, session, view) &&
        rec.data == Some(Split(GroupzProcessList.Decided(old(store.nodes), view, [me])))
    {
      rec := null;
      var record := ProcessList.Make(store, session, view);
      if record.Failure? {
        return Failure(record.error), rec;
      }
      r := record.value.Propose([me]);
      if r.Success? {
        rec := record.value;
      }
    }

    /** The rest of view 0 as boot() makes it: the tables in the order
        active, leaving, entering, the log (handing over what is in it),
        and the own active watermark 0. */
    static method Lay(store: Store, session: nat, view: Path, me: string)
      returns (r: Outcome, a: ProcesseMap?, l: ProcesseMap?, e: ProcesseMap?, m: Messages?, delivered: seq<string>)
      modifies store
      ensures store.live == old(store.live)
      ensures session !in store.live ==> r.Failure? && delivered == []
      ensures r.Success? ==>
        a != null && l != null && e != null && m != null && fresh(a) && fresh(l) && fresh(e) && fresh(m) &&
        Sits(a, store, session, me, view + ["active"]) &&
        Sits(l, store, session, me, view + ["leaving"]) && Sits(e, store, session, me, view + ["entering"]) &&
        m.store == store && m.session == session && m.path == view + ["messages"] &&
        Reading(store.nodes, a.path + [me]) == Some(0)
    {
      a, l, e, m, delivered := null, null, null, null, [];
      var ma := ProcesseMap.Make(store, session, view + ["active"], me);
      if ma.Failure? {
        return Failure(ma.error), a, l, e, m, delivered;
      }
      var ml := ProcesseMap.Make(store, session, view + ["leaving"], me);
      if ml.Failure? {
        return Failure(ml.error), a, l, e, m, delivered;
      }
      var me' := ProcesseMap.Make(store, session, view + ["entering"], me);
      if me'.Failure? {
        return Failure(me'.error), a, l, e, m, delivered;
      }
      var log;
      ghost var lognames;
      log, delivered, lognames := Messages.Make(store, session, view);
      if log.Failure? {
        return Failure(log.error), a, l, e, m, delivered;
      }
      GroupzEndpoint.RolesApart(view, "messages", "active", me);
      r := ma.value.Create(0);
      if r.Failure? {
        return;
      }
      Decimal.ParseItos(0);
      a, l, e, m := ma.value, ml.value, me'.value, log.value;
    }

    /** The end of boot(): with view 0 made, the view takes its components
        and the application hears of view 0. */
    method Take0(rec: ProcessList, a: ProcesseMap, l: ProcesseMap, e: ProcesseMap, m: Messages, delivered: seq<string>)
      requires Unjoined() && vid == 0
      requires Holds(rec, store, session, ViewPath(path, 0)) && Sits(a, store, session, me, ViewPath(path, 0) + ["active"])
      requires Sits(l, store, session, me, ViewPath(path, 0) + ["leaving"]) && Sits(e, store, session, me, ViewPath(path, 0) + ["entering"])
      requires m.store == store && m.session == session && m.path == ViewPath(path, 0) + ["messages"]
      modifies this`members, this`active, this`leaving, this`entering, this`messages, this`adrift, this`events
      ensures Valid() && !adrift
      ensures members == rec && active == a && leaving == l && entering == e && messages == m
      ensures events == old(events) + GroupzEndpoint.Receipts(delivered) + [GroupzEndpoint.Install(0, rec.data)]
    {
      LaidBoot(store, session, path, me, rec, a, l, e, m);
      members, active, leaving, entering, messages := rec, a, l, e, m;
      adrift := false;
      events := events + GroupzEndpoint.Receipts(delivered) + [GroupzEndpoint.Install(vid, members.data)];
    }

    /** boot(): create the group node (failing if it exists), then make
        view 0 with this process alone in its record unless another booter
        wrote it first, and call install(). */
    method Boot() returns (r: Outcome, delivered: seq<string>)
      requires Unjoined()
      modifies this`vid, this`members, this`active, this`leaving, this`entering, this`messages
      modifies this`adrift, this`events, store
      ensures Valid() && store.live == old(store.live)
      ensures session !in store.live ==> r.Failure?
      ensures session in old(store.live) && path in old(store.nodes) ==>
        r == Failure(NodeExists) && store.nodes == old(store.nodes)
      ensures r.Failure? ==> adrift && events == old(events) + GroupzEndpoint.Receipts(delivered)
      ensures r.Success? ==>
        !adrift && vid == 0 && members != null && active != null &&
        members.data == Some(Split(GroupzProcessList.Decided(old(store.nodes), ViewPath(path, 0), [me]))) &&
        Reading(store.nodes, active.path + [me]) == Some(0) &&
        events == old(events) + GroupzEndpoint.Receipts(delivered) + [GroupzEndpoint.Install(0, members.data)]
    {
      vid := 0;
      delivered := [];
      r := store.Create(session, path, "", false);
      if r.Failure? {
        return;
      }
      assert ViewPath(path, 0) != path;
      var rec, a, l, e, m;
      r, rec, a, l, e, m, delivered := Found(store, session, path, me);
      if r.Failure? {
        events := events + GroupzEndpoint.Receipts(delivered);
        return;
      }
      Take0(rec, a, l, e, m, delivered);
    }

    /** What the entering branch of join() makes at view v: the three
        tables of v, in the order entering, leaving, active, the record of
        v + 1 it waits for, and its own entering watermark -1. */
    static method Arrive(store: Store, session: nat, group: Path, v: int, me: string)
      returns (r: Outcome, e: ProcesseMap?, l: ProcesseMap?, a: ProcesseMap?, f: ProcessList?)
      modifies store
      ensures store.live == old(store.live) && store.counters == old(store.counters)
      ensures session !in store.live ==> r.Failure?
      ensures r.Success? ==>
        e != null && l != null && a != null && f != null &&
        fresh(e) && fresh(l) && fresh(a) && fresh(f) &&
        Holds(f, store, session, ViewPath(group, v + 1)) &&
        Sits(e, store, session, me, ViewPath(group, v) + ["entering"]) && Sits(l, store, session, me, ViewPath(group, v) + ["leaving"]) &&
        Sits(a, store, session, me, ViewPath(group, v) + ["active"]) &&
        f.data == GroupzProcessList.Recorded(old(store.nodes), ViewPath(group, v + 1)) &&
        Reading(store.nodes, e.path + [me]) == Some(-1)
    {
      e, l, a, f := null, null, null, null;
      var view := ViewPath(group, v);
      var table := ProcesseMap.Make(store, session, view + ["entering"], me);
      if table.Failure? {
        return Failure(table.error), e, l, a, f;
      }
      e := table.value;
      table := ProcesseMap.Make(store, session, view + ["leaving"], me);
      if table.Failure? {
        return Failure(table.error), e, l, a, f;
      }
      l := table.value;
      table := ProcesseMap.Make(store, session, view + ["active"], me);
      if table.Failure? {
        return Failure(table.error), e, l, a, f;
      }
      a := table.value;
      NextRecordApart(old(store.nodes), group, v);
      var list := ProcessList.Make(store, session, ViewPath(group, v + 1));
      assert list.Success?;  // the session is live
      f := list.value;
      r := e.Create(-1);
      Decimal.ParseItos(-1);
    }

    /** The end of the entering branch of join(): the view takes the tables
        of view vid and the record of view vid + 1 it waits for. */
    method Wait(e: ProcesseMap, l: ProcesseMap, a: ProcesseMap, f: ProcessList)
      requires Unjoined()
      requires Holds(f, store, session, ViewPath(path, vid + 1))
      requires Sits(e, store, session, me, ViewPath(path, vid) + ["entering"]) && Sits(l, store, session, me, ViewPath(path, vid) + ["leaving"])
      requires Sits(a, store, session, me, ViewPath(path, vid) + ["active"])
      modifies this`entering, this`leaving, this`active, this`future, this`adrift
      ensures Valid() && !adrift
      ensures entering == e && leaving == l && active == a && future == f
    {
      LaidEntered(store, session, path, me, vid, e, l, a, f);
      entering, leaving, active, future := e, l, a, f;
      adrift := false;
    }

    /** The branch of join() for a group that has views: open the tables
        of view vid and register in its entering table, waiting for the
        record of view vid + 1. */
    method Enter() returns (r: Outcome)
      requires Unjoined()
      modifies this`entering, this`leaving, this`active, this`future, this`adrift, store
      ensures Valid() && store.live == old(store.live)
      ensures session !in store.live ==> r.Failure?
      ensures r.Failure? ==> adrift
      ensures r.Success? ==>
        !adrift && members == null && entering != null && future != null &&
        future.data == GroupzProcessList.Recorded(old(store.nodes), ViewPath(path, vid + 1)) &&
        Reading(store.nodes, entering.path + [me]) == Some(-1)
    {
      var e, l, a, f;
      r, e, l, a, f := Arrive(store, session, path, vid, me);
      if r.Failure? {
        return;
      }
      Wait(e, l, a, f);
    }

    /** join() up to the start of the worker thread: find the latest view;
        without one, boot view 0; with one, register as entering it and
        wait for the record of the next. An exception leaves the view
        unjoined. */
    method Join() returns (r: Outcome, delivered: seq<string>, ghost listing: seq<string>)
      requires Unjoined()
      modifies this`vid, this`members, this`active, this`leaving, this`entering, this`future
      modifies this`messages, this`adrift, this`events, store
      ensures Valid() && store.live == old(store.live)
      ensures session in old(store.live) && path in old(store.nodes) ==>
        Distinct(listing) && Elements(listing) == Children(old(store.nodes), path)
      ensures session !in old(store.live) || path !in old(store.nodes) ==> listing == []
      ensures session !in old(store.live) ==> r.Failure?
      ensures r.Failure? ==> adrift && events == old(events) + GroupzEndpoint.Receipts(delivered)
      ensures GroupzEndpoint.Latest(listing, -1) < 0 && session in old(store.live) && path in old(store.nodes) ==>
        r == Failure(NodeExists)
      ensures r.Success? && GroupzEndpoint.Latest(listing, -1) < 0 ==>
        !adrift && members != null && active != null && vid == 0 &&
        members.data == Some(Split(GroupzProcessList.Decided(old(store.nodes), ViewPath(path, 0), [me]))) &&
        Reading(store.nodes, active.path + [me]) == Some(0) &&
        events == old(events) + GroupzEndpoint.Receipts(delivered) + [GroupzEndpoint.Install(0, members.data)]
      ensures r.Success? && GroupzEndpoint.Latest(listing, -1) >= 0 ==>
        !adrift && vid == GroupzEndpoint.Latest(listing, -1) && delivered == [] &&
        members == null && entering != null && future != null &&
        future.data == GroupzProcessList.Recorded(old(store.nodes), ViewPath(path, vid + 1)) &&
        Reading(store.nodes, entering.path + [me]) == Some(-1) && events == old(events)
    {
      var target;
      target, listing := GroupzEndpoint.LatestView(store, session, path);
      vid := target;
      delivered := [];
      if vid < 0 {
        r, delivered := Boot();
      } else {
        r := Enter();
      }
    }
  }
}
