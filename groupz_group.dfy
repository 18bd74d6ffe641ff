/** The earlier draft of the groupz state machine (src/groupz/Group.java).
    It keeps the end-point's store layout (records, the active, blocked and
    entering tables, and a log per view under /vsc/group/<gid>). In place of
    the state enum it has a single `blocking` flag and separate try* steps
    run by the worker thread, and an exception simply ends that thread.

    Application callbacks are recorded in `events`; one iteration of the
    worker loop is `Round`. */
module GroupzGroup {
  import opened Failure
  import Decimal
  import opened Coordination
  import opened Tables
  import opened JavaText
  import opened GroupzProcesseMap
  import opened GroupzMessages
  import opened GroupzProcessList
  import opened GroupzEndpoint

  /** The exceptions the draft throws itself. */
  const KickedOut: Fault := Raised("kicket out")
  const SendingWhileBlocked: Fault := Raised("sending while blocked")

  /** The components of view vid of group `path`: its tables, the
      previous view's blocked table, its record (none while entering), the
      record of the next view once blockOk() or join() has opened it, and
      its log whenever no next record is open. */
  predicate Laid(store: Store, session: nat, path: Path, me: string, vid: int,
                 active: ProcesseMap?, blocked: ProcesseMap?, entering: ProcesseMap?, oldblocked: ProcesseMap?,
                 members: ProcessList?, future: ProcessList?, messages: Messages?)
  {
    var view := ViewPath(path, vid);
    active != null && blocked != null && entering != null &&
    Sits(active, store, session, me, view + ["active"]) && Sits(blocked, store, session, me, view + ["blocked"]) &&
    Sits(entering, store, session, me, view + ["entering"]) &&
    Sits(oldblocked, store, session, me, ViewPath(path, vid - 1) + ["blocked"]) &&
    Holds(members, store, session, view) && Holds(future, store, session, ViewPath(path, vid + 1)) &&
    (members == null ==> future != null) && (members != null && future != null ==> members != future) &&
    (messages != null ==>
      messages.store == store && messages.session == session && messages.path == view + ["messages"]) &&
    (future == null ==> messages != null)
  }

  /** The layout once tryInstall() has taken record l as view v. */
  lemma LaidInstalled(store: Store, session: nat, path: Path, me: string, v: int, a: ProcesseMap, b: ProcesseMap,
                      e: ProcesseMap, ob: ProcesseMap?, l: ProcessList, m: Messages)
    requires Sits(a, store, session, me, ViewPath(path, v) + ["active"]) && Sits(b, store, session, me, ViewPath(path, v) + ["blocked"])
    requires Sits(e, store, session, me, ViewPath(path, v) + ["entering"])
    requires Sits(ob, store, session, me, ViewPath(path, v - 1) + ["blocked"]) && Holds(l, store, session, ViewPath(path, v))
    requires m.store == store && m.session == session && m.path == ViewPath(path, v) + ["messages"]
    ensures Laid(store, session, path, me, v, a, b, e, ob, l, null, m)
  {
  }

  /** What an acknowledgement did to store `before`, leaving `after`: the
      log at `log`, its cursor moving from last0 to last, handed over
      `values` (entries `names` read, stability `low`), the children it
      collected are gone, and the own watermark in table `mark` was raised
      to the new cursor, nothing else changing. */
  ghost predicate Acknowledged(before: map<Path, Node>, after: map<Path, Node>, log: Path, mark: Path, me: string,
                               last0: int, low: int, names: seq<string>, values: seq<string>, last: int)
  {
    Delivered(before, log, last0, low, names, last, values) &&
    Raises(before, after, mark, me, log, Scan(names, last0, low).dropped, last)
  }

  /** The layout once boot() has made view 0. */
  lemma LaidBoot(store: Store, session: nat, path: Path, me: string, l: ProcessList, a: ProcesseMap,
                 b: ProcesseMap, e: ProcesseMap, m: Messages)
    requires Holds(l, store, session, ViewPath(path, 0)) && Sits(a, store, session, me, ViewPath(path, 0) + ["active"])
    requires Sits(b, store, session, me, ViewPath(path, 0) + ["blocked"]) && Sits(e, store, session, me, ViewPath(path, 0) + ["entering"])
    requires m.store == store && m.session == session && m.path == ViewPath(path, 0) + ["messages"]
    ensures Laid(store, session, path, me, 0, a, b, e, null, l, null, m)
  {
  }

  /** The layout once join() has registered as entering view v: no record
      of v and no log, only the record of v + 1 awaited. */
  lemma LaidEntered(store: Store, session: nat, path: Path, me: string, v: int, e: ProcesseMap,
                    b: ProcesseMap, a: ProcesseMap, f: ProcessList)
    requires Holds(f, store, session, ViewPath(path, v + 1))
    requires Sits(e, store, session, me, ViewPath(path, v) + ["entering"]) && Sits(b, store, session, me, ViewPath(path, v) + ["blocked"])
    requires Sits(a, store, session, me, ViewPath(path, v) + ["active"])
    ensures Laid(store, session, path, me, v, a, b, e, null, null, f, null)
  {
  }

  class Group {
    const store: Store
    const session: nat
    /** The group's identifier and its node, /vsc/group/<gid>. */
    const gid: string
    const path: Path := GroupPath(gid)

    var me: string
    var vid: int
    var active: ProcesseMap?
    var blocked: ProcesseMap?
    var oldblocked: ProcesseMap?
    var entering: ProcesseMap?
    var members: ProcessList?
    var future: ProcessList?
    var messages: Messages?
    var blocking: bool
    /** The callbacks made so far, oldest first. */
    var events: seq<Event>
    /** The fields do not describe a view: join() has not completed, or an
        exception ended the worker thread in the middle of tryInstall(). */
    ghost var adrift: bool

    predicate Placed(m: ProcesseMap?, role: string, v: int)
      reads this`me
    {
      Sits(m, store, session, me, ViewPath(path, v) + [role])
    }

    predicate RecordAt(l: ProcessList?, v: int)
    {
      Holds(l, store, session, ViewPath(path, v))
    }

    /** The components of view vid (see Laid). */
    ghost predicate Layout()
      reads this`me, this`vid, this`active, this`blocked, this`oldblocked, this`entering
      reads this`members, this`future, this`messages
    {
      Laid(store, session, path, me, vid, active, blocked, entering, oldblocked, members, future, messages)
    }

    /** The log is always this group's; blocking is set only by tryLeave()
        in a view with a log and no next record, and cleared by blockOk()
        before it opens one. */
    ghost predicate Valid()
      reads this`me, this`vid, this`active, this`blocked, this`oldblocked, this`entering
      reads this`members, this`future, this`messages, this`blocking, this`adrift
    {
      (messages != null ==> messages.store == store && messages.session == session) &&
      (blocking ==> !adrift && future == null && messages != null) &&
      (!adrift ==> Layout())
    }

    /** What the constructor leaves: nothing joined yet (vid aside, which
        findView() sets first). */
    ghost predicate Unjoined()
      reads this
    {
      active == null && blocked == null && oldblocked == null && entering == null &&
      members == null && future == null && messages == null && !blocking && events == [] && adrift
    }

    constructor Attach(store: Store, session: nat, gid: string)
      ensures this.store == store && this.session == session && this.gid == gid
      ensures Unjoined() && Valid()
    {
      this.store, this.session, this.gid := store, session, gid;
      me, vid := "", 0;
      active, blocked, oldblocked, entering := null, null, null, null;
      members, future, messages := null, null, null;
      blocking, events := false, [];
      adrift := true;
    }

    /** new Group(gid, cb): a session of its own on the ensemble. */
    static method Make(store: Store, gid: string) returns (g: Group)
      requires store.Valid()
      modifies store
      ensures store.Valid() && fresh(g) && g.store == store && g.gid == gid
      ensures g.session !in old(store.live) && store.live == old(store.live) + {g.session}
      ensures store.nodes == old(store.nodes)
      ensures g.Unjoined() && g.Valid()
    {
      var s := store.Open();
      g := new Group.Attach(store, s, gid);
    }

    /** A table can be refreshed: its container exists and every entry parses. */
    ghost predicate Fresh(m: ProcesseMap?)
      reads store
    {
      m != null && m.path in store.nodes && Readable(store.nodes, m.path)
    }

    /** getStability() on the store as it is. */
    ghost function Stability(): int
      requires active != null && blocked != null
      reads this`active, this`blocked, store
    {
      Lower(Minimum(Table(store.nodes, active.path)), Minimum(Table(store.nodes, blocked.path)))
    }

    /** getStability(): the lower of the least active and the least blocked
        watermark, each table refreshed first. */
    method GetStability() returns (r: Result<int, Fault>)
      requires Valid() && !adrift
      modifies active, blocked
      ensures r.Success? <==> session in store.live && Fresh(active) && Fresh(blocked)
      ensures r.Success? ==> r.value == Stability()
      ensures r.Success? ==> forall m | m in Table(store.nodes, active.path) :: r.value <= Table(store.nodes, active.path)[m]
      ensures r.Success? ==> forall m | m in Table(store.nodes, blocked.path) :: r.value <= Table(store.nodes, blocked.path)[m]
    {
      var lowa := active.Get();
      if lowa.Failure? {
        return Failure(lowa.error);
      }
      var lowb := blocked.Get();
      if lowb.Failure? {
        return Failure(lowb.error);
      }
      MinimumIs(Table(store.nodes, active.path));
      MinimumIs(Table(store.nodes, blocked.path));
      r := Success(Lower(lowa.value, lowb.value));
    }

    /** tryLeave()'s condition on the store as it is. */
    ghost predicate LeaveReady()
      reads this, store, members
    {
      !blocking && future == null && active != null && blocked != null && entering != null &&
      members != null && members.data.Some? &&
      (oldblocked == null || Children(store.nodes, oldblocked.path) == {}) &&
      (|Children(store.nodes, active.path)| < |members.data.value| ||
       Children(store.nodes, blocked.path) != {} || Children(store.nodes, entering.path) != {})
    }

    /** Every read tryLeave()'s condition may make succeeds. */
    ghost predicate LeaveReadable()
      reads this, store
    {
      session in store.live && (oldblocked != null ==> Fresh(oldblocked)) &&
      Fresh(active) && Fresh(blocked) && Fresh(entering)
    }

    /** The condition of tryLeave(), its table reads made in the order of
        the short-circuit evaluation. */
    method ReadyToLeave() returns (r: Result<bool, Fault>)
      requires Valid() && !adrift
      modifies active, blocked, oldblocked, entering
      ensures r.Success? ==> r.value == LeaveReady()
      ensures blocking || future != null ==> r == Success(false)
      ensures LeaveReadable() ==> r.Success?
    {
      if blocking || future != null {
        return Success(false);
      }
      if oldblocked != null {
        var drained := oldblocked.ProcessSet();
        if drained.Failure? {
          return Failure(drained.error);
        }
        if drained.value != {} {
          return Success(false);
        }
      }
      var known := members.data;
      if known.None? {
        return Success(false);
      }
      var present := active.ProcessSet();
      if present.Failure? {
        return Failure(present.error);
      }
      if |present.value| < |known.value| {
        return Success(true);
      }
      var left := blocked.ProcessSet();
      if left.Failure? {
        return Failure(left.error);
      }
      if left.value != {} {
        return Success(true);
      }
      var waiting := entering.ProcessSet();
      if waiting.Failure? {
        return Failure(waiting.error);
      }
      r := Success(waiting.value != {});
    }

    /** tryLeave(): once some member has left the active table, or someone
        has blocked or waits to enter, and the previous change is over,
        set blocking and call block() on the application. */
    method TryLeave() returns (r: Outcome)
      requires Valid() && !adrift
      modifies this`blocking, this`events, active, blocked, oldblocked, entering
      ensures Valid()
      ensures r.Success? && old(LeaveReady()) ==> blocking && events == old(events) + [Event.Block]
      ensures r.Success? && !old(LeaveReady()) ==> blocking == old(blocking) && events == old(events)
      ensures r.Failure? ==> blocking == old(blocking) && events == old(events)
      ensures old(LeaveReadable()) ==> r.Success?
    {
      var ready := ReadyToLeave();
      if ready.Failure? {
        return Failure(ready.error);
      }
      if ready.value {
        blocking := true;
        events := events + [Event.Block];
      }
      r := Success(());
    }

    /** blockOk(): a no-op unless blocking. Otherwise clear the flag, move
        the own watermark from the active to the blocked table at the log's
        cursor, and open the record of the next view. */
    method BlockOk() returns (r: Outcome)
      requires Valid()
      modifies this`blocking, this`future, store
      ensures Valid() && !blocking && store.live == old(store.live)
      ensures !old(blocking) ==> r.Success? && future == old(future) && store.nodes == old(store.nodes)
      ensures old(blocking) && r.Success? ==>
        Table(store.nodes, blocked.path) == Table(old(store.nodes), blocked.path)[me := old(messages.last)] &&
        Table(store.nodes, active.path) == Table(old(store.nodes), active.path) - {me} &&
        store.nodes == old(store.nodes)[blocked.path + [me] := Node(Decimal.Itos(old(messages.last)), Some(session))] - {active.path + [me]} &&
        future != null && fresh(future) && RecordAt(future, vid + 1) &&
        future.data == Recorded(store.nodes, future.path)
      ensures old(blocking) && r.Failure? ==> future == old(future) && store.nodes == old(store.nodes)
      ensures old(blocking) && session in old(store.live) && blocked.path + [me] !in old(store.nodes) ==> r.Success?
    {
      if !blocking {
        return Success(());
      }
      blocking := false;
      var next;
      r, next := Handover(store, session, path, vid, blocked, active, messages.last);
      future := next;
    }

    /** The writes and the read of blockOk() in view v: the own watermark
        moves from the active to the blocked table, then the next record is
        read. */
    static method Handover(store: Store, session: nat, group: Path, v: int, blocked: ProcesseMap, active: ProcesseMap,
                           last: int) returns (r: Outcome, next: ProcessList?)
      requires Decimal.INT_MIN <= last <= Decimal.INT_MAX
      requires Sits(blocked, store, session, blocked.me, ViewPath(group, v) + ["blocked"])
      requires Sits(active, store, session, blocked.me, ViewPath(group, v) + ["active"])
      modifies store
      ensures store.live == old(store.live)
      ensures r.Failure? ==> next == null && store.nodes == old(store.nodes)
      ensures session in old(store.live) && blocked.path + [blocked.me] !in old(store.nodes) ==> r.Success?
      ensures r.Success? ==>
        Table(store.nodes, blocked.path) == Table(old(store.nodes), blocked.path)[blocked.me := last] &&
        Table(store.nodes, active.path) == Table(old(store.nodes), active.path) - {blocked.me} &&
        store.nodes == old(store.nodes)[blocked.path + [blocked.me] := Node(Decimal.Itos(last), Some(session))] - {active.path + [blocked.me]} &&
        next != null && fresh(next) && Holds(next, store, session, ViewPath(group, v + 1)) &&
        next.data == Recorded(store.nodes, next.path)
    {
      next := null;
      r := Endpoint.HandOverEntry(blocked, active, last);
      if r.Failure? {
        return;
      }
      HandOver(old(store.nodes), ViewPath(group, v), blocked.me, last, session);
      var made := ProcessList.Make(store, session, ViewPath(group, v + 1));
      assert made.Success?;  // the session has just written
      next := made.value;
    }

    /** tryEnter()'s condition on the store as it is. */
    ghost predicate EnterReady()
      reads this, store, future, messages
    {
      future != null && future.data.None? && active != null && blocked != null &&
      Children(store.nodes, active.path) == {} &&
      (messages == null || Stability() >= messages.last)
    }

    /** Every read tryEnter() may make succeeds. */
    ghost predicate EnterReadable()
      reads this, store
    {
      session in store.live && Fresh(active) && Fresh(blocked) && Fresh(entering)
    }

    /** The condition of tryEnter(): the next record is open but undecided,
        nobody is active any more, and every message sent is stable. */
    method ReadyToEnter() returns (r: Result<bool, Fault>)
      requires Valid() && !adrift
      modifies active, blocked
      ensures r.Success? ==> r.value == EnterReady()
      ensures future == null || future.data.Some? ==> r == Success(false)
      ensures EnterReadable() ==> r.Success?
    {
      if future == null || future.data.Some? {
        return Success(false);
      }
      var present := active.ProcessSet();
      if present.Failure? {
        return Failure(present.error);
      }
      if present.value != {} {
        return Success(false);
      }
      if messages != null {
        var low := GetStability();
        if low.Failure? {
          return Failure(low.error);
        }
        if low.value < messages.last {
          return Success(false);
        }
      }
      r := Success(true);
    }

    /** The processes tryEnter() proposes: those of the blocked and of the
        entering table. */
    ghost function Candidates(): set<string>
      requires blocked != null && entering != null
      reads this`blocked, this`entering, store
    {
      Children(store.nodes, blocked.path) + Children(store.nodes, entering.path)
    }

    /** The union of the blocked and the entering table's processes, each
        refreshed first, in the order a HashSet of it yields them. */
    static method Gather(blocked: ProcesseMap, entering: ProcesseMap) returns (r: Result<seq<string>, Fault>)
      requires blocked.store == entering.store && blocked.session == entering.session
      modifies blocked, entering
      ensures r.Success? ==>
        Enumerates(r.value, Children(blocked.store.nodes, blocked.path) + Children(blocked.store.nodes, entering.path))
      ensures (blocked.session in blocked.store.live &&
               blocked.path in blocked.store.nodes && Readable(blocked.store.nodes, blocked.path) &&
               entering.path in blocked.store.nodes && Readable(blocked.store.nodes, entering.path)) ==> r.Success?
    {
      var left := blocked.ProcessSet();
      if left.Failure? {
        return Failure(left.error);
      }
      var waiting := entering.ProcessSet();
      if waiting.Failure? {
        return Failure(waiting.error);
      }
      var order := Endpoint.Enumerate(left.value + waiting.value);
      r := Success(order);
    }

    /** tryEnter(): once ready, propose for the next view everyone in the
        blocked and the entering table. An empty proposal is a
        NullPointerException. */
    method TryEnter() returns (r: Outcome, prop: seq<string>)
      requires Valid() && !adrift
      modifies store, active, blocked, entering, future
      ensures store.live == old(store.live) && store.counters == old(store.counters)
      ensures r.Failure? || !old(EnterReady()) ==> store.nodes == old(store.nodes)
      ensures old(EnterReady()) && r.Success? ==>
        Enumerates(prop, old(Candidates())) && prop != [] &&
        store.nodes == old(store.nodes)[future.path :=
          if future.path in old(store.nodes) then old(store.nodes)[future.path] else Node(JavaText.Joined(prop), None)] &&
        future.data == Some(Split(Decided(old(store.nodes), future.path, prop)))
      ensures old(EnterReady() && EnterReadable()) ==> (r.Success? <==> old(Candidates()) != {})
    {
      prop := [];
      var ready := ReadyToEnter();
      if ready.Failure? {
        return Failure(ready.error), prop;
      }
      if !ready.value {
        return Pass, prop;
      }
      var listed := Gather(blocked, entering);
      if listed.Failure? {
        return Failure(listed.error), prop;
      }
      prop := listed.value;
      assert prop == [] <==> Elements(prop) == {} by {
        if prop != [] {
          assert prop[0] in Elements(prop);
        }
      }
      r := future.Propose(prop);
    }

    /** tryInstall()'s condition on the store as it is: the next record is
        decided and the blocked table has caught up with the log. */
    ghost predicate InstallReady()
      reads this, store, future, messages
    {
      future != null && future.data.Some? && blocked != null &&
      (messages == null || Minimum(Table(store.nodes, blocked.path)) >= messages.last)
    }

    /** The condition of tryInstall(). */
    method ReadyToInstall() returns (r: Result<bool, Fault>)
      requires Valid() && !adrift
      modifies blocked
      ensures r.Success? ==> r.value == InstallReady()
      ensures future == null || future.data.None? ==> r == Success(false)
      ensures messages == null ==> r.Success?
      ensures messages != null && session in store.live && Fresh(blocked) ==> r.Success?
    {
      if future == null || future.data.None? {
        return Success(false);
      }
      if messages != null {
        var low := blocked.Get();
        if low.Failure? {
          return Failure(low.error);
        }
        return Success(low.value >= messages.last);
      }
      r := Success(true);
    }

    /** tryInstall()'s reads succeed: the session is open and, with a
        log, the blocked table can be refreshed. */
    ghost predicate InstallReadable()
      reads this`messages, this`blocked, store
    {
      session in store.live && (messages != null ==> Fresh(blocked))
    }

    /** The part of tryInstall() after vid++ that talks to the store: the
        tables of view v in the order the draft makes them, then, for a
        process the decided record names, the log of v and the own active
        watermark -1; a process it leaves out is thrown "kicket out". */
    static method Seat(store: Store, session: nat, group: Path, v: int, me: string, names: seq<string>)
      returns (r: Outcome, a: ProcesseMap?, e: ProcesseMap?, b: ProcesseMap?, m: Messages?)
      modifies store
      ensures store.live == old(store.live)
      ensures session !in store.live ==> r.Failure?
      ensures a != null ==>
        e != null && b != null && fresh(a) && fresh(e) && fresh(b) &&
        Sits(a, store, session, me, ViewPath(group, v) + ["active"]) &&
        Sits(e, store, session, me, ViewPath(group, v) + ["entering"]) &&
        Sits(b, store, session, me, ViewPath(group, v) + ["blocked"])
      ensures m != null ==>
        fresh(m) && m.last == -1 && m.store == store && m.session == session && m.path == ViewPath(group, v) + ["messages"]
      ensures a != null && me !in names ==> r == Failure(KickedOut) && m == null
      ensures r.Success? ==> me in names && a != null && m != null && Reading(store.nodes, a.path + [me]) == Some(-1)
    {
      a, e, b, m := null, null, null, null;
      var made := Endpoint.MakeTables(store, session, ViewPath(group, v), me);
      if made.Failure? {
        return Failure(made.error), a, e, b, m;
      }
      a, e, b := made.value.0, made.value.1, made.value.2;
      if me !in names {
        return Failure(KickedOut), a, e, b, m;
      }
      var log := Endpoint.OpenLog(store, session, ViewPath(group, v), a);
      if log.Failure? {
        return Failure(log.error), a, e, b, m;
      }
      m := log.value;
      r := Pass;
    }

    /** tryInstall(): once ready, move to view vid + 1. The previous
        blocked table becomes oldblocked and the new view's tables are
        made. A process the record names takes it as its view, opens the log
        and writes its active watermark -1, then drops its entry of the
        previous blocked table and calls install() on the application. A
        process left out drops its log and throws "kicket out". */
    method TryInstall() returns (r: Outcome)
      requires Valid() && !adrift
      modifies this`vid, this`oldblocked, this`active, this`entering, this`blocked, this`members, this`future
      modifies this`messages, this`events, this`adrift, store, blocked
      ensures Valid() && store.live == old(store.live)
      ensures (active == old(active) || fresh(active)) && (blocked == old(blocked) || fresh(blocked))
      ensures (entering == old(entering) || fresh(entering)) && (future == old(future) || future == null)
      ensures messages == old(messages) || messages == null || fresh(messages)
      ensures r.Failure? ==> events == old(events)
      ensures vid == old(vid) ==>
        events == old(events) && store.nodes == old(store.nodes) && !adrift &&
        future == old(future) && members == old(members) && messages == old(messages)
      ensures vid == old(vid) || (vid == old(vid) + 1 && old(InstallReady()) && oldblocked == old(blocked))
      ensures old(InstallReady() && InstallReadable()) ==> vid == old(vid) + 1
      ensures vid == old(vid) + 1 && me !in old(future.data.value) ==> r.Failure? && adrift
      ensures vid == old(vid) + 1 && active != old(active) && me !in old(future.data.value) ==>
        r == Failure(KickedOut) && messages == null
      ensures vid == old(vid) + 1 && r.Success? ==>
        me in old(future.data.value) && !adrift && members == old(future) && future == null &&
        messages.last == -1 && Reading(store.nodes, active.path + [me]) == Some(-1) &&
        me !in Table(store.nodes, oldblocked.path) &&
        events == old(events) + [Event.Install(vid, members.data)]
    {
      var ready := ReadyToInstall();
      if ready.Failure? {
        return Failure(ready.error);
      }
      if !ready.value {
        return Pass;
      }
      r := Shift();
      if r.Success? {
        r := Conclude();
      }
    }

    /** The first part of tryInstall() once ready: vid++, oldblocked =
        blocked, then the new view's tables and, for a member of it, the
        record as the view and its log. An exception here leaves the fields
        describing no view. */
    method Shift() returns (r: Outcome)
      requires Valid() && !adrift && future != null && future.data.Some?
      modifies this`vid, this`oldblocked, this`active, this`entering, this`blocked, this`members, this`future
      modifies this`messages, this`adrift, store
      ensures Valid() && store.live == old(store.live)
      ensures vid == old(vid) + 1 && oldblocked == old(blocked)
      ensures (active == old(active) || fresh(active)) && (blocked == old(blocked) || fresh(blocked))
      ensures (entering == old(entering) || fresh(entering)) && (future == old(future) || future == null)
      ensures messages == old(messages) || messages == null || fresh(messages)
      ensures r.Failure? ==> adrift
      ensures me !in old(future.data.value) ==> r.Failure?
      ensures active != old(active) && me !in old(future.data.value) ==> r == Failure(KickedOut) && messages == null
      ensures r.Success? ==>
        !adrift && me in old(future.data.value) && members == old(future) && future == null && oldblocked != null &&
        messages.last == -1 && Reading(store.nodes, active.path + [me]) == Some(-1)
    {
      vid := vid + 1;
      oldblocked := blocked;
      var names := future.data.value;
      var a, e, b, m;
      r, a, e, b, m := Seat(store, session, path, vid, me, names);
      if r.Success? {
        Take(a, e, b, m);
        return;
      }
      Strand(a, e, b, m, me !in names);
    }

    /** An exception in the middle of tryInstall(): what was assigned before
        it stays (the new tables, then either no log for a process left out,
        or the record as the view and the new log when it was made), and the
        fields describe no view. */
    method Strand(a: ProcesseMap?, e: ProcesseMap?, b: ProcesseMap?, m: Messages?, kicked: bool)
      requires !blocking && future != null
      requires a != null ==> e != null && b != null
      requires m != null ==> m.store == store && m.session == session
      requires messages != null ==> messages.store == store && messages.session == session
      modifies this`active, this`entering, this`blocked, this`members, this`future, this`messages, this`adrift
      ensures adrift && Valid()
      ensures a != null ==> active == a && entering == e && blocked == b
      ensures a == null ==> active == old(active) && entering == old(entering) && blocked == old(blocked)
      ensures a != null && kicked ==> messages == null
      ensures messages == old(messages) || messages == null || messages == m
      ensures future == old(future) || future == null
    {
      if a != null {
        active, entering, blocked := a, e, b;
        if kicked {
          messages := null;
        } else {
          members, future := future, null;
          if m != null {
            messages := m;
          }
        }
      }
      adrift := true;
    }

    /** A member of the decided record takes it as view vid, with the
        tables and the log of vid. */
    method Take(a: ProcesseMap, e: ProcesseMap, b: ProcesseMap, m: Messages)
      requires !blocking && future != null && RecordAt(future, vid)
      requires Placed(a, "active", vid) && Placed(b, "blocked", vid) && Placed(e, "entering", vid)
      requires Placed(oldblocked, "blocked", vid - 1)
      requires m.store == store && m.session == session && m.path == ViewPath(path, vid) + ["messages"]
      modifies this`active, this`entering, this`blocked, this`members, this`future, this`messages, this`adrift
      ensures active == a && entering == e && blocked == b && messages == m
      ensures members == old(future) && future == null && !adrift && Valid()
    {
      LaidInstalled(store, session, path, me, vid, a, b, e, oldblocked, future, m);
      active, entering, blocked := a, e, b;
      members, future := future, null;
      messages := m;
      adrift := false;
    }

    /** The end of tryInstall(): drop the own entry of the previous view's
        blocked table, then call install(vid, members) on the application. */
    method Conclude() returns (r: Outcome)
      requires Valid() && !adrift && future == null && members != null && oldblocked != null
      modifies this`events, store
      ensures Valid() && store.live == old(store.live)
      ensures r.Failure? ==> events == old(events)
      ensures r.Success? && Reading(old(store.nodes), active.path + [me]) == Some(-1) ==>
        Reading(store.nodes, active.path + [me]) == Some(-1)
      ensures r.Success? ==>
        me !in Table(store.nodes, oldblocked.path) && events == old(events) + [Event.Install(vid, members.data)]
    {
      r := oldblocked.Remove();
      if r.Failure? {
        return;
      }
      assert (oldblocked.path + [me])[|path| + 1] == "blocked" && (active.path + [me])[|path| + 1] == "active";
      events := events + [Event.Install(vid, members.data)];
    }

    /** The table the own watermark is raised in: the active one while the
        view is current, the blocked one once the next record is open. */
    function Mark(): ProcesseMap?
      reads this`future, this`active, this`blocked
    {
      if future == null then active else blocked
    }

    /** The first half of tryAck(): update(getStability()) on the log,
        which hands over the new entries and collects the stable ones. */
    method Collect() returns (delivered: Result<seq<string>, Fault>, ghost low: int, ghost names: seq<string>)
      requires Valid() && !adrift && messages != null
      modifies store, active, blocked, messages
      ensures store.live == old(store.live)
      ensures delivered.Success? ==>
        low == old(Stability()) &&
        Delivered(old(store.nodes), messages.path, old(messages.last), low, names, messages.last, delivered.value) &&
        store.nodes == old(store.nodes) - Under(messages.path, Scan(names, old(messages.last), low).dropped)
    {
      low, names := 0, [];
      var stable := GetStability();
      if stable.Failure? {
        return Failure(stable.error), low, names;
      }
      low := stable.value;
      delivered, names := messages.Update(stable.value);
    }

    /** The second half of tryAck(): raise the own watermark to the log's
        cursor. Collecting log entries did not touch the table. */
    method Raise(ghost before: map<Path, Node>, ghost dropped: seq<string>) returns (r: Outcome)
      requires Valid() && !adrift && messages != null
      requires store.nodes == before - Under(messages.path, dropped)
      modifies store, active, blocked
      ensures store.live == old(store.live)
      ensures r.Success? ==>
        me in Table(before, Mark().path) &&
        var marked := Table(before, Mark().path)[me];
        Table(store.nodes, Mark().path) == Table(before, Mark().path)[me := if messages.last > marked then messages.last else marked]
      ensures r.Success? ==> store.nodes == Lifted(before - Under(messages.path, dropped), Mark().path + [me], messages.last)
    {
      LogApart(before, ViewPath(path, vid), if future == null then "active" else "blocked", dropped);
      r := Mark().Set(messages.last);
    }

    /** tryAck() as written: with a log, collect from it and raise the own
        watermark; the payloads update() returns are dropped, so nothing
        reaches the application. */
    method TryAck() returns (r: Outcome, ghost low: int, ghost names: seq<string>, values: seq<string>)
      requires Valid() && !adrift
      modifies store, active, blocked, messages
      ensures store.live == old(store.live) && events == old(events)
      ensures messages == null ==> r.Success? && values == [] && store.nodes == old(store.nodes)
      ensures messages != null && r.Success? ==>
        low == old(Stability()) && Acknowledged(old(store.nodes), store.nodes, messages.path, Mark().path, me, old(messages.last), low, names, values, messages.last)
    {
      low, names, values := 0, [], [];
      if messages == null {
        return Pass, low, names, values;
      }
      var delivered;
      delivered, low, names := Collect();
      if delivered.Failure? {
        return Failure(delivered.error), low, names, values;
      }
      values := delivered.value;
      r := Raise(old(store.nodes), Scan(names, old(messages.last), low).dropped);
    }

    /** tryAck() as evidently intended: the payloads update() returns are
        passed to the application (enqueue(), hence receive()) in order. */
    method TryAckCorrected() returns (r: Outcome, ghost low: int, ghost names: seq<string>, values: seq<string>)
      requires Valid() && !adrift
      modifies this`events, store, active, blocked, messages
      ensures store.live == old(store.live)
      ensures messages == null ==> r.Success? && store.nodes == old(store.nodes) && events == old(events)
      ensures r.Failure? ==> events == old(events) + Receipts(values)
      ensures messages != null && r.Success? ==>
        low == old(Stability()) && Acknowledged(old(store.nodes), store.nodes, messages.path, Mark().path, me, old(messages.last), low, names, values, messages.last) &&
        events == old(events) + Receipts(values)
    {
      r, low, names, values := TryAck();
      events := events + Receipts(values);
    }

    /** One iteration of the worker loop: tryAck() (as written), tryLeave(),
        tryInstall(), tryEnter(); an exception ends it, and the thread. It
        moves to view vid + 1 at most, and callbacks only accumulate. */
    method Round() returns (r: Outcome)
      requires Valid() && !adrift
      modifies this`vid, this`oldblocked, this`active, this`entering, this`blocked, this`members, this`future
      modifies this`messages, this`events, this`adrift, this`blocking, store
      modifies active, blocked, oldblocked, entering, future, messages
      ensures Valid()
      ensures vid == old(vid) || vid == old(vid) + 1
      ensures old(events) <= events
    {
      r := Settle();
      if r.Failure? {
        return;
      }
      r := Advance();
    }

    /** tryAck() (as written) then tryLeave(), which stay in the view. */
    method Settle() returns (r: Outcome)
      requires Valid() && !adrift
      modifies this`events, this`blocking, store, active, blocked, oldblocked, entering, messages
      ensures Valid() && !adrift && old(events) <= events
    {
      r := Acknowledge();
      if r.Failure? {
        return;
      }
      r := TryLeave();
    }

    /** tryAck() as written, as a step of the loop: it stays in the view,
        and no callback is made. */
    method Acknowledge() returns (r: Outcome)
      requires Valid() && !adrift
      modifies store, active, blocked, messages
      ensures Valid() && !adrift && events == old(events)
    {
      var acked, _, _, _ := TryAck();
      r := acked;
    }

    /** tryInstall() then tryEnter(). */
    method Advance() returns (r: Outcome)
      requires Valid() && !adrift
      modifies this`vid, this`oldblocked, this`active, this`entering, this`blocked, this`members, this`future
      modifies this`messages, this`events, this`adrift, store, active, blocked, entering, future
      ensures Valid()
      ensures vid == old(vid) || vid == old(vid) + 1
      ensures old(events) <= events
    {
      r := TryInstall();
      if r.Failure? {
        return;
      }
      var entered, _ := TryEnter();
      r := entered;
    }

    /** The log entry the next send() creates. */
    ghost function NextMessage(): Path
      requires messages != null
      reads this`messages, store
    {
      SequentialName(messages.path, "", store.NextSequence(messages.path))
    }

    /** send(data): refused while a next record is open; otherwise append to
        the log. */
    method Send(data: string) returns (r: Outcome)
      requires Valid()
      modifies store
      ensures store.live == old(store.live)
      ensures future != null ==> r == Failure(SendingWhileBlocked) && store.nodes == old(store.nodes)
      ensures future == null && messages == null ==> r == Failure(NullPointer) && store.nodes == old(store.nodes)
      ensures future == null && messages != null && session in old(store.live) && old(NextMessage()) !in old(store.nodes) ==>
        r.Success? && store.nodes == old(store.nodes)[old(NextMessage()) := Node(data, None)]
      ensures r.Failure? ==> store.nodes == old(store.nodes)
    {
      if future != null {
        return Failure(SendingWhileBlocked);
      }
      if messages == null {
        return Failure(NullPointer);
      }
      var sent := messages.Send(data);
      if sent.Failure? {
        return Failure(sent.error);
      }
      r := Success(());
    }

    /** leave(): close the session, so the own ephemeral entries go. */
    method Leave()
      modifies store
      ensures session !in store.live && store.live == old(store.live) - {session}
      ensures store.nodes == WithoutSession(old(store.nodes), session)
    {
      store.Close(session);
    }

    /* -- Joining the group */

    /** The end of boot(): with view 0 made, the group takes its
        components and the application hears of view 0. */
    method Take0(l: ProcessList, a: ProcesseMap, b: ProcesseMap, e: ProcesseMap, m: Messages)
      requires Unjoined() && vid == 0
      requires Holds(l, store, session, ViewPath(path, 0)) && Sits(a, store, session, me, ViewPath(path, 0) + ["active"])
      requires Sits(b, store, session, me, ViewPath(path, 0) + ["blocked"]) && Sits(e, store, session, me, ViewPath(path, 0) + ["entering"])
      requires m.store == store && m.session == session && m.path == ViewPath(path, 0) + ["messages"]
      modifies this`members, this`active, this`blocked, this`entering, this`messages, this`adrift, this`events
      ensures Valid() && !adrift
      ensures members == l && active == a && blocked == b && entering == e && messages == m
      ensures events == old(events) + [Event.Install(0, l.data)]
    {
      LaidBoot(store, session, path, me, l, a, b, e, m);
      members, active, blocked, entering, messages := l, a, b, e, m;
      adrift := false;
      events := events + [Event.Install(vid, members.data)];
    }

    /** boot() from the making of view 0 on: the record proposed with this
        process alone, the tables, the log, the own active watermark -1,
        then install(). */
    method Open0() returns (r: Outcome)
      requires Unjoined() && vid == 0
      modifies this`members, this`active, this`blocked, this`entering, this`messages, this`adrift, this`events, store
      ensures Valid() && store.live == old(store.live)
      ensures session !in store.live ==> r.Failure?
      ensures r.Failure? ==> adrift && events == old(events)
      ensures r.Success? ==>
        !adrift && members.data == Some(Split(Decided(old(store.nodes), ViewPath(path, 0), [me]))) &&
        Reading(store.nodes, active.path + [me]) == Some(-1) &&
        messages.last == -1 && events == old(events) + [Event.Install(0, members.data)]
    {
      var l, a, b, e, m;
      r, l, a, b, e, m := Endpoint.Found(store, session, path, me);
      if r.Failure? {
        return;
      }
      Take0(l, a, b, e, m);
    }

    /** boot(): make view 0 of a group that has none, with this process
        alone in its record unless another booter wrote it first. */
    method Boot() returns (r: Outcome)
      requires Unjoined()
      modifies this`vid, this`me, this`members, this`active, this`blocked, this`entering, this`messages
      modifies this`adrift, this`events, store
      ensures Valid() && store.live == old(store.live)
      ensures session !in store.live ==> r.Failure?
      ensures r.Failure? ==> adrift && events == old(events)
      ensures r.Success? ==>
        !adrift && vid == 0 && me == Decimal.Pad10(old(store.NextSequence(Root + ["process"]))) &&
        members.data == Some(if ViewPath(path, 0) in old(store.nodes) then Split(old(store.nodes)[ViewPath(path, 0)].data) else [me]) &&
        Reading(store.nodes, active.path + [me]) == Some(-1) &&
        messages.last == -1 && events == old(events) + [Event.Install(0, members.data)]
    {
      vid := 0;
      var pid := Enrol(store, session, gid);
      if pid.Failure? {
        return Failure(pid.error);
      }
      me := pid.value;
      r := Open0();
    }

    /** The writes boot() makes before view 0: the paths down to the group
        node, then the own process node, whose suffix is the process id.
        They lie outside the record of view 0. */
    static method Enrol(store: Store, session: nat, gid: string) returns (r: Result<string, Fault>)
      modifies store
      ensures store.live == old(store.live)
      ensures session !in store.live ==> r.Failure?
      ensures r.Success? ==>
        r.value == Decimal.Pad10(old(store.NextSequence(Root + ["process"]))) &&
        Split(Decided(store.nodes, ViewPath(GroupPath(gid), 0), [r.value])) ==
          if ViewPath(GroupPath(gid), 0) in old(store.nodes) then Split(old(store.nodes)[ViewPath(GroupPath(gid), 0)].data) else [r.value]
    {
      var made := Endpoint.CreatePaths(store, session, GroupPath(gid));
      if made.Failure? {
        return Failure(made.error);
      }
      ghost var named := store.nodes;
      r := NewPid(store, session);
      if r.Failure? {
        return;
      }
      ghost var n := old(store.NextSequence(Root + ["process"]));
      BootRecord(old(store.nodes), named, store.nodes, gid, n, r.value, store.nodes[PidPath(n)]);
    }

    /** What the entering branch of join() makes at view v: the three
        tables of v, in the order entering, blocked, active, the record of
        v + 1 it waits for, and its own entering watermark -1. */
    static method Arrive(store: Store, session: nat, group: Path, v: int, me: string)
      returns (r: Outcome, e: ProcesseMap?, b: ProcesseMap?, a: ProcesseMap?, f: ProcessList?)
      modifies store
      ensures store.live == old(store.live) && store.counters == old(store.counters)
      ensures session !in store.live ==> r.Failure?
      ensures r.Success? ==>
        e != null && b != null && a != null && f != null &&
        fresh(e) && fresh(b) && fresh(a) && fresh(f) &&
        Holds(f, store, session, ViewPath(group, v + 1)) &&
        Sits(e, store, session, me, ViewPath(group, v) + ["entering"]) && Sits(b, store, session, me, ViewPath(group, v) + ["blocked"]) &&
        Sits(a, store, session, me, ViewPath(group, v) + ["active"]) &&
        f.data == Recorded(old(store.nodes), ViewPath(group, v + 1)) &&
        Reading(store.nodes, e.path + [me]) == Some(-1)
    {
      e, b, a, f := null, null, null, null;
      var view := ViewPath(group, v);
      var table := ProcesseMap.Make(store, session, view + ["entering"], me);
      if table.Failure? {
        return Failure(table.error), e, b, a, f;
      }
      e := table.value;
      table := ProcesseMap.Make(store, session, view + ["blocked"], me);
      if table.Failure? {
        return Failure(table.error), e, b, a, f;
      }
      b := table.value;
      table := ProcesseMap.Make(store, session, view + ["active"], me);
      if table.Failure? {
        return Failure(table.error), e, b, a, f;
      }
      a := table.value;
      NextRecordApart(old(store.nodes), group, v);
      var list := ProcessList.Make(store, session, ViewPath(group, v + 1));
      assert list.Success?;  // the session is live
      f := list.value;
      r := e.Create(-1);
      Decimal.ParseItos(-1);
    }

    /** The end of the entering branch of join(): the group takes the
        tables of view vid and the record of view vid + 1 it waits for. */
    method Wait(e: ProcesseMap, b: ProcesseMap, a: ProcesseMap, f: ProcessList)
      requires Unjoined()
      requires Holds(f, store, session, ViewPath(path, vid + 1))
      requires Sits(e, store, session, me, ViewPath(path, vid) + ["entering"]) && Sits(b, store, session, me, ViewPath(path, vid) + ["blocked"])
      requires Sits(a, store, session, me, ViewPath(path, vid) + ["active"])
      modifies this`entering, this`blocked, this`active, this`future, this`adrift
      ensures Valid() && !adrift
      ensures entering == e && blocked == b && active == a && future == f
    {
      LaidEntered(store, session, path, me, vid, e, b, a, f);
      entering, blocked, active, future := e, b, a, f;
      adrift := false;
    }

    /** The entering branch of join() once the process id is taken. */
    method Register() returns (r: Outcome)
      requires Unjoined()
      modifies this`entering, this`blocked, this`active, this`future, this`adrift, store
      ensures Valid() && store.live == old(store.live)
      ensures session !in store.live ==> r.Failure?
      ensures r.Failure? ==> adrift
      ensures r.Success? ==>
        !adrift && members == null &&
        future.data == Recorded(old(store.nodes), ViewPath(path, vid + 1)) &&
        Reading(store.nodes, entering.path + [me]) == Some(-1)
    {
      var e, b, a, f;
      r, e, b, a, f := Arrive(store, session, path, vid, me);
      if r.Failure? {
        return;
      }
      Wait(e, b, a, f);
    }

    /** The branch of join() for a group that has views: take a process
        id, open the tables of view vid and register in its entering
        table, waiting for the record of view vid + 1. */
    method Enter() returns (r: Outcome)
      requires Unjoined()
      modifies this`me, this`entering, this`blocked, this`active, this`future, this`adrift, store
      ensures Valid() && store.live == old(store.live)
      ensures session !in store.live ==> r.Failure?
      ensures r.Failure? ==> adrift
      ensures r.Success? ==>
        !adrift && members == null && me == Decimal.Pad10(old(store.NextSequence(Root + ["process"]))) &&
        future.data == Recorded(old(store.nodes), ViewPath(path, vid + 1)) &&
        Reading(store.nodes, entering.path + [me]) == Some(-1)
    {
      var pid := NewPid(store, session);
      if pid.Failure? {
        return Failure(pid.error);
      }
      me := pid.value;
      PidApart(gid, vid, old(store.NextSequence(Root + ["process"])));
      r := Register();
    }

    /** join() up to the start of the worker thread: find the latest view;
        without one, boot view 0; with one, vid, register as entering it and
        wait for the record of vid + 1. An exception leaves the group
        unjoined. */
    method Join() returns (r: Outcome, ghost listing: seq<string>)
      requires Unjoined()
      modifies this`vid, this`me, this`members, this`active, this`blocked, this`entering, this`future
      modifies this`messages, this`adrift, this`events, store
      ensures Valid() && store.live == old(store.live)
      ensures session in old(store.live) && path in old(store.nodes) ==>
        Distinct(listing) && Elements(listing) == Children(old(store.nodes), path)
      ensures session !in old(store.live) || path !in old(store.nodes) ==> listing == []
      ensures session !in old(store.live) ==> r.Failure?
      ensures r.Failure? ==> adrift && events == old(events)
      ensures r.Success? && Latest(listing, -1) < 0 ==>
        !adrift && members != null && active != null && vid == 0 && me == Decimal.Pad10(old(store.NextSequence(Root + ["process"]))) &&
        members.data == Some(if ViewPath(path, 0) in old(store.nodes) then Split(old(store.nodes)[ViewPath(path, 0)].data) else [me]) &&
        Reading(store.nodes, active.path + [me]) == Some(-1) &&
        events == old(events) + [Event.Install(0, members.data)]
      ensures r.Success? && Latest(listing, -1) >= 0 ==>
        !adrift && vid == Latest(listing, -1) && me == Decimal.Pad10(old(store.NextSequence(Root + ["process"]))) &&
        members == null && entering != null && future != null && future.data == Recorded(old(store.nodes), ViewPath(path, vid + 1)) &&
        Reading(store.nodes, entering.path + [me]) == Some(-1) && events == old(events)
    {
      var target;
      target, listing := LatestView(store, session, path);
      vid := target;
      if vid < 0 {
        r := Boot();
      } else {
        r := Enter();
      }
    }
  }
}
