/** The message log of the vsc prototype (src/vsc/Messages.java): messages
    are sequential children "m<ten digits>" of view/messages, nothing is ever
    collected, and update() hands every message above the cursor to the
    view as it goes. As written, it visits the children in the order the
    store lists them and moves the cursor up by one per message; the
    corrected pass visits them in name order and moves the cursor to the id
    of each message it delivers. */
module VscMessages {
  import opened Failure
  import Decimal
  import opened Coordination
  import opened JavaText
  import GroupzMessages

  /** Integer.parseInt(child.substring(1)): the name without its first
      character, a StringIndexOutOfBoundsException for the empty name. */
  function Label(c: string): Result<int, Fault> {
    if |c| == 0 then Failure(IndexOutOfBounds)
    else match Decimal.ParseInt(c[1..])
      case None => Failure(NumberFormat)
      case Some(id) => Success(id)
  }

  /** The names the store gives the messages send() creates. */
  predicate LogName(c: string) {
    |c| == 11 && c[0] == 'm' && Decimal.AllDigits(c[1..]) && Decimal.Value(c[1..]) <= Decimal.INT_MAX
  }

  lemma LogNameOf(n: nat)
    requires n <= Decimal.INT_MAX
    ensures LogName("m" + Decimal.Pad10(n)) && Label("m" + Decimal.Pad10(n)) == Success(n)
  {
    Decimal.Pad10Exact(n);
    Decimal.ParsePad10(n);
    assert ("m" + Decimal.Pad10(n))[1..] == Decimal.Pad10(n);
  }

  /** A pass so far: the names delivered, the cursor, and the exception
      that stopped it, if any. */
  datatype Tally = Tally(taken: seq<string>, last: int, fault: Option<Fault>)

  /** update() as written, over names in the order visited from cursor last. */
  function Counting(names: seq<string>, last: int): Tally
    decreases |names|
  {
    if names == [] then Tally([], last, None)
    else Count(Counting(names[..|names| - 1], last), names[|names| - 1])
  }

  /** Visiting child c as written: deliver it when its id is above the
      cursor, and then add one to the cursor. */
  function Count(w: Tally, c: string): Tally {
    if w.fault.Some? then w
    else match Label(c)
      case Failure(e) => w.(fault := Some(e))
      case Success(id) => if id > w.last then w.(taken := w.taken + [c], last := w.last + 1) else w
  }

  /** update() corrected, over names in the order visited from cursor last. */
  function Tracking(names: seq<string>, last: int): Tally
    decreases |names|
  {
    if names == [] then Tally([], last, None)
    else Track(Tracking(names[..|names| - 1], last), names[|names| - 1])
  }

  /** Visiting child c, corrected: deliver it when its id is above the
      cursor, which moves to that id. */
  function Track(w: Tally, c: string): Tally {
    if w.fault.Some? then w
    else match Label(c)
      case Failure(e) => w.(fault := Some(e))
      case Success(id) => if id > w.last then w.(taken := w.taken + [c], last := id) else w
  }

  predicate Above(names: seq<string>, lo: int, hi: int) {
    forall i | 0 <= i < |names| :: Label(names[i]).Success? && lo < Label(names[i]).value <= hi
  }

  predicate Rising(names: seq<string>) {
    forall i, j | 0 <= i < j < |names| ::
      Label(names[i]).Success? && Label(names[j]).Success? && Label(names[i]).value < Label(names[j]).value
  }

  /** As written, the cursor moves up by exactly the number of messages
      delivered, each of which had an id above the cursor on entry. */
  lemma {:induction false} CountingCounts(names: seq<string>, last: int)
    ensures var w := Counting(names, last);
      w.last == last + |w.taken| && Above(w.taken, last, Decimal.INT_MAX)
    decreases |names|
  {
    if names != [] {
      CountingCounts(names[..|names| - 1], last);
    }
  }

  /** The pass as written goes wrong when the store lists the log out of
      order: listing m2, m0, m1 from the start delivers m2 and m1 and skips
      m0, and the next pass over the same listing delivers m2 again. */
  lemma CountingMisorders()
    ensures var m0, m1, m2 := "m" + Decimal.Pad10(0), "m" + Decimal.Pad10(1), "m" + Decimal.Pad10(2);
      var w1 := Counting([m2, m0, m1], -1);
      w1.fault == None && w1.taken == [m2, m1] && w1.last == 1 &&
      Counting([m2, m0, m1], w1.last).taken == [m2]
  {
    var m0, m1, m2 := "m" + Decimal.Pad10(0), "m" + Decimal.Pad10(1), "m" + Decimal.Pad10(2);
    LogNameOf(0);
    LogNameOf(1);
    LogNameOf(2);
    var listing := [m2, m0, m1];
    assert listing[..2] == [m2, m0] && [m2, m0][..1] == [m2] && [m2][..0] == [];
    assert Counting([m2], -1) == Tally([m2], 0, None);
    assert Counting([m2, m0], -1) == Tally([m2], 0, None);
    assert Counting([m2], 1) == Tally([m2], 2, None);
    assert Counting([m2, m0], 1) == Tally([m2], 2, None);
  }

  /** Corrected, the cursor only advances; the messages delivered have
      increasing ids, each above the cursor on entry and at most the cursor
      on exit, and the cursor ends on the id of the last one. */
  lemma {:induction false} TrackingAdvances(names: seq<string>, last: int)
    ensures var w := Tracking(names, last);
      w.last >= last && Above(w.taken, last, w.last) && Rising(w.taken) &&
      (w.taken == [] ==> w.last == last) &&
      (w.taken != [] ==> Label(w.taken[|w.taken| - 1]) == Success(w.last))
    decreases |names|
  {
    if names != [] {
      TrackingAdvances(names[..|names| - 1], last);
    }
  }

  /** One more name visited. */
  lemma CountingSnoc(names: seq<string>, i: nat, last: int)
    requires i < |names|
    ensures Counting(names[..i + 1], last) == Count(Counting(names[..i], last), names[i])
  {
    assert names[..i + 1][..i] == names[..i];
  }

  lemma TrackingSnoc(names: seq<string>, i: nat, last: int)
    requires i < |names|
    ensures Tracking(names[..i + 1], last) == Track(Tracking(names[..i], last), names[i])
  {
    assert names[..i + 1][..i] == names[..i];
  }

  /** Once a pass has stopped on an exception, later names change nothing. */
  lemma {:induction false} CountingStops(names: seq<string>, k: nat, last: int)
    requires k <= |names| && Counting(names[..k], last).fault.Some?
    ensures Counting(names, last) == Counting(names[..k], last)
    decreases |names| - k
  {
    if k < |names| {
      assert names[..k + 1][..k] == names[..k];
      CountingStops(names, k + 1, last);
    } else {
      assert names[..k] == names;
    }
  }

  lemma {:induction false} TrackingStops(names: seq<string>, k: nat, last: int)
    requires k <= |names| && Tracking(names[..k], last).fault.Some?
    ensures Tracking(names, last) == Tracking(names[..k], last)
    decreases |names| - k
  {
    if k < |names| {
      assert names[..k + 1][..k] == names[..k];
      TrackingStops(names, k + 1, last);
    } else {
      assert names[..k] == names;
    }
  }

  /** The names in names whose id exceeds last. */
  function Unseen(names: seq<string>, last: int): seq<string>
    requires forall i | 0 <= i < |names| :: Label(names[i]).Success?
  {
    if names == [] then []
    else
      var c := names[|names| - 1];
      Unseen(names[..|names| - 1], last) + (if Label(c).value > last then [c] else [])
  }

  lemma {:induction false} UnseenWithin(names: seq<string>, last: int, x: string)
    requires forall i | 0 <= i < |names| :: Label(names[i]).Success?
    requires x in Unseen(names, last)
    ensures x in names
    decreases |names|
  {
    if names != [] {
      var init := names[..|names| - 1];
      if x in Unseen(init, last) {
        UnseenWithin(init, last, x);
      }
    }
  }

  /** Visited in increasing id order, the corrected pass delivers exactly
      the messages above the cursor, in that order, without an exception. */
  lemma {:induction false} TrackingInOrder(names: seq<string>, last: int)
    requires Rising(names) && forall i | 0 <= i < |names| :: Label(names[i]).Success?
    ensures var w := Tracking(names, last); w.fault == None && w.taken == Unseen(names, last)
    decreases |names|
  {
    if names != [] {
      var init := names[..|names| - 1];
      assert forall i | 0 <= i < |init| :: init[i] == names[i];
      TrackingInOrder(init, last);
      TrackingAdvances(init, last);
      var w := Tracking(init, last);
      if w.taken != [] {
        var t := w.taken[|w.taken| - 1];
        UnseenWithin(init, last, t);
        var k :| 0 <= k < |init| && init[k] == t;
        assert Label(names[k]).value < Label(names[|names| - 1]).value;
      }
    }
  }

  /** Sorting store-made names as strings (the TreeSet) sorts them by id. */
  lemma SortedLogRises(names: seq<string>)
    requires Ascending(names) && forall i | 0 <= i < |names| :: LogName(names[i])
    ensures Rising(names)
    ensures forall i | 0 <= i < |names| :: LogName(names[i]) && Label(names[i]) == Success(Decimal.Value(names[i][1..]))
  {
    forall i | 0 <= i < |names| ensures Label(names[i]) == Success(Decimal.Value(names[i][1..])) {
    }
    forall i, j | 0 <= i < j < |names| ensures Decimal.Value(names[i][1..]) < Decimal.Value(names[j][1..]) {
      assert Less(names[i], names[j]);
      GroupzMessages.DigitOrder(names[i][1..], names[j][1..]);
    }
  }

  /** Over the log as the store keeps it (names send() made, in name order),
      the corrected pass delivers exactly the messages above the cursor, in
      increasing id order, and ends on the largest id. */
  lemma TrackingDeliversUnseen(names: seq<string>, last: int)
    requires Ascending(names) && forall i | 0 <= i < |names| :: LogName(names[i])
    ensures forall i | 0 <= i < |names| :: Label(names[i]).Success?
    ensures var w := Tracking(names, last);
      w.fault == None && w.taken == Unseen(names, last) && Rising(w.taken) &&
      (w.taken != [] ==> Label(w.taken[|w.taken| - 1]) == Success(w.last))
  {
    SortedLogRises(names);
    TrackingInOrder(names, last);
    TrackingAdvances(names, last);
  }

  /** Corrected, no message is delivered by two passes: what a later pass
      delivers lies strictly above everything an earlier one did. */
  lemma TrackedOnce(first: seq<string>, second: seq<string>, last: int)
    ensures var w1 := Tracking(first, last);
      var w2 := Tracking(second, w1.last);
      forall i, j | 0 <= i < |w1.taken| && 0 <= j < |w2.taken| ::
        Label(w1.taken[i]).Success? && Label(w2.taken[j]).Success? && Label(w1.taken[i]).value < Label(w2.taken[j]).value
  {
    TrackingAdvances(first, last);
    TrackingAdvances(second, Tracking(first, last).last);
  }

  class Messages {
    const store: Store
    const session: nat
    const path: Path
    /** Where the pass has got to, -1 before the first message. */
    var last: Decimal.JavaInt

    constructor Attach(store: Store, session: nat, path: Path)
      ensures this.store == store && this.session == session && this.path == path
      ensures last == -1
    {
      this.store, this.session, this.path := store, session, path;
      last := -1;
    }

    /** new Messages(view, ...): the log under view/messages, made unless it
        exists, then a first update() as written (listing order, the cursor
        counting deliveries), which hands over the messages already there,
        even when it then fails. */
    static method Make(store: Store, session: nat, view: Path)
      returns (r: Result<Messages, Fault>, delivered: seq<string>, ghost names: seq<string>)
      modifies store
      ensures store.live == old(store.live) && store.counters == old(store.counters)
      ensures session !in store.live ==> r == Failure(ConnectionLoss) && store.nodes == old(store.nodes) && delivered == []
      ensures session in store.live ==> store.nodes == WithContainer(old(store.nodes), view + ["messages"])
      ensures session in store.live ==>
        Distinct(names) && Elements(names) == Children(store.nodes, view + ["messages"]) &&
        var w := Counting(names, -1);
        (forall i | 0 <= i < |w.taken| :: view + ["messages"] + [w.taken[i]] in store.nodes) &&
        delivered == GroupzMessages.Payloads(store.nodes, view + ["messages"], w.taken) &&
        (r.Success? <==> w.fault == None) && (w.fault.Some? ==> r == Failure(w.fault.value))
      ensures r.Success? ==>
        fresh(r.value) && r.value.store == store && r.value.session == session &&
        r.value.path == view + ["messages"] && r.value.last == Counting(names, -1).last
    {
      delivered, names := [], [];
      var made := store.Create(session, view + ["messages"], "", false);
      if made.Failure? && made.error != NodeExists {
        return Failure(made.error), delivered, names;
      }
      var m := new Messages.Attach(store, session, view + ["messages"]);
      var u;
      delivered, u, names := m.Update();
      if u.Failure? {
        return Failure(u.error), delivered, names;
      }
      r := Success(m);
    }

    /** The constructor with the corrected first update(): the messages
        already in the log are handed over in name order. */
    static method MakeCorrected(store: Store, session: nat, view: Path)
      returns (r: Result<Messages, Fault>, delivered: seq<string>, ghost names: seq<string>)
      modifies store
      ensures store.live == old(store.live) && store.counters == old(store.counters)
      ensures session !in store.live ==> r == Failure(ConnectionLoss) && store.nodes == old(store.nodes) && delivered == []
      ensures session in store.live ==> store.nodes == WithContainer(old(store.nodes), view + ["messages"])
      ensures session in store.live ==>
        Ascending(names) && Elements(names) == Children(store.nodes, view + ["messages"]) &&
        var w := Tracking(names, -1);
        (forall i | 0 <= i < |w.taken| :: view + ["messages"] + [w.taken[i]] in store.nodes) &&
        delivered == GroupzMessages.Payloads(store.nodes, view + ["messages"], w.taken) &&
        (r.Success? <==> w.fault == None) && (w.fault.Some? ==> r == Failure(w.fault.value))
      ensures r.Success? ==>
        fresh(r.value) && r.value.store == store && r.value.session == session &&
        r.value.path == view + ["messages"] && r.value.last == Tracking(names, -1).last
    {
      delivered, names := [], [];
      var made := store.Create(session, view + ["messages"], "", false);
      if made.Failure? && made.error != NodeExists {
        return Failure(made.error), delivered, names;
      }
      var m := new Messages.Attach(store, session, view + ["messages"]);
      var u;
      delivered, u, names := m.UpdateCorrected();
      if u.Failure? {
        return Failure(u.error), delivered, names;
      }
      r := Success(m);
    }

    function GetLast(): (r: int)
      reads this`last
      ensures Decimal.INT_MIN <= r <= Decimal.INT_MAX
    {
      last
    }

    /** update() as written: visit the children in the order listed;
        deliver (enqueue) each one whose id is above the cursor and add one
        to the cursor; a name that does not parse stops the pass with what
        was delivered so far. The flag is the wake-up: the cursor moved. */
    method Update() returns (delivered: seq<string>, r: Result<bool, Fault>, ghost listing: seq<string>)
      modifies this`last
      ensures session !in store.live ==> r == Failure(ConnectionLoss) && delivered == [] && last == old(last)
      ensures session in store.live && path !in store.nodes ==> r == Failure(NoNode) && delivered == [] && last == old(last)
      ensures session in store.live && path in store.nodes ==>
        Distinct(listing) && Elements(listing) == Children(store.nodes, path) &&
        var w := Counting(listing, old(last));
        last == w.last &&
        (forall i | 0 <= i < |w.taken| :: path + [w.taken[i]] in store.nodes) &&
        delivered == GroupzMessages.Payloads(store.nodes, path, w.taken) &&
        r == if w.fault.Some? then Failure(w.fault.value) else Success(last > old(last))
    {
      delivered, listing := [], [];
      var children := store.GetChildren(session, path);
      if children.Failure? {
        return delivered, Failure(children.error), listing;
      }
      var order := children.value;
      listing := order;
      ghost var w := Counting([], last);
      var before, i, fault := last, 0, None;
      while i < |order| && fault.None?
        invariant 0 <= i <= |listing|
        invariant w == Counting(listing[..i], before) && last == w.last && fault == w.fault
        invariant forall k | 0 <= k < |w.taken| :: path + [w.taken[k]] in store.nodes
        invariant delivered == GroupzMessages.Payloads(store.nodes, path, w.taken)
      {
        var child := order[i];
        CountingSnoc(listing, i, before);
        assert child in Elements(listing);
        ChildExists(store.nodes, path, child);
        delivered, fault := Tick(child, w, delivered);
        w := Count(w, child);
        i := i + 1;
      }
      if fault.Some? {
        CountingStops(listing, i, before);
        return delivered, Failure(fault.value), listing;
      }
      assert listing[..|listing|] == listing;
      r := Success(last > before);
    }

    /** update() corrected: the children in name order (a TreeSet of the
        listing, as the groupz log does), the cursor moving to the id of
        each message delivered. */
    method UpdateCorrected() returns (delivered: seq<string>, r: Result<bool, Fault>, ghost names: seq<string>)
      modifies this`last
      ensures session !in store.live ==> r == Failure(ConnectionLoss) && delivered == [] && last == old(last)
      ensures session in store.live && path !in store.nodes ==> r == Failure(NoNode) && delivered == [] && last == old(last)
      ensures session in store.live && path in store.nodes ==>
        Ascending(names) && Elements(names) == Children(store.nodes, path) &&
        var w := Tracking(names, old(last));
        last == w.last &&
        (forall i | 0 <= i < |w.taken| :: path + [w.taken[i]] in store.nodes) &&
        delivered == GroupzMessages.Payloads(store.nodes, path, w.taken) &&
        r == if w.fault.Some? then Failure(w.fault.value) else Success(w.taken != [])
    {
      delivered, names := [], [];
      var children := store.GetChildren(session, path);
      if children.Failure? {
        return delivered, Failure(children.error), names;
      }
      var sorted := TreeSetOf(children.value);
      names := sorted;
      forall i | 0 <= i < |sorted| ensures path + [sorted[i]] in store.nodes {
        assert sorted[i] in Elements(sorted);
        ChildExists(store.nodes, path, sorted[i]);
      }
      delivered, r := Follow(sorted);
    }

    /** The loop of the corrected update() over the children in the order given. */
    method Follow(order: seq<string>) returns (delivered: seq<string>, r: Result<bool, Fault>)
      requires session in store.live && forall i | 0 <= i < |order| :: path + [order[i]] in store.nodes
      modifies this`last
      ensures var w := Tracking(order, old(last));
        last == w.last &&
        (forall i | 0 <= i < |w.taken| :: path + [w.taken[i]] in store.nodes) &&
        delivered == GroupzMessages.Payloads(store.nodes, path, w.taken) &&
        r == if w.fault.Some? then Failure(w.fault.value) else Success(w.taken != [])
    {
      ghost var nodes := store.nodes;
      delivered := [];
      ghost var w := Tracking([], last);
      var before := last;
      var i, fault := 0, None;
      while i < |order| && fault.None?
        invariant 0 <= i <= |order| && store.nodes == nodes
        invariant w == Tracking(order[..i], before) && last == w.last && fault == w.fault
        invariant forall k | 0 <= k < |w.taken| :: path + [w.taken[k]] in nodes
        invariant delivered == GroupzMessages.Payloads(nodes, path, w.taken)
      {
        var child := order[i];
        TrackingSnoc(order, i, before);
        delivered, fault := Catch(child, w, delivered);
        w := Track(w, child);
        i := i + 1;
      }
      if fault.Some? {
        TrackingStops(order, i, before);
        return delivered, Failure(fault.value);
      }
      assert order[..|order|] == order;
      TrackingAdvances(order, before);
      r := Success(last > before);
    }

    /** The body of the loop of update() as written, for one child. */
    method Tick(child: string, ghost w: Tally, delivered: seq<string>) returns (more: seq<string>, fault: Option<Fault>)
      requires session in store.live && path + [child] in store.nodes && w.fault == None && last == w.last
      requires forall k | 0 <= k < |w.taken| :: path + [w.taken[k]] in store.nodes
      requires delivered == GroupzMessages.Payloads(store.nodes, path, w.taken)
      modifies this`last
      ensures var v := Count(w, child);
        last == v.last && fault == v.fault &&
        (forall k | 0 <= k < |v.taken| :: path + [v.taken[k]] in store.nodes) &&
        more == GroupzMessages.Payloads(store.nodes, path, v.taken)
    {
      more, fault := delivered, None;
      var id := Label(child);
      if id.Failure? {
        return more, Some(id.error);
      }
      if id.value > last {
        var data := store.GetData(session, path + [child]);
        GroupzMessages.PayloadsSnoc(store.nodes, path, w.taken, child);
        more := delivered + [data.value];
        last := last + 1;
      }
    }

    /** The body of the loop of the corrected update(), for one child. */
    method Catch(child: string, ghost w: Tally, delivered: seq<string>) returns (more: seq<string>, fault: Option<Fault>)
      requires session in store.live && path + [child] in store.nodes && w.fault == None && last == w.last
      requires forall k | 0 <= k < |w.taken| :: path + [w.taken[k]] in store.nodes
      requires delivered == GroupzMessages.Payloads(store.nodes, path, w.taken)
      modifies this`last
      ensures var v := Track(w, child);
        last == v.last && fault == v.fault &&
        (forall k | 0 <= k < |v.taken| :: path + [v.taken[k]] in store.nodes) &&
        more == GroupzMessages.Payloads(store.nodes, path, v.taken)
    {
      more, fault := delivered, None;
      var id := Label(child);
      if id.Failure? {
        return more, Some(id.error);
      }
      if id.value > last {
        var data := store.GetData(session, path + [child]);
        GroupzMessages.PayloadsSnoc(store.nodes, path, w.taken, child);
        more := delivered + [data.value];
        last := id.value;
      }
    }

    /** send(data): a new sequential child "m..." of the log. */
    method Send(data: string) returns (r: Outcome)
      modifies store
      ensures store.live == old(store.live)
      ensures session !in store.live ==> r == Failure(ConnectionLoss) && store.nodes == old(store.nodes)
      ensures session in store.live && SequentialName(path, "m", old(store.NextSequence(path))) !in old(store.nodes) ==>
        r == Pass && store.nodes == old(store.nodes)[SequentialName(path, "m", old(store.NextSequence(path))) := Node(data, None)]
      ensures session in store.live && SequentialName(path, "m", old(store.NextSequence(path))) in old(store.nodes) ==>
        r == Failure(NodeExists) && store.nodes == old(store.nodes)
    {
      var made := store.CreateSequential(session, path, "m", data, false);
      r := if made.Success? then Pass else Failure(made.error);
    }
  }
}
