/** The message log of one view in the groupz protocol
    (src/groupz/Messages.java): messages are sequential children of
    view/messages, and a cursor remembers the largest id delivered so far. */
module GroupzMessages {
  import opened Failure
  import Decimal
  import opened Coordination
  import opened JavaText

  /** The id a child name denotes, when parseInt accepts it. */
  function Id(c: string): Option<int> { Decimal.ParseInt(c) }

  /** What one update(low) pass over names (in the order visited) does, starting
      from cursor last: the names delivered, the names garbage-collected, the
      final cursor, and whether the pass got to the end without a
      NumberFormatException. */
  datatype Sweep = Sweep(taken: seq<string>, dropped: seq<string>, last: int, complete: bool)

  function Scan(names: seq<string>, last: int, low: int): Sweep
    decreases |names|
  {
    if names == [] then Sweep([], [], last, true)
    else Step(Scan(names[..|names| - 1], last, low), names[|names| - 1], low)
  }

  /** Visiting child c. */
  function Step(w: Sweep, c: string, low: int): Sweep {
    if !w.complete then w
    else match Id(c)
      case None => w.(complete := false)
      case Some(id) =>
        if id > w.last then w.(taken := w.taken + [c], last := id)
        else if id <= low then w.(dropped := w.dropped + [c])
        else w
  }

  predicate IdsBetween(names: seq<string>, lo: int, hi: int) {
    forall i | 0 <= i < |names| :: Id(names[i]).Some? && lo < Id(names[i]).value <= hi
  }

  predicate IdsIncrease(names: seq<string>) {
    forall i, j | 0 <= i < j < |names| :: Id(names[i]).Some? && Id(names[j]).Some? && Id(names[i]).value < Id(names[j]).value
  }

  /** The cursor only advances; the messages delivered have increasing ids,
      each above the cursor on entry and at most the cursor on exit, and the
      cursor ends on the id of the last one delivered. */
  lemma {:induction false} ScanAdvances(names: seq<string>, last: int, low: int)
    ensures var w := Scan(names, last, low);
      w.last >= last && IdsBetween(w.taken, last, w.last) && IdsIncrease(w.taken) &&
      (w.taken == [] ==> w.last == last) &&
      (w.taken != [] ==> Id(w.taken[|w.taken| - 1]) == Some(w.last))
    decreases |names|
  {
    if names != [] {
      ScanAdvances(names[..|names| - 1], last, low);
    }
  }

  /** Garbage collection never touches a message above low, nor one not yet
      delivered: every name dropped has an id at most low and at most the cursor. */
  lemma {:induction false} ScanCollectsOnlyOld(names: seq<string>, last: int, low: int)
    ensures var w := Scan(names, last, low);
      forall i | 0 <= i < |w.dropped| :: Id(w.dropped[i]).Some? && Id(w.dropped[i]).value <= low &&
        Id(w.dropped[i]).value <= w.last
    decreases |names|
  {
    if names != [] {
      ScanCollectsOnlyOld(names[..|names| - 1], last, low);
      ScanAdvances(names[..|names| - 1], last, low);
    }
  }

  /** Delivered and dropped names come from the names visited, each at most once. */
  lemma {:induction false} ScanDrawsFrom(names: seq<string>, last: int, low: int)
    requires Ascending(names)
    ensures var w := Scan(names, last, low);
      Elements(w.taken) <= Elements(names) && Elements(w.dropped) <= Elements(names) &&
      Elements(w.taken) !! Elements(w.dropped) && Ascending(w.taken) && Ascending(w.dropped)
    decreases |names|
  {
    if names != [] {
      var init := names[..|names| - 1];
      ScanDrawsFrom(init, last, low);
      var c := names[|names| - 1];
      var w := Scan(init, last, low);
      assert Elements(names) == Elements(init) + {c};
      assert c !in Elements(init) by {
        if c in init {
          var k :| 0 <= k < |init| && init[k] == c;
          assert Less(names[k], names[|names| - 1]);
          LessIrreflexive(c);
        }
      }
      assert forall x | x in Elements(w.taken) :: Less(x, c) by {
        forall x | x in Elements(w.taken) ensures Less(x, c) {
          var k :| 0 <= k < |init| && init[k] == x;
        }
      }
      assert forall x | x in Elements(w.dropped) :: Less(x, c) by {
        forall x | x in Elements(w.dropped) ensures Less(x, c) {
          var k :| 0 <= k < |init| && init[k] == x;
        }
      }
    }
  }

  /** Once a pass has stopped on a bad name, later names change nothing. */
  lemma {:induction false} ScanStops(names: seq<string>, k: nat, last: int, low: int)
    requires k <= |names| && !Scan(names[..k], last, low).complete
    ensures Scan(names, last, low) == Scan(names[..k], last, low)
    decreases |names| - k
  {
    if k < |names| {
      assert names[..k + 1][..k] == names[..k];
      ScanStops(names, k + 1, last, low);
    } else {
      assert names[..k] == names;
    }
  }

  /** The names in names whose id exceeds last. */
  function Newer(names: seq<string>, last: int): seq<string>
    requires forall i | 0 <= i < |names| :: Id(names[i]).Some?
  {
    if names == [] then []
    else
      var c := names[|names| - 1];
      Newer(names[..|names| - 1], last) + (if Id(c).value > last then [c] else [])
  }

  /** The names in names whose id is at most bound. */
  function Older(names: seq<string>, bound: int): seq<string>
    requires forall i | 0 <= i < |names| :: Id(names[i]).Some?
  {
    if names == [] then []
    else
      var c := names[|names| - 1];
      Older(names[..|names| - 1], bound) + (if Id(c).value <= bound then [c] else [])
  }

  /** When the names are visited in increasing id order, a pass delivers
      exactly the messages newer than the cursor, and collects exactly those
      at or below both the cursor on entry and low. */
  lemma {:induction false} ScanInOrder(names: seq<string>, last: int, low: int)
    requires IdsIncrease(names) && forall i | 0 <= i < |names| :: Id(names[i]).Some?
    ensures var w := Scan(names, last, low);
      w.complete && w.taken == Newer(names, last) &&
      w.dropped == Older(names, if last < low then last else low)
    decreases |names|
  {
    if names != [] {
      var init := names[..|names| - 1];
      assert forall i | 0 <= i < |init| :: init[i] == names[i];
      ScanInOrder(init, last, low);
      ScanAdvances(init, last, low);
      CursorBelowNext(names, last, low);
      assert Scan(names, last, low) == Step(Scan(init, last, low), names[|names| - 1], low);
    }
  }

  /** In that pass, the cursor reached before the last name is the cursor on
      entry or the id of an earlier, hence smaller, name. */
  lemma CursorBelowNext(names: seq<string>, last: int, low: int)
    requires names != [] && IdsIncrease(names) && forall i | 0 <= i < |names| :: Id(names[i]).Some?
    requires Scan(names[..|names| - 1], last, low).taken == Newer(names[..|names| - 1], last)
    ensures var w := Scan(names[..|names| - 1], last, low);
      w.last == last || w.last < Id(names[|names| - 1]).value
  {
    var init := names[..|names| - 1];
    ScanAdvances(init, last, low);
    var w := Scan(init, last, low);
    if w.taken != [] {
      var t := w.taken[|w.taken| - 1];
      assert t in Elements(Newer(init, last));
      NewerFrom(init, last, t);
      var k :| 0 <= k < |init| && init[k] == t;
      assert Id(names[k]).value < Id(names[|names| - 1]).value;
    }
  }

  lemma {:induction false} NewerFrom(names: seq<string>, last: int, x: string)
    requires forall i | 0 <= i < |names| :: Id(names[i]).Some?
    requires x in Elements(Newer(names, last))
    ensures x in names
    decreases |names|
  {
    if names != [] {
      var init := names[..|names| - 1];
      if x in Elements(Newer(init, last)) {
        NewerFrom(init, last, x);
      }
    }
  }

  /** compareTo on equal-length digit strings is numeric order. */
  lemma {:induction false} DigitOrder(a: string, b: string)
    requires |a| == |b| && Decimal.AllDigits(a) && Decimal.AllDigits(b)
    ensures Less(a, b) <==> Decimal.Value(a) < Decimal.Value(b)
    decreases |a|
  {
    if a != [] {
      Decimal.ValueFromLeft(a);
      Decimal.ValueFromLeft(b);
      var p := Decimal.Pow10(|a| - 1);
      var da, db := Decimal.DigitValue(a[0]), Decimal.DigitValue(b[0]);
      if a[0] == b[0] {
        DigitOrder(a[1..], b[1..]);
      } else {
        Decimal.ValueBound(a[1..]);
        Decimal.ValueBound(b[1..]);
        if da < db {
          Positional(da, db, p, Decimal.Value(a[1..]), Decimal.Value(b[1..]));
        } else {
          Positional(db, da, p, Decimal.Value(b[1..]), Decimal.Value(a[1..]));
        }
      }
    }
  }

  /** A higher leading digit outweighs whatever follows it. */
  lemma Positional(da: int, db: int, p: int, x: int, y: int)
    requires 0 <= da < db && 0 <= x < p && 0 <= y
    ensures da * p + x < db * p + y
  {
    var k := db - da;
    assert db * p == da * p + k * p;
    assert k * p >= p by { assert k >= 1 && p >= 0; assert (k - 1) * p >= 0; }
  }

  /** The names the store produces for a log: ten digits, within the int range. */
  predicate SequentialNames(names: seq<string>) {
    forall i | 0 <= i < |names| ::
      |names[i]| == 10 && Decimal.AllDigits(names[i]) && Decimal.Value(names[i]) <= Decimal.INT_MAX
  }

  lemma SequentialNameOf(n: nat)
    requires n <= Decimal.INT_MAX
    ensures SequentialNames([Decimal.Pad10(n)])
  {
    Decimal.Pad10Exact(n);
  }

  /** Sorting sequential names as strings (the TreeSet) sorts them by number. */
  lemma SortedIsNumeric(names: seq<string>)
    requires Ascending(names) && SequentialNames(names)
    ensures IdsIncrease(names) && forall i | 0 <= i < |names| :: Id(names[i]) == Some(Decimal.Value(names[i]))
  {
    forall i | 0 <= i < |names| ensures Id(names[i]) == Some(Decimal.Value(names[i])) {
    }
    forall i, j | 0 <= i < j < |names| ensures Decimal.Value(names[i]) < Decimal.Value(names[j]) {
      DigitOrder(names[i], names[j]);
    }
  }

  /** No message is delivered by two passes: what a later pass delivers lies
      strictly above everything an earlier one did. */
  lemma AtMostOnce(first: seq<string>, second: seq<string>, last: int, low1: int, low2: int)
    ensures var w1 := Scan(first, last, low1);
      var w2 := Scan(second, w1.last, low2);
      forall i, j | 0 <= i < |w1.taken| && 0 <= j < |w2.taken| ::
        Id(w1.taken[i]).Some? && Id(w2.taken[j]).Some? && Id(w1.taken[i]).value < Id(w2.taken[j]).value
  {
    ScanAdvances(first, last, low1);
    ScanAdvances(second, Scan(first, last, low1).last, low2);
  }

  /** The data of the children named, in order. */
  function Payloads(nodes: map<Path, Node>, p: Path, names: seq<string>): (r: seq<string>)
    requires forall i | 0 <= i < |names| :: p + [names[i]] in nodes
    ensures |r| == |names| && forall i | 0 <= i < |names| :: r[i] == nodes[p + [names[i]]].data
  {
    if names == [] then [] else Payloads(nodes, p, names[..|names| - 1]) + [nodes[p + [names[|names| - 1]]].data]
  }

  lemma PayloadsSnoc(nodes: map<Path, Node>, p: Path, names: seq<string>, c: string)
    requires forall i | 0 <= i < |names| :: p + [names[i]] in nodes
    requires p + [c] in nodes
    ensures forall i | 0 <= i < |names + [c]| :: p + [(names + [c])[i]] in nodes
    ensures Payloads(nodes, p, names + [c]) == Payloads(nodes, p, names) + [nodes[p + [c]].data]
  {
    assert (names + [c])[..|names|] == names;
  }

  function Under(p: Path, names: seq<string>): set<Path> {
    set c | c in names :: p + [c]
  }

  /** The child visited next in a pass over ascending names is still present:
      it exists in the store, and it is not among the names dropped so far. */
  lemma NextChild(sorted: seq<string>, i: nat, start: int, low: int, p: Path, nodes: map<Path, Node>)
    requires Ascending(sorted) && i < |sorted| && Elements(sorted) == Children(nodes, p)
    ensures Scan(sorted[..i + 1], start, low) == Step(Scan(sorted[..i], start, low), sorted[i], low)
    ensures p + [sorted[i]] in nodes
    ensures p + [sorted[i]] !in Under(p, Scan(sorted[..i], start, low).dropped)
  {
    var child := sorted[i];
    assert sorted[..i + 1][..i] == sorted[..i];
    var w := Scan(sorted[..i], start, low);
    assert Ascending(sorted[..i]);
    ScanDrawsFrom(sorted[..i], start, low);
    ChildExists(nodes, p, child);
    assert child !in Elements(sorted[..i]) by {
      if child in sorted[..i] {
        var k :| 0 <= k < i && sorted[k] == child;
        LessIrreflexive(child);
      }
    }
    forall d | d in w.dropped ensures p + [d] != p + [child] {
      assert (p + [d])[|p|] == d;
    }
  }

  lemma UnderSnoc(p: Path, s: seq<string>, d: string)
    ensures Under(p, s + [d]) == Under(p, s) + {p + [d]}
  {
  }

  /** Deleting child d after those in s leaves the store without all of s + [d]. */
  lemma DropSnoc(nodes: map<Path, Node>, p: Path, s: seq<string>, d: string)
    ensures (nodes - Under(p, s)) - {p + [d]} == nodes - Under(p, s + [d])
  {
    UnderSnoc(p, s, d);
  }

  class Messages {
    const store: Store
    const session: nat
    const path: Path
    /** The id of the last message delivered, -1 before the first. */
    var last: Decimal.JavaInt

    constructor Attach(store: Store, session: nat, path: Path)
      ensures this.store == store && this.session == session && this.path == path
      ensures last == -1
    {
      this.store, this.session, this.path := store, session, path;
      last := -1;
    }

    /** new Messages(view, ...): the log lives under view/messages; creating
        it when it exists already is fine. */
    static method Make(store: Store, session: nat, view: Path) returns (r: Result<Messages, Fault>)
      modifies store
      ensures store.live == old(store.live) && store.counters == old(store.counters)
      ensures session !in store.live ==> r == Failure(ConnectionLoss) && store.nodes == old(store.nodes)
      ensures session in store.live ==> r.Success?
      ensures session in store.live && view + ["messages"] in old(store.nodes) ==> store.nodes == old(store.nodes)
      ensures session in store.live && view + ["messages"] !in old(store.nodes) ==>
        store.nodes == old(store.nodes)[view + ["messages"] := Node("", None)]
      ensures r.Success? ==>
        (fresh(r.value) && r.value.last == -1 &&
         r.value.store == store && r.value.session == session && r.value.path == view + ["messages"])
    {
      var made := store.Create(session, view + ["messages"], "", false);
      if made.Failure? && made.error != NodeExists {
        return Failure(made.error);
      }
      var m := new Messages.Attach(store, session, view + ["messages"]);
      r := Success(m);
    }

    function GetLast(): int
      reads this
    {
      last
    }

    /** update(low): visit the children in name order; deliver every one whose
        id is above the cursor (moving the cursor to it) and delete every other
        one at or below low, a concurrent delete being harmless. A name that is
        not a number stops the pass with a NumberFormatException, leaving the
        cursor where it got to. */
    method Update(low: int) returns (r: Result<seq<string>, Fault>, ghost names: seq<string>)
      modifies this, store
      ensures store.live == old(store.live) && store.counters == old(store.counters)
      ensures session !in store.live ==> r == Failure(ConnectionLoss) && last == old(last) && store.nodes == old(store.nodes)
      ensures session in store.live && path !in old(store.nodes) ==>
        r == Failure(NoNode) && last == old(last) && store.nodes == old(store.nodes)
      ensures session in store.live && path in old(store.nodes) ==>
        Ascending(names) && Elements(names) == Children(old(store.nodes), path) &&
        var w := Scan(names, old(last), low);
        last == w.last &&
        store.nodes == old(store.nodes) - Under(path, w.dropped) &&
        (forall i | 0 <= i < |w.taken| :: path + [w.taken[i]] in old(store.nodes)) &&
        r == if w.complete then Success(Payloads(old(store.nodes), path, w.taken)) else Failure(NumberFormat)
    {
      names := [];
      var listing := store.GetChildren(session, path);
      if listing.Failure? {
        return Failure(listing.error), names;
      }
      var sorted := TreeSetOf(listing.value);
      names := sorted;
      r := Visit(sorted, low);
    }

    /** The loop of update(low) over the children, sorted. */
    method Visit(sorted: seq<string>, low: int) returns (r: Result<seq<string>, Fault>)
      requires session in store.live
      requires Ascending(sorted) && Elements(sorted) == Children(store.nodes, path)
      modifies this, store
      ensures store.live == old(store.live) && store.counters == old(store.counters)
      ensures var w := Scan(sorted, old(last), low);
        last == w.last &&
        store.nodes == old(store.nodes) - Under(path, w.dropped) &&
        (forall i | 0 <= i < |w.taken| :: path + [w.taken[i]] in old(store.nodes)) &&
        r == if w.complete then Success(Payloads(old(store.nodes), path, w.taken)) else Failure(NumberFormat)
    {
      ghost var before := store.nodes;
      ghost var start := last;
      ghost var w := Scan([], start, low);
      var data: seq<string> := [];
      var i, stopped := 0, false;
      while i < |sorted| && !stopped
        invariant 0 <= i <= |sorted|
        invariant session in store.live && store.live == old(store.live) && store.counters == old(store.counters)
        invariant w == Scan(sorted[..i], start, low)
        invariant stopped == !w.complete && last == w.last
        invariant store.nodes == before - Under(path, w.dropped)
        invariant forall k | 0 <= k < |w.taken| :: path + [w.taken[k]] in before
        invariant data == Payloads(before, path, w.taken)
      {
        NextChild(sorted, i, start, low, path, before);
        var value, stop := Handle(sorted[i], low, w, before);
        if value.Some? {
          PayloadsSnoc(before, path, w.taken, sorted[i]);
          data := data + [value.value];
        }
        w := Step(w, sorted[i], low);
        i, stopped := i + 1, stop;
      }
      if stopped {
        ScanStops(sorted, i, start, low);
        return Failure(NumberFormat);
      }
      assert sorted[..|sorted|] == sorted;
      r := Success(data);
    }

    /** The body of that loop for one child: deliver it if its id is above
        the cursor, delete it if at or below low; stop on a name that is not
        a number. */
    method Handle(child: string, low: int, ghost w: Sweep, ghost before: map<Path, Node>)
      returns (value: Option<string>, stop: bool)
      requires session in store.live && w.complete && last == w.last
      requires store.nodes == before - Under(path, w.dropped)
      requires path + [child] in before && path + [child] !in Under(path, w.dropped)
      modifies this, store
      ensures store.live == old(store.live) && store.counters == old(store.counters)
      ensures var v := Step(w, child, low);
        stop == !v.complete && last == v.last && store.nodes == before - Under(path, v.dropped) &&
        value == (if v.taken == w.taken then None else Some(before[path + [child]].data)) &&
        (v.taken != w.taken ==> v.taken == w.taken + [child])
    {
      var id := Decimal.ParseInt(child);
      if id.None? {
        return None, true;
      }
      stop := false;
      if id.value > last {
        var data := store.GetData(session, path + [child]);
        value := Some(data.value);
        last := id.value;
      } else {
        value := None;
        if id.value <= low {
          var gone := store.Delete(session, path + [child]);
          DropSnoc(before, path, w.dropped, child);
        }
      }
    }

    /** send(data): a new sequential child of the log. */
    method Send(data: string) returns (r: Outcome)
      modifies store
      ensures store.live == old(store.live)
      ensures session !in store.live ==> r == Failure(ConnectionLoss) && store.nodes == old(store.nodes)
      ensures session in store.live && SequentialName(path, "", old(store.NextSequence(path))) !in old(store.nodes) ==>
        r == Pass && store.nodes == old(store.nodes)[SequentialName(path, "", old(store.NextSequence(path))) := Node(data, None)]
      ensures session in store.live && SequentialName(path, "", old(store.NextSequence(path))) in old(store.nodes) ==>
        r == Failure(NodeExists) && store.nodes == old(store.nodes)
    {
      var made := store.CreateSequential(session, path, "", data, false);
      r := if made.Success? then Pass else Failure(made.error);
    }
  }
}
