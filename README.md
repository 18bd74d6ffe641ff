# A model of the groupz view-synchronous group protocol

The repository implements virtually-synchronous group communication on top of
a ZooKeeper-like coordination store. A process joins a group and receives
*views*, which are numbered member lists. Between two view installations every
member delivers the same messages. All shared state lives in store nodes under
`/vsc/group/<gid>/<vid>`:

- a **membership record**: the comma-joined ids, written once;
- three **watermark tables** (`active`, `blocked`/`leaving`, `entering`): one
  ephemeral child per process, holding the last message id it delivered;
- a **message log**: sequentially named children.

This project models, in Dafny, the decision logic of each process over that
state:

- `groupz` (the finished protocol):
  - `GroupzProcesseMap`: the watermark table.
  - `GroupzMessages`: the log with its cursor and garbage collection.
  - `GroupzProcessList`: the write-once record.
  - `GroupzEndpoint`: the end-point's state machine (CONNECTED, JOINED,
    BLOCKING, BLOCKED, DISCONNECTED).
  - `GroupzGroup`: the older `Group` draft of that state machine, a
    `blocking` flag and `try*` steps.
- `vsc` (the prototype):
  - `VscProcesseMap`: a table that keeps its cache in step and reports
    changes.
  - `VscMessages`: a log that delivers while it updates.
  - `VscProcessList`: a record read at most once.
  - `VscView`: the `View` state machine, with a `leaving` table and own
    entries that start at 0. `src/vsc/Group.java` is a copy of it that
    differs in its constructor, `tryAck` and `leave`.

Shared modules:

- `Coordination`: the store. It is a class over a map from paths to nodes
  (data, ephemeral owner), one sequential counter per parent and the set of
  live sessions. Its `Create`, `CreateSequential`, `GetData`, `SetData`,
  `Delete`, `Exists` and `GetChildren` fail as the ZooKeeper client does:
  NodeExists, NoNode, and ConnectionLoss once the session is closed. `Close`
  removes the session's ephemeral nodes.
- `Decimal`: `Integer.toString`, `Integer.parseInt` over the Java `int`
  range, and the `%010d` sequential suffix.
- `JavaText`: the comma split and join, and `TreeSet` string order.
- `Tables`: the table view of a container, and its minimum.
- `Failure`: the `Result` type and the faults.

The Java objects that update their fields become Dafny classes. A table or
record keeps its `data` cache field. A log keeps its `last` cursor. An
end-point or view keeps `state`/`blocking`, `vid`, and the references to the
current tables, record and log.

Application callbacks (`receive`, `install`, `block`) are appended to an
`events` trace. One pass of the worker thread is a method the caller invokes:

- `GroupzEndpoint.Endpoint.Reconcile` and `Change`;
- `GroupzGroup.Group.Round`;
- `VscView.View.Round`.

Each method is proved against the store state before and after the call.
Functions of the store give its meaning:

- `Table(nodes, p)`: the readable children of a container;
- `Recorded`, `Decided`: what a record holds after proposals;
- `Scan`, `Counting`, `Tracking`: what a log pass delivers and drops;
- `Proposal`, `Survivors`: the next view.

Lemmas prove the promised properties of those functions.

## Model

| member | source | states |
|---|---|---|
| GroupzProcesseMap.Snapshot | src/groupz/ProcesseMap.java:42-54 | the refreshed map holds exactly the readable children with their parsed values; a missing container is NoNode, an unparsable value NumberFormat, a closed session ConnectionLoss |
| GroupzProcesseMap.Least | src/groupz/ProcesseMap.java:75-83 | the loop result is the minimum watermark, Integer.MAX_VALUE for an empty table |
| GroupzProcesseMap.ProcesseMap.Make | src/groupz/ProcesseMap.java:20-31 | the container is created unless it exists (NodeExists tolerated); success exactly when it is then readable, with the cache equal to the table |
| GroupzProcesseMap.ProcesseMap.Update | src/groupz/ProcesseMap.java:42-54 | success iff the session is live and the container exists and is readable; the cache is then the table; a failure leaves the cache unchanged |
| GroupzProcesseMap.ProcesseMap.Create | src/groupz/ProcesseMap.java:56-58 | writes the own ephemeral entry with the decimal value, NodeExists if present; the table gains me to value |
| GroupzProcesseMap.ProcesseMap.Set | src/groupz/ProcesseMap.java:60-65 | succeeds iff the refresh works and the own entry exists (the unboxing); never lowers: a value at most the current one writes nothing, a larger one replaces it; the own entry becomes the maximum |
| GroupzProcesseMap.ProcesseMap.Remove | src/groupz/ProcesseMap.java:67-73 | deletes the own entry, a missing one tolerated; succeeds whenever the session is live, so a second call also succeeds and leaves the table without me |
| GroupzProcesseMap.ProcesseMap.Get | src/groupz/ProcesseMap.java:75-83 | refreshes, then returns the minimum of the table |
| GroupzProcesseMap.ProcesseMap.ProcessSet | src/groupz/ProcesseMap.java:85-88 | refreshes, then returns exactly the children of the container |
| GroupzProcessList.Serialise | src/groupz/ProcessList.java:27-33 | the loop builds the comma-joined ids, and null for an empty list |
| GroupzProcessList.ProcessList.Make | src/groupz/ProcessList.java:19-25 | the record is read if it exists: data is its split value, or unknown when absent |
| GroupzProcessList.ProcessList.Update | src/groupz/ProcessList.java:42-53 | an existing record replaces data with its comma split; an absent one (NoNode) leaves data as it was |
| GroupzProcessList.ProcessList.Propose | src/groupz/ProcessList.java:27-40 | an empty proposal is NullPointer and writes nothing; otherwise the record is created with the proposal unless it exists (first writer wins), and data becomes what the record then holds |
| GroupzProcessList.ProcessList.IsKnown | src/groupz/ProcessList.java:63-65 | true iff the members are known |
| GroupzProcessList.ProcessList.Notify | src/groupz/ProcessList.java:68-74 | the watch re-reads the record; errors are dropped and leave data unchanged |
| GroupzProcessList.Agreement | src/groupz/ProcessList.java:27-47 | with two proposers on one new record, both end up holding the first proposal, which is exactly its ids (join then split is the identity) |
| JavaText.SplitJoined | src/groupz/ProcessList.java:28-47 | splitting the comma-joined ids gives back the ids when they are non-empty and comma-free |
| GroupzMessages.ScanAdvances | src/groupz/Messages.java:44-63 | the cursor never decreases; the delivered ids increase, each lies above the cursor on entry and at most the cursor on exit, and the cursor ends on the last delivered id |
| GroupzMessages.ScanCollectsOnlyOld | src/groupz/Messages.java:50-59 | every child deleted has an id at most low and at most the cursor: nothing above low and nothing undelivered is collected |
| GroupzMessages.ScanDrawsFrom | src/groupz/Messages.java:44-63 | delivered and deleted names come from the listing, are disjoint and stay in sorted order |
| GroupzMessages.ScanStops | src/groupz/Messages.java:44-63 | a name that does not parse ends the pass: later names change nothing |
| GroupzMessages.ScanInOrder | src/groupz/Messages.java:44-63 | over increasing ids, the pass delivers exactly the children above the cursor, in order |
| GroupzMessages.NewerFrom | src/groupz/Messages.java:44-63 | every message counted as unseen is a child of the log |
| GroupzMessages.DigitOrder | src/groupz/Messages.java:44-48 | for equal-length digit strings, TreeSet (string) order is numeric order |
| GroupzMessages.SortedIsNumeric | src/groupz/Messages.java:44-48 | the sequential names sorted as strings have increasing ids, each the decimal value of the name |
| GroupzMessages.AtMostOnce | src/groupz/Messages.java:50-53 | no id is delivered by two passes: what a later pass delivers lies above everything an earlier pass delivered |
| GroupzMessages.Payloads | src/groupz/Messages.java:50-53 | the delivered values are the data of the delivered children, in delivery order |
| GroupzMessages.Messages.Make | src/groupz/Messages.java:18-33 | the log node view/messages is created unless it exists; the cursor starts at -1 |
| GroupzMessages.Messages.Update | src/groupz/Messages.java:44-63 | lists the log in sorted order; the cursor, the deleted children and the payloads returned are those of Scan from the old cursor and low; NumberFormat on a bad name keeps what was done |
| GroupzMessages.Messages.Visit | src/groupz/Messages.java:48-62 | the loop over sorted children has the outcome of Scan: the cursor, the deletions and the payloads |
| GroupzMessages.Messages.Handle | src/groupz/Messages.java:49-60 | one child: deliver it above the cursor, else delete it when at most low (NoNode tolerated), else skip it |
| GroupzMessages.Messages.Send | src/groupz/Messages.java:65-67 | appends one persistent child under the log with the next sequential name and the payload |
| GroupzEndpoint.DisconnectedIsFinal | src/groupz/Endpoint.java:373-408 | DISCONNECTED moves only to itself |
| GroupzEndpoint.DisconnectedForever | src/groupz/Endpoint.java:373-408 | any run of allowed moves that reaches DISCONNECTED stays there |
| GroupzEndpoint.Survivors | src/groupz/Endpoint.java:139-143 | exactly the previous members that blocked, and no more of them than there were members |
| GroupzEndpoint.SurvivorsInOrder | src/groupz/Endpoint.java:140-143 | the survivors keep the previous view's relative order |
| GroupzEndpoint.Proposal | src/groupz/Endpoint.java:139-147 | the proposal holds exactly the blocked previous members and the arrivals |
| GroupzEndpoint.LatestIsMax | src/groupz/Endpoint.java:221-233 | the view found is at least the start, at least every parsed name, and is the start or one of them |
| GroupzEndpoint.LatestView | src/groupz/Endpoint.java:221-233 | the largest numeric child of the group node, -1 when the node is missing or the session is closed (errors swallowed) |
| GroupzEndpoint.NewPid | src/groupz/Endpoint.java:189-193 | creates an ephemeral sequential child of /vsc/process; the id is its ten-digit suffix |
| GroupzEndpoint.BootRecord | src/groupz/Endpoint.java:195-206 | after the boot paths and the pid, the record of view 0 holds what was stored before, or the booting process alone |
| GroupzEndpoint.Receipts | src/groupz/Endpoint.java:312-313 | one receive callback per payload, in order |
| GroupzEndpoint.HandOver | src/groupz/Endpoint.java:113-114 | after the blocked entry is added and the active entry removed, blocked gains me at last and active loses me |
| GroupzEndpoint.Endpoint.Make | src/groupz/Endpoint.java:64-76 | a fresh end-point on a new session, CONNECTED, with no tables and no events |
| GroupzEndpoint.Endpoint.Cleanup | src/groupz/Endpoint.java:393-408 | idempotent: once DISCONNECTED nothing changes; otherwise records the cause, closes the session (its ephemeral nodes vanish) and ends DISCONNECTED |
| GroupzEndpoint.Endpoint.OnEntry | src/groupz/Endpoint.java:373-386 | a call in a required state passes unchanged; any other call disconnects the end-point and throws a GroupException naming the actual and the required states |
| GroupzEndpoint.Endpoint.OnExit | src/groupz/Endpoint.java:388-391 | disconnects with the error as cause and throws "disconnected on internal error" |
| GroupzEndpoint.Endpoint.Leave | src/groupz/Endpoint.java:281-283 | always ends DISCONNECTED with the session closed; a second leave changes neither the state nor the cause |
| GroupzEndpoint.Endpoint.GetProcessId | src/groupz/Endpoint.java:349-352 | the id in JOINED, BLOCKING or BLOCKED; otherwise disconnects and throws |
| GroupzEndpoint.Endpoint.GetCurrentView | src/groupz/Endpoint.java:361-369 | the members in JOINED, BLOCKING or BLOCKED; otherwise disconnects and throws |
| GroupzEndpoint.Endpoint.ReadyToBlock | src/groupz/Endpoint.java:81-85 | false outside JOINED; in JOINED the result is exactly the block guard over the refreshed tables, and readable tables give an answer |
| GroupzEndpoint.Endpoint.Block | src/groupz/Endpoint.java:88-99 | when the guard holds, moves JOINED to BLOCKING and records one block callback; otherwise changes nothing; a store fault disconnects |
| GroupzEndpoint.Endpoint.HandOverEntry | src/groupz/Endpoint.java:113-114 | creates the own blocked entry at last and removes the own active entry; success exactly when the session is live and the blocked entry is new |
| GroupzEndpoint.Endpoint.BlockOk | src/groupz/Endpoint.java:108-124 | only in BLOCKING, else disconnects and throws; moves to BLOCKED; blocked gains me at messages.last; active loses me; a fresh record for vid+1 is read; the view, members, entering and oldblocked tables, the log and the cause stay as they were |
| GroupzEndpoint.Endpoint.Send | src/groupz/Endpoint.java:329-339 | only in JOINED or BLOCKING; appends the payload as the next log child; a closed session disconnects with ConnectionLoss |
| GroupzEndpoint.Endpoint.GetLastStableMessage | src/groupz/Endpoint.java:287-291 | the lesser of the two table minima: no watermark in active or blocked lies below it |
| GroupzEndpoint.Endpoint.ReadyToInstall | src/groupz/Endpoint.java:127-130 | false outside BLOCKED; in BLOCKED exactly the install guard: nobody active, and no log or stability at least messages.last |
| GroupzEndpoint.Endpoint.Collect | src/groupz/Endpoint.java:306 | runs the log update with the stability as low; the delivered values and deletions are those of Scan |
| GroupzEndpoint.Endpoint.Raise | src/groupz/Endpoint.java:315-320 | raises the own watermark to messages.last, in active with no future view and in blocked otherwise |
| GroupzEndpoint.Endpoint.Deliver | src/groupz/Endpoint.java:300-321 | without the delivery guard nothing happens; otherwise the log is scanned from the old cursor with the stability as low, and one receive callback per payload is recorded in order; the store then lacks exactly the collected children, and the own watermark is raised to the new cursor (never lowered) in active with no future view and in blocked otherwise, the rest of that table unchanged |
| GroupzEndpoint.Endpoint.Receive | src/groupz/Endpoint.java:305-320 | the guarded part of deliver: the Delivered relation, the receipts, and the store after collection with the own watermark raised to the new cursor |
| GroupzEndpoint.Endpoint.Hand | src/groupz/Endpoint.java:312-320 | records the receipts, then raises the own watermark in active or blocked to the cursor (the store is the collected one with only that entry rewritten), leaving the cursor and the views unchanged |
| GroupzEndpoint.Endpoint.BuildProposal | src/groupz/Endpoint.java:139-146 | the previous members that blocked, in order, followed by the entering ids in some order; NullPointer without known members |
| GroupzEndpoint.Endpoint.Survive | src/groupz/Endpoint.java:141-143 | the loop keeps exactly the survivors in previous-view order |
| GroupzEndpoint.Endpoint.Enumerate | src/groupz/Endpoint.java:145 | lists every entering id once |
| GroupzEndpoint.Endpoint.ProposeNext | src/groupz/Endpoint.java:139-147 | writes the record of vid+1 with the proposal unless one exists; the future members are the record's |
| GroupzEndpoint.Endpoint.MakeTables | src/groupz/Endpoint.java:153-155 | opens the three tables of the new view, creating the containers |
| GroupzEndpoint.Endpoint.OpenView | src/groupz/Endpoint.java:149-155 | vid goes up by exactly one; oldblocked is the previous blocked table; fresh tables sit under the new view |
| GroupzEndpoint.Endpoint.OpenLog | src/groupz/Endpoint.java:160-161 | creates the log of the new view and the own active entry at -1 |
| GroupzEndpoint.Endpoint.Adopt | src/groupz/Endpoint.java:157-163 | a process in the future view makes it the current one, clears future, has its own active entry at -1 and is JOINED |
| GroupzEndpoint.Endpoint.Seat | src/groupz/Endpoint.java:158-163 | takes the new log and the members, ending JOINED |
| GroupzEndpoint.Endpoint.Advance | src/groupz/Endpoint.java:139-167 | the proposal is adopted with an own active entry at -1, or the process is excluded and disconnected |
| GroupzEndpoint.Endpoint.Settle | src/groupz/Endpoint.java:157-167 | a member of the future view is JOINED in it; an excluded one ends with no log, DISCONNECTED and no cause |
| GroupzEndpoint.Endpoint.Retire | src/groupz/Endpoint.java:169-170 | removes the own entry of the previous blocked table and leaves the new active table alone |
| GroupzEndpoint.Endpoint.Announce | src/groupz/Endpoint.java:169-176 | as written: the removal fails on a closed session, so a disconnected process throws and gets no install callback |
| GroupzEndpoint.Endpoint.Conclude | src/groupz/Endpoint.java:139-176 | as written: a member gets install(vid, members); an excluded process records no callback |
| GroupzEndpoint.Endpoint.Install | src/groupz/Endpoint.java:133-177 | as written: nothing without the install guard; otherwise the next view is adopted (own entry -1, old blocked entry gone, install callback) or the process is excluded with no callback at all |
| GroupzEndpoint.Endpoint.AnnounceCorrected | src/groupz/Endpoint.java:169-176 | skips the removal after cleanup, so install(vid, names) is always called |
| GroupzEndpoint.Endpoint.ConcludeCorrected | src/groupz/Endpoint.java:139-176 | a member gets install(vid, members); an excluded process is DISCONNECTED and gets install(vid, null) |
| GroupzEndpoint.Endpoint.InstallCorrected | src/groupz/Endpoint.java:133-177 | as Install, except that an excluded process succeeds and gets install(vid, null) |
| GroupzEndpoint.Endpoint.Reconcile | src/groupz/Endpoint.java:412-431 | one worker pass (deliver, block, install as written): only allowed state moves, and a fault disconnects |
| GroupzEndpoint.Endpoint.Change | src/groupz/Endpoint.java:420-426 | the block and install steps of the pass keep to the allowed moves |
| GroupzEndpoint.Endpoint.CreatePath | src/groupz/Endpoint.java:181-187 | creates a persistent node, an existing one tolerated |
| GroupzEndpoint.Endpoint.CreatePaths | src/groupz/Endpoint.java:198-201 | creates /vsc, /vsc/group, /vsc/process and the group node, each unless it exists |
| GroupzEndpoint.Endpoint.FindPid | src/groupz/Endpoint.java:189-193 | me is the ten-digit suffix of a new ephemeral sequential process node |
| GroupzEndpoint.Endpoint.FindView | src/groupz/Endpoint.java:221-233 | vid is the largest numeric child of the group node, -1 if there is none or the listing fails |
| GroupzEndpoint.Endpoint.Found | src/groupz/Endpoint.java:205-212 | view 0 is laid out: its record decided with me as the proposal, three tables, a log, and the own active entry at -1 |
| GroupzEndpoint.Endpoint.Open0 | src/groupz/Endpoint.java:205-216 | JOINED in view 0 with the record's members and one install callback |
| GroupzEndpoint.Endpoint.Boot | src/groupz/Endpoint.java:195-219 | vid 0, a new pid, members are the stored record of view 0 or me alone, own active entry -1, JOINED, install(0, members) |
| GroupzEndpoint.Endpoint.Attend | src/groupz/Endpoint.java:251-256 | reads the current record and the next one, opens the three tables, and writes the own entering entry at -1 |
| GroupzEndpoint.Endpoint.Enter | src/groupz/Endpoint.java:249-258 | a new pid, the current and next records read, own entering entry -1, BLOCKED |
| GroupzEndpoint.Endpoint.JoinNew | src/groupz/Endpoint.java:246-247 | boot, or disconnect with the cause and throw "disconnected on internal error" (through onExit) |
| GroupzEndpoint.Endpoint.JoinExisting | src/groupz/Endpoint.java:248-261 | enter an existing group, or disconnect with the cause and throw "disconnected on internal error" (through onExit) |
| GroupzEndpoint.Endpoint.Joining | src/groupz/Endpoint.java:244-275 | boots when no view exists and enters otherwise; a fault disconnects and throws with the cause |
| GroupzEndpoint.Endpoint.Join | src/groupz/Endpoint.java:241-276 | only in CONNECTED, else disconnects and throws; then as Joining |
| GroupzGroup.Group.Make | src/groupz/Group.java:29-33 | a fresh unjoined group object on a new session |
| GroupzGroup.Group.GetStability | src/groupz/Group.java:113-117 | the lesser of the table minima, below no watermark of active or blocked |
| GroupzGroup.Group.ReadyToLeave | src/groupz/Group.java:37-44 | exactly the guard: not blocking, no future, previous blocked table drained, members known, and a member missing from active or someone in blocked or entering |
| GroupzGroup.Group.TryLeave | src/groupz/Group.java:35-48 | under the guard sets blocking and records one block callback; otherwise changes nothing |
| GroupzGroup.Group.BlockOk | src/groupz/Group.java:50-58 | a no-op unless blocking; else clears the flag, blocked gains me at last, active loses me, and nothing else of the store changes; a fresh record for vid+1 is read; a failure leaves the store as it was |
| GroupzGroup.Group.TryEnter | src/groupz/Group.java:60-75 | under the guard (unknown future, nobody active, caught up) proposes blocked together with entering, and adopts what the record holds |
| GroupzGroup.Group.ReadyToInstall | src/groupz/Group.java:80 | exactly the guard: future known, and no log or blocked minimum at least last |
| GroupzGroup.Group.TryInstall | src/groupz/Group.java:77-106 | vid goes up by exactly one when enabled; a member is installed with own active entry -1 and an install callback; an excluded process loses its log and throws "kicket out" |
| GroupzGroup.Group.Shift | src/groupz/Group.java:83-99 | vid+1, oldblocked is the previous blocked table, then install or exclusion |
| GroupzGroup.Group.Conclude | src/groupz/Group.java:101-105 | the own entry of the previous blocked table is removed, then install(vid, members) |
| GroupzGroup.Group.TryAck | src/groupz/Group.java:119-127 | as written: the Delivered relation over the old store; the new store lacks exactly the collected log children and has the own watermark raised to the cursor (never lowered), nothing else changed; no receive callback is recorded |
| GroupzGroup.Group.TryAckCorrected | src/groupz/Group.java:119-131 | the same store change as TryAck, and each collected payload is passed to enqueue, in order |
| GroupzGroup.Group.Round | src/groupz/Group.java:211-225 | one pass (tryAck as written, leave, install, enter): vid grows by at most one and callbacks are only appended |
| GroupzGroup.Group.Send | src/groupz/Group.java:205-209 | rejected with "sending while blocked" while a future view exists; else appends to the log |
| GroupzGroup.Group.Leave | src/groupz/Group.java:201-203 | closes the session: its ephemeral nodes vanish |
| GroupzGroup.Group.Enrol | src/groupz/Group.java:143-150 | creates the paths and a pid; the record of view 0 then decides to the stored one or me alone |
| GroupzGroup.Group.Boot | src/groupz/Group.java:141-161 | view 0 with members the stored record or me alone, own active entry -1, install(0, members) |
| GroupzGroup.Group.Enter | src/groupz/Group.java:188-195 | a new pid, own entering entry -1, the next record opened |
| GroupzGroup.Group.Join | src/groupz/Group.java:183-199 | boots when no view exists, else registers in entering with -1 and opens future |
| VscProcesseMap.ProcesseMap.Make | src/vsc/ProcesseMap.java:20-31 | creates the container unless it exists; the cache agrees with the table |
| VscProcesseMap.ProcesseMap.Update | src/vsc/ProcesseMap.java:42-56 | refreshes the cache; the wake-up flag is true exactly when the cache changed |
| VscProcesseMap.ProcesseMap.Create | src/vsc/ProcesseMap.java:62-65 | writes the own entry and puts me to value into the cache (NullPointer with no cache) |
| VscProcesseMap.ProcesseMap.Set | src/vsc/ProcesseMap.java:67-73 | never lowers the own watermark; a value at most the current one leaves the store alone; a larger one rewrites only the own entry with its decimal and is cached |
| VscProcesseMap.ProcesseMap.Remove | src/vsc/ProcesseMap.java:75-82 | deletes the own entry and drops it from the cache; a missing node is ignored |
| VscProcesseMap.ProcesseMap.RemoveTwice | src/vsc/ProcesseMap.java:75-82 | a second remove also succeeds and changes nothing |
| VscProcesseMap.ProcesseMap.Get | src/vsc/ProcesseMap.java:84-92 | refreshes, then the minimum of the table |
| VscProcesseMap.ProcesseMap.ProcessSet | src/vsc/ProcesseMap.java:94-97 | refreshes, then exactly the children of the container |
| VscProcessList.ProcessList.Make | src/vsc/ProcessList.java:19-25 | the record is read if it exists |
| VscProcessList.ProcessList.Update | src/vsc/ProcessList.java:42-53 | a no-op once known; otherwise reads the record; wakes the owner exactly on the first read that makes the members known |
| VscProcessList.ProcessList.Propose | src/vsc/ProcessList.java:27-40 | creates the record unless it exists, then adopts it unless the members are already known |
| VscProcessList.ProcessList.Processes | src/vsc/ProcessList.java:59-61 | null exactly when the members are not known |
| VscProcessList.ProcessList.IsKnown | src/vsc/ProcessList.java:67-69 | true iff the members are known |
| VscProcessList.Agreement | src/vsc/ProcessList.java:27-53 | first writer wins for both proposers, and a later refresh wakes nobody |
| VscMessages.LogNameOf | src/vsc/Messages.java:43 | the name the store gives message n parses back to n |
| VscMessages.CountingCounts | src/vsc/Messages.java:42-48 | as written, the cursor grows by exactly the number of messages delivered |
| VscMessages.CountingMisorders | src/vsc/Messages.java:42-48 | as written, listing m2, m0, m1 skips m0, and the next pass delivers m2 again |
| VscMessages.TrackingAdvances | src/vsc/Messages.java:40-52 | corrected: the cursor never decreases and the delivered ids rise above it |
| VscMessages.CountingStops | src/vsc/Messages.java:43 | as written, a name that does not parse ends the pass |
| VscMessages.TrackingStops | src/vsc/Messages.java:43 | corrected: a name that does not parse ends the pass |
| VscMessages.UnseenWithin | src/vsc/Messages.java:42-48 | every unseen message is in the listing |
| VscMessages.TrackingInOrder | src/vsc/Messages.java:42-48 | corrected, over rising ids: exactly the unseen messages, in order |
| VscMessages.SortedLogRises | src/vsc/Messages.java:42-48 | store names sorted as strings have rising ids |
| VscMessages.TrackingDeliversUnseen | src/vsc/Messages.java:40-52 | corrected, over the sorted log: exactly the unseen messages in id order, ending on the largest |
| VscMessages.TrackedOnce | src/vsc/Messages.java:40-52 | corrected: no message is delivered by two passes |
| VscMessages.Messages.Make | src/vsc/Messages.java:15-21 | creates the log unless it exists; the cursor starts at -1, then the first update as written (Counting over the listing) delivers the payloads and sets the cursor; a fault in that update is returned after the delivery |
| VscMessages.Messages.MakeCorrected | src/vsc/Messages.java:15-21 | corrected half: the same construction with the first update in name order (Tracking) |
| VscMessages.Messages.GetLast | src/vsc/Messages.java:62-64 | the cursor, a Java int |
| VscMessages.Messages.Update | src/vsc/Messages.java:40-52 | as written: in store listing order, Counting: deliver above the cursor and add one; wakes when the cursor moved |
| VscMessages.Messages.UpdateCorrected | src/vsc/Messages.java:40-52 | corrected: in name order, Tracking: deliver above the cursor and move it to the id |
| VscMessages.Messages.Follow | src/vsc/Messages.java:42-49 | the loop has the outcome of Tracking over the given order |
| VscMessages.Messages.Tick | src/vsc/Messages.java:43-48 | as written, one child: Count |
| VscMessages.Messages.Catch | src/vsc/Messages.java:43-48 | corrected, one child: Track |
| VscMessages.Messages.Send | src/vsc/Messages.java:58-60 | appends a child named m plus the next sequence suffix |
| VscView.LeavingApart | src/vsc/View.java:56-57 | the leaving write does not touch active, and the active removal does not touch leaving |
| VscView.View.Attach | src/vsc/View.java:27-32 | a view on the given session, unjoined |
| VscView.View.Connect | src/vsc/Group.java:28-33 | a view on a fresh session of its own |
| VscView.View.ReadyToLeave | src/vsc/View.java:41-49 | exactly the guard: not blocked, no future, oldleaving drained, members known, and a member missing or leaving or entering non-empty |
| VscView.View.TryLeave | src/vsc/View.java:39-52 | under the guard sets blocked and records one block callback; the copy at src/vsc/Group.java:35-48 is the same |
| VscView.View.BlockOk | src/vsc/View.java:54-62 | a no-op unless blocked; else clears it, leaving gains me at last, active loses me, and nothing else of the store changes; a fresh record for vid+1 is read; the copy at src/vsc/Group.java:50-58 is the same |
| VscView.View.Handover | src/vsc/View.java:57-59 | the new store is the old one with the own leaving entry written at last and the own active entry removed; then the next record is read |
| VscView.View.ReadyToEnter | src/vsc/View.java:66-67 | exactly the guard: unknown future, nobody active, leaving minimum at least last |
| VscView.View.Gather | src/vsc/View.java:68-74 | lists leaving together with entering, each id once |
| VscView.View.TryEnter | src/vsc/View.java:64-79 | under the guard proposes leaving together with entering and adopts what the record holds; the copy at src/vsc/Group.java:60-75 is the same |
| VscView.View.ReadyToInstall | src/vsc/View.java:83-85 | exactly the guard: future known and leaving minimum at least last |
| VscView.View.Seat | src/vsc/View.java:91-99 | opens the tables; a member gets a log and own active entry 0; an excluded process gets "kicket out" |
| VscView.View.TryInstall | src/vsc/View.java:81-110 | vid+1 when enabled; a member is installed with own active entry 0, receipts of the new log, then install(vid, members); an excluded process throws; the copy at src/vsc/Group.java:77-106 is the same |
| VscView.View.Shift | src/vsc/View.java:87-103 | vid+1, oldleaving is the previous leaving table, then install or exclusion |
| VscView.View.Conclude | src/vsc/View.java:105-108 | removes the own entry of the previous leaving table, then install(vid, members) |
| VscView.View.TryAck | src/vsc/View.java:193-200 | raises the own watermark to last, in active without future, else in leaving; the new store has only that entry rewritten, and only when last exceeds it |
| VscView.View.Hear | src/vsc/Messages.java:32-38 | the log watch runs update() as written (Counting over the listing) and records one receive callback per delivered payload, in delivery order; the fault is returned |
| VscView.View.HearCorrected | src/vsc/Messages.java:32-38 | corrected half: the watch with the name-order update (Tracking), so the callbacks are exactly the unseen messages in id order |
| VscView.View.Round | src/vsc/View.java:177-191 | one pass (ack, leave, install, enter): vid grows by at most one and callbacks are only appended |
| VscView.View.Send | src/vsc/View.java:171-175 | rejected with "sending while blocked" while a future view exists; else appends to the log; the copy at src/vsc/Group.java:178-182 is the same |
| VscView.View.Leave | src/vsc/View.java:164-169 | removes only the own entry, from active without future and from leaving otherwise |
| VscView.View.Close | src/vsc/Group.java:174-176 | leave in the copy: closes the session |
| VscView.View.Found | src/vsc/View.java:121-128 | the record of view 0 decided with me, the tables, the log and the own active entry at 0 |
| VscView.View.Boot | src/vsc/View.java:117-132 | the group node must be new (NodeExists otherwise); members are the decided record of view 0; own active entry 0; install(0, members) |
| VscView.View.Arrive | src/vsc/View.java:153-158 | opens the tables and the next record, own entering entry -1 |
| VscView.View.Enter | src/vsc/View.java:152-158 | registers in entering with -1 and opens future |
| VscView.View.Join | src/vsc/View.java:148-162 | boots when no view exists (NodeExists when the group node is already there), else enters at the latest view; the copy at src/vsc/Group.java:158-172 is the same |

## Left out

- Threads, watches, `wakeup`/`notifyAll`/`wait` and `synchronized` are left out. A worker pass (`loop`/`run`) is a method the caller invokes. `join`'s wait for the first view is not modelled: Join returns once the process has booted or registered. The "failed to join" exception, thrown only when that wait sees DISCONNECTED, is therefore not modelled either.
- The ZooKeeper client is replaced by the `Coordination.Store` class. ACLs, parent-existence and child-count checks, versions and timeouts are not modelled. A closed session fails every call with ConnectionLoss.
- Concurrent processes are not modelled. Another process's work shows up only in the store contents a method starts from. Session expiry is `Close`, which drops the session's ephemeral nodes.
- Logging and `System.out` are left out.
- Payload bytes are opaque strings. Application callbacks are an event trace and never throw.
- `messages.xupdate()` in src/vsc/Group.java:115 is not defined in any file. `VscView.View.TryAck` models the rest of that `tryAck`.
- On a failure inside join or boot, the fields Java assigned before the exception are not kept; the model assigns them only at the end. The same holds for the three new tables of `GroupzGroup.Group.TryInstall` (src/groupz/Group.java:89-91): they are assigned all together or not at all, while Java keeps those made before the exception. No later call reads them. A failed join cannot be retried in either version.
- `VscView.View.TryInstall`: what the new log delivers is stated through `VscMessages.Messages.Make`'s contract (the as-written Counting pass over the log), not repeated in TryInstall's own ensures.
- `GroupzProcesseMap.Snapshot`: the NoNode skip of a child that vanished between `getChildren` and `getData` (src/groupz/ProcesseMap.java:48-50) is never reached, because no other process acts during a call.
- `VscView.View.BlockOk`: its success condition also requires both tables to have been read once. Without that, the Java local-map update is a NullPointerException.
- `VscMessages.Messages.Update`: `last++` is unbounded here. The cursor cannot pass the largest id of a store-made name (at most Integer.MAX_VALUE), so no wrap-around is reachable.
- `GroupzEndpoint.Endpoint.Reconcile` and `GroupzEndpoint.Endpoint.Change`: they state only allowed moves and fault handling. The effect of each step is in the contracts of Deliver, Block and Install. The pass runs install() as written, so an excluded end-point's pass fails without an install callback, as `loop()` does.
- `GroupzGroup.Group.Round`, `VscView.View.Round`: they state only that vid grows by at most one and that callbacks are only appended. Each step's effect is in the step's own contract. `GroupzGroup.Group.Round` runs tryAck() as written (`TryAck`), so its pass makes no receive callback.
- src/groupz/Application.java, src/groupz/Receiver.java, src/groupz/GroupException.java and src/groupz/ApplicationException.java are interfaces or wrappers. They are the `Event` and `Exception` datatypes here.

## Findings

| source | as written | input that shows it | evidently intended | confidence | as-written member | corrected member |
|---|---|---|---|---|---|---|
| src/groupz/Endpoint.java:164-176 | an excluded process runs `cleanup(null)`, which closes the session; then `oldblocked.remove()` throws, so the exception escapes install and `recv.install(vid, null)` is never called | a BLOCKED process not in the decided next view, with a previous blocked table | the application is told of its exclusion with install(vid, null) | not executed | GroupzEndpoint.Endpoint.Install | GroupzEndpoint.Endpoint.InstallCorrected |
| src/groupz/Group.java:119-127 | `messages.update(getStability())` returns the payloads, and they are dropped: `enqueue` is never called | a JOINED group whose log has one message above the cursor: the cursor and watermark advance and no receive is recorded | pass each returned payload to `enqueue` (`recv.receive`) | not executed | GroupzGroup.Group.TryAck | GroupzGroup.Group.TryAckCorrected |
| src/vsc/Messages.java:40-52 | children are visited in the order `getChildren` returns, and the cursor goes up by one per delivered message | listing m2, m0, m1 from cursor -1 delivers m2 and m1 and skips m0; the next pass delivers m2 again (lemma VscMessages.CountingMisorders) | visit the children in name order and move the cursor to each delivered id, so a pass delivers exactly the unseen messages in id order (lemmas VscMessages.TrackingDeliversUnseen, VscMessages.TrackedOnce) | not executed | VscMessages.Messages.Update | VscMessages.Messages.UpdateCorrected |

The worker passes also run the code as written: `GroupzEndpoint.Endpoint.Change` calls `Install`, and `GroupzGroup.Group.Round` calls `TryAck`. The vsc view runs the log as written: `VscMessages.Messages.Make` (used by TryInstall and Boot) and `VscView.View.Hear` call `Update`. Their corrected halves, `VscMessages.Messages.MakeCorrected` and `VscView.View.HearCorrected`, call `UpdateCorrected`.
