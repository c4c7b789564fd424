/** What the application guarantees over all its runs. */
module SessionTheorems {
  import opened Messages
  import P = Protocol
  import I = ProtocolInvariant
  import T = ProtocolTheorems
  import opened Boxes
  import opened Painters
  import opened Apps
  import opened Handles
  import opened Sessions
  import opened SessionInvariant

  ghost predicate IsRun(s: State, run: seq<Action>)
    decreases |run|
  {
    run == [] || (Sound(s) && Enabled(s, run[0]) && IsRun(Next(s, run[0]), run[1..]))
  }

  ghost function Final(s: State, run: seq<Action>): State
    requires IsRun(s, run)
    decreases |run|
  {
    if run == [] then s else Final(Next(s, run[0]), run[1..])
  }

  ghost predicate Reachable(capacity: nat, s: State) {
    exists pool, run :: StartsWith(pool) && IsRun(Init(capacity, pool), run) && Final(Init(capacity, pool), run) == s
  }

  /** The saved pool is none, or one that Home.save has written. */
  ghost predicate StartsWith(pool: Option<seq<Record>>) {
    PoolOk(SavedRecords(pool))
  }

  lemma {:induction false} RunKeepsInv(s: State, run: seq<Action>)
    requires Inv(s) && IsRun(s, run)
    ensures Inv(Final(s, run))
    decreases |run|
  {
    if run != [] {
      InvKept(s, run[0]);
      RunKeepsInv(Next(s, run[0]), run[1..]);
    }
  }

  lemma ReachableInv(capacity: nat, s: State)
    requires Reachable(capacity, s)
    ensures Inv(s)
  {
    var pool, run :| StartsWith(pool) && IsRun(Init(capacity, pool), run) && Final(Init(capacity, pool), run) == s;
    InitInv(capacity, pool);
    RunKeepsInv(Init(capacity, pool), run);
  }

  lemma Started(capacity: nat, pool: Option<seq<Record>>) returns (s: State)
    requires PoolOk(SavedRecords(pool))
    ensures s == Init(capacity, pool) && Reachable(capacity, s)
  {
    s := Init(capacity, pool);
    assert StartsWith(pool) && IsRun(s, []) && Final(s, []) == s;
  }

  /** The process may die at any moment: what the next one finds is a start as well. */
  lemma RestartIsAStart(capacity: nat, s: State)
    requires Reachable(capacity, s)
    ensures Reachable(capacity, Init(capacity, s.app.pool))
  {
    ReachableInv(capacity, s);
    var t := Started(capacity, s.app.pool);
  }

  /** At most one native engine exists. It is the one of the active box, whose status
      thread has been started; and the static pointer, when set, leads to it. */
  lemma SingleEngine(capacity: nat, s: State)
    requires Reachable(capacity, s)
    ensures |s.engines| <= 1
    ensures forall h :: h in s.engines <==> h != 0 && exists id :: id in s.app.objs && s.app.objs[id].rcu == h
    ensures forall id :: id in s.app.objs && s.app.objs[id].rcu != 0 ==>
      s.app.active == Some(id) && s.app.objs[id].statusLooper
    ensures s.current != 0 ==> s.current == ActiveHandle(s.app) && s.current in s.engines
  {
    ReachableInv(capacity, s);
    var h := ActiveHandle(s.app);
    if h == 0 {
      assert |s.engines| == 0;
    } else {
      assert s.app.objs[s.app.active.value].rcu == h;
    }
  }

  /** Every engine of every run is an engine as ProtocolTheorems knows it. */
  lemma EnginesBehave(capacity: nat, s: State, h: nat)
    requires Reachable(capacity, s) && h in s.engines
    ensures I.Inv(s.engines[h])
  {
    ReachableInv(capacity, s);
    assert EngineOk(s.engines, h);
  }

  /** Between two events only the active box of the registry has the focus. */
  lemma SingleFocus(capacity: nat, s: State)
    requires Reachable(capacity, s) && s.ui.Listening?
    ensures forall id :: id in s.app.registry ==>
      id in s.app.objs && (s.app.objs[id].focus <==> s.app.active == Some(id))
  {
    ReachableInv(capacity, s);
  }

  /** No two boxes of the registry share an address and a port; each has a colour, and
      the painter has counted it. */
  lemma RegistryUnique(capacity: nat, s: State)
    requires Reachable(capacity, s)
    ensures forall id :: id in s.app.registry ==> id in s.app.objs && Dressed(s.app.objs[id], s.app.table)
    ensures forall i, j :: 0 <= i < j < |s.app.registry| ==>
      var a, b := s.app.objs[s.app.registry[i]], s.app.objs[s.app.registry[j]];
      a.address != b.address || a.port != b.port
  {
    ReachableInv(capacity, s);
    var bs := Values(s.app.objs, s.app.registry);
    assert forall i :: 0 <= i < |bs| ==> bs[i] == s.app.objs[s.app.registry[i]];
    assert forall i, j :: 0 <= i < j < |bs| ==> !Same(bs[i], bs[j]);
  }

  // ---- the colours

  lemma StepKeepsTally(s: State, x: Action)
    requires Inv(s) && Enabled(s, x) && Tallied(s.app)
    ensures Tallied(Next(s, x).app)
  {
    match x
    case Resume => ResumeKeepsTally(s);
    case Pause => SameColorsKeepTally(s.app, Conceal(s.app));
    case GoNext => SwitchToKeepsTally(s, NextReachable(Values(s.app.objs, s.app.registry), ActiveBox(s.app)));
    case GoPrevious => SwitchToKeepsTally(s, PreviousReachable(Values(s.app.objs, s.app.registry), ActiveBox(s.app)));
    case Detected(address, port) => DetectedKeepsTally(s, address, port);
    case Deliver => SameColorsKeepTally(s.app, Next(s, Deliver).app);
    case FinishDisconnect => ReturnKeepsTally(s);
    case FinishConnect =>
    case Engine(_, _) =>
  }

  lemma SwitchToKeepsTally(s: State, k: Option<nat>)
    requires Sound(s) && Tallied(s.app)
    ensures Tallied(SwitchTo(s, k).app)
  {
    ReleaseKeepsTally(s.app);
  }

  lemma ResumeKeepsTally(s: State)
    requires Inv(s) && Enabled(s, Resume) && Tallied(s.app)
    ensures Tallied(Next(s, Resume).app)
  {
    var ids := NewIds(s.nextId, |SavedRecords(s.app.pool)|);
    DiscloseKeepsTally(s.app, ids);
    DiscloseKeepsRegistry(s.app, ids);
    ReleaseKeepsTally(Disclose(s.app, ids).0);
  }

  lemma DetectedKeepsTally(s: State, address: string, port: int)
    requires Inv(s) && Enabled(s, Detected(address, port)) && Tallied(s.app)
    ensures Tallied(Next(s, Detected(address, port)).app)
  {
    var made := Made(s, address, port);
    MadeKeepsRegistry(s.app, s.nextId, Sniffed(address, port));
    SameColorsKeepTally(s.app, made);
    DetectKeepsTally(made, s.nextId);
    DetectCloses(made, s.nextId);
    ReleaseKeepsTally(Detect(made, s.nextId).0);
  }

  lemma ReturnKeepsTally(s: State)
    requires Inv(s) && Enabled(s, FinishDisconnect) && Tallied(s.app)
    ensures Tallied(Next(s, FinishDisconnect).app)
  {
    var target := if s.ui.Switching? then s.ui.target else 0;
    SwitchKeepsTally(s.app, target, s.nextHandle);
    SwitchKeepsTally(s.app, target, 0);
  }

  lemma {:induction false} RunKeepsTally(s: State, run: seq<Action>)
    requires Inv(s) && IsRun(s, run) && Tallied(s.app)
    ensures Tallied(Final(s, run).app)
    decreases |run|
  {
    if run != [] {
      StepKeepsTally(s, run[0]);
      InvKept(s, run[0]);
      RunKeepsTally(Next(s, run[0]), run[1..]);
    }
  }

  /** In every run the painter's count of a colour is the number of boxes that the
      process has made with it, those included that were concealed since. */
  lemma CountsAreTallied(capacity: nat, s: State)
    requires Reachable(capacity, s)
    ensures Tallied(s.app)
    ensures Exhausted(s.app.table) <==> forall c :: c in PALETTE ==> Wearers(s.app.objs, c) != {}
  {
    var pool, run :| StartsWith(pool) && IsRun(Init(capacity, pool), run) && Final(Init(capacity, pool), run) == s;
    InitInv(capacity, pool);
    RunKeepsTally(Init(capacity, pool), run);
    ReachableInv(capacity, s);
    forall c | c in PALETTE ensures Unused(s.app.table, c) <==> Wearers(s.app.objs, c) == {} {
      assert c in s.app.table;
    }
  }

  /** A box detected for the first time shares a known box's colour only when the
      palette is used up. */
  lemma NewColorIsFresh(capacity: nat, s: State, address: string, port: int, k: nat)
    requires Reachable(capacity, s) && Enabled(s, Detected(address, port)) && k in s.app.registry
    requires forall id :: id in s.app.registry && id in s.app.objs ==> !Same(Sniffed(address, port), s.app.objs[id])
    ensures Sound(s) && k in s.app.objs
    ensures var t := Next(s, Detected(address, port));
      && s.nextId in t.app.objs
      && (t.app.objs[s.nextId].color == s.app.objs[k].color ==> Exhausted(s.app.table))
  {
    ReachableInv(capacity, s);
    var made := Made(s, address, port);
    MadeKeepsRegistry(s.app, s.nextId, Sniffed(address, port));
    ClashOnlyOnExhaustion(made, s.nextId, k);
  }

  // ---- statuses

  lemma {:induction false} HandlesAscend(log: seq<Post>, i: nat, j: nat)
    requires Sectioned(log) && i <= j < |log|
    ensures log[i].handle <= log[j].handle
    ensures log[i].handle < log[j].handle ==>
      exists k :: i <= k < j && log[k] == Post(log[i].handle, "EXIT")
    decreases j - i
  {
    if i < j {
      HandlesAscend(log, i + 1, j);
    }
  }

  /** The statuses of one engine reach the UI queue before any status of the next one,
      and "EXIT" stands between them. */
  lemma StatusesBySession(capacity: nat, s: State, i: nat, j: nat)
    requires Reachable(capacity, s) && i < j < |s.log|
    ensures s.log[i].handle <= s.log[j].handle
    ensures s.log[i].handle < s.log[j].handle ==>
      exists k :: i <= k < j && s.log[k] == Post(s.log[i].handle, "EXIT")
    ensures s.log[i].name == "EXIT" ==> s.log[i].handle < s.log[j].handle
  {
    ReachableInv(capacity, s);
    HandlesAscend(s.log, i, j);
    if s.log[i].name == "EXIT" {
      HandlesAscend(s.log, i + 1, j);
    }
  }

  /** The last status that the engine of the active box has reported. */
  function LastReport(s: State): Option<string> {
    var h := ActiveHandle(s.app);
    if h in s.engines && s.engines[h].posted != [] then
      Some(s.engines[h].posted[|s.engines[h].posted| - 1])
    else None
  }

  /** What the end of the queue says, given what the engine h has posted. */
  lemma VerdictOfLog(log: seq<Post>, base: nat, h: nat, posted: seq<string>, nextHandle: nat)
    requires LogOk(log, base, h, posted, nextHandle)
    ensures Verdict(log) <==> h != 0 && posted != [] && posted[|posted| - 1] == "connected"
  {}

  /** Once the UI queue is drained, mConnected holds exactly when the active box has
      reported a status and its last one is "connected". */
  lemma NoStaleStatus(capacity: nat, s: State)
    requires Reachable(capacity, s) && s.delivered == |s.log|
    ensures s.app.connected <==> LastReport(s) == Some("connected")
  {
    ReachableInv(capacity, s);
    DrainedVerdict(s.app, s.log, s.delivered);
    VerdictOfLog(s.log, s.base, ActiveHandle(s.app), Posted(ActiveHandle(s.app), s.engines), s.nextHandle);
  }

  lemma DrainedVerdict(a: App<nat>, log: seq<Post>, delivered: nat)
    requires delivered == |log| && a.connected == Verdict(log[..delivered])
    ensures a.connected == Verdict(log)
  {
    assert log[..delivered] == log;
  }

  /** The last status that the engine of the active box has both read and posted. */
  function LastStatus(s: State): Option<Body> {
    var h := ActiveHandle(s.app);
    if h in s.engines && 0 < |s.engines[h].posted| <= |s.engines[h].statuses.read| then
      Some(s.engines[h].statuses.read[|s.engines[h].posted| - 1].body)
    else None
  }

  /** The same without any names: once the UI queue is drained, mConnected holds exactly
      when the last status that the HID client of the active box reported, among those
      posted, is that it is connected. */
  lemma ConnectedMeansConnected(capacity: nat, s: State)
    requires Reachable(capacity, s) && s.delivered == |s.log|
    ensures s.app.connected <==> LastStatus(s) == Some(StatusBody(HidState.Connected))
  {
    NoStaleStatus(capacity, s);
    ReachableInv(capacity, s);
    var h := ActiveHandle(s.app);
    if h in s.engines && s.engines[h].posted != [] {
      assert EngineOk(s.engines, h);
      T.LastPost(s.engines[h]);
      NamesTell(s.engines[h].statuses.read[|s.engines[h].posted| - 1].body);
    }
  }

  // ---- which active box has an engine

  /** The active box holds an engine exactly when it has an address and a port. */
  predicate PluggedRight(a: App<nat>) {
    a.active.Some? && a.active.value in a.objs ==>
      var b := a.objs[a.active.value]; b.rcu != 0 <==> b.address.Some? && b.port != 0
  }

  /** The active box, and what counts about it, are as before. */
  predicate ActiveKept(a: App<nat>, t: App<nat>) {
    && t.active == a.active
    && (a.active.Some? && a.active.value in a.objs ==>
          var id := a.active.value;
          && id in t.objs && t.objs[id].address == a.objs[id].address
          && t.objs[id].port == a.objs[id].port && t.objs[id].rcu == a.objs[id].rcu)
  }

  lemma ResumeKeepsActive(s: State)
    requires Inv(s) && Enabled(s, Resume)
    ensures ActiveKept(s.app, Next(s, Resume).app)
  {
    DiscloseFrame(s.app, NewIds(s.nextId, |SavedRecords(s.app.pool)|));
    DiscloseKeepsRegistry(s.app, NewIds(s.nextId, |SavedRecords(s.app.pool)|));
  }

  lemma DetectKeepsActive(a: App<nat>, made: App<nat>, id: nat)
    requires Closed(a) && Closed(made) && id !in a.objs && id in made.objs && made.objs == a.objs[id := made.objs[id]]
    requires made == a.(objs := made.objs)
    ensures ActiveKept(a, Detect(made, id).0) && ActiveKept(a, ReleaseFocus(Detect(made, id).0))
  {}

  lemma DetectionKeepsActive(s: State, address: string, port: int)
    requires Inv(s) && Enabled(s, Detected(address, port))
    ensures ActiveKept(s.app, Next(s, Detected(address, port)).app)
  {
    MadeKeepsRegistry(s.app, s.nextId, Sniffed(address, port));
    DetectCloses(Made(s, address, port), s.nextId);
    DetectKeepsActive(s.app, Made(s, address, port), s.nextId);
  }

  lemma StepKeepsPlugs(s: State, x: Action)
    requires Inv(s) && Enabled(s, x) && PluggedRight(s.app)
    ensures PluggedRight(Next(s, x).app)
  {
    match x
    case Resume => ResumeKeepsActive(s);
    case Detected(address, port) => DetectionKeepsActive(s, address, port);
    case FinishDisconnect => ReturnPlugsRight(s);
    case _ =>
  }

  lemma AttachPlugsRight(s: State, target: nat)
    requires Closed(s.app) && target in s.app.objs && s.app.objs[target].rcu == 0 && 0 < s.nextHandle
    ensures PluggedRight(Attach(s, s.app, target).app)
  {}

  lemma ReturnPlugsRight(s: State)
    requires Inv(s) && Enabled(s, FinishDisconnect)
    ensures PluggedRight(Next(s, FinishDisconnect).app)
  {
    DisconnectKeepsHandles(s.app, s.engines.Keys, s.nextHandle);
    if s.ui.Switching? {
      assert Detach(s).app.objs[s.ui.target].rcu == 0;
      AttachPlugsRight(Detach(s), s.ui.target);
    }
  }

  lemma {:induction false} RunKeepsPlugs(s: State, run: seq<Action>)
    requires Inv(s) && IsRun(s, run) && PluggedRight(s.app)
    ensures PluggedRight(Final(s, run).app)
    decreases |run|
  {
    if run != [] {
      StepKeepsPlugs(s, run[0]);
      InvKept(s, run[0]);
      RunKeepsPlugs(Next(s, run[0]), run[1..]);
    }
  }

  /** In every reachable state with an active box, its engine exists exactly when the box
      has an address and a port; nothing else about the box decides it. */
  lemma EngineExactlyWhen(capacity: nat, s: State)
    requires Reachable(capacity, s) && s.app.active.Some?
    ensures s.app.active.value in s.app.objs
    ensures var b := s.app.objs[s.app.active.value];
      ActiveHandle(s.app) in s.engines <==> b.address.Some? && b.port != 0
  {
    var pool, run :| StartsWith(pool) && IsRun(Init(capacity, pool), run) && Final(Init(capacity, pool), run) == s;
    InitInv(capacity, pool);
    RunKeepsPlugs(Init(capacity, pool), run);
    ReachableInv(capacity, s);
  }

  // ---- when the buttons are painted

  /** A handler has ended with no active box: it then asks Home.paintBoxButtons to
      paint the colour of null. */
  predicate Bare(s: State) {
    s.ui.Listening? && s.app.active.None?
  }

  /** The handler reaches the painting although it has found no box to connect. */
  ghost predicate PaintsAnyway(s: State, x: Action)
    requires Sound(s)
  {
    match x
    case GoNext => true
    case GoPrevious => forall id :: id in s.app.registry ==> !s.app.objs[id].reachable
    case _ => s.app.connected
  }

  /** Exactly when that happens. */
  lemma PaintsNobodyExactly(capacity: nat, s: State, x: Action)
    requires Reachable(capacity, s) && Enabled(s, x) && (x.GoNext? || x.GoPrevious? || x.Detected?)
    ensures Sound(s)
    ensures Bare(Next(s, x)) <==> (s.app.active.None? && PaintsAnyway(s, x))
  {
    ReachableInv(capacity, s);
    match x
    case GoNext => NextPaints(s);
    case GoPrevious => PreviousPaints(s);
    case Detected(_, _) =>
  }

  /** It can happen: with no box at all, the "next" button does it. */
  lemma NobodyIsPainted(capacity: nat)
    ensures exists s :: Reachable(capacity, s) && Enabled(s, GoNext) && Sound(s) && Bare(Next(s, GoNext))
  {
    var s := Resumed(capacity);
    PaintsNobodyExactly(capacity, s, GoNext);
  }

  lemma NextPaints(s: State)
    requires Sound(s) && Enabled(s, GoNext)
    ensures Bare(Next(s, GoNext)) <==> s.app.active.None?
  {
    if s.app.active.None? {
      NavigationFromNowhere(Values(s.app.objs, s.app.registry), None);
    }
  }

  lemma PreviousPaints(s: State)
    requires Sound(s) && Enabled(s, GoPrevious)
    ensures Bare(Next(s, GoPrevious)) <==> (s.app.active.None? && PaintsAnyway(s, GoPrevious))
  {
    if s.app.active.None? {
      var bs := Values(s.app.objs, s.app.registry);
      NavigationFromNowhere(bs, None);
      PreviousInRange(bs, None, 0, None);
    }
  }

  lemma {:induction false} PreviousInRange(bs: seq<Box>, of: Option<Box>, i: nat, previous: Option<nat>)
    requires i <= |bs| && (previous.Some? ==> previous.value < |bs|)
    ensures var k := PreviousFrom(bs, of, i, previous); k.Some? ==> k.value < |bs|
    decreases |bs| - i
  {
    if i < |bs| && !SameAs(bs[i], of) {
      PreviousInRange(bs, of, i + 1, if bs[i].reachable then Some(i) else previous);
    }
  }

  /** A detection never does it once the UI queue is drained. */
  lemma DetectionPaintsSomebody(capacity: nat, s: State, address: string, port: int)
    requires Reachable(capacity, s) && Enabled(s, Detected(address, port)) && s.delivered == |s.log|
    ensures Sound(s) && !Bare(Next(s, Detected(address, port)))
  {
    PaintsNobodyExactly(capacity, s, Detected(address, port));
    ReachableInv(capacity, s);
  }

  // ---- is the active box one of the registry?

  ghost predicate Registered(s: State) {
    match s.ui
    case Switching(target) => target in s.app.registry
    case Pausing => true
    case _ => s.app.active.Some? ==> s.app.active.value in s.app.registry
  }

  /** Resuming while a box is active, with nothing to recover. */
  predicate Orphans(s: State, x: Action) {
    x.Resume? && s.app.active.Some? && SavedRecords(s.app.pool) == []
  }

  lemma ResumeRegisters(s: State)
    requires Inv(s) && Enabled(s, Resume)
    ensures Registered(Next(s, Resume)) <==> !Orphans(s, Resume)
  {
    var ids := NewIds(s.nextId, |SavedRecords(s.app.pool)|);
    DiscloseFrame(s.app, ids);
    DiscloseResult(s.app, ids);
  }

  lemma DetectedRegisters(s: State, address: string, port: int)
    requires Inv(s) && Registered(s) && Enabled(s, Detected(address, port))
    ensures Registered(Next(s, Detected(address, port)))
  {
    MadeKeepsRegistry(s.app, s.nextId, Sniffed(address, port));
    DetectKeepsRegistry(Made(s, address, port), s.nextId);
    DetectGrows(Made(s, address, port), s.nextId);
  }

  lemma DetectGrows(a: App<nat>, id: nat)
    requires Closed(a) && id in a.objs
    ensures var t := Detect(a, id).0;
      t.active == a.active && forall k :: k in a.registry ==> k in t.registry
  {}

  /** Every event keeps the active box in the registry, with one exception. */
  lemma RegisteredExactly(s: State, x: Action)
    requires Inv(s) && Registered(s) && Enabled(s, x)
    ensures Registered(Next(s, x)) <==> !Orphans(s, x)
  {
    match x
    case Resume => ResumeRegisters(s);
    case Detected(address, port) => DetectedRegisters(s, address, port);
    case _ => OtherEventsRegister(s, x);
  }

  lemma OtherEventsRegister(s: State, x: Action)
    requires Sound(s) && Registered(s) && Enabled(s, x) && !x.Resume? && !x.Detected?
    ensures Registered(Next(s, x))
  {}

  /** So the active box is in the registry as long as no resume orphans it. */
  lemma {:induction false} RunKeepsRegistered(s: State, run: seq<Action>)
    requires Inv(s) && Registered(s) && IsRun(s, run)
    requires forall i :: 0 <= i < |run| ==> !Orphaning(s, run, i)
    ensures Registered(Final(s, run))
    decreases |run|
  {
    if run != [] {
      assert !Orphaning(s, run, 0);
      RegisteredExactly(s, run[0]);
      InvKept(s, run[0]);
      forall i | 0 <= i < |run| - 1 ensures !Orphaning(Next(s, run[0]), run[1..], i) {
        assert !Orphaning(s, run, i + 1);
      }
      RunKeepsRegistered(Next(s, run[0]), run[1..]);
    }
  }

  /** The i-th event of the run orphans the active box. */
  ghost predicate Orphaning(s: State, run: seq<Action>, i: nat)
    requires IsRun(s, run) && i < |run|
    decreases i
  {
    if i == 0 then Orphans(s, run[0]) else Orphaning(Next(s, run[0]), run[1..], i - 1)
  }

  /** It can happen: a sniffer thread may still post a detection after the boxes were
      concealed, and the next resume finds an empty pool. The active box is then connected,
      by an engine that no box of the registry leads to. */
  lemma LateDetectionOrphans(capacity: nat)
    ensures exists s :: Reachable(capacity, s) && s.resumed && s.ui.Listening? && !Registered(s) && Connected(s)
  {
    var s := LateDetection(capacity);
    RegisteredExactly(s, Resume);
    var t := Step(capacity, s, Resume);
    assert t.app.active == s.app.active && t.engines == s.engines;
  }

  /** The active box has an engine that is ready for keys. */
  predicate Connected(s: State) {
    var h := ActiveHandle(s.app);
    h in s.engines && s.engines[h].ui.Ready?
  }

  /** The application has been resumed ... */
  lemma Resumed(capacity: nat) returns (s: State)
    ensures Reachable(capacity, s) && Inv(s) && s.ui.Listening? && s.started && s.resumed
    ensures s.app.registry == [] && SavedRecords(s.app.pool) == [] && s.app.active.None?
    ensures s.engines == map[] && !s.app.connected
  {
    s := Started(capacity, None);
    s := Step(capacity, s, Resume);
  }

  /** ... and paused, and nothing was ever detected. */
  lemma Concealed(capacity: nat) returns (s: State)
    ensures Reachable(capacity, s) && Inv(s) && s.ui.Listening? && s.started && !s.resumed
    ensures s.app.registry == [] && SavedRecords(s.app.pool) == [] && s.app.active.None?
    ensures s.engines == map[] && !s.app.connected
  {
    s := Resumed(capacity);
    s := Step(capacity, s, Pause);
    assert SavedRecords(s.app.pool) == [];
    s := Step(capacity, s, FinishDisconnect);
  }

  /** And then a box is detected ... */
  lemma NewcomerDetected(capacity: nat) returns (s: State, id: nat)
    ensures Reachable(capacity, s) && Sound(s) && s.ui == Switching(id) && s.started && !s.resumed
    ensures SavedRecords(s.app.pool) == [] && s.engines == map[] && s.app.active.None?
    ensures s.app.registry == [id] && id in s.app.objs && Connectable(s.app.objs[id])
  {
    var c := Concealed(capacity);
    id := c.nextId;
    s := Step(capacity, c, Detected("192.0.2.1", 24322));
    assert s.app.objs[id].address.Some? && s.app.objs[id].port == 24322;
  }

  /** ... and becomes the active one. */
  lemma DetectedLate(capacity: nat) returns (s: State)
    ensures Reachable(capacity, s) && Inv(s) && s.ui.Attaching? && s.started && !s.resumed
    ensures SavedRecords(s.app.pool) == [] && s.engines == map[s.ui.handle := P.Init(s.capacity)]
    ensures ActiveHandle(s.app) == s.ui.handle && Registered(s) && s.app.active.Some?
  {
    var d, id := NewcomerDetected(capacity);
    s := Step(capacity, d, FinishDisconnect);
  }

  /** One step of Freebox.connect on a new engine. */
  lemma Attaching(capacity: nat, s: State, u: P.UiAction) returns (t: State)
    requires Reachable(capacity, s) && s.ui.Attaching? && s.engines.Keys == {s.ui.handle}
    requires P.UiEnabled(s.engines[s.ui.handle], u) && !I.Disconnects(u) && !u.SendKey? && !u.WriteKey?
    ensures Reachable(capacity, t) && t.app == s.app && t.ui == s.ui && t.resumed == s.resumed && t.started == s.started
    ensures t.engines.Keys == s.engines.Keys
    ensures t.engines[s.ui.handle] == P.UiNext(s.engines[s.ui.handle], u)
  {
    t := Step(capacity, s, Engine(s.ui.handle, P.ByUi(u)));
    assert t.engines.Keys == s.engines.Keys;
  }

  /** The new engine connects, no status is posted meanwhile, and Freebox.connect returns. */
  lemma LateDetection(capacity: nat) returns (s: State)
    ensures Reachable(capacity, s) && Inv(s) && s.ui.Listening? && s.started && !s.resumed
    ensures SavedRecords(s.app.pool) == [] && Connected(s) && Registered(s) && s.app.active.Some?
    ensures s.engines.Keys == {ActiveHandle(s.app)}
  {
    s := DetectedLate(capacity);
    s := Attaching(capacity, s, P.OpenPipes);
    s := Attaching(capacity, s, P.OpenSources);
    s := Attaching(capacity, s, P.OpenHid);
    s := Attaching(capacity, s, P.StartLooper);
    s := Attaching(capacity, s, P.StartReader);
    s := Step(capacity, s, FinishConnect);
  }

  lemma Step(capacity: nat, s: State, x: Action) returns (t: State)
    requires Reachable(capacity, s) && Enabled(s, x)
    ensures Sound(s) && t == Next(s, x) && Reachable(capacity, t) && Inv(t)
  {
    ReachableInv(capacity, s);
    t := Next(s, x);
    var pool, run :| StartsWith(pool) && IsRun(Init(capacity, pool), run) && Final(Init(capacity, pool), run) == s;
    RunSnoc(Init(capacity, pool), run, x);
    ReachableInv(capacity, t);
  }

  lemma {:induction false} RunSnoc(s: State, run: seq<Action>, x: Action)
    requires IsRun(s, run) && Sound(Final(s, run)) && Enabled(Final(s, run), x)
    ensures IsRun(s, run + [x]) && Final(s, run + [x]) == Next(Final(s, run), x)
    decreases |run|
  {
    if run == [] {
      assert IsRun(Next(s, x), []);
    } else {
      RunSnoc(Next(s, run[0]), run[1..], x);
      assert (run + [x])[1..] == run[1..] + [x];
    }
  }
}
