/** What the engine guarantees in every reachable state, whatever the interleaving
    of the three threads, of the release timer and of the HID client's callbacks. */
module ProtocolTheorems {
  import opened Messages
  import opened Protocol
  import opened ProtocolInvariant

  // ---- the reports do not depend on timing

  /** When no key callback is running, the reports sent so far followed by the one
      deferred release, if any, are the expansion of the keys consumed so far. */
  lemma TimingIndependence(capacity: nat, s: State)
    requires Reachable(capacity, s)
    requires !s.looper.Holding? && !s.looper.Flushed?
    ensures s.hid + Late(s.pending) == Expand(s.keys.read)
  {
    ReachableInv(capacity, s);
  }

  /** At every moment the box has received a prefix of what the sent keys mean. */
  lemma ReportsArePrefix(capacity: nat, s: State)
    requires Reachable(capacity, s)
    ensures s.hid <= Expand(s.keys.read) <= Expand(s.keys.written)
  {
    ReachableInv(capacity, s);
    ExpandPrefix(s.keys.written, |s.keys.read|);
  }

  /** The report that follows the press of a click is the release of that click:
      nothing is ever emitted between the two. */
  lemma ClickIsNotTorn(capacity: nat, s: State, i: nat)
    requires Reachable(capacity, s)
    requires i < |s.keys.written| && s.keys.written[i].body.KeyBody? && s.keys.written[i].body.command.KeyPressRelease?
    ensures var k, b := |Expand(s.keys.written[..i])|, s.keys.written[i].body;
      && (k < |s.hid| ==> s.hid[k] == Report(b.report, b.code))
      && (k + 1 < |s.hid| ==> s.hid[k + 1] == Report(b.report, 0))
  {
    ReportsArePrefix(capacity, s);
    ClickInExpansion(s.keys.written, i);
  }

  lemma ClickInExpansion(ms: seq<Message>, i: nat)
    requires i < |ms| && ms[i].body.KeyBody? && ms[i].body.command.KeyPressRelease?
    ensures var k, b, reports := |Expand(ms[..i])|, ms[i].body, Expand(ms);
      k + 1 < |reports| && reports[k] == Report(b.report, b.code) && reports[k + 1] == Report(b.report, 0)
  {
    assert ms[..i + 1] == ms[..i] + [ms[i]];
    ExpandPrefix(ms, i + 1);
  }

  /** In every reachable state each report that the box has received is, at its place, the
      one that the key of that place asks for: a held key is pressed once and released once,
      a click is both. */
  lemma EveryReportInItsPlace(capacity: nat, s: State, i: nat)
    requires Reachable(capacity, s) && i < |s.keys.written| && s.keys.written[i].body.KeyBody?
    ensures StandsAt(s.hid, Length(s.keys.written[..i]), s.keys.written[i].body)
    ensures |s.hid| <= Length(s.keys.read) <= Length(s.keys.written)
    ensures 8 <= Phase(s.ui) ==> |s.hid| == Length(s.keys.written)
  {
    ReportsArePrefix(capacity, s);
    KeyStandsAt(s.keys.written, i);
    ExpandLength(s.keys.read);
    ExpandLength(s.keys.written);
    if 8 <= Phase(s.ui) {
      DrainOnShutdown(capacity, s);
    }
  }

  // ---- shutdown drains the keys

  /** Once the join of the looper thread has returned, every key sent since Connect
      has been turned into its reports, in order, and nothing is left over. */
  lemma DrainOnShutdown(capacity: nat, s: State)
    requires Reachable(capacity, s) && 8 <= Phase(s.ui)
    ensures ClosedByMarker(s.keys.written)
    ensures s.hid == Expand(s.keys.written) == Expand(s.keys.written[..|s.keys.written| - 1])
    ensures s.keys.pipe == [] && s.pending.None?
  {
    ReachableInv(capacity, s);
    Drained(s);
  }

  lemma Drained(s: State)
    requires Inv(s) && 8 <= Phase(s.ui)
    ensures ClosedByMarker(s.keys.written)
    ensures s.hid == Expand(s.keys.written) == Expand(s.keys.written[..|s.keys.written| - 1])
    ensures s.keys.pipe == [] && s.pending.None?
  {}

  /** The clean-up branch at the end of Disconnect never finds a key. */
  lemma CleanUpFindsNothing(capacity: nat, s: State)
    requires Reachable(capacity, s) && Enabled(s, ByUi(CleanPending))
    ensures Next(s, ByUi(CleanPending)).heap == s.heap
  {
    DrainOnShutdown(capacity, s);
  }

  /** The value a report id was last given, 0 if it never was. */
  function LastValue(reports: seq<Report>, id: UInt8): UInt32 {
    if reports == [] then 0
    else if reports[|reports| - 1].id == id then reports[|reports| - 1].value
    else LastValue(reports[..|reports| - 1], id)
  }

  /** The last key message on a report id. */
  function LastKey(ms: seq<Message>, id: UInt8): Option<Body> {
    if ms == [] then None
    else if ms[|ms| - 1].body.KeyBody? && ms[|ms| - 1].body.report == id then Some(ms[|ms| - 1].body)
    else LastKey(ms[..|ms| - 1], id)
  }

  /** A press that the key itself does not follow by a release. */
  predicate IsHeldPress(b: Body) {
    b.KeyBody? && b.command.KeyPress?
  }

  lemma LastValueSnoc(reports: seq<Report>, r: Report, id: UInt8)
    ensures LastValue(reports + [r], id) == if r.id == id then r.value else LastValue(reports, id)
  {}

  lemma {:induction false} LastValueIsLastKey(ms: seq<Message>, id: UInt8)
    ensures LastValue(Expand(ms), id) ==
      match LastKey(ms, id)
      case None => 0
      case Some(b) => if IsHeldPress(b) then b.code else 0
  {
    if ms != [] {
      var init, b := ms[..|ms| - 1], ms[|ms| - 1].body;
      LastValueIsLastKey(init, id);
      match b
      case KeyBody(KeyPress, r, c) => LastValueSnoc(Expand(init), Report(r, c), id);
      case KeyBody(KeyRelease, r, _) => LastValueSnoc(Expand(init), Report(r, 0), id);
      case KeyBody(KeyPressRelease, r, c) =>
        Associate(Expand(init), [Report(r, c)], [Report(r, 0)]);
        assert [Report(r, c)] + [Report(r, 0)] == Expansion(b);
      case _ =>
        assert Expand(init) + [] == Expand(init);
    }
  }

  /** After shutdown a key of the box is left down exactly on the report ids whose
      last key message was a press that no release followed. */
  lemma NoKeyLeftDown(capacity: nat, s: State, id: UInt8)
    requires Reachable(capacity, s) && 8 <= Phase(s.ui)
    ensures LastValue(s.hid, id) != 0 <==>
      var last := LastKey(s.keys.written, id);
      last.Some? && IsHeldPress(last.value) && last.value.code != 0
  {
    DrainOnShutdown(capacity, s);
    LastValueIsLastKey(s.keys.written, id);
  }

  // ---- the stream of statuses

  /** The UI handler has received a prefix of the names of the statuses written. */
  lemma StatusesInOrder(capacity: nat, s: State)
    requires Reachable(capacity, s)
    ensures s.posted <= Names(s.statuses.written)
  {
    ReachableInv(capacity, s);
  }

  /** "EXIT" is posted when the status thread ends, and only then; it comes once,
      last, after the names of all the statuses written before the close marker. */
  lemma StatusStream(capacity: nat, s: State)
    requires Reachable(capacity, s)
    ensures "EXIT" in s.posted <==> s.reader.Finished?
    ensures s.reader.Finished? ==>
      && s.closeAt < |s.statuses.written|
      && s.posted == Names(s.statuses.written[..s.closeAt]) + ["EXIT"]
      && "EXIT" !in Names(s.statuses.written[..s.closeAt])
  {
    ReachableInv(capacity, s);
    FinishedStream(s);
  }

  lemma FinishedStream(s: State)
    requires Inv(s)
    ensures "EXIT" in s.posted <==> s.reader.Finished?
    ensures s.reader.Finished? ==>
      && s.closeAt < |s.statuses.written|
      && s.posted == Names(s.statuses.written[..s.closeAt]) + ["EXIT"]
      && "EXIT" !in Names(s.statuses.written[..s.closeAt])
  {
    var n := PostedCount(s.reader, s.statuses);
    var written := s.statuses.written;
    forall i | 0 <= i < n
      ensures s.posted[i] == "EXIT" <==> (s.reader.Finished? && i == s.closeAt)
    {
      OnlyTheMarkerIsExit(written[i].body);
    }
    if s.reader.Finished? {
      assert s.posted[s.closeAt] == "EXIT";
      assert Names(written[..s.closeAt]) == s.posted[..s.closeAt];
    }
  }

  /** The last post, if there is one, names the last status that the status thread has
      both read and posted. */
  lemma LastPost(s: State)
    requires Inv(s) && s.posted != []
    ensures |s.posted| <= |s.statuses.read| && !s.statuses.read[|s.posted| - 1].body.KeyBody?
    ensures s.posted[|s.posted| - 1] == Name(s.statuses.read[|s.posted| - 1].body)
  {
    var n := |s.posted|;
    assert s.statuses.written[n - 1] == s.statuses.read[n - 1];
  }

  // ---- who owns each message

  lemma {:induction false} CountedAtMostOnce(ms: seq<Message>, lo: nat, m: Message)
    requires forall i :: 0 <= i < |ms| ==> ms[i].id == lo + i
    ensures Count(ms, m) <= 1
    ensures Count(ms, m) == 1 ==> lo <= m.id
  {
    if ms != [] {
      CountedAtMostOnce(ms[1..], lo + 1, m);
    }
  }

  lemma {:induction false} CountedWhenIn(ms: seq<Message>, m: Message)
    ensures m in ms <==> 0 < Count(ms, m)
  {
    if ms != [] {
      CountedWhenIn(ms[1..], m);
    }
  }

  /** Every message ever created is in exactly one place: in one of the pipes, in
      the hand of one thread, in the pending slot, or deleted. None is deleted twice. */
  lemma OneOwner(capacity: nat, s: State, m: Message)
    requires Reachable(capacity, s) && m in s.heap.created
    ensures Held(s, m) + Count(s.heap.deleted, m) == 1
  {
    ReachableInv(capacity, s);
    CountedAtMostOnce(s.heap.created, 0, m);
    CountedWhenIn(s.heap.created, m);
    assert Conserved(s, m);
  }

  /** And nothing is deleted, or held anywhere, that was never created. */
  lemma NothingFromNowhere(capacity: nat, s: State, m: Message)
    requires Reachable(capacity, s) && m !in s.heap.created
    ensures Held(s, m) + Count(s.heap.deleted, m) == 0
  {
    ReachableInv(capacity, s);
    CountedWhenIn(s.heap.created, m);
    assert Conserved(s, m);
  }

  /** When the Rcu is destroyed, the messages that were never deleted are exactly the
      statuses written after the close marker, in what the status pipe still held. */
  lemma OnlyLateStatusesLeak(capacity: nat, s: State, m: Message)
    requires Reachable(capacity, s) && s.ui.Destroyed? && m in s.heap.created
    ensures m !in s.heap.deleted <==> m in s.statuses.pipe
    ensures s.closeAt < |s.statuses.written| && s.statuses.pipe == s.statuses.written[s.closeAt + 1..]
    ensures m !in s.heap.deleted ==> m.body.StatusBody?
  {
    ReachableInv(capacity, s);
    OneOwner(capacity, s, m);
    CountedWhenIn(s.heap.deleted, m);
    CountedWhenIn(s.statuses.pipe, m);
    DrainOnShutdown(capacity, s);
    if m in s.statuses.pipe {
      var i :| 0 <= i < |s.statuses.pipe| && s.statuses.pipe[i] == m;
    }
  }

  // ---- no thread touches what is not there

  datatype Resource =
    | TheRcu | LooperPipe | StatusPipe | EventLoop | PressSource | ReleaseSource | HidClient
    | TheMessage(m: Message)

  predicate Alive(s: State, r: Resource) {
    match r
    case TheRcu => s.objects.rcu
    case LooperPipe => s.objects.looperPipe
    case StatusPipe => s.objects.statusPipe
    case EventLoop => s.objects.ela
    case PressSource => s.objects.pressSource
    case ReleaseSource => s.objects.releaseSource
    case HidClient => s.objects.hid
    case TheMessage(m) => m in s.heap.created && m !in s.heap.deleted
  }

  /** What OnKeyRelease touches. */
  function ReleaseTouches(s: State): set<Resource> {
    if s.pending.Some? then {TheRcu, TheMessage(s.pending.value), HidClient, EventLoop, ReleaseSource}
    else {TheRcu}
  }

  /** What OnStatus touches. */
  function StatusTouches(s: State): set<Resource> {
    if s.objects.current then {HidClient, TheRcu, StatusPipe} else {HidClient}
  }

  function UiTouches(s: State, u: UiAction): set<Resource>
    requires UiEnabled(s, u)
  {
    match u
    case OpenPipes => {TheRcu}
    case OpenSources => {TheRcu, LooperPipe}
    case OpenHid => {TheRcu, EventLoop}
    case ConnectStatus(_) => StatusTouches(s)
    case WriteConnectStatus => {TheRcu, StatusPipe, TheMessage(s.ui.m)}
    case StartLooper => {TheRcu, EventLoop, HidClient}
    case StartReader => {TheRcu}
    case SendKey(_, _, _) => {TheRcu}
    case WriteKey => {TheRcu, LooperPipe, TheMessage(s.ui.m)}
    case BeginDisconnect => {TheRcu}
    case WriteClose => {TheRcu, LooperPipe, TheMessage(s.ui.m)}
    case JoinLooper => {TheRcu}
    case FreeLooperPipe => {TheRcu, LooperPipe}
    case CloseStatus => {TheRcu}
    case WriteStatusClose => {TheRcu, StatusPipe, TheMessage(s.ui.m)}
    case FreeSources => {TheRcu, EventLoop, ReleaseSource, PressSource}
    case TeardownStatus(_) => StatusTouches(s)
    case WriteTeardownStatus => {TheRcu, StatusPipe, TheMessage(s.ui.m)}
    case FreeHid => {TheRcu, EventLoop, HidClient}
    case FreeLooper => {TheRcu, EventLoop}
    case CleanPending => if s.pending.Some? then {TheRcu, TheMessage(s.pending.value)} else {TheRcu}
    case ClearCurrent => {TheRcu}
    case JoinReader => {TheRcu}
    case Destroy => {TheRcu, StatusPipe}
  }

  function LooperTouches(s: State, l: LooperAction): set<Resource>
    requires LooperEnabled(s, l)
  {
    match l
    case ReadKey => {TheRcu, EventLoop, PressSource, LooperPipe}
    case FlushPending => {TheMessage(s.looper.m), EventLoop} + ReleaseTouches(s)
    case HandleMessage => {TheRcu, TheMessage(s.looper.m), HidClient, EventLoop, ReleaseSource}
    case DeleteMessage => {EventLoop, TheMessage(s.looper.m)}
    case TimerFires => {EventLoop, ReleaseSource} + ReleaseTouches(s)
    case LooperStatus(_) => {EventLoop} + StatusTouches(s)
    case WriteLooperStatus => {TheRcu, StatusPipe, TheMessage(s.looper.m)}
  }

  function ReaderTouches(s: State, r: ReaderAction): set<Resource>
    requires ReaderEnabled(s, r)
  {
    match r
    case ReadStatus => {TheRcu, StatusPipe}
    case NameStatus => {TheMessage(s.reader.m)}
    case PostStatus => {}
  }

  function Touches(s: State, a: Action): set<Resource>
    requires Enabled(s, a)
  {
    match a
    case ByUi(u) => UiTouches(s, u)
    case ByLooper(l) => LooperTouches(s, l)
    case ByReader(r) => ReaderTouches(s, r)
  }

  /** A message that some thread or slot holds exists and has not been deleted. */
  lemma HeldIsAlive(s: State, m: Message)
    requires Inv(s) && 0 < Held(s, m)
    ensures Alive(s, TheMessage(m))
  {
    assert Conserved(s, m);
    CountedAtMostOnce(s.heap.created, 0, m);
    CountedWhenIn(s.heap.created, m);
    CountedWhenIn(s.heap.deleted, m);
  }

  lemma HandsAreAlive(s: State)
    requires Inv(s)
    ensures UiHand(s.ui).Some? ==> Alive(s, TheMessage(UiHand(s.ui).value))
    ensures LooperHand(s.looper).Some? ==> Alive(s, TheMessage(LooperHand(s.looper).value))
    ensures ReaderHand(s.reader).Some? ==> Alive(s, TheMessage(ReaderHand(s.reader).value))
    ensures s.pending.Some? ==> Alive(s, TheMessage(s.pending.value))
  {
    if UiHand(s.ui).Some? { HeldIsAlive(s, UiHand(s.ui).value); }
    if LooperHand(s.looper).Some? { HeldIsAlive(s, LooperHand(s.looper).value); }
    if ReaderHand(s.reader).Some? { HeldIsAlive(s, ReaderHand(s.reader).value); }
    if s.pending.Some? { HeldIsAlive(s, s.pending.value); }
  }

  lemma UiTouchesAlive(s: State, u: UiAction, r: Resource)
    requires Inv(s) && UiEnabled(s, u) && r in UiTouches(s, u)
    ensures Alive(s, r)
  {
    HandsAreAlive(s);
  }

  lemma LooperTouchesAlive(s: State, l: LooperAction, r: Resource)
    requires Inv(s) && LooperEnabled(s, l) && r in LooperTouches(s, l)
    ensures Alive(s, r)
  {
    HandsAreAlive(s);
  }

  /** In every interleaving, no step of any thread touches an object before it is
      created or after it is freed. */
  lemma NoUseOutsideLifetime(capacity: nat, s: State, a: Action)
    requires Reachable(capacity, s) && Enabled(s, a)
    ensures forall r :: r in Touches(s, a) ==> Alive(s, r)
  {
    ReachableInv(capacity, s);
    forall r | r in Touches(s, a) ensures Alive(s, r) {
      match a
      case ByUi(u) => UiTouchesAlive(s, u, r);
      case ByLooper(l) => LooperTouchesAlive(s, l, r);
      case ByReader(_) => HandsAreAlive(s);
    }
  }

  /** What a thread uses while it waits: the pipe that it is reading or writing, with the
      message that it is writing; in the event loop, the loop with its event sources, the
      pipe that it watches and the HID client that it serves. */
  function UiWaitsOn(ui: Ui): set<Resource> {
    match ui
    case Sending(m) => {TheRcu, LooperPipe, TheMessage(m)}
    case Closing(m) => {TheRcu, LooperPipe, TheMessage(m)}
    case ConnectPosting(m) => {TheRcu, HidClient, StatusPipe, TheMessage(m)}
    case StatusClosing(m) => {TheRcu, StatusPipe, TheMessage(m)}
    case TeardownPosting(m) => {TheRcu, HidClient, StatusPipe, TheMessage(m)}
    case Joining => {TheRcu}
    case Disconnected => {TheRcu}
    case _ => {}
  }

  function LooperWaitsOn(l: Looper): set<Resource> {
    match l
    case Dispatching => {TheRcu, EventLoop, PressSource, ReleaseSource, LooperPipe, HidClient}
    case PostingStatus(m) => {TheRcu, EventLoop, HidClient, StatusPipe, TheMessage(m)}
    case _ => {}
  }

  function ReaderWaitsOn(r: Reader): set<Resource> {
    if r.Reading? then {TheRcu, StatusPipe} else {}
  }

  /** No object is freed, either, under a thread that waits in a call on it. */
  lemma NoFreeUnderWaiter(capacity: nat, s: State)
    requires Reachable(capacity, s)
    ensures forall r :: r in UiWaitsOn(s.ui) + LooperWaitsOn(s.looper) + ReaderWaitsOn(s.reader) ==> Alive(s, r)
  {
    ReachableInv(capacity, s);
    HandsAreAlive(s);
  }

  // ---- shutdown terminates

  function UiRank(ui: Ui): nat {
    var hand := match ui
      case Sending(_) => 6
      case ConnectPosting(_) => 4
      case TeardownPosting(_) => 4
      case _ => 0;
    10 * (if Phase(ui) <= 18 then 18 - Phase(ui) else 0) + hand
  }

  function LooperRank(l: Looper): nat {
    match l
    case Holding(_) => 4
    case Flushed(_) => 3
    case Deleting(_) => 1
    case PostingStatus(_) => 4
    case _ => 0
  }

  function ReaderRank(r: Reader): nat {
    match r
    case Naming(_) => 2
    case Posting(_) => 1
    case _ => 0
  }

  /** How much work is left if the environment asks for nothing more. */
  function Rank(s: State): nat {
    UiRank(s.ui) + LooperRank(s.looper) + ReaderRank(s.reader)
    + 5 * |s.keys.pipe| + 3 * |s.statuses.pipe| + (if s.pending.Some? then 1 else 0)
  }

  lemma UiStepDescends(s: State, u: UiAction)
    requires UiEnabled(s, u)
    ensures if External(s, ByUi(u)) then Rank(UiNext(s, u)) <= Rank(s) + 6 else Rank(UiNext(s, u)) < Rank(s)
  {
    if Disconnects(u) {
      DisconnectDescends(s, u);
    } else {
      ConnectDescends(s, u);
    }
  }

  lemma ConnectDescends(s: State, u: UiAction)
    requires UiEnabled(s, u) && !Disconnects(u)
    ensures if External(s, ByUi(u)) then Rank(UiNext(s, u)) <= Rank(s) + 6 else Rank(UiNext(s, u)) < Rank(s)
  {}

  lemma DisconnectDescends(s: State, u: UiAction)
    requires UiEnabled(s, u) && Disconnects(u)
    ensures if External(s, ByUi(u)) then Rank(UiNext(s, u)) <= Rank(s) + 6 else Rank(UiNext(s, u)) < Rank(s)
  {
    if Plain(u) {
      PlainStepDescends(s, u);
    }
  }

  predicate Plain(u: UiAction) {
    Disconnects(u) && !u.WriteClose? && !u.WriteStatusClose? && !u.WriteTeardownStatus? && !u.TeardownStatus?
  }

  /** A step of Disconnect that writes nothing moves the UI thread to its next phase. */
  lemma PlainStepAdvances(s: State, u: UiAction)
    requires UiEnabled(s, u) && Plain(u)
    ensures UiRank(UiNext(s, u).ui) < UiRank(s.ui)
  {
    if Frees(u) {
      assert Phase(UiNext(s, u).ui) == Phase(s.ui) + 1;
    }
  }

  lemma PlainStepKeepsPending(s: State, u: UiAction)
    requires UiEnabled(s, u) && Plain(u)
    ensures UiNext(s, u).pending == if u.CleanPending? then None else s.pending
  {}

  /** The rank of a state whose pipes and other threads are those of s. */
  lemma RankOf(s: State, t: State)
    requires t.keys == s.keys && t.statuses == s.statuses && t.looper == s.looper && t.reader == s.reader
    requires UiRank(t.ui) < UiRank(s.ui) && (t.pending == s.pending || t.pending.None?)
    ensures Rank(t) < Rank(s)
  {}

  lemma PlainStepDescends(s: State, u: UiAction)
    requires UiEnabled(s, u) && Plain(u)
    ensures Rank(UiNext(s, u)) < Rank(s)
  {
    UiFrame(s, u);
    PlainStepAdvances(s, u);
    PlainStepKeepsPending(s, u);
    RankOf(s, UiNext(s, u));
  }

  lemma LooperStepDescends(s: State, l: LooperAction)
    requires LooperEnabled(s, l)
    requires s.looper.Flushed? ==> s.pending.None?
    ensures if External(s, ByLooper(l)) then Rank(LooperNext(s, l)) <= Rank(s) + 6 else Rank(LooperNext(s, l)) < Rank(s)
  {}

  lemma ReaderStepDescends(s: State, r: ReaderAction)
    requires ReaderEnabled(s, r)
    ensures Rank(ReaderNext(s, r)) < Rank(s)
  {}

  /** Each step a thread takes on its own brings the end nearer; each thing the
      environment asks for puts it off by a bounded amount. */
  lemma StepDescends(s: State, a: Action)
    requires Inv(s) && Enabled(s, a)
    ensures if External(s, a) then Rank(Next(s, a)) <= Rank(s) + 6 else Rank(Next(s, a)) < Rank(s)
  {
    match a
    case ByUi(u) => UiStepDescends(s, u);
    case ByLooper(l) => LooperStepDescends(s, l);
    case ByReader(r) => ReaderStepDescends(s, r);
  }

  function Externals(s: State, run: seq<Action>): nat
    requires IsRun(s, run)
    decreases |run|
  {
    if run == [] then 0
    else (if External(s, run[0]) then 1 else 0) + Externals(Next(s, run[0]), run[1..])
  }

  lemma {:induction false} RunDescends(s: State, run: seq<Action>)
    requires Inv(s) && IsRun(s, run)
    ensures |run| - Externals(s, run) <= Rank(s) + 6 * Externals(s, run)
    decreases |run|
  {
    if run != [] {
      StepDescends(s, run[0]);
      InvKept(s, run[0]);
      RunDescends(Next(s, run[0]), run[1..]);
    }
  }

  /** A whole life of an Rcu, however interleaved, takes at most 180 steps of its
      threads plus 7 for each key, status callback or spurious timer. */
  lemma LifeIsBounded(capacity: nat, run: seq<Action>)
    requires IsRun(Init(capacity), run)
    ensures |run| <= 180 + 7 * Externals(Init(capacity), run)
  {
    InitInv(capacity);
    RunDescends(Init(capacity), run);
  }

  // ---- and does not deadlock

  ghost predicate Stuck(s: State) {
    forall a :: !Enabled(s, a)
  }

  /** What the UI thread does next when nothing blocks it. */
  function UiProgress(ui: Ui): UiAction {
    match ui
    case New => OpenPipes
    case Piped => OpenSources
    case Sourced => OpenHid
    case HidOpen => StartLooper
    case ConnectPosting(_) => WriteConnectStatus
    case LooperRunning => StartReader
    case Ready => BeginDisconnect
    case Sending(_) => WriteKey
    case Closing(_) => WriteClose
    case Joining => JoinLooper
    case Joined => FreeLooperPipe
    case PipeFreed => CloseStatus
    case StatusClosing(_) => WriteStatusClose
    case StatusClosed => FreeSources
    case SourcesFreed => FreeHid
    case TeardownPosting(_) => WriteTeardownStatus
    case HidFreed => FreeLooper
    case LooperFreed => CleanPending
    case PendingCleaned => ClearCurrent
    case Disconnected => JoinReader
    case StatusJoined => Destroy
    case Destroyed => Destroy
  }

  function LooperProgress(l: Looper): LooperAction {
    match l
    case Holding(_) => FlushPending
    case Flushed(_) => HandleMessage
    case Deleting(_) => DeleteMessage
    case PostingStatus(_) => WriteLooperStatus
    case _ => ReadKey
  }

  function ReaderProgress(r: Reader): ReaderAction {
    match r
    case Naming(_) => NameStatus
    case Posting(_) => PostStatus
    case _ => ReadStatus
  }

  /** The UI thread waits for the looper thread, which waits for the status thread,
      which waits for nobody: a step of the first thread in that chain that can move. */
  function Progress(s: State): Action {
    if UiEnabled(s, UiProgress(s.ui)) then ByUi(UiProgress(s.ui))
    else if LooperEnabled(s, LooperProgress(s.looper)) then ByLooper(LooperProgress(s.looper))
    else ByReader(ReaderProgress(s.reader))
  }

  /** The two ways in which the UI thread can wait for a reader that is not there. */
  predicate NobodyReads(s: State) {
    || (s.ui.ConnectPosting? && s.capacity < s.connectPosts)
    || (s.ui.TeardownPosting? && s.reader.Finished? && s.capacity < s.teardownPosts)
  }

  lemma ReaderMoves(s: State)
    requires Inv(s) && 5 <= Phase(s.ui) && !s.reader.Finished? && s.statuses.pipe != []
    ensures ReaderEnabled(s, ReaderProgress(s.reader))
  {}

  lemma MarkerIsStillThere(s: State)
    requires Inv(s) && s.looper.Dispatching? && (s.keys.pipe != [] || Phase(s.ui) == 7)
    ensures s.keys.pipe != []
  {
    assert |s.keys.written| == |s.keys.read| + |s.keys.pipe|;
    assert forall i :: 0 <= i < |s.keys.read| ==> s.keys.written[i] == s.keys.read[i];
  }

  /** While the close marker of the looper pipe is on its way, or the pipe is full,
      the looper thread moves, or else the status thread does. */
  lemma LooperMoves(s: State)
    requires Inv(s) && 1 <= s.capacity && 5 <= Phase(s.ui) <= 7
    requires !s.looper.Exited? && (s.keys.pipe != [] || Phase(s.ui) == 7)
    ensures LooperEnabled(s, LooperProgress(s.looper)) || ReaderEnabled(s, ReaderProgress(s.reader))
  {}

  lemma ReaderEndsByMarker(s: State)
    requires Inv(s) && 11 <= Phase(s.ui) && s.reader.Reading?
    ensures s.statuses.pipe != []
  {
    assert |s.statuses.written| == |s.statuses.read| + |s.statuses.pipe|;
  }

  /** Until the Rcu is destroyed, some thread can take a step of its own, unless the
      UI thread is posting more statuses than an unread pipe can hold. */
  lemma SomeoneMoves(s: State)
    requires Inv(s) && 1 <= s.capacity && !s.ui.Destroyed? && !NobodyReads(s)
    ensures Enabled(s, Progress(s)) && !External(s, Progress(s))
  {
    if !UiEnabled(s, UiProgress(s.ui)) {
      match s.ui
      case Sending(_) => LooperMoves(s);
      case Closing(_) => LooperMoves(s);
      case Joining => LooperMoves(s);
      case StatusClosing(_) => ReaderMoves(s);
      case TeardownPosting(_) => ReaderMoves(s);
      case _ =>
    }
  }

  lemma NobodyReadsIsStuck(s: State)
    requires Inv(s) && NobodyReads(s)
    ensures Stuck(s)
  {}

  /** Exactly when the engine deadlocks: either Connect posts more statuses than a
      pipe holds, before there is a status thread, or the HID client posts more than
      a pipe holds while it is torn down, after the status thread has ended. */
  lemma DeadlockExactly(capacity: nat, s: State)
    requires Reachable(capacity, s) && 1 <= s.capacity && !s.ui.Destroyed?
    ensures Stuck(s) <==> NobodyReads(s)
  {
    ReachableInv(capacity, s);
    if NobodyReads(s) {
      NobodyReadsIsStuck(s);
    } else {
      SomeoneMoves(s);
    }
  }

  /** Steps that a thread takes on its own do not add to the posts of the UI thread. */
  lemma OwnStepsPostNothing(s: State, a: Action)
    requires Enabled(s, a) && !External(s, a)
    ensures var t := Next(s, a);
      t.connectPosts == s.connectPosts && t.teardownPosts == s.teardownPosts && t.capacity == s.capacity
  {}

  /** From every reachable state, if the UI thread posts no more statuses than a pipe
      holds, the threads on their own bring the Rcu to its destruction. */
  lemma {:induction false} ShutdownCompletes(s: State) returns (run: seq<Action>)
    requires Inv(s) && 1 <= s.capacity
    requires s.connectPosts <= s.capacity && s.teardownPosts <= s.capacity
    ensures IsRun(s, run) && Externals(s, run) == 0
    ensures Final(s, run).ui.Destroyed? && |run| <= Rank(s)
    decreases Rank(s)
  {
    if s.ui.Destroyed? {
      run := [];
    } else {
      var a := Progress(s);
      SomeoneMoves(s);
      StepDescends(s, a);
      InvKept(s, a);
      OwnStepsPostNothing(s, a);
      var rest := ShutdownCompletes(Next(s, a));
      run := [a] + rest;
    }
  }

  // ---- both deadlocks are reachable, and so is the leak

  /** The state in which Connect has had n statuses posted into its pipe. */
  lemma {:induction false} ConnectPosts(capacity: nat, n: nat) returns (s: State)
    requires n <= capacity
    ensures Reachable(capacity, s)
    ensures s.ui.HidOpen? && s.objects.current && s.capacity == capacity
    ensures |s.statuses.pipe| == n == s.connectPosts && s.keys.pipe == []
  {
    if n == 0 {
      s := Init(capacity);
      InitReachable(capacity);
      s := Step(capacity, s, ByUi(OpenPipes));
      s := Step(capacity, s, ByUi(OpenSources));
      s := Step(capacity, s, ByUi(OpenHid));
    } else {
      s := ConnectPosts(capacity, n - 1);
      s := Step(capacity, s, ByUi(ConnectStatus(Connecting)));
      s := Step(capacity, s, ByUi(WriteConnectStatus));
    }
  }

  /** One status more than the pipe holds, and Connect never returns. */
  lemma ConnectCanBlock(capacity: nat)
    requires 1 <= capacity
    ensures exists s :: Reachable(capacity, s) && Stuck(s) && s.connectPosts == capacity + 1
  {
    var s := ConnectPosts(capacity, capacity);
    s := Step(capacity, s, ByUi(ConnectStatus(Connecting)));
    DeadlockExactly(capacity, s);
  }

  /** Connect has returned, with no status posted and no key sent. */
  lemma Connected(capacity: nat) returns (s: State)
    ensures Reachable(capacity, s) && s.ui.Ready? && s.capacity == capacity
    ensures s.looper.Dispatching? && s.reader.Reading? && s.pending.None? && s.objects == ObjectsAt(5)
    ensures s.keys.pipe == [] && s.statuses.pipe == []
  {
    s := ConnectPosts(capacity, 0);
    ReachableInv(capacity, s);
    s := Step(capacity, s, ByUi(StartLooper));
    s := Step(capacity, s, ByUi(StartReader));
    ReachableInv(capacity, s);
  }

  /** Disconnect has joined the looper thread. */
  lemma LooperJoined(capacity: nat) returns (s: State)
    requires 1 <= capacity
    ensures Reachable(capacity, s) && s.ui.Joined? && s.capacity == capacity
    ensures s.looper.Exited? && s.reader.Reading? && s.pending.None? && s.objects == ObjectsAt(8)
    ensures s.statuses.pipe == [] && s.teardownPosts == 0
  {
    s := Connected(capacity);
    s := Step(capacity, s, ByUi(BeginDisconnect));
    s := Step(capacity, s, ByUi(WriteClose));
    s := Step(capacity, s, ByLooper(ReadKey));
    s := Step(capacity, s, ByLooper(FlushPending));
    s := Step(capacity, s, ByLooper(HandleMessage));
    s := Step(capacity, s, ByLooper(DeleteMessage));
    s := Step(capacity, s, ByUi(JoinLooper));
    ReachableInv(capacity, s);
  }

  /** The close marker of the status pipe is written ... */
  lemma StatusesClosed(capacity: nat) returns (s: State)
    requires 1 <= capacity
    ensures Reachable(capacity, s) && s.ui.StatusClosed? && s.capacity == capacity
    ensures s.reader.Reading? && s.pending.None? && s.teardownPosts == 0
    ensures |s.statuses.pipe| == 1 && s.statuses.pipe[0].body.ClosePipe?
  {
    s := LooperJoined(capacity);
    s := Step(capacity, s, ByUi(FreeLooperPipe));
    s := Step(capacity, s, ByUi(CloseStatus));
    s := Step(capacity, s, ByUi(WriteStatusClose));
  }

  /** ... and the status thread has read it and has ended. */
  lemma ReaderEnded(capacity: nat) returns (s: State)
    requires 1 <= capacity
    ensures Reachable(capacity, s) && s.ui.SourcesFreed? && s.capacity == capacity
    ensures s.reader.Finished? && s.pending.None? && s.teardownPosts == 0 && s.statuses.pipe == []
  {
    s := StatusesClosed(capacity);
    s := Step(capacity, s, ByReader(ReadStatus));
    s := Step(capacity, s, ByReader(NameStatus));
    s := Step(capacity, s, ByReader(PostStatus));
    s := Step(capacity, s, ByUi(FreeSources));
  }

  /** Then n statuses are posted, from inside the teardown of the HID client. */
  lemma {:induction false} TeardownPosts(capacity: nat, n: nat) returns (s: State)
    requires n <= capacity && 1 <= capacity
    ensures Reachable(capacity, s) && s.ui.SourcesFreed? && s.capacity == capacity
    ensures s.reader.Finished? && s.pending.None? && |s.statuses.pipe| == n == s.teardownPosts
    decreases n
  {
    if n == 0 {
      s := ReaderEnded(capacity);
    } else {
      s := TeardownPosts(capacity, n - 1);
      ReachableInv(capacity, s);
      assert s.objects.current;
      s := Step(capacity, s, ByUi(TeardownStatus(Idle)));
      s := Step(capacity, s, ByUi(WriteTeardownStatus));
    }
  }

  /** One status more than the pipe holds, and Disconnect never returns. */
  lemma TeardownCanBlock(capacity: nat)
    requires 1 <= capacity
    ensures exists s :: Reachable(capacity, s) && Stuck(s) && s.ui.TeardownPosting? && s.teardownPosts == capacity + 1
  {
    var s := TeardownPosts(capacity, capacity);
    ReachableInv(capacity, s);
    s := Step(capacity, s, ByUi(TeardownStatus(Idle)));
    DeadlockExactly(capacity, s);
  }

  /** From there Disconnect returns ... */
  lemma DisconnectedFrom(capacity: nat, s: State) returns (t: State)
    requires Reachable(capacity, s) && s.ui.SourcesFreed? && s.pending.None?
    ensures Reachable(capacity, t) && t.ui.Disconnected? && t.reader == s.reader && t.statuses == s.statuses
  {
    t := Step(capacity, s, ByUi(FreeHid));
    t := Step(capacity, t, ByUi(FreeLooper));
    t := Step(capacity, t, ByUi(CleanPending));
    t := Step(capacity, t, ByUi(ClearCurrent));
  }

  /** ... and the Rcu is destroyed. */
  lemma DestroyedFrom(capacity: nat, s: State) returns (t: State)
    requires Reachable(capacity, s) && s.ui.SourcesFreed? && s.reader.Finished? && s.pending.None?
    ensures Reachable(capacity, t) && t.ui.Destroyed? && t.statuses == s.statuses
  {
    t := DisconnectedFrom(capacity, s);
    t := Step(capacity, t, ByUi(JoinReader));
    t := Step(capacity, t, ByUi(Destroy));
  }

  /** The status m is left behind in s: created, never deleted, still in the pipe. */
  ghost predicate Leaked(s: State, m: Message) {
    m in s.statuses.pipe && m in s.heap.created && m !in s.heap.deleted
  }

  /** When the Rcu is destroyed, any number of statuses that the pipe holds can be
      left behind. */
  lemma StatusesCanLeak(capacity: nat, n: nat)
    requires n <= capacity && 1 <= capacity
    ensures exists s ::
      && Reachable(capacity, s) && s.ui.Destroyed? && |s.statuses.pipe| == n
      && forall m :: m in s.statuses.pipe ==> Leaked(s, m)
  {
    var s := TeardownPosts(capacity, n);
    s := DestroyedFrom(capacity, s);
    PipedIsNotDeleted(capacity, s);
  }

  lemma PipedIsNotDeleted(capacity: nat, s: State)
    requires Reachable(capacity, s)
    ensures forall m :: m in s.statuses.pipe ==> Leaked(s, m)
  {
    ReachableInv(capacity, s);
    forall m | m in s.statuses.pipe ensures Leaked(s, m) {
      CountedWhenIn(s.statuses.pipe, m);
      HeldIsAlive(s, m);
    }
  }

  lemma InitReachable(capacity: nat)
    ensures Reachable(capacity, Init(capacity))
  {
    assert IsRun(Init(capacity), []) && Final(Init(capacity), []) == Init(capacity);
  }

  lemma Step(capacity: nat, s: State, a: Action) returns (t: State)
    requires Reachable(capacity, s) && Enabled(s, a)
    ensures t == Next(s, a) && Reachable(capacity, t)
  {
    t := Next(s, a);
    var run :| IsRun(Init(capacity), run) && Final(Init(capacity), run) == s;
    RunSnoc(Init(capacity), run, a);
  }

  lemma {:induction false} RunSnoc(s: State, run: seq<Action>, a: Action)
    requires IsRun(s, run) && Enabled(Final(s, run), a)
    ensures IsRun(s, run + [a]) && Final(s, run + [a]) == Next(Final(s, run), a)
    decreases |run|
  {
    if run == [] {
      assert IsRun(s, [a]);
    } else {
      RunSnoc(Next(s, run[0]), run[1..], a);
      assert (run + [a])[1..] == run[1..] + [a];
    }
  }
}
