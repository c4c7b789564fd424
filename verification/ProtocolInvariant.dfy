/** The inductive invariant of the engine, one part a concern, and the proof that
    every step of every thread keeps it. */
module ProtocolInvariant {
  import opened Messages
  import opened Protocol

  /** How far the UI thread has come in the life of the Rcu. */
  function Phase(ui: Ui): nat {
    match ui
    case New => 0
    case Piped => 1
    case Sourced => 2
    case HidOpen => 3
    case ConnectPosting(_) => 3
    case LooperRunning => 4
    case Ready => 5
    case Sending(_) => 5
    case Closing(_) => 6
    case Joining => 7
    case Joined => 8
    case PipeFreed => 9
    case StatusClosing(_) => 10
    case StatusClosed => 11
    case SourcesFreed => 12
    case TeardownPosting(_) => 12
    case HidFreed => 13
    case LooperFreed => 14
    case PendingCleaned => 15
    case Disconnected => 16
    case StatusJoined => 17
    case Destroyed => 18
  }

  /** Which objects exist at a phase of the UI thread. */
  function ObjectsAt(p: nat): Objects {
    Objects(p < 18, 1 <= p < 16, 1 <= p < 9, 1 <= p < 18,
            2 <= p < 14, 2 <= p < 12, 2 <= p < 12, 3 <= p < 13)
  }

  /** Which threads run at a phase. */
  predicate ThreadsAt(p: nat, looper: Looper, reader: Reader) {
    && (looper.NotStarted? <==> p < 4)
    && (8 <= p ==> looper.Exited?)
    && (reader.Unstarted? <==> p < 5)
    && (17 <= p ==> reader.Finished?)
  }

  ghost predicate InvObjects(s: State) {
    && s.objects == ObjectsAt(Phase(s.ui))
    && ThreadsAt(Phase(s.ui), s.looper, s.reader)
  }

  ghost predicate KeysOnly(ms: seq<Message>) {
    forall i :: 0 <= i < |ms| ==> ms[i].body.KeyBody?
  }

  ghost predicate ClosedByMarker(ms: seq<Message>) {
    && ms != []
    && ms[|ms| - 1].body.ClosePipe?
    && KeysOnly(ms[..|ms| - 1])
  }

  /** m is the last message of ms, and only keys came before it. */
  ghost predicate JustRead(ms: seq<Message>, m: Message) {
    && ms != []
    && m == ms[|ms| - 1]
    && KeysOnly(ms[..|ms| - 1])
    && !m.body.StatusBody?
  }

  /** What goes through the looper pipe: keys, then one close marker. */
  ghost predicate SentOk(p: nat, keys: Channel) {
    && keys.Fifo()
    && (if p < 7 then KeysOnly(keys.written) else ClosedByMarker(keys.written))
  }

  /** What a thread holds in its hand is of the kind that its place requires. */
  ghost predicate HandsOk(s: State) {
    && (s.ui.Sending? ==> s.ui.m.body.KeyBody?)
    && (s.ui.Closing? || s.ui.StatusClosing? ==> s.ui.m.body.ClosePipe?)
    && (s.ui.ConnectPosting? || s.ui.TeardownPosting? ==> s.ui.m.body.StatusBody?)
    && (s.looper.PostingStatus? ==> s.looper.m.body.StatusBody?)
    && (s.pending.Some? ==> s.pending.value.body.KeyBody?)
  }

  /** Where the looper thread can stand, given what it has consumed. */
  ghost predicate LooperOk(p: nat, looper: Looper, keys: Channel, pending: Option<Message>, exit: bool) {
    match looper
    case NotStarted => keys.read == [] && pending.None? && !exit
    case Dispatching => KeysOnly(keys.read) && !exit
    case PostingStatus(_) => KeysOnly(keys.read) && !exit
    case Holding(m) => JustRead(keys.read, m) && !exit
    case Flushed(m) => JustRead(keys.read, m) && pending.None? && exit == m.body.ClosePipe?
    case Deleting(m) => JustRead(keys.read, m) && pending.None? && exit == m.body.ClosePipe?
    case Exited => 7 <= p && keys.read == keys.written && pending.None? && exit
  }

  /** The release that is still to be sent. */
  function Late(pending: Option<Message>): seq<Report> {
    if pending.Some? then ReleaseReports(pending.value.body) else []
  }

  /** The reports that the consumed messages still owe to the box. */
  function Owed(looper: Looper, pending: Option<Message>): seq<Report> {
    match looper
    case Holding(m) => Late(pending) + Expansion(m.body)
    case Flushed(m) => Expansion(m.body)
    case _ => Late(pending)
  }

  ghost predicate HidOk(s: State) {
    s.hid + Owed(s.looper, s.pending) == Expand(s.keys.read)
  }

  /** What goes through the status pipe: statuses, and exactly one close marker. */
  ghost predicate WrittenOk(p: nat, statuses: Channel, closeAt: nat) {
    && statuses.Fifo()
    && (11 <= p ==> closeAt < |statuses.written|)
    && (forall i :: 0 <= i < |statuses.written| ==>
          if 11 <= p && i == closeAt then statuses.written[i].body.ClosePipe?
          else statuses.written[i].body.StatusBody?)
  }

  /** One message has left the status pipe and its name has not been posted yet. */
  predicate InFlight(r: Reader) {
    r.Naming? || r.Posting?
  }

  /** How many names the status thread has posted. */
  function PostedCount(reader: Reader, statuses: Channel): int {
    if InFlight(reader) then |statuses.read| - 1 else |statuses.read|
  }

  /** How far the status thread has come, and what it has posted. */
  ghost predicate ReaderOk(p: nat, reader: Reader, statuses: Channel, closeAt: nat, posted: seq<string>) {
    var n := PostedCount(reader, statuses);
    && 0 <= n
    && posted == Names(statuses.read[..n])
    && (reader.Unstarted? ==> statuses.read == [])
    && (reader.Reading? || InFlight(reader) ==> 11 <= p ==> n <= closeAt)
    && (reader.Naming? ==> reader.m == statuses.read[n])
    && (reader.Posting? ==> reader.name == Name(statuses.read[n].body))
    && (reader.Finished? ==> 11 <= p && n == closeAt + 1)
  }

  /** The message that the UI thread has created and not written yet. */
  function UiHand(ui: Ui): Option<Message> {
    match ui
    case ConnectPosting(m) => Some(m)
    case Sending(m) => Some(m)
    case Closing(m) => Some(m)
    case StatusClosing(m) => Some(m)
    case TeardownPosting(m) => Some(m)
    case _ => None
  }

  /** The message of the callback that the looper thread is in. */
  function LooperHand(l: Looper): Option<Message> {
    match l
    case Holding(m) => Some(m)
    case Flushed(m) => Some(m)
    case Deleting(m) => Some(m)
    case PostingStatus(m) => Some(m)
    case _ => None
  }

  /** The message that ReadStatus has read and not deleted yet. */
  function ReaderHand(r: Reader): Option<Message> {
    if r.Naming? then Some(r.m) else None
  }

  function Count(ms: seq<Message>, m: Message): nat {
    if ms == [] then 0 else Count(ms[1..], m) + Has(Some(ms[0]), m)
  }

  function Has(o: Option<Message>, m: Message): nat {
    if o == Some(m) then 1 else 0
  }

  /** In how many places a message is held. */
  function Held(s: State, m: Message): nat {
    Count(s.keys.pipe, m) + Count(s.statuses.pipe, m)
    + Has(UiHand(s.ui), m) + Has(LooperHand(s.looper), m) + Has(ReaderHand(s.reader), m) + Has(s.pending, m)
  }

  /** Identities are handed out in order, so no two messages share one. */
  ghost predicate Numbered(ms: seq<Message>) {
    forall i :: 0 <= i < |ms| ==> ms[i].id == i
  }

  /** A message is in as many places, the deleted ones included, as it was created times. */
  ghost predicate Conserved(s: State, m: Message) {
    Count(s.heap.created, m) == Held(s, m) + Count(s.heap.deleted, m)
  }

  ghost predicate Owned(s: State) {
    && Numbered(s.heap.created)
    && forall m :: Conserved(s, m)
  }

  /** 1 while the UI thread is inside OnStatus. */
  function UiPosting(ui: Ui): nat {
    if ui.ConnectPosting? || ui.TeardownPosting? then 1 else 0
  }

  /** How many statuses were written while nobody was bound to read them. */
  ghost predicate PostsOk(p: nat, posting: nat, statuses: Channel, closeAt: nat, connects: nat, teardowns: nat) {
    && (p < 4 ==> statuses.read == [] && |statuses.written| + posting == connects)
    && (p <= 11 ==> teardowns == 0)
    && (11 <= p ==> |statuses.written| + posting == closeAt + 1 + teardowns)
  }

  ghost predicate Inv(s: State) {
    && InvObjects(s)
    && HandsOk(s)
    && SentOk(Phase(s.ui), s.keys)
    && LooperOk(Phase(s.ui), s.looper, s.keys, s.pending, s.exitRequested)
    && HidOk(s)
    && WrittenOk(Phase(s.ui), s.statuses, s.closeAt)
    && ReaderOk(Phase(s.ui), s.reader, s.statuses, s.closeAt, s.posted)
    && Owned(s)
    && PostsOk(Phase(s.ui), UiPosting(s.ui), s.statuses, s.closeAt, s.connectPosts, s.teardownPosts)
  }

  lemma InitInv(capacity: nat)
    ensures Inv(Init(capacity))
  {}

  // ---- what the steps of one thread leave alone

  /** The labels of Disconnect, of the join after it and of the destructor. */
  predicate Disconnects(u: UiAction) {
    match u
    case OpenPipes => false
    case OpenSources => false
    case OpenHid => false
    case ConnectStatus(_) => false
    case WriteConnectStatus => false
    case StartLooper => false
    case StartReader => false
    case SendKey(_, _, _) => false
    case WriteKey => false
    case _ => true
  }

  lemma UiFrame(s: State, u: UiAction)
    requires UiEnabled(s, u)
    ensures var t := UiNext(s, u);
      && t.hid == s.hid && t.posted == s.posted && t.exitRequested == s.exitRequested
      && (t.keys == s.keys || u.WriteKey? || u.WriteClose?)
      && (t.statuses == s.statuses || u.WriteConnectStatus? || u.WriteStatusClose? || u.WriteTeardownStatus?)
      && (t.looper == s.looper || u.StartLooper?)
      && (t.reader == s.reader || u.StartReader?)
  {}

  /** A step from s to t goes forward, and the two close markers are written where they should be. */
  ghost predicate Advances(s: State, u: UiAction, t: State) {
    var p, q := Phase(s.ui), Phase(t.ui);
    && p <= q
    && (q < 7 || u.WriteClose? || 7 <= p)
    && (q < 11 || u.WriteStatusClose? || (11 <= p && t.closeAt == s.closeAt))
  }

  lemma UiAdvances(s: State, u: UiAction)
    requires UiEnabled(s, u) && s.objects == ObjectsAt(Phase(s.ui))
    ensures Advances(s, u, UiNext(s, u))
  {
    if Disconnects(u) {
      DisconnectAdvances(s, u);
    } else {
      ConnectAdvances(s, u);
    }
  }

  lemma ConnectAdvances(s: State, u: UiAction)
    requires UiEnabled(s, u) && !Disconnects(u) && s.objects == ObjectsAt(Phase(s.ui))
    ensures Advances(s, u, UiNext(s, u))
  {}

  lemma DisconnectAdvances(s: State, u: UiAction)
    requires UiEnabled(s, u) && Disconnects(u) && s.objects == ObjectsAt(Phase(s.ui))
    ensures Advances(s, u, UiNext(s, u))
  {}

  lemma LooperFrame(s: State, l: LooperAction)
    requires LooperEnabled(s, l)
    ensures var t := LooperNext(s, l);
      && t.ui == s.ui && t.reader == s.reader && t.objects == s.objects
      && t.posted == s.posted && t.closeAt == s.closeAt
      && t.connectPosts == s.connectPosts && t.teardownPosts == s.teardownPosts
      && (l.ReadKey? || t.keys == s.keys)
      && (l.WriteLooperStatus? || t.statuses == s.statuses)
  {}

  // ---- objects and hands

  lemma UiKeepsObjects(s: State, u: UiAction)
    requires InvObjects(s) && UiEnabled(s, u)
    ensures InvObjects(UiNext(s, u))
  {
    if Disconnects(u) {
      DisconnectMovesObjects(s, u);
    } else {
      ConnectMovesObjects(s, u);
    }
    UiKeepsThreads(s, u);
  }

  lemma ConnectMovesObjects(s: State, u: UiAction)
    requires s.objects == ObjectsAt(Phase(s.ui)) && UiEnabled(s, u) && !Disconnects(u)
    ensures UiNext(s, u).objects == ObjectsAt(Phase(UiNext(s, u).ui))
  {}

  predicate Frees(u: UiAction) {
    u.FreeLooperPipe? || u.FreeSources? || u.FreeHid? || u.FreeLooper? || u.ClearCurrent? || u.Destroy?
  }

  lemma DisconnectMovesObjects(s: State, u: UiAction)
    requires s.objects == ObjectsAt(Phase(s.ui)) && UiEnabled(s, u) && Disconnects(u)
    ensures UiNext(s, u).objects == ObjectsAt(Phase(UiNext(s, u).ui))
  {
    if Frees(u) {
      FreeingMovesObjects(s, u);
    } else {
      assert UiNext(s, u).objects == s.objects;
    }
  }

  lemma FreeingMovesObjects(s: State, u: UiAction)
    requires s.objects == ObjectsAt(Phase(s.ui)) && UiEnabled(s, u) && Frees(u)
    ensures UiNext(s, u).objects == ObjectsAt(Phase(UiNext(s, u).ui))
  {
    var p := Phase(s.ui);
    assert s.objects == ObjectsAt(p);
  }

  lemma UiKeepsThreads(s: State, u: UiAction)
    requires InvObjects(s) && UiEnabled(s, u)
    ensures var t := UiNext(s, u); ThreadsAt(Phase(t.ui), t.looper, t.reader)
  {
    UiFrame(s, u);
    UiAdvances(s, u);
    UiJoins(s, u);
  }

  /** The threads are started and joined where they should be. */
  ghost predicate StartsAndJoins(s: State, u: UiAction, t: State) {
    var p, q := Phase(s.ui), Phase(t.ui);
    && (u.StartLooper? <==> p < 4 <= q) && (u.StartReader? <==> p < 5 <= q)
    && (u.StartLooper? ==> t.looper.Dispatching?)
    && (u.StartReader? ==> t.reader.Reading?)
    && (u.JoinLooper? <==> p < 8 <= q) && (u.JoinReader? <==> p < 17 <= q)
  }

  lemma UiJoins(s: State, u: UiAction)
    requires UiEnabled(s, u) && s.objects == ObjectsAt(Phase(s.ui))
    ensures StartsAndJoins(s, u, UiNext(s, u))
  {
    if Disconnects(u) {
      DisconnectJoins(s, u);
    } else {
      ConnectJoins(s, u);
    }
  }

  lemma ConnectJoins(s: State, u: UiAction)
    requires UiEnabled(s, u) && !Disconnects(u) && s.objects == ObjectsAt(Phase(s.ui))
    ensures StartsAndJoins(s, u, UiNext(s, u))
  {}

  lemma DisconnectJoins(s: State, u: UiAction)
    requires UiEnabled(s, u) && Disconnects(u) && s.objects == ObjectsAt(Phase(s.ui))
    ensures StartsAndJoins(s, u, UiNext(s, u))
  {}

  lemma LooperKeepsObjects(s: State, l: LooperAction)
    requires InvObjects(s) && LooperEnabled(s, l)
    ensures InvObjects(LooperNext(s, l))
  {}

  lemma UiKeepsHands(s: State, u: UiAction)
    requires HandsOk(s) && UiEnabled(s, u)
    ensures HandsOk(UiNext(s, u))
  {}

  lemma LooperKeepsHands(s: State, l: LooperAction)
    requires HandsOk(s) && LooperEnabled(s, l)
    ensures HandsOk(LooperNext(s, l))
  {}

  // ---- the looper pipe

  lemma WriteKeepsFifo(c: Channel, m: Message)
    requires c.Fifo()
    ensures c.Write(m).Fifo()
  {}

  lemma ReadKeepsFifo(c: Channel)
    requires c.Fifo() && c.pipe != []
    ensures c.Read().Fifo()
    ensures c.written[|c.read|] == c.pipe[0]
  {}

  lemma KeyKeepsSent(p: nat, keys: Channel, m: Message)
    requires SentOk(p, keys) && p < 7 && m.body.KeyBody?
    ensures SentOk(p, keys.Write(m))
  {
    WriteKeepsFifo(keys, m);
  }

  lemma MarkerClosesSent(p: nat, q: nat, keys: Channel, m: Message)
    requires SentOk(p, keys) && p < 7 <= q && m.body.ClosePipe?
    ensures SentOk(q, keys.Write(m))
  {
    WriteKeepsFifo(keys, m);
    assert (keys.written + [m])[..|keys.written|] == keys.written;
  }

  lemma SentStays(p: nat, q: nat, keys: Channel)
    requires SentOk(p, keys) && (p < 7 <==> q < 7)
    ensures SentOk(q, keys)
  {}

  lemma UiKeepsSent(s: State, u: UiAction)
    requires InvObjects(s) && HandsOk(s) && SentOk(Phase(s.ui), s.keys) && UiEnabled(s, u)
    ensures SentOk(Phase(UiNext(s, u).ui), UiNext(s, u).keys)
  {
    if u.WriteKey? {
      KeyKeepsSent(5, s.keys, s.ui.m);
    } else if u.WriteClose? {
      MarkerClosesSent(6, 7, s.keys, s.ui.m);
    } else {
      UiFrame(s, u);
      UiAdvances(s, u);
      SentStays(Phase(s.ui), Phase(UiNext(s, u).ui), s.keys);
    }
  }

  lemma LooperKeepsSent(s: State, l: LooperAction)
    requires SentOk(Phase(s.ui), s.keys) && LooperEnabled(s, l)
    ensures SentOk(Phase(s.ui), LooperNext(s, l).keys)
  {}

  // ---- the looper thread

  lemma UiKeepsLooper(s: State, u: UiAction)
    requires InvObjects(s) && UiEnabled(s, u)
    requires LooperOk(Phase(s.ui), s.looper, s.keys, s.pending, s.exitRequested)
    ensures var t := UiNext(s, u); LooperOk(Phase(t.ui), t.looper, t.keys, t.pending, t.exitRequested)
  {
    UiFrame(s, u);
    UiAdvances(s, u);
  }

  lemma MarkerIsLast(ms: seq<Message>, n: nat)
    requires n < |ms| && !ms[n].body.KeyBody?
    requires KeysOnly(ms) || ClosedByMarker(ms)
    ensures ClosedByMarker(ms) && n == |ms| - 1
  {}

  lemma ReadKeyIsJustRead(p: nat, keys: Channel)
    requires SentOk(p, keys) && KeysOnly(keys.read) && keys.pipe != []
    ensures JustRead(keys.Read().read, keys.pipe[0])
  {
    if keys.pipe[0].body.StatusBody? {
      MarkerIsLast(keys.written, |keys.read|);
    }
  }

  lemma JustReadKey(ms: seq<Message>, m: Message)
    requires JustRead(ms, m) && m.body.KeyBody?
    ensures KeysOnly(ms)
  {}

  /** Once the close marker is read, nothing is left to read. */
  lemma MarkerReadIsDrained(p: nat, keys: Channel, m: Message)
    requires SentOk(p, keys) && JustRead(keys.read, m) && m.body.ClosePipe?
    ensures 7 <= p && keys.read == keys.written && keys.pipe == []
  {
    var n := |keys.read| - 1;
    MarkerIsLast(keys.written, n);
  }

  lemma LooperKeepsLooper(s: State, l: LooperAction)
    requires HandsOk(s) && SentOk(Phase(s.ui), s.keys) && LooperEnabled(s, l)
    requires LooperOk(Phase(s.ui), s.looper, s.keys, s.pending, s.exitRequested)
    ensures var t := LooperNext(s, l); LooperOk(Phase(t.ui), t.looper, t.keys, t.pending, t.exitRequested)
  {
    match l
    case ReadKey => ReadKeyIsJustRead(Phase(s.ui), s.keys);
    case HandleMessage =>
      if s.looper.m.body.KeyBody? {
        JustReadKey(s.keys.read, s.looper.m);
      }
    case DeleteMessage =>
      if s.looper.m.body.KeyBody? {
        JustReadKey(s.keys.read, s.looper.m);
      } else {
        MarkerReadIsDrained(Phase(s.ui), s.keys, s.looper.m);
      }
    case _ =>
  }

  // ---- the reports

  lemma UiKeepsHid(s: State, u: UiAction)
    requires InvObjects(s) && HidOk(s) && UiEnabled(s, u)
    requires LooperOk(Phase(s.ui), s.looper, s.keys, s.pending, s.exitRequested)
    ensures HidOk(UiNext(s, u))
  {}

  lemma ReadKeyKeepsHid(s: State)
    requires HidOk(s) && LooperEnabled(s, ReadKey)
    ensures HidOk(LooperNext(s, ReadKey))
  {}

  lemma FlushKeepsHid(s: State)
    requires HidOk(s) && LooperEnabled(s, FlushPending)
    ensures HidOk(LooperNext(s, FlushPending))
  {}

  lemma HandleKeepsHid(s: State)
    requires HidOk(s) && LooperEnabled(s, HandleMessage)
    requires LooperOk(Phase(s.ui), s.looper, s.keys, s.pending, s.exitRequested)
    ensures HidOk(LooperNext(s, HandleMessage))
  {}

  lemma LooperKeepsHid(s: State, l: LooperAction)
    requires HidOk(s) && LooperEnabled(s, l)
    requires LooperOk(Phase(s.ui), s.looper, s.keys, s.pending, s.exitRequested)
    ensures HidOk(LooperNext(s, l))
  {
    match l
    case ReadKey => ReadKeyKeepsHid(s);
    case FlushPending => FlushKeepsHid(s);
    case HandleMessage => HandleKeepsHid(s);
    case _ =>
  }

  // ---- the status pipe

  lemma UiKeepsWritten(s: State, u: UiAction)
    requires InvObjects(s) && HandsOk(s) && WrittenOk(Phase(s.ui), s.statuses, s.closeAt) && UiEnabled(s, u)
    ensures var t := UiNext(s, u); WrittenOk(Phase(t.ui), t.statuses, t.closeAt)
  {
    UiFrame(s, u);
    UiAdvances(s, u);
  }

  lemma LooperKeepsWritten(s: State, l: LooperAction)
    requires HandsOk(s) && WrittenOk(Phase(s.ui), s.statuses, s.closeAt) && LooperEnabled(s, l)
    requires InvObjects(s)
    ensures var t := LooperNext(s, l); WrittenOk(Phase(t.ui), t.statuses, t.closeAt)
  {}

  lemma ReaderKeepsWritten(s: State, r: ReaderAction)
    requires WrittenOk(Phase(s.ui), s.statuses, s.closeAt) && ReaderEnabled(s, r)
    ensures WrittenOk(Phase(s.ui), ReaderNext(s, r).statuses, s.closeAt)
  {}

  // ---- the status thread

  lemma UiKeepsReader(s: State, u: UiAction)
    requires InvObjects(s) && UiEnabled(s, u) && s.statuses.Fifo()
    requires ReaderOk(Phase(s.ui), s.reader, s.statuses, s.closeAt, s.posted)
    ensures var t := UiNext(s, u); ReaderOk(Phase(t.ui), t.reader, t.statuses, t.closeAt, t.posted)
  {
    UiFrame(s, u);
    UiAdvances(s, u);
  }

  lemma LooperKeepsReader(s: State, l: LooperAction)
    requires LooperEnabled(s, l)
    requires ReaderOk(Phase(s.ui), s.reader, s.statuses, s.closeAt, s.posted)
    ensures var t := LooperNext(s, l); ReaderOk(Phase(t.ui), t.reader, t.statuses, t.closeAt, t.posted)
  {}

  lemma ReaderKeepsReader(s: State, r: ReaderAction)
    requires WrittenOk(Phase(s.ui), s.statuses, s.closeAt) && ReaderEnabled(s, r)
    requires ReaderOk(Phase(s.ui), s.reader, s.statuses, s.closeAt, s.posted)
    ensures var t := ReaderNext(s, r); ReaderOk(Phase(t.ui), t.reader, t.statuses, t.closeAt, t.posted)
  {
    var read := s.statuses.read;
    if r.PostStatus? {
      var n := |read| - 1;
      assert s.statuses.written[n] == read[n];
      assert read[..n + 1] == read[..n] + [read[n]];
      assert Names(read[..n + 1]) == Names(read[..n]) + [Name(read[n].body)];
    }
  }

  lemma OnlyTheMarkerIsExit(b: Body)
    ensures Name(b) == "EXIT" <==> b.ClosePipe?
  {}

  // ---- ownership

  lemma {:induction false} CountSnoc(ms: seq<Message>, x: Message, m: Message)
    ensures Count(ms + [x], m) == Count(ms, m) + Has(Some(x), m)
  {
    if ms != [] {
      assert (ms + [x])[1..] == ms[1..] + [x];
      CountSnoc(ms[1..], x, m);
    }
  }

  lemma CountHead(ms: seq<Message>, m: Message)
    requires ms != []
    ensures Count(ms, m) == Count(ms[1..], m) + Has(Some(ms[0]), m)
  {}

  predicate SameElsewhere(s: State, t: State) {
    s.looper == t.looper && s.reader == t.reader && s.pending == t.pending
  }

  lemma UiWritesKey(s: State, u: UiAction, m: Message)
    requires Conserved(s, m) && UiEnabled(s, u) && (u.WriteKey? || u.WriteClose?)
    ensures Conserved(UiNext(s, u), m)
  {
    CountSnoc(s.keys.pipe, s.ui.m, m);
  }

  lemma UiWritesStatus(s: State, u: UiAction, m: Message)
    requires Conserved(s, m) && UiEnabled(s, u)
    requires u.WriteConnectStatus? || u.WriteStatusClose? || u.WriteTeardownStatus?
    ensures Conserved(UiNext(s, u), m)
  {
    CountSnoc(s.statuses.pipe, s.ui.m, m);
  }

  /** What a step that creates a message leaves alone. */
  ghost predicate Creates(s: State, t: State) {
    && UiHand(t.ui).Some?
    && t.keys == s.keys && t.statuses == s.statuses && SameElsewhere(s, t)
    && t.heap == s.heap.(created := s.heap.created + [UiHand(t.ui).value])
  }

  /** A step that creates a message leaves it in the hand of the UI thread. */
  lemma UiCreates(s: State, u: UiAction)
    requires UiEnabled(s, u) && UiHand(s.ui).None? && UiHand(UiNext(s, u).ui).Some?
    ensures Creates(s, UiNext(s, u))
  {
    if u.SendKey? || u.ConnectStatus? {
      assert Creates(s, UiNext(s, u));
    } else if u.BeginDisconnect? || u.CloseStatus? || u.TeardownStatus? {
      assert Creates(s, UiNext(s, u));
    } else {
      OthersCreateNothing(s, u);
    }
  }

  lemma OthersCreateNothing(s: State, u: UiAction)
    requires UiEnabled(s, u) && UiHand(s.ui).None?
    requires !u.SendKey? && !u.ConnectStatus? && !u.BeginDisconnect? && !u.CloseStatus? && !u.TeardownStatus?
    ensures UiHand(UiNext(s, u).ui).None?
  {}

  lemma CreationConserves(s: State, t: State, m: Message)
    requires Conserved(s, m) && UiHand(s.ui).None? && Creates(s, t)
    ensures Conserved(t, m)
  {
    CountSnoc(s.heap.created, UiHand(t.ui).value, m);
  }

  /** The other steps of the UI thread move no message, except the clean-up of a
      pending key. */
  ghost predicate MovesNothing(s: State, u: UiAction, t: State) {
    && t.keys == s.keys && t.statuses == s.statuses
    && LooperHand(t.looper) == LooperHand(s.looper) && ReaderHand(t.reader) == ReaderHand(s.reader)
    && (if u.CleanPending? && s.pending.Some?
        then t.pending.None? && t.heap == s.heap.Delete(s.pending.value)
        else t.pending == s.pending && t.heap == s.heap)
  }

  lemma ConnectMovesNothing(s: State, u: UiAction)
    requires InvObjects(s) && UiEnabled(s, u) && !Disconnects(u)
    requires UiHand(s.ui).None? && UiHand(UiNext(s, u).ui).None?
    ensures MovesNothing(s, u, UiNext(s, u))
  {}

  lemma DisconnectMovesNothing(s: State, u: UiAction)
    requires UiEnabled(s, u) && Disconnects(u)
    requires UiHand(s.ui).None? && UiHand(UiNext(s, u).ui).None?
    ensures MovesNothing(s, u, UiNext(s, u))
  {}

  lemma UiMovesNothing(s: State, u: UiAction)
    requires InvObjects(s) && UiEnabled(s, u)
    requires UiHand(s.ui).None? && UiHand(UiNext(s, u).ui).None?
    ensures MovesNothing(s, u, UiNext(s, u))
  {
    if Disconnects(u) {
      DisconnectMovesNothing(s, u);
    } else {
      ConnectMovesNothing(s, u);
    }
  }

  lemma UiConserves(s: State, u: UiAction, m: Message)
    requires InvObjects(s) && Conserved(s, m) && UiEnabled(s, u)
    ensures Conserved(UiNext(s, u), m)
  {
    var t := UiNext(s, u);
    if u.WriteKey? || u.WriteClose? {
      UiWritesKey(s, u, m);
    } else if u.WriteConnectStatus? || u.WriteStatusClose? || u.WriteTeardownStatus? {
      UiWritesStatus(s, u, m);
    } else if UiHand(t.ui).Some? {
      UiCreates(s, u);
      CreationConserves(s, t, m);
    } else {
      UiMovesNothing(s, u);
      if u.CleanPending? && s.pending.Some? {
        CountSnoc(s.heap.deleted, s.pending.value, m);
      }
    }
  }

  lemma ReleaseConserves(s: State, m: Message)
    requires Conserved(s, m)
    ensures Conserved(ReleasePending(s), m)
  {
    if s.pending.Some? {
      CountSnoc(s.heap.deleted, s.pending.value, m);
    }
  }

  lemma HandlingConserves(s: State, m: Message)
    requires Conserved(s, m) && LooperEnabled(s, HandleMessage) && s.pending.None?
    ensures Conserved(LooperNext(s, HandleMessage), m)
  {
    HandlingMovesToSlot(s);
  }

  lemma HandlingMovesToSlot(s: State)
    requires LooperEnabled(s, HandleMessage) && s.pending.None?
    ensures var t, m := LooperNext(s, HandleMessage), s.looper.m;
      && t.ui == s.ui && t.reader == s.reader && t.keys == s.keys && t.statuses == s.statuses && t.heap == s.heap
      && ((t.looper == Deleting(m) && t.pending == None) || (t.looper == Dispatching && t.pending == Some(m)))
  {}

  lemma LooperStatusConserves(s: State, c: HidState, m: Message)
    requires Conserved(s, m) && LooperEnabled(s, LooperStatus(c))
    ensures Conserved(LooperNext(s, LooperStatus(c)), m)
  {
    CountSnoc(s.heap.created, s.heap.Fresh(StatusBody(c)), m);
  }

  lemma LooperConserves(s: State, l: LooperAction, m: Message)
    requires Conserved(s, m) && LooperEnabled(s, l)
    requires LooperOk(Phase(s.ui), s.looper, s.keys, s.pending, s.exitRequested)
    ensures Conserved(LooperNext(s, l), m)
  {
    match l
    case ReadKey => CountHead(s.keys.pipe, m);
    case FlushPending => ReleaseConserves(s, m);
    case TimerFires => ReleaseConserves(s, m);
    case HandleMessage => HandlingConserves(s, m);
    case DeleteMessage => CountSnoc(s.heap.deleted, s.looper.m, m);
    case LooperStatus(c) => LooperStatusConserves(s, c, m);
    case WriteLooperStatus => CountSnoc(s.statuses.pipe, s.looper.m, m);
  }

  lemma ReaderConserves(s: State, r: ReaderAction, m: Message)
    requires Conserved(s, m) && ReaderEnabled(s, r)
    ensures Conserved(ReaderNext(s, r), m)
  {
    match r
    case ReadStatus => CountHead(s.statuses.pipe, m);
    case NameStatus => CountSnoc(s.heap.deleted, s.reader.m, m);
    case PostStatus =>
  }

  lemma UiStaysNumbered(s: State, u: UiAction)
    requires Numbered(s.heap.created) && UiEnabled(s, u)
    ensures Numbered(UiNext(s, u).heap.created)
  {}

  lemma UiKeepsOwned(s: State, u: UiAction)
    requires InvObjects(s) && Owned(s) && UiEnabled(s, u)
    ensures Owned(UiNext(s, u))
  {
    UiStaysNumbered(s, u);
    forall m ensures Conserved(UiNext(s, u), m) {
      UiConserves(s, u, m);
    }
  }

  lemma LooperKeepsOwned(s: State, l: LooperAction)
    requires Owned(s) && LooperEnabled(s, l)
    requires LooperOk(Phase(s.ui), s.looper, s.keys, s.pending, s.exitRequested)
    ensures Owned(LooperNext(s, l))
  {
    forall m ensures Conserved(LooperNext(s, l), m) {
      LooperConserves(s, l, m);
    }
  }

  lemma ReaderKeepsOwned(s: State, r: ReaderAction)
    requires Owned(s) && ReaderEnabled(s, r)
    ensures Owned(ReaderNext(s, r))
  {
    forall m ensures Conserved(ReaderNext(s, r), m) {
      ReaderConserves(s, r, m);
    }
  }

  // ---- the statuses that nobody reads

  lemma UiKeepsPosts(s: State, u: UiAction)
    requires InvObjects(s) && UiEnabled(s, u)
    requires PostsOk(Phase(s.ui), UiPosting(s.ui), s.statuses, s.closeAt, s.connectPosts, s.teardownPosts)
    ensures var t := UiNext(s, u);
      PostsOk(Phase(t.ui), UiPosting(t.ui), t.statuses, t.closeAt, t.connectPosts, t.teardownPosts)
  {
    UiAdvances(s, u);
    UiCountsPosts(s, u);
  }

  /** The posts of the UI thread are counted, and so are the messages in the status pipe. */
  ghost predicate CountsPosts(s: State, u: UiAction, t: State) {
    && t.connectPosts == s.connectPosts + (if u.ConnectStatus? then 1 else 0)
    && t.teardownPosts == s.teardownPosts + (if u.TeardownStatus? then 1 else 0)
    && |t.statuses.written| + UiPosting(t.ui) == |s.statuses.written| + UiPosting(s.ui)
         + (if u.ConnectStatus? || u.TeardownStatus? || u.WriteStatusClose? then 1 else 0)
    && t.statuses.read == s.statuses.read
    && (u.ConnectStatus? ==> Phase(s.ui) == Phase(t.ui) == 3)
    && (u.TeardownStatus? ==> Phase(s.ui) == Phase(t.ui) == 12)
    && (u.WriteStatusClose? ==> Phase(s.ui) == 10 && Phase(t.ui) == 11 && t.closeAt == |s.statuses.written|)
  }

  lemma UiCountsPosts(s: State, u: UiAction)
    requires s.objects == ObjectsAt(Phase(s.ui)) && UiEnabled(s, u)
    ensures CountsPosts(s, u, UiNext(s, u))
  {
    if Disconnects(u) {
      DisconnectCountsPosts(s, u);
    } else {
      ConnectCountsPosts(s, u);
    }
  }

  lemma ConnectCountsPosts(s: State, u: UiAction)
    requires s.objects == ObjectsAt(Phase(s.ui)) && UiEnabled(s, u) && !Disconnects(u)
    ensures CountsPosts(s, u, UiNext(s, u))
  {}

  predicate Posts(u: UiAction) {
    u.TeardownStatus? || u.WriteTeardownStatus? || u.WriteStatusClose?
  }

  lemma TeardownCountsPosts(s: State, u: UiAction)
    requires s.objects == ObjectsAt(Phase(s.ui)) && UiEnabled(s, u) && Posts(u)
    ensures CountsPosts(s, u, UiNext(s, u))
  {}

  lemma OthersPostNothing(s: State, u: UiAction)
    requires UiEnabled(s, u) && Disconnects(u) && !Posts(u)
    ensures var t := UiNext(s, u);
      && t.connectPosts == s.connectPosts && t.teardownPosts == s.teardownPosts && t.statuses == s.statuses
      && UiPosting(t.ui) == UiPosting(s.ui) == 0
  {}

  lemma DisconnectCountsPosts(s: State, u: UiAction)
    requires s.objects == ObjectsAt(Phase(s.ui)) && UiEnabled(s, u) && Disconnects(u)
    ensures CountsPosts(s, u, UiNext(s, u))
  {
    if Posts(u) {
      TeardownCountsPosts(s, u);
    } else {
      OthersPostNothing(s, u);
    }
  }

  lemma LooperKeepsPosts(s: State, l: LooperAction)
    requires InvObjects(s) && LooperEnabled(s, l)
    requires PostsOk(Phase(s.ui), UiPosting(s.ui), s.statuses, s.closeAt, s.connectPosts, s.teardownPosts)
    ensures var t := LooperNext(s, l);
      PostsOk(Phase(t.ui), UiPosting(t.ui), t.statuses, t.closeAt, t.connectPosts, t.teardownPosts)
  {}

  // ---- all together

  lemma UiKeepsInv(s: State, u: UiAction)
    requires Inv(s) && UiEnabled(s, u)
    ensures Inv(UiNext(s, u))
  {
    UiKeepsObjects(s, u);
    UiKeepsHands(s, u);
    UiKeepsSent(s, u);
    UiKeepsLooper(s, u);
    UiKeepsHid(s, u);
    UiKeepsWritten(s, u);
    UiKeepsReader(s, u);
    UiKeepsOwned(s, u);
    UiKeepsPosts(s, u);
  }

  lemma LooperKeepsInv(s: State, l: LooperAction)
    requires Inv(s) && LooperEnabled(s, l)
    ensures Inv(LooperNext(s, l))
  {
    LooperFrame(s, l);
    LooperKeepsObjects(s, l);
    LooperKeepsHands(s, l);
    LooperKeepsSent(s, l);
    LooperKeepsLooper(s, l);
    LooperKeepsHid(s, l);
    LooperKeepsWritten(s, l);
    LooperKeepsReader(s, l);
    LooperKeepsOwned(s, l);
    LooperKeepsPosts(s, l);
  }

  lemma ReaderFrame(s: State, r: ReaderAction)
    requires ReaderEnabled(s, r)
    ensures var t := ReaderNext(s, r);
      && t.ui == s.ui && t.looper == s.looper && t.objects == s.objects && t.keys == s.keys
      && t.pending == s.pending && t.exitRequested == s.exitRequested && t.hid == s.hid && t.closeAt == s.closeAt
      && t.connectPosts == s.connectPosts && t.teardownPosts == s.teardownPosts
      && t.statuses.written == s.statuses.written && !t.reader.Unstarted?
  {}

  lemma ReaderKeepsObjects(s: State, r: ReaderAction)
    requires InvObjects(s) && ReaderEnabled(s, r)
    ensures InvObjects(ReaderNext(s, r))
  {
    ReaderFrame(s, r);
  }

  lemma ReaderKeepsPosts(s: State, r: ReaderAction)
    requires InvObjects(s) && ReaderEnabled(s, r)
    requires PostsOk(Phase(s.ui), UiPosting(s.ui), s.statuses, s.closeAt, s.connectPosts, s.teardownPosts)
    ensures var t := ReaderNext(s, r);
      PostsOk(Phase(t.ui), UiPosting(t.ui), t.statuses, t.closeAt, t.connectPosts, t.teardownPosts)
  {
    ReaderFrame(s, r);
  }

  lemma ReaderKeepsInv(s: State, r: ReaderAction)
    requires Inv(s) && ReaderEnabled(s, r)
    ensures Inv(ReaderNext(s, r))
  {
    ReaderFrame(s, r);
    ReaderKeepsObjects(s, r);
    ReaderKeepsPosts(s, r);
    ReaderKeepsWritten(s, r);
    ReaderKeepsReader(s, r);
    ReaderKeepsOwned(s, r);
  }

  lemma InvKept(s: State, a: Action)
    requires Inv(s) && Enabled(s, a)
    ensures Inv(Next(s, a))
  {
    match a
    case ByUi(u) => UiKeepsInv(s, u);
    case ByLooper(l) => LooperKeepsInv(s, l);
    case ByReader(r) => ReaderKeepsInv(s, r);
  }

  /** The invariant holds at the end of every run. */
  lemma {:induction false} RunKeepsInv(s: State, run: seq<Action>)
    requires Inv(s) && IsRun(s, run)
    ensures Inv(Final(s, run))
    decreases |run|
  {
    if run != [] {
      InvKept(s, run[0]);
      RunKeepsInv(Next(s, run[0]), run[1..]);
    }
  }

  lemma ReachableInv(capacity: nat, s: State)
    requires Reachable(capacity, s)
    ensures Inv(s)
  {
    var run :| IsRun(Init(capacity), run) && Final(Init(capacity), run) == s;
    InitInv(capacity);
    RunKeepsInv(Init(capacity), run);
  }
}
