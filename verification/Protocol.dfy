/** One remote-control engine (Rcu.cpp) as a labelled transition system.

    Three threads act on it: the UI thread (Connect, SendKey*, Disconnect and the
    destructor), the looper thread (the two event callbacks and the HID client's
    status callback) and the status thread (ReadStatus in a loop). A label is one
    atomic step of one thread: between two labels any other thread may run. Pipes
    are bounded and block their writers. No step looks at whether an object is
    alive before it uses it: that it is alive is a theorem (ProtocolTheorems). */
module Protocol {
  import opened Messages

  /** Where the UI thread stands. The constructors that carry a message are inside
      a Pipe::Write that has not gone through yet. */
  datatype Ui =
    | New | Piped | Sourced
    | HidOpen | ConnectPosting(m: Message)
    | LooperRunning
    | Ready | Sending(m: Message)
    | Closing(m: Message) | Joining | Joined | PipeFreed
    | StatusClosing(m: Message) | StatusClosed
    | SourcesFreed | TeardownPosting(m: Message)
    | HidFreed | LooperFreed | PendingCleaned | Disconnected
    | StatusJoined | Destroyed

  /** Where the looper thread stands. */
  datatype Looper =
    | NotStarted
    | Dispatching                 // inside the event loop, no callback running
    | Holding(m: Message)         // OnKeyAvailable has read m
    | Flushed(m: Message)         // ... and has released the previous key
    | Deleting(m: Message)        // ... and has handled m
    | PostingStatus(m: Message)   // OnStatus is writing m into the status pipe
    | Exited

  /** Where the status thread stands. */
  datatype Reader =
    | Unstarted
    | Reading
    | Naming(m: Message)          // ReadStatus has read m
    | Posting(name: string)       // ReadStatus has returned name
    | Finished

  /** Which of the engine's objects exist: the Rcu, the static pointer to it, the
      pipes, the event loop, the event sources and the HID client. */
  datatype Objects = Objects(
    rcu: bool, current: bool, looperPipe: bool, statusPipe: bool,
    ela: bool, pressSource: bool, releaseSource: bool, hid: bool)

  /** A pipe: what is in it, and everything ever written to it and read from it. */
  datatype Channel = Channel(pipe: seq<Message>, written: seq<Message>, read: seq<Message>) {
    function Write(m: Message): Channel {
      Channel(pipe + [m], written + [m], read)
    }

    function Read(): Channel
      requires pipe != []
    {
      Channel(pipe[1..], written, read + [pipe[0]])
    }

    ghost predicate Fifo() {
      written == read + pipe
    }
  }

  /** Every message ever created and every message deleted, in order. */
  datatype Heap = Heap(created: seq<Message>, deleted: seq<Message>) {
    function Fresh(b: Body): Message {
      Message(|created|, b)
    }

    function New(b: Body): Heap {
      Heap(created + [Fresh(b)], deleted)
    }

    function Delete(m: Message): Heap {
      Heap(created, deleted + [m])
    }
  }

  datatype State = State(
    ui: Ui, looper: Looper, reader: Reader,
    objects: Objects,
    capacity: nat,                          // how many messages a pipe can hold
    keys: Channel, statuses: Channel,       // the looper pipe and the status pipe
    closeAt: nat,                           // where the close marker is in statuses.written
    pending: Option<Message>, exitRequested: bool,
    heap: Heap,
    hid: seq<Report>, posted: seq<string>,  // what the box and the UI handler have received
    connectPosts: nat, teardownPosts: nat)  // OnStatus calls on the UI thread

  datatype UiAction =
    // Connect, then Thread.start of the status thread
    | OpenPipes | OpenSources | OpenHid
    | ConnectStatus(state: HidState) | WriteConnectStatus
    | StartLooper | StartReader
    // SendKeyPress, SendKeyRelease
    | SendKey(command: Command, report: UInt8, code: UInt32) | WriteKey
    // Disconnect, Thread.join of the status thread, ~Rcu
    | BeginDisconnect | WriteClose | JoinLooper | FreeLooperPipe
    | CloseStatus | WriteStatusClose | FreeSources
    | TeardownStatus(state: HidState) | WriteTeardownStatus
    | FreeHid | FreeLooper | CleanPending | ClearCurrent
    | JoinReader | Destroy

  // OnKeyAvailable (four steps), OnKeyRelease, OnStatus (two steps)
  datatype LooperAction =
    | ReadKey | FlushPending | HandleMessage | DeleteMessage
    | TimerFires
    | LooperStatus(state: HidState) | WriteLooperStatus

  // ReadStatus (two steps) and the post to the UI handler
  datatype ReaderAction = ReadStatus | NameStatus | PostStatus

  datatype Action = ByUi(u: UiAction) | ByLooper(l: LooperAction) | ByReader(r: ReaderAction)

  /** An Rcu fresh out of its constructor. */
  function Init(capacity: nat): State {
    State(New, NotStarted, Unstarted,
          Objects(true, false, false, false, false, false, false, false),
          capacity, Channel([], [], []), Channel([], [], []), 0,
          None, false, Heap([], []), [], [], 0, 0)
  }

  predicate UiEnabled(s: State, u: UiAction) {
    match u
    case OpenPipes => s.ui.New?
    case OpenSources => s.ui.Piped?
    case OpenHid => s.ui.Sourced?
    case ConnectStatus(_) => s.ui.HidOpen?
    case WriteConnectStatus => s.ui.ConnectPosting? && |s.statuses.pipe| < s.capacity
    case StartLooper => s.ui.HidOpen?
    case StartReader => s.ui.LooperRunning?
    case SendKey(_, _, _) => s.ui.Ready?
    case WriteKey => s.ui.Sending? && |s.keys.pipe| < s.capacity
    case BeginDisconnect => s.ui.Ready?
    case WriteClose => s.ui.Closing? && |s.keys.pipe| < s.capacity
    case JoinLooper => s.ui.Joining? && s.looper.Exited?
    case FreeLooperPipe => s.ui.Joined?
    case CloseStatus => s.ui.PipeFreed?
    case WriteStatusClose => s.ui.StatusClosing? && |s.statuses.pipe| < s.capacity
    case FreeSources => s.ui.StatusClosed?
    case TeardownStatus(_) => s.ui.SourcesFreed?
    case WriteTeardownStatus => s.ui.TeardownPosting? && |s.statuses.pipe| < s.capacity
    case FreeHid => s.ui.SourcesFreed?
    case FreeLooper => s.ui.HidFreed?
    case CleanPending => s.ui.LooperFreed?
    case ClearCurrent => s.ui.PendingCleaned?
    case JoinReader => s.ui.Disconnected? && s.reader.Finished?
    case Destroy => s.ui.StatusJoined?
  }

  predicate LooperEnabled(s: State, l: LooperAction) {
    match l
    case ReadKey => s.looper.Dispatching? && s.keys.pipe != []
    case FlushPending => s.looper.Holding?
    case HandleMessage => s.looper.Flushed?
    case DeleteMessage => s.looper.Deleting?
    case TimerFires => s.looper.Dispatching?
    case LooperStatus(_) => s.looper.Dispatching?
    case WriteLooperStatus => s.looper.PostingStatus? && |s.statuses.pipe| < s.capacity
  }

  predicate ReaderEnabled(s: State, r: ReaderAction) {
    match r
    case ReadStatus => s.reader.Reading? && s.statuses.pipe != []
    case NameStatus => s.reader.Naming?
    case PostStatus => s.reader.Posting?
  }

  predicate Enabled(s: State, a: Action) {
    match a
    case ByUi(u) => UiEnabled(s, u)
    case ByLooper(l) => LooperEnabled(s, l)
    case ByReader(r) => ReaderEnabled(s, r)
  }

  /** The body of OnKeyRelease: nothing at all when no release is pending. */
  function ReleasePending(s: State): State {
    match s.pending
    case None => s
    case Some(p) =>
      s.(hid := s.hid + ReleaseReports(p.body), heap := s.heap.Delete(p), pending := None)
  }

  function UiNext(s: State, u: UiAction): State
    requires UiEnabled(s, u)
  {
    match u
    case OpenPipes =>
      s.(ui := Piped, objects := s.objects.(current := true, looperPipe := true, statusPipe := true))
    case OpenSources =>
      s.(ui := Sourced, objects := s.objects.(ela := true, pressSource := true, releaseSource := true))
    case OpenHid => s.(ui := HidOpen, objects := s.objects.(hid := true))
    case ConnectStatus(c) =>
      if s.objects.current then
        s.(ui := ConnectPosting(s.heap.Fresh(StatusBody(c))),
           heap := s.heap.New(StatusBody(c)),
           connectPosts := s.connectPosts + 1)
      else s
    case WriteConnectStatus => s.(ui := HidOpen, statuses := s.statuses.Write(s.ui.m))
    case StartLooper => s.(ui := LooperRunning, looper := Dispatching)
    case StartReader => s.(ui := Ready, reader := Reading)
    case SendKey(k, r, c) =>
      if s.objects.pressSource then
        s.(ui := Sending(s.heap.Fresh(KeyBody(k, r, c))), heap := s.heap.New(KeyBody(k, r, c)))
      else s
    case WriteKey => s.(ui := Ready, keys := s.keys.Write(s.ui.m))
    case BeginDisconnect =>
      if s.objects.pressSource then
        s.(ui := Closing(s.heap.Fresh(ClosePipe)), heap := s.heap.New(ClosePipe))
      else s.(ui := SourcesFreed)
    case WriteClose => s.(ui := Joining, keys := s.keys.Write(s.ui.m))
    case JoinLooper => s.(ui := Joined)
    case FreeLooperPipe => s.(ui := PipeFreed, objects := s.objects.(looperPipe := false))
    case CloseStatus =>
      s.(ui := StatusClosing(s.heap.Fresh(ClosePipe)), heap := s.heap.New(ClosePipe))
    case WriteStatusClose =>
      s.(ui := StatusClosed, statuses := s.statuses.Write(s.ui.m), closeAt := |s.statuses.written|)
    case FreeSources =>
      s.(ui := SourcesFreed, objects := s.objects.(releaseSource := false, pressSource := false))
    case TeardownStatus(c) =>
      if s.objects.current then
        s.(ui := TeardownPosting(s.heap.Fresh(StatusBody(c))),
           heap := s.heap.New(StatusBody(c)),
           teardownPosts := s.teardownPosts + 1)
      else s
    case WriteTeardownStatus => s.(ui := SourcesFreed, statuses := s.statuses.Write(s.ui.m))
    case FreeHid => s.(ui := HidFreed, objects := s.objects.(hid := false))
    case FreeLooper => s.(ui := LooperFreed, objects := s.objects.(ela := false))
    case CleanPending =>
      if s.pending.Some? then
        s.(ui := PendingCleaned, heap := s.heap.Delete(s.pending.value), pending := None)
      else s.(ui := PendingCleaned)
    case ClearCurrent => s.(ui := Disconnected, objects := s.objects.(current := false))
    case JoinReader => s.(ui := StatusJoined)
    case Destroy => s.(ui := Destroyed, objects := s.objects.(statusPipe := false, rcu := false))
  }

  /** What OnKeyAvailable does with the message once the previous key is released. */
  function Handle(s: State, m: Message): State {
    match m.body
    case KeyBody(KeyRelease, r, _) => s.(looper := Deleting(m), hid := s.hid + [Report(r, 0)])
    case KeyBody(KeyPress, r, c) => s.(looper := Deleting(m), hid := s.hid + [Report(r, c)])
    case KeyBody(KeyPressRelease, r, c) =>
      s.(looper := Dispatching, hid := s.hid + [Report(r, c)], pending := Some(m))
    case _ => s.(looper := Deleting(m))
  }

  function LooperNext(s: State, l: LooperAction): State
    requires LooperEnabled(s, l)
  {
    match l
    case ReadKey => s.(looper := Holding(s.keys.pipe[0]), keys := s.keys.Read())
    case FlushPending =>
      var m := s.looper.m;
      ReleasePending(s).(looper := Flushed(m), exitRequested := s.exitRequested || m.body.ClosePipe?)
    case HandleMessage => Handle(s, s.looper.m)
    case DeleteMessage =>
      s.(looper := if s.exitRequested then Exited else Dispatching, heap := s.heap.Delete(s.looper.m))
    case TimerFires => ReleasePending(s)
    case LooperStatus(c) =>
      if s.objects.current then
        s.(looper := PostingStatus(s.heap.Fresh(StatusBody(c))), heap := s.heap.New(StatusBody(c)))
      else s
    case WriteLooperStatus => s.(looper := Dispatching, statuses := s.statuses.Write(s.looper.m))
  }

  function ReaderNext(s: State, r: ReaderAction): State
    requires ReaderEnabled(s, r)
  {
    match r
    case ReadStatus => s.(reader := Naming(s.statuses.pipe[0]), statuses := s.statuses.Read())
    case NameStatus =>
      s.(reader := Posting(Name(s.reader.m.body)), heap := s.heap.Delete(s.reader.m))
    case PostStatus =>
      s.(reader := if s.reader.name == "EXIT" then Finished else Reading,
         posted := s.posted + [s.reader.name])
  }

  function Next(s: State, a: Action): State
    requires Enabled(s, a)
  {
    match a
    case ByUi(u) => UiNext(s, u)
    case ByLooper(l) => LooperNext(s, l)
    case ByReader(r) => ReaderNext(s, r)
  }

  /** A run: each label is enabled in the state that the labels before it lead to. */
  predicate IsRun(s: State, run: seq<Action>)
    decreases |run|
  {
    run == [] || (Enabled(s, run[0]) && IsRun(Next(s, run[0]), run[1..]))
  }

  function Final(s: State, run: seq<Action>): State
    requires IsRun(s, run)
    decreases |run|
  {
    if run == [] then s else Final(Next(s, run[0]), run[1..])
  }

  ghost predicate Reachable(capacity: nat, s: State) {
    exists run :: IsRun(Init(capacity), run) && Final(Init(capacity), run) == s
  }

  /** Everything the environment may choose to do or not to do. The other labels
      are steps that a thread takes on its own. */
  predicate External(s: State, a: Action) {
    match a
    case ByUi(u) => u.ConnectStatus? || u.TeardownStatus? || u.SendKey?
    case ByLooper(l) => l.LooperStatus? || (l.TimerFires? && s.pending.None?)
    case ByReader(_) => false
  }
}
