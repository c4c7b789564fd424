/** The messages that travel through the two pipes of the remote-control engine
    (Message.cpp, Key.cpp, Status.cpp) and what a key message means: the HID
    reports that it owes to the box. */
module Messages {

  datatype Option<+T> = None | Some(value: T)

  type UInt8 = x: int | 0 <= x < 0x100
  type UInt32 = x: int | 0 <= x < 0x1_0000_0000

  datatype Command = KeyPress | KeyPressRelease | KeyRelease

  datatype HidState = Idle | Connecting | Connected | ResolveFailed | Dropped

  /** What a Message object carries: a Key, a Status, or the "CLOSE_PIPE" class name. */
  datatype Body =
    | KeyBody(command: Command, report: UInt8, code: UInt32)
    | StatusBody(state: HidState)
    | ClosePipe

  /** A heap-allocated message: its identity (the pointer) and its content. */
  datatype Message = Message(id: nat, body: Body)

  /** One input report, as handed to the HID client. */
  datatype Report = Report(id: UInt8, value: UInt32)

  /** The reports that one message is meant to produce. */
  function Expansion(b: Body): seq<Report> {
    match b
    case KeyBody(KeyPress, r, c) => [Report(r, c)]
    case KeyBody(KeyPressRelease, r, c) => [Report(r, c), Report(r, 0)]
    case KeyBody(KeyRelease, r, _) => [Report(r, 0)]
    case StatusBody(_) => []
    case ClosePipe => []
  }

  /** The reports that a sequence of messages is meant to produce, with no thread,
      no timer and no deferred release in sight. */
  function Expand(ms: seq<Message>): seq<Report> {
    if ms == [] then [] else Expand(ms[..|ms| - 1]) + Expansion(ms[|ms| - 1].body)
  }

  /** What Key::Release sends: the zero value on the key's own report. */
  function ReleaseReports(b: Body): seq<Report> {
    if b.KeyBody? then [Report(b.report, 0)] else []
  }

  /** What the status thread hands to Java for one message of the status pipe. */
  function Name(b: Body): string {
    match b
    case ClosePipe => "EXIT"
    case StatusBody(Idle) => "idle"
    case StatusBody(Connecting) => "connecting"
    case StatusBody(Connected) => "connected"
    case StatusBody(ResolveFailed) => "resolve failed"
    case StatusBody(Dropped) => "dropped"
    case KeyBody(_, _, _) => ""
  }

  function Names(ms: seq<Message>): (names: seq<string>)
    ensures |names| == |ms|
    ensures forall i :: 0 <= i < |ms| ==> names[i] == Name(ms[i].body)
  {
    seq(|ms|, i requires 0 <= i < |ms| => Name(ms[i].body))
  }

  lemma ExpandStep(a: seq<Message>, init: seq<Message>, last: Message)
    requires Expand(a + init) == Expand(a) + Expand(init)
    ensures Expand(a + (init + [last])) == Expand(a) + Expand(init + [last])
  {
    Associate(a, init, [last]);
    Associate(Expand(a), Expand(init), Expansion(last.body));
  }

  lemma {:induction false} ExpandConcat(a: seq<Message>, b: seq<Message>)
    ensures Expand(a + b) == Expand(a) + Expand(b)
    decreases |b|
  {
    if b == [] {
      assert a + b == a;
    } else {
      var init, last := b[..|b| - 1], b[|b| - 1];
      ExpandConcat(a, init);
      ExpandStep(a, init, last);
      assert b == init + [last];
    }
  }

  lemma Associate<T>(a: seq<T>, b: seq<T>, c: seq<T>)
    ensures (a + b) + c == a + (b + c)
  {}

  /** The expansion of a prefix is a prefix of the expansion. */
  lemma ExpandPrefix(ms: seq<Message>, n: nat)
    requires n <= |ms|
    ensures Expand(ms[..n]) <= Expand(ms)
  {
    assert ms == ms[..n] + ms[n..];
    ExpandConcat(ms[..n], ms[n..]);
  }

  // ---- the expansion and the names, pinned down report by report and name by name

  /** How many reports keys owe: one a press or a release, two a click. */
  function Length(ms: seq<Message>): nat {
    if ms == [] then 0
    else
      Length(ms[..|ms| - 1]) +
      match ms[|ms| - 1].body
      case KeyBody(command, _, _) => if command.KeyPressRelease? then 2 else 1
      case _ => 0
  }

  lemma {:induction false} ExpandLength(ms: seq<Message>)
    ensures |Expand(ms)| == Length(ms)
  {
    if ms != [] {
      ExpandLength(ms[..|ms| - 1]);
    }
  }

  /** From the k-th report on stand those that the source sends for the key b: its code
      for a press, 0 for a release, and both for a click. */
  predicate StandsAt(reports: seq<Report>, k: nat, b: Body)
    requires b.KeyBody?
  {
    match b.command
    case KeyPress => k < |reports| ==> reports[k] == Report(b.report, b.code)
    case KeyRelease => k < |reports| ==> reports[k] == Report(b.report, 0)
    case KeyPressRelease =>
      && (k < |reports| ==> reports[k] == Report(b.report, b.code))
      && (k + 1 < |reports| ==> reports[k + 1] == Report(b.report, 0))
  }

  /** Each key has its place in the expansion, given by the keys before it. */
  lemma KeyStandsAt(ms: seq<Message>, i: nat)
    requires i < |ms| && ms[i].body.KeyBody?
    ensures StandsAt(Expand(ms), Length(ms[..i]), ms[i].body)
    ensures Length(ms[..i]) < Length(ms[..i + 1]) <= Length(ms)
  {
    ExpandLength(ms[..i]);
    ExpandLength(ms[..i + 1]);
    ExpandLength(ms);
    ExpandPrefix(ms, i + 1);
    assert ms[..i + 1][..i] == ms[..i];
  }

  /** Each name stands for one status, and "EXIT" for the close marker. */
  lemma NamesTell(b: Body)
    requires !b.KeyBody?
    ensures Name(b) == "idle" <==> b == StatusBody(Idle)
    ensures Name(b) == "connecting" <==> b == StatusBody(Connecting)
    ensures Name(b) == "connected" <==> b == StatusBody(Connected)
    ensures Name(b) == "resolve failed" <==> b == StatusBody(ResolveFailed)
    ensures Name(b) == "dropped" <==> b == StatusBody(Dropped)
    ensures Name(b) == "EXIT" <==> b == ClosePipe
  {
    assert "idle"[0] == 'i' && "connecting"[7] == 'i' && "connected"[7] == 'e' && "resolve failed"[0] == 'r';
    assert "dropped"[0] == 'd' && "EXIT"[0] == 'E';
  }
}
