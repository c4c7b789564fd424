/** A macro playing on a connected box: the player of MultiClicker.java, the listener
    of MainActivity.java that turns key names into clicks, and the engine of Rcu.cpp
    underneath, all interleaved. */
module MacroPlays {
  import opened Messages
  import P = Protocol
  import I = ProtocolInvariant
  import T = ProtocolTheorems
  import M = Macros

  /** What a key name leads to: the report id and the key code in the tag of the view
      of that name, as Java ints. */
  datatype Tag = Tag(report: int, code: int)

  /** From a key name to its tag; None when there is no such view, when its tag is not
      that of a key, or when the numbers in it cannot be decoded. */
  type Layout = string -> Option<Tag>

  /** The casts of the native interface: the low 8 and the low 32 bits. */
  function Click(tag: Tag): Body {
    KeyBody(KeyPressRelease, tag.report % 0x100, tag.code % 0x1_0000_0000)
  }

  /** The clicks that a list of key names asks for. */
  function Clicks(layout: Layout, names: seq<string>): seq<Body> {
    if names == [] then []
    else
      Clicks(layout, names[..|names| - 1]) +
      match layout(names[|names| - 1])
      case None => []
      case Some(tag) => [Click(tag)]
  }

  /** A press and a release for each click, and nothing in between. */
  function PressAndRelease(clicks: seq<Body>): seq<Report> {
    if clicks == [] then []
    else
      var last := clicks[|clicks| - 1];
      PressAndRelease(clicks[..|clicks| - 1]) +
      (if last.KeyBody? then [Report(last.report, last.code), Report(last.report, 0)] else [])
  }

  datatype State = State(
    clicker: M.Clicker, engine: P.State,
    later: seq<Body>)  // history: the keys that other listeners have sent after the macro

  datatype Event =
    | Tick(ms: nat)          // time passes
    | Callback(i: nat)       // the handler runs a queued callback
    | StopCalled             // onPause stops the player
    | Engine(step: P.Action) // a step of the engine, or a key of another listener

  /** The UI thread takes the callback and the stop only between two events. While the
      player runs, no other listener sends a key: each asks first whether it has stopped.
      The box is disconnected after the player has stopped. */
  predicate Enabled(s: State, e: Event) {
    match e
    case Tick(_) => true
    case Callback(i) => M.Enabled(s.clicker, M.Callback(i)) && s.engine.ui.Ready?
    case StopCalled => s.engine.ui.Ready?
    case Engine(a) =>
      && P.Enabled(s.engine, a)
      && (a.ByUi? ==> a.u.WriteKey? || ((a.u.SendKey? || I.Disconnects(a.u)) && !s.clicker.running))
  }

  /** MainActivity.onMultiClickStep: click the key of that name, if there is one. */
  function Heard(engine: P.State, layout: Layout, name: string): P.State
    requires engine.ui.Ready?
  {
    match layout(name)
    case None => engine
    case Some(tag) => P.UiNext(engine, P.SendKey(KeyPressRelease, Click(tag).report, Click(tag).code))
  }

  /** The body of MultiClicker.run, with what its listener does. */
  function Run(s: State, layout: Layout): State
    requires s.clicker.running && s.clicker.pos <= |s.clicker.tokens| && s.engine.ui.Ready?
  {
    var c := s.clicker;
    var named := c.pos < |c.tokens| && c.tokens[c.pos].KeyName?;
    s.(clicker := M.Running(c), engine := if named then Heard(s.engine, layout, c.tokens[c.pos].name) else s.engine)
  }

  /** MultiClicker.start. */
  function Start(s: State, layout: Layout, tokens: seq<M.Token>): State
    requires s.engine.ui.Ready?
  {
    Run(s.(clicker := M.Begun(s.clicker, tokens), later := []), layout)
  }

  /** The key that a step sends. */
  function Typed(e: P.State, a: P.Action): seq<Body> {
    if a.ByUi? && a.u.SendKey? && e.objects.pressSource then [KeyBody(a.u.command, a.u.report, a.u.code)] else []
  }

  function Next(s: State, layout: Layout, e: Event): State
    requires Enabled(s, e)
  {
    match e
    case Tick(ms) => s.(clicker := M.Next(s.clicker, M.Tick(ms)))
    case Callback(i) =>
      var t := s.(clicker := M.Taken(s.clicker, i));
      if t.clicker.running && t.clicker.pos <= |t.clicker.tokens| then Run(t, layout) else t
    case StopCalled => s.(clicker := M.Next(s.clicker, M.StopCalled))
    case Engine(a) => s.(engine := P.Next(s.engine, a), later := s.later + Typed(s.engine, a))
  }

  predicate IsPlay(s: State, layout: Layout, play: seq<Event>)
    decreases |play|
  {
    play == [] || (Enabled(s, play[0]) && IsPlay(Next(s, layout, play[0]), layout, play[1..]))
  }

  function Final(s: State, layout: Layout, play: seq<Event>): State
    requires IsPlay(s, layout, play)
    decreases |play|
  {
    if play == [] then s else Final(Next(s, layout, play[0]), layout, play[1..])
  }

  function Bodies(ms: seq<Message>): (bs: seq<Body>)
    ensures |bs| == |ms|
    ensures forall i :: 0 <= i < |ms| ==> bs[i] == ms[i].body
  {
    seq(|ms|, i requires 0 <= i < |ms| => ms[i].body)
  }

  /** The keys written to the looper pipe, without its close marker. */
  function KeysWritten(e: P.State): seq<Body> {
    Bodies(Unmarked(I.Phase(e.ui), e.keys.written))
  }

  function Unmarked(p: nat, written: seq<Message>): seq<Message> {
    if 7 <= p && written != [] then written[..|written| - 1] else written
  }

  /** And the one that SendKeyPress is writing. */
  function KeysSent(e: P.State): seq<Body> {
    KeysWritten(e) + (if e.ui.Sending? then [e.ui.m.body] else [])
  }

  /** The key names that the player has named so far. */
  function Named(c: M.Clicker): seq<string> {
    if c.pos <= |c.tokens| then M.KeyNames(c.tokens[..c.pos]) else []
  }

  /** The keys sent are those sent before, then the clicks of the names, then the others. */
  ghost predicate KeysOk(e: P.State, layout: Layout, before: seq<Body>, names: seq<string>, later: seq<Body>) {
    KeysSent(e) == before + Clicks(layout, names) + later
  }

  ghost predicate Inv(s: State, layout: Layout, before: seq<Body>) {
    && M.Inv(s.clicker)
    && I.Inv(s.engine)
    && 5 <= I.Phase(s.engine.ui)
    && (6 <= I.Phase(s.engine.ui) ==> !s.clicker.running)
    && (s.clicker.running ==> s.later == [])
    && KeysOk(s.engine, layout, before, Named(s.clicker), s.later)
  }

  lemma ClicksSnoc(layout: Layout, names: seq<string>, name: string)
    ensures Clicks(layout, names + [name]) ==
      Clicks(layout, names) + match layout(name) { case None => [] case Some(tag) => [Click(tag)] }
  {}

  /** A step of the engine leaves the keys sent as they are, but for the key it sends. */
  lemma EngineKeepsKeys(e: P.State, a: P.Action)
    requires I.Inv(e) && 5 <= I.Phase(e.ui) && P.Enabled(e, a)
    ensures var f := P.Next(e, a); KeysSent(f) == KeysSent(e) + Typed(e, a) && 5 <= I.Phase(f.ui)
  {
    assert KeysSent(e) + [] == KeysSent(e);
    match a
    case ByUi(u) =>
      I.UiAdvances(e, u);
      if u.WriteKey? || u.WriteClose? {
        WritingKeepsKeys(e, u);
      } else if u.SendKey? {
        TypingAddsKey(e, u);
      } else {
        OthersKeepKeys(e, u);
      }
    case ByLooper(l) => I.LooperFrame(e, l); LooperWritesNoKey(e, l);
    case ByReader(_) =>
  }

  lemma LooperWritesNoKey(e: P.State, l: P.LooperAction)
    requires P.LooperEnabled(e, l)
    ensures P.LooperNext(e, l).keys.written == e.keys.written
  {}

  lemma WritingKeepsKeys(e: P.State, u: P.UiAction)
    requires P.UiEnabled(e, u) && (u.WriteKey? || u.WriteClose?)
    ensures KeysSent(P.UiNext(e, u)) == KeysSent(e)
  {
    var f := P.UiNext(e, u);
    if u.WriteKey? {
      assert Bodies(f.keys.written) == Bodies(e.keys.written) + [e.ui.m.body];
    } else {
      assert f.keys.written[..|f.keys.written| - 1] == e.keys.written;
    }
  }

  lemma TypingAddsKey(e: P.State, u: P.UiAction)
    requires P.UiEnabled(e, u) && u.SendKey?
    ensures KeysSent(P.UiNext(e, u)) == KeysSent(e) + Typed(e, P.ByUi(u))
  {
    var f := P.UiNext(e, u);
    assert KeysWritten(f) == KeysWritten(e);
    assert KeysWritten(e) + [] == KeysWritten(e);
  }

  lemma OthersKeepKeys(e: P.State, u: P.UiAction)
    requires e.objects == I.ObjectsAt(I.Phase(e.ui)) && 5 <= I.Phase(e.ui) && P.UiEnabled(e, u)
    requires !u.WriteKey? && !u.WriteClose? && !u.SendKey?
    ensures KeysSent(P.UiNext(e, u)) == KeysSent(e)
  {
    I.UiFrame(e, u);
    I.UiAdvances(e, u);
    assert (7 <= I.Phase(e.ui)) == (7 <= I.Phase(P.UiNext(e, u).ui));
    assert !P.UiNext(e, u).ui.Sending? && !e.ui.Sending?;
  }

  lemma SendingKeepsKeys(e: P.State, layout: Layout, name: string)
    requires I.Inv(e) && e.ui.Ready?
    ensures var f := Heard(e, layout, name);
      && I.Inv(f) && 5 <= I.Phase(f.ui)
      && KeysSent(f) == KeysSent(e) + match layout(name) { case None => [] case Some(tag) => [Click(tag)] }
  {
    if layout(name).Some? {
      var b := Click(layout(name).value);
      I.UiKeepsInv(e, P.SendKey(KeyPressRelease, b.report, b.code));
    }
  }

  lemma NamedGrows(c: M.Clicker)
    requires c.running && c.pos < |c.tokens|
    ensures Named(M.Running(c)) == Named(c) +
      match c.tokens[c.pos] { case Delay(_) => [] case KeyName(name) => [name] }
  {
    M.TakeOne(c.tokens, c.pos);
  }

  lemma NoneLater(before: seq<Body>, clicks: seq<Body>, more: seq<Body>)
    ensures before + clicks + [] + more == before + (clicks + more) + []
  {}

  lemma NamingKeepsKeys(e: P.State, layout: Layout, before: seq<Body>, names: seq<string>, name: string)
    requires I.Inv(e) && e.ui.Ready? && KeysOk(e, layout, before, names, [])
    ensures KeysOk(Heard(e, layout, name), layout, before, names + [name], [])
    ensures I.Inv(Heard(e, layout, name)) && I.Phase(Heard(e, layout, name).ui) == 5
  {
    var more := match layout(name) { case None => [] case Some(tag) => [Click(tag)] };
    SendingKeepsKeys(e, layout, name);
    ClicksSnoc(layout, names, name);
    NoneLater(before, Clicks(layout, names), more);
  }

  /** `run` on the player and on the engine, apart. */
  lemma RunIsFine(s: State, layout: Layout, before: seq<Body>)
    requires M.AboutToRun(s.clicker) && I.Inv(s.engine) && s.engine.ui.Ready? && s.later == []
    requires KeysOk(s.engine, layout, before, Named(s.clicker), [])
    ensures Inv(Run(s, layout), layout, before)
    ensures Run(s, layout).clicker.tokens == s.clicker.tokens
  {
    var c := s.clicker;
    M.RunKeepsInv(c);
    if c.pos < |c.tokens| {
      NamedGrows(c);
      if c.tokens[c.pos].KeyName? {
        NamingKeepsKeys(s.engine, layout, before, Named(c), c.tokens[c.pos].name);
      } else {
        assert Named(c) + [] == Named(c);
      }
    }
  }

  lemma CallbackKeepsInv(s: State, layout: Layout, before: seq<Body>, i: nat)
    requires Inv(s, layout, before) && Enabled(s, Callback(i))
    ensures Inv(Next(s, layout, Callback(i)), layout, before)
    ensures Next(s, layout, Callback(i)).clicker.tokens == s.clicker.tokens
  {
    M.CallbackIsAboutToRun(s.clicker, i);
    RunIsFine(s.(clicker := M.Taken(s.clicker, i)), layout, before);
  }

  lemma EngineEventKeepsInv(s: State, layout: Layout, before: seq<Body>, a: P.Action)
    requires Inv(s, layout, before) && Enabled(s, Engine(a))
    ensures Inv(Next(s, layout, Engine(a)), layout, before)
  {
    I.InvKept(s.engine, a);
    EngineKeepsKeys(s.engine, a);
    RunningStaysReady(s, a);
    Associate(before + Clicks(layout, Named(s.clicker)), s.later, Typed(s.engine, a));
  }

  lemma RunningStaysReady(s: State, a: P.Action)
    requires Enabled(s, Engine(a)) && (6 <= I.Phase(s.engine.ui) ==> !s.clicker.running)
    ensures 6 <= I.Phase(P.Next(s.engine, a).ui) ==> !s.clicker.running
  {}

  lemma EventKeepsInv(s: State, layout: Layout, before: seq<Body>, e: Event)
    requires Inv(s, layout, before) && Enabled(s, e)
    ensures Inv(Next(s, layout, e), layout, before)
    ensures Next(s, layout, e).clicker.tokens == s.clicker.tokens
  {
    match e
    case Tick(ms) => M.EventKeepsInv(s.clicker, M.Tick(ms));
    case Callback(i) => CallbackKeepsInv(s, layout, before, i);
    case StopCalled => M.EventKeepsInv(s.clicker, M.StopCalled);
    case Engine(a) => EngineEventKeepsInv(s, layout, before, a);
  }

  lemma {:induction false} PlayKeepsInv(s: State, layout: Layout, before: seq<Body>, play: seq<Event>)
    requires Inv(s, layout, before) && IsPlay(s, layout, play)
    ensures Inv(Final(s, layout, play), layout, before)
    ensures Final(s, layout, play).clicker.tokens == s.clicker.tokens
    decreases |play|
  {
    if play != [] {
      EventKeepsInv(s, layout, before, play[0]);
      PlayKeepsInv(Next(s, layout, play[0]), layout, before, play[1..]);
    }
  }

  // ---- what the box receives

  ghost predicate AllClicks(bs: seq<Body>) {
    forall i :: 0 <= i < |bs| ==> bs[i].KeyBody? && bs[i].command.KeyPressRelease?
  }

  lemma {:induction false} ClicksAreClicks(layout: Layout, names: seq<string>)
    ensures AllClicks(Clicks(layout, names))
  {
    if names != [] {
      ClicksAreClicks(layout, names[..|names| - 1]);
    }
  }

  /** What a list of keys means to the box. */
  function Reports(bs: seq<Body>): seq<Report> {
    if bs == [] then [] else Reports(bs[..|bs| - 1]) + Expansion(bs[|bs| - 1])
  }

  lemma {:induction false} ReportsOfBodies(ms: seq<Message>)
    ensures Reports(Bodies(ms)) == Expand(ms)
  {
    if ms != [] {
      var n := |ms| - 1;
      ReportsOfBodies(ms[..n]);
      assert Bodies(ms)[..n] == Bodies(ms[..n]);
    }
  }

  lemma {:induction false} ReportsConcat(a: seq<Body>, b: seq<Body>)
    ensures Reports(a + b) == Reports(a) + Reports(b)
    decreases |b|
  {
    if b == [] {
      assert a + b == a;
    } else {
      var init, last := b[..|b| - 1], b[|b| - 1];
      ReportsConcat(a, init);
      assert (a + b)[..|a + b| - 1] == a + init;
      Associate(Reports(a), Reports(init), Expansion(last));
    }
  }

  /** Clicks mean a press and a release each. */
  lemma {:induction false} ReportsOfClicks(clicks: seq<Body>)
    requires AllClicks(clicks)
    ensures Reports(clicks) == PressAndRelease(clicks)
  {
    if clicks != [] {
      ReportsOfClicks(clicks[..|clicks| - 1]);
    }
  }

  /** What the box has received, what the keys read still owe to it, what is in the pipe,
      and what is being written. */
  function Due(e: P.State): seq<Report> {
    e.hid + I.Owed(e.looper, e.pending) + Expand(e.keys.pipe) + (if e.ui.Sending? then Expansion(e.ui.m.body) else [])
  }

  /** The channel and what the looper thread has made of it. */
  lemma ReadIsDue(e: P.State)
    requires I.HidOk(e) && e.keys.Fifo()
    ensures e.hid + I.Owed(e.looper, e.pending) + Expand(e.keys.pipe) == Expand(e.keys.written)
  {
    ExpandConcat(e.keys.read, e.keys.pipe);
  }

  lemma OneReport(b: Body)
    ensures Reports([b]) == Expansion(b) && Reports([]) == []
  {
    assert [b][..0] == [];
  }

  /** That is, at any moment, what the keys sent mean. */
  lemma DueIsWhatWasSent(e: P.State)
    requires I.Inv(e)
    ensures Due(e) == Reports(KeysSent(e))
  {
    ReadIsDue(e);
    WrittenMeans(I.Phase(e.ui), e.keys);
    var hand := if e.ui.Sending? then [e.ui.m.body] else [];
    ReportsConcat(KeysWritten(e), hand);
    if e.ui.Sending? {
      OneReport(e.ui.m.body);
    }
  }

  /** The close marker means nothing. */
  lemma WrittenMeans(p: nat, keys: P.Channel)
    requires I.SentOk(p, keys)
    ensures Reports(Bodies(Unmarked(p, keys.written))) == Expand(keys.written)
  {
    ReportsOfBodies(keys.written);
    if 7 <= p {
      var n := |keys.written| - 1;
      ReportsOfBodies(keys.written[..n]);
      assert Expand(keys.written[..n]) + [] == Expand(keys.written[..n]);
    }
  }

  /** A press, its release, the next press, its release, and so on: two clicks of the
      same key are always kept apart by a release. */
  lemma {:induction false} ClicksAlternate(clicks: seq<Body>, i: nat)
    requires AllClicks(clicks) && i < |clicks|
    ensures var reports := PressAndRelease(clicks);
      && |reports| == 2 * |clicks|
      && reports[2 * i] == Report(clicks[i].report, clicks[i].code)
      && reports[2 * i + 1] == Report(clicks[i].report, 0)
    decreases |clicks|
  {
    var k := |clicks| - 1;
    var init := clicks[..k];
    if k == 0 {
      assert PressAndRelease(init) == [];
    } else {
      ClicksAlternate(init, if i < k then i else 0);
    }
  }

  // ---- from the layout itself

  /** How many of the first n names have a tag. */
  function Resolved(layout: Layout, names: seq<string>, n: nat): nat
    requires n <= |names|
  {
    if n == 0 then 0 else Resolved(layout, names, n - 1) + if layout(names[n - 1]).Some? then 1 else 0
  }

  lemma {:induction false} ClickInPlace(layout: Layout, names: seq<string>, j: nat)
    requires j < |names| && layout(names[j]).Some?
    ensures |Clicks(layout, names)| == Resolved(layout, names, |names|)
    ensures Resolved(layout, names, j) < |Clicks(layout, names)|
    ensures Clicks(layout, names)[Resolved(layout, names, j)] == Click(layout(names[j]).value)
    decreases |names|
  {
    var init := names[..|names| - 1];
    ClicksCounted(layout, init);
    ClicksCounted(layout, names);
    ResolvedInit(layout, names, |names| - 1);
    if j < |names| - 1 {
      ClickInPlace(layout, init, j);
      ResolvedInit(layout, names, j);
    }
  }

  lemma {:induction false} ClicksCounted(layout: Layout, names: seq<string>)
    ensures |Clicks(layout, names)| == Resolved(layout, names, |names|)
  {
    if names != [] {
      ClicksCounted(layout, names[..|names| - 1]);
      ResolvedInit(layout, names, |names| - 1);
    }
  }

  lemma {:induction false} ResolvedInit(layout: Layout, names: seq<string>, n: nat)
    requires n < |names|
    ensures Resolved(layout, names[..|names| - 1], n) == Resolved(layout, names, n)
    decreases n
  {
    if n != 0 {
      ResolvedInit(layout, names, n - 1);
    }
  }

  /** The report id and the value are those of the tag: congruent to them as the casts are,
      and equal to them when they are in range. */
  predicate Carries(press: Report, release: Report, tag: Tag) {
    && (press.id - tag.report) % 0x100 == 0 && release.id == press.id
    && (press.value - tag.code) % 0x1_0000_0000 == 0 && release.value == 0
    && (0 <= tag.report < 0x100 ==> press.id == tag.report)
    && (0 <= tag.code < 0x1_0000_0000 ==> press.value == tag.code)
  }

  lemma ClickCarries(tag: Tag)
    ensures var b := Click(tag); Carries(Report(b.report, b.code), Report(b.report, 0), tag)
  {}

  /** The names of a macro, as reports: the one for the j-th name stands behind two for each
      name with a tag before it. */
  lemma TagInPlace(layout: Layout, names: seq<string>, j: nat)
    requires j < |names| && layout(names[j]).Some?
    ensures var reports, o := PressAndRelease(Clicks(layout, names)), Resolved(layout, names, j);
      && 2 * o + 1 < |reports| == 2 * Resolved(layout, names, |names|)
      && Carries(reports[2 * o], reports[2 * o + 1], layout(names[j]).value)
  {
    ClickInPlace(layout, names, j);
    ClicksAreClicks(layout, names);
    ClicksAlternate(Clicks(layout, names), Resolved(layout, names, j));
    ClickCarries(layout(names[j]).value);
  }

  lemma StartIsFine(s: State, layout: Layout, tokens: seq<M.Token>)
    requires I.Inv(s.engine) && s.engine.ui.Ready?
    ensures Inv(Start(s, layout, tokens), layout, KeysSent(s.engine))
    ensures var c := Start(s, layout, tokens).clicker; c.tokens == tokens && (c.running || c.pos == |c.tokens|)
  {
    M.BegunIsAboutToRun(s.clicker, tokens);
    assert tokens[..0] == [];
    assert KeysSent(s.engine) + [] + [] == KeysSent(s.engine);
    RunIsFine(s.(clicker := M.Begun(s.clicker, tokens), later := []), layout, KeysSent(s.engine));
  }

  /** The player's own part of a play. */
  lemma {:induction false} PlayerEnds(s: State, layout: Layout, play: seq<Event>)
    requires IsPlay(s, layout, play) && StopCalled !in play && M.Inv(s.clicker)
    requires s.clicker.running || s.clicker.pos == |s.clicker.tokens|
    ensures var t := Final(s, layout, play); t.clicker.running || t.clicker.pos == |t.clicker.tokens|
    decreases |play|
  {
    if play != [] {
      var t := Next(s, layout, play[0]);
      match play[0] {
        case Tick(ms) => M.EventKeepsInv(s.clicker, M.Tick(ms));
        case Callback(i) => M.EventKeepsInv(s.clicker, M.Callback(i));
        case Engine(_) =>
        case StopCalled => assert false;
      }
      PlayerEnds(t, layout, play[1..]);
    }
  }

  /** What is due, on the engine alone. */
  lemma DueOfMacro(e: P.State, layout: Layout, before: seq<Body>, names: seq<string>, later: seq<Body>)
    requires I.Inv(e) && KeysOk(e, layout, before, names, later)
    ensures Due(e) == Reports(before) + PressAndRelease(Clicks(layout, names)) + Reports(later)
  {
    DueIsWhatWasSent(e);
    ReportsConcat(before + Clicks(layout, names), later);
    ReportsConcat(before, Clicks(layout, names));
    ClicksAreClicks(layout, names);
    ReportsOfClicks(Clicks(layout, names));
  }

  lemma PlayNames(s: State, layout: Layout, before: seq<Body>, play: seq<Event>)
    requires Inv(s, layout, before) && IsPlay(s, layout, play)
    requires s.clicker.running || s.clicker.pos == |s.clicker.tokens|
    ensures var t := Final(s, layout, play);
      && Named(t.clicker) <= M.KeyNames(s.clicker.tokens)
      && (StopCalled !in play && !t.clicker.running ==> Named(t.clicker) == M.KeyNames(s.clicker.tokens))
      && (6 <= I.Phase(t.engine.ui) ==> !t.clicker.running)
  {
    PlayKeepsInv(s, layout, before, play);
    var c := Final(s, layout, play).clicker;
    NamedIsPrefix(c);
    if StopCalled !in play {
      PlayerEnds(s, layout, play);
    }
  }

  lemma NamedIsPrefix(c: M.Clicker)
    requires c.pos <= |c.tokens|
    ensures Named(c) <= M.KeyNames(c.tokens)
    ensures c.pos == |c.tokens| ==> Named(c) == M.KeyNames(c.tokens)
  {
    NamesArePrefix(c.tokens, c.pos);
    assert c.tokens[..|c.tokens|] == c.tokens;
  }

  /** Playing a macro on a connected box, however the handler's delays, the pipe and the
      release timer interleave, and at every moment: what the box has received and is
      about to receive is what was due when the macro started, then exactly a press and a
      release for each key that the player has named, in order, then the keys of other
      listeners. The names are those of the macro, and all of them once it has run to its
      end. */
  lemma MacroComesOut(s: State, layout: Layout, tokens: seq<M.Token>, play: seq<Event>)
    requires I.Inv(s.engine) && s.engine.ui.Ready?
    requires IsPlay(Start(s, layout, tokens), layout, play)
    ensures var t := Final(Start(s, layout, tokens), layout, play);
      && Due(t.engine) == Due(s.engine) + PressAndRelease(Clicks(layout, Named(t.clicker))) + Reports(t.later)
      && Named(t.clicker) <= M.KeyNames(tokens)
      && (StopCalled !in play && !t.clicker.running ==> Named(t.clicker) == M.KeyNames(tokens))
      && (t.clicker.running ==> t.later == [] && I.Phase(t.engine.ui) == 5)
      && I.Inv(t.engine)
  {
    var start := Start(s, layout, tokens);
    StartIsFine(s, layout, tokens);
    PlayKeepsInv(start, layout, KeysSent(s.engine), play);
    PlayNames(start, layout, KeysSent(s.engine), play);
    var t := Final(start, layout, play);
    DueOfMacro(t.engine, layout, KeysSent(s.engine), Named(t.clicker), t.later);
    DueIsWhatWasSent(s.engine);
  }

  lemma TagAtOffset(before: seq<Report>, due: seq<Report>, layout: Layout, names: seq<string>, later: seq<Body>, j: nat)
    requires due == before + PressAndRelease(Clicks(layout, names)) + Reports(later)
    requires j < |names| && layout(names[j]).Some?
    ensures var k := |before| + 2 * Resolved(layout, names, j);
      k + 1 < |due| && Carries(due[k], due[k + 1], layout(names[j]).value)
  {
    TagInPlace(layout, names, j);
    AtOffset(before, PressAndRelease(Clicks(layout, names)), Reports(later), 2 * Resolved(layout, names, j));
  }

  /** At its place among what is due stands what the tag of the j-th name asks for. */
  ghost predicate TagIsDue(before: P.State, e: P.State, layout: Layout, names: seq<string>, j: nat)
    requires j < |names| && layout(names[j]).Some?
  {
    var k := |Due(before)| + 2 * Resolved(layout, names, j);
    && k + 1 < |Due(e)| && e.hid <= Due(e)
    && Carries(Due(e)[k], Due(e)[k + 1], layout(names[j]).value)
  }

  lemma TagInDue(before: P.State, e: P.State, layout: Layout, names: seq<string>, later: seq<Body>, j: nat)
    requires Due(e) == Due(before) + PressAndRelease(Clicks(layout, names)) + Reports(later)
    requires j < |names| && layout(names[j]).Some?
    ensures TagIsDue(before, e, layout, names, j)
  {
    TagAtOffset(Due(before), Due(e), layout, names, later, j);
    HidIsDue(e);
  }

  /** So the box receives, for the j-th key that the player has named, the press and the
      release that the tag of its view asks for, and nothing in between. */
  lemma TagReachesBox(s: State, layout: Layout, tokens: seq<M.Token>, play: seq<Event>, t: State, j: nat)
    requires I.Inv(s.engine) && s.engine.ui.Ready?
    requires IsPlay(Start(s, layout, tokens), layout, play) && t == Final(Start(s, layout, tokens), layout, play)
    requires j < |Named(t.clicker)| && layout(Named(t.clicker)[j]).Some?
    ensures TagIsDue(s.engine, t.engine, layout, Named(t.clicker), j)
  {
    MacroComesOut(s, layout, tokens, play);
    TagInDue(s.engine, t.engine, layout, Named(t.clicker), t.later, j);
  }

  lemma HidIsDue(e: P.State)
    ensures e.hid <= Due(e)
  {}

  lemma AtOffset(a: seq<Report>, b: seq<Report>, c: seq<Report>, i: nat)
    requires i + 1 < |b|
    ensures |a| + i + 1 < |a + b + c| && (a + b + c)[|a| + i] == b[i] && (a + b + c)[|a| + i + 1] == b[i + 1]
  {}

  lemma NothingIsDue(e: P.State)
    requires I.Inv(e) && 8 <= I.Phase(e.ui)
    ensures Due(e) == e.hid
  {
    T.Drained(e);
    assert e.hid + [] + [] + [] == e.hid;
  }

  /** Once the join of the looper thread has returned, nothing is due any more: the box
      has received it all. */
  lemma DrainedMacro(s: State, layout: Layout, tokens: seq<M.Token>, play: seq<Event>)
    requires I.Inv(s.engine) && s.engine.ui.Ready?
    requires IsPlay(Start(s, layout, tokens), layout, play)
    requires 8 <= I.Phase(Final(Start(s, layout, tokens), layout, play).engine.ui)
    ensures var t := Final(Start(s, layout, tokens), layout, play);
      && t.engine.hid == Due(s.engine) + PressAndRelease(Clicks(layout, Named(t.clicker))) + Reports(t.later)
      && (StopCalled !in play ==> Named(t.clicker) == M.KeyNames(tokens))
  {
    MacroComesOut(s, layout, tokens, play);
    NothingIsDue(Final(Start(s, layout, tokens), layout, play).engine);
  }

  lemma {:induction false} NamesArePrefix(tokens: seq<M.Token>, k: nat)
    requires k <= |tokens|
    ensures M.KeyNames(tokens[..k]) <= M.KeyNames(tokens)
    decreases |tokens| - k
  {
    if k < |tokens| {
      M.TakeOne(tokens, k);
      NamesArePrefix(tokens, k + 1);
    } else {
      assert tokens[..k] == tokens;
    }
  }

  // ---- the keys are those of the calls

  /** The key that a step is a call of SendKeyPress or SendKeyRelease for. */
  function Call(a: P.Action): seq<Body> {
    match a
    case ByUi(SendKey(command, report, code)) => [KeyBody(command, report, code)]
    case _ => []
  }

  function Calls(run: seq<P.Action>): seq<Body> {
    if run == [] then [] else Call(run[0]) + Calls(run[1..])
  }

  lemma EarlyKeepsKeys(e: P.State, a: P.Action)
    requires I.Inv(e) && I.Phase(e.ui) < 5 && P.Enabled(e, a)
    ensures KeysSent(P.Next(e, a)) == KeysSent(e) && !(a.ByUi? && a.u.SendKey?)
  {
    match a
    case ByUi(u) => I.UiFrame(e, u);
    case ByLooper(l) => I.LooperFrame(e, l); LooperWritesNoKey(e, l);
    case ByReader(_) =>
  }

  lemma StepSends(e: P.State, a: P.Action)
    requires I.Inv(e) && P.Enabled(e, a)
    ensures KeysSent(P.Next(e, a)) == KeysSent(e) + Call(a) && I.Inv(P.Next(e, a))
  {
    I.InvKept(e, a);
    assert KeysSent(e) + [] == KeysSent(e);
    if 5 <= I.Phase(e.ui) {
      EngineKeepsKeys(e, a);
      TypedIsCall(e, a);
    } else {
      EarlyKeepsKeys(e, a);
    }
  }

  lemma TypedIsCall(e: P.State, a: P.Action)
    requires e.objects == I.ObjectsAt(I.Phase(e.ui)) && P.Enabled(e, a)
    ensures Typed(e, a) == Call(a)
  {}

  lemma {:induction false} RunSends(e: P.State, run: seq<P.Action>)
    requires I.Inv(e) && P.IsRun(e, run)
    ensures KeysSent(P.Final(e, run)) == KeysSent(e) + Calls(run)
    decreases |run|
  {
    if run != [] {
      StepSends(e, run[0]);
      RunSends(P.Next(e, run[0]), run[1..]);
      Associate(KeysSent(e), Call(run[0]), Calls(run[1..]));
    }
  }

  /** In every run of an engine, what the box has received and is still to receive is what
      the calls of SendKeyPress and SendKeyRelease mean, in the order of the calls. */
  lemma CallsComeOut(capacity: nat, run: seq<P.Action>)
    requires P.IsRun(P.Init(capacity), run)
    ensures Due(P.Final(P.Init(capacity), run)) == Reports(Calls(run))
  {
    I.InitInv(capacity);
    I.RunKeepsInv(P.Init(capacity), run);
    RunSends(P.Init(capacity), run);
    DueIsWhatWasSent(P.Final(P.Init(capacity), run));
    assert [] + Calls(run) == Calls(run);
  }
}
