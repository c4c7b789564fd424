/** MultiClicker.java, the macro player, and what comes out of the box when it plays. */
module Macros {
  import opened Messages

  /** A token of a macro, as Long.parseLong sorts it. */
  datatype Token = Delay(ms: int) | KeyName(name: string)

  /** A call of Listener.onMultiClickStep: None is the final null. */
  datatype Heard = Heard(name: Option<string>, at: nat)

  datatype Clicker = Clicker(
    tokens: seq<Token>, pos: nat,   // the list, and where its iterator stands
    running: bool,                  // mIterator is not null
    queue: seq<nat>,                // the callbacks in the handler's queue: when each may run
    now: nat, heard: seq<Heard>,    // the clock of the handler, and the calls of the listener
    startAt: nat, heardBefore: nat, // history: when start was called, and what had been heard
    alone: bool,                    // history: no callback was queued at that time
    stops: nat)                     // history: how many times stop has run since

  /** A player that has just been constructed. */
  function Unstarted(now: nat): Clicker {
    Clicker([], 0, false, [], now, [], now, 0, true, 0)
  }

  /** Handler.postDelayed takes a negative delay for none. */
  function Wait(ms: int): nat {
    if ms < 0 then 0 else ms
  }

  /** `stop` takes every callback of the player out of the queue. */
  function Stopping(c: Clicker): Clicker {
    c.(running := false, queue := [], heard := c.heard + [Heard(None, c.now)], stops := c.stops + 1)
  }

  /** The body of `run`. */
  function Running(c: Clicker): Clicker
    requires c.running && c.pos <= |c.tokens|
  {
    if c.pos < |c.tokens| then
      var next := c.(pos := c.pos + 1);
      match c.tokens[c.pos]
      case Delay(ms) => next.(queue := c.queue + [c.now + Wait(ms)])
      case KeyName(name) => next.(queue := c.queue + [c.now], heard := c.heard + [Heard(Some(name), c.now)])
    else Stopping(c)
  }

  /** `start` before it calls `run`. What is already in the queue stays there. */
  function Begun(c: Clicker, tokens: seq<Token>): Clicker {
    c.(tokens := tokens, pos := 0, running := true,
       startAt := c.now, heardBefore := |c.heard|, alone := c.queue == [], stops := 0)
  }

  function Starting(c: Clicker, tokens: seq<Token>): Clicker {
    Running(Begun(c, tokens))
  }

  /** The handler takes the i-th callback out of its queue. */
  function Taken(c: Clicker, i: nat): Clicker
    requires i < |c.queue|
  {
    c.(queue := c.queue[..i] + c.queue[i + 1..])
  }

  /** The key tokens, in order. */
  function KeyNames(tokens: seq<Token>): seq<string> {
    if tokens == [] then []
    else KeyNames(tokens[..|tokens| - 1]) + match tokens[|tokens| - 1]
      case Delay(_) => []
      case KeyName(name) => [name]
  }

  /** The sum of the positive delays. */
  function Delays(tokens: seq<Token>): nat {
    if tokens == [] then 0
    else Delays(tokens[..|tokens| - 1]) + match tokens[|tokens| - 1]
      case Delay(ms) => Wait(ms)
      case KeyName(_) => 0
  }

  lemma TakeOne(tokens: seq<Token>, k: nat)
    requires k < |tokens|
    ensures tokens[..k + 1] == tokens[..k] + [tokens[k]]
    ensures KeyNames(tokens[..k + 1]) == KeyNames(tokens[..k]) +
      match tokens[k] { case Delay(_) => [] case KeyName(name) => [name] }
    ensures Delays(tokens[..k + 1]) == Delays(tokens[..k]) +
      match tokens[k] { case Delay(ms) => Wait(ms) case KeyName(_) => 0 }
  {}

  /** What the listener has been told since start. */
  function Calls(c: Clicker): seq<Heard>
    requires c.heardBefore <= |c.heard|
  {
    c.heard[c.heardBefore..]
  }

  /** The calls name the keys, in order; then come the nulls, one for each stop. */
  ghost predicate CallsOk(calls: seq<Heard>, names: seq<string>, stops: nat) {
    && |calls| == |names| + stops
    && (forall i :: 0 <= i < |names| ==> calls[i].name == Some(names[i]))
    && (forall i :: |names| <= i < |calls| ==> calls[i].name == None)
  }

  /** No key among the first pos tokens is named earlier than the delays before it allow. */
  ghost predicate TimesOk(calls: seq<Heard>, tokens: seq<Token>, pos: nat, startAt: nat)
    requires pos <= |tokens|
  {
    forall k :: 0 <= k < pos && tokens[k].KeyName? ==>
      && |KeyNames(tokens[..k])| < |calls|
      && startAt + Delays(tokens[..k]) <= calls[|KeyNames(tokens[..k])|].at
  }

  /** What the listener has been told is what it should have been told. */
  ghost predicate ToldOk(c: Clicker) {
    && c.pos <= |c.tokens| && c.heardBefore <= |c.heard|
    && CallsOk(Calls(c), KeyNames(c.tokens[..c.pos]), c.stops)
    && (c.alone ==> TimesOk(Calls(c), c.tokens, c.pos, c.startAt))
  }

  /** A callback is queued exactly when there is an iterator, so run never finds none.
      There is one callback, and it waits for the delays, if none was left over when
      the macro was started. */
  ghost predicate Inv(c: Clicker) {
    && ToldOk(c)
    && (c.queue != [] <==> c.running)
    && (c.running <==> c.stops == 0)
    && (c.alone ==> |c.queue| <= 1)
    && (c.alone && c.queue != [] ==> c.startAt + Delays(c.tokens[..c.pos]) <= c.queue[0])
  }

  /** What `run` finds when it is called. */
  ghost predicate AboutToRun(c: Clicker) {
    && ToldOk(c)
    && c.running && c.stops == 0
    && (c.alone ==> c.queue == [] && c.startAt + Delays(c.tokens[..c.pos]) <= c.now)
  }

  lemma StopKeepsInv(c: Clicker)
    requires ToldOk(c)
    ensures Inv(Stopping(c))
  {}

  lemma NamingKeepsTimes(calls: seq<Heard>, tokens: seq<Token>, pos: nat, startAt: nat, h: Heard)
    requires pos < |tokens| && TimesOk(calls, tokens, pos, startAt)
    requires |calls| == |KeyNames(tokens[..pos])| && startAt + Delays(tokens[..pos]) <= h.at
    ensures TimesOk(calls + [h], tokens, pos + 1, startAt)
  {}

  lemma NamingKeepsCalls(calls: seq<Heard>, names: seq<string>, h: Heard)
    requires CallsOk(calls, names, 0) && h.name.Some?
    ensures CallsOk(calls + [h], names + [h.name.value], 0)
  {}

  /** What naming the key at pos does to the player. */
  lemma NamingResult(c: Clicker)
    requires c.running && c.pos < |c.tokens| && c.tokens[c.pos].KeyName? && c.heardBefore <= |c.heard|
    ensures var t, h := Running(c), Heard(Some(c.tokens[c.pos].name), c.now);
      && t.tokens == c.tokens && t.pos == c.pos + 1 && t.running && t.stops == c.stops
      && t.startAt == c.startAt && t.alone == c.alone && t.queue == c.queue + [c.now]
      && t.heardBefore == c.heardBefore <= |t.heard| && Calls(t) == Calls(c) + [h]
  {
    assert Running(c).heard == c.heard + [Heard(Some(c.tokens[c.pos].name), c.now)];
  }

  lemma NamingKeepsInv(c: Clicker)
    requires AboutToRun(c) && c.pos < |c.tokens| && c.tokens[c.pos].KeyName?
    ensures Inv(Running(c))
  {
    var h := Heard(Some(c.tokens[c.pos].name), c.now);
    TakeOne(c.tokens, c.pos);
    NamingResult(c);
    NamingKeepsCalls(Calls(c), KeyNames(c.tokens[..c.pos]), h);
    if c.alone {
      NamingKeepsTimes(Calls(c), c.tokens, c.pos, c.startAt, h);
    }
  }

  lemma WaitingKeepsTimes(calls: seq<Heard>, tokens: seq<Token>, pos: nat, startAt: nat)
    requires pos < |tokens| && tokens[pos].Delay? && TimesOk(calls, tokens, pos, startAt)
    ensures TimesOk(calls, tokens, pos + 1, startAt)
  {}

  lemma WaitingKeepsInv(c: Clicker)
    requires AboutToRun(c) && c.pos < |c.tokens| && c.tokens[c.pos].Delay?
    ensures Inv(Running(c))
  {
    TakeOne(c.tokens, c.pos);
    if c.alone {
      WaitingKeepsTimes(Calls(c), c.tokens, c.pos, c.startAt);
    }
  }

  lemma RunKeepsInv(c: Clicker)
    requires AboutToRun(c)
    ensures Inv(Running(c))
  {
    if c.pos == |c.tokens| {
      StopKeepsInv(c);
    } else if c.tokens[c.pos].KeyName? {
      NamingKeepsInv(c);
    } else {
      WaitingKeepsInv(c);
    }
  }

  /** A queued callback always finds an iterator. */
  lemma CallbackIsAboutToRun(c: Clicker, i: nat)
    requires Inv(c) && i < |c.queue| && c.queue[i] <= c.now
    ensures AboutToRun(Taken(c, i))
  {}

  lemma BegunIsAboutToRun(c: Clicker, tokens: seq<Token>)
    ensures AboutToRun(Begun(c, tokens))
  {}

  /** However the player stands when it is started. */
  lemma StartKeepsInv(c: Clicker, tokens: seq<Token>)
    ensures Inv(Starting(c, tokens))
  {}

  datatype Event = Tick(ms: nat) | Callback(i: nat) | StopCalled

  predicate Enabled(c: Clicker, e: Event) {
    e.Callback? ==> e.i < |c.queue| && c.queue[e.i] <= c.now
  }

  /** `run` on a null iterator would throw; the model of that call is no step at all. */
  function Next(c: Clicker, e: Event): Clicker
    requires Enabled(c, e)
  {
    match e
    case Tick(ms) => c.(now := c.now + ms)
    case Callback(i) => if c.running && c.pos <= |c.tokens| then Running(Taken(c, i)) else Taken(c, i)
    case StopCalled => Stopping(c)
  }

  predicate IsPlay(c: Clicker, play: seq<Event>)
    decreases |play|
  {
    play == [] || (Enabled(c, play[0]) && IsPlay(Next(c, play[0]), play[1..]))
  }

  function Final(c: Clicker, play: seq<Event>): Clicker
    requires IsPlay(c, play)
    decreases |play|
  {
    if play == [] then c else Final(Next(c, play[0]), play[1..])
  }

  lemma EventKeepsInv(c: Clicker, e: Event)
    requires Inv(c) && Enabled(c, e)
    ensures Inv(Next(c, e)) && Next(c, e).tokens == c.tokens
  {
    match e
    case Tick(ms) => assert Calls(Next(c, e)) == Calls(c);
    case Callback(i) => CallbackIsAboutToRun(c, i); RunKeepsInv(Taken(c, i));
    case StopCalled => StopKeepsInv(c);
  }

  /** Whatever the delays of the handler, and stopped or not, a play names the keys of
      the macro in order, and then says null once for each time it is stopped. */
  lemma {:induction false} PlayKeepsInv(c: Clicker, play: seq<Event>)
    requires Inv(c) && IsPlay(c, play)
    ensures var d := Final(c, play);
      && Inv(d) && d.tokens == c.tokens && d.startAt == c.startAt && d.alone == c.alone
      && d.heardBefore == c.heardBefore
    decreases |play|
  {
    if play != [] {
      EventKeepsInv(c, play[0]);
      PlayKeepsInv(Next(c, play[0]), play[1..]);
    }
  }

  /** A player that nobody stops from outside runs to the end of the macro and stops once. */
  lemma {:induction false} PlayStopsOnce(c: Clicker, play: seq<Event>)
    requires Inv(c) && IsPlay(c, play) && StopCalled !in play
    requires c.stops <= 1 && (c.running || c.pos == |c.tokens|)
    ensures var d := Final(c, play); d.stops <= 1 && (d.running || d.pos == |d.tokens|)
    decreases |play|
  {
    if play != [] {
      EventKeepsInv(c, play[0]);
      PlayStopsOnce(Next(c, play[0]), play[1..]);
    }
  }

  // ---- the delays

  /** In this play of a macro no key is named earlier than the delays before it allow. */
  ghost predicate Waits(c: Clicker, tokens: seq<Token>, play: seq<Event>)
    requires IsPlay(Starting(c, tokens), play)
  {
    var d := Final(Starting(c, tokens), play);
    && d.pos <= |tokens| && d.heardBefore <= |d.heard|
    && TimesOk(Calls(d), tokens, d.pos, c.now)
  }

  /** Whatever macro is started, and however it is played, it waits. */
  ghost predicate AlwaysWaits(c: Clicker) {
    forall tokens, play :: IsPlay(Starting(c, tokens), play) ==> Waits(c, tokens, play)
  }

  lemma KeysWaitForDelays(c: Clicker, tokens: seq<Token>, play: seq<Event>)
    requires c.queue == [] && IsPlay(Starting(c, tokens), play)
    ensures Waits(c, tokens, play)
  {
    StartKeepsInv(c, tokens);
    PlayKeepsInv(Starting(c, tokens), play);
  }

  /** How long until the first queued callback may run. */
  function Gap(c: Clicker): nat
    requires c.queue != []
  {
    if c.now < c.queue[0] then c.queue[0] - c.now else 0
  }

  lemma TwoEvents(c: Clicker, e: Event, f: Event)
    requires Enabled(c, e) && Enabled(Next(c, e), f)
    ensures IsPlay(c, [e, f]) && Final(c, [e, f]) == Next(Next(c, e), f)
  {
    assert [e, f][1..] == [f] && [f][1..] == [];
    assert Final(Next(c, e), [f]) == Final(Next(Next(c, e), f), []);
  }

  /** A macro that waits longer than the callback left in the queue: that callback moves
      it along too early. */
  lemma LeftoverHurries(c: Clicker) returns (tokens: seq<Token>, play: seq<Event>)
    requires Inv(c) && c.queue != []
    ensures IsPlay(Starting(c, tokens), play) && !Waits(c, tokens, play)
  {
    tokens, play := [Delay(Gap(c) + 1), KeyName("k")], [Tick(Gap(c)), Callback(0)];
    var s := Starting(c, tokens);
    assert s.queue[0] == c.queue[0];
    TwoEvents(s, play[0], play[1]);
    var d := Final(s, play);
    assert Calls(d) == [Heard(Some("k"), c.now + Gap(c))];
    TakeOne(tokens, 0);
    assert KeyNames(tokens[..1]) == [] && Delays(tokens[..1]) == Gap(c) + 1;
    assert tokens[1].KeyName?;
  }

  /** Exactly when the delays of a macro are kept: when no callback is left in the queue
      as it is started, that is, when the player was stopped. */
  lemma DelaysAreKeptExactly(c: Clicker)
    requires Inv(c)
    ensures c.queue == [] <==> AlwaysWaits(c)
    ensures c.queue == [] <==> !c.running
  {
    if c.queue == [] {
      forall tokens, play | IsPlay(Starting(c, tokens), play) ensures Waits(c, tokens, play) {
        KeysWaitForDelays(c, tokens, play);
      }
    } else {
      var tokens, play := LeftoverHurries(c);
    }
  }

  /** An instance: a key that should come after 9 is named at 5. */
  lemma RestartDoesNotWait()
    ensures exists c, play ::
      && IsPlay(Starting(Starting(c, [Delay(5)]), [Delay(9), KeyName("red")]), play)
      && var d := Final(Starting(Starting(c, [Delay(5)]), [Delay(9), KeyName("red")]), play);
         d.heard == [Heard(Some("red"), 5)]
  {
    var c, play := Unstarted(0), [Tick(5), Callback(0)];
    var d := Starting(Starting(c, [Delay(5)]), [Delay(9), KeyName("red")]);
    assert d.queue == [5, 9];
    assert play[1..] == [Callback(0)] && play[1..][1..] == [];
    assert IsPlay(d, play);
    assert Final(d, play).heard == [Heard(Some("red"), 5)];
  }

  // ---- the same, token by token

  /** One turn of `run`: a delay queues the callback for when it is over, at once when it is
      negative; a key is named now and queues it for now; the end empties the queue and
      says null. */
  lemma RunTakesOneToken(c: Clicker)
    requires c.running && c.pos <= |c.tokens|
    ensures var t := Running(c);
      && t.now == c.now && t.tokens == c.tokens && t.startAt == c.startAt && t.heardBefore == c.heardBefore
      && (c.pos < |c.tokens| ==>
            && t.pos == c.pos + 1 && t.running
            && match c.tokens[c.pos]
               case Delay(ms) => t.queue == c.queue + [if 0 <= ms then c.now + ms else c.now] && t.heard == c.heard
               case KeyName(name) =>
                 t.queue == c.queue + [c.now] && t.heard == c.heard + [Heard(Some(name), c.now)])
      && (c.pos == |c.tokens| ==>
            !t.running && t.queue == [] && t.heard == c.heard + [Heard(None, c.now)])
  {}

  /** How many of the first n tokens are keys. */
  function KeysBefore(tokens: seq<Token>, n: nat): nat
    requires n <= |tokens|
  {
    if n == 0 then 0 else KeysBefore(tokens, n - 1) + if tokens[n - 1].KeyName? then 1 else 0
  }

  lemma {:induction false} KeysBeforeCounts(tokens: seq<Token>, n: nat)
    requires n <= |tokens|
    ensures |KeyNames(tokens[..n])| == KeysBefore(tokens, n)
    decreases n
  {
    if n != 0 {
      TakeOne(tokens, n - 1);
      KeysBeforeCounts(tokens, n - 1);
    }
  }

  /** Each key name has its place among the names. */
  lemma {:induction false} KeyInNames(tokens: seq<Token>, n: nat, k: nat)
    requires k < n <= |tokens| && tokens[k].KeyName?
    ensures KeysBefore(tokens, k) < KeysBefore(tokens, n) == |KeyNames(tokens[..n])|
    ensures KeyNames(tokens[..n])[KeysBefore(tokens, k)] == tokens[k].name
    decreases n
  {
    TakeOne(tokens, n - 1);
    KeysBeforeCounts(tokens, n);
    KeysBeforeCounts(tokens, n - 1);
    if k < n - 1 {
      KeyInNames(tokens, n - 1, k);
    }
  }

  /** The delays from token i up to token k. */
  function Between(tokens: seq<Token>, i: nat, k: nat): int
    requires i <= |tokens| && k <= |tokens|
  {
    Delays(tokens[..k]) - Delays(tokens[..i])
  }

  lemma {:induction false} DelayIsBetween(tokens: seq<Token>, i: nat, j: nat, k: nat)
    requires i <= j < k <= |tokens| && tokens[j].Delay?
    ensures tokens[j].ms <= Between(tokens, i, k) && 0 <= Between(tokens, i, j)
    decreases k
  {
    TakeOne(tokens, k - 1);
    if j < k - 1 {
      DelayIsBetween(tokens, i, j, k - 1);
    } else {
      DelaysGrow(tokens, i, j);
    }
  }

  lemma {:induction false} DelaysGrow(tokens: seq<Token>, i: nat, k: nat)
    requires i <= k <= |tokens|
    ensures 0 <= Between(tokens, i, k)
    decreases k
  {
    if i < k {
      TakeOne(tokens, k - 1);
      DelaysGrow(tokens, i, k - 1);
    }
  }

  /** Where the call that names token i is. */
  function Call(tokens: seq<Token>, i: nat): nat
    requires i <= |tokens|
  {
    |KeyNames(tokens[..i])|
  }

  /** Tokens i and k are named, the second no earlier than the delays between allow. */
  ghost predicate Apart(calls: seq<Heard>, tokens: seq<Token>, i: nat, k: nat)
    requires i <= k <= |tokens|
  {
    && Call(tokens, i) < |calls| && Call(tokens, k) < |calls|
    && calls[Call(tokens, i)].at + Between(tokens, i, k) <= calls[Call(tokens, k)].at
  }

  /** Token i is named, and the delays from it up to pos are over at the time due. */
  ghost predicate OverAt(calls: seq<Heard>, tokens: seq<Token>, i: nat, pos: nat, due: nat)
    requires i <= pos <= |tokens|
  {
    Call(tokens, i) < |calls| && calls[Call(tokens, i)].at + Between(tokens, i, pos) <= due
  }

  /** No key among the first pos tokens is named earlier after another than the delays
      between them allow. */
  ghost predicate Spaced(calls: seq<Heard>, tokens: seq<Token>, pos: nat)
    requires pos <= |tokens|
  {
    forall i: nat, k: nat :: i < k < pos && tokens[i].KeyName? && tokens[k].KeyName? ==> Apart(calls, tokens, i, k)
  }

  /** And at the time due, another can be named. */
  ghost predicate RoomAt(calls: seq<Heard>, tokens: seq<Token>, pos: nat, due: nat)
    requires pos <= |tokens|
  {
    forall i: nat :: i < pos && tokens[i].KeyName? ==> OverAt(calls, tokens, i, pos, due)
  }

  ghost predicate Spacing(c: Clicker) {
    && c.pos <= |c.tokens| && c.heardBefore <= |c.heard|
    && (c.alone ==> Spaced(Calls(c), c.tokens, c.pos))
    && (c.alone && c.queue != [] ==> RoomAt(Calls(c), c.tokens, c.pos, c.queue[0]))
  }

  /** What `run` finds. */
  ghost predicate SpacingNow(c: Clicker) {
    && c.pos <= |c.tokens| && c.heardBefore <= |c.heard|
    && (c.alone ==> Spaced(Calls(c), c.tokens, c.pos) && RoomAt(Calls(c), c.tokens, c.pos, c.now))
  }

  lemma SpacingGrows(calls: seq<Heard>, h: Heard, tokens: seq<Token>, pos: nat)
    requires pos <= |tokens| && Spaced(calls, tokens, pos)
    ensures Spaced(calls + [h], tokens, pos)
  {
    forall i: nat, k: nat | i < k < pos && tokens[i].KeyName? && tokens[k].KeyName?
      ensures Apart(calls + [h], tokens, i, k)
    {
      assert Apart(calls, tokens, i, k);
    }
  }

  lemma NamingKeepsSpacing(calls: seq<Heard>, tokens: seq<Token>, pos: nat, h: Heard)
    requires pos < |tokens| && tokens[pos].KeyName? && |calls| == Call(tokens, pos)
    requires Spaced(calls, tokens, pos) && RoomAt(calls, tokens, pos, h.at)
    ensures Spaced(calls + [h], tokens, pos + 1) && RoomAt(calls + [h], tokens, pos + 1, h.at)
  {
    SpacingGrows(calls, h, tokens, pos);
    forall i: nat, k: nat | i < k < pos + 1 && tokens[i].KeyName? && tokens[k].KeyName?
      ensures Apart(calls + [h], tokens, i, k)
    {
      if k == pos {
        assert OverAt(calls, tokens, i, pos, h.at);
      } else {
        assert Apart(calls + [h], tokens, i, k);
      }
    }
    forall i: nat | i < pos + 1 && tokens[i].KeyName? ensures OverAt(calls + [h], tokens, i, pos + 1, h.at) {
      TakeOne(tokens, pos);
      if i < pos {
        assert OverAt(calls, tokens, i, pos, h.at);
      }
    }
  }

  lemma WaitingKeepsSpacing(calls: seq<Heard>, tokens: seq<Token>, pos: nat, now: nat)
    requires pos < |tokens| && tokens[pos].Delay?
    requires Spaced(calls, tokens, pos) && RoomAt(calls, tokens, pos, now)
    ensures Spaced(calls, tokens, pos + 1) && RoomAt(calls, tokens, pos + 1, now + Wait(tokens[pos].ms))
  {
    forall i: nat | i < pos + 1 && tokens[i].KeyName?
      ensures OverAt(calls, tokens, i, pos + 1, now + Wait(tokens[pos].ms))
    {
      TakeOne(tokens, pos);
      assert OverAt(calls, tokens, i, pos, now);
    }
  }

  lemma StoppingKeepsSpacing(c: Clicker)
    requires c.pos <= |c.tokens| && c.heardBefore <= |c.heard|
    requires c.alone ==> Spaced(Calls(c), c.tokens, c.pos)
    ensures Spacing(Stopping(c))
  {
    assert Calls(Stopping(c)) == Calls(c) + [Heard(None, c.now)];
    if c.alone {
      SpacingGrows(Calls(c), Heard(None, c.now), c.tokens, c.pos);
    }
  }

  lemma RunKeepsSpacing(c: Clicker)
    requires AboutToRun(c) && SpacingNow(c)
    ensures Spacing(Running(c))
  {
    if c.pos == |c.tokens| {
      StoppingKeepsSpacing(c);
    } else if c.tokens[c.pos].KeyName? {
      NamingResult(c);
      if c.alone {
        NamingKeepsSpacing(Calls(c), c.tokens, c.pos, Heard(Some(c.tokens[c.pos].name), c.now));
      }
    } else {
      assert Calls(Running(c)) == Calls(c);
      if c.alone {
        WaitingKeepsSpacing(Calls(c), c.tokens, c.pos, c.now);
      }
    }
  }

  lemma EventKeepsSpacing(c: Clicker, e: Event)
    requires Inv(c) && Spacing(c) && Enabled(c, e)
    ensures Spacing(Next(c, e))
  {
    match e
    case Tick(ms) => assert Calls(Next(c, e)) == Calls(c);
    case Callback(i) =>
      CallbackIsAboutToRun(c, i);
      assert Calls(Taken(c, i)) == Calls(c);
      RunKeepsSpacing(Taken(c, i));
    case StopCalled => StoppingKeepsSpacing(c);
  }

  lemma {:induction false} PlayKeepsSpacing(c: Clicker, play: seq<Event>)
    requires Inv(c) && Spacing(c) && IsPlay(c, play)
    ensures Spacing(Final(c, play))
    decreases |play|
  {
    if play != [] {
      EventKeepsInv(c, play[0]);
      EventKeepsSpacing(c, play[0]);
      PlayKeepsSpacing(Next(c, play[0]), play[1..]);
    }
  }

  lemma StartKeepsSpacing(c: Clicker, tokens: seq<Token>)
    ensures Spacing(Starting(c, tokens))
  {
    BegunIsAboutToRun(c, tokens);
    RunKeepsSpacing(Begun(c, tokens));
  }

  /** Every key that has been named: the call at its place names it. */
  lemma KeyIsNamed(c: Clicker, tokens: seq<Token>, play: seq<Event>, k: nat)
    requires IsPlay(Starting(c, tokens), play)
    requires k < Final(Starting(c, tokens), play).pos && k < |tokens| && tokens[k].KeyName?
    ensures var d := Final(Starting(c, tokens), play);
      && d.heardBefore <= |d.heard| && KeysBefore(tokens, k) < |Calls(d)|
      && Calls(d)[KeysBefore(tokens, k)].name == Some(tokens[k].name)
  {
    StartKeepsInv(c, tokens);
    PlayKeepsInv(Starting(c, tokens), play);
    KeyInNames(tokens, Final(Starting(c, tokens), play).pos, k);
  }

  /** Every delay separates the keys around it, and the keys behind it from the start: for
      a player started when stopped, in every play. */
  lemma DelaySeparates(c: Clicker, tokens: seq<Token>, play: seq<Event>, i: nat, j: nat, k: nat)
    requires c.queue == [] && IsPlay(Starting(c, tokens), play)
    requires i < j < k < Final(Starting(c, tokens), play).pos && k < |tokens|
    requires tokens[i].KeyName? && tokens[j].Delay? && tokens[k].KeyName?
    ensures var d := Final(Starting(c, tokens), play);
      && |c.heard| <= |d.heard|
      && var calls := d.heard[|c.heard|..];
      && KeysBefore(tokens, i) < KeysBefore(tokens, k) < |calls|
      && calls[KeysBefore(tokens, i)].at + tokens[j].ms <= calls[KeysBefore(tokens, k)].at
  {
    SeparationFacts(c, tokens, play);
    KeyInNames(tokens, k, i);
    KeysBeforeCounts(tokens, i);
    KeysBeforeCounts(tokens, k);
    DelayIsBetween(tokens, i, j, k);
    var d := Final(Starting(c, tokens), play);
    assert Apart(Calls(d), tokens, i, k);
  }

  lemma DelayPostpones(c: Clicker, tokens: seq<Token>, play: seq<Event>, j: nat, k: nat)
    requires c.queue == [] && IsPlay(Starting(c, tokens), play)
    requires j < k < Final(Starting(c, tokens), play).pos && k < |tokens|
    requires tokens[j].Delay? && tokens[k].KeyName?
    ensures var d := Final(Starting(c, tokens), play);
      && |c.heard| <= |d.heard|
      && var calls := d.heard[|c.heard|..];
      && KeysBefore(tokens, k) < |calls|
      && c.now + tokens[j].ms <= calls[KeysBefore(tokens, k)].at
  {
    SeparationFacts(c, tokens, play);
    KeysWaitForDelays(c, tokens, play);
    KeysBeforeCounts(tokens, k);
    DelayIsBetween(tokens, 0, j, k);
    assert tokens[..0] == [];
  }

  lemma SeparationFacts(c: Clicker, tokens: seq<Token>, play: seq<Event>)
    requires c.queue == [] && IsPlay(Starting(c, tokens), play)
    ensures var d := Final(Starting(c, tokens), play);
      && d.pos <= |tokens| && d.heardBefore == |c.heard| <= |d.heard|
      && Spaced(Calls(d), tokens, d.pos)
  {
    StartKeepsInv(c, tokens);
    PlayKeepsInv(Starting(c, tokens), play);
    StartKeepsSpacing(c, tokens);
    PlayKeepsSpacing(Starting(c, tokens), play);
  }

  // ---- the end

  /** How many callbacks a play runs. */
  function Callbacks(play: seq<Event>): nat {
    if play == [] then 0 else (if play[0].Callback? then 1 else 0) + Callbacks(play[1..])
  }

  /** How many callbacks there are until the macro stops. */
  function Remaining(c: Clicker): nat {
    if c.running && c.pos <= |c.tokens| then |c.tokens| - c.pos + 1 else 0
  }

  lemma EventCountsDown(c: Clicker, e: Event)
    requires Inv(c) && Enabled(c, e) && !e.StopCalled?
    ensures (if e.Callback? then 1 else 0) + Remaining(Next(c, e)) == Remaining(c)
  {}

  lemma {:induction false} CallbacksCountDown(c: Clicker, play: seq<Event>)
    requires Inv(c) && IsPlay(c, play) && StopCalled !in play
    ensures Callbacks(play) + Remaining(Final(c, play)) == Remaining(c)
    decreases |play|
  {
    if play != [] {
      EventKeepsInv(c, play[0]);
      EventCountsDown(c, play[0]);
      CallbacksCountDown(Next(c, play[0]), play[1..]);
    }
  }

  /** A macro that is left alone stops with its |tokens|-th callback, not earlier, and
      there are no more callbacks then. */
  lemma StopsAfterItsTokens(c: Clicker, tokens: seq<Token>, play: seq<Event>)
    requires IsPlay(Starting(c, tokens), play) && StopCalled !in play
    ensures Callbacks(play) <= |tokens|
    ensures Final(Starting(c, tokens), play).running <==> Callbacks(play) < |tokens|
  {
    StartKeepsInv(c, tokens);
    PlayKeepsInv(Starting(c, tokens), play);
    CallbacksCountDown(Starting(c, tokens), play);
  }

  lemma PlayCons(c: Clicker, e: Event, play: seq<Event>)
    requires Enabled(c, e) && IsPlay(Next(c, e), play)
    ensures IsPlay(c, [e] + play) && Final(c, [e] + play) == Final(Next(c, e), play)
  {
    assert ([e] + play)[1..] == play;
  }

  /** And nothing prevents it from coming to that: waiting is enough. */
  lemma {:induction false} RunsToItsEnd(c: Clicker) returns (play: seq<Event>)
    requires Inv(c)
    ensures IsPlay(c, play) && StopCalled !in play && !Final(c, play).running
    decreases Remaining(c)
  {
    if c.running {
      var waited := Next(c, Tick(Gap(c)));
      EventKeepsInv(c, Tick(Gap(c)));
      EventKeepsInv(waited, Callback(0));
      var rest := RunsToItsEnd(Next(waited, Callback(0)));
      PlayCons(waited, Callback(0), rest);
      PlayCons(c, Tick(Gap(c)), [Callback(0)] + rest);
      play := [Tick(Gap(c))] + ([Callback(0)] + rest);
    } else {
      play := [];
    }
  }

  /** A macro that is left to play to its end names all its keys and says null once. */
  lemma FullPlay(c: Clicker, tokens: seq<Token>, play: seq<Event>)
    requires IsPlay(Starting(c, tokens), play) && StopCalled !in play
    requires !Final(Starting(c, tokens), play).running
    ensures var d := Final(Starting(c, tokens), play);
      && d.heardBefore <= |d.heard| && |Calls(d)| == |KeyNames(tokens)| + 1
      && (forall i :: 0 <= i < |KeyNames(tokens)| ==> Calls(d)[i].name == Some(KeyNames(tokens)[i]))
      && Calls(d)[|KeyNames(tokens)|].name == None
      && |Calls(d)| == KeysBefore(tokens, |tokens|) + 1
  {
    KeysBeforeCounts(tokens, |tokens|);
    StartKeepsInv(c, tokens);
    PlayKeepsInv(Starting(c, tokens), play);
    PlayStopsOnce(Starting(c, tokens), play);
    assert tokens[..|tokens|] == tokens;
  }

  /** MultiClicker, in its own form. The listener's calls are recorded in heard. */
  class MultiClicker {
    var tokens: seq<Token>
    var pos: Option<nat>       // mIterator: None for null
    var queue: seq<nat>        // the callbacks in the handler's queue
    var now: nat
    var heard: seq<Heard>
    ghost var lastPos: nat     // where the iterator stood when it was dropped
    ghost var startAt: nat
    ghost var heardBefore: nat
    ghost var alone: bool
    ghost var stops: nat

    ghost function Value(): Clicker
      reads this
    {
      Clicker(tokens, if pos.Some? then pos.value else lastPos, pos.Some?, queue, now, heard,
              startAt, heardBefore, alone, stops)
    }

    constructor (now: nat)
      ensures Value() == Unstarted(now)
    {
      tokens, pos, queue, this.now, heard := [], None, [], now, [];
      startAt, heardBefore, alone, stops, lastPos := now, 0, true, 0, 0;
    }

    predicate Stopped()
      reads this
      ensures Inv(Value()) ==> (Stopped() <==> queue == [])
    {
      pos.None?
    }

    method Stop()
      modifies this
      ensures Value() == Stopping(old(Value()))
    {
      queue := [];
      lastPos := Value().pos;
      pos := None;
      heard := heard + [Heard(None, now)];
      stops := stops + 1;
    }

    method Run()
      requires pos.Some? && pos.value <= |tokens|
      modifies this
      ensures Value() == Running(old(Value()))
    {
      if pos.value < |tokens| {
        var current := tokens[pos.value];
        pos := Some(pos.value + 1);
        match current {
          case Delay(ms) =>
            queue := queue + [now + Wait(ms)];
          case KeyName(name) =>
            heard := heard + [Heard(Some(name), now)];
            queue := queue + [now];
        }
      } else {
        Stop();
      }
    }

    method Start(sequence: seq<Token>)
      modifies this
      ensures Value() == Starting(old(Value()), sequence)
    {
      tokens := sequence;
      pos := Some(0);
      startAt, heardBefore, alone, stops := now, |heard|, queue == [], 0;
      Run();
    }
  }
}
