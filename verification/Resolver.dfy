/** The ResolverQueue of BonjourSniffer.java: service resolutions, one at a time. */
module Resolvers {

  /** The queue; `started` are the calls of NsdManager.resolveService, of which the first
      `completed` have answered, and `added` all that was ever asked for. */
  datatype Resolver<T> = Resolver(
    queue: seq<T>, inProgress: bool, started: seq<T>, completed: nat, added: seq<T>)

  function Empty<T>(): Resolver<T> {
    Resolver([], false, [], 0, [])
  }

  function Resolved<T>(r: Resolver<T>): Resolver<T> {
    if r.inProgress || r.queue == [] then r
    else r.(inProgress := true, started := r.started + [r.queue[0]], queue := r.queue[1..])
  }

  function Added<T>(r: Resolver<T>, service: T): Resolver<T> {
    Resolved(r.(queue := r.queue + [service], added := r.added + [service]))
  }

  /** One resolution has succeeded or failed. */
  function Received<T>(r: Resolver<T>): Resolver<T> {
    Resolved(r.(inProgress := false, completed := r.completed + 1))
  }

  datatype Event<T> = Found(service: T) | Answered

  /** Only a resolution that was started answers. */
  predicate Enabled<T>(r: Resolver<T>, e: Event<T>) {
    e.Answered? ==> r.completed < |r.started|
  }

  function Next<T>(r: Resolver<T>, e: Event<T>): Resolver<T> {
    match e
    case Found(service) => Added(r, service)
    case Answered => Received(r)
  }

  predicate IsRun<T>(r: Resolver<T>, run: seq<Event<T>>)
    decreases |run|
  {
    run == [] || (Enabled(r, run[0]) && IsRun(Next(r, run[0]), run[1..]))
  }

  function Final<T>(r: Resolver<T>, run: seq<Event<T>>): Resolver<T>
    decreases |run|
  {
    if run == [] then r else Final(Next(r, run[0]), run[1..])
  }

  /** At most one resolution is outstanding, one is whenever something waits, and what
      was added is what was started, in order, and then what waits. */
  ghost predicate Inv<T>(r: Resolver<T>) {
    && r.completed <= |r.started| <= r.completed + 1
    && (r.inProgress <==> r.completed < |r.started|)
    && (r.queue != [] ==> r.inProgress)
    && r.added == r.started + r.queue
  }

  lemma EventKeepsInv<T>(r: Resolver<T>, e: Event<T>)
    requires Inv(r) && Enabled(r, e)
    ensures Inv(Next(r, e))
  {}

  lemma {:induction false} RunKeepsInv<T>(r: Resolver<T>, run: seq<Event<T>>)
    requires Inv(r) && IsRun(r, run)
    ensures Inv(Final(r, run))
    decreases |run|
  {
    if run != [] {
      EventKeepsInv(r, run[0]);
      RunKeepsInv(Next(r, run[0]), run[1..]);
    }
  }

  /** What a run of discoveries has asked for. */
  function Asked<T>(run: seq<Event<T>>): seq<T> {
    if run == [] then [] else (if run[0].Found? then [run[0].service] else []) + Asked(run[1..])
  }

  lemma {:induction false} AddedIsAsked<T>(r: Resolver<T>, run: seq<Event<T>>)
    ensures Final(r, run).added == r.added + Asked(run)
    decreases |run|
  {
    if run != [] {
      AddedIsAsked(Next(r, run[0]), run[1..]);
    }
  }

  /** Whatever the order of discoveries and answers since the queue was made: at most one
      resolution is outstanding, one is whenever something waits, and what was asked for
      is what was started, in order, and then what waits. */
  lemma SingleFlight<T>(run: seq<Event<T>>)
    requires IsRun(Empty(), run)
    ensures var r := Final(Empty(), run);
      && r.completed <= |r.started| <= r.completed + 1
      && (r.queue != [] ==> |r.started| == r.completed + 1)
      && Asked(run) == r.started + r.queue
  {
    RunKeepsInv(Empty(), run);
    AddedIsAsked(Empty(), run);
  }

  /** If the resolutions keep answering, everything that was found gets resolved. */
  lemma {:induction false} EverythingIsResolved<T>(r: Resolver<T>) returns (run: seq<Event<T>>)
    requires Inv(r)
    ensures IsRun(r, run) && |run| == |r.added| - r.completed && forall e :: e in run ==> e.Answered?
    ensures var t := Final(r, run); t.started == r.added && t.completed == |r.added| && !t.inProgress
    decreases |r.added| - r.completed
  {
    if !r.inProgress {
      run := [];
    } else {
      var rest := EverythingIsResolved(Next(r, Answered));
      run := [Answered] + rest;
    }
  }

  /** ResolverQueue, in its own form; resolveService is recorded in started. */
  class ResolverQueue<T> {
    var queue: seq<T>
    var inProgress: bool
    var started: seq<T>
    ghost var completed: nat
    ghost var added: seq<T>

    ghost function Value(): Resolver<T>
      reads this
    {
      Resolver(queue, inProgress, started, completed, added)
    }

    constructor ()
      ensures Value() == Empty()
    {
      queue, inProgress, started, completed, added := [], false, [], 0, [];
    }

    method ResolveNext()
      modifies this
      ensures Value() == Resolved(old(Value()))
    {
      if !(inProgress || queue == []) {
        inProgress := true;
        var service := queue[0];
        queue := queue[1..];
        started := started + [service];
      }
    }

    method Add(service: T)
      modifies this
      ensures Value() == Added(old(Value()), service)
    {
      queue := queue + [service];
      added := added + [service];
      ResolveNext();
    }

    method ResolutionReceived()
      modifies this
      ensures Value() == Received(old(Value()))
    {
      inProgress := false;
      completed := completed + 1;
      ResolveNext();
    }
  }
}
