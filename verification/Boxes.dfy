/** Freebox.java and the list of boxes of Home.java, on values: what a saved box
    becomes, and the two navigation loops. */
module Boxes {
  import opened Messages

  /** The fields of a Freebox object; rcu is the native handle, 0 for none. */
  datatype Box = Box(
    address: Option<string>, port: int,
    focus: bool, reachable: bool, color: Option<string>,
    rcu: nat, statusLooper: bool)

  /** A box as detected by a sniffer: Freebox (address, port, description). */
  function Sniffed(address: string, port: int): Box {
    Box(Some(address), port, false, true, None, 0, false)
  }

  /** A saved box; a key that is not in the JSON object is None. */
  datatype Record = Record(
    port: Option<int>, address: Option<string>, focus: Option<bool>, color: Option<string>)

  /** Freebox.getJson. Putting a null value removes the key. */
  function ToJson(b: Box): Record {
    Record(Some(b.port), b.address, Some(b.focus), b.color)
  }

  /** Freebox (JSONObject): the four keys are read in order, and the first that is
      missing leaves its field and the later ones at their defaults. */
  function FromJson(r: Record): Box {
    var blank := Box(None, 0, false, false, None, 0, false);
    if r.port.None? then blank
    else
      var ported := blank.(port := r.port.value);
      if r.address.None? then ported
      else
        var addressed := ported.(address := r.address);
        if r.focus.None? then addressed
        else
          var focused := addressed.(focus := r.focus.value);
          if r.color.None? then focused else focused.(color := r.color)
  }

  /** Saving a box and reading it back keeps its address, port, focus and colour
      exactly when the box has an address, or has neither focus nor colour. */
  lemma JsonRoundTrip(b: Box)
    ensures FromJson(ToJson(b)) == Box(b.address, b.port, b.focus, false, b.color, 0, false)
      <==> b.address.Some? || (!b.focus && b.color.None?)
  {}

  /** What a record with missing keys becomes, field by field. */
  lemma FirstMissingKeyStops(r: Record)
    ensures FromJson(r).port == (if r.port.Some? then r.port.value else 0)
    ensures FromJson(r).address == (if r.port.Some? then r.address else None)
    ensures FromJson(r).focus <==> r.port.Some? && r.address.Some? && r.focus == Some(true)
    ensures FromJson(r).color == (if r.port.Some? && r.address.Some? && r.focus.Some? then r.color else None)
    ensures !FromJson(r).reachable && FromJson(r).rcu == 0 && !FromJson(r).statusLooper
  {}

  /** Freebox.equals, for boxes that have an address. */
  predicate Same(a: Box, b: Box) {
    a.port == b.port && a.address == b.address
  }

  /** Equality is an equivalence, and is that of what is read back after saving. */
  lemma EqualityOutlivesSaving(a: Box, b: Box, c: Box)
    ensures Same(a, b) <==> Same(FromJson(ToJson(a)), FromJson(ToJson(b)))
    ensures Same(a, a) && (Same(a, b) ==> Same(b, a)) && (Same(a, b) && Same(b, c) ==> Same(a, c))
  {}

  predicate SameAs(a: Box, of: Option<Box>) {
    of.Some? && Same(a, of.value)
  }

  /** No two boxes of the list share an address and a port. */
  ghost predicate Distinct(bs: seq<Box>) {
    forall i, j :: 0 <= i < j < |bs| ==> !Same(bs[i], bs[j])
  }

  /** Where a box is in the list, if it is. */
  function Find(bs: seq<Box>, b: Box, i: nat := 0): (k: Option<nat>)
    requires i <= |bs|
    ensures k.Some? ==> i <= k.value < |bs| && Same(b, bs[k.value])
    ensures k.Some? ==> forall j :: i <= j < k.value ==> !Same(b, bs[j])
    ensures k.None? ==> forall j :: i <= j < |bs| ==> !Same(b, bs[j])
    decreases |bs| - i
  {
    if i == |bs| then None
    else if Same(b, bs[i]) then Some(i)
    else Find(bs, b, i + 1)
  }

  /** Home.getNextReachable, from index i on. */
  function NextFrom(bs: seq<Box>, of: Option<Box>, i: nat, found: bool): Option<nat>
    requires i <= |bs|
    decreases |bs| - i
  {
    if i == |bs| then None
    else if found && bs[i].reachable then Some(i)
    else NextFrom(bs, of, i + 1, found || SameAs(bs[i], of))
  }

  function NextReachable(bs: seq<Box>, of: Option<Box>): Option<nat> {
    NextFrom(bs, of, 0, false)
  }

  /** Home.getPreviousReachable, from index i on. */
  function PreviousFrom(bs: seq<Box>, of: Option<Box>, i: nat, previous: Option<nat>): Option<nat>
    requires i <= |bs|
    decreases |bs| - i
  {
    if i == |bs| || SameAs(bs[i], of) then previous
    else PreviousFrom(bs, of, i + 1, if bs[i].reachable then Some(i) else previous)
  }

  function PreviousReachable(bs: seq<Box>, of: Option<Box>): Option<nat> {
    PreviousFrom(bs, of, 0, None)
  }

  /** x and y are reachable, x comes first, and nothing between them is reachable. */
  ghost predicate Adjacent(bs: seq<Box>, x: nat, y: nat) {
    && x < y < |bs|
    && bs[x].reachable && bs[y].reachable
    && forall j :: x < j < y ==> !bs[j].reachable
  }

  lemma {:induction false} NextIsFirstAfter(bs: seq<Box>, of: Option<Box>, i: nat)
    requires i <= |bs|
    ensures match NextFrom(bs, of, i, true)
      case None => forall j :: i <= j < |bs| ==> !bs[j].reachable
      case Some(k) => i <= k < |bs| && bs[k].reachable && forall j :: i <= j < k ==> !bs[j].reachable
    decreases |bs| - i
  {
    if i < |bs| && !bs[i].reachable {
      NextIsFirstAfter(bs, of, i + 1);
    }
  }

  /** The search starts after the box itself. */
  lemma {:induction false} NextStartsAt(bs: seq<Box>, x: nat, i: nat)
    requires Distinct(bs) && i <= x < |bs|
    ensures NextFrom(bs, Some(bs[x]), i, false) == NextFrom(bs, Some(bs[x]), x + 1, true)
    decreases x - i
  {
    if i < x {
      NextStartsAt(bs, x, i + 1);
    }
  }

  lemma {:induction false} PreviousIsLastBefore(bs: seq<Box>, y: nat, i: nat, previous: Option<nat>)
    requires Distinct(bs) && i <= y < |bs|
    requires match previous
      case None => forall j :: 0 <= j < i ==> !bs[j].reachable
      case Some(k) => k < i && bs[k].reachable && forall j :: k < j < i ==> !bs[j].reachable
    ensures match PreviousFrom(bs, Some(bs[y]), i, previous)
      case None => forall j :: 0 <= j < y ==> !bs[j].reachable
      case Some(k) => k < y && bs[k].reachable && forall j :: k < j < y ==> !bs[j].reachable
    decreases y - i
  {
    if i < y {
      PreviousIsLastBefore(bs, y, i + 1, if bs[i].reachable then Some(i) else previous);
    }
  }

  lemma NextIsAdjacent(bs: seq<Box>, x: nat, y: nat)
    requires Distinct(bs) && x < |bs| && y < |bs|
    ensures bs[x].reachable && NextReachable(bs, Some(bs[x])) == Some(y) <==> Adjacent(bs, x, y)
  {
    NextStartsAt(bs, x, 0);
    NextIsFirstAfter(bs, Some(bs[x]), x + 1);
  }

  lemma PreviousIsAdjacent(bs: seq<Box>, x: nat, y: nat)
    requires Distinct(bs) && x < |bs| && y < |bs|
    ensures bs[y].reachable && PreviousReachable(bs, Some(bs[y])) == Some(x) <==> Adjacent(bs, x, y)
  {
    PreviousIsLastBefore(bs, y, 0, None);
  }

  /** The two navigation loops are inverse of each other on the reachable boxes. */
  lemma NavigationInverse(bs: seq<Box>, x: nat, y: nat)
    requires Distinct(bs) && x < |bs| && y < |bs|
    ensures (bs[x].reachable && NextReachable(bs, Some(bs[x])) == Some(y))
       <==> (bs[y].reachable && PreviousReachable(bs, Some(bs[y])) == Some(x))
  {
    NextIsAdjacent(bs, x, y);
    PreviousIsAdjacent(bs, x, y);
  }

  /** They are not symmetric at the ends: of a box that is not in the list, nothing
      is next, but the last reachable box is previous. */
  lemma NavigationFromNowhere(bs: seq<Box>, of: Option<Box>)
    requires forall j :: 0 <= j < |bs| ==> !SameAs(bs[j], of)
    ensures NextReachable(bs, of) == None
    ensures PreviousReachable(bs, of) == None <==> forall j :: 0 <= j < |bs| ==> !bs[j].reachable
  {
    NothingFound(bs, of, 0);
    LastIsPrevious(bs, of, 0, None);
  }

  lemma {:induction false} NothingFound(bs: seq<Box>, of: Option<Box>, i: nat)
    requires i <= |bs|
    requires forall j :: 0 <= j < |bs| ==> !SameAs(bs[j], of)
    ensures NextFrom(bs, of, i, false) == None
    decreases |bs| - i
  {
    if i < |bs| {
      NothingFound(bs, of, i + 1);
    }
  }

  lemma {:induction false} LastIsPrevious(bs: seq<Box>, of: Option<Box>, i: nat, previous: Option<nat>)
    requires i <= |bs|
    requires forall j :: 0 <= j < |bs| ==> !SameAs(bs[j], of)
    ensures PreviousFrom(bs, of, i, previous) == None
      <==> previous == None && forall j :: i <= j < |bs| ==> !bs[j].reachable
    decreases |bs| - i
  {
    if i < |bs| {
      LastIsPrevious(bs, of, i + 1, if bs[i].reachable then Some(i) else previous);
    }
  }

  /** The indices of the reachable boxes from i on, in list order. */
  function Reachables(bs: seq<Box>, i: nat): seq<nat>
    requires i <= |bs|
    decreases |bs| - i
  {
    if i == |bs| then []
    else (if bs[i].reachable then [i] else []) + Reachables(bs, i + 1)
  }

  /** Pressing "next" until there is no next box. */
  function Tour(bs: seq<Box>, x: nat): seq<nat>
    requires Distinct(bs) && x < |bs|
    decreases |bs| - x
  {
    NextStartsAt(bs, x, 0);
    NextIsFirstAfter(bs, Some(bs[x]), x + 1);
    match NextReachable(bs, Some(bs[x]))
    case None => [x]
    case Some(y) => [x] + Tour(bs, y)
  }

  lemma {:induction false} SkipUnreachable(bs: seq<Box>, i: nat, j: nat)
    requires i <= j <= |bs|
    requires forall k :: i <= k < j ==> !bs[k].reachable
    ensures Reachables(bs, i) == Reachables(bs, j)
    decreases j - i
  {
    if i < j {
      SkipUnreachable(bs, i + 1, j);
    }
  }

  /** From a reachable box, "next" visits exactly the reachable boxes that follow,
      each once, in list order, and stops; from the first one it visits them all. */
  lemma {:induction false} TourVisitsAll(bs: seq<Box>, x: nat)
    requires Distinct(bs) && x < |bs| && bs[x].reachable
    ensures Tour(bs, x) == Reachables(bs, x)
    ensures (forall j :: 0 <= j < x ==> !bs[j].reachable) ==> Tour(bs, x) == Reachables(bs, 0)
    decreases |bs| - x
  {
    NextStartsAt(bs, x, 0);
    NextIsFirstAfter(bs, Some(bs[x]), x + 1);
    match NextReachable(bs, Some(bs[x])) {
      case None => SkipUnreachable(bs, x + 1, |bs|);
      case Some(y) =>
        SkipUnreachable(bs, x + 1, y);
        TourVisitsAll(bs, y);
    }
    if forall j :: 0 <= j < x ==> !bs[j].reachable {
      SkipUnreachable(bs, 0, x);
    }
  }
}
