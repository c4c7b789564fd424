/** CheatCode.java: a recogniser that walks along a secret, tag by tag. */
module CheatCodes {

  /** The walk: where the position stands after one more tag, and whether the secret has
      just been completed. */
  function Step(secret: seq<string>, pos: nat, tag: string): (nat, bool)
    requires pos <= |secret|
  {
    var from := if pos == |secret| then 0 else pos;
    if from < |secret| && tag == secret[from] then (from + 1, from + 1 == |secret|)
    else (0, false)
  }

  /** Where the position stands after a stream of tags. */
  function Position(secret: seq<string>, tags: seq<string>): (p: nat)
    ensures p <= |secret|
  {
    if tags == [] then 0
    else Step(secret, Position(secret, tags[..|tags| - 1]), tags[|tags| - 1]).0
  }

  /** Does the last tag of the stream complete the secret? */
  predicate Fires(secret: seq<string>, tags: seq<string>) {
    tags != [] && Step(secret, Position(secret, tags[..|tags| - 1]), tags[|tags| - 1]).1
  }

  /** At position p, the last p tags are the first p of the secret. */
  lemma {:induction false} PositionIsSuffix(secret: seq<string>, tags: seq<string>)
    ensures var p := Position(secret, tags);
      p <= |tags| && tags[|tags| - p..] == secret[..p]
  {
    if tags != [] {
      var n := |tags| - 1;
      PositionIsSuffix(secret, tags[..n]);
    }
  }

  /** So it fires only right after a complete entry of the secret. */
  lemma FiresAfterEntry(secret: seq<string>, tags: seq<string>)
    requires Fires(secret, tags)
    ensures 0 < |secret| <= |tags| && tags[|tags| - |secret|..] == secret
    ensures Position(secret, tags) == |secret|
  {
    PositionIsSuffix(secret, tags);
  }

  /** Within k tags the walk advances by at most k. */
  lemma {:induction false} WalkIsSlow(secret: seq<string>, tags: seq<string>, i: nat)
    requires i <= |tags|
    ensures Position(secret, tags[..i]) in {0, |secret|} ==>
      Position(secret, tags) <= |tags| - i || (i == |tags| && Position(secret, tags) == |secret|)
    decreases |tags| - i
  {
    if i == |tags| {
      assert tags[..i] == tags;
    } else {
      var n := |tags| - 1;
      WalkIsSlow(secret, tags[..n], i);
      assert tags[..n][..i] == tags[..i];
    }
  }

  /** Two entries that fire do not overlap. */
  lemma FiredEntriesDisjoint(secret: seq<string>, tags: seq<string>, i: nat)
    requires i < |tags| && Fires(secret, tags[..i]) && Fires(secret, tags)
    ensures i + |secret| <= |tags|
  {
    WalkIsSlow(secret, tags, i);
  }

  /** From the start of the secret, entering its first k tags leads to position k. */
  lemma {:induction false} EntryAdvances(secret: seq<string>, tags: seq<string>, k: nat)
    requires 0 < k <= |secret| && Position(secret, tags) in {0, |secret|}
    ensures Position(secret, tags + secret[..k]) == k
    ensures Fires(secret, tags + secret[..k]) <==> k == |secret|
  {
    assert tags + secret[..k] == (tags + secret[..k - 1]) + [secret[k - 1]];
    if k == 1 {
      assert tags + secret[..0] == tags;
    } else {
      EntryAdvances(secret, tags, k - 1);
    }
  }

  /** An entry of the whole secret fires exactly when it does not begin in the middle
      of a walk: a mismatch resets the walk without looking at its tag again. */
  lemma EntryFiresExactly(secret: seq<string>, tags: seq<string>)
    requires secret != []
    ensures Fires(secret, tags + secret) <==> Position(secret, tags) in {0, |secret|}
  {
    var all := tags + secret;
    assert secret[..|secret|] == secret;
    if Position(secret, tags) in {0, |secret|} {
      EntryAdvances(secret, tags, |secret|);
    } else if Fires(secret, all) {
      WalkBack(secret, all, |secret|);
    }
  }

  /** A walk at position p began p tags ago. */
  lemma {:induction false} WalkBack(secret: seq<string>, tags: seq<string>, p: nat)
    requires 0 < p == Position(secret, tags)
    ensures p <= |tags| && Position(secret, tags[..|tags| - p]) in {0, |secret|}
    decreases p
  {
    var n := |tags| - 1;
    if p > 1 {
      WalkBack(secret, tags[..n], p - 1);
      assert tags[..n][..n - (p - 1)] == tags[..|tags| - p];
    }
  }

  /** One tag outside the secret is enough to make the next entry fire, and to make it
      fire on its last tag only. */
  lemma ForeignTagResets(secret: seq<string>, tags: seq<string>, foreign: string, k: nat)
    requires secret != [] && foreign !in secret && k <= |secret|
    ensures Fires(secret, tags + [foreign] + secret[..k]) <==> k == |secret|
  {
    var entered := tags + [foreign];
    assert entered[..|tags|] == tags;
    if k == 0 {
      assert entered + secret[..0] == entered;
    } else {
      EntryAdvances(secret, entered, k);
    }
  }

  /** The shipped secret: its entry fires from the start, and is missed when its first key
      is pressed once too often. */
  lemma EntryCanBeMissed(keySelector: string)
    ensures Fires(Secret(keySelector), ["0x221", "0x18f", "0x221", keySelector])
    ensures !Fires(Secret(keySelector), ["0x221", "0x221", "0x18f", "0x221", keySelector])
  {
    var secret := Secret(keySelector);
    EntryFiresExactly(secret, []);
    assert [] + secret == ["0x221", "0x18f", "0x221", keySelector];
    EntryFiresExactly(secret, ["0x221"]);
    assert Position(secret, ["0x221"]) == 1;
    assert ["0x221"] + secret == ["0x221", "0x221", "0x18f", "0x221", keySelector];
  }

  function Secret(keySelector: string): seq<string> {
    ["0x221", "0x18f", "0x221", keySelector]
  }

  class CheatCode {
    const secret: seq<string>
    var position: nat           // where mIterator stands in the secret
    ghost var tags: seq<string>  // every tag so far

    ghost predicate Valid()
      reads this
    {
      position == Position(secret, tags)
    }

    constructor (keySelector: string)
      ensures Valid() && secret == Secret(keySelector) && tags == []
    {
      secret := ["0x221", "0x18f", "0x221", keySelector];
      position := 0;
      tags := [];
    }

    method Discovered(tag: string) returns (found: bool)
      requires Valid()
      modifies this
      ensures Valid() && tags == old(tags) + [tag]
      ensures found <==> Fires(secret, tags)
    {
      tags := tags + [tag];
      if position == |secret| {
        position := 0;
      }
      if position < |secret| {
        var next := secret[position];
        position := position + 1;
        if tag == next {
          return position == |secret|;
        }
        position := 0;
      }
      return false;
    }
  }
}
