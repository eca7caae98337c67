/** The scene's list of live blocks and the two array operations the collision
    handler uses on it: `findIndex` by object identity and `splice(idx, 1)`. */
module Blocks {

  /** Identity of a game object: the source compares blocks with `===`. */
  type ObjectId = nat

  /** `blocks.findIndex(block => block === x)`: the first position holding `x`,
      or -1 when no position does. */
  function FindIndex(s: seq<ObjectId>, x: ObjectId): (i: int)
    ensures -1 <= i < |s|
    ensures i == -1 <==> x !in s
    ensures 0 <= i ==> s[i] == x
    ensures 0 <= i ==> x !in s[..i]
  {
    if |s| == 0 then -1
    else if s[0] == x then 0
    else
      var j := FindIndex(s[1..], x);
      if j < 0 then -1 else j + 1
  }

  /** The list after `if (idx >= 0) blocks.splice(idx, 1)` with `idx` the
      result of `FindIndex`: the first occurrence of `x` is dropped and every
      other block keeps its place in the order. */
  function RemoveFirst(s: seq<ObjectId>, x: ObjectId): (r: seq<ObjectId>)
    ensures x !in s ==> r == s
    ensures |r| == if x in s then |s| - 1 else |s|
  {
    var i := FindIndex(s, x);
    if i < 0 then s else s[..i] + s[i + 1..]
  }

  /** As a bag of blocks, the result is the list with one `x` fewer. */
  lemma RemoveFirstMultiset(s: seq<ObjectId>, x: ObjectId)
    ensures multiset(RemoveFirst(s, x)) == multiset(s) - multiset{x}
  {
    var i := FindIndex(s, x);
    if i >= 0 {
      assert x !in s[..i];
      assert s == s[..i] + [s[i]] + s[i + 1..];
    }
  }

  /** What `RemoveFirst` drops is the first occurrence of `x`: there is a
      position holding `x` with no `x` before it, and the result is everything
      before that position followed by everything after it. */
  lemma RemoveFirstDropsFirstOccurrence(s: seq<ObjectId>, x: ObjectId)
    requires x in s
    ensures exists i :: 0 <= i < |s| && s[i] == x && x !in s[..i] && RemoveFirst(s, x) == s[..i] + s[i + 1..]
  {
    var i := FindIndex(s, x);
    assert x !in s[..i];
    assert RemoveFirst(s, x) == s[..i] + s[i + 1..];
  }

  /** Removing one block leaves every other block in the list. */
  lemma RemoveFirstKeepsOthers(s: seq<ObjectId>, x: ObjectId, y: ObjectId)
    requires y != x
    ensures y in RemoveFirst(s, x) <==> y in s
  {
    RemoveFirstMultiset(s, x);
    var before: multiset<ObjectId> := multiset(s);
    var after: multiset<ObjectId> := multiset(RemoveFirst(s, x));
    assert after[y] == before[y];
  }
}
