/** What a key holds after puts and appends: the value of the last put, followed by every later append. */
module Register {
  datatype Change = Put(value: string) | Append(value: string)

  ghost function Joined(changes: seq<Change>): string
  {
    if changes == [] then "" else Joined(changes[..|changes| - 1]) + changes[|changes| - 1].value
  }

  /** Everything before position `p` is overwritten there, and nothing behind it is. */
  ghost predicate LastPut(changes: seq<Change>, p: nat)
  {
    && p <= |changes|
    && (p > 0 ==> p < |changes| && changes[p].Put?)
    && forall i :: p < i < |changes| ==> changes[i].Append?
  }

  ghost predicate Holds(changes: seq<Change>, value: string)
  {
    exists p: nat :: LastPut(changes, p) && value == Joined(changes[p..])
  }

  lemma JoinedNext(changes: seq<Change>, c: Change)
    ensures Joined(changes + [c]) == Joined(changes) + c.value
  {
    assert (changes + [c])[..|changes|] == changes;
  }

  lemma HoldsNothing()
    ensures Holds([], "")
  {
    assert LastPut([], 0);
  }

  /** A put starts over, an append goes on. */
  lemma HoldsNext(changes: seq<Change>, value: string, c: Change)
    requires Holds(changes, value)
    ensures Holds(changes + [c], if c.Put? then c.value else value + c.value)
  {
    var more := changes + [c];
    if c.Put? {
      assert LastPut(more, |changes|);
      JoinedNext([], c);
      assert more[|changes|..] == [] + [c];
    } else {
      var p: nat :| LastPut(changes, p) && value == Joined(changes[p..]);
      assert LastPut(more, p);
      JoinedNext(changes[p..], c);
      assert more[p..] == changes[p..] + [c];
    }
  }

  /** There is one such value. */
  lemma HoldsOne(changes: seq<Change>, a: string, b: string)
    requires Holds(changes, a) && Holds(changes, b)
    ensures a == b
  {
    var p: nat :| LastPut(changes, p) && a == Joined(changes[p..]);
    var q: nat :| LastPut(changes, q) && b == Joined(changes[q..]);
    assert p == q;
  }
}
