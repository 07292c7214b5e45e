/**
 The MapReduce pipeline: bucketing in a map task, collecting, sorting and grouping in a reduce task,
 and the sequential program that does all of it in one place.
 */
module MapReduce {
  import opened Sequences
  import opened Sorting
  import StringOrder

  datatype KeyValue = KeyValue(key: string, value: string)

  /** One line of output: a key and what the reducer made of its values. */
  datatype Line = Line(key: string, output: string)

  type Reducer = (string, seq<string>) -> string

  // ----- pieces

  ghost function Flatten<T>(parts: seq<seq<T>>): seq<T>
  {
    if parts == [] then [] else Flatten(parts[..|parts| - 1]) + parts[|parts| - 1]
  }

  /** The values of one key, in order. */
  ghost function Values(kvs: seq<KeyValue>, key: string): seq<string>
  {
    if kvs == [] then []
    else
      var last := kvs[|kvs| - 1];
      Values(kvs[..|kvs| - 1], key) + if last.key == key then [last.value] else []
  }

  lemma {:induction false} ValuesConcat(a: seq<KeyValue>, b: seq<KeyValue>, key: string)
    ensures Values(a + b, key) == Values(a, key) + Values(b, key)
  {
    if b == [] {
      assert a + b == a;
    } else {
      var n, ab := |b| - 1, a + b;
      var last := if b[n].key == key then [b[n].value] else [];
      ValuesConcat(a, b[..n], key);
      assert ab[|ab| - 1] == b[n] && ab[..|ab| - 1] == a + b[..n];
      assert Values(ab, key) == Values(a + b[..n], key) + last;
      assert Values(b, key) == Values(b[..n], key) + last;
    }
  }

  lemma {:induction false} ValuesNone(kvs: seq<KeyValue>, key: string)
    ensures Values(kvs, key) != [] <==> exists i :: 0 <= i < |kvs| && kvs[i].key == key
  {
    if kvs != [] {
      ValuesNone(kvs[..|kvs| - 1], key);
    }
  }

  ghost function Own(kv: KeyValue, key: string): multiset<string>
  {
    if kv.key == key then multiset{kv.value} else multiset{}
  }

  lemma ValuesOne(kv: KeyValue, key: string)
    ensures Values([kv], key) == (if kv.key == key then [kv.value] else [])
    ensures multiset(Values([kv], key)) == Own(kv, key)
  {
    assert [kv][..0] == [];
  }

  lemma ValuesRemove(kvs: seq<KeyValue>, i: nat, key: string)
    requires i < |kvs|
    ensures multiset(Values(kvs, key)) == multiset(Values(kvs[..i] + kvs[i + 1..], key)) + Own(kvs[i], key)
  {
    hide *;
    var a, x, b := kvs[..i], [kvs[i]], kvs[i + 1..];
    ValuesConcat(a, b, key);
    ValuesConcat(a + x, b, key);
    ValuesConcat(a, x, key);
    ValuesOne(kvs[i], key);
    MultisetMiddle(Values(a, key), Values(x, key), Values(b, key));
    assert kvs == a + x + b;
  }

  /** Rearranging the pairs rearranges the values of each key. */
  lemma {:induction false} ValuesPermutation(a: seq<KeyValue>, b: seq<KeyValue>, key: string)
    requires multiset(a) == multiset(b)
    ensures multiset(Values(a, key)) == multiset(Values(b, key))
    decreases |a|
  {
    if a == [] {
      assert |multiset(b)| == 0;
    } else {
      hide Values;
      var n := |a| - 1;
      assert a[n] in multiset(b);
      var i: nat :| i < |b| && b[i] == a[n];
      RemoveOne(a, n);
      RemoveOne(b, i);
      CancelOne(multiset(a[..n] + a[n + 1..]), multiset(b[..i] + b[i + 1..]), a[n]);
      ValuesPermutation(a[..n] + a[n + 1..], b[..i] + b[i + 1..], key);
      ValuesRemove(a, n, key);
      ValuesRemove(b, i, key);
    }
  }

  // ----- what a reduce task writes

  /** One line per key, in ascending order of keys, each with the values of its key in some order. */
  ghost predicate IsOutput(kvs: seq<KeyValue>, reducef: Reducer, lines: seq<Line>)
  {
    Ascending(lines) && LinesOk(kvs, reducef, lines) && Covered(kvs, lines)
  }

  ghost predicate Ascending(lines: seq<Line>)
  {
    forall i, j :: 0 <= i < j < |lines| ==> StringOrder.Less(lines[i].key, lines[j].key)
  }

  ghost predicate LinesOk(kvs: seq<KeyValue>, reducef: Reducer, lines: seq<Line>)
  {
    forall i :: 0 <= i < |lines| ==> LineOk(kvs, reducef, lines[i])
  }

  ghost predicate HasLine(lines: seq<Line>, key: string)
  {
    exists j :: 0 <= j < |lines| && lines[j].key == key
  }

  ghost predicate Covered(kvs: seq<KeyValue>, lines: seq<Line>)
  {
    forall i :: 0 <= i < |kvs| ==> HasLine(lines, kvs[i].key)
  }

  ghost predicate LineOk(kvs: seq<KeyValue>, reducef: Reducer, line: Line)
  {
    && Values(kvs, line.key) != []
    && exists vs :: multiset(vs) == multiset(Values(kvs, line.key)) && line.output == reducef(line.key, vs)
  }

  /** The reducer does not look at the order of the values. */
  ghost predicate IgnoresOrder(reducef: Reducer)
  {
    forall key, vs, ws :: multiset(vs) == multiset(ws) ==> reducef(key, vs) == reducef(key, ws)
  }

  ghost predicate SortedByKey(kvs: seq<KeyValue>)
  {
    forall i, j :: 0 <= i < j < |kvs| ==> !StringOrder.Less(kvs[j].key, kvs[i].key)
  }

  // ----- grouping a sorted sequence

  ghost predicate SameKey(kvs: seq<KeyValue>, key: string)
  {
    forall i :: 0 <= i < |kvs| ==> kvs[i].key == key
  }

  lemma {:induction false} ValuesOfGroup(kvs: seq<KeyValue>, key: string, other: string)
    requires SameKey(kvs, key)
    ensures |Values(kvs, key)| == |kvs| && (other != key ==> Values(kvs, other) == [])
  {
    if kvs != [] {
      ValuesOfGroup(kvs[..|kvs| - 1], key, other);
    }
  }

  /** Every key before a group boundary is less than the key of the group. */
  lemma BelowGroup(kvs: seq<KeyValue>, i: nat, m: nat)
    requires SortedByKey(kvs) && m < i < |kvs| && kvs[i - 1].key != kvs[i].key
    ensures StringOrder.Less(kvs[m].key, kvs[i].key)
  {
    StringOrder.LessTotal(kvs[i - 1].key, kvs[i].key);
    assert !StringOrder.Less(kvs[i].key, kvs[i - 1].key);
    if !StringOrder.Less(kvs[m].key, kvs[i].key) {
      assert m < i - 1 ==> !StringOrder.Less(kvs[i - 1].key, kvs[m].key);
      StringOrder.NotLessTransitive(kvs[i].key, kvs[m].key, kvs[i - 1].key);
      assert false;
    }
  }

  lemma GroupedLine(kvs: seq<KeyValue>, reducef: Reducer, i: nat, j: nat, line: Line)
    requires i < j <= |kvs| && SameKey(kvs[i..j], kvs[i].key) && line.key != kvs[i].key
    requires LineOk(kvs[..i], reducef, line)
    ensures LineOk(kvs[..j], reducef, line)
  {
    assert kvs[..j] == kvs[..i] + kvs[i..j];
    ValuesConcat(kvs[..i], kvs[i..j], line.key);
    ValuesOfGroup(kvs[i..j], kvs[i].key, line.key);
  }

  lemma KeyNotBefore(kvs: seq<KeyValue>, i: nat)
    requires SortedByKey(kvs) && i < |kvs| && (i > 0 ==> kvs[i - 1].key != kvs[i].key)
    ensures Values(kvs[..i], kvs[i].key) == []
  {
    forall m: nat | m < i ensures kvs[..i][m].key != kvs[i].key {
      BelowGroup(kvs, i, m);
      StringOrder.LessAsymmetric(kvs[m].key, kvs[i].key);
    }
    ValuesNone(kvs[..i], kvs[i].key);
  }

  lemma LineKey(kvs: seq<KeyValue>, reducef: Reducer, line: Line) returns (m: nat)
    requires LineOk(kvs, reducef, line)
    ensures m < |kvs| && kvs[m].key == line.key
  {
    ValuesNone(kvs, line.key);
    m :| m < |kvs| && kvs[m].key == line.key;
  }

  lemma NewLine(kvs: seq<KeyValue>, reducef: Reducer, i: nat, j: nat)
    requires SortedByKey(kvs) && i < j <= |kvs| && SameKey(kvs[i..j], kvs[i].key)
    requires i > 0 ==> kvs[i - 1].key != kvs[i].key
    ensures var key := kvs[i].key; LineOk(kvs[..j], reducef, Line(key, reducef(key, Values(kvs[i..j], key))))
  {
    var key := kvs[i].key;
    KeyNotBefore(kvs, i);
    assert kvs[..j] == kvs[..i] + kvs[i..j];
    ValuesConcat(kvs[..i], kvs[i..j], key);
    ValuesOfGroup(kvs[i..j], key, key);
    assert Values(kvs[..j], key) == Values(kvs[i..j], key);
  }

  lemma OldLine(kvs: seq<KeyValue>, reducef: Reducer, i: nat, j: nat, line: Line)
    requires SortedByKey(kvs) && i < j <= |kvs| && SameKey(kvs[i..j], kvs[i].key)
    requires i > 0 ==> kvs[i - 1].key != kvs[i].key
    requires LineOk(kvs[..i], reducef, line)
    ensures StringOrder.Less(line.key, kvs[i].key) && LineOk(kvs[..j], reducef, line)
  {
    hide *;
    var m := LineKey(kvs[..i], reducef, line);
    BelowGroup(kvs, i, m);
    StringOrder.LessAsymmetric(kvs[m].key, kvs[i].key);
    GroupedLine(kvs, reducef, i, j, line);
  }

  /** Adding the line of the next group. */
  lemma GroupNext(kvs: seq<KeyValue>, reducef: Reducer, lines: seq<Line>, i: nat, j: nat)
    requires SortedByKey(kvs) && i < j <= |kvs| && IsOutput(kvs[..i], reducef, lines)
    requires SameKey(kvs[i..j], kvs[i].key) && (i > 0 ==> kvs[i - 1].key != kvs[i].key)
    ensures var key := kvs[i].key;
      IsOutput(kvs[..j], reducef, lines + [Line(key, reducef(key, Values(kvs[i..j], key)))])
  {
    hide *;
    var line := Line(kvs[i].key, reducef(kvs[i].key, Values(kvs[i..j], kvs[i].key)));
    OutputParts(kvs[..i], reducef, lines);
    NewLine(kvs, reducef, i, j);
    forall a | 0 <= a < |lines|
      ensures StringOrder.Less(lines[a].key, line.key) && LineOk(kvs[..j], reducef, lines[a])
    {
      OldLine(kvs, reducef, i, j, lines[a]);
    }
    CoverNext(kvs, lines, i, j, line);
    AppendLine(kvs[..j], reducef, lines, line);
  }

  lemma OutputParts(kvs: seq<KeyValue>, reducef: Reducer, lines: seq<Line>)
    requires IsOutput(kvs, reducef, lines)
    ensures Ascending(lines) && Covered(kvs, lines) && forall a :: 0 <= a < |lines| ==> LineOk(kvs, reducef, lines[a])
  {}

  lemma AppendLine(kvs: seq<KeyValue>, reducef: Reducer, lines: seq<Line>, line: Line)
    requires Ascending(lines) && Covered(kvs, lines + [line]) && LineOk(kvs, reducef, line)
    requires forall a :: 0 <= a < |lines| ==> StringOrder.Less(lines[a].key, line.key) && LineOk(kvs, reducef, lines[a])
    ensures IsOutput(kvs, reducef, lines + [line])
  {
    hide StringOrder.Less, LineOk, Covered;
  }

  lemma CoverNext(kvs: seq<KeyValue>, lines: seq<Line>, i: nat, j: nat, line: Line)
    requires i < j <= |kvs| && Covered(kvs[..i], lines) && SameKey(kvs[i..j], kvs[i].key) && line.key == kvs[i].key
    ensures Covered(kvs[..j], lines + [line])
  {
    var all := lines + [line];
    forall m | 0 <= m < j ensures HasLine(all, kvs[..j][m].key) {
      if m < i {
        assert kvs[..i][m] == kvs[m];
        var a :| 0 <= a < |lines| && lines[a].key == kvs[m].key;
        assert all[a].key == kvs[m].key;
      } else {
        assert kvs[i..j][m - i].key == line.key && all[|lines|].key == line.key;
      }
    }
  }

  lemma OutputPermutation(a: seq<KeyValue>, b: seq<KeyValue>, reducef: Reducer, lines: seq<Line>)
    requires IsOutput(a, reducef, lines) && multiset(a) == multiset(b)
    ensures IsOutput(b, reducef, lines)
  {
    forall i | 0 <= i < |lines| ensures LineOk(b, reducef, lines[i]) {
      assert LineOk(a, reducef, lines[i]);
      ValuesPermutation(a, b, lines[i].key);
      assert |multiset(Values(b, lines[i].key))| == |Values(b, lines[i].key)|;
    }
    forall i | 0 <= i < |b| ensures HasLine(lines, b[i].key) {
      assert b[i] in multiset(a);
      var m :| 0 <= m < |a| && a[m] == b[i];
    }
  }

  // ----- the code

  function KeyLess(): (KeyValue, KeyValue) -> bool
  {
    (a: KeyValue, b: KeyValue) => StringOrder.Less(a.key, b.key)
  }

  lemma KeyLessIsOrder()
    ensures StrictWeakOrder(KeyLess())
  {
    StringOrder.LessIsOrder();
    var less := KeyLess();
    forall a, b | less(a, b) ensures !less(b, a) {
      StringOrder.LessAsymmetric(a.key, b.key);
    }
    forall a, b, c | !less(b, a) && !less(c, b) ensures !less(c, a) {
      StringOrder.NotLessTransitive(a.key, b.key, c.key);
    }
  }

  /** The loops over `i`, `j` and `k`: one line for each run of equal keys. */
  method GroupSorted(kvs: seq<KeyValue>, reducef: Reducer) returns (lines: seq<Line>)
    requires SortedByKey(kvs)
    ensures IsOutput(kvs, reducef, lines)
  {
    hide *;
    lines := [];
    var i := 0;
    NoOutput(kvs, reducef);
    while i < |kvs|
      invariant 0 <= i <= |kvs| && IsOutput(kvs[..i], reducef, lines)
      invariant 0 < i < |kvs| ==> kvs[i - 1].key != kvs[i].key
    {
      var j := i + 1;
      while j < |kvs| && kvs[j].key == kvs[i].key
        invariant i < j <= |kvs|
        invariant forall m :: i <= m < j ==> kvs[m].key == kvs[i].key
      {
        j := j + 1;
      }
      var vs := [];
      NoValues(kvs, i);
      for k := i to j
        invariant vs == Values(kvs[i..k], kvs[i].key)
      {
        NextValue(kvs, i, k);
        vs := vs + [kvs[k].value];
      }
      RunSameKey(kvs, i, j);
      GroupNext(kvs, reducef, lines, i, j);
      lines := lines + [Line(kvs[i].key, reducef(kvs[i].key, vs))];
      i := j;
    }
    assert kvs[..|kvs|] == kvs;
  }

  lemma NoOutput(kvs: seq<KeyValue>, reducef: Reducer)
    ensures IsOutput(kvs[..0], reducef, [])
  {}

  lemma NoValues(kvs: seq<KeyValue>, i: nat)
    requires i < |kvs|
    ensures Values(kvs[i..i], kvs[i].key) == []
  {}

  lemma NextValue(kvs: seq<KeyValue>, i: nat, k: nat)
    requires i <= k < |kvs| && kvs[k].key == kvs[i].key
    ensures Values(kvs[i..k + 1], kvs[i].key) == Values(kvs[i..k], kvs[i].key) + [kvs[k].value]
  {
    assert kvs[i..k + 1][..k - i] == kvs[i..k];
  }

  lemma RunSameKey(kvs: seq<KeyValue>, i: nat, j: nat)
    requires i < j <= |kvs| && forall m :: i <= m < j ==> kvs[m].key == kvs[i].key
    ensures SameKey(kvs[i..j], kvs[i].key)
  {}

  /** Sorting and grouping, as both programs do it. */
  method SortAndGroup(kvs: seq<KeyValue>, reducef: Reducer) returns (lines: seq<Line>)
    ensures IsOutput(kvs, reducef, lines)
  {
    KeyLessIsOrder();
    var sorted := Sort(kvs, KeyLess());
    assert SortedByKey(sorted) by {
      forall i, j | 0 <= i < j < |sorted| ensures !StringOrder.Less(sorted[j].key, sorted[i].key) {
        assert !KeyLess()(sorted[j], sorted[i]);
      }
    }
    lines := GroupSorted(sorted, reducef);
    OutputPermutation(sorted, kvs, reducef, lines);
  }

  /** `performMapTask`: each pair goes to the file its key hashes to. */
  method PerformMap(kvs: seq<KeyValue>, nReduce: nat, ihash: string -> nat) returns (files: seq<seq<KeyValue>>)
    requires nReduce > 0
    ensures |files| == nReduce && forall r :: 0 <= r < nReduce ==> files[r] == Bucket(kvs, nReduce, ihash, r)
  {
    files := seq(nReduce, _ => []);
    for i := 0 to |kvs|
      invariant |files| == nReduce && forall r :: 0 <= r < nReduce ==> files[r] == Bucket(kvs[..i], nReduce, ihash, r)
    {
      var r := ihash(kvs[i].key) % nReduce;
      assert kvs[..i + 1][..i] == kvs[..i];
      files := files[r := files[r] + [kvs[i]]];
    }
    assert kvs[..|kvs|] == kvs;
  }

  /** `performReduce` on the files of all map tasks. */
  method PerformReduce(files: seq<seq<KeyValue>>, reducef: Reducer) returns (lines: seq<Line>)
    ensures IsOutput(Flatten(files), reducef, lines)
  {
    var kvs := [];
    for i := 0 to |files|
      invariant kvs == Flatten(files[..i])
    {
      assert files[..i + 1][..i] == files[..i];
      kvs := kvs + files[i];
    }
    assert files[..|files|] == files;
    lines := SortAndGroup(kvs, reducef);
  }

  /** The sequential program, on what the map function gives for each input. */
  method Sequential(mapped: seq<seq<KeyValue>>, reducef: Reducer) returns (lines: seq<Line>)
    ensures IsOutput(Flatten(mapped), reducef, lines)
  {
    var intermediate := [];
    for i := 0 to |mapped|
      invariant intermediate == Flatten(mapped[..i])
    {
      assert mapped[..i + 1][..i] == mapped[..i];
      intermediate := intermediate + mapped[i];
    }
    assert mapped[..|mapped|] == mapped;
    lines := SortAndGroup(intermediate, reducef);
  }

  // ----- buckets

  /** The pairs of `kvs` for reduce task `r`, in order. */
  ghost function Bucket(kvs: seq<KeyValue>, nReduce: nat, ihash: string -> nat, r: nat): seq<KeyValue>
    requires nReduce > 0
  {
    if kvs == [] then []
    else
      var last := kvs[|kvs| - 1];
      Bucket(kvs[..|kvs| - 1], nReduce, ihash, r) + if ihash(last.key) % nReduce == r then [last] else []
  }

  /** What reduce task `r` reads, in the order of the map tasks. */
  ghost function Buckets(mapped: seq<seq<KeyValue>>, nReduce: nat, ihash: string -> nat, r: nat)
    : (b: seq<seq<KeyValue>>)
    requires nReduce > 0
    ensures |b| == |mapped| && forall m :: 0 <= m < |mapped| ==> b[m] == Bucket(mapped[m], nReduce, ihash, r)
  {
    if mapped == [] then []
    else
      var n := |mapped| - 1;
      Buckets(mapped[..n], nReduce, ihash, r) + [Bucket(mapped[n], nReduce, ihash, r)]
  }

  lemma BucketSnoc(kvs: seq<KeyValue>, nReduce: nat, ihash: string -> nat, r: nat, key: string)
    requires nReduce > 0 && kvs != []
    ensures var n := |kvs| - 1; var last := kvs[n];
      && Values(kvs, key) == Values(kvs[..n], key) + Values([last], key)
      && (last.key != key ==> Values([last], key) == [])
      && Bucket(kvs, nReduce, ihash, r) ==
           Bucket(kvs[..n], nReduce, ihash, r) + if ihash(last.key) % nReduce == r then [last] else []
  {
    ValuesOne(kvs[|kvs| - 1], key);
  }

  /** A key's own bucket has all its values, in order; the others have none. */
  lemma {:induction false} BucketValues(kvs: seq<KeyValue>, nReduce: nat, ihash: string -> nat, r: nat, key: string)
    requires nReduce > 0
    ensures Values(Bucket(kvs, nReduce, ihash, r), key) == if ihash(key) % nReduce == r then Values(kvs, key) else []
  {
    if kvs != [] {
      hide *;
      var n := |kvs| - 1;
      BucketValues(kvs[..n], nReduce, ihash, r, key);
      BucketSnoc(kvs, nReduce, ihash, r, key);
      var b := Bucket(kvs[..n], nReduce, ihash, r);
      ValuesConcat(b, [kvs[n]], key);
      assert b + [] == b;
      assert Values(kvs[..n], key) + [] == Values(kvs[..n], key);
    }
  }

  lemma {:induction false} BucketsValues(mapped: seq<seq<KeyValue>>, nReduce: nat, ihash: string -> nat, r: nat,
      key: string)
    requires nReduce > 0
    ensures Values(Flatten(Buckets(mapped, nReduce, ihash, r)), key) ==
      if ihash(key) % nReduce == r then Values(Flatten(mapped), key) else []
  {
    if mapped != [] {
      var n := |mapped| - 1;
      hide Values, Bucket;
      BucketsValues(mapped[..n], nReduce, ihash, r, key);
      BucketValues(mapped[n], nReduce, ihash, r, key);
      var rest := Buckets(mapped[..n], nReduce, ihash, r);
      assert Buckets(mapped, nReduce, ihash, r)[..n] == rest;
      ValuesConcat(Flatten(rest), Bucket(mapped[n], nReduce, ihash, r), key);
      ValuesConcat(Flatten(mapped[..n]), mapped[n], key);
    } else {
      assert Flatten(mapped) == [];
    }
  }
}
