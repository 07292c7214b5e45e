/** The reduce tasks together write what the sequential program writes. */
module MapReduceAgree {
  import opened Sequences
  import opened Sorting
  import opened MapReduce
  import StringOrder

  // ----- one output

  /** Which lines an output has, if the reducer ignores the order of values. */
  lemma LineIff(kvs: seq<KeyValue>, reducef: Reducer, lines: seq<Line>, line: Line)
    requires IgnoresOrder(reducef) && IsOutput(kvs, reducef, lines)
    ensures line in lines <==>
      Values(kvs, line.key) != [] && line.output == reducef(line.key, Values(kvs, line.key))
  {
    if line in lines {
      assert LineOk(kvs, reducef, line);
    } else if Values(kvs, line.key) != [] {
      ValuesNone(kvs, line.key);
      var i :| 0 <= i < |kvs| && kvs[i].key == line.key;
      assert HasLine(lines, kvs[i].key);
      var j :| 0 <= j < |lines| && lines[j].key == line.key;
      assert LineOk(kvs, reducef, lines[j]);
      assert lines[j] in lines;
    }
  }

  lemma HasLineIff(kvs: seq<KeyValue>, reducef: Reducer, lines: seq<Line>, key: string)
    requires IsOutput(kvs, reducef, lines)
    ensures HasLine(lines, key) <==> Values(kvs, key) != []
  {
    ValuesNone(kvs, key);
    if HasLine(lines, key) {
      var j :| 0 <= j < |lines| && lines[j].key == key;
      assert LineOk(kvs, reducef, lines[j]);
    }
    if Values(kvs, key) != [] {
      var i :| 0 <= i < |kvs| && kvs[i].key == key;
      assert HasLine(lines, kvs[i].key);
    }
  }

  lemma AscendingDistinct(lines: seq<Line>)
    requires Ascending(lines)
    ensures Distinct(lines)
  {
    forall i, j | 0 <= i < j < |lines| ensures lines[i] != lines[j] {
      StringOrder.LessAsymmetric(lines[i].key, lines[j].key);
    }
  }

  function LineLess(): (Line, Line) -> bool
  {
    (a: Line, b: Line) => StringOrder.Less(a.key, b.key)
  }

  lemma LineLessIsOrder()
    ensures StrictWeakOrder(LineLess())
  {
    var less := LineLess();
    forall a, b | less(a, b) ensures !less(b, a) {
      StringOrder.LessAsymmetric(a.key, b.key);
    }
    forall a, b, c | !less(b, a) && !less(c, b) ensures !less(c, a) {
      StringOrder.NotLessTransitive(a.key, b.key, c.key);
    }
  }

  /** However the pairs were sorted, the output file is the same. */
  lemma OutputUnique(kvs: seq<KeyValue>, reducef: Reducer, a: seq<Line>, b: seq<Line>)
    requires IgnoresOrder(reducef) && IsOutput(kvs, reducef, a) && IsOutput(kvs, reducef, b)
    ensures a == b
  {
    forall x ensures x in a <==> x in b {
      LineIff(kvs, reducef, a, x);
      LineIff(kvs, reducef, b, x);
    }
    LineLessIsOrder();
    assert Ascending(a) && Ascending(b);
    hide IsOutput, StringOrder.Less, IgnoresOrder;
    assert StrictlySorted(a, LineLess());
    assert StrictlySorted(b, LineLess());
    StrictlySortedUnique(a, b, LineLess());
  }

  // ----- reducers that look at the order

  ghost function Keyed(key: string, vs: seq<string>): seq<KeyValue>
  {
    if vs == [] then [] else Keyed(key, vs[..|vs| - 1]) + [KeyValue(key, vs[|vs| - 1])]
  }

  lemma {:induction false} KeyedValues(key: string, vs: seq<string>)
    ensures Values(Keyed(key, vs), key) == vs
    ensures forall i :: 0 <= i < |Keyed(key, vs)| ==> Keyed(key, vs)[i].key == key
  {
    if vs != [] {
      var n := |vs| - 1;
      var rest, last := Keyed(key, vs[..n]), KeyValue(key, vs[n]);
      KeyedValues(key, vs[..n]);
      assert (rest + [last])[..|rest|] == rest;
      assert vs == vs[..n] + [vs[n]];
    }
  }

  /** A single key may be reduced with its values in any order. */
  lemma AnyOrder(key: string, vs: seq<string>, ws: seq<string>, reducef: Reducer)
    requires vs != [] && multiset(vs) == multiset(ws)
    ensures IsOutput(Keyed(key, vs), reducef, [Line(key, reducef(key, ws))])
  {
    var kvs, lines := Keyed(key, vs), [Line(key, reducef(key, ws))];
    KeyedValues(key, vs);
    forall i | 0 <= i < |kvs| ensures HasLine(lines, kvs[i].key) {
      assert lines[0].key == kvs[i].key;
    }
  }

  lemma SameLength<T>(a: seq<T>, b: seq<T>)
    requires multiset(a) == multiset(b)
    ensures |a| == |b|
  {
    assert |a| == |multiset(a)| == |multiset(b)| == |b|;
  }

  /** A reducer that tells two orders of the same values apart has an input with two outputs. */
  lemma TwoOutputs(reducef: Reducer, key: string, vs: seq<string>, ws: seq<string>)
    requires multiset(vs) == multiset(ws) && reducef(key, vs) != reducef(key, ws)
    ensures var a, b := [Line(key, reducef(key, vs))], [Line(key, reducef(key, ws))];
      IsOutput(Keyed(key, vs), reducef, a) && IsOutput(Keyed(key, vs), reducef, b) && a[0] != b[0]
  {
    hide *;
    SameLength(vs, ws);
    AnyOrder(key, vs, vs, reducef);
    AnyOrder(key, vs, ws, reducef);
  }

  /** Every input has one output, if and only if the reducer ignores the order of values. */
  lemma OutputUniqueIff(reducef: Reducer)
    ensures (forall kvs, a, b :: IsOutput(kvs, reducef, a) && IsOutput(kvs, reducef, b) ==> a == b) <==>
      IgnoresOrder(reducef)
  {
    hide IsOutput, Keyed;
    if IgnoresOrder(reducef) {
      forall kvs, a, b | IsOutput(kvs, reducef, a) && IsOutput(kvs, reducef, b) ensures a == b {
        OutputUnique(kvs, reducef, a, b);
      }
    } else {
      var key, vs, ws :| multiset(vs) == multiset(ws) && reducef(key, vs) != reducef(key, ws);
      TwoOutputs(reducef, key, vs, ws);
    }
  }

  // ----- all outputs

  lemma {:induction false} InFlatten<T>(parts: seq<seq<T>>, x: T)
    ensures x in Flatten(parts) <==> exists r :: 0 <= r < |parts| && x in parts[r]
  {
    if parts != [] {
      InFlatten(parts[..|parts| - 1], x);
    }
  }

  ghost predicate Apart<T>(parts: seq<seq<T>>)
  {
    && (forall r :: 0 <= r < |parts| ==> Distinct(parts[r]))
    && forall q, r, x :: 0 <= q < r < |parts| && x in parts[r] ==> x !in parts[q]
  }

  lemma DistinctConcat<T>(a: seq<T>, b: seq<T>)
    requires Distinct(a) && Distinct(b) && forall x :: x in b ==> x !in a
    ensures Distinct(a + b)
  {
    var s := a + b;
    forall i, j | 0 <= i < j < |s| ensures s[i] != s[j] {
      if i < |a| && j >= |a| {
        assert b[j - |a|] in b;
        assert a[i] in a;
      }
    }
  }

  lemma {:induction false} FlattenDistinct<T>(parts: seq<seq<T>>)
    requires Apart(parts)
    ensures Distinct(Flatten(parts))
  {
    if parts != [] {
      var n := |parts| - 1;
      FlattenDistinct(parts[..n]);
      forall x | x in parts[n] ensures x !in Flatten(parts[..n]) {
        InFlatten(parts[..n], x);
      }
      DistinctConcat(Flatten(parts[..n]), parts[n]);
    }
  }

  /** Each reduce task `r` has written a correct output for its buckets. */
  ghost predicate AllOutputs(mapped: seq<seq<KeyValue>>, ihash: string -> nat, reducef: Reducer, outs: seq<seq<Line>>)
  {
    |outs| > 0 && forall r :: 0 <= r < |outs| ==> IsOutput(Flatten(Buckets(mapped, |outs|, ihash, r)), reducef, outs[r])
  }

  /** A key is written by the reduce task it hashes to, and by no other. */
  lemma OneTaskPerKey(mapped: seq<seq<KeyValue>>, ihash: string -> nat, reducef: Reducer, outs: seq<seq<Line>>,
      s: seq<Line>, r: nat, key: string)
    requires AllOutputs(mapped, ihash, reducef, outs) && IsOutput(Flatten(mapped), reducef, s) && r < |outs|
    ensures HasLine(outs[r], key) <==> HasLine(s, key) && ihash(key) % |outs| == r
  {
    HasLineIff(Flatten(Buckets(mapped, |outs|, ihash, r)), reducef, outs[r], key);
    HasLineIff(Flatten(mapped), reducef, s, key);
    BucketsValues(mapped, |outs|, ihash, r, key);
  }

  lemma LineInTask(mapped: seq<seq<KeyValue>>, ihash: string -> nat, reducef: Reducer, outs: seq<seq<Line>>,
      s: seq<Line>, r: nat, line: Line)
    requires AllOutputs(mapped, ihash, reducef, outs) && IsOutput(Flatten(mapped), reducef, s)
    requires IgnoresOrder(reducef) && r < |outs|
    ensures line in outs[r] <==> line in s && ihash(line.key) % |outs| == r
  {
    LineIff(Flatten(Buckets(mapped, |outs|, ihash, r)), reducef, outs[r], line);
    LineIff(Flatten(mapped), reducef, s, line);
    BucketsValues(mapped, |outs|, ihash, r, line.key);
  }

  /** As a multiset, the lines of all tasks are the lines of the sequential program. */
  lemma DistributedIsSequential(mapped: seq<seq<KeyValue>>, ihash: string -> nat, reducef: Reducer,
      outs: seq<seq<Line>>, s: seq<Line>)
    requires AllOutputs(mapped, ihash, reducef, outs) && IsOutput(Flatten(mapped), reducef, s) && IgnoresOrder(reducef)
    ensures multiset(Flatten(outs)) == multiset(s)
  {
    forall r | 0 <= r < |outs| ensures Distinct(outs[r]) {
      AscendingDistinct(outs[r]);
    }
    AscendingDistinct(s);
    forall q, r, x | 0 <= q < r < |outs| && x in outs[r] ensures x !in outs[q] {
      LineInTask(mapped, ihash, reducef, outs, s, q, x);
      LineInTask(mapped, ihash, reducef, outs, s, r, x);
    }
    FlattenDistinct(outs);
    forall x ensures x in Flatten(outs) <==> x in s {
      InFlatten(outs, x);
      if x in s {
        LineInTask(mapped, ihash, reducef, outs, s, ihash(x.key) % |outs|, x);
      }
      if r :| 0 <= r < |outs| && x in outs[r] {
        LineInTask(mapped, ihash, reducef, outs, s, r, x);
      }
    }
    hide IsOutput, AllOutputs, Flatten;
    SameElements(Flatten(outs), s);
  }

  // ----- the lines as text

  function Text(line: Line): string
  {
    line.key + " " + line.output + "\n"
  }

  lemma SpaceAt(line: Line, i: nat)
    requires ' ' !in line.key && i <= |line.key|
    ensures i < |Text(line)| && (Text(line)[i] == ' ' <==> i == |line.key|)
  {
    assert i < |line.key| ==> Text(line)[i] == line.key[i];
  }

  /** A line can be read back, if its key has no space in it. */
  lemma TextDetermines(a: Line, b: Line)
    requires ' ' !in a.key && ' ' !in b.key && Text(a) == Text(b)
    ensures a == b
  {
    var n := if |a.key| < |b.key| then |a.key| else |b.key|;
    SpaceAt(a, n);
    SpaceAt(b, n);
    assert Text(a)[..n] == a.key && Text(b)[..n] == b.key;
    assert Text(a)[n + 1..|Text(a)| - 1] == a.output && Text(b)[n + 1..|Text(b)| - 1] == b.output;
  }

  function Texts(lines: seq<Line>): seq<string>
  {
    if lines == [] then [] else Texts(lines[..|lines| - 1]) + [Text(lines[|lines| - 1])]
  }

  lemma {:induction false} TextsConcat(a: seq<Line>, b: seq<Line>)
    ensures Texts(a + b) == Texts(a) + Texts(b)
  {
    if b == [] {
      assert a + b == a;
    } else {
      TextsConcat(a, b[..|b| - 1]);
      assert (a + b)[..|a + b| - 1] == a + b[..|b| - 1];
    }
  }

  lemma TextsRemove(lines: seq<Line>, i: nat)
    requires i < |lines|
    ensures multiset(Texts(lines)) == multiset(Texts(lines[..i] + lines[i + 1..])) + multiset{Text(lines[i])}
  {
    hide *;
    var a, x, b := lines[..i], [lines[i]], lines[i + 1..];
    TextsConcat(a, b);
    TextsConcat(a + x, b);
    TextsConcat(a, x);
    TextsOne(lines[i]);
    MultisetMiddle(Texts(a), Texts(x), Texts(b));
    assert lines == a + x + b;
  }

  lemma TextsOne(line: Line)
    ensures Texts([line]) == [Text(line)]
  {
    assert [line][..0] == [];
  }

  /** The same lines, whatever their order, are the same texts. */
  lemma {:induction false} SameTexts(a: seq<Line>, b: seq<Line>)
    requires multiset(a) == multiset(b)
    ensures multiset(Texts(a)) == multiset(Texts(b))
    decreases |a|
  {
    if a == [] {
      assert |multiset(b)| == 0;
    } else {
      hide Texts, Text;
      var n := |a| - 1;
      assert a[n] in multiset(b);
      var i: nat :| i < |b| && b[i] == a[n];
      RemoveOne(a, n);
      RemoveOne(b, i);
      CancelOne(multiset(a[..n] + a[n + 1..]), multiset(b[..i] + b[i + 1..]), a[n]);
      SameTexts(a[..n] + a[n + 1..], b[..i] + b[i + 1..]);
      TextsRemove(a, n);
      TextsRemove(b, i);
    }
  }
}
