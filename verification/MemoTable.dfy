/**
 The memo table of the search: buckets of (bit vector, state) keyed by the vector's hash.  It
 stands for a set of (set of linearized operations, state) pairs, and a lookup is exactly
 membership in that set, whatever the hash function makes collide.
 */
module MemoTable {
  import opened Bitset

  datatype CacheEntry<+S> = CacheEntry(linearized: seq<Word>, state: S)

  type Cache<S> = map<Word, seq<CacheEntry<S>>>

  /** The pair a table entry stands for. */
  ghost function Meaning<S>(e: CacheEntry<S>): (set<nat>, S)
  {
    (Positions(e.linearized), e.state)
  }

  ghost predicate Holds<S>(cache: Cache<S>, hash: Word, i: nat, meaning: (set<nat>, S))
  {
    hash in cache && i < |cache[hash]| && Meaning(cache[hash][i]) == meaning
  }

  /** Every entry is in the bucket of its hash, and the entries stand for exactly `pairs`. */
  ghost predicate StandsFor<S>(cache: Cache<S>, words: nat, pairs: set<(set<nat>, S)>)
  {
    && (forall hash, i: nat :: hash in cache && i < |cache[hash]| ==>
          && |cache[hash][i].linearized| == words
          && Hash(cache[hash][i].linearized) == hash
          && Meaning(cache[hash][i]) in pairs)
    && (forall meaning :: meaning in pairs ==> exists hash, i: nat :: Holds(cache, hash, i, meaning))
  }

  function Bucket<S>(cache: Cache<S>, hash: Word): seq<CacheEntry<S>>
  {
    if hash in cache then cache[hash] else []
  }

  /** Being in the table is being in the bucket of the entry's own hash. */
  lemma MemberIffInBucket<S>(cache: Cache<S>, words: nat, pairs: set<(set<nat>, S)>, e: CacheEntry<S>)
    requires StandsFor(cache, words, pairs) && |e.linearized| == words
    ensures Meaning(e) in pairs <==> e in Bucket(cache, Hash(e.linearized))
  {
    if Meaning(e) in pairs {
      var hash, i: nat :| Holds(cache, hash, i, Meaning(e));
      SameWordsIffSamePositions(cache[hash][i].linearized, e.linearized);
      assert cache[hash][i] == e;
    }
  }

  method CacheContains<S(==)>(cache: Cache<S>, entry: CacheEntry<S>, ghost pairs: set<(set<nat>, S)>) returns (r: bool)
    requires StandsFor(cache, |entry.linearized|, pairs)
    ensures r <==> Meaning(entry) in pairs
  {
    MemberIffInBucket(cache, |entry.linearized|, pairs, entry);
    hide StandsFor, Meaning, Positions, Hash;
    var hash := HashOf(entry.linearized);
    var bucket := Bucket(cache, hash);
    for i := 0 to |bucket|
      invariant entry !in bucket[..i]
    {
      var elem := bucket[i];
      var same := Equals(entry.linearized, elem.linearized);
      if same && entry.state == elem.state {
        return true;
      }
    }
    return false;
  }

  /** Appending to the bucket adds exactly the entry's pair. */
  lemma BucketGrows<S>(cache: Cache<S>, words: nat, pairs: set<(set<nat>, S)>, e: CacheEntry<S>, cache': Cache<S>)
    requires StandsFor(cache, words, pairs) && |e.linearized| == words
    requires cache' == cache[Hash(e.linearized) := Bucket(cache, Hash(e.linearized)) + [e]]
    ensures StandsFor(cache', words, pairs + {Meaning(e)})
  {
    hide Hash, Positions, Meaning;
    var hash := Hash(e.linearized);
    forall meaning | meaning in pairs + {Meaning(e)}
      ensures exists h, i: nat :: Holds(cache', h, i, meaning)
    {
      if meaning in pairs {
        var h, i: nat :| Holds(cache, h, i, meaning);
        assert Holds(cache', h, i, meaning);
      } else {
        assert Holds(cache', hash, |Bucket(cache, hash)|, meaning);
      }
    }
  }

  method CacheAdd<S>(cache: Cache<S>, entry: CacheEntry<S>, ghost pairs: set<(set<nat>, S)>) returns (cache': Cache<S>)
    requires StandsFor(cache, |entry.linearized|, pairs)
    ensures StandsFor(cache', |entry.linearized|, pairs + {Meaning(entry)})
  {
    hide StandsFor, Meaning, Positions, Hash;
    var hash := HashOf(entry.linearized);
    cache' := cache[hash := Bucket(cache, hash) + [entry]];
    BucketGrows(cache, |entry.linearized|, pairs, entry, cache');
  }
}
