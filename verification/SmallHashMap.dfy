/** container/small_hash_map.h: 1023 buckets, each with a map of its own once something has been
    inserted into it; one operation at a time. */
module SmallHashMap {
  import opened Counting
  import opened Hashes

  datatype Option<T> = None | Some(value: T)

  // ----- The map -----

  datatype SetResult = Crashed | Missing | Updated

  class SmallHashMap<K(==,!new), V> {
    const hash: K -> nat
    const buckets: array<Option<map<K, V>>>
    var size: nat
    ghost var contents: map<K, V>

    /** What bucket i holds; a bucket nothing was inserted into holds no map. */
    function BucketOf(i: nat): map<K, V>
      reads buckets
    {
      if i < buckets.Length && buckets[i].Some? then buckets[i].value else map[]
    }

    /** contents is what the buckets hold together: every key in the bucket of its hash. */
    ghost predicate Valid()
      reads this, buckets
    {
      && buckets.Length == MASK && size < WORD
      && (forall k :: hash(k) < MASK)
      && (forall i: nat, k {:trigger k in BucketOf(i)} ::
          k in BucketOf(i) ==> hash(k) == i && k in contents && contents[k] == BucketOf(i)[k])
      && (forall k :: k in contents ==> k in BucketOf(hash(k)))
    }

    constructor (hash: K -> nat)
      requires forall k :: hash(k) < MASK
      ensures Valid() && fresh(buckets) && contents == map[] && size == 0 && this.hash == hash
      ensures forall i :: 0 <= i < MASK ==> buckets[i] == None
    {
      this.hash := hash;
      buckets := new Option<map<K, V>>[MASK](_ => None);
      size := 0;
      contents := map[];
    }

    /** The last value inserted for a key stays; the counter goes up either way. */
    method Insert(key: K, value: V)
      requires Valid()
      modifies this, buckets
      ensures Valid() && contents == old(contents)[key := value] && size == Increment(old(size))
      ensures forall i :: 0 <= i < MASK ==> (buckets[i].Some? <==> old(buckets[i]).Some? || i == hash(key))
    {
      var h := hash(key);
      var bucket := map[];
      if buckets[h].Some? {
        bucket := buckets[h].value;
      }
      assert bucket == BucketOf(h);
      buckets[h] := Some(bucket[key := value]);
      contents := contents[key := value];
      size := Increment(size);
      forall i: nat, k | k in BucketOf(i) ensures hash(k) == i && k in contents && contents[k] == BucketOf(i)[k] {
        if i != h { assert k in old(BucketOf(i)); } else { assert k != key ==> k in old(BucketOf(h)); }
      }
    }

    method Search(key: K) returns (value: Option<V>)
      requires Valid()
      ensures value == if key in contents then Some(contents[key]) else None
    {
      var h := hash(key);
      if buckets[h].None? { return None; }
      assert BucketOf(h) == buckets[h].value;
      if key !in buckets[h].value { return None; }
      value := Some(buckets[h].value[key]);
    }

    method Erase(key: K) returns (ok: bool)
      requires Valid()
      modifies this, buckets
      ensures Valid() && ok == (key in old(contents)) && contents == old(contents) - {key}
      ensures size == if ok then Decrement(old(size)) else old(size)
      ensures forall i :: 0 <= i < MASK ==> buckets[i].Some? == old(buckets[i]).Some?
    {
      var h := hash(key);
      assert BucketOf(h) == if buckets[h].Some? then buckets[h].value else map[];
      if buckets[h].None? || key !in buckets[h].value {
        assert contents - {key} == contents;
        return false;
      }
      buckets[h] := Some(buckets[h].value - {key});
      contents := contents - {key};
      size := Decrement(size);
      ok := true;
      assert forall i: nat :: i != h ==> BucketOf(i) == old(BucketOf(i));
      assert BucketOf(h) == old(BucketOf(h)) - {key};
      forall i: nat, k | k in BucketOf(i) ensures hash(k) == i && k in contents && contents[k] == BucketOf(i)[k] {
        if i != h { assert k in old(BucketOf(i)); } else { assert k in old(BucketOf(h)); }
      }
    }

    /** The source does not test whether the bucket has a map. */
    method Set(key: K, value: V) returns (r: SetResult)
      requires Valid()
      modifies this, buckets
      ensures Valid() && size == old(size)
      ensures r.Crashed? <==> old(buckets[hash(key)]).None?
      ensures r.Updated? <==> key in old(contents)
      ensures contents == if r.Updated? then old(contents)[key := value] else old(contents)
      ensures forall i :: 0 <= i < MASK ==> buckets[i].Some? == old(buckets[i]).Some?
    {
      var h := hash(key);
      assert BucketOf(h) == if buckets[h].Some? then buckets[h].value else map[];
      if buckets[h].None? { return Crashed; }
      if key !in buckets[h].value { return Missing; }
      buckets[h] := Some(buckets[h].value[key := value]);
      contents := contents[key := value];
      r := Updated;
      forall i: nat, k | k in BucketOf(i) ensures hash(k) == i && k in contents && contents[k] == BucketOf(i)[k] {
        if i != h { assert k in old(BucketOf(i)); } else { assert k != key ==> k in old(BucketOf(h)); }
      }
    }

    /** Every key is visited once, with its value; the order within a bucket is left open. */
    method ForEach() returns (keys: seq<K>, values: seq<V>)
      requires Valid()
      ensures |values| == |keys| && forall i, j :: 0 <= i < j < |keys| ==> keys[i] != keys[j]
      ensures forall k :: k in keys <==> k in contents
      ensures forall i :: 0 <= i < |keys| ==> keys[i] in contents && values[i] == contents[keys[i]]
    {
      keys, values := [], [];
      var i := 0;
      while i < MASK
        invariant i <= MASK && |values| == |keys| && forall i, j :: 0 <= i < j < |keys| ==> keys[i] != keys[j]
        invariant forall k :: k in keys <==> k in contents && hash(k) < i
        invariant forall i :: 0 <= i < |keys| ==> keys[i] in contents && values[i] == contents[keys[i]]
      {
        if buckets[i].Some? {
          assert BucketOf(i) == buckets[i].value;
          var rest := buckets[i].value.Keys;
          while rest != {}
            invariant rest <= BucketOf(i).Keys && |values| == |keys|
            invariant forall i, j :: 0 <= i < j < |keys| ==> keys[i] != keys[j]
            invariant forall k :: k in keys <==> k in contents && (hash(k) < i || (hash(k) == i && k !in rest))
            invariant forall i :: 0 <= i < |keys| ==> keys[i] in contents && values[i] == contents[keys[i]]
            decreases |rest|
          {
            var k :| k in rest;
            assert k in BucketOf(i);
            keys, values := keys + [k], values + [buckets[i].value[k]];
            rest := rest - {k};
          }
        }
        i := i + 1;
      }
    }
  }

  // ----- Runs -----

  /** Maps over the keys the source has hashes for: unsigned integers and strings. */
  method MapOfUint32<V>() returns (m: SmallHashMap<Uint32, V>)
    ensures fresh(m) && fresh(m.buckets) && m.Valid() && m.contents == map[] && m.size == 0
    ensures forall i :: 0 <= i < MASK ==> m.buckets[i] == None
    ensures forall key :: m.hash(key) == Mixed32(key) % 1023
  {
    m := new SmallHashMap(Hash32);
  }

  method MapOfUint64<V>() returns (m: SmallHashMap<Uint64, V>)
    ensures fresh(m) && fresh(m.buckets) && m.Valid() && m.contents == map[] && m.size == 0
    ensures forall i :: 0 <= i < MASK ==> m.buckets[i] == None
    ensures forall key: Uint64 :: m.hash(key) == (key as int) % 1023
  {
    m := new SmallHashMap(Hash64);
  }

  method MapOfString<V>() returns (m: SmallHashMap<seq<nat>, V>)
    ensures fresh(m) && fresh(m.buckets) && m.Valid() && m.contents == map[] && m.size == 0
    ensures forall i :: 0 <= i < MASK ==> m.buckets[i] == None
    ensures forall codes :: m.hash(codes) == (5831 * Power(|codes|) + Weighted(codes)) % WORD % 1023
  {
    forall codes ensures HashText(codes) == (5831 * Power(|codes|) + Weighted(codes)) % WORD {
      HashIsWeightedSum(codes);
    }
    m := new SmallHashMap(HashString);
  }

  datatype Op<K, V> = DoInsert(key: K, value: V) | DoErase(key: K) | DoSearch(key: K) | DoSet(key: K, value: V)

  /** What an operation answers. */
  datatype Answer<V> = Nothing | Erased(ok: bool) | Found(value: Option<V>) | WasSet(r: SetResult)

  /** One plain map, a count without bounds, and the hashes of the keys that were ever inserted;
      nothing happens any more after a crash. */
  datatype Plain<K, V> = Plain(m: map<K, V>, count: int, touched: set<nat>, crashed: bool, answers: seq<Answer<V>>)

  function Next<K(==), V>(hash: K -> nat, p: Plain<K, V>, op: Op<K, V>): Plain<K, V> {
    if p.crashed then p
    else
      match op
      case DoInsert(key, value) =>
        Plain(p.m[key := value], p.count + 1, p.touched + {hash(key)}, false, p.answers + [Nothing])
      case DoErase(key) =>
        if key in p.m then p.(m := p.m - {key}, count := p.count - 1, answers := p.answers + [Erased(true)])
        else p.(answers := p.answers + [Erased(false)])
      case DoSearch(key) => p.(answers := p.answers + [Found(if key in p.m then Some(p.m[key]) else None)])
      case DoSet(key, value) =>
        if hash(key) !in p.touched then p.(crashed := true, answers := p.answers + [WasSet(Crashed)])
        else if key in p.m then p.(m := p.m[key := value], answers := p.answers + [WasSet(Updated)])
        else p.(answers := p.answers + [WasSet(Missing)])
  }

  function Run<K(==), V>(hash: K -> nat, ops: seq<Op<K, V>>): Plain<K, V>
    decreases |ops|
  {
    if ops == [] then Plain(map[], 0, {}, false, []) else Next(hash, Run(hash, ops[..|ops| - 1]), ops[|ops| - 1])
  }

  /** The map holds what the plain map holds, and its bucket i a map if i is the hash of a key that
      was inserted. */
  ghost predicate Mirrors<K(!new), V>(m: SmallHashMap<K, V>, p: Plain<K, V>)
    reads m, m.buckets
  {
    && m.Valid() && m.contents == p.m && m.size == p.count % WORD
    && forall i :: 0 <= i < MASK ==> (m.buckets[i].Some? <==> i in p.touched)
  }

  method PerformOne<K(==,!new), V>(m: SmallHashMap<K, V>, op: Op<K, V>, ghost p: Plain<K, V>)
    returns (answer: Answer<V>)
    requires Mirrors(m, p) && !p.crashed
    modifies m, m.buckets
    ensures Mirrors(m, Next(m.hash, p, op))
    ensures Next(m.hash, p, op).answers == p.answers + [answer]
    ensures Next(m.hash, p, op).crashed <==> answer == WasSet(Crashed)
  {
    match op {
      case DoInsert(key, value) =>
        m.Insert(key, value);
        answer := Nothing;
      case DoErase(key) =>
        var ok := m.Erase(key);
        assert !ok ==> p.m - {key} == p.m;
        answer := Erased(ok);
      case DoSearch(key) =>
        var value := m.Search(key);
        answer := Found(value);
      case DoSet(key, value) =>
        assert key in p.m ==> key in m.BucketOf(m.hash(key));
        var r := m.Set(key, value);
        answer := WasSet(r);
    }
  }

  /** Any sequence of operations on a fresh map does what it does on one plain map, and the
      counter is the plain one in 32 bits.  It crashes at the first set of a key whose hash no
      inserted key has had. */
  method Perform<K(==,!new), V>(m: SmallHashMap<K, V>, ops: seq<Op<K, V>>) returns (answers: seq<Answer<V>>)
    requires m.Valid() && m.contents == map[] && m.size == 0
    requires forall i :: 0 <= i < MASK ==> m.buckets[i] == None
    modifies m, m.buckets
    ensures Mirrors(m, Run(m.hash, ops)) && answers == Run(m.hash, ops).answers
  {
    answers := [];
    var i := 0;
    while i < |ops|
      invariant i <= |ops| && Mirrors(m, Run(m.hash, ops[..i])) && !Run(m.hash, ops[..i]).crashed
      invariant answers == Run(m.hash, ops[..i]).answers
    {
      assert ops[..i + 1][..i] == ops[..i];
      var answer := PerformOne(m, ops[i], Run(m.hash, ops[..i]));
      answers := answers + [answer];
      if answer == WasSet(Crashed) {
        NothingAfterACrash(m.hash, ops, i + 1);
        return;
      }
      i := i + 1;
    }
    assert ops[..|ops|] == ops;
  }

  lemma {:induction false} NothingAfterACrash<K, V>(hash: K -> nat, ops: seq<Op<K, V>>, i: nat)
    requires i <= |ops| && Run(hash, ops[..i]).crashed
    ensures Run(hash, ops) == Run(hash, ops[..i])
    decreases |ops|
  {
    if i == |ops| {
      assert ops[..i] == ops;
    } else {
      assert ops[..|ops| - 1][..i] == ops[..i];
      NothingAfterACrash(hash, ops[..|ops| - 1], i);
    }
  }

  /** The operation i is the one that crashes: a set of a key whose hash no inserted key before
      it has. */
  ghost predicate SetsUntouched<K(!new), V>(hash: K -> nat, ops: seq<Op<K, V>>, i: nat)
    requires i < |ops|
  {
    ops[i].DoSet? && forall j :: 0 <= j < i && ops[j].DoInsert? ==> hash(ops[j].key) != hash(ops[i].key)
  }

  lemma {:induction false} TouchedAreInserted<K(!new), V>(hash: K -> nat, ops: seq<Op<K, V>>, h: nat)
    requires !Run(hash, ops).crashed
    ensures h in Run(hash, ops).touched <==> exists j :: 0 <= j < |ops| && ops[j].DoInsert? && hash(ops[j].key) == h
    decreases |ops|
  {
    if ops != [] {
      var front := ops[..|ops| - 1];
      TouchedAreInserted(hash, front, h);
      if j :| 0 <= j < |ops| && ops[j].DoInsert? && hash(ops[j].key) == h { assert j < |front| ==> front[j] == ops[j]; }
      if j :| 0 <= j < |front| && front[j].DoInsert? && hash(front[j].key) == h { assert front[j] == ops[j]; }
    }
  }

  /** A run crashes exactly when it sets a key before any key of the same hash is inserted. */
  lemma {:induction false} CrashesIff<K(!new), V>(hash: K -> nat, ops: seq<Op<K, V>>)
    ensures Run(hash, ops).crashed <==> exists i :: 0 <= i < |ops| && SetsUntouched(hash, ops, i)
    decreases |ops|
  {
    if ops != [] {
      var front, last := ops[..|ops| - 1], |ops| - 1;
      CrashesIff(hash, front);
      forall i | 0 <= i < last ensures SetsUntouched(hash, front, i) <==> SetsUntouched(hash, ops, i) {}
      if !Run(hash, front).crashed && ops[last].DoSet? {
        TouchedAreInserted(hash, front, hash(ops[last].key));
        assert SetsUntouched(hash, ops, last) <==> hash(ops[last].key) !in Run(hash, front).touched;
      }
    }
  }

  /** How many inserts found their key already there. */
  function Repeated<K(==), V>(hash: K -> nat, ops: seq<Op<K, V>>): nat
    decreases |ops|
  {
    if ops == [] then 0
    else
      var before, last := Run(hash, ops[..|ops| - 1]), ops[|ops| - 1];
      Repeated(hash, ops[..|ops| - 1]) + (if last.DoInsert? && !before.crashed && last.key in before.m then 1 else 0)
  }

  /** Counted from zero, the counter is above the number of keys by the inserts that found
      their key already there; so it is exact only when there was none. */
  lemma {:induction false} SizeExceedsKeys<K, V>(hash: K -> nat, ops: seq<Op<K, V>>)
    ensures Run(hash, ops).count == |Run(hash, ops).m| + Repeated(hash, ops)
    decreases |ops|
  {
    if ops != [] {
      var before, last := Run(hash, ops[..|ops| - 1]), ops[|ops| - 1];
      SizeExceedsKeys(hash, ops[..|ops| - 1]);
      if last.DoInsert? || last.DoSet? { KeysAfterInsert(before.m, last.key, last.value); }
      if last.DoErase? { KeysAfterErase(before.m, last.key); }
    }
  }

  lemma KeysAfterInsert<K, V>(m: map<K, V>, key: K, value: V)
    ensures |m[key := value]| == if key in m then |m| else |m| + 1
  {
    assert m[key := value].Keys == m.Keys + {key};
    assert key in m ==> m.Keys + {key} == m.Keys;
  }

  lemma KeysAfterErase<K, V>(m: map<K, V>, key: K)
    ensures key in m ==> |m - {key}| == |m| - 1
  {
    assert key in m ==> m.Keys == (m - {key}).Keys + {key};
  }
}
