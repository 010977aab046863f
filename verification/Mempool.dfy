/** pool/mempool.cpp: arenas of free lists that are threaded through the free blocks, one list
    for each class of sizes, and a map of larger chunks. */
module Mempool {

  /** Zero is the null pointer. */
  type Addr = int

  // ----- Size classes -----

  /** The constants have the values the source gives them: 1K is larger than 4K. */
  const K1 := 32768
  const K2 := 65536
  const K4 := 4096
  const K8 := 8192
  const K16 := 16384
  const K32 := 32768
  const K64 := 65536

  const CLASSES := 11

  /** The standard length for a request, and its class, or -1 when it has none. */
  function Standard(len: int): (r: (int, int)) {
    if len <= 8 then (8, 0)
    else if len <= 32 then (32, 1)
    else if len <= 128 then (128, 2)
    else if len <= 512 then (512, 3)
    else if len <= K1 then (K1, 4)
    else if len <= K2 then (K2, 5)
    else if len <= K4 then (K4, 6)
    else if len <= K8 then (K8, 7)
    else if len <= K16 then (K16, 8)
    else if len <= K32 then (K32, 9)
    else if len <= K64 then (K64, 10)
    else ((len + K4 - 1) / K4 * K4, -1)
  }

  /** The length of the blocks a new arena starts with. */
  function ClassSize(c: nat): nat {
    match c
    case 0 => 8
    case 1 => 32
    case 2 => 128
    case 3 => 512
    case 4 => K1
    case 5 => K2
    case 6 => K4
    case 7 => K8
    case 8 => K16
    case 9 => K32
    case _ => K64
  }

  lemma RoundsUp(len: int)
    ensures len <= (len + K4 - 1) / K4 * K4 < len + K4
  {}

  /** The standard length covers the request and is its own standard length: the least of six
      up to 65536 bytes, the least multiple of 4096 above.  The classes from 6 on are never used,
      and two requests are in one class exactly when they have one standard length. */
  lemma StandardCovers(len: int, len': int)
    ensures var (std, c) := Standard(len);
      && len <= std && Standard(std) == (std, c)
      && (len <= 65536 ==> std in [8, 32, 128, 512, 32768, 65536])
      && (forall s :: s in [8, 32, 128, 512, 32768, 65536] && len <= s ==> std <= s)
      && (len > 65536 ==> std % 4096 == 0 && std < len + 4096)
      && (c == -1 <==> len > 65536) && -1 <= c <= 5
      && (c >= 0 ==> std == ClassSize(c))
      && (c == Standard(len').1 >= 0 <==> std == Standard(len').0 <= 65536)
  {
    if len > K2 { RoundsUp(len); }
    if len' > K2 { RoundsUp(len'); }
  }

  // ----- The pool -----

  /** heads: the first block of every free list, by arena and class.  chunks: the larger free
      blocks of every arena, by length.  word: the first machine word of every block, where a
      free block keeps the address of the next one.  body: the words behind it.  size: what
      malloc has given.  live: the blocks that clients hold. */
  datatype Pool = Pool(
    heads: seq<seq<Addr>>, chunks: seq<map<int, Addr>>, word: map<Addr, Addr>, body: map<Addr, seq<int>>,
    size: map<Addr, int>, live: set<Addr>)

  predicate WellFormed(p: Pool) {
    && |p.heads| == |p.chunks| > 0
    && forall a :: 0 <= a < |p.heads| ==> |p.heads[a]| == CLASSES
  }

  function WordOf(p: Pool, x: Addr): Addr {
    if x in p.word then p.word[x] else 0
  }

  function BodyOf(p: Pool, x: Addr): seq<int> {
    if x in p.body then p.body[x] else []
  }

  /** How many machine words lie behind the first in len bytes; standard lengths are multiples
      of the eight bytes of a word. */
  function WordsBehind(len: int): nat {
    if len >= 8 then len / 8 - 1 else 0
  }

  /** The first n words set to zero. */
  function Cleared(words: seq<int>, n: nat): (r: seq<int>)
    ensures |r| >= n && forall i :: 0 <= i < n ==> r[i] == 0
    ensures |words| >= n ==> |r| == |words| && forall i :: n <= i < |words| ==> r[i] == words[i]
  {
    seq(n, _ => 0) + (if n <= |words| then words[n..] else [])
  }

  function FirstBlocks(n: nat): (blocks: set<Addr>)
    ensures forall x :: x in blocks <==> 1 <= x <= n
  {
    if n == 0 then {} else FirstBlocks(n - 1) + {n}
  }

  /** Every arena starts with one block in each list. */
  function Init(cores: nat): Pool {
    var blocks := FirstBlocks(CLASSES * cores);
    Pool(seq(cores, a requires 0 <= a => seq(CLASSES, c requires 0 <= c => 1 + CLASSES * a + c)),
         seq(cores, _ => map[]),
         map x | x in blocks :: 0, map[], map x | x in blocks :: ClassSize((x - 1) % CLASSES), {})
  }

  /** The smallest key at or above len. */
  ghost predicate IsLowerBound(m: map<int, Addr>, len: int, key: int) {
    key in m && len <= key && forall k :: k in m && len <= k ==> key <= k
  }

  ghost predicate HasChunk(m: map<int, Addr>, len: int) {
    exists k :: k in m && len <= k
  }

  lemma LowerBoundExists(m: map<int, Addr>, len: int)
    requires HasChunk(m, len)
    ensures exists key :: IsLowerBound(m, len, key)
    decreases |m.Keys|
  {
    var k :| k in m && len <= k;
    var below := map j | j in m && j < k :: m[j];
    if HasChunk(below, len) {
      assert k !in below.Keys && below.Keys < m.Keys;
      SubsetIsSmaller(below.Keys, m.Keys);
      LowerBoundExists(below, len);
      var key :| IsLowerBound(below, len, key);
      forall j | j in m && len <= j ensures key <= j { if j < k { assert j in below; } }
      assert IsLowerBound(m, len, key);
    } else {
      assert forall j :: j in m && j < k ==> j in below;
      assert IsLowerBound(m, len, k);
    }
  }

  lemma SomeOf<T>(s: set<T>) returns (x: T)
    requires s != {}
    ensures x in s
  {
    x :| x in s;
  }

  lemma SubsetIsSmaller<T>(a: set<T>, b: set<T>)
    requires a < b
    ensures |a| < |b|
  {
    var x :| x in b && x !in a;
    assert a <= b - {x};
    SubsetSize(a, b - {x});
  }

  lemma {:induction false} SubsetSize<T>(a: set<T>, b: set<T>)
    requires a <= b
    ensures |a| <= |b|
    decreases |b|
  {
    if b != {} {
      var x :| x in b;
      SubsetSize(a - {x}, b - {x});
      if x in a { assert a == a - {x} + {x}; } else { assert a - {x} == a; }
    }
  }

  ghost function LowerBound(m: map<int, Addr>, len: int): (key: int)
    requires HasChunk(m, len)
    ensures IsLowerBound(m, len, key)
  {
    LowerBoundExists(m, len);
    var key :| IsLowerBound(m, len, key);
    key
  }

  // ----- Allocation -----

  /** Arena a can serve a request of standard length len and class c. */
  ghost predicate Serves(p: Pool, a: nat, len: int, c: int)
    requires WellFormed(p) && a < |p.heads| && -1 <= c < CLASSES
  {
    if c >= 0 then len <= K4 && p.heads[a][c] != 0
    else HasChunk(p.chunks[a], len) && p.chunks[a][LowerBound(p.chunks[a], len)] != 0
  }

  /** The first arena from a on whose lock was free and that can serve the request. */
  ghost function FirstServing(p: Pool, len: int, c: int, got: seq<bool>, a: nat): (r: nat)
    requires WellFormed(p) && |got| == |p.heads| && a <= |got| && -1 <= c < CLASSES
    ensures a <= r <= |got| && (r < |got| ==> got[r] && Serves(p, r, len, c))
    ensures forall b :: a <= b < r ==> !(got[b] && Serves(p, b, len, c))
    decreases |got| - a
  {
    if a == |got| || (got[a] && Serves(p, a, len, c)) then a else FirstServing(p, len, c, got, a + 1)
  }

  /** The block is given out, with zeros in its first len bytes. */
  function GiveOut(p: Pool, mem: Addr, len: int): Pool {
    p.(word := p.word[mem := 0], body := p.body[mem := Cleared(BodyOf(p, mem), WordsBehind(len))],
      live := p.live + {mem})
  }

  /** A free block is taken from its list; a chunk is not taken out of the map. */
  ghost function TakeFrom(p: Pool, a: nat, len: int, c: int): (Pool, Addr)
    requires WellFormed(p) && a < |p.heads| && -1 <= c < CLASSES && Serves(p, a, len, c)
  {
    if c >= 0 then
      var mem := p.heads[a][c];
      (GiveOut(p.(heads := p.heads[a := p.heads[a][c := WordOf(p, mem)]]), mem, len), mem)
    else
      var mem := p.chunks[a][LowerBound(p.chunks[a], len)];
      (GiveOut(p, mem, len), mem)
  }

  function Malloc(p: Pool, len: int, room: Addr): Pool {
    GiveOut(p.(size := p.size[room := len]), room, len)
  }

  /** got says which try_locks succeed; room is the address malloc returns if it is asked. */
  ghost function Allocate(p: Pool, len: int, got: seq<bool>, room: Addr): (Pool, Addr)
    requires WellFormed(p) && |got| == |p.heads|
  {
    var (std, c) := Standard(len);
    var a := FirstServing(p, std, c, got, 0);
    if a < |got| then TakeFrom(p, a, std, c) else (Malloc(p, std, room), room)
  }

  // ----- Deallocation -----

  lemma SmallMultiple(d: int, k: int)
    requires d >= 0
    ensures k >= 1 ==> d * k >= d
    ensures k <= -1 ==> d * k <= -d
  {
    if k >= 1 {
      assert d * k == d + d * (k - 1) && d * (k - 1) >= 0;
    } else if k <= -1 {
      assert d * k == -d + d * (k + 1) && d * (k + 1) <= 0;
    }
  }

  lemma RemainderIs(x: int, d: int, q: int, r: int)
    requires d > 0 && x == d * q + r && 0 <= r < d
    ensures x % d == r
  {
    assert x == d * (x / d) + x % d && 0 <= x % d < d;
    assert d * (q - x / d) == d * q - d * (x / d);
    SmallMultiple(d, q - x / d);
  }

  lemma NextRemainder(cores: nat, n: nat)
    requires cores > 0
    ensures (n + 1) % cores == if n % cores + 1 == cores then 0 else n % cores + 1
  {
    var q, r := n / cores, n % cores;
    assert n == cores * q + r;
    if r + 1 == cores {
      assert cores * (q + 1) == cores * q + cores;
      RemainderIs(n + 1, cores, q + 1, 0);
    } else {
      RemainderIs(n + 1, cores, q, r + 1);
    }
  }

  /** misses try_locks fail before one succeeds, at the arena that is then next. */
  function ArenaAfter(cores: nat, misses: nat): (a: nat)
    requires cores > 0
    ensures a == misses % cores
  {
    if misses == 0 then
      RemainderIs(0, cores, 0, 0);
      0
    else
      NextRemainder(cores, misses - 1);
      var a := ArenaAfter(cores, misses - 1);
      if a + 1 == cores then 0 else a + 1
  }

  function Deallocate(p: Pool, buff: Addr, len: int, misses: nat): Pool
    requires WellFormed(p)
  {
    var (std, c) := Standard(len);
    var a := ArenaAfter(|p.heads|, misses);
    var p' := p.(live := p.live - {buff});
    if c >= 0 then p'.(word := p.word[buff := p.heads[a][c]], heads := p.heads[a := p.heads[a][c := buff]])
    else if std in p.chunks[a] then p'
    else p'.(chunks := p.chunks[a := p.chunks[a][std := buff]])
  }

  // ----- The object -----

  class Block {
    var recvlist: seq<Addr>
    var recvlistchunk: map<int, Addr>

    constructor (recvlist: seq<Addr>)
      ensures this.recvlist == recvlist && recvlistchunk == map[]
    {
      this.recvlist, recvlistchunk := recvlist, map[];
    }

    /** The smallest length of a chunk at or above len. */
    method LowerBoundOf(len: int) returns (found: bool, key: int)
      ensures found <==> HasChunk(recvlistchunk, len)
      ensures found ==> IsLowerBound(recvlistchunk, len, key)
    {
      var rest := recvlistchunk.Keys;
      found, key := false, 0;
      while rest != {}
        invariant rest <= recvlistchunk.Keys
        invariant found ==> key in recvlistchunk && len <= key
        invariant forall k :: k in recvlistchunk && k !in rest && len <= k ==> found && key <= k
        decreases |rest|
      {
        assert exists k: Addr :: k in rest by { var some := SomeOf(rest); assert some in rest; }
        var k: Addr :| k in rest;
        if len <= k && (!found || k < key) { found, key := true, k; }
        rest := rest - {k};
      }
    }
  }

  class Mempool {
    const vpool: seq<Block>
    var word: map<Addr, Addr>
    var body: map<Addr, seq<int>>
    var size: map<Addr, int>
    var live: set<Addr>

    /** The arenas are distinct objects, each with one list for every class. */
    ghost predicate Valid()
      reads this, vpool
    {
      && |vpool| > 0
      && (forall i, j :: 0 <= i < j < |vpool| ==> vpool[i] != vpool[j])
      && forall i :: 0 <= i < |vpool| ==> |vpool[i].recvlist| == CLASSES
    }

    ghost function Value(): (p: Pool)
      requires Valid()
      reads this, vpool
      ensures WellFormed(p) && |p.heads| == |vpool|
    {
      Pool(seq(|vpool|, a requires 0 <= a < |vpool| reads this, vpool => vpool[a].recvlist),
           seq(|vpool|, a requires 0 <= a < |vpool| reads this, vpool => vpool[a].recvlistchunk),
           word, body, size, live)
    }

    constructor (vpool: seq<Block>)
      requires |vpool| > 0 && forall i, j :: 0 <= i < j < |vpool| ==> vpool[i] != vpool[j]
      requires forall i :: 0 <= i < |vpool| ==> |vpool[i].recvlist| == CLASSES
      ensures this.vpool == vpool && Valid() && word == map[] && body == map[] && size == map[] && live == {}
    {
      this.vpool, word, body, size, live := vpool, map[], map[], map[], {};
    }

    /** One arena whose lock is held is asked for a block; null if it has none. */
    method Ask(a: nat, len: int, c: int) returns (mem: Addr)
      requires Valid() && a < |vpool| && -1 <= c < CLASSES
      modifies vpool[a]
      ensures Valid()
      ensures old(Serves(Value(), a, len, c)) ==>
        Value() == old(TakeFrom(Value(), a, len, c).0.(word := word, body := body, live := live)) &&
          mem == old(TakeFrom(Value(), a, len, c).1)
      ensures !old(Serves(Value(), a, len, c)) ==> Value() == old(Value()) && mem == 0
      ensures var list := old(vpool[a].recvlist);
        if 0 <= c && len <= 4096 && list[c] != 0 then
          mem == list[c] && vpool[a].recvlist == list[c := if mem in word then word[mem] else 0]
        else vpool[a].recvlist == list && (c >= 0 ==> mem == 0)
      ensures var chunks := old(vpool[a].recvlistchunk);
        && vpool[a].recvlistchunk == chunks
        && (c < 0 && HasChunk(chunks, len) ==> exists key :: IsLowerBound(chunks, len, key) && mem == chunks[key])
        && (c < 0 && !HasChunk(chunks, len) ==> mem == 0)
    {
      mem := 0;
      if c >= 0 {
        if len <= K4 && vpool[a].recvlist[c] != 0 {
          mem := vpool[a].recvlist[c];
          vpool[a].recvlist := vpool[a].recvlist[c := if mem in word then word[mem] else 0];
        }
      } else {
        var found, key := vpool[a].LowerBoundOf(len);
        if found {
          mem := vpool[a].recvlistchunk[key];
        }
      }
    }

    /** The first len bytes of the block are set to zero and the block is the client's. */
    method HandOut(mem: Addr, len: int)
      requires Valid()
      modifies this`word, this`body, this`live
      ensures Valid() && Value() == GiveOut(old(Value()), mem, len)
    {
      word := word[mem := 0];
      body := body[mem := Cleared(if mem in body then body[mem] else [], WordsBehind(len))];
      live := live + {mem};
    }

    /** got says which try_locks succeed; room is what malloc returns if it is asked. */
    method Allocator(len: int, got: seq<bool>, room: Addr) returns (mem: Addr)
      requires Valid() && |got| == |vpool|
      modifies this, vpool
      ensures Valid() && Value() == old(Allocate(Value(), len, got, room).0)
      ensures mem == old(Allocate(Value(), len, got, room).1)
    {
      hide Standard, Cleared, WordsBehind;
      var std, recvlistindex := Standard(len).0, Standard(len).1;
      StandardCovers(len, len);
      mem := 0;
      var index := 0;
      while index < |vpool|
        invariant index <= |vpool| && Valid() && Value() == old(Value())
        invariant mem == 0
        invariant FirstServing(Value(), std, recvlistindex, got, 0) ==
          FirstServing(Value(), std, recvlistindex, got, index)
      {
        if got[index] {
          label L:
          mem := Ask(index, std, recvlistindex);
          if mem != 0 { break; }
        }
        index := index + 1;
      }
      if mem == 0 {
        mem := room;
        size := size[mem := std];
      }
      HandOut(mem, std);
    }

    /** misses try_locks fail before one succeeds. */
    method Deallocator(buff: Addr, len: int, misses: nat)
      requires Valid()
      modifies this, vpool
      ensures Valid() && Value() == old(Deallocate(Value(), buff, len, misses))
    {
      var std, recvlistindex := Standard(len).0, Standard(len).1;
      StandardCovers(len, len);
      var index, failed := 0, 0;
      while failed < misses
        invariant failed <= misses && index == ArenaAfter(|vpool|, failed) && unchanged(this)
        invariant forall b :: b in vpool ==> unchanged(b)
      {
        failed := failed + 1;
        index := index + 1;
        if index == |vpool| {
          index := 0;
        }
      }
      var arena := vpool[index];
      if recvlistindex >= 0 {
        word := word[buff := arena.recvlist[recvlistindex]];
        arena.recvlist := arena.recvlist[recvlistindex := buff];
      } else if std !in arena.recvlistchunk {
        arena.recvlistchunk := arena.recvlistchunk[std := buff];
      }
      live := live - {buff};
    }
  }
}
