/** Every block of the pool is in one place, the free lists are finite, and a block that is
    given out is large enough and was free. */
module MempoolProof {
  import opened Mempool

  datatype Place = Live | OnList(a: nat, c: nat) | InChunks(a: nat, key: int)

  /** The free lists as sequences, and where each block is. */
  datatype Map = Map(lists: seq<seq<seq<Addr>>>, place: map<Addr, Place>)

  function ListAt(m: Map, a: nat, c: nat): seq<Addr> {
    if a < |m.lists| && c < |m.lists[a]| then m.lists[a][c] else []
  }

  function HeadAt(p: Pool, a: nat, c: nat): Addr {
    if a < |p.heads| && c < |p.heads[a]| then p.heads[a][c] else 0
  }

  function ChunksAt(p: Pool, a: nat): map<int, Addr> {
    if a < |p.chunks| then p.chunks[a] else map[]
  }

  function From(list: seq<Addr>, i: nat): Addr {
    if i < |list| then list[i] else 0
  }

  /** Following the first words of the blocks from head visits the blocks of list and ends. */
  ghost predicate Threaded(word: map<Addr, Addr>, head: Addr, list: seq<Addr>) {
    && head == From(list, 0)
    && forall i {:trigger From(list, i)} ::
        0 <= i < |list| ==> From(list, i) != 0 && From(list, i) in word && word[From(list, i)] == From(list, i + 1)
  }

  ghost predicate NoDuplicates(list: seq<Addr>) {
    forall i, j :: 0 <= i < j < |list| ==> list[i] != list[j]
  }

  /** A block is where its place says, and has room for what is expected there. */
  predicate InPlace(p: Pool, m: Map, x: Addr) {
    x in m.place &&
    match m.place[x]
    case Live => x in p.live
    case OnList(a, c) => x in ListAt(m, a, c) && x in p.size && p.size[x] >= ClassSize(c)
    case InChunks(a, key) => key in ChunksAt(p, a) && ChunksAt(p, a)[key] == x && x in p.size && p.size[x] >= key
  }

  ghost predicate Shaped(p: Pool, m: Map) {
    && WellFormed(p) && |m.lists| == |p.heads|
    && (forall a :: 0 <= a < |m.lists| ==> |m.lists[a]| == CLASSES)
    && 0 !in m.place && m.place.Keys == p.size.Keys
  }

  ghost predicate AllThreaded(p: Pool, m: Map) {
    forall a, c {:trigger ListAt(m, a, c)} ::
        Threaded(p.word, HeadAt(p, a, c), ListAt(m, a, c)) && NoDuplicates(ListAt(m, a, c))
  }

  ghost predicate AllInPlace(p: Pool, m: Map) {
    forall x :: x in m.place ==> InPlace(p, m, x)
  }

  /** What is in a place has that place. */
  ghost predicate LiveAreLive(p: Pool, m: Map) {
    forall x :: x in p.live ==> x in m.place && m.place[x] == Live
  }

  predicate ListIs(m: Map, a: nat, c: nat, x: Addr) {
    x in m.place && m.place[x] == OnList(a, c)
  }

  ghost predicate ListedAreListed(m: Map) {
    forall a, c, x {:trigger ListIs(m, a, c, x)} {:trigger x in ListAt(m, a, c)} ::
        x in ListAt(m, a, c) ==> ListIs(m, a, c, x)
  }

  predicate ChunkIs(m: Map, a: nat, key: int, x: Addr) {
    x in m.place && m.place[x] == InChunks(a, key)
  }

  ghost predicate ChunksAreChunks(p: Pool, m: Map) {
    forall a: nat, key {:trigger key in ChunksAt(p, a)} ::
        key in ChunksAt(p, a) ==> ChunkIs(m, a, key, ChunksAt(p, a)[key])
  }

  ghost predicate Owned(p: Pool, m: Map) {
    Shaped(p, m) && AllThreaded(p, m) && AllInPlace(p, m) && LiveAreLive(p, m) && ListedAreListed(m) &&
      ChunksAreChunks(p, m)
  }

  /** Every block is in exactly one place: held by a client, on one list, or in one map. */
  ghost predicate Partitioned(p: Pool) {
    exists m :: Owned(p, m)
  }

  /** A block that is in no map of chunks gets a new place. */
  lemma ChunksStay(p: Pool, p': Pool, m: Map, m': Map, x: Addr, place: Place)
    requires ChunksAreChunks(p, m) && p'.chunks == p.chunks && m'.place == m.place[x := place]
    requires !(x in m.place && m.place[x].InChunks?)
    ensures ChunksAreChunks(p', m')
  {
    forall a: nat, key | key in ChunksAt(p', a) ensures ChunkIs(m', a, key, ChunksAt(p', a)[key]) {
      assert key in ChunksAt(p, a);
      assert ChunkIs(m, a, key, ChunksAt(p, a)[key]);
    }
  }

  // ----- Taking a block from a list -----

  function SetList(m: Map, a: nat, c: nat, list: seq<Addr>): seq<seq<seq<Addr>>>
    requires a < |m.lists| && c < |m.lists[a]|
  {
    m.lists[a := m.lists[a][c := list]]
  }

  lemma ListAfter(m: Map, m': Map, a: nat, c: nat, list: seq<Addr>)
    requires a < |m.lists| && c < |m.lists[a]| && m'.lists == SetList(m, a, c, list)
    ensures forall b, d {:trigger ListAt(m', b, d)} ::
      ListAt(m', b, d) == if b == a && d == c then list else ListAt(m, b, d)
  {}

  lemma ThreadedRest(word: map<Addr, Addr>, head: Addr, list: seq<Addr>, x: Addr)
    requires Threaded(word, head, list) && NoDuplicates(list) && list != []
    ensures head == list[0] != 0 && head in word && Threaded(word[head := x], word[head], list[1..])
    ensures NoDuplicates(list[1..])
  {
    var rest := list[1..];
    assert From(list, 0) == head;
    assert forall i: nat {:trigger From(rest, i)} :: From(rest, i) == From(list, i + 1);
  }

  lemma ThreadedOther(word: map<Addr, Addr>, head: Addr, list: seq<Addr>, x: Addr, y: Addr)
    requires Threaded(word, head, list) && x !in list
    ensures Threaded(word[x := y], head, list)
  {}

  lemma ThreadedCons(word: map<Addr, Addr>, head: Addr, list: seq<Addr>, x: Addr)
    requires Threaded(word, head, list) && NoDuplicates(list) && x !in list && x != 0
    ensures Threaded(word[x := head], x, [x] + list) && NoDuplicates([x] + list)
  {
    var longer := [x] + list;
    forall i | 0 <= i < |longer|
      ensures From(longer, i) != 0 && From(longer, i) in word[x := head]
      ensures word[x := head][From(longer, i)] == From(longer, i + 1)
    {
      assert From(longer, i + 1) == From(list, i);
      if i > 0 {
        assert From(longer, i) == From(list, i - 1);
        assert From(list, i - 1) in list;
      }
    }
  }

  function TakenFromList(m: Map, a: nat, c: nat): Map
    requires a < |m.lists| && c < |m.lists[a]| && m.lists[a][c] != []
  {
    Map(SetList(m, a, c, m.lists[a][c][1..]), m.place[m.lists[a][c][0] := Live])
  }

  lemma HeadOfList(p: Pool, m: Map, a: nat, c: nat)
    requires Owned(p, m) && a < |p.heads| && c < CLASSES && p.heads[a][c] != 0
    ensures ListAt(m, a, c) != [] && ListAt(m, a, c)[0] == p.heads[a][c] && p.heads[a][c] in m.place
    ensures m.place[p.heads[a][c]] == OnList(a, c)
    ensures WordOf(p, p.heads[a][c]) == From(ListAt(m, a, c), 1) && p.size[p.heads[a][c]] >= ClassSize(c)
    ensures p.heads[a][c] !in p.live
  {
    assert Threaded(p.word, HeadAt(p, a, c), ListAt(m, a, c));
    assert From(ListAt(m, a, c), 0) in ListAt(m, a, c);
  }

  lemma TakenThreads(p: Pool, m: Map, a: nat, c: nat, len: int, p': Pool, m': Map, b: nat, d: nat)
    requires Owned(p, m) && a < |p.heads| && c < CLASSES && p.heads[a][c] != 0 && ListAt(m, a, c) != []
    requires m' == TakenFromList(m, a, c)
    requires p' == GiveOut(p.(heads := p.heads[a := p.heads[a][c := WordOf(p, p.heads[a][c])]]), p.heads[a][c], len)
    ensures Threaded(p'.word, HeadAt(p', b, d), ListAt(m', b, d)) && NoDuplicates(ListAt(m', b, d))
  {
    HeadOfList(p, m, a, c);
    ListAfter(m, m', a, c, m.lists[a][c][1..]);
    assert Threaded(p.word, HeadAt(p, b, d), ListAt(m, b, d)) && NoDuplicates(ListAt(m, b, d));
    if b == a && d == c {
      ThreadedRest(p.word, HeadAt(p, a, c), ListAt(m, a, c), 0);
    } else {
      assert p.heads[a][c] !in ListAt(m, b, d);
      ThreadedOther(p.word, HeadAt(p, b, d), ListAt(m, b, d), p.heads[a][c], 0);
    }
  }

  lemma TakesFromList(p: Pool, m: Map, a: nat, c: nat, len: int)
    requires Owned(p, m) && a < |p.heads| && c < CLASSES && p.heads[a][c] != 0
    ensures var mem := p.heads[a][c];
      && ListAt(m, a, c) != []
      && Owned(GiveOut(p.(heads := p.heads[a := p.heads[a][c := WordOf(p, mem)]]), mem, len), TakenFromList(m, a, c))
  {
    HeadOfList(p, m, a, c);
    var mem, m' := p.heads[a][c], TakenFromList(m, a, c);
    var p' := GiveOut(p.(heads := p.heads[a := p.heads[a][c := WordOf(p, mem)]]), mem, len);
    ListAfter(m, m', a, c, m.lists[a][c][1..]);
    forall b, d ensures Threaded(p'.word, HeadAt(p', b, d), ListAt(m', b, d)) && NoDuplicates(ListAt(m', b, d)) {
      TakenThreads(p, m, a, c, len, p', m', b, d);
    }
    RestLoses(ListAt(m, a, c));
    ChunksStay(p, p', m, m', mem, Live);
    forall x | x in m'.place ensures InPlace(p', m', x) { assert InPlace(p, m, x) || x == mem; }
    forall b, d, x | x in ListAt(m', b, d) ensures ListIs(m', b, d, x) { assert ListIs(m, b, d, x); }
  }

  lemma RestLoses(list: seq<Addr>)
    requires NoDuplicates(list) && list != []
    ensures forall x :: x in list[1..] <==> x in list && x != list[0]
  {}

  // ----- Malloc -----

  lemma Mallocs(p: Pool, m: Map, len: int, room: Addr)
    requires Owned(p, m) && room != 0 && room !in p.size
    ensures Owned(Malloc(p, len, room), m.(place := m.place[room := Live]))
  {
    var p', m' := Malloc(p, len, room), m.(place := m.place[room := Live]);
    forall b, d ensures Threaded(p'.word, HeadAt(p', b, d), ListAt(m', b, d)) && NoDuplicates(ListAt(m', b, d)) {
      assert ListAt(m', b, d) == ListAt(m, b, d);
      assert room !in ListAt(m, b, d);
      ThreadedOther(p.word, HeadAt(p, b, d), ListAt(m, b, d), room, 0);
    }
    ChunksStay(p, p', m, m', room, Live);
    forall b, d, x | x in ListAt(m', b, d) ensures ListIs(m', b, d, x) {
      assert ListAt(m', b, d) == ListAt(m, b, d);
      assert ListIs(m, b, d, x);
    }
    forall x | x in m'.place ensures InPlace(p', m', x) {
      if x != room {
        assert InPlace(p, m, x);
        if m.place[x].OnList? {
          assert ListAt(m', m.place[x].a, m.place[x].c) == ListAt(m, m.place[x].a, m.place[x].c);
        }
      }
    }
  }

  // ----- Putting a block on a list -----

  function Returned(m: Map, a: nat, c: nat, buff: Addr): Map
    requires a < |m.lists| && c < |m.lists[a]|
  {
    Map(SetList(m, a, c, [buff] + m.lists[a][c]), m.place[buff := OnList(a, c)])
  }

  function PutOnList(p: Pool, a: nat, c: nat, buff: Addr): Pool
    requires WellFormed(p) && a < |p.heads| && c < CLASSES
  {
    p.(live := p.live - {buff}, word := p.word[buff := p.heads[a][c]], heads := p.heads[a := p.heads[a][c := buff]])
  }

  lemma PutThreads(p: Pool, m: Map, a: nat, c: nat, buff: Addr, b: nat, d: nat)
    requires Owned(p, m) && a < |p.heads| && c < CLASSES && buff in p.live
    ensures var p', m' := PutOnList(p, a, c, buff), Returned(m, a, c, buff);
      Threaded(p'.word, HeadAt(p', b, d), ListAt(m', b, d)) && NoDuplicates(ListAt(m', b, d))
  {
    ListAfter(m, Returned(m, a, c, buff), a, c, [buff] + m.lists[a][c]);
    assert Threaded(p.word, HeadAt(p, b, d), ListAt(m, b, d)) && NoDuplicates(ListAt(m, b, d));
    assert buff !in ListAt(m, b, d);
    if b == a && d == c {
      ThreadedCons(p.word, p.heads[a][c], ListAt(m, a, c), buff);
    } else {
      ThreadedOther(p.word, HeadAt(p, b, d), ListAt(m, b, d), buff, p.heads[a][c]);
    }
  }

  lemma PutsOnList(p: Pool, m: Map, a: nat, c: nat, buff: Addr)
    requires Owned(p, m) && a < |p.heads| && c < CLASSES && buff in p.live && p.size[buff] >= ClassSize(c)
    ensures Owned(PutOnList(p, a, c, buff), Returned(m, a, c, buff))
  {
    var p', m' := PutOnList(p, a, c, buff), Returned(m, a, c, buff);
    ListAfter(m, m', a, c, [buff] + m.lists[a][c]);
    forall b: nat, d: nat
      ensures Threaded(p'.word, HeadAt(p', b, d), ListAt(m', b, d)) && NoDuplicates(ListAt(m', b, d))
    {
      PutThreads(p, m, a, c, buff, b, d);
    }
    ChunksStay(p, p', m, m', buff, OnList(a, c));
    forall x | x in m'.place ensures InPlace(p', m', x) { assert InPlace(p, m, x); }
  }

  // ----- Chunks -----

  lemma PutsInChunks(p: Pool, m: Map, a: nat, key: int, buff: Addr)
    requires Owned(p, m) && a < |p.chunks| && key !in p.chunks[a] && buff in p.live && p.size[buff] >= key
    ensures Owned(p.(live := p.live - {buff}, chunks := p.chunks[a := p.chunks[a][key := buff]]),
      m.(place := m.place[buff := InChunks(a, key)]))
  {
    var p', m' := p.(live := p.live - {buff}, chunks := p.chunks[a := p.chunks[a][key := buff]]),
      m.(place := m.place[buff := InChunks(a, key)]);
    forall b, d ensures Threaded(p'.word, HeadAt(p', b, d), ListAt(m', b, d)) && NoDuplicates(ListAt(m', b, d)) {
      assert Threaded(p.word, HeadAt(p, b, d), ListAt(m, b, d)) && ListAt(m', b, d) == ListAt(m, b, d);
    }
    forall b, d, x | x in ListAt(m', b, d) ensures ListIs(m', b, d, x) {
      assert ListAt(m', b, d) == ListAt(m, b, d);
      assert ListIs(m, b, d, x);
    }
    forall b: nat, k | k in ChunksAt(p', b) ensures ChunkIs(m', b, k, ChunksAt(p', b)[k]) {
      assert !(b == a && k == key) ==> k in ChunksAt(p, b) && ChunkIs(m, b, k, ChunksAt(p, b)[k]);
    }
    forall x | x in m'.place ensures InPlace(p', m', x) {
      assert InPlace(p, m, x);
      if x != buff && m.place[x].OnList? {
        assert ListAt(m', m.place[x].a, m.place[x].c) == ListAt(m, m.place[x].a, m.place[x].c);
      }
    }
  }

  /** A chunk that is given out stays in its map, so it is in two places. */
  lemma ChunkIsInTwoPlaces(p: Pool, m: Map, a: nat, key: int, len: int)
    requires Owned(p, m) && a < |p.chunks| && key in p.chunks[a]
    ensures !Partitioned(GiveOut(p, p.chunks[a][key], len))
  {
    var p', mem := GiveOut(p, p.chunks[a][key], len), p.chunks[a][key];
    assert key in ChunksAt(p', a) && mem in p'.live;
    forall m' | Owned(p', m') ensures false {}
  }

  /** The heads and the first words determine the lists. */
  lemma {:induction false} SamePath(word: map<Addr, Addr>, head: Addr, l1: seq<Addr>, l2: seq<Addr>, i: nat)
    requires Threaded(word, head, l1) && Threaded(word, head, l2)
    ensures i <= |l1| ==> i <= |l2| && From(l1, i) == From(l2, i)
  {
    if 0 < i <= |l1| {
      SamePath(word, head, l1, l2, i - 1);
      assert From(l1, i - 1) != 0;
    }
  }

  lemma ListsAreDetermined(word: map<Addr, Addr>, head: Addr, l1: seq<Addr>, l2: seq<Addr>)
    requires Threaded(word, head, l1) && Threaded(word, head, l2)
    ensures l1 == l2
  {
    SamePath(word, head, l1, l2, |l1|);
    SamePath(word, head, l2, l1, |l2|);
    forall i | 0 <= i < |l1| ensures l1[i] == l2[i] { SamePath(word, head, l1, l2, i); }
  }

  /** A block freed with a length that is already in the map is dropped, so it is in no place. */
  lemma DroppedBlockIsNowhere(p: Pool, m: Map, buff: Addr)
    requires Owned(p, m) && buff in p.live
    ensures !Partitioned(p.(live := p.live - {buff}))
  {
    var p' := p.(live := p.live - {buff});
    assert forall a, c :: buff !in ListAt(m, a, c);
    forall a: nat, key | key in ChunksAt(p, a) ensures ChunksAt(p, a)[key] != buff {
      assert ChunkIs(m, a, key, ChunksAt(p, a)[key]);
    }
    assert forall a: nat {:trigger ChunksAt(p', a)} :: ChunksAt(p', a) == ChunksAt(p, a);
    forall m' | Owned(p', m') ensures false {
      assert InPlace(p', m', buff);
      if m'.place[buff].OnList? {
        var a, c := m'.place[buff].a, m'.place[buff].c;
        assert buff !in ListAt(m, a, c);
        assert Threaded(p'.word, HeadAt(p', a, c), ListAt(m', a, c)) &&
          Threaded(p.word, HeadAt(p, a, c), ListAt(m, a, c));
        ListsAreDetermined(p.word, HeadAt(p, a, c), ListAt(m, a, c), ListAt(m', a, c));
      }
    }
  }

  // ----- Allocation and deallocation -----

  /** The request is answered out of a map of chunks. */
  ghost predicate ReusesChunk(p: Pool, len: int, got: seq<bool>)
    requires WellFormed(p) && |got| == |p.heads|
  {
    len > K2 && exists a :: 0 <= a < |got| && got[a] && Serves(p, a, Standard(len).0, -1)
  }

  /** Allocation keeps every block in one place exactly when it does not answer out of a map of
      chunks. */
  lemma AllocateKeepsPartitionIff(p: Pool, len: int, got: seq<bool>, room: Addr)
    requires Partitioned(p) && |got| == |p.heads| && room != 0 && room !in p.size
    ensures Partitioned(Allocate(p, len, got, room).0) <==> !ReusesChunk(p, len, got)
  {
    var m :| Owned(p, m);
    StandardCovers(len, len);
    var std, c := Standard(len).0, Standard(len).1;
    var a := FirstServing(p, std, c, got, 0);
    if a == |got| {
      Mallocs(p, m, std, room);
    } else if c >= 0 {
      TakesFromList(p, m, a, c, std);
    } else {
      ChunkIsInTwoPlaces(p, m, a, LowerBound(p.chunks[a], std), std);
    }
  }

  /** The length of the map where a freed block would go is taken. */
  predicate DropsChunk(p: Pool, len: int, misses: nat)
    requires WellFormed(p)
  {
    len > K2 && Standard(len).0 in p.chunks[ArenaAfter(|p.heads|, misses)]
  }

  /** Deallocation, with a length whose standard length fits the block, keeps every block in one
      place exactly when it does not drop it. */
  lemma DeallocateKeepsPartitionIff(p: Pool, buff: Addr, len: int, misses: nat)
    requires Partitioned(p) && buff in p.live && buff in p.size && Standard(len).0 <= p.size[buff]
    ensures Partitioned(Deallocate(p, buff, len, misses)) <==> !DropsChunk(p, len, misses)
  {
    var m :| Owned(p, m);
    StandardCovers(len, len);
    var std, c, a := Standard(len).0, Standard(len).1, ArenaAfter(|p.heads|, misses);
    if c >= 0 {
      PutsOnList(p, m, a, c, buff);
      assert Deallocate(p, buff, len, misses) == PutOnList(p, a, c, buff);
    } else if std in p.chunks[a] {
      DroppedBlockIsNowhere(p, m, buff);
    } else {
      PutsInChunks(p, m, a, std, buff);
    }
  }

  /** The block x is the same in p and p'. */
  predicate Untouched(p: Pool, p': Pool, x: Addr) {
    WordOf(p', x) == WordOf(p, x) && BodyOf(p', x) == BodyOf(p, x) &&
      (x in p.size ==> x in p'.size && p'.size[x] == p.size[x])
  }

  /** The first len bytes of x are zero. */
  predicate IsZero(p: Pool, x: Addr, len: int) {
    WordOf(p, x) == 0 && WordsBehind(len) <= |BodyOf(p, x)| &&
      forall i :: 0 <= i < WordsBehind(len) ==> BodyOf(p, x)[i] == 0
  }

  lemma WordsFillLength(len: int)
    ensures Standard(len).0 == 8 * (WordsBehind(Standard(len).0) + 1)
  {}

  lemma GivenOut(p: Pool, mem: Addr, len: int)
    ensures IsZero(GiveOut(p, mem, len), mem, len) && forall x :: x != mem ==> Untouched(p, GiveOut(p, mem, len), x)
  {}

  /** A block that is given out, not out of a map of chunks, was not in use, has room for the
      request, is zero throughout that room, and is the only block that changes. */
  lemma AllocateGivesAFreeBlock(p: Pool, len: int, got: seq<bool>, room: Addr)
    requires Partitioned(p) && |got| == |p.heads| && room != 0 && room !in p.size && !ReusesChunk(p, len, got)
    ensures var (p', mem) := Allocate(p, len, got, room);
      && mem != 0 && mem !in p.live && p'.live == p.live + {mem}
      && mem in p'.size && p'.size[mem] >= Standard(len).0 >= len
      && IsZero(p', mem, Standard(len).0) && Standard(len).0 == 8 * (WordsBehind(Standard(len).0) + 1)
      && forall x :: x in p.live ==> Untouched(p, p', x)
  {
    var m :| Owned(p, m);
    assert forall x :: x in p.live ==> x in m.place;
    StandardCovers(len, len);
    WordsFillLength(len);
    hide IsZero, Cleared, WordsBehind;
    var std, c := Standard(len).0, Standard(len).1;
    var a := FirstServing(p, std, c, got, 0);
    if a < |got| {
      assert c >= 0;
      var mem := p.heads[a][c];
      HeadOfList(p, m, a, c);
      GivenOut(p.(heads := p.heads[a := p.heads[a][c := WordOf(p, mem)]]), mem, std);
    } else {
      GivenOut(p.(size := p.size[room := std]), room, std);
    }
  }

  // ----- Which block answers -----

  /** The class of a request up to 65536 bytes: the first of these lengths that fits. */
  predicate InClass(len: int, c: nat) {
    var sizes := [8, 32, 128, 512, 32768, 65536];
    c < |sizes| && len <= sizes[c] && (c > 0 ==> len > sizes[c - 1])
  }

  /** The arena a is the first whose lock is free and whose list c has a block; |got| is none. */
  predicate FirstWithBlock(p: Pool, got: seq<bool>, c: nat, a: nat)
    requires WellFormed(p) && |got| == |p.heads| && c < CLASSES
  {
    && a <= |got| && (a < |got| ==> got[a] && p.heads[a][c] != 0)
    && forall b :: 0 <= b < a ==> !got[b] || p.heads[b][c] == 0
  }

  lemma {:induction false} FirstServingIs(p: Pool, len: int, c: int, got: seq<bool>, from: nat, a: nat)
    requires WellFormed(p) && |got| == |p.heads| && from <= a <= |got| && -1 <= c < CLASSES
    requires forall b :: from <= b < a ==> !(got[b] && Serves(p, b, len, c))
    requires a < |got| ==> got[a] && Serves(p, a, len, c)
    ensures FirstServing(p, len, c, got, from) == a
    decreases a - from
  {
    if from < a { FirstServingIs(p, len, c, got, from + 1, a); }
  }

  /** A request of at most 512 bytes is answered with the first block of the list of its class
      in the first arena that has one and whose lock is free; the next block is then first, and
      malloc is not asked.  If there is none, malloc answers, and no list changes. */
  lemma SmallRequestsReuse(p: Pool, len: int, got: seq<bool>, room: Addr, c: nat, a: nat)
    requires WellFormed(p) && |got| == |p.heads| && len <= 512 && InClass(len, c) && FirstWithBlock(p, got, c, a)
    ensures var (p', mem) := Allocate(p, len, got, room);
      && p'.chunks == p.chunks && p'.live == p.live + {mem}
      && (a < |got| ==> mem == p.heads[a][c] && p'.size == p.size)
      && (a < |got| ==> p'.heads == p.heads[a := p.heads[a][c := WordOf(p, mem)]])
      && (a == |got| ==> mem == room && p'.heads == p.heads && p'.size == p.size[room := [8, 32, 128, 512][c]])
  {
    hide Cleared, WordsBehind;
    FirstServingIs(p, Standard(len).0, c, got, 0, a);
  }

  /** From 513 bytes to 65536 malloc always answers, whatever is on the lists: with constants in
      which 4K is below 1K, blocks of these classes are given back and never given out again. */
  lemma MiddleRequestsNeverReuse(p: Pool, len: int, got: seq<bool>, room: Addr)
    requires WellFormed(p) && |got| == |p.heads| && 512 < len <= 65536
    ensures var (p', mem) := Allocate(p, len, got, room);
      && mem == room && p'.heads == p.heads && p'.chunks == p.chunks && p'.live == p.live + {room}
      && p'.size == p.size[room := if len <= 32768 then 32768 else 65536]
  {
    var (std, c) := Standard(len);
    var a := FirstServing(p, std, c, got, 0);
    assert a < |got| ==> Serves(p, a, std, c);
  }

  /** The smallest chunk of at least std bytes is at x, which is not null. */
  ghost predicate SmallestChunk(chunks: map<int, Addr>, std: int, x: Addr) {
    x != 0 && exists key :: IsLowerBound(chunks, std, key) && chunks[key] == x
  }

  /** Above 65536 bytes, the first arena whose lock is free and that has a chunk of at least the
      length rounded up to a multiple of 4096 answers with its smallest such chunk, and keeps it;
      if there is none, malloc answers. */
  lemma LargeRequestsShare(p: Pool, len: int, std: int, got: seq<bool>, room: Addr, a: nat, x: Addr)
    requires WellFormed(p) && |got| == |p.heads| && len > 65536 && len <= std < len + 4096 && std % 4096 == 0
    requires a <= |got| && (a < |got| ==> got[a] && SmallestChunk(p.chunks[a], std, x))
    requires forall b, y :: 0 <= b < a && got[b] ==> !SmallestChunk(p.chunks[b], std, y)
    ensures var (p', mem) := Allocate(p, len, got, room);
      && p'.heads == p.heads && p'.chunks == p.chunks && p'.live == p.live + {mem}
      && (a < |got| ==> mem == x && p'.size == p.size)
      && (a == |got| ==> mem == room && p'.size == p.size[room := std])
  {
    RoundsUp(len);
    assert Standard(len) == (std, -1);
    assert forall b :: 0 <= b < |got| && Serves(p, b, std, -1) ==>
      SmallestChunk(p.chunks[b], std, p.chunks[b][LowerBound(p.chunks[b], std)]);
    assert a < |got| ==> HasChunk(p.chunks[a], std);
    FirstServingIs(p, std, -1, got, 0, a);
  }

  /** A freed block of a class becomes the first of its list in the arena the try_locks lead to
      and points at the block that was first. */
  lemma FreedBlocksGoFirst(p: Pool, buff: Addr, len: int, misses: nat, c: nat)
    requires WellFormed(p) && InClass(len, c)
    ensures var (p', a) := (Deallocate(p, buff, len, misses), misses % |p.heads|);
      && p'.live == p.live - {buff} && p'.size == p.size && p'.body == p.body && p'.chunks == p.chunks
      && p'.heads == p.heads[a := p.heads[a][c := buff]]
      && p'.word == p.word[buff := p.heads[a][c]]
  {}

  /** Above 65536 bytes it joins the chunks there under its standard length, unless that is
      taken. */
  lemma FreedChunksAreKept(p: Pool, buff: Addr, len: int, std: int, misses: nat)
    requires WellFormed(p) && len > 65536 && len <= std < len + 4096 && std % 4096 == 0
    ensures var (p', a) := (Deallocate(p, buff, len, misses), misses % |p.heads|);
      && p'.live == p.live - {buff} && p'.size == p.size && p'.body == p.body && p'.word == p.word
      && p'.heads == p.heads && p'.chunks == p.chunks[a := map[std := buff] + p.chunks[a]]
  {
    RoundsUp(len);
    assert Standard(len) == (std, -1);
    var chunks := p.chunks[misses % |p.heads|];
    assert map[std := buff] + chunks == if std in chunks then chunks else chunks[std := buff];
  }

  /** What is freed last is given out first: with no block of the class in the arenas before it
      that can be asked, the next request of the class takes the freed block, and every list is
      as it was. */
  lemma FreedLastGivenFirst(p: Pool, buff: Addr, len: int, misses: nat, len': int, got: seq<bool>, room: Addr, c: nat)
    requires WellFormed(p) && |got| == |p.heads| && buff != 0
    requires len <= 512 && len' <= 512 && InClass(len, c) && InClass(len', c)
    requires got[misses % |got|] && forall b :: 0 <= b < misses % |got| ==> !got[b] || p.heads[b][c] == 0
    ensures var (p', mem) := Allocate(Deallocate(p, buff, len, misses), len', got, room);
      mem == buff && p'.heads == p.heads && p'.chunks == p.chunks && p'.size == p.size
  {
    FreedBlocksGoFirst(p, buff, len, misses, c);
    hide Deallocate;
    var q, a := Deallocate(p, buff, len, misses), misses % |got|;
    SmallRequestsReuse(q, len', got, room, c, a);
    assert q.heads[a][c := p.heads[a][c]] == p.heads[a];
  }

  // ----- Runs -----

  /** Write is a client storing into word i of a block it holds. */
  datatype Action =
    | Alloc(len: int, got: seq<bool>, room: Addr)
    | Free(buff: Addr, len: int, misses: nat)
    | Write(x: Addr, i: nat, v: int)

  /** Requests may have any length, and any lock may be free, but no request is answered out of
      a map of chunks and no freed block is dropped.  A block is freed with a length whose
      standard length fits it. */
  ghost predicate Allowed(p: Pool, a: Action) {
    WellFormed(p) &&
    match a
    case Alloc(len, got, room) => |got| == |p.heads| && room != 0 && room !in p.size && !ReusesChunk(p, len, got)
    case Free(buff, len, misses) => buff in p.live && buff in p.size && Standard(len).0 <= p.size[buff] &&
      !DropsChunk(p, len, misses)
    case Write(x, _, _) => x in p.live
  }

  function SetWord(p: Pool, x: Addr, i: nat, v: int): Pool {
    if i == 0 then p.(word := p.word[x := v])
    else if i - 1 < |BodyOf(p, x)| then p.(body := p.body[x := BodyOf(p, x)[i - 1 := v]])
    else p
  }

  ghost function Do(p: Pool, a: Action): Pool
    requires Allowed(p, a)
  {
    match a
    case Alloc(len, got, room) => Allocate(p, len, got, room).0
    case Free(buff, len, misses) => Deallocate(p, buff, len, misses)
    case Write(x, i, v) => SetWord(p, x, i, v)
  }

  /** The pool of so many arenas after a sequence of actions; actions that are not allowed are
      skipped. */
  ghost function After(cores: nat, acts: seq<Action>): Pool
    decreases |acts|
  {
    if acts == [] then Init(cores)
    else
      var p := After(cores, acts[..|acts| - 1]);
      if Allowed(p, acts[|acts| - 1]) then Do(p, acts[|acts| - 1]) else p
  }

  /** What a map says about a pool does not depend on the bodies of the blocks. */
  lemma BodiesDoNotMatter(p: Pool, m: Map, body: map<Addr, seq<int>>)
    requires Owned(p, m)
    ensures Owned(p.(body := body), m)
  {
    var p' := p.(body := body);
    forall b, d ensures Threaded(p'.word, HeadAt(p', b, d), ListAt(m, b, d)) && NoDuplicates(ListAt(m, b, d)) {
      assert Threaded(p.word, HeadAt(p, b, d), ListAt(m, b, d));
    }
    forall x | x in m.place ensures InPlace(p', m, x) { assert InPlace(p, m, x); }
    forall a: nat, key | key in ChunksAt(p', a) ensures ChunkIs(m, a, key, ChunksAt(p', a)[key]) {
      assert key in ChunksAt(p, a);
    }
  }

  lemma Writes(p: Pool, x: Addr, i: nat, v: int)
    requires Partitioned(p) && x in p.live
    ensures Partitioned(SetWord(p, x, i, v))
  {
    var m :| Owned(p, m);
    if i == 0 {
      WritesFirst(p, m, x, v);
    } else if i - 1 < |BodyOf(p, x)| {
      BodiesDoNotMatter(p, m, p.body[x := BodyOf(p, x)[i - 1 := v]]);
    }
  }

  lemma WritesFirst(p: Pool, m: Map, x: Addr, v: Addr)
    requires Owned(p, m) && x in p.live
    ensures Owned(p.(word := p.word[x := v]), m)
  {
    var p' := p.(word := p.word[x := v]);
    forall b, d ensures Threaded(p'.word, HeadAt(p', b, d), ListAt(m, b, d)) && NoDuplicates(ListAt(m, b, d)) {
      assert x !in ListAt(m, b, d);
      ThreadedOther(p.word, HeadAt(p, b, d), ListAt(m, b, d), x, v);
    }
    forall y | y in m.place ensures InPlace(p', m, y) { assert InPlace(p, m, y); }
    assert ChunksAreChunks(p', m) by {
      forall a: nat, key | key in ChunksAt(p', a) ensures ChunkIs(m, a, key, ChunksAt(p', a)[key]) {
        assert key in ChunksAt(p, a);
      }
    }
  }

  function First(a: nat, c: nat): Addr { 1 + CLASSES * a + c }

  function InitMap(cores: nat): Map {
    Map(seq(cores, a requires 0 <= a => seq(CLASSES, c requires 0 <= c => [First(a, c)])),
        map x | x in FirstBlocks(CLASSES * cores) :: OnList((x - 1) / CLASSES, (x - 1) % CLASSES))
  }

  lemma InitLists(cores: nat, a: nat, c: nat)
    ensures ListAt(InitMap(cores), a, c) == if a < cores && c < CLASSES then [First(a, c)] else []
    ensures HeadAt(Init(cores), a, c) == if a < cores && c < CLASSES then First(a, c) else 0
  {}

  lemma FirstIsOnList(cores: nat, a: nat, c: nat)
    requires a < cores && c < CLASSES
    ensures First(a, c) in FirstBlocks(CLASSES * cores) && (First(a, c) - 1) / CLASSES == a
    ensures (First(a, c) - 1) % CLASSES == c
  {}

  lemma OnListIsFirst(cores: nat, x: Addr)
    requires x in FirstBlocks(CLASSES * cores)
    ensures var a, c := (x - 1) / CLASSES, (x - 1) % CLASSES; 0 <= a < cores && 0 <= c < CLASSES && x == First(a, c)
  {}

  lemma InitThreads(cores: nat)
    requires cores > 0
    ensures AllThreaded(Init(cores), InitMap(cores)) && ListedAreListed(InitMap(cores))
  {
    var p, m := Init(cores), InitMap(cores);
    forall a: nat, c: nat ensures Threaded(p.word, HeadAt(p, a, c), ListAt(m, a, c)) && NoDuplicates(ListAt(m, a, c)) {
      InitLists(cores, a, c);
      if a < cores && c < CLASSES { FirstIsOnList(cores, a, c); }
    }
    forall a: nat, c: nat, x | x in ListAt(m, a, c) ensures ListIs(m, a, c, x) {
      InitLists(cores, a, c);
      FirstIsOnList(cores, a, c);
    }
  }

  /** A fresh pool has one block of the right length on every list. */
  lemma InitHasOneOfEach(cores: nat, a: nat, c: nat)
    requires a < cores && c < CLASSES
    ensures var p := Init(cores);
      && p.heads[a][c] != 0 && WordOf(p, p.heads[a][c]) == 0 && p.heads[a][c] in p.size
      && p.size[p.heads[a][c]] == [8, 32, 128, 512, 32768, 65536, 4096, 8192, 16384, 32768, 65536][c]
      && p.live == {} && forall k :: k in p.chunks ==> k == map[]
  {
    FirstIsOnList(cores, a, c);
  }

  lemma InitIsPartitioned(cores: nat)
    requires cores > 0
    ensures Partitioned(Init(cores))
  {
    var p, m := Init(cores), InitMap(cores);
    InitThreads(cores);
    forall x | x in m.place ensures InPlace(p, m, x) {
      OnListIsFirst(cores, x);
      InitLists(cores, (x - 1) / CLASSES, (x - 1) % CLASSES);
    }
    assert Owned(p, m);
  }

  /** In every run, with requests of any length, whatever locks are free and wherever blocks are
      freed, as long as no chunk is reused and none dropped, every block is in one place: clients
      hold it, or it is in one map, or once on one list, which ends. */
  lemma {:induction false} BlocksArePartitioned(cores: nat, acts: seq<Action>)
    requires cores > 0
    ensures Partitioned(After(cores, acts))
    decreases |acts|
  {
    if acts == [] {
      InitIsPartitioned(cores);
    } else {
      var p, a := After(cores, acts[..|acts| - 1]), acts[|acts| - 1];
      BlocksArePartitioned(cores, acts[..|acts| - 1]);
      if Allowed(p, a) {
        match a
        case Alloc(len, got, room) => AllocateKeepsPartitionIff(p, len, got, room);
        case Free(buff, len, misses) => DeallocateKeepsPartitionIff(p, buff, len, misses);
        case Write(x, i, v) => Writes(p, x, i, v);
      }
    }
  }

  // ----- Above 64K -----

  const BIG := 70000

  /** One arena whose lock is always free: a chunk is allocated and given back. */
  function FreedOnce(room: Addr): seq<Action> {
    [Alloc(BIG, [true], room), Free(room, BIG, 0)]
  }

  lemma AfterOneAlloc(room: Addr)
    requires room > CLASSES
    ensures After(1, [Alloc(BIG, [true], room)]) == Malloc(Init(1), Standard(BIG).0, room) && Init(1).chunks == [map[]]
  {
    var acts := [Alloc(BIG, [true], room)];
    assert acts[..0] == [];
    assert After(1, []) == Init(1);
    assert Init(1).chunks == [map[]];
    assert !HasChunk(Init(1).chunks[0], Standard(BIG).0);
  }

  lemma AfterFreedOnce(room: Addr)
    requires room > CLASSES
    ensures var p := After(1, FreedOnce(room));
      && Partitioned(p) && p.chunks == [map[Standard(BIG).0 := room]] && |p.heads| == 1 && p.live == {}
      && forall x :: x in p.size ==> x <= CLASSES || x == room
  {
    var p := Malloc(Init(1), Standard(BIG).0, room);
    AfterOneAlloc(room);
    assert FreedOnce(room)[..1] == [Alloc(BIG, [true], room)];
    assert After(1, FreedOnce(room)) == Deallocate(p, room, BIG, 0);
    BlocksArePartitioned(1, FreedOnce(room));
  }

  /** Then the chunk is given to one client and, while that holds it, to another. */
  lemma ChunksAreGivenOutTwice(room: Addr, more: Addr, other: Addr)
    requires room > CLASSES
    ensures exists acts :: var p := After(1, acts);
      && Partitioned(p) && |p.heads| == 1 && ReusesChunk(p, BIG, [true])
      && (var (p', mem) := Allocate(p, BIG, [true], more);
          |p'.heads| == |p'.chunks| == 1 && |p'.heads[0]| == CLASSES && mem in p'.live &&
            Allocate(p', BIG, [true], other).1 == mem)
  {
    AfterFreedOnce(room);
    var p, std := After(1, FreedOnce(room)), Standard(BIG).0;
    assert std in p.chunks[0];
    assert LowerBound(p.chunks[0], std) == std;
    assert Serves(p, 0, std, -1);
    var (p', mem) := Allocate(p, BIG, [true], more);
    assert mem == room && p'.chunks == p.chunks;
    assert Serves(p', 0, std, -1);
  }

  /** A second block freed with the length of a chunk that is in the map is in no place any more. */
  lemma ChunksAreDropped(room: Addr, more: Addr)
    requires room > CLASSES && more > CLASSES && room != more
    ensures exists acts, buff :: var p := After(1, acts);
      && Partitioned(p) && buff in p.live && buff in p.size && Standard(BIG).0 <= p.size[buff]
      && DropsChunk(p, BIG, 0) && !Partitioned(Deallocate(p, buff, BIG, 0))
  {
    var acts := FreedOnce(room) + [Alloc(BIG, [false], more)];
    AfterFreedOnce(room);
    assert acts[..2] == FreedOnce(room);
    var p0 := After(1, FreedOnce(room));
    assert more !in p0.size;
    var p := After(1, acts);
    BlocksArePartitioned(1, acts);
    DeallocateKeepsPartitionIff(p, more, BIG, 0);
  }
}
