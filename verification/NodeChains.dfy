/** The nodes of the linked queues. */
module NodeChains {
  import opened Linearizability

  /** Nodes are never reused, so a node is named by the push that allocated it; every chain
      starts with a dummy of its own. */
  datatype Node = Null | Dummy(k: nat) | Elem(t: OpId, data: Value)

  /** The value of a link; a node that was never allocated has none. */
  function Of(links: map<Node, Node>, n: Node): Node {
    if n in links then links[n] else Null
  }

  /** k steps along the links from n. */
  function Along(links: map<Node, Node>, n: Node, k: nat): Node
    decreases k
  {
    if k == 0 then n else Along(links, Of(links, n), k - 1)
  }

  ghost predicate LeadsTo(links: map<Node, Node>, n: Node, m: Node) {
    exists k :: Along(links, n, k) == m
  }

  function Following(chain: seq<Node>, i: nat): Node {
    if i + 1 < |chain| then chain[i + 1] else Null
  }

  function Data(n: Node): seq<Value> {
    if n.Elem? then [n.data] else []
  }

  /** The elements in a row of nodes. */
  function Values(nodes: seq<Node>): seq<Value>
    decreases |nodes|
  {
    if nodes == [] then [] else Values(nodes[..|nodes| - 1]) + Data(nodes[|nodes| - 1])
  }

  lemma {:induction false} ValuesConcat(a: seq<Node>, b: seq<Node>)
    ensures Values(a + b) == Values(a) + Values(b)
    decreases |b|
  {
    if b == [] {
      assert a + b == a;
    } else {
      assert (a + b)[..|a + b| - 1] == a + b[..|b| - 1];
      ValuesConcat(a, b[..|b| - 1]);
    }
  }

  lemma ValuesSlice(chain: seq<Node>, a: nat, b: nat, c: nat)
    requires a <= b <= c <= |chain|
    ensures Values(chain[a..c]) == Values(chain[a..b]) + Values(chain[b..c])
  {
    assert chain[a..c] == chain[a..b] + chain[b..c];
    ValuesConcat(chain[a..b], chain[b..c]);
  }

  /** The first element in the rest of a chain. */
  lemma ValuesFirst(chain: seq<Node>, b: nat)
    requires b < |chain| && chain[b].Elem?
    ensures Values(chain[b..]) == [chain[b].data] + Values(chain[b + 1..])
  {
    assert chain[b..] == [chain[b]] + chain[b + 1..];
    ValuesConcat([chain[b]], chain[b + 1..]);
    assert [chain[b]][..0] == [];
  }

  lemma ValuesLast(chain: seq<Node>, b: nat, n: Node)
    requires b <= |chain| && n.Elem?
    ensures Values((chain + [n])[b..]) == Values(chain[b..]) + [n.data]
  {
    assert (chain + [n])[b..] == chain[b..] + [n];
    assert (chain[b..] + [n])[..|chain[b..] + [n]| - 1] == chain[b..];
  }

  lemma {:induction false} ValuesLength(nodes: seq<Node>)
    requires forall i :: 0 <= i < |nodes| ==> nodes[i].Elem?
    ensures |Values(nodes)| == |nodes|
    decreases |nodes|
  {
    if nodes != [] { ValuesLength(nodes[..|nodes| - 1]); }
  }

  lemma SeqAssoc(a: seq<Value>, b: seq<Value>, c: seq<Value>)
    ensures a + (b + c) == a + b + c
  {}
}
