/** The node pool of the red-black map: chunks of nodes, each in the tree or on the free list. */
module RbPool {
  import opened RbShape

  const NODE_CHUNK: nat := 1024

  /** The free list: nodes chained through their left links, without repetition. */
  ghost predicate FreeRep(m: Mem, head: Node?, f: seq<Node>) {
    if f == [] then head == null
    else head == f[0] && f[0] in m && f[0] !in f[1..] && FreeRep(m, m[f[0]].left, f[1..])
  }

  ghost function Members(f: seq<Node>): set<Node> {
    if f == [] then {} else {f[0]} + Members(f[1..])
  }

  /** Tree and free list share no node and together are the nodes of all chunks. */
  ghost predicate Pool(m: Mem, head: Node?, f: seq<Node>, used: set<Node>, chunks: nat) {
    && FreeRep(m, head, f)
    && Members(f) !! used && m.Keys == used + Members(f)
    && |m.Keys| == NODE_CHUNK * chunks
  }

  lemma {:induction false} MembersIn(f: seq<Node>)
    ensures forall n :: n in f <==> n in Members(f)
  {
    if f != [] {
      MembersIn(f[1..]);
      assert f == [f[0]] + f[1..];
    }
  }

  lemma {:induction false} MembersConcat(f: seq<Node>, g: seq<Node>)
    ensures Members(f + g) == Members(f) + Members(g)
  {
    if f == [] {
      assert f + g == g;
    } else {
      assert (f + g)[1..] == f[1..] + g;
      MembersConcat(f[1..], g);
    }
  }

  lemma {:induction false} FreeFrame(m: Mem, m': Mem, head: Node?, f: seq<Node>)
    requires FreeRep(m, head, f)
    requires forall n :: n in Members(f) ==> n in m && n in m' && m'[n] == m[n]
    ensures FreeRep(m', head, f)
  {
    if f != [] {
      FreeFrame(m, m', m[f[0]].left, f[1..]);
    }
  }

  /** The nodes of a chunk are chained and end in `head`. */
  ghost predicate Chained(m: Mem, chunk: seq<Node>, head: Node?) {
    chunk != [] ==>
      && chunk[0] in m && chunk[0] !in chunk[1..]
      && m[chunk[0]].left == (if |chunk| == 1 then head else chunk[1])
      && Chained(m, chunk[1..], head)
  }

  lemma {:induction false} ChainInFront(m: Mem, chunk: seq<Node>, head: Node?, f: seq<Node>)
    requires FreeRep(m, head, f) && Chained(m, chunk, head) && Members(chunk) !! Members(f)
    ensures FreeRep(m, if chunk == [] then head else chunk[0], chunk + f)
  {
    if chunk == [] {
      assert chunk + f == f;
    } else {
      ChainInFront(m, chunk[1..], head, f);
      assert (chunk + f)[1..] == chunk[1..] + f;
      MembersIn(f);
    }
  }

  lemma {:induction false} ChainSize(m: Mem, chunk: seq<Node>, head: Node?)
    requires Chained(m, chunk, head)
    ensures |Members(chunk)| == |chunk|
  {
    if chunk != [] {
      ChainSize(m, chunk[1..], head);
      MembersIn(chunk[1..]);
    }
  }

  /** A chained chunk of new nodes in front of the free list. */
  lemma PoolGrows(m: Mem, m': Mem, chunk: seq<Node>, head: Node?, f: seq<Node>, used: set<Node>, chunks: nat)
    requires Pool(m, head, f, used, chunks) && |chunk| == NODE_CHUNK
    requires m'.Keys == m.Keys + Members(chunk) && Members(chunk) !! m.Keys
    requires (forall n :: n in m ==> m'[n] == m[n]) && Chained(m', chunk, head)
    ensures Pool(m', chunk[0], chunk + f, used, chunks + 1)
  {
    hide Chained, FreeRep, Members;
    FreeFrame(m, m', head, f);
    ChainInFront(m', chunk, head, f);
    ChainSize(m', chunk, head);
    MembersConcat(chunk, f);
    assert |m'.Keys| == |m.Keys| + |Members(chunk)|;
  }

  /** Taking the first free node into use. */
  lemma PoolTake(m: Mem, m': Mem, head: Node?, f: seq<Node>, used: set<Node>, chunks: nat)
    requires Pool(m, head, f, used, chunks) && f != [] && SameOutside(m, m', used + {f[0]})
    ensures head == f[0] && f[0] in m && f[0] !in used
    ensures Pool(m', m[f[0]].left, f[1..], used + {f[0]}, chunks)
  {
    MembersIn(f[1..]);
    FreeFrame(m, m', m[f[0]].left, f[1..]);
  }

  /** Giving a used node back. */
  lemma PoolGive(m: Mem, m': Mem, head: Node?, f: seq<Node>, used: set<Node>, n: Node, chunks: nat)
    requires Pool(m, head, f, used, chunks) && n in used
    requires SameOutside(m, m', {n}) && m'[n].left == head
    ensures Pool(m', n, [n] + f, used - {n}, chunks)
  {
    var g := [n] + f;
    assert g[1..] == f;
    MembersIn(f);
    FreeFrame(m, m', head, f);
  }

  /** Writes to nodes in use do not touch the free list. */
  lemma PoolFrame(m: Mem, m': Mem, head: Node?, f: seq<Node>, used: set<Node>, chunks: nat)
    requires Pool(m, head, f, used, chunks) && SameOutside(m, m', used)
    ensures Pool(m', head, f, used, chunks)
  {
    FreeFrame(m, m', head, f);
  }

  /** The node after position `i` of a chunk, or `last` after the final one. */
  ghost function NextIn(chunk: seq<Node>, i: nat, last: Node?): Node?
    requires i < |chunk|
  {
    if i + 1 < |chunk| then chunk[i + 1] else last
  }

  lemma {:induction false} ChainBuilt(m: Mem, chunk: seq<Node>, k: nat, head: Node?)
    requires k <= |chunk|
    requires forall i :: 0 <= i < |chunk| ==> chunk[i] in m && m[chunk[i]].left == NextIn(chunk, i, head)
    requires forall i, j :: 0 <= i < j < |chunk| ==> chunk[i] != chunk[j]
    ensures Chained(m, chunk[k..], head)
    decreases |chunk| - k
  {
    if k < |chunk| {
      ChainBuilt(m, chunk, k + 1, head);
      var rest := chunk[k..];
      assert rest[0] == chunk[k] && rest[1..] == chunk[k + 1..];
    }
  }

  lemma FreeHead(m: Mem, head: Node?, f: seq<Node>, used: set<Node>, chunks: nat)
    requires Pool(m, head, f, used, chunks)
    ensures f == [] <==> head == null
    ensures f != [] ==> head == f[0] && f[0] in m && f[0] !in used
  {
  }
}
