/** The erasure code (wirehair) as an interface: four functions and the laws
    that hairgap relies on. A systematic code that needs all source blocks is
    given at the end as an instance that satisfies every law. */
module Erasure {
  import opened Wire
  import opened Arithmetic

  /** accepts: whether a state can be created for a message length and block size;
      symbol: the block generated for a message, block size and id;
      decodable: whether blocks with these ids suffice for this length and block size;
      recover: the message rebuilt from the blocks received. */
  datatype Code = Code(
    accepts: (nat, nat) -> bool,
    symbol: (bytes, nat, nat) -> bytes,
    decodable: (nat, nat, set<nat>) -> bool,
    recover: (nat, nat, map<nat, bytes>) -> bytes)

  /** Number of source blocks of a message. */
  function Blocks(len: nat, block: nat): nat
    requires block > 0
  {
    (len + block - 1) / block
  }

  /** Every block received is the one generated for that id. */
  ghost predicate Genuine(code: Code, m: bytes, block: nat, got: map<nat, bytes>) {
    forall id :: id in got ==> got[id] == code.symbol(m, block, id)
  }

  ghost predicate AcceptsRange(code: Code) {
    forall len: nat, block: nat | block > 0 && 2 <= Blocks(len, block) <= 64000 :: code.accepts(len, block)
  }

  ghost predicate FullBlocks(code: Code) {
    forall m: bytes, block: nat, id: nat :: |code.symbol(m, block, id)| == block
  }

  ghost predicate Monotone(code: Code) {
    forall len: nat, block: nat, ids: set<nat>, more: set<nat> ::
      code.decodable(len, block, ids) && ids <= more ==> code.decodable(len, block, more)
  }

  ghost predicate Recovers(code: Code) {
    forall m: bytes, block: nat, got: map<nat, bytes> ::
      block > 0 && Genuine(code, m, block, got) && code.decodable(|m|, block, got.Keys)
      ==> code.recover(|m|, block, got) == m
  }

  ghost predicate FullMessages(code: Code) {
    forall len: nat, block: nat, got: map<nat, bytes> :: |code.recover(len, block, got)| == len
  }

  ghost predicate Sound(code: Code) {
    AcceptsRange(code) && FullBlocks(code) && FullMessages(code) && Monotone(code) && Recovers(code)
  }

  /** The ids 0, 1, ..., n - 1. */
  function Ids(n: nat): (ids: set<nat>)
    ensures forall i :: i in ids <==> 0 <= i < n
  {
    if n == 0 then {} else Ids(n - 1) + {n - 1}
  }

  /** The extra law used only for lossless delivery: the first K blocks suffice. */
  ghost predicate SourceBlocksSuffice(code: Code) {
    forall len: nat, block: nat | block > 0 && 2 <= Blocks(len, block) <= 64000 ::
      code.decodable(len, block, Ids(Blocks(len, block)))
  }

  // ---- A concrete instance ----

  /** Block `id` of the message, padded with zeros; zeros beyond the message. */
  function Slice(m: bytes, block: nat, id: nat): (s: bytes)
    ensures |s| == block
  {
    var lo := id * block;
    if lo >= |m| then ZeroBytes(block)
    else if lo + block <= |m| then m[lo..lo + block]
    else m[lo..] + ZeroBytes(lo + block - |m|)
  }

  function Join(len: nat, block: nat, got: map<nat, bytes>): (m: bytes)
    ensures |m| == len
  {
    seq(len, i requires 0 <= i < len =>
      if block > 0 && i / block in got && i % block < |got[i / block]| then got[i / block][i % block] else 0)
  }

  function Systematic(): Code {
    Code(
      (len: nat, block: nat) => true,
      (m: bytes, block: nat, id: nat) => Slice(m, block, id),
      (len: nat, block: nat, ids: set<nat>) => block > 0 && Ids(Blocks(len, block)) <= ids,
      (len: nat, block: nat, got: map<nat, bytes>) => Join(len, block, got))
  }

  lemma DivisionFacts(i: nat, block: nat, len: nat)
    requires block > 0 && i < len
    ensures i / block * block + i % block == i
    ensures i / block < Blocks(len, block)
  {
    var q := i / block;
    Distribute(q, 1, block);
    QuotientAtLeast(len + block - 1, block, q + 1);
  }

  lemma SliceAt(m: bytes, block: nat, q: nat, r: nat)
    requires r < block && q * block + r < |m|
    ensures Slice(m, block, q)[r] == m[q * block + r]
  {
  }

  lemma JoinAt(m: bytes, block: nat, got: map<nat, bytes>, i: nat, q: nat, r: nat)
    requires block > 0 && i < |m| && q == i / block && r == i % block && q * block + r == i
    requires q in got && got[q] == Slice(m, block, q)
    ensures Join(|m|, block, got)[i] == m[i]
  {
    SliceAt(m, block, q, r);
  }

  lemma GenuineSlice(m: bytes, block: nat, got: map<nat, bytes>, q: nat)
    requires Genuine(Systematic(), m, block, got) && q in got
    ensures got[q] == Slice(m, block, q)
  {
    assert got[q] == Systematic().symbol(m, block, q);
  }

  lemma BlockHeld(m: bytes, block: nat, got: map<nat, bytes>, i: nat)
    requires block > 0 && Genuine(Systematic(), m, block, got)
    requires Ids(Blocks(|m|, block)) <= got.Keys && i < |m|
    ensures i / block * block + i % block == i
    ensures i / block in got && got[i / block] == Slice(m, block, i / block)
  {
    DivisionFacts(i, block, |m|);
    assert i / block in Ids(Blocks(|m|, block));
    GenuineSlice(m, block, got, i / block);
  }

  lemma SystematicRecovers(m: bytes, block: nat, got: map<nat, bytes>)
    requires block > 0 && Genuine(Systematic(), m, block, got)
    requires Ids(Blocks(|m|, block)) <= got.Keys
    ensures Join(|m|, block, got) == m
  {
    forall i | 0 <= i < |m|
      ensures Join(|m|, block, got)[i] == m[i]
    {
      BlockHeld(m, block, got, i);
      JoinAt(m, block, got, i, i / block, i % block);
    }
  }

  /** The laws are satisfiable: the systematic code meets all of them. */
  lemma SystematicIsSound()
    ensures Sound(Systematic())
    ensures SourceBlocksSuffice(Systematic())
  {
    var code := Systematic();
    forall m: bytes, block: nat, got: map<nat, bytes> |
      block > 0 && Genuine(code, m, block, got) && code.decodable(|m|, block, got.Keys)
      ensures code.recover(|m|, block, got) == m
    {
      SystematicRecovers(m, block, got);
    }
  }

  /** The same code, refusing every message that does not have 2 to 64000 blocks. */
  function Ranged(): Code {
    Systematic().(accepts := (len: nat, block: nat) => block > 0 && 2 <= Blocks(len, block) <= 64000)
  }

  lemma RangedIsSound()
    ensures Sound(Ranged())
  {
    SystematicIsSound();
    var code, ranged := Systematic(), Ranged();
    assert forall m: bytes, block: nat, got: map<nat, bytes> ::
        Genuine(ranged, m, block, got) ==> Genuine(code, m, block, got);
    forall m: bytes, block: nat, got: map<nat, bytes>
      | block > 0 && Genuine(ranged, m, block, got) && ranged.decodable(|m|, block, got.Keys)
      ensures ranged.recover(|m|, block, got) == m
    {
      assert Genuine(code, m, block, got) && code.decodable(|m|, block, got.Keys);
      assert code.recover(|m|, block, got) == m;
    }
  }
}
