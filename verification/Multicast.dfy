/** The messages of an ordered multicast, as a receiver hands them to a replica. */
module Multicast {
  import opened Blocks

  type Bytes = seq<Byte>

  datatype Signature =
    | HalfSipHash(codes: seq<Bytes>)
    | K256Linked
    | K256(signature: Bytes)
    | K256Unverified(signature: Bytes)

  datatype OrderedMulticast<+M> = OrderedMulticast(seqNum: nat, signature: Signature, linked: Bytes, inner: M) {
    predicate Verified() {
      signature.HalfSipHash? || signature.K256?
    }
  }

  const MARK: Byte := 0xcc

  /** The delegate's rule: a code marked for another replica makes the packet somebody else's. */
  predicate Accepts(index: ReplicaIndex, codes: seq<Bytes>)
    requires |codes| == 4 && |codes[index % 4]| == 4
  {
    var code := codes[index % 4];
    !(code[0] == MARK && code[1] == MARK && code[2] == MARK && code[3] as nat != index)
  }
}
