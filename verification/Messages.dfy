/** What ranks and machines send to a lead daemon, already decoded. */
module Messages {
  import opened Wrappers
  import opened Vectors
  import opened Reduce

  /** One rank inside a contribution, with its own report. */
  datatype Member = Member(rank: int, step: real, sync: real, samples: int)

  /** A rank's view of the model it syncs. */
  datatype Manifest = Manifest(shapes: seq<seq<int>>, dtypes: seq<string>)

  /** Two ranks' models can be averaged: the same tensor shapes, and the same types where both say. */
  predicate SameModel(a: Manifest, b: Manifest) {
    && |a.shapes| == |b.shapes|
    && forall i | 0 <= i < |a.shapes| ::
      a.shapes[i] == b.shapes[i] && (i < |a.dtypes| && i < |b.dtypes| ==> a.dtypes[i] == b.dtypes[i])
  }

  datatype Request = Request(
    seqNo: int, rank: int, world: int, shard: int, shards: int, kind: string,
    dtype: Option<DType>, count: int, counts: seq<int>, payload: Payload, scale: real, scales: seq<real>, samples: int,
    step: real, sync: real, members: seq<Member>, manifest: Option<Manifest>,
    sharded: bool, fixed: bool, auto: bool, syncEvery: int)
}
