/** The three-way split of the corpus bytes (`enwik8`) and the choice of training and
    held-out data by the `final` flag (`go`). Reading the file itself is not modelled: the
    function receives the bytes read. */
module Corpus {
  import opened Common

  /** Default split sizes of `enwik8`; `go` never overrides them. */
  const TrainBytes: nat := 90_000_000
  const ValidBytes: nat := 5_000_000
  const TestBytes: nat := 5_000_000

  datatype Pieces = Pieces(train: seq<Token>, valid: seq<Token>, test: seq<Token>)

  /** `np.split(X, [nTrain, nTrain + nValid])`: split points beyond the end are clamped to it. */
  function SplitCorpus(bytes: seq<Token>, nTrain: nat, nValid: nat): (p: Pieces)
    ensures p.train + p.valid + p.test == bytes
    ensures |p.train| == Min(nTrain, |bytes|) && |p.train| + |p.valid| == Min(nTrain + nValid, |bytes|)
  {
    var a := Min(nTrain, |bytes|);
    var b := Min(nTrain + nValid, |bytes|);
    assert bytes[..a] + bytes[a..b] + bytes[b..] == bytes;
    Pieces(bytes[..a], bytes[a..b], bytes[b..])
  }

  /** The data `go` trains on and the data it evaluates on. */
  datatype Splits = Splits(train: seq<Token>, heldOut: seq<Token>)

  /** Validation is held out, unless `final` is set: then validation joins training and test is held out. */
  function SelectSplits(p: Pieces, final: bool): (s: Splits)
    ensures s.heldOut == if final then p.test else p.valid
    ensures s.train + s.heldOut == if final then p.train + p.valid + p.test else p.train + p.valid
  {
    if final then Splits(p.train + p.valid, p.test) else Splits(p.train, p.valid)
  }

  /** The held-out data never overlaps the training data: both are adjacent, disjoint stretches of
      the corpus, training first; with `final` they cover it all. */
  lemma HeldOutFollowsTraining(bytes: seq<Token>, nTrain: nat, nValid: nat, final: bool)
    ensures var s := SelectSplits(SplitCorpus(bytes, nTrain, nValid), final);
      var cut := |s.train|;
      var end := cut + |s.heldOut|;
      && end <= |bytes|
      && s.train == bytes[..cut] && s.heldOut == bytes[cut..end]
      && (final ==> cut == Min(nTrain + nValid, |bytes|) && end == |bytes|)
      && (!final ==> cut == Min(nTrain, |bytes|) && end == Min(nTrain + nValid, |bytes|))
  {
  }
}
