/**
 * `allocate`: a parameter is moved to the device that the model-parallel
 * unit assigns to its (tensor, pipeline, data) parallel ranks. A parameter
 * may carry any of the three rank tags; a missing tag counts as rank 0.
 * The device lookup `rank2device` and the move itself are outside the
 * model: the lookup is a function parameter and the move is the update of
 * the parameter's `device` field.
 */
module Allocation {
  import opened Results

  /** The rank attributes a parameter carries; None when the attribute is absent. */
  datatype RankTags = RankTags(tp: Option<nat>, pp: Option<nat>, dp: Option<nat>)

  /** The ranks handed to the device lookup, in the order (tp, pp, dp). */
  datatype Ranks = Ranks(tp: nat, pp: nat, dp: nat)

  class Parameter {
    const tags: RankTags
    var device: nat

    constructor(tags: RankTags, device: nat)
      ensures this.tags == tags && this.device == device
    {
      this.tags := tags;
      this.device := device;
    }
  }

  function OrZero(o: Option<nat>): nat {
    if o.Some? then o.value else 0
  }

  /**
   * The ranks `allocate` looks up as written: each present tag, taken in
   * the order tp, pp, dp, lands in the tensor-parallel slot, so the last
   * present one wins there, and the other two slots stay 0.
   */
  function AsWrittenRanks(t: RankTags): (r: Ranks)
    ensures r.pp == 0 && r.dp == 0
    ensures t.dp.Some? ==> r.tp == t.dp.value
    ensures t.dp.None? && t.pp.Some? ==> r.tp == t.pp.value
    ensures t.dp.None? && t.pp.None? ==> r.tp == OrZero(t.tp)
  {
    var last := if t.dp.Some? then t.dp else if t.pp.Some? then t.pp else t.tp;
    Ranks(OrZero(last), 0, 0)
  }

  /** The ranks the three tags evidently mean: each in its own slot. */
  function IntendedRanks(t: RankTags): (r: Ranks)
    ensures t.tp.Some? ==> r.tp == t.tp.value
    ensures t.pp.Some? ==> r.pp == t.pp.value
    ensures t.dp.Some? ==> r.dp == t.dp.value
    ensures r.tp + r.pp + r.dp == OrZero(t.tp) + OrZero(t.pp) + OrZero(t.dp)
  {
    Ranks(OrZero(t.tp), OrZero(t.pp), OrZero(t.dp))
  }

  /** `allocate` as written: the rank variables are reassigned tag by tag, then the device is looked up. */
  method Allocate(rank2device: Ranks -> nat, p: Parameter)
    modifies p
    ensures p.device == rank2device(AsWrittenRanks(p.tags))
  {
    var tpRank, ppRank, dpRank := 0, 0, 0;
    if p.tags.tp.Some? {
      tpRank := p.tags.tp.value;
    }
    if p.tags.pp.Some? {
      tpRank := p.tags.pp.value;
    }
    if p.tags.dp.Some? {
      tpRank := p.tags.dp.value;
    }
    p.device := rank2device(Ranks(tpRank, ppRank, dpRank));
  }

  /** `allocate` with each tag stored into its own rank. */
  method AllocateIntended(rank2device: Ranks -> nat, p: Parameter)
    modifies p
    ensures p.device == rank2device(IntendedRanks(p.tags))
  {
    var tpRank, ppRank, dpRank := 0, 0, 0;
    if p.tags.tp.Some? {
      tpRank := p.tags.tp.value;
    }
    if p.tags.pp.Some? {
      ppRank := p.tags.pp.value;
    }
    if p.tags.dp.Some? {
      dpRank := p.tags.dp.value;
    }
    p.device := rank2device(Ranks(tpRank, ppRank, dpRank));
  }

  /**
   * The two agree exactly when no pipeline or data rank other than 0 is
   * tagged and, when either of them is tagged at all, the tensor rank is 0.
   */
  lemma AgreeExactly(t: RankTags)
    ensures AsWrittenRanks(t) == IntendedRanks(t) <==>
      && OrZero(t.pp) == 0 && OrZero(t.dp) == 0
      && ((t.pp.Some? || t.dp.Some?) ==> OrZero(t.tp) == 0)
  {
  }

  /** A parameter tagged only with its tensor rank goes to the intended device. */
  lemma AgreeOnTensorRankOnly(t: RankTags, rank2device: Ranks -> nat)
    requires t.pp.None? && t.dp.None?
    ensures rank2device(AsWrittenRanks(t)) == rank2device(IntendedRanks(t))
  {
    AgreeExactly(t);
  }

  /** Tensor rank 1 with pipeline rank 0: the tensor rank is overwritten by 0. */
  lemma AsWrittenDropsTensorRank()
    ensures AsWrittenRanks(RankTags(Some(1), Some(0), None)) == Ranks(0, 0, 0)
    ensures IntendedRanks(RankTags(Some(1), Some(0), None)) == Ranks(1, 0, 0)
  {
  }
}
