/**
 * The region bookkeeping of an image that region propagation works on: an
 * N-dimensional index/size box, and an image that carries its largest
 * possible region and the region a consumer currently requests.
 */
module ImageRegion {

  /** An axis-aligned box of the index space: start index and extent per axis. */
  datatype Region = Region(index: seq<int>, size: seq<nat>) {
    /** Index and size describe the same number of axes. */
    predicate WellFormed() {
      |index| == |size|
    }
  }

  /** The region of dimension `n` that starts at the origin and is empty on every axis. */
  function EmptyRegion(n: nat): (r: Region)
    ensures r.WellFormed() && |r.index| == n
    ensures forall d | 0 <= d < n :: r.index[d] == 0 && r.size[d] == 0
  {
    Region(seq(n, _ => 0), seq(n, _ => 0))
  }

  /** An image as region propagation sees it: two of its tracked regions. */
  class Image {
    var largestPossibleRegion: Region
    var requestedRegion: Region

    constructor (largest: Region, requested: Region)
      ensures largestPossibleRegion == largest && requestedRegion == requested
    {
      largestPossibleRegion := largest;
      requestedRegion := requested;
    }

    /** Replaces the requested region; the largest possible region stays. */
    method SetRequestedRegion(region: Region)
      modifies this
      ensures requestedRegion == region
      ensures largestPossibleRegion == old(largestPossibleRegion)
    {
      requestedRegion := region;
    }
  }
}
