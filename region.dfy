/**
 * The active market (src/contexts/RegionContext.tsx): a closed enumeration
 * held in a single mutable cell that starts at `Global` and is replaced
 * only through `SetRegion`. The provider neither persists nor detects a region.
 */
module RegionContext {

  datatype Region = India | UAE | Global

  const DefaultRegion: Region := Global

  class RegionStore {
    var region: Region

    constructor ()
      ensures region == DefaultRegion
    {
      region := DefaultRegion;
    }

    /** `setRegion(r)`: the current region becomes exactly `r`; nothing else is touched. */
    method SetRegion(r: Region)
      modifies this
      ensures region == r
    {
      region := r;
    }
  }
}
