/**
 * The dataset types the command line accepts and the substring tests the
 * script uses to dispatch on them (kitti_type.find("raw") != -1 and so on).
 */
module Variant {
  import opened PyLib

  /** kitti_types, the choices of the positional argument. */
  const KittiTypes: seq<string> := ["raw_synced", "odom_color", "odom_gray"]

  predicate IsRaw(kittiType: string) { Contains(kittiType, "raw") }
  predicate IsOdom(kittiType: string) { Contains(kittiType, "odom") }
  predicate IsGray(kittiType: string) { Contains(kittiType, "gray") }
  predicate IsColor(kittiType: string) { Contains(kittiType, "color") }

  lemma RawSyncedIsRaw(t: string)
    requires t == "raw_synced"
    ensures IsRaw(t) && !IsOdom(t)
  {
    ContainsAt(t, "raw", 0);
    NotContainsChar(t, "odom", 'm');
  }

  lemma OdomColorIsOdomColor(t: string)
    requires t == "odom_color"
    ensures !IsRaw(t) && IsOdom(t)
    ensures IsColor(t) && !IsGray(t)
  {
    NotContainsChar(t, "raw", 'w');
    ContainsAt(t, "odom", 0);
    ContainsAt(t, "color", 5);
    NotContainsChar(t, "gray", 'g');
  }

  lemma OdomGrayIsOdomGray(t: string)
    requires t == "odom_gray"
    ensures !IsRaw(t) && IsOdom(t)
    ensures IsGray(t) && !IsColor(t)
  {
    NotContainsChar(t, "raw", 'w');
    ContainsAt(t, "odom", 0);
    ContainsAt(t, "gray", 5);
    NotContainsChar(t, "color", 'c');
  }

  /**
   * On the accepted choices the substring dispatch is exact: raw_synced takes the
   * raw branch and no other; both odometry types take the odom branch, and the
   * gray/color test tells them apart.
   */
  lemma Dispatch(kittiType: string)
    requires kittiType in KittiTypes
    ensures IsRaw(kittiType) <==> kittiType == "raw_synced"
    ensures IsOdom(kittiType) <==> !IsRaw(kittiType)
    ensures IsOdom(kittiType) ==> (IsGray(kittiType) <==> kittiType == "odom_gray")
    ensures IsOdom(kittiType) ==> (IsColor(kittiType) <==> kittiType == "odom_color")
  {
    if kittiType == "raw_synced" {
      RawSyncedIsRaw(kittiType);
    } else if kittiType == "odom_color" {
      OdomColorIsOdomColor(kittiType);
    } else {
      OdomGrayIsOdomGray(kittiType);
    }
  }
}
