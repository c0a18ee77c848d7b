/**
 * The feature-flag switchboard (src/core/utils/featureFlags.ts): one
 * local-storage slot holding the list of enabled flags.
 */
module FeatureFlags {

  /** `FeatureFlags` */
  datatype Flag = FtrEnabled | FtrNewAnalyticsMrr

  /** `FF_KEY` */
  const FfKey: string := "featureFlags"

  /** `listFeatureFlags()`: the enum's values, in declaration order. */
  function ListFeatureFlags(): (all: seq<Flag>)
    ensures FtrEnabled in all && FtrNewAnalyticsMrr in all
    ensures |all| == 2 && all[0] != all[1]
  {
    [FtrEnabled, FtrNewAnalyticsMrr]
  }

  /** `listFeatureFlags()` misses no flag. */
  lemma EveryFlagListed(f: Flag)
    ensures f in ListFeatureFlags()
  {
    match f
    case FtrEnabled =>
    case FtrNewAnalyticsMrr =>
  }

  /** What `setFeatureFlags` accepts: a falsy value, `'all'`, one flag or a list of flags. */
  datatype FlagsArgument = Falsy | All | One(flag: Flag) | Many(flags: seq<Flag>)

  /** The list `setFeatureFlags` stores for its argument. */
  function Normalized(arg: FlagsArgument): (flags: seq<Flag>)
    ensures forall f :: f in flags <==> arg.All? || (arg.One? && f == arg.flag) || (arg.Many? && f in arg.flags)
    ensures arg.Falsy? ==> flags == []
    ensures arg.One? ==> flags == [arg.flag]
    ensures arg.Many? ==> flags == arg.flags
  {
    match arg
    case Falsy => []
    case All =>
      assert forall f: Flag :: f in ListFeatureFlags() by {
        forall f: Flag ensures f in ListFeatureFlags() {
          EveryFlagListed(f);
        }
      }
      ListFeatureFlags()
    case One(f) => [f]
    case Many(fs) => fs
  }

  /**
   * The browser's local storage, restricted to the slots that hold flag
   * lists (JSON round trip of a list of enum strings taken as exact).
   */
  class FeatureFlagStore {
    var storage: map<string, seq<Flag>>

    constructor(storage: map<string, seq<Flag>>)
      ensures this.storage == storage
    {
      this.storage := storage;
    }

    /** `getEnableFeatureFlags()`: the stored list, or none when the slot is unset. */
    function GetEnableFeatureFlags(): (flags: seq<Flag>)
      reads this
      ensures FfKey !in storage ==> flags == []
      ensures FfKey in storage ==> flags == storage[FfKey]
    {
      if FfKey in storage then storage[FfKey] else []
    }

    /** `isFeatureFlagActive(flag)` */
    function IsFeatureFlagActive(flag: Flag): (active: bool)
      reads this
      ensures active <==> FfKey in storage && flag in storage[FfKey]
    {
      flag in GetEnableFeatureFlags()
    }

    /** `setFeatureFlags(flags)`: normalise the argument step by step, store it, read it back. */
    method SetFeatureFlags(arg: FlagsArgument) returns (enabled: seq<Flag>)
      modifies this
      ensures storage == old(storage)[FfKey := Normalized(arg)]
      ensures enabled == Normalized(arg)
      ensures forall f :: IsFeatureFlagActive(f) <==> f in Normalized(arg)
    {
      var flags := arg;
      if flags.Falsy? {
        flags := Many([]);
      }
      if flags.All? {
        flags := Many(ListFeatureFlags());
      }
      if flags.One? {
        flags := Many([flags.flag]);
      }
      storage := storage[FfKey := flags.flags];
      enabled := GetEnableFeatureFlags();
    }
  }
}
