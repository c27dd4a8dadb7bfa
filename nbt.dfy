/**
 * Minecraft's `CompoundTag` as a flat record from keys to values. The nested
 * compounds that hold a quaternion or a vector are kept as opaque tuples.
 */
module Nbt {
  import opened Geometry

  datatype TagValue = FloatTag(f: real) | QuaternionTag(q: Quat) | VectorTag(v: Vec3)

  type Compound = map<string, TagValue>

  /** `CompoundTag.getFloat`: a missing or non-numeric entry reads as 0. */
  function GetFloat(t: Compound, key: string): real {
    if key in t && t[key].FloatTag? then t[key].f else 0.0
  }

  /** A stored quaternion; a missing entry reads as an empty compound, that is all zeros. */
  function GetQuaternion(t: Compound, key: string): Quat {
    if key in t && t[key].QuaternionTag? then t[key].q else Quat(0.0, 0.0, 0.0, 0.0)
  }

  /** A stored vector; a missing entry reads as an empty compound, that is all zeros. */
  function GetVector(t: Compound, key: string): Vec3 {
    if key in t && t[key].VectorTag? then t[key].v else Zero
  }

  /** A tag object that callers hand to the body to be filled in place. */
  class CompoundTag {
    var entries: Compound

    constructor ()
      ensures entries == map[]
    {
      entries := map[];
    }

    /** `put` / `putFloat`: adds the entry, replacing any earlier one under the same key. */
    method Put(key: string, value: TagValue)
      modifies this
      ensures entries == old(entries)[key := value]
    {
      entries := entries[key := value];
    }
  }
}
