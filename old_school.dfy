/** The "old school" container: copy operations only (rule of three). */
module OldSchool {
  import Buffers

  /** Exclusive owner of a heap buffer of `size` integers. */
  class HolderOld {
    var data: array?<int>
    var size: nat

    /** Every container owns a buffer of exactly `size` elements: with no
        move operations, none is ever left without one. */
    ghost predicate Valid()
      reads this
    {
      data != null && data.Length == size
    }

    /** The values held, in order. */
    ghost function Contents(): (s: seq<int>)
      reads this, data
      requires Valid()
      ensures |s| == size
    {
      data[..]
    }

    /** `HolderOld(size)`: a new buffer of `size` elements, contents unspecified. */
    constructor (size: nat)
      ensures Valid() && fresh(data)
      ensures this.size == size
    {
      data := new int[size];
      this.size := size;
    }

    /** Copy constructor: a new buffer holding the same values as `other`'s.
        Only the new object may change, so `other` is left as it was. */
    constructor Copy(other: HolderOld)
      requires other.Valid()
      ensures Valid() && fresh(data) && data != other.data
      ensures size == other.size && Contents() == other.Contents()
    {
      var buffer := Buffers.Duplicate(other.data, other.size);
      data := buffer;
      size := other.size;
    }

    /** Copy assignment `*this = other`, returning `*this`: assigning a
        container to itself changes nothing; otherwise the old buffer is
        dropped and a new one receives a copy of `other`'s values. */
    method CopyAssign(other: HolderOld) returns (self: HolderOld)
      requires Valid() && other.Valid()
      modifies this
      ensures self == this && Valid()
      ensures other == this ==>
                data == old(data) && size == old(size) && Contents() == old(Contents())
      ensures other != this ==>
                fresh(data) && size == other.size && Contents() == other.Contents()
      ensures other.data == old(other.data) && other.size == old(other.size)
      ensures other.Contents() == old(other.Contents())
    {
      if this == other {
        return this;
      }
      data := Buffers.Duplicate(other.data, other.size);
      size := other.size;
      self := this;
    }
  }
}
