/** The "new school" container: copy and move operations (rule of five). */
module NewSchool {
  import Buffers

  /** Exclusive owner of a heap buffer of `size` integers, or vacant once its
      buffer has been moved to another container. `Valid()` constrains one
      container only: that no two containers share a buffer is not part of it,
      and is instead established where the containers are used (the methods
      modelling `process` end with three distinct buffers). */
  class Holder {
    /** The owned buffer; null in a moved-from container. */
    var data: array?<int>
    var size: nat

    /** A buffer holds exactly `size` elements, and a container without one
        has size 0. */
    ghost predicate Valid()
      reads this
    {
      if data == null then size == 0 else data.Length == size
    }

    /** The state a move leaves its source in: no buffer and size 0. */
    ghost predicate Vacant()
      reads this
    {
      data == null && size == 0
    }

    /** The values held, in order; none in a vacant container. */
    ghost function Contents(): (s: seq<int>)
      reads this, data
      requires Valid()
      ensures |s| == size
      ensures Vacant() ==> s == []
    {
      if data == null then [] else data[..]
    }

    /** `Holder(size)`: a new buffer of `size` elements, contents unspecified.
        Even for size 0 the container owns a (zero-length) buffer. */
    constructor (size: nat)
      ensures Valid() && !Vacant()
      ensures data != null && fresh(data)
      ensures this.size == size
    {
      data := new int[size];
      this.size := size;
    }

    /** Copy constructor: a new buffer holding the same values as `other`'s.
        Only the new object may change, so `other` is left as it was. Copying
        a vacant container yields an empty but non-vacant one. */
    constructor Copy(other: Holder)
      requires other.Valid()
      ensures Valid() && !Vacant()
      ensures data != null && fresh(data) && data != other.data
      ensures size == other.size && Contents() == other.Contents()
    {
      var buffer := Buffers.Duplicate(other.data, other.size);
      data := buffer;
      size := other.size;
    }

    /** Move constructor: adopts `other`'s very buffer and size, allocating and
        copying nothing, and leaves `other` vacant. */
    constructor Move(other: Holder)
      requires other.Valid()
      modifies other
      ensures Valid()
      ensures data == old(other.data) && size == old(other.size)
      ensures Contents() == old(other.Contents())
      ensures other.Valid() && other.Vacant()
    {
      data := other.data;
      size := other.size;
      new;
      other.data := null;
      other.size := 0;
    }

    /** Copy assignment `*this = other`, returning `*this`: assigning a
        container to itself changes nothing; otherwise the old buffer is
        dropped and a new one receives a copy of `other`'s values. */
    method CopyAssign(other: Holder) returns (self: Holder)
      requires Valid() && other.Valid()
      modifies this
      ensures self == this && Valid()
      ensures other == this ==>
                data == old(data) && size == old(size) && Contents() == old(Contents())
      ensures other != this ==>
                !Vacant() && data != null && fresh(data) &&
                size == other.size && Contents() == other.Contents()
      ensures other.data == old(other.data) && other.size == old(other.size)
      ensures other.Contents() == old(other.Contents())
    {
      if this == other {
        return this;
      }
      data := Buffers.Duplicate(other.data, other.size);
      size := other.size;
      self := this;
    }

    /** Move assignment `*this = std::move(other)`, returning `*this`: moving a
        container into itself changes nothing; otherwise the old buffer is
        dropped, `other`'s very buffer and size are adopted, and `other` is
        left vacant. */
    method MoveAssign(other: Holder) returns (self: Holder)
      requires Valid() && other.Valid()
      modifies this, other
      ensures self == this && Valid() && other.Valid()
      ensures other == this ==>
                data == old(data) && size == old(size) && Contents() == old(Contents())
      ensures other != this ==>
                data == old(other.data) && size == old(other.size) &&
                Contents() == old(other.Contents()) && other.Vacant()
    {
      if this == other {
        return this;
      }
      data := other.data;
      size := other.size;
      other.data := null;
      other.size := 0;
      self := this;
    }
  }
}
