/** A Go slice that owns its backing array, with the operations that the stream applies to its
    receipt and gap buffers. Growing may move to a new array; everything else works in place. */
module GoSlice {

  class Slice<T(0)> {
    var data: array<T>
    var len: nat

    ghost predicate Valid()
      reads this
    {
      len <= data.Length
    }

    ghost function Contents(): (s: seq<T>)
      reads this, data
      requires Valid()
      ensures |s| == len
    {
      data[..len]
    }

    /** The nil slice. */
    constructor ()
      ensures Valid() && fresh(data) && Contents() == []
    {
      data := new T[0];
      len := 0;
    }

    /** `s = append(s, x)` */
    method Append(x: T)
      requires Valid()
      modifies this, data
      ensures Valid() && Contents() == old(Contents()) + [x]
      ensures data == old(data) || fresh(data)
    {
      if len == data.Length {
        var bigger := new T[2 * len + 1];
        for i := 0 to len
          invariant data == old(data) && len == old(len) && data.Length == old(data.Length)
          invariant bigger[..i] == old(data[..i]) && data[..] == old(data[..])
        {
          bigger[i] := data[i];
        }
        data := bigger;
      }
      data[len] := x;
      len := len + 1;
    }

    /** `copy(s, s[1:]); s[len(s)-1] = x` */
    method ShiftIn(x: T)
      requires Valid() && len > 0
      modifies this, data
      ensures Valid() && data == old(data) && Contents() == old(Contents())[1..] + [x]
    {
      for i := 0 to len - 1
        invariant data == old(data) && len == old(len)
        invariant data[..i] == old(data[1..i + 1])
        invariant data[i..] == old(data[i..])
      {
        assert data[i + 1] == data[i..][1] == old(data[i..])[1] == old(data[i + 1]);
        data[i] := data[i + 1];
      }
      data[len - 1] := x;
    }

    /** `clear(s); s = s[:0]`: the array is kept, and nothing in it is retained. */
    method Clear(zero: T)
      requires Valid()
      modifies this, data
      ensures Valid() && data == old(data) && Contents() == []
      ensures forall i :: 0 <= i < old(len) ==> data[i] == zero
    {
      for i := 0 to len
        invariant data == old(data) && len == old(len)
        invariant forall j :: 0 <= j < i ==> data[j] == zero
      {
        data[i] := zero;
      }
      len := 0;
    }

    /** `append([]T(nil), s...)` */
    method Copy() returns (out: array<T>)
      requires Valid()
      ensures fresh(out) && out[..] == Contents()
    {
      out := new T[len];
      for i := 0 to len
        invariant out[..i] == data[..i]
      {
        out[i] := data[i];
      }
    }
  }
}
