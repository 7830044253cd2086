/**
 * An Android Parcel as the Video class uses it: a first-in first-out
 * sequence of typed values with a read position.
 */
module Parcels {
  import opened Optional

  datatype ParcelValue = LongValue(n: int) | StringValue(s: Option<string>)

  /** The long a read at position `i` yields: 0 past the end or where no long was written. */
  function LongAt(values: seq<ParcelValue>, i: nat): int {
    if i < |values| && values[i].LongValue? then values[i].n else 0
  }

  /** The string a read at position `i` yields: null past the end or where no string was written. */
  function StringAt(values: seq<ParcelValue>, i: nat): Option<string> {
    if i < |values| && values[i].StringValue? then values[i].s else None
  }

  class Parcel {
    var values: seq<ParcelValue>
    var readPos: nat

    constructor ()
      ensures values == [] && readPos == 0
    {
      values := [];
      readPos := 0;
    }

    method WriteLong(n: int)
      modifies this`values
      ensures values == old(values) + [LongValue(n)]
    {
      values := values + [LongValue(n)];
    }

    method WriteString(s: Option<string>)
      modifies this`values
      ensures values == old(values) + [StringValue(s)]
    {
      values := values + [StringValue(s)];
    }

    method ReadLong() returns (n: int)
      modifies this`readPos
      ensures n == LongAt(values, old(readPos)) && readPos == old(readPos) + 1
    {
      n := LongAt(values, readPos);
      readPos := readPos + 1;
    }

    method ReadString() returns (s: Option<string>)
      modifies this`readPos
      ensures s == StringAt(values, old(readPos)) && readPos == old(readPos) + 1
    {
      s := StringAt(values, readPos);
      readPos := readPos + 1;
    }
  }
}
