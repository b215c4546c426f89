/**
 * The browser's binary objects and its object-URL table (`URL.createObjectURL`).
 * A URL is modelled as a handle; the table maps every handle minted so far to the
 * blob it was minted for, and nothing ever revokes one.
 */
module BlobUrls {

  type Byte = bv8

  /** A `Blob`: its bytes and its MIME type. */
  datatype Blob = Blob(data: seq<Byte>, mimeType: string) {
    function Size(): nat { |data| }
  }

  /** `new Blob(parts, { type })`: the parts' bytes in order. */
  function Concat(parts: seq<Blob>): (bytes: seq<Byte>)
    ensures |bytes| == TotalSize(parts)
  {
    if parts == [] then [] else parts[0].data + Concat(parts[1..])
  }

  function TotalSize(parts: seq<Blob>): nat
  {
    if parts == [] then 0 else parts[0].Size() + TotalSize(parts[1..])
  }

  type ObjectUrl = nat

  class UrlRegistry {
    var table: map<ObjectUrl, Blob>
    var next: ObjectUrl

    /** Every live URL was handed out before `next`. */
    ghost predicate Valid()
      reads this
    {
      forall u :: u in table ==> u < next
    }

    constructor ()
      ensures Valid() && table == map[] && next == 0
    {
      table := map[];
      next := 0;
    }

    /** `URL.createObjectURL(b)`: a handle never handed out before, resolving to `b`. */
    method CreateObjectUrl(b: Blob) returns (u: ObjectUrl)
      requires Valid()
      modifies this
      ensures Valid()
      ensures u == old(next) && u !in old(table)
      ensures table == old(table)[u := b] && next == old(next) + 1
    {
      u := next;
      table := table[u := b];
      next := next + 1;
    }
  }
}
