/** The composite cursor: all the state there is between two page loads. */
module Cursors {
  import opened Ordering

  const CURSOR_VERSION := 1

  /** `o` is the raw time of the last entry served, "" before the first; `d` marks the
      instance as exhausted. */
  datatype InstanceCursor = InstanceCursor(o: string, d: bool)

  type CursorMap = map<string, InstanceCursor>

  datatype Cursor = Cursor(v: int, i: CursorMap)

  /** What a load-more request carries, seen through base64url and JSON: nothing, something
      that does not decode, or a version and perhaps a map. */
  datatype Wire = Nothing | Undecodable | Decoded(v: int, i: Option<CursorMap>)

  function Encode(c: Cursor): (w: Wire)
  {
    Decoded(c.v, Some(c.i))
  }

  /** None means "page 1". */
  function DecodeCursor(w: Wire): (c: Option<Cursor>)
    ensures c.None? <==> w.Nothing? || w.Undecodable? || w.v != 1
    ensures c.Some? ==> c.value.v == 1 && c.value.i == if w.i.Some? then w.i.value else map[]
    ensures forall k: Cursor :: k.v == CURSOR_VERSION && w == Encode(k) ==> c == Some(k)
  {
    if !w.Decoded? || w.v != CURSOR_VERSION then None
    else Some(Cursor(w.v, if w.i.Some? then w.i.value else map[]))
  }

  /** A Go map read: absent names have the zero cursor. */
  function Lookup(m: CursorMap, name: string): (c: InstanceCursor)
  {
    if name in m then m[name] else InstanceCursor("", false)
  }
}
