/**
 * A reader over the bytes of a string (src/string.rs): each read copies as
 * many of the unread bytes as the caller's buffer holds and moves a cursor
 * past them.
 */
module Strings {

  type Byte = b: int | 0 <= b < 0x100

  function Min(a: int, b: int): (m: int)
    ensures m <= a && m <= b && (m == a || m == b)
  {
    if a <= b then a else b
  }

  class StringReader {
    /** The string's bytes. */
    const inner: seq<Byte>
    /** How many bytes have been handed out so far. */
    var cursor: nat

    ghost predicate Valid()
      reads this
    {
      cursor <= |inner|
    }

    /** The bytes not yet read. */
    ghost function Remaining(): seq<Byte>
      reads this
      requires Valid()
    {
      inner[cursor..]
    }

    /** A reader positioned at the first byte of `value`. */
    constructor From(value: seq<Byte>)
      ensures Valid() && inner == value && cursor == 0
      ensures Remaining() == value
    {
      inner := value;
      cursor := 0;
    }

    /**
     * Copies the next `min(|buf|, unread)` bytes into the front of `buf`,
     * leaves the rest of `buf` alone and moves the cursor past them.
     */
    method Read(buf: array<Byte>) returns (n: nat)
      requires Valid()
      modifies this, buf
      ensures Valid()
      ensures n == Min(buf.Length, |inner| - old(cursor))
      ensures cursor == old(cursor) + n
      ensures buf[..n] == inner[old(cursor)..cursor]
      ensures buf[n..] == old(buf[n..])
      ensures Remaining() == old(Remaining())[n..]
    {
      var i := 0;
      while i < buf.Length && cursor + i < |inner|
        invariant 0 <= i <= buf.Length && cursor + i <= |inner|
        invariant cursor == old(cursor)
        invariant buf[..i] == inner[cursor..cursor + i]
        invariant buf[i..] == old(buf[i..])
      {
        buf[i] := inner[cursor + i];
        i := i + 1;
      }
      cursor := cursor + i;
      n := i;
    }
  }

  /** A buffer as long as the string is filled with the whole string in one read. */
  method ReadAString(s: seq<Byte>) returns (n: nat, read: seq<Byte>)
    ensures n == |s| && read == s
  {
    var r := new StringReader.From(s);
    var buf := new Byte[|s|](_ => 0);
    n := r.Read(buf);
    read := buf[..];
  }

  /**
   * Reading one byte at a time yields each byte in order, with a count of 1
   * each time, and then a count of 0 once the string is exhausted.
   */
  method PartialReads(s: seq<Byte>) returns (counts: seq<nat>, read: seq<Byte>, last: nat)
    ensures |counts| == |s| && forall i :: 0 <= i < |counts| ==> counts[i] == 1
    ensures read == s
    ensures last == 0
  {
    var r := new StringReader.From(s);
    var buf := new Byte[1](_ => 0);
    counts, read := [], [];
    while |read| < |s|
      invariant r.Valid() && r.inner == s && r.cursor == |read|
      invariant read == s[..|read|]
      invariant |counts| == |read| && forall i :: 0 <= i < |counts| ==> counts[i] == 1
    {
      var count := r.Read(buf);
      counts := counts + [count];
      read := read + [buf[0]];
    }
    last := r.Read(buf);
  }
}
