/** Finding the end of a JSON string: a scan that tests eight bytes at a time for `"` and `\`. */
module JsonScan {

  const QUOTE: bv8 := 34
  const BACKSLASH: bv8 := 92

  predicate IsMarker(b: bv8) {
    b == QUOTE || b == BACKSLASH
  }

  // ---------------------------------------------------------------------------------------------
  // The word test

  const ONES: bv64 := 0x0101010101010101
  const LOW7: bv64 := 0x7f7f7f7f7f7f7f7f
  const HIGH: bv64 := 0x8080808080808080

  /** Eight bytes as the machine word that holds them (little endian; the test does not care). */
  function Word(b0: bv8, b1: bv8, b2: bv8, b3: bv8, b4: bv8, b5: bv8, b6: bv8, b7: bv8): bv64 {
    (b0 as bv64) | ((b1 as bv64) << 8) | ((b2 as bv64) << 16) | ((b3 as bv64) << 24)
    | ((b4 as bv64) << 32) | ((b5 as bv64) << 40) | ((b6 as bv64) << 48) | ((b7 as bv64) << 56)
  }

  /** Non-zero when some byte of `word` equals the byte repeated in `wanted`. */
  function HasByte(word: bv64, wanted: bv64): bv64 {
    var eq := !(word ^ wanted);
    ((eq & LOW7) + ONES) & (eq & HIGH)
  }

  /** No false hits and no misses, for both of the bytes the scan looks for. */
  lemma WordTestExact(b0: bv8, b1: bv8, b2: bv8, b3: bv8, b4: bv8, b5: bv8, b6: bv8, b7: bv8)
    ensures HasByte(Word(b0, b1, b2, b3, b4, b5, b6, b7), ONES * 34) != 0
       <==> (b0 == QUOTE || b1 == QUOTE || b2 == QUOTE || b3 == QUOTE
             || b4 == QUOTE || b5 == QUOTE || b6 == QUOTE || b7 == QUOTE)
    ensures HasByte(Word(b0, b1, b2, b3, b4, b5, b6, b7), ONES * 92) != 0
       <==> (b0 == BACKSLASH || b1 == BACKSLASH || b2 == BACKSLASH || b3 == BACKSLASH
             || b4 == BACKSLASH || b5 == BACKSLASH || b6 == BACKSLASH || b7 == BACKSLASH)
  {
  }

  /** The scan's test on the eight bytes at `pos`: does any of them stop the search. */
  method WordStops(buf: seq<bv8>, pos: nat) returns (stop: bool)
    requires pos + 8 <= |buf|
    ensures stop <==> exists k :: pos <= k < pos + 8 && IsMarker(buf[k])
  {
    var wanted1, wanted2 := ONES * 34, ONES * 92;
    var b := buf[pos..pos + 8];
    var word := Word(b[0], b[1], b[2], b[3], b[4], b[5], b[6], b[7]);
    WordTestExact(b[0], b[1], b[2], b[3], b[4], b[5], b[6], b[7]);
    EitherBit(HasByte(word, wanted1), HasByte(word, wanted2));
    stop := HasByte(word, wanted1) | HasByte(word, wanted2) != 0;
    assert forall k :: 0 <= k < 8 ==> b[k] == buf[pos + k];
    if stop {
      var k :| 0 <= k < 8 && IsMarker(b[k]);
      assert IsMarker(buf[pos + k]);
    } else {
      forall k | pos <= k < pos + 8 ensures !IsMarker(buf[k]) {
        assert buf[k] == b[k - pos];
      }
    }
  }

  lemma EitherBit(a: bv64, b: bv64)
    ensures a | b != 0 <==> a != 0 || b != 0
  {
  }

  // ---------------------------------------------------------------------------------------------
  // Seeking the first marker

  ghost predicate NoMarker(buf: seq<bv8>, lo: nat, hi: nat)
    requires hi <= |buf|
  {
    forall k :: lo <= k < hi ==> !IsMarker(buf[k])
  }

  /** Moves on to the first `"` or `\` before `limit`, or to `limit`. `base` is the address of
      `buf[0]`; with `unaligned` set, words are read at any address. */
  method Seek2Marker(buf: seq<bv8>, base: nat, start: nat, limit: nat, unaligned: bool) returns (found: bool, pos: nat)
    requires start < limit <= |buf|
    ensures start <= pos <= limit && NoMarker(buf, start, pos)
    ensures found <==> pos < limit
    ensures found ==> IsMarker(buf[pos])
  {
    pos := start;
    if IsMarker(buf[pos]) {
      return true, pos;
    }
    var floor := base + pos - (base + pos) % 8;
    if unaligned || floor + 8 < base + limit {
      var limit64 := limit - 7;
      if !unaligned {
        while base + pos < floor + 8
          invariant start <= pos && base + pos <= floor + 8 && NoMarker(buf, start, pos)
        {
          if IsMarker(buf[pos]) {
            return true, pos;
          }
          pos := pos + 1;
        }
        limit64 := limit - (base + limit) % 8;
      }
      while pos < limit64
        invariant start <= pos <= limit && NoMarker(buf, start, pos)
        invariant !unaligned ==> (base + pos) % 8 == 0 && (base + limit64) % 8 == 0
        decreases limit64 - pos
      {
        assert pos + 8 <= limit;
        var stop := WordStops(buf, pos);
        if stop {
          break;
        }
        pos := pos + 8;
      }
    }
    found, pos := SeekTail(buf, start, pos, limit);
  }

  /** The last, short stretch: four bytes unrolled, then one at a time. */
  method SeekTail(buf: seq<bv8>, start: nat, from: nat, limit: nat) returns (found: bool, pos: nat)
    requires start <= from <= limit <= |buf| && NoMarker(buf, start, from)
    ensures start <= pos <= limit && NoMarker(buf, start, pos)
    ensures found <==> pos < limit
    ensures found ==> IsMarker(buf[pos])
  {
    pos := from;
    if pos + 4 <= limit {
      if IsMarker(buf[pos]) {
        return true, pos;
      }
      if IsMarker(buf[pos + 1]) {
        return true, pos + 1;
      }
      if IsMarker(buf[pos + 2]) {
        return true, pos + 2;
      }
      if IsMarker(buf[pos + 3]) {
        return true, pos + 3;
      }
      pos := pos + 4;
    }
    while pos < limit
      invariant start <= pos <= limit && NoMarker(buf, start, pos)
    {
      if IsMarker(buf[pos]) {
        return true, pos;
      }
      pos := pos + 1;
    }
    return false, pos;
  }

  // ---------------------------------------------------------------------------------------------
  // Seeking the end of the string

  /** How many backslashes stand in a row right before `q`, not looking before `start`. */
  ghost function Run(buf: seq<bv8>, start: nat, q: nat): nat
    requires start <= q <= |buf|
  {
    if q > start && buf[q - 1] == BACKSLASH then 1 + Run(buf, start, q - 1) else 0
  }

  /** A quote that closes the string begun at `start`: an even number of backslashes before it. */
  ghost predicate Closes(buf: seq<bv8>, start: nat, q: nat)
    requires start <= q < |buf|
  {
    buf[q] == QUOTE && Run(buf, start, q) % 2 == 0
  }

  ghost predicate NoClose(buf: seq<bv8>, start: nat, hi: nat)
    requires hi <= |buf|
  {
    forall q :: start <= q < hi ==> !Closes(buf, start, q)
  }

  /** Finds exactly the first unescaped quote. */
  method Seek2Eos(buf: seq<bv8>, base: nat, start: nat, limit: nat, unaligned: bool) returns (found: bool, pos: nat)
    requires start <= limit <= |buf|
    ensures found ==> start <= pos < limit && Closes(buf, start, pos) && NoClose(buf, start, pos)
    ensures !found ==> NoClose(buf, start, limit) && pos >= limit
  {
    pos := start;
    while pos < limit
      invariant start <= pos <= limit + 2
      invariant pos <= limit ==> NoClose(buf, start, pos) && Run(buf, start, pos) % 2 == 0
      invariant pos > limit ==> NoClose(buf, start, limit)
    {
      ghost var from := pos;
      var marker;
      marker, pos := Seek2Marker(buf, base, pos, limit, unaligned);
      assert pos > from ==> !IsMarker(buf[pos - 1]);
      assert Run(buf, start, pos) % 2 == 0;
      assert NoClose(buf, start, pos);
      if marker && buf[pos] == QUOTE {
        return true, pos;
      }
      assert pos < limit ==> !Closes(buf, start, pos) && Run(buf, start, pos + 1) == 1 + Run(buf, start, pos);
      pos := pos + 2;
    }
    return false, pos;
  }
}
