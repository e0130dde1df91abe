/** The tags that tell channels apart: one per user tag and source rank. */
module Tags {
  import opened Arith

  /** A 32-bit `int` after its conversion to `uint64_t`, which copies the sign into the upper half. */
  predicate Int32(x: bv64) {
    x <= 0x7FFF_FFFF || x >= 0xFFFF_FFFF_8000_0000
  }

  /** `get_comm_tag`. */
  function CommTag(userTag: bv64, source: bv64): bv64 {
    0 | (userTag << 32) | source
  }

  /** Two channels share a tag only if they have the same user tag, whatever its sign, and the same
      source, provided that sources are not negative. */
  lemma CommTagInjective(userTag: bv64, source: bv64, userTag': bv64, source': bv64)
    requires Int32(userTag) && Int32(userTag')
    requires source <= 0x7FFF_FFFF && source' <= 0x7FFF_FFFF
    requires CommTag(userTag, source) == CommTag(userTag', source')
    ensures userTag == userTag' && source == source'
  {
    LowHalf(userTag, source);
    LowHalf(userTag', source');
    HighHalf(userTag, source);
    HighHalf(userTag', source');
    FromLowHalf(userTag, userTag');
  }

  lemma LowHalf(userTag: bv64, source: bv64)
    requires source <= 0x7FFF_FFFF
    ensures CommTag(userTag, source) & 0xFFFF_FFFF == source
  {
  }

  lemma HighHalf(userTag: bv64, source: bv64)
    requires source <= 0x7FFF_FFFF
    ensures CommTag(userTag, source) >> 32 == userTag & 0xFFFF_FFFF
  {
  }

  lemma FromLowHalf(x: bv64, y: bv64)
    requires Int32(x) && Int32(y) && x & 0xFFFF_FFFF == y & 0xFFFF_FFFF
    ensures x == y
  {
  }

  /** A negative source fills the bits of the user tag: with it all user tags give one tag. */
  lemma NegativeSourcesCollide(userTag: bv64, userTag': bv64, source: bv64)
    requires Int32(source) && source > 0x7FFF_FFFF
    ensures CommTag(userTag, source) == CommTag(userTag', source)
  {
    assert source & 0xFFFF_FFFF_0000_0000 == 0xFFFF_FFFF_0000_0000;
  }

  /** The tag of the unbuffered communicator, converted from `int` to an unsigned tag of `width` values. */
  function UnbufferedTag(tag: int, ranks: nat, source: nat, width: nat): nat
    requires width > 0
  {
    (tag * ranks + source) % width
  }

  /** Also these tags tell channels apart, for user tags such as the reserved -1, as long as they fit
      an `int` and the tag is wider. */
  lemma UnbufferedTagInjective(tag: int, tag': int, ranks: nat, source: nat, source': nat, bound: nat, width: nat)
    requires source < ranks && source' < ranks && width >= 2 * bound && bound > 0
    requires 0 <= tag * ranks + source + bound < 2 * bound && 0 <= tag' * ranks + source' + bound < 2 * bound
    requires UnbufferedTag(tag, ranks, source, width) == UnbufferedTag(tag', ranks, source', width)
    ensures tag == tag' && source == source'
  {
    var x, x' := tag * ranks + source, tag' * ranks + source';
    DivideAgain(x, width);
    DivideAgain(x', width);
    Near(width, x / width, x' / width, x - x');
    SameQuotient(ranks, tag, source, tag', source');
  }

  lemma Near(width: int, q: int, q': int, diff: int)
    requires width > 0 && diff == width * q - width * q' && -width < diff < width
    ensures q == q' && diff == 0
  {
    if q < q' { MulStrict(width, q, q'); }
    if q > q' { MulStrict(width, q', q); }
  }
}
