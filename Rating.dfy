/**
 * The five-star rendering shared by the product page and the product card: a `for` loop over
 * positions 0..4 that pushes a full, a half or an empty star.
 */
module Rating {
  datatype Glyph = Full | Half | Empty

  /** The number of stars drawn. */
  const StarCount := 5

  /** JavaScript's truncation toward zero of a number: the integer next to `r` on the side of zero. */
  function Trunc(r: real): (t: int)
    ensures r >= 0.0 ==> 0 <= t && t as real <= r < t as real + 1.0
    ensures r < 0.0 ==> t <= 0 && t as real - 1.0 < r <= t as real
  {
    if r >= 0.0 then r.Floor else -((-r).Floor)
  }

  /** JavaScript's `r % 1`: the remainder keeps the sign of `r`. */
  function JsRemainderOne(r: real): (f: real)
    ensures r >= 0.0 ==> 0.0 <= f < 1.0
    ensures r < 0.0 ==> -1.0 < f <= 0.0
  {
    r - Trunc(r) as real
  }

  /**
   * The glyph at position `i`: `fullStars = Math.floor(rating)`, `hasHalfStar = rating % 1 >= 0.5`.
   * A position is full exactly when it lies below the whole part of the rating, and only the
   * position of the whole part can be half.
   */
  function GlyphAt(rating: real, i: int): (g: Glyph)
    ensures g == Full <==> i < rating.Floor
    ensures g == Half ==> i == rating.Floor
  {
    var fullStars := rating.Floor;
    var hasHalfStar := JsRemainderOne(rating) >= 0.5;
    if i < fullStars then Full
    else if i == fullStars && hasHalfStar then Half
    else Empty
  }

  /** The array `renderRating` returns, as a value. */
  function Stars(rating: real): (s: seq<Glyph>)
    ensures |s| == StarCount
    ensures forall i :: 0 <= i < StarCount ==> s[i] == GlyphAt(rating, i)
  {
    [GlyphAt(rating, 0), GlyphAt(rating, 1), GlyphAt(rating, 2), GlyphAt(rating, 3), GlyphAt(rating, 4)]
  }

  /** `renderRating`'s loop: one glyph pushed per position. */
  method RenderRating(rating: real) returns (stars: seq<Glyph>)
    ensures stars == Stars(rating)
  {
    stars := [];
    var fullStars := rating.Floor;
    var hasHalfStar := JsRemainderOne(rating) >= 0.5;
    for i := 0 to StarCount
      invariant |stars| == i
      invariant forall k :: 0 <= k < i ==> stars[k] == GlyphAt(rating, k)
    {
      if i < fullStars {
        stars := stars + [Full];
      } else if i == fullStars && hasHalfStar {
        stars := stars + [Half];
      } else {
        stars := stars + [Empty];
      }
    }
  }

  /**
   * For a non-negative rating, position `i` is half exactly when it is the position of the whole
   * part and the fractional part `rating - floor(rating)` is at least one half.
   */
  lemma HalfIff(rating: real, i: int)
    requires rating >= 0.0
    ensures GlyphAt(rating, i) == Half <==> i == rating.Floor && rating - rating.Floor as real >= 0.5
  {
  }

  /** A negative rating draws no star at any position of the row. */
  lemma NegativeIsEmpty(rating: real, i: int)
    requires rating < 0.0 && 0 <= i
    ensures GlyphAt(rating, i) == Empty
  {
    assert rating.Floor < 0;
  }

  /** At most one position is half. */
  lemma AtMostOneHalf(rating: real, i: int, j: int)
    requires GlyphAt(rating, i) == Half && GlyphAt(rating, j) == Half
    ensures i == j
  {
  }

  /** Stars fill from the left: everything before a non-empty glyph is full. */
  lemma FilledFromLeft(rating: real, i: int, j: int)
    requires i < j && GlyphAt(rating, j) != Empty
    ensures GlyphAt(rating, i) == Full
  {
  }

  /** How many times `g` occurs in `s`. */
  function Count(s: seq<Glyph>, g: Glyph): nat {
    if s == [] then 0 else (if s[0] == g then 1 else 0) + Count(s[1..], g)
  }

  /** The glyphs at positions `from` up to the end of the row. */
  function Row(rating: real, from: nat): (s: seq<Glyph>)
    requires from <= StarCount
    ensures |s| == StarCount - from
    ensures forall k :: 0 <= k < |s| ==> s[k] == GlyphAt(rating, from + k)
    decreases StarCount - from
  {
    if from == StarCount then [] else [GlyphAt(rating, from)] + Row(rating, from + 1)
  }

  /** The number of full stars in the positions from `from` on. */
  lemma {:induction false} FullCountFrom(rating: real, from: nat)
    requires from <= StarCount
    ensures Count(Row(rating, from), Full)
      == if rating.Floor <= from then 0
         else if rating.Floor >= StarCount then StarCount - from
         else rating.Floor - from
    decreases StarCount - from
  {
    if from < StarCount {
      FullCountFrom(rating, from + 1);
      assert Row(rating, from)[1..] == Row(rating, from + 1);
    }
  }

  /** The row shows `floor(rating)` full stars, clamped to the range 0..5. */
  lemma FullCount(rating: real)
    ensures Count(Stars(rating), Full)
      == if rating.Floor <= 0 then 0 else if rating.Floor >= StarCount then StarCount else rating.Floor
  {
    FullCountFrom(rating, 0);
    assert Row(rating, 0) == Stars(rating);
  }

  /** The three sample ratings: 3.5, 0 and 5. */
  lemma Samples()
    ensures Stars(3.5) == [Full, Full, Full, Half, Empty]
    ensures Stars(0.0) == [Empty, Empty, Empty, Empty, Empty]
    ensures Stars(5.0) == [Full, Full, Full, Full, Full]
  {
    assert 3.5.Floor == 3;
    assert 0.0.Floor == 0;
    assert 5.0.Floor == 5;
  }
}
