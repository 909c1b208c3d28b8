/**
 * The star strip the dashboard draws next to the average rating (`renderStars`):
 * `Math.floor(rating)` full stars, one half star when `rating % 1 >= 0.5`, then
 * `5 - Math.ceil(rating)` empty stars.
 */
module Stars {
  import opened Rounding

  /** The three icons of the strip: filled, filled at half opacity, outlined. */
  datatype Glyph = Full | Half | Empty

  /** `n` copies of `g`; none when `n` is not positive (a `for` loop that never runs). */
  function Repeat(g: Glyph, n: int): (r: seq<Glyph>)
    ensures |r| == if n > 0 then n else 0
    ensures forall i :: 0 <= i < |r| ==> r[i] == g
  {
    if n <= 0 then [] else Repeat(g, n - 1) + [g]
  }

  predicate HasHalfStar(rating: real)
  {
    JsFrac(rating) >= 0.5
  }

  /** The strip the source emits for `rating`, as one value. */
  function StarGlyphs(rating: real): seq<Glyph>
  {
    Repeat(Full, Floor(rating)) + (if HasHalfStar(rating) then [Half] else []) + Repeat(Empty, 5 - Ceil(rating))
  }

  /** `renderStars`: two counting loops around the optional half star. */
  method RenderStars(rating: real) returns (stars: seq<Glyph>)
    ensures stars == StarGlyphs(rating)
  {
    stars := [];
    var fullStars := Floor(rating);
    var i := 0;
    while i < fullStars
      invariant 0 <= i <= (if fullStars > 0 then fullStars else 0)
      invariant stars == Repeat(Full, i)
    {
      stars := stars + [Full];
      i := i + 1;
    }
    assert stars == Repeat(Full, fullStars);
    if HasHalfStar(rating) {
      stars := stars + [Half];
    }
    var middle := stars;
    var emptyStars := 5 - Ceil(rating);
    var j := 0;
    while j < emptyStars
      invariant 0 <= j <= (if emptyStars > 0 then emptyStars else 0)
      invariant stars == middle + Repeat(Empty, j)
    {
      stars := stars + [Empty];
      j := j + 1;
    }
    assert Repeat(Empty, j) == Repeat(Empty, emptyStars);
  }

  /** Rank of a glyph in the strip's left-to-right order. */
  function Rank(g: Glyph): nat
  {
    match g
    case Full => 0
    case Half => 1
    case Empty => 2
  }

  function CountOf(s: seq<Glyph>, g: Glyph): (n: nat)
    ensures n <= |s|
  {
    if s == [] then 0 else CountOf(s[..|s| - 1], g) + (if s[|s| - 1] == g then 1 else 0)
  }

  lemma {:induction false} CountOfConcat(a: seq<Glyph>, b: seq<Glyph>, g: Glyph)
    ensures CountOf(a + b, g) == CountOf(a, g) + CountOf(b, g)
  {
    if b != [] {
      assert (a + b)[..|a + b| - 1] == a + b[..|b| - 1];
      CountOfConcat(a, b[..|b| - 1], g);
    } else {
      assert a + b == a;
    }
  }

  lemma {:induction false} CountOfRepeat(g: Glyph, n: int, h: Glyph)
    ensures CountOf(Repeat(g, n), h) == if g == h && n > 0 then n else 0
  {
    if n > 0 {
      var r := Repeat(g, n);
      assert r[..|r| - 1] == Repeat(g, n - 1);
      CountOfRepeat(g, n - 1, h);
    }
  }

  /** Full stars, then half, then empty: a run of each in that order. */
  lemma StarOrder(rating: real)
    ensures var s := StarGlyphs(rating);
      forall i, j :: 0 <= i < j < |s| ==> Rank(s[i]) <= Rank(s[j])
  {
    var half: seq<Glyph> := if HasHalfStar(rating) then [Half] else [];
    var a := Repeat(Full, Floor(rating));
    var c := Repeat(Empty, 5 - Ceil(rating));
    var s := StarGlyphs(rating);
    assert s == a + half + c;
    forall i, j | 0 <= i < j < |s| ensures Rank(s[i]) <= Rank(s[j]) {
      if i < |a| {
        assert s[i] == a[i];
      } else {
        assert j >= |a| + |half|;
        assert s[j] == c[j - |a| - |half|];
      }
    }
  }

  /** How many of each glyph a strip of n full, an optional half and m empty stars holds. */
  lemma CountOfStrip(n: int, half: bool, m: int, g: Glyph)
    ensures CountOf(Repeat(Full, n) + (if half then [Half] else []) + Repeat(Empty, m), g)
      == (if g == Full && n > 0 then n else 0) + (if g == Half && half then 1 else 0)
       + (if g == Empty && m > 0 then m else 0)
  {
    var h: seq<Glyph> := if half then [Half] else [];
    CountOfConcat(Repeat(Full, n) + h, Repeat(Empty, m), g);
    CountOfConcat(Repeat(Full, n), h, g);
    CountOfRepeat(Full, n, g);
    CountOfRepeat(Empty, m, g);
    if half {
      assert h[..0] == [];
    }
  }

  /** The strip has `Math.floor(rating)` full stars (none below 0) and at most one half star. */
  lemma StarTally(rating: real)
    ensures var s := StarGlyphs(rating);
      CountOf(s, Full) == (if Floor(rating) > 0 then Floor(rating) else 0)
      && CountOf(s, Half) == (if HasHalfStar(rating) then 1 else 0)
  {
    CountOfStrip(Floor(rating), HasHalfStar(rating), 5 - Ceil(rating), Full);
    CountOfStrip(Floor(rating), HasHalfStar(rating), 5 - Ceil(rating), Half);
  }

  /**
   * On the rating scale 0..5 the strip has five icons exactly when the fraction
   * is 0 or at least one half, and four otherwise.
   */
  lemma StarCount(rating: real)
    requires 0.0 <= rating <= 5.0
    ensures |StarGlyphs(rating)| == if JsFrac(rating) == 0.0 || HasHalfStar(rating) then 5 else 4
  {
    var n := Floor(rating);
    if JsFrac(rating) == 0.0 {
      assert rating == n as real;
      assert Ceil(rating) == n;
    } else {
      assert Ceil(rating) == n + 1;
    }
  }

  lemma WholeRatings()
    ensures StarGlyphs(0.0) == [Empty, Empty, Empty, Empty, Empty]
    ensures StarGlyphs(5.0) == [Full, Full, Full, Full, Full]
    ensures StarGlyphs(2.5) == [Full, Full, Half, Empty, Empty]
  {
    assert Repeat(Full, 2) == [Full, Full];
    assert Repeat(Empty, 2) == [Empty, Empty];
    assert Repeat(Empty, 5) == [Empty, Empty, Empty, Empty, Empty];
    assert Repeat(Full, 5) == [Full, Full, Full, Full, Full];
  }

  /** A 2.3 rating draws two full and two empty stars: one slot of the strip is missing. */
  lemma FourStarStrip()
    ensures StarGlyphs(2.3) == [Full, Full, Empty, Empty]
    ensures |StarGlyphs(2.3)| == 4
  {
    assert Floor(2.3) == 2;
    assert Ceil(2.3) == 3;
    assert Repeat(Full, 2) == [Full, Full];
    assert Repeat(Empty, 2) == [Empty, Empty];
  }

  /**
   * The strip with the empty count taken from what is already drawn,
   * `5 - fullStars - (hasHalfStar ? 1 : 0)`.
   */
  function FiveStarGlyphs(rating: real): (s: seq<Glyph>)
    requires 0.0 <= rating <= 5.0
    ensures |s| == 5
    ensures CountOf(s, Full) == Floor(rating)
    ensures CountOf(s, Half) == (if HasHalfStar(rating) then 1 else 0)
  {
    var full := Floor(rating);
    var half: seq<Glyph> := if HasHalfStar(rating) then [Half] else [];
    assert HasHalfStar(rating) ==> full < 5;
    var s := Repeat(Full, full) + half + Repeat(Empty, 5 - full - |half|);
    CountOfStrip(full, HasHalfStar(rating), 5 - full - |half|, Full);
    CountOfStrip(full, HasHalfStar(rating), 5 - full - |half|, Half);
    s
  }

  /** Where the source's strip already has five icons, the corrected strip is the same. */
  lemma FiveStarsAgree(rating: real)
    requires 0.0 <= rating <= 5.0
    requires JsFrac(rating) == 0.0 || HasHalfStar(rating)
    ensures FiveStarGlyphs(rating) == StarGlyphs(rating)
  {
    var n := Floor(rating);
    if JsFrac(rating) == 0.0 {
      assert rating == n as real;
      assert Ceil(rating) == n;
    } else {
      assert Ceil(rating) == n + 1;
    }
  }
}
