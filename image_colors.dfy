/**
 * The pixel-colour routines of ImageUtil: in-place colour inversion, the average colour and the
 * dominant (most frequent approximate) colour of a rectangle of an image.
 */
module ImageColors {
  import opened Results
  import opened Awt

  /** Raised when the rectangle to analyse is not inside the image (RectangleOutOfBoundsException). */
  datatype OutOfBounds = RectangleOutOfBounds(rectangle: Rectangle, imageRectangle: Rectangle)

  /** The image's own rectangle, `new Rectangle(getMinX(), getMinY(), getWidth(), getHeight())`. */
  function Bounds(image: Image): Rectangle {
    Rectangle(0, 0, image.Length0, image.Length1)
  }

  // ---------------------------------------------------------------------------------------------
  // invertColors
  // ---------------------------------------------------------------------------------------------

  /** The colour a pixel is replaced by: each of red, green and blue reflected, alpha dropped. */
  function Inverted(c: Color): Color {
    Opaque(255 - c.red, 255 - c.green, 255 - c.blue)
  }

  /** Inverting twice restores red, green and blue, and leaves the pixel opaque. */
  lemma InvertedTwiceRestoresRgb(c: Color)
    ensures Inverted(Inverted(c)) == Opaque(c.red, c.green, c.blue)
    ensures Inverted(Inverted(c)).alpha == 255
  {
  }

  /** invertColors: overwrites every pixel with its inverted colour, column by column. */
  method InvertColors(image: Image)
    modifies image
    ensures forall x, y :: 0 <= x < image.Length0 && 0 <= y < image.Length1 ==>
      image[x, y] == Inverted(old(image[x, y]))
  {
    var x := 0;
    while x < image.Length0
      invariant 0 <= x <= image.Length0
      invariant forall i, j :: 0 <= i < x && 0 <= j < image.Length1 ==> image[i, j] == Inverted(old(image[i, j]))
      invariant forall i, j :: x <= i < image.Length0 && 0 <= j < image.Length1 ==> image[i, j] == old(image[i, j])
    {
      var y := 0;
      while y < image.Length1
        invariant 0 <= y <= image.Length1
        invariant forall i, j :: 0 <= i < x && 0 <= j < image.Length1 ==> image[i, j] == Inverted(old(image[i, j]))
        invariant forall j :: 0 <= j < y ==> image[x, j] == Inverted(old(image[x, j]))
        invariant forall j :: y <= j < image.Length1 ==> image[x, j] == old(image[x, j])
        invariant forall i, j :: x < i < image.Length0 && 0 <= j < image.Length1 ==> image[i, j] == old(image[i, j])
      {
        var color := image[x, y];
        image[x, y] := Opaque(255 - color.red, 255 - color.green, 255 - color.blue);
        y := y + 1;
      }
      x := x + 1;
    }
  }

  /** Inverting an image twice restores every pixel's red, green and blue channels. */
  method InvertColorsTwice(image: Image)
    modifies image
    ensures forall x, y :: 0 <= x < image.Length0 && 0 <= y < image.Length1 ==>
      image[x, y] == Opaque(old(image[x, y]).red, old(image[x, y]).green, old(image[x, y]).blue)
  {
    InvertColors(image);
    InvertColors(image);
  }

  // ---------------------------------------------------------------------------------------------
  // The pixels of a rectangle, in the order the nested loops visit them
  // ---------------------------------------------------------------------------------------------

  /** Pixels `(x, y0) .. (x, y1 - 1)` of one column. */
  ghost function Column(image: Image, x: int, y0: int, y1: int): (s: seq<Color>)
    requires 0 <= x < image.Length0 && 0 <= y0 <= y1 <= image.Length1
    reads image
    ensures |s| == y1 - y0
    decreases y1 - y0
  {
    if y1 == y0 then [] else Column(image, x, y0, y1 - 1) + [image[x, y1 - 1]]
  }

  /** The pixels of the columns of `r` left of `x1`, column after column. */
  ghost function Columns(image: Image, r: Rectangle, x1: int): (s: seq<Color>)
    requires Contains(Bounds(image), r) && r.x <= x1 <= r.x + r.width
    reads image
    decreases x1 - r.x
  {
    if x1 == r.x then [] else Columns(image, r, x1 - 1) + Column(image, x1 - 1, r.y, r.y + r.height)
  }

  /** Each column of `r` holds `r.height` pixels. */
  lemma {:induction false} ColumnsLength(image: Image, r: Rectangle, x1: int)
    requires Contains(Bounds(image), r) && r.x <= x1 <= r.x + r.width
    ensures |Columns(image, r, x1)| == (x1 - r.x) * r.height
    decreases x1 - r.x
  {
    if x1 > r.x {
      ColumnsLength(image, r, x1 - 1);
      assert (x1 - r.x) * r.height == (x1 - 1 - r.x) * r.height + r.height;
    }
  }

  /** The columns of `r` up to `x + 1` are those up to `x`, then column `x`. */
  lemma ColumnsSnoc(image: Image, r: Rectangle, x: int)
    requires Contains(Bounds(image), r) && r.x <= x < r.x + r.width
    ensures Columns(image, r, x + 1) == Columns(image, r, x) + Column(image, x, r.y, r.y + r.height)
  {
  }

  /** Every pixel of `r`, in loop order: x outer, y inner. */
  ghost function Region(image: Image, r: Rectangle): (s: seq<Color>)
    requires Contains(Bounds(image), r)
    reads image
    ensures |s| == r.width * r.height
  {
    ColumnsLength(image, r, r.x + r.width);
    Columns(image, r, r.x + r.width)
  }

  /** The region is the full run of its columns. */
  lemma RegionIsColumns(image: Image, r: Rectangle)
    requires Contains(Bounds(image), r)
    ensures Region(image, r) == Columns(image, r, r.x + r.width)
  {
  }

  // ---------------------------------------------------------------------------------------------
  // calculateAverageColor
  // ---------------------------------------------------------------------------------------------

  datatype Band = Red | Green | Blue

  function Level(c: Color, band: Band): Channel {
    match band
    case Red => c.red
    case Green => c.green
    case Blue => c.blue
  }

  /** The sum of one band over a sequence of pixels. */
  function Total(s: seq<Color>, band: Band): (t: int)
    ensures 0 <= t <= 255 * |s|
  {
    if s == [] then 0 else Total(s[..|s| - 1], band) + Level(s[|s| - 1], band)
  }

  /** The integer mean of one band, which stays a valid channel value. */
  function Mean(s: seq<Color>, band: Band): (m: Channel)
    requires s != []
    ensures m * |s| <= Total(s, band) < (m + 1) * |s|
  {
    FloorDivision(Total(s, band), |s|);
    Total(s, band) / |s|
  }

  /** Integer division of a total of at most 255 per item by the item count. */
  lemma FloorDivision(t: int, n: int)
    requires n > 0 && 0 <= t <= 255 * n
    ensures 0 <= t / n <= 255
    ensures (t / n) * n <= t < (t / n + 1) * n
  {
    var q, r := t / n, t % n;
    assert t == q * n + r && 0 <= r < n;
    assert (q + 1) * n == q * n + n;
    assert (255 - q) * n == 255 * n - q * n;
    ProductSign(q + 1, n);
    ProductSign(255 - q, n);
  }

  /** A product with a positive factor has the sign of the other factor. */
  lemma {:induction false} ProductSign(a: int, n: int)
    requires n > 0
    ensures a >= 0 ==> a * n >= 0
    ensures a < 0 ==> a * n < 0
    decreases n
  {
    if n > 1 {
      ProductSign(a, n - 1);
      assert a * n == a * (n - 1) + a;
    }
  }

  /**
   * calculateAverageColor(image, rectangle): RectangleOutOfBoundsException, before reading any
   * pixel, unless the rectangle lies inside the image (which rules out an empty rectangle);
   * otherwise the opaque colour whose channels are the integer means of the rectangle's pixels.
   */
  method CalculateAverageColor(image: Image, rectangle: Rectangle) returns (r: Result<Color, OutOfBounds>)
    ensures r.Failure? <==> !Contains(Bounds(image), rectangle)
    ensures r.Failure? ==> r.error == RectangleOutOfBounds(rectangle, Bounds(image))
    ensures r.Success? ==>
      var pixels := Region(image, rectangle);
      r.value == Opaque(Mean(pixels, Red), Mean(pixels, Green), Mean(pixels, Blue))
  {
    var imageRectangle := Bounds(image);
    if !Contains(imageRectangle, rectangle) {
      return Failure(RectangleOutOfBounds(rectangle, imageRectangle));
    }
    var totalRed, totalGreen, totalBlue := 0, 0, 0;
    var x := rectangle.x;
    while x < rectangle.x + rectangle.width
      invariant rectangle.x <= x <= rectangle.x + rectangle.width
      invariant totalRed == Total(Columns(image, rectangle, x), Red)
      invariant totalGreen == Total(Columns(image, rectangle, x), Green)
      invariant totalBlue == Total(Columns(image, rectangle, x), Blue)
    {
      ghost var done := Columns(image, rectangle, x);
      totalRed, totalGreen, totalBlue :=
        SumColumn(image, x, rectangle.y, rectangle.y + rectangle.height, done, totalRed, totalGreen, totalBlue);
      ColumnsSnoc(image, rectangle, x);
      x := x + 1;
    }
    RegionIsColumns(image, rectangle);
    var pixelCount := rectangle.width * rectangle.height;
    ghost var pixels := Region(image, rectangle);
    assert |pixels| == pixelCount;
    var averageRed, averageGreen, averageBlue := totalRed / pixelCount, totalGreen / pixelCount, totalBlue / pixelCount;
    assert averageRed == Mean(pixels, Red) && averageGreen == Mean(pixels, Green) && averageBlue == Mean(pixels, Blue);
    return Success(Opaque(averageRed, averageGreen, averageBlue));
  }

  /** The inner loop: adds the channels of column `x`, rows `y0 .. y1 - 1`, to the three totals. */
  method SumColumn(image: Image, x: int, y0: int, y1: int, ghost done: seq<Color>, red0: int, green0: int, blue0: int)
    returns (totalRed: int, totalGreen: int, totalBlue: int)
    requires 0 <= x < image.Length0 && 0 <= y0 <= y1 <= image.Length1
    requires red0 == Total(done, Red) && green0 == Total(done, Green) && blue0 == Total(done, Blue)
    ensures totalRed == Total(done + Column(image, x, y0, y1), Red)
    ensures totalGreen == Total(done + Column(image, x, y0, y1), Green)
    ensures totalBlue == Total(done + Column(image, x, y0, y1), Blue)
  {
    AppendNothing(done, Column(image, x, y0, y0));
    totalRed, totalGreen, totalBlue := red0, green0, blue0;
    var y := y0;
    while y < y1
      invariant y0 <= y <= y1
      invariant totalRed == Total(done + Column(image, x, y0, y), Red)
      invariant totalGreen == Total(done + Column(image, x, y0, y), Green)
      invariant totalBlue == Total(done + Column(image, x, y0, y), Blue)
    {
      var pixel := image[x, y];
      ghost var before := done + Column(image, x, y0, y);
      ColumnSnoc(image, x, y0, y);
      assert done + Column(image, x, y0, y + 1) == before + [pixel];
      assert (before + [pixel])[..|before|] == before;
      totalRed := totalRed + pixel.red;
      totalGreen := totalGreen + pixel.green;
      totalBlue := totalBlue + pixel.blue;
      y := y + 1;
    }
  }

  /** calculateAverageColor(image): the average over the whole image; only an empty image is refused. */
  method CalculateAverageColorOfImage(image: Image) returns (r: Result<Color, OutOfBounds>)
    ensures r.Failure? <==> image.Length0 == 0 || image.Length1 == 0
    ensures r.Success? ==>
      var pixels := Region(image, Bounds(image));
      r.value == Opaque(Mean(pixels, Red), Mean(pixels, Green), Mean(pixels, Blue))
  {
    r := CalculateAverageColor(image, Rectangle(0, 0, image.Length0, image.Length1));
  }

  /** A uniformly coloured rectangle averages to its own colour, made opaque. */
  lemma MeanOfUniform(s: seq<Color>, c: Color, band: Band)
    requires s != [] && forall i :: 0 <= i < |s| ==> s[i] == c
    ensures Mean(s, band) == Level(c, band)
  {
    TotalOfUniform(s, c, band);
    DivideMultiple(|s|, Level(c, band));
  }

  lemma {:induction false} TotalOfUniform(s: seq<Color>, c: Color, band: Band)
    requires forall i :: 0 <= i < |s| ==> s[i] == c
    ensures Total(s, band) == |s| * Level(c, band)
    decreases |s|
  {
    if s != [] {
      TotalOfUniform(s[..|s| - 1], c, band);
    }
  }

  lemma DivideMultiple(n: int, l: int)
    requires n > 0
    ensures (n * l) / n == l
  {
    var q, r := (n * l) / n, (n * l) % n;
    assert n * l == n * q + r;
    assert n * (l - q) == r;
    ProductBelowFactor(n, l - q);
  }

  lemma ProductBelowFactor(n: int, k: int)
    requires n > 0 && 0 <= n * k < n
    ensures k == 0
  {
    if k > 0 {
      ProductAtLeastFactor(n, k);
    } else if k < 0 {
      ProductAtLeastFactor(n, -k);
    }
  }

  lemma ProductAtLeastFactor(n: int, k: int)
    requires n > 0 && k > 0
    ensures n * k >= n
  {
  }

  // ---------------------------------------------------------------------------------------------
  // calculateDominantColor
  // ---------------------------------------------------------------------------------------------

  /** A channel rounded down to a multiple of 10: `c - (c % 10)`. */
  function Quantise(c: Channel): (q: Channel)
    ensures q % 10 == 0 && q <= 250
    ensures c - 10 < q <= c
  {
    c - c % 10
  }

  /** The opaque approximate colour a pixel is counted under. */
  function Approximate(c: Color): Color {
    Opaque(Quantise(c.red), Quantise(c.green), Quantise(c.blue))
  }

  /** The approximate colours of a sequence of pixels, position by position. */
  function Approximated(s: seq<Color>): (a: seq<Color>)
    ensures |a| == |s|
    ensures forall i :: 0 <= i < |s| ==> a[i] == Approximate(s[i])
  {
    seq(|s|, i requires 0 <= i < |s| => Approximate(s[i]))
  }

  lemma ApproximatedSnoc(s: seq<Color>, pixel: Color)
    ensures Approximated(s + [pixel]) == Approximated(s) + [Approximate(pixel)]
  {
    ApproximatedConcat(s, [pixel]);
  }

  /** Approximation works pixel by pixel, so it distributes over concatenation. */
  lemma ApproximatedConcat(s: seq<Color>, t: seq<Color>)
    ensures Approximated(s + t) == Approximated(s) + Approximated(t)
  {
    var a, b := Approximated(s + t), Approximated(s) + Approximated(t);
    assert |a| == |b|;
    forall i | 0 <= i < |a|
      ensures a[i] == b[i]
    {
      if i < |s| {
        assert (s + t)[i] == s[i];
      } else {
        assert (s + t)[i] == t[i - |s|];
      }
    }
  }

  /** `countByApproximateColors.getOrDefault(c, 0)`. */
  function CountOf(counts: map<Color, int>, c: Color): int {
    if c in counts then counts[c] else 0
  }

  /** `counts` holds the number of occurrences of every colour of `seen`, and no other colour. */
  ghost predicate Tallies(counts: map<Color, int>, seen: seq<Color>) {
    && (forall c :: CountOf(counts, c) == multiset(seen)[c])
    && (forall c :: c in counts ==> counts[c] > 0)
  }

  /** One `put(c, getOrDefault(c, 0) + 1)` tallies one more occurrence of `c`. */
  lemma TallyOneMore(counts: map<Color, int>, seen: seq<Color>, a: Color)
    requires Tallies(counts, seen)
    ensures Tallies(counts[a := CountOf(counts, a) + 1], seen + [a])
  {
    assert multiset(seen + [a]) == multiset(seen) + multiset{a};
  }

  /** `counts` after one `put(c, getOrDefault(c, 0) + 1)` per element of `seen`, in order. */
  function Added(counts: map<Color, int>, seen: seq<Color>): map<Color, int> {
    if seen == [] then counts
    else
      var before, a := Added(counts, seen[..|seen| - 1]), seen[|seen| - 1];
      before[a := CountOf(before, a) + 1]
  }

  /** Adding one more colour counts it once more. */
  lemma AddedSnoc(counts: map<Color, int>, s: seq<Color>, a: Color)
    ensures var before := Added(counts, s); Added(counts, s + [a]) == before[a := CountOf(before, a) + 1]
  {
    assert (s + [a])[..|s|] == s;
  }

  /** Adding `s` and then `t` is adding `s + t`. */
  lemma {:induction false} AddedConcat(counts: map<Color, int>, s: seq<Color>, t: seq<Color>)
    ensures Added(Added(counts, s), t) == Added(counts, s + t)
    decreases |t|
  {
    if t == [] {
      assert s + t == s;
    } else {
      var init := t[..|t| - 1];
      AddedConcat(counts, s, init);
      assert (s + t)[..|s + t| - 1] == s + init;
    }
  }

  /** Adding `seen` to a tally of `before` tallies `before + seen`. */
  lemma {:induction false} AddedCounts(counts: map<Color, int>, before: seq<Color>, seen: seq<Color>)
    requires Tallies(counts, before)
    ensures Tallies(Added(counts, seen), before + seen)
    decreases |seen|
  {
    if seen == [] {
      assert before + seen == before;
    } else {
      var init, a := seen[..|seen| - 1], seen[|seen| - 1];
      AddedCounts(counts, before, init);
      TallyOneMore(Added(counts, init), before + init, a);
      assert before + init + [a] == before + seen;
    }
  }

  /** The map built from nothing by the counting loop counts every colour it saw, and holds no other. */
  lemma TallyCountsEveryColor(seen: seq<Color>)
    ensures Tallies(Added(map[], seen), seen)
  {
    AddedCounts(map[], [], seen);
    assert [] + seen == seen;
  }

  /** Collections.max over the keys of the count-to-colour map. */
  method MaxKey(keys: set<nat>) returns (m: nat)
    requires keys != {}
    ensures m in keys
    ensures forall k :: k in keys ==> k <= m
  {
    m :| m in keys;
    var rest := keys - {m};
    while rest != {}
      invariant m in keys
      invariant rest <= keys
      invariant forall k :: k in keys && k !in rest ==> k <= m
      decreases rest
    {
      var k :| k in rest;
      if k > m {
        m := k;
      }
      rest := rest - {k};
    }
  }

  /**
   * The first loop of calculateDominantColor: `countByApproximateColors` maps every approximate
   * colour of the rectangle to its number of pixels, and holds no other colour.
   */
  method CountApproximateColors(image: Image, rectangle: Rectangle) returns (counts: map<Color, int>)
    requires Contains(Bounds(image), rectangle)
    ensures counts == Added(map[], Approximated(Region(image, rectangle)))
    ensures Tallies(counts, Approximated(Region(image, rectangle)))
  {
    counts := map[];
    var x := rectangle.x;
    while x < rectangle.x + rectangle.width
      invariant rectangle.x <= x <= rectangle.x + rectangle.width
      invariant counts == Added(map[], Approximated(Columns(image, rectangle, x)))
    {
      ghost var done, column := Columns(image, rectangle, x), Column(image, x, rectangle.y, rectangle.y + rectangle.height);
      ColumnsSnoc(image, rectangle, x);
      ghost var before := counts;
      counts := CountColumn(image, x, rectangle.y, rectangle.y + rectangle.height, column, counts);
      TallyColumn(done, column, before, counts);
      x := x + 1;
    }
    RegionIsColumns(image, rectangle);
    TallyCountsEveryColor(Approximated(Region(image, rectangle)));
  }

  /** Tallying a column after the columns before it tallies all of them. */
  lemma TallyColumn(done: seq<Color>, column: seq<Color>, before: map<Color, int>, after: map<Color, int>)
    requires before == Added(map[], Approximated(done))
    requires after == Added(before, Approximated(column))
    ensures after == Added(map[], Approximated(done + column))
  {
    AddedConcat(map[], Approximated(done), Approximated(column));
    ApproximatedConcat(done, column);
  }

  /** The inner loop: adds the approximate colours of column `x`, rows `y0 .. y1 - 1`, to the tally. */
  method CountColumn(image: Image, x: int, y0: int, y1: int, ghost column: seq<Color>, counts0: map<Color, int>)
    returns (counts: map<Color, int>)
    requires 0 <= x < image.Length0 && 0 <= y0 <= y1 <= image.Length1
    requires column == Column(image, x, y0, y1)
    ensures counts == Added(counts0, Approximated(column))
  {
    counts := counts0;
    var y := y0;
    while y < y1
      invariant y0 <= y <= y1
      invariant counts == Added(counts0, Approximated(Column(image, x, y0, y)))
    {
      counts := CountPixel(image, x, y0, y, counts0, counts);
      y := y + 1;
    }
  }

  /** The loop body: `put(approximateColor, getOrDefault(approximateColor, 0) + 1)` for pixel `(x, y)`. */
  method CountPixel(image: Image, x: int, y0: int, y: int, ghost counts0: map<Color, int>, before: map<Color, int>)
    returns (counts: map<Color, int>)
    requires 0 <= x < image.Length0 && 0 <= y0 <= y < image.Length1
    requires before == Added(counts0, Approximated(Column(image, x, y0, y)))
    ensures counts == Added(counts0, Approximated(Column(image, x, y0, y + 1)))
  {
    var approximateColor := Approximate(image[x, y]);
    TallyPixel(image, x, y0, y, counts0);
    counts := before[approximateColor := CountOf(before, approximateColor) + 1];
  }

  /** Tallying pixel `(x, y)` extends the tally of the column up to `y` by one pixel. */
  lemma TallyPixel(image: Image, x: int, y0: int, y: int, counts0: map<Color, int>)
    requires 0 <= x < image.Length0 && 0 <= y0 <= y < image.Length1
    ensures
      var before, a := Added(counts0, Approximated(Column(image, x, y0, y))), Approximate(image[x, y]);
      Added(counts0, Approximated(Column(image, x, y0, y + 1))) == before[a := CountOf(before, a) + 1]
  {
    var column, pixel := Column(image, x, y0, y), image[x, y];
    ColumnSnoc(image, x, y0, y);
    ApproximatedSnoc(column, pixel);
    AddedSnoc(counts0, Approximated(column), Approximate(pixel));
  }

  /** Column `x` up to `y + 1` is column `x` up to `y`, then pixel `(x, y)`. */
  lemma ColumnSnoc(image: Image, x: int, y0: int, y: int)
    requires 0 <= x < image.Length0 && 0 <= y0 <= y < image.Length1
    ensures Column(image, x, y0, y + 1) == Column(image, x, y0, y) + [image[x, y]]
  {
  }

  /**
   * The second loop of calculateDominantColor: every count that occurs is mapped to one of the
   * colours with that count (whichever the iteration order puts last), and to no other colour.
   */
  method ColorsByCount(counts: map<Color, int>) returns (byCount: map<nat, Color>)
    requires forall c :: c in counts ==> counts[c] > 0
    ensures forall n :: n in byCount ==> byCount[n] in counts && counts[byCount[n]] == n
    ensures forall c :: c in counts ==> counts[c] in byCount
  {
    byCount := map[];
    var pending := counts.Keys;
    while pending != {}
      invariant pending <= counts.Keys
      invariant forall n :: n in byCount ==> byCount[n] in counts && counts[byCount[n]] == n
      invariant forall c :: c in counts && c !in pending ==> counts[c] in byCount
      decreases pending
    {
      var entry :| entry in pending;
      byCount := byCount[counts[entry] := entry];
      pending := pending - {entry};
    }
  }

  /**
   * calculateDominantColor(image, rectangle): the same bounds check as the average; otherwise an
   * approximate colour that occurs in the rectangle and whose number of occurrences is the largest
   * of any approximate colour. Among equally frequent colours the choice is unspecified.
   */
  method CalculateDominantColor(image: Image, rectangle: Rectangle) returns (r: Result<Color, OutOfBounds>)
    ensures r.Failure? <==> !Contains(Bounds(image), rectangle)
    ensures r.Failure? ==> r.error == RectangleOutOfBounds(rectangle, Bounds(image))
    ensures r.Success? ==>
      var approximate := multiset(Approximated(Region(image, rectangle)));
      && r.value == Approximate(r.value)
      && approximate[r.value] > 0
      && forall c :: approximate[c] <= approximate[r.value]
  {
    var imageRectangle := Bounds(image);
    if !Contains(imageRectangle, rectangle) {
      return Failure(RectangleOutOfBounds(rectangle, imageRectangle));
    }
    var countByApproximateColors := CountApproximateColors(image, rectangle);
    ghost var approximate := Approximated(Region(image, rectangle));
    assert approximate[0] in countByApproximateColors by {
      assert multiset(approximate)[approximate[0]] > 0;
    }
    var approximateColorsByCount := ColorsByCount(countByApproximateColors);
    assert countByApproximateColors[approximate[0]] in approximateColorsByCount;
    var maxCount := MaxKey(approximateColorsByCount.Keys);
    var dominant := approximateColorsByCount[maxCount];
    forall c ensures multiset(approximate)[c] <= multiset(approximate)[dominant] {
      if c in countByApproximateColors {
        assert countByApproximateColors[c] in approximateColorsByCount;
      }
    }
    ApproximatedAreApproximate(Region(image, rectangle), dominant);
    return Success(dominant);
  }

  /** Every colour among the approximate colours of `s` is its own approximation. */
  lemma ApproximatedAreApproximate(s: seq<Color>, c: Color)
    requires c in multiset(Approximated(s))
    ensures c == Approximate(c)
  {
    var i :| 0 <= i < |s| && Approximated(s)[i] == c;
  }

  /** calculateDominantColor(image): the dominant colour of the whole image; only an empty image is refused. */
  method CalculateDominantColorOfImage(image: Image) returns (r: Result<Color, OutOfBounds>)
    ensures r.Failure? <==> image.Length0 == 0 || image.Length1 == 0
    ensures r.Success? ==>
      var approximate := multiset(Approximated(Region(image, Bounds(image))));
      && r.value == Approximate(r.value)
      && approximate[r.value] > 0
      && forall c :: approximate[c] <= approximate[r.value]
  {
    r := CalculateDominantColor(image, Rectangle(0, 0, image.Length0, image.Length1));
  }
}
