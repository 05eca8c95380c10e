/**
 * The bridge to the native OneOCR engine (class OneOcr): the search-path discipline around
 * initialisation, the status checks of the native calls, the marshalling of images and strings
 * into native buffers, and the walk over the engine's recognition result.
 *
 * The engine itself is foreign: what it answers is given by an `Engine` value, and the native
 * calls the bridge makes are recorded, in order, by a `NativeWorld` object.
 */
module NativeOcr {
  import opened Results
  import opened Awt

  newtype byte = b: int | 0 <= b < 256

  // ---------------------------------------------------------------------------------------------
  // Recognition result as the engine hands it out
  // ---------------------------------------------------------------------------------------------

  /** A JNA Pointer to a `T`: Java null, or a native address (0 meaning null as well). */
  datatype Handle<T> = Null | Handle(address: int, target: T)

  /** isNullPointer: a null reference or the native address 0. */
  predicate IsNullPointer<T>(handle: Handle<T>): (b: bool)
    ensures !b <==> handle.Handle? && handle.address != 0
  {
    handle.Null? || handle.address == 0
  }

  /** The native OcrBoundingBox: four corners, clockwise from the top-left. */
  datatype BoundingBox = BoundingBox(x1: real, y1: real, x2: real, y2: real, x3: real, y3: real, x4: real, y4: real)

  /** A recognised word: its text (GetOcrWordContent) and its box (GetOcrWordBoundingBox), both getters succeeding. */
  datatype OcrWord = OcrWord(content: string, box: BoundingBox)

  /** A recognised line: the word handles GetOcrWord yields for indices 0 .. word count - 1. */
  datatype OcrLine = OcrLine(words: seq<Handle<OcrWord>>)

  /** A result instance: the line handles GetOcrLine yields for indices 0 .. line count - 1. */
  datatype OcrInstance = OcrInstance(lines: seq<Handle<OcrLine>>)

  /** A word of the OCR result as the rest of the application sees it. */
  datatype LocatedWord = LocatedWord(text: string, rectangle: Rectangle)

  // ---------------------------------------------------------------------------------------------
  // toLocatedWord: lowercasing and the quad-to-rectangle conversion
  // ---------------------------------------------------------------------------------------------

  predicate IsUpper(c: char) {
    'A' <= c <= 'Z'
  }

  function LowerChar(c: char): char {
    if IsUpper(c) then (c as int + 32) as char else c
  }

  /** String.toLowerCase, on the ASCII letters. */
  function ToLower(s: string): (r: string)
    ensures |r| == |s|
    ensures forall i :: 0 <= i < |r| ==> !IsUpper(r[i])
    ensures forall i :: 0 <= i < |r| ==> r[i] == s[i] || (IsUpper(s[i]) && r[i] as int == s[i] as int + 32)
  {
    seq(|s|, i requires 0 <= i < |s| => LowerChar(s[i]))
  }

  /** Lowercasing is idempotent: text that is already lowercase is left alone. */
  lemma ToLowerIdempotent(s: string)
    ensures ToLower(ToLower(s)) == ToLower(s)
  {
  }

  /** Math.round of a float: the nearest integer, halves rounded up. */
  function Round(v: real): (r: int)
    ensures r as real - 0.5 <= v < r as real + 0.5
  {
    (v + 0.5).Floor
  }

  /**
   * toRectangle: the top-left corner is corner 1 rounded, and the width and height are the
   * rounded distances from corner 1 to corner 3.
   */
  function ToRectangle(box: BoundingBox): (r: Rectangle)
    ensures r.x as real - 0.5 <= box.x1 < r.x as real + 0.5
    ensures r.y as real - 0.5 <= box.y1 < r.y as real + 0.5
    ensures r.width as real - 0.5 <= box.x3 - box.x1 < r.width as real + 0.5
    ensures r.height as real - 0.5 <= box.y3 - box.y1 < r.height as real + 0.5
  {
    Rectangle(Round(box.x1), Round(box.y1), Round(box.x3 - box.x1), Round(box.y3 - box.y1))
  }

  /** Corners 2 and 4 play no part in the rectangle. */
  lemma ToRectangleIgnoresCorners2And4(box: BoundingBox, x2: real, y2: real, x4: real, y4: real)
    ensures ToRectangle(box.(x2 := x2, y2 := y2, x4 := x4, y4 := y4)) == ToRectangle(box)
  {
  }

  /** A box whose corners 1 and 3 lie on whole pixels maps to exactly those corners. */
  lemma ToRectangleOfWholePixels(x1: int, y1: int, x3: int, y3: int, box: BoundingBox)
    requires box.x1 == x1 as real && box.y1 == y1 as real && box.x3 == x3 as real && box.y3 == y3 as real
    ensures ToRectangle(box) == Rectangle(x1, y1, x3 - x1, y3 - y1)
  {
  }

  /** The axis-aligned box (10,20) (50,20) (50,60) (10,60) becomes the rectangle (10, 20, 40, 40). */
  lemma ToRectangleExample()
    ensures ToRectangle(BoundingBox(10.0, 20.0, 50.0, 20.0, 50.0, 60.0, 10.0, 60.0)) == Rectangle(10, 20, 40, 40)
  {
    ToRectangleOfWholePixels(10, 20, 50, 60, BoundingBox(10.0, 20.0, 50.0, 20.0, 50.0, 60.0, 10.0, 60.0));
  }

  /** toLocatedWord: the lowercased text and the rectangle of corners 1 and 3. */
  function ToLocatedWord(word: OcrWord): (w: LocatedWord)
    ensures |w.text| == |word.content|
    ensures forall i :: 0 <= i < |w.text| ==> !IsUpper(w.text[i])
    ensures forall i :: 0 <= i < |w.text| ==> w.text[i] == word.content[i] || IsUpper(word.content[i])
    ensures w.rectangle == ToRectangle(word.box)
  {
    LocatedWord(ToLower(word.content), ToRectangle(word.box))
  }

  // ---------------------------------------------------------------------------------------------
  // toLocatedWords: flattening lines, then words, skipping null handles
  // ---------------------------------------------------------------------------------------------

  /** The concatenation, in order, of what `f` yields for each element of `xs`. */
  function Flatten<T, U>(xs: seq<T>, f: T -> seq<U>): seq<U> {
    if xs == [] then [] else Flatten(xs[..|xs| - 1], f) + f(xs[|xs| - 1])
  }

  lemma FlattenSnoc<T, U>(xs: seq<T>, x: T, f: T -> seq<U>)
    ensures Flatten(xs + [x], f) == Flatten(xs, f) + f(x)
  {
    assert (xs + [x])[..|xs|] == xs;
  }

  lemma {:induction false} FlattenConcat<T, U>(a: seq<T>, b: seq<T>, f: T -> seq<U>)
    ensures Flatten(a + b, f) == Flatten(a, f) + Flatten(b, f)
    decreases |b|
  {
    if b == [] {
      assert a + b == a;
    } else {
      var init, last := b[..|b| - 1], b[|b| - 1];
      assert b == init + [last];
      calc {
        Flatten(a + b, f);
        == { assert a + b == (a + init) + [last]; }
        Flatten((a + init) + [last], f);
        == { FlattenSnoc(a + init, last, f); }
        Flatten(a + init, f) + f(last);
        == { FlattenConcat(a, init, f); }
        (Flatten(a, f) + Flatten(init, f)) + f(last);
        == { AppendAssociates(Flatten(a, f), Flatten(init, f), f(last)); }
        Flatten(a, f) + (Flatten(init, f) + f(last));
        == { FlattenSnoc(init, last, f); }
        Flatten(a, f) + Flatten(b, f);
      }
    }
  }

  /** An item is in the flattening exactly when one of the elements yields it. */
  lemma {:induction false} FlattenMembership<T, U>(xs: seq<T>, f: T -> seq<U>, u: U)
    ensures u in Flatten(xs, f) <==> exists i :: 0 <= i < |xs| && u in f(xs[i])
    decreases |xs|
  {
    if xs != [] {
      var init := xs[..|xs| - 1];
      FlattenMembership(init, f, u);
      if exists i :: 0 <= i < |xs| && u in f(xs[i]) {
        var i :| 0 <= i < |xs| && u in f(xs[i]);
        if i < |xs| - 1 {
          assert init[i] == xs[i];
        }
      }
    }
  }

  /** What one word handle adds: nothing for a null handle, else its located word. */
  function WordContribution(word: Handle<OcrWord>): seq<LocatedWord> {
    if IsNullPointer(word) then [] else [ToLocatedWord(word.target)]
  }

  /** The located words of a line's word handles, in index order, null handles skipped. */
  function LineWords(words: seq<Handle<OcrWord>>): seq<LocatedWord> {
    Flatten(words, WordContribution)
  }

  /** What one line handle adds: nothing for a null handle, else the words of the line. */
  function LineContribution(line: Handle<OcrLine>): seq<LocatedWord> {
    if IsNullPointer(line) then [] else LineWords(line.target.words)
  }

  /** The located words of all lines, line after line, null line handles skipped. */
  function LocatedWords(lines: seq<Handle<OcrLine>>): seq<LocatedWord> {
    Flatten(lines, LineContribution)
  }

  /** The ArrayList that both toLocatedWords methods append to. */
  class WordList {
    var items: seq<LocatedWord>

    constructor ()
      ensures items == []
    {
      items := [];
    }

    method Add(word: LocatedWord)
      modifies this
      ensures items == old(items) + [word]
    {
      items := items + [word];
    }
  }

  /** toLocatedWords(line, words): appends the line's words to `words`. */
  method AppendLineWords(line: OcrLine, words: WordList)
    modifies words
    ensures words.items == old(words.items) + LineWords(line.words)
  {
    var wordCount := |line.words|;
    for j := 0 to wordCount
      invariant words.items == old(words.items) + LineWords(line.words[..j])
    {
      var word := line.words[j];
      assert line.words[..j + 1] == line.words[..j] + [word];
      FlattenSnoc(line.words[..j], word, WordContribution);
      if IsNullPointer(word) {
        continue;
      }
      words.Add(ToLocatedWord(word.target));
    }
    assert line.words[..wordCount] == line.words;
  }

  /** toLocatedWords(instance, lineCount): every line's words, in order. */
  method ToLocatedWords(instance: OcrInstance) returns (result: seq<LocatedWord>)
    ensures result == LocatedWords(instance.lines)
  {
    var words := new WordList();
    var lineCount := |instance.lines|;
    for i := 0 to lineCount
      invariant words.items == LocatedWords(instance.lines[..i])
    {
      var line := instance.lines[i];
      assert instance.lines[..i + 1] == instance.lines[..i] + [line];
      FlattenSnoc(instance.lines[..i], line, LineContribution);
      if IsNullPointer(line) {
        continue;
      }
      AppendLineWords(line.target, words);
    }
    assert instance.lines[..lineCount] == instance.lines;
    result := words.items;
  }

  /** Word handles are walked in order: the words of `a + b` are those of `a`, then those of `b`. */
  lemma LineWordsConcat(a: seq<Handle<OcrWord>>, b: seq<Handle<OcrWord>>)
    ensures LineWords(a + b) == LineWords(a) + LineWords(b)
  {
    FlattenConcat(a, b, WordContribution);
  }

  /** Lines are walked in order: the words of `a + b` are the words of `a`, then those of `b`. */
  lemma LocatedWordsConcat(a: seq<Handle<OcrLine>>, b: seq<Handle<OcrLine>>)
    ensures LocatedWords(a + b) == LocatedWords(a) + LocatedWords(b)
  {
    FlattenConcat(a, b, LineContribution);
  }

  /** A null line handle contributes nothing: dropping it leaves the output unchanged. */
  lemma NullLineContributesNothing(lines: seq<Handle<OcrLine>>, i: nat)
    requires i < |lines| && IsNullPointer(lines[i])
    ensures LocatedWords(lines) == LocatedWords(lines[..i] + lines[i + 1..])
  {
    var before, line, after := lines[..i], lines[i], lines[i + 1..];
    SplitAt(lines, i);
    FlattenConcat(before + [line], after, LineContribution);
    FlattenSnoc(before, line, LineContribution);
    FlattenConcat(before, after, LineContribution);
  }

  /** A word is output for a line exactly when some non-null word handle of it yields that word. */
  lemma LineWordsMembership(words: seq<Handle<OcrWord>>, w: LocatedWord)
    ensures w in LineWords(words) <==>
      exists j :: 0 <= j < |words| && !IsNullPointer(words[j]) && w == ToLocatedWord(words[j].target)
  {
    FlattenMembership(words, WordContribution, w);
    if w in LineWords(words) {
      var j :| 0 <= j < |words| && w in WordContribution(words[j]);
      assert !IsNullPointer(words[j]) && w == ToLocatedWord(words[j].target);
    }
    if exists j :: 0 <= j < |words| && !IsNullPointer(words[j]) && w == ToLocatedWord(words[j].target) {
      var j :| 0 <= j < |words| && !IsNullPointer(words[j]) && w == ToLocatedWord(words[j].target);
      assert w in WordContribution(words[j]);
    }
  }

  /**
   * Nothing is dropped and nothing invented: a word is in the output exactly when a non-null word
   * handle of a non-null line handle yields it.
   */
  lemma LocatedWordsMembership(lines: seq<Handle<OcrLine>>, w: LocatedWord)
    ensures w in LocatedWords(lines) <==>
      exists i :: 0 <= i < |lines| && !IsNullPointer(lines[i]) && w in LineWords(lines[i].target.words)
  {
    FlattenMembership(lines, LineContribution, w);
    if w in LocatedWords(lines) {
      var i :| 0 <= i < |lines| && w in LineContribution(lines[i]);
      assert !IsNullPointer(lines[i]) && w in LineWords(lines[i].target.words);
    }
    if exists i :: 0 <= i < |lines| && !IsNullPointer(lines[i]) && w in LineWords(lines[i].target.words) {
      var i :| 0 <= i < |lines| && !IsNullPointer(lines[i]) && w in LineWords(lines[i].target.words);
      assert w in LineContribution(lines[i]);
    }
  }

  /** Every output word's text is lowercase. */
  lemma LocatedWordsAreLowercase(lines: seq<Handle<OcrLine>>)
    ensures forall w :: w in LocatedWords(lines) ==> forall k :: 0 <= k < |w.text| ==> !IsUpper(w.text[k])
  {
    forall w | w in LocatedWords(lines)
      ensures forall k :: 0 <= k < |w.text| ==> !IsUpper(w.text[k])
    {
      LocatedWordsMembership(lines, w);
      var i :| 0 <= i < |lines| && !IsNullPointer(lines[i]) && w in LineWords(lines[i].target.words);
      LineWordsMembership(lines[i].target.words, w);
    }
  }

  // ---------------------------------------------------------------------------------------------
  // toNativeImg: the 6-field image descriptor over a BGRA buffer
  // ---------------------------------------------------------------------------------------------

  /** The native Img struct; `data` stands for the buffer `dataPtr` points to. */
  datatype Img = Img(t: int, col: int, row: int, unk: int, step: int, data: seq<byte>)

  /** Image type 3: four channels. */
  const FOUR_CHANNEL_TYPE: int := 3

  /** Bytes per pixel, Integer.BYTES. */
  const PIXEL_BYTES: int := 4

  /** An ARGB int written in little-endian order: blue, green, red, alpha. */
  function PixelBytes(c: Color): seq<byte> {
    [c.blue as byte, c.green as byte, c.red as byte, c.alpha as byte]
  }

  /** The buffer of a sequence of pixels, each in its four bytes. */
  function Bgra(pixels: seq<Color>): (data: seq<byte>)
    ensures |data| == PIXEL_BYTES * |pixels|
  {
    if pixels == [] then [] else Bgra(pixels[..|pixels| - 1]) + PixelBytes(pixels[|pixels| - 1])
  }

  /** Pixels `(0, y) .. (x - 1, y)` of row `y`. */
  ghost function Row(image: Image, y: int, x: int): (s: seq<Color>)
    requires 0 <= y < image.Length1 && 0 <= x <= image.Length0
    reads image
    ensures |s| == x
  {
    if x == 0 then [] else Row(image, y, x - 1) + [image[x - 1, y]]
  }

  /** Rows `0 .. y - 1`, row after row: the int[] that getRGB(0, 0, w, h, pixels, 0, w) fills. */
  ghost function Rows(image: Image, y: int): (s: seq<Color>)
    requires 0 <= y <= image.Length1
    reads image
  {
    if y == 0 then [] else Rows(image, y - 1) + Row(image, y - 1, image.Length0)
  }

  /** Each row holds one pixel per column. */
  lemma {:induction false} RowsLength(image: Image, y: int)
    requires 0 <= y <= image.Length1
    ensures |Rows(image, y)| == y * image.Length0
    decreases y
  {
    if y > 0 {
      RowsLength(image, y - 1);
      assert (y - 1) * image.Length0 + image.Length0 == y * image.Length0;
    }
  }

  /** The descriptor toNativeImg builds for an image. */
  ghost function NativeImage(image: Image): Img
    reads image
  {
    Img(FOUR_CHANNEL_TYPE, image.Length0, image.Length1, 0, PIXEL_BYTES * image.Length0, Bgra(Rows(image, image.Length1)))
  }

  /**
   * Reading the descriptor the way the engine does, at byte `y * step + 4 * x`, finds the four
   * bytes of colour `c`.
   */
  ghost predicate ShowsPixel(img: Img, x: int, y: int, c: Color) {
    var offset := y * img.step + PIXEL_BYTES * x;
    0 <= offset && offset + PIXEL_BYTES <= |img.data| && img.data[offset..offset + PIXEL_BYTES] == PixelBytes(c)
  }

  /**
   * toNativeImg: a type-3 descriptor of the image's width and height, unused field 0, a stride of
   * four bytes per pixel of a row, over the row-major BGRA buffer of the image.
   */
  method ToNativeImg(image: Image) returns (img: Img)
    ensures img == NativeImage(image)
    ensures img.t == 3 && img.col == image.Length0 && img.row == image.Length1 && img.unk == 0
    ensures img.step == 4 * image.Length0 && |img.data| == 4 * image.Length0 * image.Length1
  {
    var width := image.Length0;
    var height := image.Length1;
    var data: seq<byte> := [];
    for y := 0 to height
      invariant data == Bgra(Rows(image, y))
    {
      data := AppendRow(image, y, data);
    }
    RowsLength(image, height);
    assert PIXEL_BYTES * (height * width) == 4 * width * height;
    img := Img(FOUR_CHANNEL_TYPE, width, height, 0, PIXEL_BYTES * width, data);
  }

  /** One row of getRGB's copy: appends the bytes of row `y`, left to right. */
  method AppendRow(image: Image, y: int, data0: seq<byte>) returns (data: seq<byte>)
    requires 0 <= y < image.Length1 && data0 == Bgra(Rows(image, y))
    ensures data == Bgra(Rows(image, y + 1))
  {
    ghost var done := Rows(image, y);
    assert done + Row(image, y, 0) == done;
    data := data0;
    for x := 0 to image.Length0
      invariant data == Bgra(done + Row(image, y, x))
    {
      var pixel := image[x, y];
      assert done + Row(image, y, x + 1) == done + Row(image, y, x) + [pixel];
      BgraSnoc(done + Row(image, y, x), pixel);
      data := data + PixelBytes(pixel);
    }
  }

  lemma BgraSnoc(pixels: seq<Color>, c: Color)
    ensures Bgra(pixels + [c]) == Bgra(pixels) + PixelBytes(c)
  {
    assert (pixels + [c])[..|pixels|] == pixels;
  }

  lemma {:induction false} BgraAt(pixels: seq<Color>, k: nat)
    requires k < |pixels|
    ensures Bgra(pixels)[PIXEL_BYTES * k..PIXEL_BYTES * k + PIXEL_BYTES] == PixelBytes(pixels[k])
    decreases |pixels|
  {
    var init := pixels[..|pixels| - 1];
    if k < |pixels| - 1 {
      BgraAt(init, k);
      assert Bgra(pixels)[..PIXEL_BYTES * |init|] == Bgra(init);
    }
  }

  lemma {:induction false} RowAt(image: Image, y: int, n: int, x: int)
    requires 0 <= y < image.Length1 && 0 <= x < n <= image.Length0
    ensures Row(image, y, n)[x] == image[x, y]
    decreases n
  {
    if x < n - 1 {
      RowAt(image, y, n - 1, x);
    }
  }

  lemma {:induction false} RowsAt(image: Image, n: int, x: int, y: int)
    requires 0 <= x < image.Length0 && 0 <= y < n <= image.Length1
    ensures 0 <= y * image.Length0 + x < |Rows(image, n)|
    ensures Rows(image, n)[y * image.Length0 + x] == image[x, y]
    decreases n
  {
    var w := image.Length0;
    RowsLength(image, n - 1);
    if y == n - 1 {
      RowAt(image, y, w, x);
    } else {
      RowsAt(image, n - 1, x, y);
      RowBeforeNext(w, x, y, n - 1);
    }
  }

  lemma RowBeforeNext(w: int, x: int, y: int, n: int)
    requires 0 <= x < w && 0 <= y < n
    ensures y * w + x < n * w
  {
    assert y * w + x < (y + 1) * w;
    assert (y + 1) * w <= n * w;
  }

  /** Every pixel of the image is found in the descriptor at its row and column. */
  lemma NativeImageShowsEveryPixel(image: Image, x: int, y: int)
    requires 0 <= x < image.Length0 && 0 <= y < image.Length1
    ensures ShowsPixel(NativeImage(image), x, y, image[x, y])
  {
    var w, h := image.Length0, image.Length1;
    var k := y * w + x;
    RowsAt(image, h, x, y);
    BgraAt(Rows(image, h), k);
    PixelOffset(w, x, y);
  }

  /** The engine's offset of pixel `(x, y)` is four bytes per pixel before it in row-major order. */
  lemma PixelOffset(w: int, x: int, y: int)
    ensures y * (PIXEL_BYTES * w) + PIXEL_BYTES * x == PIXEL_BYTES * (y * w + x)
  {
    assert y * (PIXEL_BYTES * w) == PIXEL_BYTES * (y * w);
  }

  // ---------------------------------------------------------------------------------------------
  // toNativeString: ASCII bytes and a NUL terminator
  // ---------------------------------------------------------------------------------------------

  /** The US-ASCII encoding of one character: itself below 128, otherwise '?'. */
  function AsciiByte(c: char): byte {
    if c as int < 128 then c as int as byte else '?' as int as byte
  }

  /** The bytes toNativeString writes: the ASCII encoding of `s`, then a 0 terminator. */
  function NulTerminated(s: string): (r: seq<byte>)
    ensures |r| == |s| + 1 && r[|s|] == 0
    ensures forall i :: 0 <= i < |s| ==> r[i] == AsciiByte(s[i])
  {
    seq(|s|, i requires 0 <= i < |s| => AsciiByte(s[i])) + [0]
  }

  /** toNativeString: fills a buffer of `|s| + 1` bytes. */
  method ToNativeString(s: string) returns (mem: seq<byte>)
    ensures mem == NulTerminated(s)
  {
    var buffer := new byte[|s| + 1];
    for i := 0 to |s|
      invariant forall k :: 0 <= k < i ==> buffer[k] == AsciiByte(s[k])
    {
      buffer[i] := AsciiByte(s[i]);
    }
    buffer[|s|] := 0;
    mem := buffer[..];
  }

  /** Reading a C string: the characters of the bytes before the first 0. */
  function ReadCString(bytes: seq<byte>): string {
    if bytes == [] || bytes[0] == 0 then [] else [bytes[0] as int as char] + ReadCString(bytes[1..])
  }

  predicate IsPlainAscii(s: string) {
    forall i :: 0 <= i < |s| ==> 0 < s[i] as int < 128
  }

  /** A string of non-NUL ASCII characters is read back unchanged from its native copy. */
  lemma {:induction false} NulTerminatedRoundTrip(s: string)
    requires IsPlainAscii(s)
    ensures ReadCString(NulTerminated(s)) == s
    decreases |s|
  {
    if s != [] {
      assert NulTerminated(s)[1..] == NulTerminated(s[1..]);
      NulTerminatedRoundTrip(s[1..]);
    }
  }

  // ---------------------------------------------------------------------------------------------
  // check: status codes of the native calls
  // ---------------------------------------------------------------------------------------------

  datatype OcrError =
    | NativeCallFailed(functionName: string, errorCode: int)  // check's IllegalStateException
    | LibraryLoadFailed(path: string)                          // Native.load throws
    | ScreenshotOutputDisabled                                 // process: the disk writer is off
    | ImageReadFailed                                          // process: ImageIO.read throws

  /** check(functionName, result): fails, naming the function and the code, on any non-zero status. */
  function Check(functionName: string, status: int): (r: Outcome<OcrError>)
    ensures r == Pass <==> status == 0
    ensures r.Fail? ==> r.error.NativeCallFailed? && r.error.functionName == functionName && r.error.errorCode == status
  {
    if status != 0 then Fail(NativeCallFailed(functionName, status)) else Pass
  }

  /** A call the bridge makes into native code. */
  datatype NativeCall =
    | SetDllDirectoryA(directory: Option<string>)
    | LoadLibrary(libraryPath: string, searchDirectory: Option<string>)
    | CreateOcrInitOptions
    | OcrInitOptionsSetUseModelDelayLoad(flag: int)
    | CreateOcrPipeline(modelPath: seq<byte>, key: seq<byte>)
    | CreateOcrProcessOptions
    | OcrProcessOptionsSetMaxRecognitionLineCount(count: int)
    | RunOcrPipeline(image: Img)

  /** The function name each checked call reports. */
  function CallName(call: NativeCall): string {
    match call
    case SetDllDirectoryA(_) => "SetDllDirectoryA"
    case LoadLibrary(_, _) => "LoadLibrary"
    case CreateOcrInitOptions => "CreateOcrInitOptions"
    case OcrInitOptionsSetUseModelDelayLoad(_) => "OcrInitOptionsSetUseModelDelayLoad"
    case CreateOcrPipeline(_, _) => "CreateOcrPipeline"
    case CreateOcrProcessOptions => "CreateOcrProcessOptions"
    case OcrProcessOptionsSetMaxRecognitionLineCount(_) => "OcrProcessOptionsSetMaxRecognitionLineCount"
    case RunOcrPipeline(_) => "RunOcrPipeline"
  }

  /**
   * What the native side answers: whether a library loads from a path given the DLL search
   * directory, the status code of each checked call, and the result instance a run yields.
   */
  datatype Engine = Engine(
    loads: (string, Option<string>) -> bool,
    status: NativeCall -> int,
    recognise: Img -> OcrInstance)

  /** The calls of a run of checked calls: up to and including the first with a non-zero status. */
  function Attempted(engine: Engine, calls: seq<NativeCall>): (r: seq<NativeCall>)
    ensures |r| <= |calls| && r == calls[..|r|]
  {
    if calls == [] then []
    else if engine.status(calls[0]) != 0 then [calls[0]]
    else [calls[0]] + Attempted(engine, calls[1..])
  }

  /** The outcome of a run of checked calls: the check of the first call that fails, if any. */
  function FirstFailure(engine: Engine, calls: seq<NativeCall>): Outcome<OcrError> {
    if calls == [] then Pass
    else if engine.status(calls[0]) != 0 then Check(CallName(calls[0]), engine.status(calls[0]))
    else FirstFailure(engine, calls[1..])
  }

  /**
   * A run of checked calls passes exactly when every status is 0, and then every call is made;
   * otherwise it stops at the first failing call, which the error names.
   */
  lemma FirstFailureStopsTheRun(engine: Engine, calls: seq<NativeCall>)
    ensures FirstFailure(engine, calls).Pass? <==> forall k :: 0 <= k < |calls| ==> engine.status(calls[k]) == 0
    ensures FirstFailure(engine, calls).Pass? ==> Attempted(engine, calls) == calls
    ensures FirstFailure(engine, calls).Fail? ==>
      var n := |Attempted(engine, calls)|;
      var failed := calls[n - 1];
      && n > 0
      && (forall k :: 0 <= k < n - 1 ==> engine.status(calls[k]) == 0)
      && FirstFailure(engine, calls).error == NativeCallFailed(CallName(failed), engine.status(failed))
  {
    RunPassesIffAllZero(engine, calls);
    if FirstFailure(engine, calls).Fail? {
      RunStopsAtFirstFailure(engine, calls);
      FailureNamesLastAttempted(engine, calls);
    }
  }

  /** A run passes exactly when every status is 0, and then it makes every call. */
  lemma {:induction false} RunPassesIffAllZero(engine: Engine, calls: seq<NativeCall>)
    ensures FirstFailure(engine, calls).Pass? <==> forall k :: 0 <= k < |calls| ==> engine.status(calls[k]) == 0
    ensures FirstFailure(engine, calls).Pass? ==> Attempted(engine, calls) == calls
    decreases |calls|
  {
    if calls != [] && engine.status(calls[0]) == 0 {
      var rest := calls[1..];
      RunPassesIffAllZero(engine, rest);
      assert forall k :: 1 <= k < |calls| ==> calls[k] == rest[k - 1];
    }
  }

  /** A failing run ends with its first failing call: every call before it returned status 0. */
  lemma {:induction false} RunStopsAtFirstFailure(engine: Engine, calls: seq<NativeCall>)
    requires FirstFailure(engine, calls).Fail?
    ensures |Attempted(engine, calls)| > 0
    ensures forall k :: 0 <= k < |Attempted(engine, calls)| - 1 ==> engine.status(calls[k]) == 0
    decreases |calls|
  {
    if engine.status(calls[0]) == 0 {
      var rest := calls[1..];
      RunStopsAtFirstFailure(engine, rest);
      assert Attempted(engine, calls) == [calls[0]] + Attempted(engine, rest);
      forall k | 0 < k < |Attempted(engine, rest)|
        ensures engine.status(calls[k]) == 0
      {
        assert calls[k] == rest[k - 1];
      }
    } else {
      assert Attempted(engine, calls) == [calls[0]];
    }
  }

  /** A failing run reports the name and status of the last call it attempted. */
  lemma {:induction false} FailureNamesLastAttempted(engine: Engine, calls: seq<NativeCall>)
    requires FirstFailure(engine, calls).Fail?
    ensures |Attempted(engine, calls)| > 0
    ensures var failed := calls[|Attempted(engine, calls)| - 1];
      FirstFailure(engine, calls).error == NativeCallFailed(CallName(failed), engine.status(failed))
    decreases |calls|
  {
    if engine.status(calls[0]) == 0 {
      var rest := calls[1..];
      FailureNamesLastAttempted(engine, rest);
      assert Attempted(engine, calls) == [calls[0]] + Attempted(engine, rest);
      ghost var n := |Attempted(engine, rest)|;
      ghost var failed := rest[n - 1];
      assert calls[n] == failed;
      calc {
        FirstFailure(engine, calls).error;
        FirstFailure(engine, rest).error;
        NativeCallFailed(CallName(failed), engine.status(failed));
      }
      assert |Attempted(engine, calls)| - 1 == n;
    } else {
      assert Attempted(engine, calls) == [calls[0]];
      assert FirstFailure(engine, calls) == Check(CallName(calls[0]), engine.status(calls[0]));
    }
  }

  /** The native side: the process-wide DLL search directory and the calls made so far. */
  class NativeWorld {
    var dllDirectory: Option<string>
    var calls: seq<NativeCall>

    constructor ()
      ensures dllDirectory == None && calls == []
    {
      dllDirectory := None;
      calls := [];
    }

    /** kernel32's SetDllDirectoryA; None restores the default search order. */
    method SetDllDirectory(path: Option<string>)
      modifies this
      ensures dllDirectory == path && calls == old(calls) + [SetDllDirectoryA(path)]
    {
      dllDirectory := path;
      calls := calls + [SetDllDirectoryA(path)];
    }

    /** Native.load: whether the library loads under the current search directory. */
    method Load(engine: Engine, path: string) returns (loaded: bool)
      modifies this
      ensures loaded == engine.loads(path, old(dllDirectory))
      ensures dllDirectory == old(dllDirectory) && calls == old(calls) + [LoadLibrary(path, old(dllDirectory))]
    {
      loaded := engine.loads(path, dllDirectory);
      calls := calls + [LoadLibrary(path, dllDirectory)];
    }

    /** One call into the library, returning its status code. */
    method Invoke(engine: Engine, call: NativeCall) returns (status: int)
      modifies this
      ensures status == engine.status(call)
      ensures dllDirectory == old(dllDirectory) && calls == old(calls) + [call]
    {
      status := engine.status(call);
      calls := calls + [call];
    }

    /** A run of `check(name, lib.Call(...))` statements: stops at the first that throws. */
    method CheckAll(engine: Engine, checked: seq<NativeCall>) returns (outcome: Outcome<OcrError>)
      modifies this
      ensures outcome == FirstFailure(engine, checked)
      ensures dllDirectory == old(dllDirectory) && calls == old(calls) + Attempted(engine, checked)
    {
      var i := 0;
      while i < |checked|
        invariant 0 <= i <= |checked|
        invariant FirstFailure(engine, checked) == FirstFailure(engine, checked[i..])
        invariant Attempted(engine, checked) == checked[..i] + Attempted(engine, checked[i..])
        invariant dllDirectory == old(dllDirectory) && calls == old(calls) + checked[..i]
      {
        var status := Invoke(engine, checked[i]);
        var result := Check(CallName(checked[i]), status);
        CheckedStep(engine, checked, i);
        AppendAssociates(old(calls), checked[..i], [checked[i]]);
        if result.Fail? {
          return result;
        }
        AppendAssociates(checked[..i], [checked[i]], Attempted(engine, checked[i + 1..]));
        i := i + 1;
      }
      assert checked[..i] == checked;
      return Pass;
    }
  }

  /** How one checked call at index `i` advances a run of checked calls. */
  lemma CheckedStep(engine: Engine, checked: seq<NativeCall>, i: nat)
    requires i < |checked|
    ensures checked[..i] + [checked[i]] == checked[..i + 1]
    ensures engine.status(checked[i]) != 0 ==>
      && Attempted(engine, checked[i..]) == [checked[i]]
      && FirstFailure(engine, checked[i..]) == Check(CallName(checked[i]), engine.status(checked[i]))
    ensures engine.status(checked[i]) == 0 ==>
      && Attempted(engine, checked[i..]) == [checked[i]] + Attempted(engine, checked[i + 1..])
      && FirstFailure(engine, checked[i..]) == FirstFailure(engine, checked[i + 1..])
  {
    assert checked[i..][1..] == checked[i + 1..];
  }

  // ---------------------------------------------------------------------------------------------
  // The bridge: initialisation and process
  // ---------------------------------------------------------------------------------------------

  const DISABLE_MODEL_DELAY_LOAD: int := 0
  const MAX_RECOGNITION_LINES: int := 1000

  /** Decryption key of the bundled model file. */
  const MODEL_KEY: string := "kj)TGtrK>f]b[Piow.gU+nC@s\"\"\"\"\"\"4"

  /** DLL_PATH and MODEL_PATH, both inside the absolute wrapper directory WRAPPER_DIR. */
  function DllPath(wrapperDir: string): string { wrapperDir + "/oneocr" }
  function ModelPath(wrapperDir: string): string { wrapperDir + "/oneocr.onemodel" }

  /** The checked calls of createPipeline, createInitOptions included. */
  function PipelineCalls(wrapperDir: string): seq<NativeCall> {
    [ CreateOcrInitOptions,
      OcrInitOptionsSetUseModelDelayLoad(DISABLE_MODEL_DELAY_LOAD),
      CreateOcrPipeline(NulTerminated(ModelPath(wrapperDir)), NulTerminated(MODEL_KEY)) ]
  }

  /** The checked calls of runOcr for one image, createProcessOptions included. */
  function RunCalls(img: Img): seq<NativeCall> {
    [ CreateOcrProcessOptions,
      OcrProcessOptionsSetMaxRecognitionLineCount(MAX_RECOGNITION_LINES),
      RunOcrPipeline(img) ]
  }

  /** The native calls the constructor makes. */
  function InitTrace(engine: Engine, wrapperDir: string): seq<NativeCall> {
    [SetDllDirectoryA(Some(wrapperDir)), LoadLibrary(DllPath(wrapperDir), Some(wrapperDir))]
    + (if engine.loads(DllPath(wrapperDir), Some(wrapperDir)) then Attempted(engine, PipelineCalls(wrapperDir)) else [])
    + [SetDllDirectoryA(None)]
  }

  /** How the constructor ends: the load failure, the first failing check, or success. */
  function InitOutcome(engine: Engine, wrapperDir: string): Outcome<OcrError> {
    if !engine.loads(DllPath(wrapperDir), Some(wrapperDir)) then Fail(LibraryLoadFailed(DllPath(wrapperDir)))
    else FirstFailure(engine, PipelineCalls(wrapperDir))
  }

  /**
   * The search directory is set to the wrapper directory first and reset last, whether
   * initialisation succeeds or not; every native call in between, the library load included,
   * runs with the wrapper directory in the search path, and none changes it.
   */
  lemma InitTraceBracketsSearchPath(engine: Engine, wrapperDir: string)
    ensures var trace := InitTrace(engine, wrapperDir);
      && |trace| >= 3
      && trace[0] == SetDllDirectoryA(Some(wrapperDir))
      && trace[|trace| - 1] == SetDllDirectoryA(None)
      && trace[1] == LoadLibrary(DllPath(wrapperDir), Some(wrapperDir))
      && forall k :: 0 < k < |trace| - 1 ==> !trace[k].SetDllDirectoryA?
  {
    var trace := InitTrace(engine, wrapperDir);
    var middle := if engine.loads(DllPath(wrapperDir), Some(wrapperDir)) then Attempted(engine, PipelineCalls(wrapperDir)) else [];
    assert forall k :: 0 <= k < |middle| ==> !middle[k].SetDllDirectoryA?;
    assert forall k :: 2 <= k < |trace| - 1 ==> trace[k] == middle[k - 2];
  }

  /** Initialisation fails exactly when the library does not load or a pipeline call fails. */
  lemma InitFailsOnlyOnLoadOrStatus(engine: Engine, wrapperDir: string)
    ensures InitOutcome(engine, wrapperDir).Pass? <==>
      && engine.loads(DllPath(wrapperDir), Some(wrapperDir))
      && forall k :: 0 <= k < 3 ==> engine.status(PipelineCalls(wrapperDir)[k]) == 0
  {
    FirstFailureStopsTheRun(engine, PipelineCalls(wrapperDir));
  }

  /** The model is created with delay loading disabled and with the model key intact. */
  lemma PipelineUsesFixedSettings(wrapperDir: string)
    ensures PipelineCalls(wrapperDir)[1].flag == 0
    ensures ReadCString(PipelineCalls(wrapperDir)[2].key) == MODEL_KEY
  {
    NulTerminatedRoundTrip(MODEL_KEY);
  }

  /** Every run caps recognition at 1000 lines and passes the image it was given. */
  lemma RunUsesFixedSettings(img: Img)
    ensures RunCalls(img)[1].count == 1000 && RunCalls(img)[2].image == img
  {
  }

  /** The screenshot as process finds it: not written, not readable, or read back from disk. */
  datatype DiskCopy = OutputDisabled | Unreadable | Reloaded(image: Image)

  /** OneOcr: a loaded library with a pipeline ready to run. */
  class OneOcr {
    const engine: Engine

    constructor (engine: Engine)
      ensures this.engine == engine
    {
      this.engine := engine;
    }

    /**
     * The constructor: sets the DLL search directory to the wrapper directory, loads the library
     * and creates the pipeline, and in every case resets the search directory afterwards.
     */
    static method Open(engine: Engine, wrapperDir: string, world: NativeWorld) returns (r: Result<OneOcr, OcrError>)
      modifies world
      ensures world.dllDirectory == None
      ensures world.calls == old(world.calls) + InitTrace(engine, wrapperDir)
      ensures r.Success? <==> InitOutcome(engine, wrapperDir).Pass?
      ensures r.Failure? ==> r.error == InitOutcome(engine, wrapperDir).error
      ensures r.Success? ==> fresh(r.value) && r.value.engine == engine
    {
      world.SetDllDirectory(Some(wrapperDir));
      var loaded := world.Load(engine, DllPath(wrapperDir));
      if !loaded {
        world.SetDllDirectory(None);
        return Failure(LibraryLoadFailed(DllPath(wrapperDir)));
      }
      var modelMem := ToNativeString(ModelPath(wrapperDir));
      var keyMem := ToNativeString(MODEL_KEY);
      var created := world.CheckAll(engine, [
        CreateOcrInitOptions,
        OcrInitOptionsSetUseModelDelayLoad(DISABLE_MODEL_DELAY_LOAD),
        CreateOcrPipeline(modelMem, keyMem)]);
      world.SetDllDirectory(None);
      if created.Fail? {
        return Failure(created.error);
      }
      var ocr := new OneOcr(engine);
      return Success(ocr);
    }

    /**
     * process: fails before any native call when the screenshot was not written or cannot be read
     * back; otherwise marshals the image, runs the checked calls of runOcr and, when they pass,
     * walks the instance the engine yields.
     */
    method Process(copy: DiskCopy, world: NativeWorld) returns (r: Result<seq<LocatedWord>, OcrError>)
      modifies world
      ensures world.dllDirectory == old(world.dllDirectory)
      ensures copy.OutputDisabled? ==> r == Failure(ScreenshotOutputDisabled) && world.calls == old(world.calls)
      ensures copy.Unreadable? ==> r == Failure(ImageReadFailed) && world.calls == old(world.calls)
      ensures copy.Reloaded? ==>
        var img := NativeImage(copy.image);
        && world.calls == old(world.calls) + Attempted(engine, RunCalls(img))
        && (r.Success? <==> FirstFailure(engine, RunCalls(img)).Pass?)
        && (r.Failure? ==> r.error == FirstFailure(engine, RunCalls(img)).error)
        && (r.Success? ==> r.value == LocatedWords(engine.recognise(img).lines))
    {
      if copy.OutputDisabled? {
        return Failure(ScreenshotOutputDisabled);
      }
      if copy.Unreadable? {
        return Failure(ImageReadFailed);
      }
      var img := ToNativeImg(copy.image);
      var ran := world.CheckAll(engine, [
        CreateOcrProcessOptions,
        OcrProcessOptionsSetMaxRecognitionLineCount(MAX_RECOGNITION_LINES),
        RunOcrPipeline(img)]);
      if ran.Fail? {
        return Failure(ran.error);
      }
      var instance := engine.recognise(img);
      var locatedWords := ToLocatedWords(instance);
      return Success(locatedWords);
    }
  }
}
