/** `img_to_lines` (src/utils.rs): a picture drawn in text, two pixel rows
    per line, each pair of pixels one half-block glyph whose foreground and
    background carry the two colours. Finding and decoding the image file
    is not modelled: the picture arrives as a grid of RGBA pixels. */
module Utils {
  import opened Common
  import Backend

  /** An RGBA pixel; alpha 0 is fully transparent. */
  datatype Rgba = Rgba(r: byte, g: byte, b: byte, a: byte)

  /** An image, row by row: the pixel at column `x` of row `y` is
      `pixels[y][x]`. */
  datatype Picture = Picture(width: nat, height: nat, pixels: seq<seq<Rgba>>)

  predicate WellFormed(img: Picture) {
    |img.pixels| == img.height &&
    forall y :: 0 <= y < img.height ==> |img.pixels[y]| == img.width
  }

  /** The parts of a ratatui `Span` the conversion sets: its text and the
      foreground and background of its style (`None` is the default). */
  datatype Span = Span(content: string, fg: Option<Backend.Color>, bg: Option<Backend.Color>)

  /** `Span::raw(" ")`. */
  const BLANK: Span := Span(" ", None, None)
  /** The upper half block. */
  const UPPER_HALF: string := "\U{2580}"
  /** The lower half block. */
  const LOWER_HALF: string := "\U{2584}"

  function RgbOf(p: Rgba): Backend.Color {
    Backend.Color.Rgb(p.r, p.g, p.b)
  }

  /** The glyph for a pixel over another one. */
  function PairSpan(top: Rgba, btm: Rgba): Span {
    if top.a == 0 && btm.a == 0 then BLANK
    else if top.a > 0 && btm.a == 0 then Span(UPPER_HALF, Some(RgbOf(top)), None)
    else if top.a == 0 && btm.a > 0 then Span(LOWER_HALF, Some(RgbOf(btm)), None)
    else Span(UPPER_HALF, Some(RgbOf(top)), Some(RgbOf(btm)))
  }

  /** The glyph for a pixel of the last row of an odd-height image. */
  function RowSpan(top: Rgba): Span {
    if top.a == 0 then BLANK else Span(UPPER_HALF, Some(RgbOf(top)), None)
  }

  /** The line for rows `y` and `y + 1`. */
  function PairLine(img: Picture, y: nat): seq<Span>
    requires WellFormed(img) && y + 1 < img.height
  {
    seq(img.width, x requires 0 <= x < img.width => PairSpan(img.pixels[y][x], img.pixels[y + 1][x]))
  }

  /** The lines for the first `n` pairs of rows. */
  function PairLines(img: Picture, n: nat): seq<seq<Span>>
    requires WellFormed(img) && 2 * n <= img.height
  {
    seq(n, i requires 0 <= i < n => PairLine(img, 2 * i))
  }

  /** The line for the last row alone. */
  function LastLine(img: Picture): seq<Span>
    requires WellFormed(img) && img.height >= 1
  {
    seq(img.width, x requires 0 <= x < img.width => RowSpan(img.pixels[img.height - 1][x]))
  }

  /** Every pair of rows, then the last row when the height is odd. */
  function ImageLines(img: Picture): seq<seq<Span>>
    requires WellFormed(img) && img.height >= 1
  {
    PairLines(img, img.height / 2) + (if img.height % 2 == 1 then [LastLine(img)] else [])
  }

  /** What a viewer sees in the upper half of a cell drawn with `s`: the
      foreground of an upper half block, otherwise the background. `None`
      is the terminal's own background showing through. */
  function UpperHalf(s: Span): Option<Backend.Color> {
    if s.content == UPPER_HALF then s.fg else s.bg
  }

  /** What a viewer sees in the lower half of a cell drawn with `s`. */
  function LowerHalf(s: Span): Option<Backend.Color> {
    if s.content == LOWER_HALF then s.fg else s.bg
  }

  /** The colour a pixel shows: nothing when transparent, otherwise its
      RGB part, whatever its alpha. */
  function Visible(p: Rgba): Option<Backend.Color> {
    if p.a == 0 then None else Some(RgbOf(p))
  }

  /** The colour a viewer of `lines` sees where pixel `(x, y)` belongs. */
  function ShownAt(lines: seq<seq<Span>>, x: nat, y: nat): Option<Backend.Color>
    requires y / 2 < |lines| && x < |lines[y / 2]|
  {
    var s := lines[y / 2][x];
    if y % 2 == 0 then UpperHalf(s) else LowerHalf(s)
  }

  /** A pair glyph shows the top pixel above and the bottom pixel below,
      and is blank exactly when both are transparent. */
  lemma PairSpanHalves(top: Rgba, btm: Rgba)
    ensures UpperHalf(PairSpan(top, btm)) == Visible(top)
    ensures LowerHalf(PairSpan(top, btm)) == Visible(btm)
    ensures PairSpan(top, btm) == BLANK <==> top.a == 0 && btm.a == 0
    ensures PairSpan(top, btm).content in {" ", UPPER_HALF, LOWER_HALF}
  {
    assert UPPER_HALF[0] != LOWER_HALF[0];
  }

  /** A last-row glyph shows its pixel above and nothing below. */
  lemma RowSpanHalves(top: Rgba)
    ensures UpperHalf(RowSpan(top)) == Visible(top)
    ensures LowerHalf(RowSpan(top)) == None
    ensures RowSpan(top) == BLANK <==> top.a == 0
  {
    assert UPPER_HALF[0] != LOWER_HALF[0];
  }

  /** `img_to_lines` yields one line per two rows, rounded up, each as wide
      as the image. */
  lemma LinesShape(img: Picture)
    requires WellFormed(img) && img.height >= 1
    ensures |ImageLines(img)| == (img.height + 1) / 2
    ensures forall i :: 0 <= i < |ImageLines(img)| ==> |ImageLines(img)[i]| == img.width
  {
    var lines := ImageLines(img);
    forall i | 0 <= i < |lines|
      ensures |lines[i]| == img.width
    {
      if i < img.height / 2 {
        assert lines[i] == PairLine(img, 2 * i);
      } else {
        assert lines[i] == LastLine(img);
      }
    }
  }

  /** The lines show every pixel of the image in its place: reading the
      half of the cell where pixel `(x, y)` falls gives back its colour, or
      nothing when it is transparent. */
  lemma PictureRoundTrip(img: Picture, x: nat, y: nat)
    requires WellFormed(img) && img.height >= 1
    requires x < img.width && y < img.height
    ensures y / 2 < |ImageLines(img)| && x < |ImageLines(img)[y / 2]|
    ensures ShownAt(ImageLines(img), x, y) == Visible(img.pixels[y][x])
  {
    var lines := ImageLines(img);
    LinesShape(img);
    var i := y / 2;
    if i < img.height / 2 {
      assert lines[i] == PairLine(img, 2 * i);
      PairSpanHalves(img.pixels[2 * i][x], img.pixels[2 * i + 1][x]);
    } else {
      assert i == (img.height - 1) / 2 && y == img.height - 1 && y % 2 == 0;
      assert lines[i] == LastLine(img);
      RowSpanHalves(img.pixels[y][x]);
    }
  }

  /** The lower half of the extra line of an odd-height image shows nothing. */
  lemma LastLineLowerHalfEmpty(img: Picture, x: nat)
    requires WellFormed(img) && img.height % 2 == 1 && x < img.width
    ensures ImageLines(img)[img.height / 2] == LastLine(img)
    ensures LowerHalf(LastLine(img)[x]) == None
  {
    RowSpanHalves(img.pixels[img.height - 1][x]);
  }

  /** `img_to_lines` once the image is decoded. Height 0 is excluded: the
      source computes `height - 1` on an unsigned integer. */
  method ImgToLines(img: Picture) returns (lines: seq<seq<Span>>)
    requires WellFormed(img) && img.height >= 1
    ensures lines == ImageLines(img)
  {
    var width, height := img.width, img.height;
    lines := [];
    var y := 0;
    while y < height - 1
      invariant y % 2 == 0 && y <= height
      invariant lines == PairLines(img, y / 2)
    {
      var line: seq<Span> := [];
      for x := 0 to width
        invariant line == PairLine(img, y)[..x]
      {
        var top, btm := img.pixels[y][x], img.pixels[y + 1][x];
        if top.a == 0 && btm.a == 0 {
          line := line + [BLANK];
          continue;
        }
        if top.a > 0 && btm.a == 0 {
          line := line + [Span(UPPER_HALF, Some(RgbOf(top)), None)];
        } else if top.a == 0 && btm.a > 0 {
          line := line + [Span(LOWER_HALF, Some(RgbOf(btm)), None)];
        } else {
          line := line + [Span(UPPER_HALF, Some(RgbOf(top)), Some(RgbOf(btm)))];
        }
      }
      assert PairLine(img, y)[..width] == PairLine(img, y);
      assert PairLines(img, y / 2 + 1) == PairLines(img, y / 2) + [PairLine(img, y)];
      lines := lines + [line];
      y := y + 2;
    }
    assert y / 2 == height / 2;
    if height % 2 == 1 {
      var line: seq<Span> := [];
      for x := 0 to width
        invariant line == LastLine(img)[..x]
      {
        var top := img.pixels[height - 1][x];
        if top.a == 0 {
          line := line + [BLANK];
          continue;
        }
        line := line + [Span(UPPER_HALF, Some(RgbOf(top)), None)];
      }
      assert LastLine(img)[..width] == LastLine(img);
      lines := lines + [line];
    }
  }
}
