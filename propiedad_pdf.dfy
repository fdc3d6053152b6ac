/**
 * The property sheet (src/components/PropiedadPDF.jsx): eight text fields
 * written down the first page by a vertical cursor, then, when there are extra
 * images, an images page on which each image is scaled to fit 120 by 90,
 * centred, and placed below the previous one, starting a new page when it
 * would run into the bottom margin. All lengths are in millimetres.
 */
module PropiedadPdf {
  import opened Strings

  const MARGIN: int := 20
  const PAGE_WIDTH: int := 210
  const PAGE_HEIGHT: int := 297
  const CONTENT_WIDTH: int := PAGE_WIDTH - 2 * MARGIN
  /** `contentWidth - 50`. */
  const MAX_WIDTH: real := 120.0
  const MAX_HEIGHT: real := 90.0
  /** `pageHeight - margin`: an image and its 10 mm caption space must end above this line. */
  const BOTTOM: real := 277.0

  // ----------------------------------------------------------- text fields

  /** `addWrappedText`: `lineCount` is the length of what `splitTextToSize` returned. */
  function AddWrappedText(y: int, lineCount: nat): (r: int)
    ensures r >= y
  {
    y + lineCount * 7
  }

  function SumLines(lines: seq<nat>): nat
  {
    if lines == [] then 0 else lines[0] + SumLines(lines[1..])
  }

  /**
   * The cursor over the eight fields: each starts where the previous one ended
   * plus 5, the first at 35, and the cursor ends 15 below the last field. The
   * fields therefore never overlap, and the cursor ends at 85 plus 7 per line.
   */
  method LayoutText(lines: seq<nat>) returns (starts: seq<int>, y: int)
    requires |lines| == 8
    ensures |starts| == 8 && starts[0] == MARGIN + 15
    ensures forall i :: 0 <= i < 7 ==> starts[i + 1] == starts[i] + 7 * lines[i] + 5
    ensures y == starts[7] + 7 * lines[7] + 15
    ensures y == 85 + 7 * SumLines(lines)
  {
    y := MARGIN + 15;
    starts := [y];
    y := AddWrappedText(y, lines[0]);
    y := y + 5;
    starts := starts + [y];
    y := AddWrappedText(y, lines[1]);
    y := y + 5;
    starts := starts + [y];
    y := AddWrappedText(y, lines[2]);
    y := y + 5;
    starts := starts + [y];
    y := AddWrappedText(y, lines[3]);
    y := y + 5;
    starts := starts + [y];
    y := AddWrappedText(y, lines[4]);
    y := y + 5;
    starts := starts + [y];
    y := AddWrappedText(y, lines[5]);
    y := y + 5;
    starts := starts + [y];
    y := AddWrappedText(y, lines[6]);
    y := y + 5;
    starts := starts + [y];
    y := AddWrappedText(y, lines[7]);
    y := y + 15;
    SumOfEight(lines);
  }

  lemma SumOfEight(lines: seq<nat>)
    requires |lines| == 8
    ensures SumLines(lines) == lines[0] + lines[1] + lines[2] + lines[3] + lines[4] + lines[5] + lines[6] + lines[7]
  {
    assert SumLines(lines[7..]) == lines[7] by { assert lines[7..][1..] == []; }
    assert SumLines(lines[6..]) == lines[6] + SumLines(lines[7..]) by { assert lines[6..][1..] == lines[7..]; }
    assert SumLines(lines[5..]) == lines[5] + SumLines(lines[6..]) by { assert lines[5..][1..] == lines[6..]; }
    assert SumLines(lines[4..]) == lines[4] + SumLines(lines[5..]) by { assert lines[4..][1..] == lines[5..]; }
    assert SumLines(lines[3..]) == lines[3] + SumLines(lines[4..]) by { assert lines[3..][1..] == lines[4..]; }
    assert SumLines(lines[2..]) == lines[2] + SumLines(lines[3..]) by { assert lines[2..][1..] == lines[3..]; }
    assert SumLines(lines[1..]) == lines[1] + SumLines(lines[2..]) by { assert lines[1..][1..] == lines[2..]; }
  }

  // ---------------------------------------------------------------- images

  datatype Format = PNG | WEBP | JPEG

  /** The `addImage` format, from the data-URL prefix. */
  function ImageFormat(src: string): Format
  {
    if StartsWith(src, "data:image/png") then PNG
    else if StartsWith(src, "data:image/webp") then WEBP
    else JPEG
  }

  /** Each prefix selects its format; the two prefixes exclude each other, so the test order does not matter. */
  lemma ImageFormatSpec(src: string)
    ensures ImageFormat(src) == PNG <==> StartsWith(src, "data:image/png")
    ensures ImageFormat(src) == WEBP <==> StartsWith(src, "data:image/webp")
    ensures ImageFormat(src) == JPEG <==> !StartsWith(src, "data:image/png") && !StartsWith(src, "data:image/webp")
  {
    if StartsWith(src, "data:image/webp") {
      assert src[11] == 'w';
    }
  }

  /**
   * What happened to one image: it failed to load, or it loaded with these
   * natural dimensions (a load that timed out reports 0 by 0) and `addImage`
   * then succeeded or threw.
   */
  datatype Attempt = LoadFailed | Loaded(width: real, height: real, addOk: bool)

  predicate ValidAttempt(a: Attempt)
  {
    a.Loaded? ==> a.width >= 0.0 && a.height >= 0.0
  }

  datatype Size = Size(width: real, height: real)

  /**
   * The two scaling steps: first down to the maximum width, then down to the
   * maximum height. The result fits both bounds, keeps the proportions, and an
   * image that already fits is left as it is.
   */
  function Fit(w: real, h: real): (s: Size)
    requires w >= 0.0 && h >= 0.0
    ensures 0.0 <= s.width <= MAX_WIDTH && 0.0 <= s.height <= MAX_HEIGHT
    ensures s.width * h == w * s.height
    ensures w <= MAX_WIDTH && h <= MAX_HEIGHT ==> s == Size(w, h)
  {
    var s1 := if w > MAX_WIDTH then Size(MAX_WIDTH, (MAX_WIDTH * h) / w) else Size(w, h);
    assert s1.width * h == w * s1.height;
    if s1.height > MAX_HEIGHT then
      var s2 := Size((MAX_HEIGHT * s1.width) / s1.height, MAX_HEIGHT);
      assert s2.width <= s1.width by {
        assert s2.width * s1.height == MAX_HEIGHT * s1.width;
      }
      assert s2.width * h == w * s2.height by {
        assert s2.width * s1.height == MAX_HEIGHT * s1.width;
      }
      s2
    else s1
  }

  /** An image drawn on the sheet; `page` counts the images pages from 1. */
  datatype Placement = Placement(index: nat, page: nat, x: real, y: real, width: real, height: real, format: Format)

  /** The loop's state: images pages so far, the cursor `imgY`, and the images drawn. */
  datatype Cursor = Cursor(pages: nat, imgY: real, placed: seq<Placement>)

  /** One iteration of the images loop. */
  function Step(c: Cursor, i: nat, src: string, a: Attempt): Cursor
    requires ValidAttempt(a)
  {
    match a
    case LoadFailed => c
    case Loaded(w, h, addOk) =>
      var s := Fit(w, h);
      var newPage := c.imgY + s.height + 10.0 > BOTTOM;
      var pages := if newPage then c.pages + 1 else c.pages;
      var y := if newPage then MARGIN as real else c.imgY;
      if !addOk then Cursor(pages, y, c.placed)
      else
        var x := MARGIN as real + (CONTENT_WIDTH as real - s.width) / 2.0;
        Cursor(pages, y + s.height + 25.0, c.placed + [Placement(i, pages, x, y, s.width, s.height, ImageFormat(src))])
  }

  /** The loop state after the first `n` images, starting on the first images page at the top margin. */
  function Run(extras: seq<string>, attempts: seq<Attempt>, n: nat): Cursor
    requires |attempts| == |extras| && n <= |extras|
    requires forall i :: 0 <= i < |attempts| ==> ValidAttempt(attempts[i])
  {
    if n == 0 then Cursor(1, MARGIN as real, [])
    else Step(Run(extras, attempts, n - 1), n - 1, extras[n - 1], attempts[n - 1])
  }

  /** A placement that respects the page: inside the bounds, centred, above the bottom margin. */
  predicate WellPlaced(p: Placement, pages: nat)
  {
    && 1 <= p.page <= pages
    && 0.0 <= p.width <= MAX_WIDTH && 0.0 <= p.height <= MAX_HEIGHT
    && p.x + p.width / 2.0 == PAGE_WIDTH as real / 2.0
    && MARGIN as real <= p.y && p.y + p.height + 10.0 <= BOTTOM
  }

  /**
   * The invariant of the images loop after `n` images: every image drawn fits
   * its page, comes from an image that loaded and was added, has the format of
   * its source, and the images are drawn in source order; on one page each
   * image starts at least 25 below the end of the previous one, and the cursor
   * is below the last image drawn on the current page.
   */
  ghost predicate LayoutOk(extras: seq<string>, attempts: seq<Attempt>, n: nat, c: Cursor)
    requires |attempts| == |extras| && n <= |extras|
  {
    && c.pages >= 1 && c.imgY >= MARGIN as real
    && (forall k :: 0 <= k < |c.placed| ==> WellPlaced(c.placed[k], c.pages))
    && (forall k :: 0 <= k < |c.placed| ==> FromSource(extras, attempts, n, c.placed[k]))
    && (forall k :: 0 <= k < |c.placed| - 1 ==> Follows(c.placed[k], c.placed[k + 1]))
    && (|c.placed| > 0 && c.placed[|c.placed| - 1].page == c.pages ==>
          c.imgY >= c.placed[|c.placed| - 1].y + c.placed[|c.placed| - 1].height + 25.0)
  }

  /** The drawn image comes from one of the first `n` images, which loaded and was added, and has its format. */
  predicate FromSource(extras: seq<string>, attempts: seq<Attempt>, n: nat, p: Placement)
    requires |attempts| == |extras| && n <= |extras|
  {
    && p.index < n
    && attempts[p.index].Loaded? && attempts[p.index].addOk
    && p.format == ImageFormat(extras[p.index])
  }

  /** `q` is drawn after `p`: a later image, on the same or a later page, and below `p` on the same page. */
  predicate Follows(p: Placement, q: Placement)
  {
    && p.index < q.index
    && p.page <= q.page
    && (p.page == q.page ==> q.y >= p.y + p.height + 25.0)
  }

  lemma StepKeepsLayout(extras: seq<string>, attempts: seq<Attempt>, n: nat, c: Cursor)
    requires |attempts| == |extras| && n < |extras|
    requires forall i :: 0 <= i < |attempts| ==> ValidAttempt(attempts[i])
    requires LayoutOk(extras, attempts, n, c)
    ensures LayoutOk(extras, attempts, n + 1, Step(c, n, extras[n], attempts[n]))
  {
    var d := Step(c, n, extras[n], attempts[n]);
    assert forall k :: 0 <= k < |c.placed| ==> WellPlaced(c.placed[k], d.pages);
    assert forall k :: 0 <= k < |c.placed| ==> FromSource(extras, attempts, n + 1, c.placed[k]);
    if |d.placed| > |c.placed| {
      assert d.placed == c.placed + [d.placed[|c.placed|]];
      var q := d.placed[|c.placed|];
      assert WellPlaced(q, d.pages);
      assert FromSource(extras, attempts, n + 1, q);
      if |c.placed| > 0 {
        assert Follows(c.placed[|c.placed| - 1], q);
      }
    }
  }

  /** The loop invariant holds after every number of images. */
  lemma {:induction false} RunInvariant(extras: seq<string>, attempts: seq<Attempt>, n: nat)
    requires |attempts| == |extras| && n <= |extras|
    requires forall i :: 0 <= i < |attempts| ==> ValidAttempt(attempts[i])
    ensures LayoutOk(extras, attempts, n, Run(extras, attempts, n))
  {
    if n > 0 {
      RunInvariant(extras, attempts, n - 1);
      StepKeepsLayout(extras, attempts, n - 1, Run(extras, attempts, n - 1));
    }
  }

  /**
   * The images section: no images page at all when there are no extra images;
   * otherwise one images page to start with and the loop over every image.
   */
  method LayoutImages(extras: seq<string>, attempts: seq<Attempt>) returns (pages: nat, placed: seq<Placement>)
    requires |attempts| == |extras|
    requires forall i :: 0 <= i < |attempts| ==> ValidAttempt(attempts[i])
    ensures |extras| == 0 ==> pages == 0 && placed == []
    ensures |extras| > 0 ==>
      pages == Run(extras, attempts, |extras|).pages && placed == Run(extras, attempts, |extras|).placed
    ensures forall k :: 0 <= k < |placed| ==> WellPlaced(placed[k], pages)
  {
    if |extras| == 0 {
      return 0, [];
    }
    pages := 1;
    var imgY: real := MARGIN as real;
    placed := [];
    var i := 0;
    while i < |extras|
      invariant 0 <= i <= |extras|
      invariant Cursor(pages, imgY, placed) == Run(extras, attempts, i)
    {
      match attempts[i] {
        case LoadFailed =>
        case Loaded(w, h, addOk) =>
          var s := Fit(w, h);
          var width, height := s.width, s.height;
          var x := MARGIN as real + (CONTENT_WIDTH as real - width) / 2.0;
          if imgY + height + 10.0 > PAGE_HEIGHT as real - MARGIN as real {
            pages := pages + 1;
            imgY := MARGIN as real;
          }
          var format := JPEG;
          if StartsWith(extras[i], "data:image/png") {
            format := PNG;
          } else if StartsWith(extras[i], "data:image/webp") {
            format := WEBP;
          }
          if addOk {
            placed := placed + [Placement(i, pages, x, imgY, width, height, format)];
            imgY := imgY + height + 25.0;
          }
      }
      i := i + 1;
    }
    RunInvariant(extras, attempts, |extras|);
  }
}
