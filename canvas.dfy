/**
 * The drawing vocabulary of `create_match_image`: a 1080x1350 canvas, text
 * placed by measuring it first, rounded rectangles, pasted badges, and the
 * two drawing helpers both scripts share (`draw_pill_bar` and the placement
 * arithmetic of `paste_logo_centered`).
 */
module Canvas {
  import opened Wrappers
  import opened Espn

  const Height: int := 1350
  /** `cx, cy = width / 2, 315`: the centre of the score line. */
  const Cx: real := 540.0
  const Cy: real := 315.0
  /** Badges are pasted at this height (`target_height=180`). */
  const BadgeHeight: int := 180
  /** Only goals 0..3 of each side are listed (`if i > 3: break`). */
  const MaxScorers: int := 4

  /** The theme colour a drawing uses, by role. */
  datatype Paint = Container | Gold | Ink | Dim | Red | Track | Muted

  /** Text to draw: characters, or the `str()` of a Python float. */
  datatype Printable = Chars(s: string) | FloatText(r: real)

  datatype DrawOp =
    | Text(x: real, y: real, size: int, content: Printable, paint: Paint)
    | RoundRect(x0: real, y0: real, x1: real, y1: real, radius: real, paint: Paint)
    | Paste(left: int, top: int, width: int, height: int)

  /**
   * The font metrics `textbbox` reports, for a font size and a string:
   * `bbox[2] - bbox[0]` and `bbox[3] - bbox[1]`.
   */
  datatype Metrics = Metrics(width: (int, string) -> real, height: (int, string) -> real)

  /** The draw calls of one infographic, grouped by the part of the layout they build. */
  datatype Graphic = Graphic(
    scoreCard: seq<DrawOp>,
    badges: seq<DrawOp>,
    teamScorers: seq<DrawOp>,
    oppScorers: seq<DrawOp>,
    statsCard: seq<DrawOp>,
    rows: seq<seq<DrawOp>>,
    footer: seq<DrawOp>)

  function Min(a: int, b: int): int { if a <= b then a else b }
  function MaxR(a: real, b: real): real { if a >= b then a else b }
  function MinR(a: real, b: real): real { if a <= b then a else b }

  /**
   * Measure-then-place: the text drawn at `x = cx - w / 2`, so that its
   * measured box is centred on the canvas' vertical axis.
   */
  function Centred(s: string, y: real, size: int, paint: Paint, m: Metrics): (op: DrawOp)
    ensures op.Text? && op.content == Chars(s) && op.y == y && op.size == size
    ensures op.x + m.width(size, s) / 2.0 == Cx
  {
    Text(Cx - m.width(size, s) / 2.0, y, size, Chars(s), paint)
  }

  /**
   * `draw_pill_bar`: the full track, then, only for a positive percentage,
   * an active segment from the same left end and of the same height and
   * radius, `max(height, width * pct / 100)` wide: never narrower than the
   * bar is high.
   */
  function PillBar(x: real, y: real, width: real, height: real, pct: real, active: Paint, track: Paint): (ops: seq<DrawOp>)
    ensures |ops| == (if pct > 0.0 then 2 else 1)
    ensures ops[0] == RoundRect(x, y, x + width, y + height, height / 2.0, track)
    ensures pct > 0.0 ==> ops[1].RoundRect? && ops[1].x0 == x && ops[1].paint == active
                          && ops[1].x1 - ops[1].x0 >= height
                          && ops[1].x1 - ops[1].x0 >= width * (pct / 100.0)
    ensures pct > 0.0 ==> ops[1].y0 == y && ops[1].y1 == y + height && ops[1].radius == height / 2.0
  {
    var track := RoundRect(x, y, x + width, y + height, height / 2.0, track);
    if pct > 0.0 then
      var activeWidth := MaxR(height, width * (pct / 100.0));
      [track, RoundRect(x, y, x + activeWidth, y + height, height / 2.0, active)]
    else [track]
  }

  /** The active segment is exactly `max(height, width * pct / 100)` wide. */
  lemma PillActiveWidth(x: real, y: real, width: real, height: real, pct: real, active: Paint, track: Paint)
    requires pct > 0.0
    ensures PillBar(x, y, width, height, pct, active, track)[1]
            == RoundRect(x, y, x + MaxR(height, width * (pct / 100.0)), y + height, height / 2.0, active)
  {
  }

  /**
   * The active segment stays inside the track for a percentage of at most
   * 100 and a track at least as long as it is high, and is exactly
   * proportional once that share is wider than the minimum.
   */
  lemma PillActiveWithinTrack(x: real, y: real, width: real, height: real, pct: real, active: Paint, track: Paint)
    requires 0.0 < pct <= 100.0 && 0.0 <= height <= width
    ensures var ops := PillBar(x, y, width, height, pct, active, track);
      ops[0].x0 == ops[1].x0 <= ops[1].x1 <= ops[0].x1
      && (width * (pct / 100.0) >= height ==> ops[1].x1 - ops[1].x0 == width * (pct / 100.0))
  {
    var share := width * (pct / 100.0);
    ShareAtMostWhole(width, pct / 100.0);
    assert share <= width;
    assert MaxR(height, share) <= width;
    var ops := PillBar(x, y, width, height, pct, active, track);
    assert ops[1] == RoundRect(x, y, x + MaxR(height, share), y + height, height / 2.0, active);
    assert ops[0].x1 == x + width;
  }

  lemma ShareAtMostWhole(w: real, f: real)
    requires w >= 0.0 && 0.0 <= f <= 1.0
    ensures 0.0 <= w * f <= w
  {
    assert w - w * f == w * (1.0 - f);
  }

  /** `min((v / max_val) * 100, 100)` */
  function BarLength(v: real, den: real): (len: real)
    requires den > 0.0
    ensures len <= 100.0
    ensures v >= 0.0 ==> len >= 0.0
  {
    MinR((v / den) * 100.0, 100.0)
  }

  /**
   * With a denominator no smaller than the pair's sum, the two bars are
   * exactly proportional, share at most the whole track, and fill it once
   * the sum reaches the floor.
   */
  lemma BarsShareTrack(a: real, b: real, floor: real)
    requires a >= 0.0 && b >= 0.0 && floor > 0.0
    ensures var den := MaxR(a + b, floor);
      BarLength(a, den) == (a / den) * 100.0 && BarLength(b, den) == (b / den) * 100.0
      && BarLength(a, den) + BarLength(b, den) <= 100.0
      && (a + b >= floor ==> BarLength(a, den) + BarLength(b, den) == 100.0)
  {
    var den := MaxR(a + b, floor);
    DivideSum(a, b, den);
    DivideAtMostOne(a, den);
    DivideAtMostOne(b, den);
    DivideAtMostOne(a + b, den);
    if a + b >= floor {
      assert den == a + b;
    }
  }

  lemma DivideSum(a: real, b: real, den: real)
    requires den > 0.0
    ensures a / den + b / den == (a + b) / den
  {
  }

  lemma DivideAtMostOne(a: real, den: real)
    requires den > 0.0 && 0.0 <= a <= den
    ensures 0.0 <= a / den <= 1.0
    ensures a == den ==> a / den == 1.0
  {
  }

  /**
   * `paste_logo_centered`: the logo resized to `target` high, keeping its
   * aspect ratio (width truncated by `int`), pasted at the truncated
   * top-left corner that centres it on (`centreX`, `centreY`).
   */
  function PasteCentred(logo: Logo, centreX: real, centreY: real, target: int): (op: DrawOp)
    requires target > 0
    ensures op.Paste? && op.height == target && op.width >= 0
    ensures centreX - 1.0 < op.left as real + op.width as real / 2.0 < centreX + 1.0
    ensures centreY - 1.0 < op.top as real + op.height as real / 2.0 < centreY + 1.0
  {
    var aspect := logo.width as real / logo.height as real;
    var newWidth := Trunc(target as real * aspect);
    Paste(Trunc(centreX - newWidth as real / 2.0), Trunc(centreY - target as real / 2.0), newWidth, target)
  }

  /** The pasted badge keeps the logo's aspect ratio up to the truncation of its width. */
  lemma PasteKeepsAspect(logo: Logo, centreX: real, centreY: real, target: int)
    requires target > 0
    ensures var op := PasteCentred(logo, centreX, centreY, target);
      op.width as real <= target as real * logo.width as real / logo.height as real < op.width as real + 1.0
  {
    var aspect := logo.width as real / logo.height as real;
    assert target as real * aspect == target as real * logo.width as real / logo.height as real;
  }

  /** The badge of one side when its logo was fetched; nothing otherwise. */
  function Badge(logo: Option<Logo>, anchor: real): (ops: seq<DrawOp>)
    ensures |ops| == (if logo.Some? then 1 else 0)
    ensures logo.Some? ==> ops[0] == PasteCentred(logo.value, anchor, Cy, BadgeHeight)
  {
    match logo
    case None => []
    case Some(l) => [PasteCentred(l, anchor, Cy, BadgeHeight)]
  }

  /**
   * The badge anchors for a score text measured `sw` wide: 120 beyond each
   * edge of the centred score, hence mirror images about `cx`.
   */
  function Anchors(sw: real): (a: (real, real))
    ensures a.0 == (Cx - sw / 2.0) - 120.0 && a.1 == (Cx + sw / 2.0) + 120.0
    ensures (a.0 + a.1) / 2.0 == Cx
    ensures a.1 - a.0 == sw + 240.0
  {
    (Cx - sw / 2.0 - 120.0, Cx + sw / 2.0 + 120.0)
  }

  /**
   * A scorer column: the first `MaxScorers` lines, in order, line `i` at
   * `top + step * i`, each centred on `anchor` by its measured width.
   */
  ghost predicate ScorerColumn(ops: seq<DrawOp>, lines: seq<string>, anchor: real, top: real, step: real, size: int, m: Metrics) {
    |ops| == Min(|lines|, MaxScorers)
    && forall i :: 0 <= i < |ops| ==>
         ops[i].Text? && ops[i].content == Chars(lines[i]) && ops[i].size == size && ops[i].paint == Dim
         && ops[i].x + m.width(size, lines[i]) / 2.0 == anchor
         && ops[i].y == top + step * (i as real)
  }

  /** The goal loops of `create_match_image`: `for i, g in enumerate(goals): if i > 3: break`. */
  method DrawGoalLines(lines: seq<string>, anchor: real, top: real, step: real, size: int, m: Metrics)
    returns (ops: seq<DrawOp>)
    ensures ScorerColumn(ops, lines, anchor, top, step, size, m)
  {
    ops := [];
    var i := 0;
    var y := top;
    while i < |lines|
      invariant 0 <= i <= |lines| && i <= MaxScorers
      invariant |ops| == i
      invariant y == top + step * (i as real)
      invariant forall k :: 0 <= k < i ==> ops[k] == LineAt(lines[k], k, anchor, top, step, size, m)
    {
      if i > 3 {
        break;
      }
      var w := m.width(size, lines[i]);
      var line := Text(anchor - w / 2.0, y, size, Chars(lines[i]), Dim);
      assert line == LineAt(lines[i], i, anchor, top, step, size, m);
      ghost var prev := ops;
      ops := ops + [line];
      assert forall k :: 0 <= k < i ==> ops[k] == prev[k];
      y := y + step;
      i := i + 1;
    }
  }

  /** Scorer line `i`: the text centred on `anchor` at `top + step * i`. */
  function LineAt(line: string, i: nat, anchor: real, top: real, step: real, size: int, m: Metrics): DrawOp {
    Text(anchor - m.width(size, line) / 2.0, top + step * (i as real), size, Chars(line), Dim)
  }
}
