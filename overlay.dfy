/** Overlay geometry of services/overlay_service.py: where an overlay image
    lands on the background (calculate_position), how large it is drawn
    (calculate_size), one overlay (add_image) and the in-order pass over all
    overlays (create_banner). Pixels, fonts and the PNG encoding are not
    modelled; a banner is the list of rectangles pasted onto the background. */
module OverlayService {
  import opened Py
  import opened PyStr
  import opened Geometry

  /** The six words calculate_position recognises. */
  const Keywords: set<string> := {"left", "center", "middle", "right", "top", "bottom"}

  /** position.lower().split() */
  function Tokens(position: string): seq<string> {
    Split(Lower(position))
  }

  /** Horizontal rule: "left" wins over "center"/"middle", which win over
      "right"; no horizontal word leaves x at 0. */
  function HorizontalOffset(tokens: seq<string>, bgWidth: int, elemWidth: int): int {
    if "left" in tokens then 0
    else if "center" in tokens || "middle" in tokens then (bgWidth - elemWidth) / 2
    else if "right" in tokens then bgWidth - elemWidth
    else 0
  }

  /** Vertical rule: "top" wins over "center"/"middle", which win over
      "bottom"; no vertical word leaves y at 0. */
  function VerticalOffset(tokens: seq<string>, bgHeight: int, elemHeight: int): int {
    if "top" in tokens then 0
    else if "center" in tokens || "middle" in tokens then (bgHeight - elemHeight) / 2
    else if "bottom" in tokens then bgHeight - elemHeight
    else 0
  }

  /** calculate_position. Python's `//` by 2 is floor division, which is
      Dafny's `/` for a positive divisor. Nothing is clamped: an element wider
      or taller than the background gets negative coordinates. */
  function CalculatePosition(background: Dims, position: string, element: Dims): (p: Point)
    ensures p.x in {0, (background.width - element.width) / 2, background.width - element.width}
    ensures p.y in {0, (background.height - element.height) / 2, background.height - element.height}
    ensures 0 <= element.width <= background.width ==> 0 <= p.x <= background.width - element.width
    ensures 0 <= element.height <= background.height ==> 0 <= p.y <= background.height - element.height
  {
    var tokens := Tokens(position);
    Point(HorizontalOffset(tokens, background.width, element.width),
          VerticalOffset(tokens, background.height, element.height))
  }

  /** A word that lower() leaves alone and split() keeps whole. */
  predicate PlainWord(w: string) {
    w != [] && forall i :: 0 <= i < |w| ==> !IsSpace(w[i]) && !IsUpper(w[i])
  }

  lemma {:induction false} JoinSpaceLowercase(words: seq<string>)
    requires forall k :: 0 <= k < |words| ==> PlainWord(words[k])
    ensures forall i :: 0 <= i < |JoinSpace(words)| ==> !IsUpper(JoinSpace(words)[i])
    decreases |words|
  {
    if |words| > 1 {
      JoinSpaceLowercase(words[1..]);
      var j := JoinSpace(words);
      assert j == words[0] + " " + JoinSpace(words[1..]);
      forall i | 0 <= i < |j| ensures !IsUpper(j[i]) {
        if i < |words[0]| {
          assert j[i] == words[0][i];
        } else if i > |words[0]| {
          assert j[i] == JoinSpace(words[1..])[i - |words[0]| - 1];
        }
      }
    }
  }

  /** The tokens of lower-case words joined by single spaces are those words. */
  lemma TokensOfPlainWords(words: seq<string>)
    requires forall k :: 0 <= k < |words| ==> PlainWord(words[k])
    ensures Tokens(JoinSpace(words)) == words
  {
    JoinSpaceLowercase(words);
    LowerOfLowercase(JoinSpace(words));
    SplitJoinSpace(words);
  }

  /** A tag made of lower-case words separated by single spaces is placed by
      exactly those words. */
  lemma PositionOfWords(bg: Dims, words: seq<string>, e: Dims)
    requires forall k :: 0 <= k < |words| ==> PlainWord(words[k])
    ensures CalculatePosition(bg, JoinSpace(words), e)
         == Point(HorizontalOffset(words, bg.width, e.width), VerticalOffset(words, bg.height, e.height))
  {
    TokensOfPlainWords(words);
  }

  /** A tag is placed by its tokens alone. */
  lemma PositionFromTokens(bg: Dims, tag: string, e: Dims, words: seq<string>)
    requires Tokens(tag) == words
    ensures CalculatePosition(bg, tag, e)
         == Point(HorizontalOffset(words, bg.width, e.width), VerticalOffset(words, bg.height, e.height))
  {
  }

  lemma KeywordsArePlain()
    ensures forall w :: w in Keywords ==> PlainWord(w)
  {
    assert PlainWord("left") && PlainWord("center") && PlainWord("middle");
    assert PlainWord("right") && PlainWord("top") && PlainWord("bottom");
  }

  /** Keywords joined by single spaces split back into those keywords. */
  lemma KeywordTagTokens(words: seq<string>, tag: string)
    requires forall k :: 0 <= k < |words| ==> words[k] in Keywords
    requires JoinSpace(words) == tag
    ensures Tokens(tag) == words
  {
    KeywordsArePlain();
    TokensOfPlainWords(words);
  }

  /** The two-word tags of the SVG prompt as joined keywords. */
  lemma TwoWordTags()
    ensures JoinSpace(["center", "top"]) == "center top"
    ensures JoinSpace(["center", "bottom"]) == "center bottom"
    ensures JoinSpace(["left", "top"]) == "left top"
    ensures JoinSpace(["left", "bottom"]) == "left bottom"
    ensures JoinSpace(["right", "top"]) == "right top"
    ensures JoinSpace(["right", "bottom"]) == "right bottom"
  {
  }

  lemma CentreColumnTokens()
    ensures Tokens("center") == ["center"]
    ensures Tokens("center top") == ["center", "top"]
    ensures Tokens("center bottom") == ["center", "bottom"]
  {
    TwoWordTags();
    KeywordTagTokens(["center"], "center");
    KeywordTagTokens(["center", "top"], "center top");
    KeywordTagTokens(["center", "bottom"], "center bottom");
  }

  lemma LeftEdgeTokens()
    ensures Tokens("left") == ["left"]
    ensures Tokens("left top") == ["left", "top"]
    ensures Tokens("left bottom") == ["left", "bottom"]
  {
    TwoWordTags();
    KeywordTagTokens(["left"], "left");
    KeywordTagTokens(["left", "top"], "left top");
    KeywordTagTokens(["left", "bottom"], "left bottom");
  }

  lemma RightEdgeTokens()
    ensures Tokens("right") == ["right"]
    ensures Tokens("right top") == ["right", "top"]
    ensures Tokens("right bottom") == ["right", "bottom"]
  {
    TwoWordTags();
    KeywordTagTokens(["right"], "right");
    KeywordTagTokens(["right", "top"], "right top");
    KeywordTagTokens(["right", "bottom"], "right bottom");
  }

  lemma CentreColumnOffsets(bg: Dims, e: Dims)
    ensures var cx, cy := (bg.width - e.width) / 2, (bg.height - e.height) / 2;
      && HorizontalOffset(["center"], bg.width, e.width) == cx
      && VerticalOffset(["center"], bg.height, e.height) == cy
      && HorizontalOffset(["center", "top"], bg.width, e.width) == cx
      && VerticalOffset(["center", "top"], bg.height, e.height) == 0
      && HorizontalOffset(["center", "bottom"], bg.width, e.width) == cx
      && VerticalOffset(["center", "bottom"], bg.height, e.height) == cy
  {
  }

  lemma LeftEdgeOffsets(bg: Dims, e: Dims)
    ensures HorizontalOffset(["left"], bg.width, e.width) == 0
    ensures VerticalOffset(["left"], bg.height, e.height) == 0
    ensures HorizontalOffset(["left", "top"], bg.width, e.width) == 0
    ensures VerticalOffset(["left", "top"], bg.height, e.height) == 0
    ensures HorizontalOffset(["left", "bottom"], bg.width, e.width) == 0
    ensures VerticalOffset(["left", "bottom"], bg.height, e.height) == bg.height - e.height
  {
  }

  lemma RightEdgeOffsets(bg: Dims, e: Dims)
    ensures HorizontalOffset(["right"], bg.width, e.width) == bg.width - e.width
    ensures VerticalOffset(["right"], bg.height, e.height) == 0
    ensures HorizontalOffset(["right", "top"], bg.width, e.width) == bg.width - e.width
    ensures VerticalOffset(["right", "top"], bg.height, e.height) == 0
    ensures HorizontalOffset(["right", "bottom"], bg.width, e.width) == bg.width - e.width
    ensures VerticalOffset(["right", "bottom"], bg.height, e.height) == bg.height - e.height
  {
  }

  /** The outcome of the centre-column placements the SVG prompt offers
      (services/text_svg_generation_service.py:32). "center bottom" lands dead
      centre because "center" is tested before "bottom". */
  lemma CentreColumnPlacements(bg: Dims, e: Dims)
    ensures var cx, cy := (bg.width - e.width) / 2, (bg.height - e.height) / 2;
      && CalculatePosition(bg, "center", e) == Point(cx, cy)
      && CalculatePosition(bg, "center top", e) == Point(cx, 0)
      && CalculatePosition(bg, "center bottom", e) == Point(cx, cy)
  {
    CentreColumnTokens();
    CentreColumnOffsets(bg, e);
    PositionFromTokens(bg, "center", e, ["center"]);
    PositionFromTokens(bg, "center top", e, ["center", "top"]);
    PositionFromTokens(bg, "center bottom", e, ["center", "bottom"]);
  }

  /** The left-edge placements the SVG prompt offers: "left" alone stays on
      the top edge. */
  lemma LeftEdgePlacements(bg: Dims, e: Dims)
    ensures CalculatePosition(bg, "left", e) == Point(0, 0)
    ensures CalculatePosition(bg, "left top", e) == Point(0, 0)
    ensures CalculatePosition(bg, "left bottom", e) == Point(0, bg.height - e.height)
  {
    LeftEdgeTokens();
    LeftEdgeOffsets(bg, e);
    PositionFromTokens(bg, "left", e, ["left"]);
    PositionFromTokens(bg, "left top", e, ["left", "top"]);
    PositionFromTokens(bg, "left bottom", e, ["left", "bottom"]);
  }

  /** The right-edge placements the SVG prompt offers: "right" alone stays on
      the top edge. */
  lemma RightEdgePlacements(bg: Dims, e: Dims)
    ensures CalculatePosition(bg, "right", e) == Point(bg.width - e.width, 0)
    ensures CalculatePosition(bg, "right top", e) == Point(bg.width - e.width, 0)
    ensures CalculatePosition(bg, "right bottom", e) == Point(bg.width - e.width, bg.height - e.height)
  {
    RightEdgeTokens();
    RightEdgeOffsets(bg, e);
    PositionFromTokens(bg, "right", e, ["right"]);
    PositionFromTokens(bg, "right top", e, ["right", "top"]);
    PositionFromTokens(bg, "right bottom", e, ["right", "bottom"]);
  }

  /** "right center" lands in the middle of the background, not on its
      right edge: "center" is tested before "right" for x, and it is the only
      vertical word for y. */
  lemma RightCenterIsCentred(bg: Dims, e: Dims)
    ensures CalculatePosition(bg, "right center", e) == Point((bg.width - e.width) / 2, (bg.height - e.height) / 2)
  {
    RightCenterTokens();
    PositionFromTokens(bg, "right center", e, ["right", "center"]);
  }

  lemma RightCenterTokens()
    ensures Tokens("right center") == ["right", "center"]
  {
    assert JoinSpace(["right", "center"]) == "right center";
    KeywordTagTokens(["right", "center"], "right center");
  }

  /** A tag none of whose tokens is a keyword goes to the top-left corner,
      not to the centre. */
  lemma UnrecognisedTagIsOrigin(bg: Dims, tag: string, e: Dims)
    requires forall k :: 0 <= k < |Tokens(tag)| ==> Tokens(tag)[k] !in Keywords
    ensures CalculatePosition(bg, tag, e) == Point(0, 0)
  {
  }

  /** A single lower-case word that is not a keyword goes to (0, 0). */
  lemma UnknownWordIsOrigin(bg: Dims, w: string, e: Dims)
    requires PlainWord(w) && w !in Keywords
    ensures CalculatePosition(bg, w, e) == Point(0, 0)
  {
    assert JoinSpace([w]) == w;
    PositionOfWords(bg, [w], e);
  }

  /** An unknown word goes to (0, 0), not to the centre. */
  lemma DiagonalIsOrigin(bg: Dims, e: Dims)
    ensures CalculatePosition(bg, "diagonal", e) == Point(0, 0)
  {
    UnknownWordIsOrigin(bg, "diagonal", e);
  }

  /** Tokens must match whole: the underscore form is one unknown token. */
  lemma UnderscoreFormIsOrigin(bg: Dims, e: Dims)
    ensures CalculatePosition(bg, "right_top", e) == Point(0, 0)
  {
    UnknownWordIsOrigin(bg, "right_top", e);
  }

  /** Tokens must match whole: the hyphen form is one unknown token. */
  lemma HyphenFormIsOrigin(bg: Dims, e: Dims)
    ensures CalculatePosition(bg, "top-left", e) == Point(0, 0)
  {
    UnknownWordIsOrigin(bg, "top-left", e);
  }

  /** Matching ignores ASCII case. */
  lemma PositionIgnoresCase(bg: Dims, tag: string, e: Dims)
    ensures CalculatePosition(bg, Lower(tag), e) == CalculatePosition(bg, tag, e)
  {
    LowerIdempotent(tag);
  }

  /** Only which keywords occur matters: their order, repetitions and any
      other tokens do not. */
  lemma PositionDependsOnKeywordsOnly(bg: Dims, a: string, b: string, e: Dims)
    requires forall w :: w in Keywords ==> (w in Tokens(a) <==> w in Tokens(b))
    ensures CalculatePosition(bg, a, e) == CalculatePosition(bg, b, e)
  {
    assert "left" in Keywords && "center" in Keywords && "middle" in Keywords;
    assert "right" in Keywords && "top" in Keywords && "bottom" in Keywords;
  }

  /** An element wider than the background placed on the right edge starts
      left of the background: there is no clamping. */
  lemma RightEdgeNotClamped(bg: Dims, tag: string, e: Dims)
    requires e.width > bg.width
    requires "right" in Tokens(tag)
    requires "left" !in Tokens(tag) && "center" !in Tokens(tag) && "middle" !in Tokens(tag)
    ensures CalculatePosition(bg, tag, e).x < 0
  {
  }

  /** Python's int() on a float: truncation toward zero. */
  function Trunc(x: real): (n: int)
    ensures 0.0 <= x ==> 0 <= n && n as real <= x < n as real + 1.0
    ensures x < 0.0 ==> x <= n as real < x + 1.0
  {
    if 0.0 <= x then x.Floor else -((-x).Floor)
  }

  /** Lines 63-64: the height is `size` of the background height, cut to
      an integer, and the width is that height times the aspect ratio, cut. */
  function HeightPass(scaledHeight: real, aspect: real): Dims {
    var height := Trunc(scaledHeight);
    Dims(Trunc(height as real * aspect), height)
  }

  /** Lines 67-68: the width is `size` of the background width, cut, and the
      height is that width over the aspect ratio, cut. */
  function WidthPass(scaledWidth: real, aspect: real): Dims
    requires aspect != 0.0
  {
    var width := Trunc(scaledWidth);
    Dims(width, Trunc(width as real / aspect))
  }

  /** Lines 63-68 of calculate_size on their own: `scaledWidth` and
      `scaledHeight` are the background width and height times the relative
      size, `aspect` the natural width over the natural height. The width pass
      runs only when the height pass comes out too wide, and it divides by
      the aspect ratio. */
  function TwoPassFit(scaledWidth: real, scaledHeight: real, aspect: real): (r: Result<Dims>)
    ensures r.Err? <==> aspect == 0.0 && HeightPass(scaledHeight, aspect).width as real > scaledWidth
    ensures r.Err? ==> r.exc == ZeroDivisionError
    ensures HeightPass(scaledHeight, aspect).width as real <= scaledWidth ==> r == Ok(HeightPass(scaledHeight, aspect))
    ensures HeightPass(scaledHeight, aspect).width as real > scaledWidth && aspect != 0.0 ==>
      r == Ok(WidthPass(scaledWidth, aspect))
  {
    var first := HeightPass(scaledHeight, aspect);
    if first.width as real > scaledWidth then
      if aspect == 0.0 then Err(ZeroDivisionError) else Ok(WidthPass(scaledWidth, aspect))
    else Ok(first)
  }

  /** calculate_size: fit the height to `size` of the background height, then,
      if the width that gives is wider than `size` of the background width,
      fit the width instead. Python floats are modelled as exact reals. A zero
      natural height raises ZeroDivisionError when the aspect ratio is
      computed; a zero natural width raises it only on the width-fit branch. */
  function CalculateSize(background: Dims, original: Dims, size: real): (r: Result<Dims>)
    ensures original.height == 0 ==> r == Err(ZeroDivisionError)
    ensures original.height != 0 && original.width != 0 ==> r.Ok?
    ensures r.Err? ==> r.exc == ZeroDivisionError
    ensures original.height != 0 ==>
      var aspect := AspectRatio(original.width, original.height);
      var first := HeightPass(Scaled(background.height, size), aspect);
      && (first.width as real <= Scaled(background.width, size) ==> r == Ok(first))
      && (first.width as real > Scaled(background.width, size) && original.width != 0 ==>
            r == Ok(WidthPass(Scaled(background.width, size), aspect)))
      && (first.width as real > Scaled(background.width, size) && original.width == 0 ==>
            r == Err(ZeroDivisionError))
  {
    if original.height == 0 then Err(ZeroDivisionError)
    else
      TwoPassFit(Scaled(background.width, size), Scaled(background.height, size),
                 AspectRatio(original.width, original.height))
  }

  /** A background dimension times the relative size (bg_width * size). */
  function Scaled(n: int, size: real): (r: real)
    ensures 0 <= n && 0.0 < size ==> 0.0 <= r
    ensures 0 <= n && size <= 1.0 ==> r <= n as real
  {
    n as real * size
  }

  /** orig_width / orig_height */
  function AspectRatio(width: int, height: int): (r: real)
    requires height != 0
    ensures 0 < width && 0 < height ==> 0.0 < r
    ensures width == 0 <==> r == 0.0
  {
    width as real / height as real
  }

  lemma QuotientBelow(x: real, y: real, a: real)
    requires 0.0 < a && x < y * a
    ensures x / a < y
  {
    assert x / a * a == x;
  }

  /** The height pass stays within the height and keeps the aspect ratio up
      to the cut. */
  lemma HeightPassBounds(bh: real, a: real)
    requires 0.0 <= bh && 0.0 < a
    ensures var d := HeightPass(bh, a);
      && d.height == Trunc(bh) && 0 <= d.height && d.height as real <= bh
      && 0 <= d.width && d.width as real <= d.height as real * a < d.width as real + 1.0
  {
    var h := Trunc(bh);
    assert 0.0 <= h as real * a;
  }

  /** The width pass stays within the width and keeps the aspect ratio up to
      the cut. */
  lemma WidthPassBounds(bw: real, a: real)
    requires 0.0 <= bw && 0.0 < a
    ensures var d := WidthPass(bw, a);
      && d.width == Trunc(bw) && 0 <= d.width && d.width as real <= bw
      && 0 <= d.height && d.height as real <= d.width as real / a < d.height as real + 1.0
  {
    var w := Trunc(bw);
    assert 0.0 <= w as real / a;
  }

  /** The width pass runs only when the height pass is too wide, and then
      its height is below the height pass's. */
  lemma WidthPassLower(bw: real, bh: real, a: real)
    requires 0.0 <= bw && 0.0 <= bh && 0.0 < a
    requires HeightPass(bh, a).width as real > bw
    ensures WidthPass(bw, a).height < HeightPass(bh, a).height
  {
    var first := HeightPass(bh, a);
    var second := WidthPass(bw, a);
    HeightPassBounds(bh, a);
    WidthPassBounds(bw, a);
    QuotientBelow(second.width as real, first.height as real, a);
  }

  /** The two-pass fit stays within its bounds. */
  lemma FitWithinBounds(bw: real, bh: real, a: real)
    requires 0.0 <= bw && 0.0 <= bh && 0.0 < a
    ensures var r := TwoPassFit(bw, bh, a);
      && r.Ok?
      && 0 <= r.value.width && r.value.width as real <= bw
      && 0 <= r.value.height && r.value.height as real <= bh
  {
    HeightPassBounds(bh, a);
    WidthPassBounds(bw, a);
    if HeightPass(bh, a).width as real > bw {
      WidthPassLower(bw, bh, a);
    }
  }

  /** The two-pass fit keeps the aspect ratio on the side it derives. */
  lemma FitKeepsAspect(bw: real, bh: real, a: real)
    requires 0.0 <= bw && 0.0 <= bh && 0.0 < a
    ensures var r := TwoPassFit(bw, bh, a);
      r.Ok? &&
      ((r.value.height == Trunc(bh)
        && r.value.width as real <= r.value.height as real * a < r.value.width as real + 1.0)
       || (r.value.width == Trunc(bw)
        && r.value.height as real <= r.value.width as real / a < r.value.height as real + 1.0))
  {
    HeightPassBounds(bh, a);
    WidthPassBounds(bw, a);
  }

  /** For a positive scale and a non-degenerate image the result fits within
      `size` of the background in both directions, whichever branch is taken. */
  lemma SizeWithinScaledBackground(background: Dims, original: Dims, size: real)
    requires 0 <= background.width && 0 <= background.height
    requires 0 < original.width && 0 < original.height && 0.0 < size
    ensures var r := CalculateSize(background, original, size);
      && r.Ok?
      && 0 <= r.value.width && r.value.width as real <= Scaled(background.width, size)
      && 0 <= r.value.height && r.value.height as real <= Scaled(background.height, size)
  {
    var bw, bh := Scaled(background.width, size), Scaled(background.height, size);
    var a := AspectRatio(original.width, original.height);
    assert CalculateSize(background, original, size) == TwoPassFit(bw, bh, a);
    FitWithinBounds(bw, bh, a);
  }

  /** The aspect ratio survives up to truncation: either the height is the
      height fit and the width is the height times the aspect ratio, cut to an
      integer, or the width is the width fit and the height is the width over
      the aspect ratio, cut to an integer. */
  lemma SizeKeepsAspect(background: Dims, original: Dims, size: real)
    requires 0 <= background.width && 0 <= background.height
    requires 0 < original.width && 0 < original.height && 0.0 < size
    ensures var r := CalculateSize(background, original, size);
      var a := AspectRatio(original.width, original.height);
      r.Ok? &&
      ((r.value.height == Trunc(Scaled(background.height, size))
        && r.value.width as real <= r.value.height as real * a < r.value.width as real + 1.0)
       || (r.value.width == Trunc(Scaled(background.width, size))
        && r.value.height as real <= r.value.width as real / a < r.value.height as real + 1.0))
  {
    var bw, bh := Scaled(background.width, size), Scaled(background.height, size);
    var a := AspectRatio(original.width, original.height);
    assert CalculateSize(background, original, size) == TwoPassFit(bw, bh, a);
    FitKeepsAspect(bw, bh, a);
  }

  /** One overlay of create_banner: the image's natural size as Image.open
      reports it (None when opening fails with an IOError), its placement tag
      and its relative size. */
  datatype Overlay = Overlay(natural: Option<Dims>, position: string, size: real)

  /** One paste onto the background: where, and at which resized dimensions. */
  datatype Paste = Paste(at: Point, dims: Dims)

  /** What add_image does with one overlay. */
  datatype Step = Pasted(paste: Paste) | Skipped | Raised(exc: Exc)

  /** The sizes Image.resize accepts: it raises ValueError unless both sides
      are at least one pixel. */
  predicate Resizable(d: Dims) {
    1 <= d.width && 1 <= d.height
  }

  /** add_image: the size is computed first, then the image is resized to it,
      and the position is computed from the resized size. An unopenable image
      is skipped with a warning; the ZeroDivisionError of calculate_size and
      the ValueError of resize are not IOErrors and escape. */
  function AddImage(background: Dims, overlay: Overlay): (s: Step)
    ensures overlay.natural.None? <==> s.Skipped?
    ensures s.Raised? ==> s.exc == ZeroDivisionError || s.exc == ValueError
    ensures s.Pasted? ==>
      && CalculateSize(background, overlay.natural.value, overlay.size) == Ok(s.paste.dims)
      && Resizable(s.paste.dims)
      && s.paste.at == CalculatePosition(background, overlay.position, s.paste.dims)
    ensures overlay.natural.Some? ==>
      var fit := CalculateSize(background, overlay.natural.value, overlay.size);
      && (s.Pasted? <==> fit.Ok? && Resizable(fit.value))
      && (s == Raised(ValueError) <==> fit.Ok? && !Resizable(fit.value))
      && (s == Raised(ZeroDivisionError) <==> fit.Err?)
  {
    match overlay.natural
    case None => Skipped
    case Some(natural) =>
      match CalculateSize(background, natural, overlay.size)
      case Err(e) => Raised(e)
      case Ok(dims) =>
        if !Resizable(dims) then Raised(ValueError)
        else Pasted(Paste(CalculatePosition(background, overlay.position, dims), dims))
  }

  /** A very wide logo fitted to half a 1000x600 background: the width fit
      gives 500x0, and resize raises ValueError, which escapes add_image. */
  lemma ThinLogoRaises()
    ensures CalculateSize(Dims(1000, 600), Dims(10000, 1), 0.5) == Ok(Dims(500, 0))
    ensures AddImage(Dims(1000, 600), Overlay(Some(Dims(10000, 1)), "center", 0.5)) == Raised(ValueError)
  {
    assert AspectRatio(10000, 1) == 10000.0;
    assert Scaled(1000, 0.5) == 500.0 && Scaled(600, 0.5) == 300.0;
    assert Trunc(300.0) == 300 && Trunc(300 as real * 10000.0) == 3000000;
    assert Trunc(500.0) == 500 && Trunc(500 as real / 10000.0) == 0;
    assert HeightPass(300.0, 10000.0) == Dims(3000000, 300);
    assert WidthPass(500.0, 10000.0) == Dims(500, 0);
  }

  /** The worked example of a 400x200 logo at half scale in the bottom-right
      corner of a 1000x600 background: the height fit gives 600 wide, which is
      too wide, so the width fit gives 500x250, placed at (500, 350). */
  lemma WideLogoBottomRight()
    ensures AddImage(Dims(1000, 600), Overlay(Some(Dims(400, 200)), "right bottom", 0.5))
         == Pasted(Paste(Point(500, 350), Dims(500, 250)))
  {
    WideLogoSize();
    RightEdgePlacements(Dims(1000, 600), Dims(500, 250));
  }

  /** The size half of the worked example. */
  lemma WideLogoSize()
    ensures CalculateSize(Dims(1000, 600), Dims(400, 200), 0.5) == Ok(Dims(500, 250))
  {
    assert AspectRatio(400, 200) == 2.0;
    assert Scaled(1000, 0.5) == 500.0 && Scaled(600, 0.5) == 300.0;
    assert Trunc(300.0) == 300 && Trunc(300 as real * 2.0) == 600;
    assert Trunc(500.0) == 500 && Trunc(500 as real / 2.0) == 250;
    assert HeightPass(300.0, 2.0) == Dims(600, 300);
    assert WidthPass(500.0, 2.0) == Dims(500, 250);
  }

  /** The effect of create_banner on the background: the pastes made, in
      order, and the exception that escaped, if any. */
  datatype Banner = Banner(pastes: seq<Paste>, exc: Option<Exc>)

  /** create_banner's loop over the overlays, as a fold: each overlay is added
      to the background the previous ones produced; an escaping exception ends
      the pass, and the pastes made before it stay on the (shared) background. */
  function Composite(background: Dims, overlays: seq<Overlay>): (b: Banner)
    ensures |b.pastes| <= |overlays|
    decreases |overlays|
  {
    if overlays == [] then Banner([], None)
    else
      var before := Composite(background, overlays[..|overlays| - 1]);
      if before.exc.Some? then before
      else
        match AddImage(background, overlays[|overlays| - 1])
        case Pasted(p) => Banner(before.pastes + [p], None)
        case Skipped => before
        case Raised(e) => Banner(before.pastes, Some(e))
  }

  /** Once an exception has escaped, later overlays are never looked at. */
  lemma {:induction false} CompositeStops(background: Dims, overlays: seq<Overlay>, i: nat)
    requires i <= |overlays|
    requires Composite(background, overlays[..i]).exc.Some?
    ensures Composite(background, overlays) == Composite(background, overlays[..i])
    decreases |overlays| - i
  {
    if i < |overlays| {
      var n := |overlays|;
      assert overlays[..n - 1][..i] == overlays[..i];
      CompositeStops(background, overlays[..n - 1], i);
    } else {
      assert overlays[..i] == overlays;
    }
  }

  /** create_banner (the pastes; the file save and console output are not
      modelled). */
  method CreateBanner(background: Dims, overlays: seq<Overlay>) returns (pastes: seq<Paste>, exc: Option<Exc>)
    ensures Banner(pastes, exc) == Composite(background, overlays)
  {
    pastes, exc := [], None;
    for i := 0 to |overlays|
      invariant Banner(pastes, None) == Composite(background, overlays[..i])
    {
      assert overlays[..i + 1][..i] == overlays[..i];
      match AddImage(background, overlays[i])
      case Pasted(p) =>
        pastes := pastes + [p];
      case Skipped =>
      case Raised(e) =>
        exc := Some(e);
        CompositeStops(background, overlays, i + 1);
        return;
    }
    assert overlays[..|overlays|] == overlays;
  }

  /** An overlay whose image cannot be opened leaves the banner unchanged. */
  lemma UnopenableOverlayChangesNothing(background: Dims, overlays: seq<Overlay>, position: string, size: real)
    ensures Composite(background, overlays + [Overlay(None, position, size)]) == Composite(background, overlays)
  {
    assert (overlays + [Overlay(None, position, size)])[..|overlays|] == overlays;
  }

  /** Overlays are pasted in list order: the pastes of a prefix come first. */
  lemma {:induction false} CompositeInOrder(background: Dims, overlays: seq<Overlay>, more: seq<Overlay>)
    ensures Composite(background, overlays).pastes <= Composite(background, overlays + more).pastes
    decreases |more|
  {
    if more == [] {
      assert overlays + more == overlays;
    } else {
      var all := overlays + more;
      var n := |more|;
      assert all[..|all| - 1] == overlays + more[..n - 1];
      CompositeInOrder(background, overlays, more[..n - 1]);
    }
  }

  /** A well-formed overlay: positive natural size when it opens at all, and a
      relative size in (0, 1]. */
  predicate WellFormed(o: Overlay) {
    && 0.0 < o.size <= 1.0
    && (o.natural.Some? ==> 0 < o.natural.value.width && 0 < o.natural.value.height)
  }

  function CountOpenable(overlays: seq<Overlay>): nat {
    if overlays == [] then 0
    else CountOpenable(overlays[..|overlays| - 1]) + (if overlays[|overlays| - 1].natural.Some? then 1 else 0)
  }

  predicate Inside(background: Dims, p: Paste) {
    && 0 <= p.at.x && p.at.x + p.dims.width <= background.width
    && 0 <= p.at.y && p.at.y + p.dims.height <= background.height
  }

  /** The fit of an overlay survives add_image: the overlay cannot be opened,
      or its size is computed and resize accepts it. */
  predicate Fits(background: Dims, o: Overlay) {
    o.natural.None?
    || (CalculateSize(background, o.natural.value, o.size).Ok?
        && Resizable(CalculateSize(background, o.natural.value, o.size).value))
  }

  /** One well-formed, openable overlay is pasted exactly when its fit is at
      least one pixel each way, and then inside the background; otherwise
      resize raises ValueError. */
  lemma StepInside(background: Dims, o: Overlay)
    requires 0 <= background.width && 0 <= background.height
    requires WellFormed(o) && o.natural.Some?
    ensures AddImage(background, o).Pasted? <==> Fits(background, o)
    ensures !Fits(background, o) ==> AddImage(background, o) == Raised(ValueError)
    ensures AddImage(background, o).Pasted? ==> Inside(background, AddImage(background, o).paste)
  {
    SizeWithinScaledBackground(background, o.natural.value, o.size);
    var d := CalculateSize(background, o.natural.value, o.size).value;
    assert d.width <= background.width && d.height <= background.height;
  }

  /** With well-formed overlays, nothing escapes exactly when every overlay
      fits; what escapes is resize's ValueError; with nothing escaping every
      openable overlay is pasted; and every paste lies inside the background,
      for every tag. */
  lemma {:induction false} CompositeInsideBackground(background: Dims, overlays: seq<Overlay>)
    requires 0 <= background.width && 0 <= background.height
    requires forall k :: 0 <= k < |overlays| ==> WellFormed(overlays[k])
    ensures Composite(background, overlays).exc.None? <==>
      forall k :: 0 <= k < |overlays| ==> Fits(background, overlays[k])
    ensures Composite(background, overlays).exc.Some? ==> Composite(background, overlays).exc.value == ValueError
    ensures Composite(background, overlays).exc.None? ==>
      |Composite(background, overlays).pastes| == CountOpenable(overlays)
    ensures forall p :: p in Composite(background, overlays).pastes ==> Inside(background, p)
    decreases |overlays|
  {
    if overlays != [] {
      var n := |overlays|;
      var front := overlays[..n - 1];
      var o := overlays[n - 1];
      CompositeInsideBackground(background, front);
      assert forall k :: 0 <= k < n - 1 ==> front[k] == overlays[k];
      if o.natural.Some? {
        StepInside(background, o);
      }
    }
  }
}
