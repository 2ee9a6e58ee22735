/** The deterministic part of create_text_image in
    services/text_generation_service.py: the font-size table, the nine-entry
    placement table, and the text layer those lookups describe. Drawing,
    fonts and the PNG/base64 encoding are not modelled; PIL's text bounding
    box and its colour-name parser are inputs. */
module TextGenerationService {
  import opened Py
  import opened PyJson
  import opened Geometry

  /** `{'small': 24, 'medium': 36, 'large': 48}[size]`. A list or dict is
      unhashable (TypeError); every other value misses the table (KeyError). */
  function FontSize(size: Json): (r: Result<int>)
    ensures r.Ok? <==> size == JStr("small") || size == JStr("medium") || size == JStr("large")
    ensures r.Ok? ==> 24 <= r.value <= 48
    ensures r.Err? ==> r.exc == (if size.JArr? || size.JObj? then TypeError else KeyError)
  {
    match size
    case JStr(s) =>
      if s == "small" then Ok(24)
      else if s == "medium" then Ok(36)
      else if s == "large" then Ok(48)
      else Err(KeyError)
    case JArr(_) => Err(TypeError)
    case JObj(_) => Err(TypeError)
    case _ => Err(KeyError)
  }

  /** The three sizes in order of the table, each strictly larger. */
  lemma FontSizesIncrease()
    ensures FontSize(JStr("small")) == Ok(24)
    ensures FontSize(JStr("medium")) == Ok(36)
    ensures FontSize(JStr("large")) == Ok(48)
    ensures FontSize(JStr("Small")) == Err(KeyError)
  {
    assert "small" != "medium" && "small" != "large" && "medium" != "large";
    assert "Small" != "small" && "Small" != "medium" && "Small" != "large";
  }

  /** The text bounding box PIL's draw.textbbox reports: left, top, right,
      bottom. */
  datatype TextBox = TextBox(left: int, top: int, right: int, bottom: int)

  /** The rows and columns of the placement grid. */
  datatype Row = Top | Middle | Bottom
  datatype Column = Left | Centre | Right

  /** The key that names a grid cell: "row-column" with rows top, center,
      bottom and columns left, center, right, except that the middle cell is
      plain "center". */
  function PlacementKey(row: Row, column: Column): (key: string)
    ensures key == "center" <==> row == Middle && column == Centre
  {
    match (row, column)
    case (Top, Left) => "top-left"
    case (Top, Centre) => "top-center"
    case (Top, Right) => "top-right"
    case (Middle, Left) => "center-left"
    case (Middle, Centre) => "center"
    case (Middle, Right) => "center-right"
    case (Bottom, Left) => "bottom-left"
    case (Bottom, Centre) => "bottom-center"
    case (Bottom, Right) => "bottom-right"
  }

  /** x of a column: a 10 px margin on the left and right, floor-division
      centring in between. */
  function ColumnX(column: Column, imageWidth: int, textWidth: int): int {
    match column
    case Left => 10
    case Centre => (imageWidth - textWidth) / 2
    case Right => imageWidth - textWidth - 10
  }

  /** y of a row, in the same way. */
  function RowY(row: Row, imageHeight: int, textHeight: int): int {
    match row
    case Top => 10
    case Middle => (imageHeight - textHeight) / 2
    case Bottom => imageHeight - textHeight - 10
  }

  /** The placement dict of create_text_image, subscripted with the
      placement value: one of nine keys, or KeyError (TypeError for an
      unhashable list or dict). There is no fallback. */
  function TextPosition(placement: Json, imageSize: Dims, textWidth: int, textHeight: int): (r: Result<Point>)
    ensures r.Err? ==> r.exc == (if placement.JArr? || placement.JObj? then TypeError else KeyError)
    ensures r.Ok? ==> placement.JStr?
  {
    var w, h := imageSize.width, imageSize.height;
    match placement
    case JStr(s) =>
      if s == "top-left" then Ok(Point(10, 10))
      else if s == "top-center" then Ok(Point((w - textWidth) / 2, 10))
      else if s == "top-right" then Ok(Point(w - textWidth - 10, 10))
      else if s == "center-left" then Ok(Point(10, (h - textHeight) / 2))
      else if s == "center" then Ok(Point((w - textWidth) / 2, (h - textHeight) / 2))
      else if s == "center-right" then Ok(Point(w - textWidth - 10, (h - textHeight) / 2))
      else if s == "bottom-left" then Ok(Point(10, h - textHeight - 10))
      else if s == "bottom-center" then Ok(Point((w - textWidth) / 2, h - textHeight - 10))
      else if s == "bottom-right" then Ok(Point(w - textWidth - 10, h - textHeight - 10))
      else Err(KeyError)
    case JArr(_) => Err(TypeError)
    case JObj(_) => Err(TypeError)
    case _ => Err(KeyError)
  }

  /** The table is the grid: every cell's key gives that cell's column x and
      row y. */
  lemma TableIsGrid(row: Row, column: Column, imageSize: Dims, textWidth: int, textHeight: int)
    ensures TextPosition(JStr(PlacementKey(row, column)), imageSize, textWidth, textHeight)
         == Ok(Point(ColumnX(column, imageSize.width, textWidth), RowY(row, imageSize.height, textHeight)))
  {
  }

  /** Only the nine grid keys are in the table: any other placement string
      raises KeyError. */
  lemma OnlyGridKeys(placement: string, imageSize: Dims, textWidth: int, textHeight: int)
    requires forall row, column :: placement != PlacementKey(row, column)
    ensures TextPosition(JStr(placement), imageSize, textWidth, textHeight) == Err(KeyError)
  {
    assert placement != PlacementKey(Top, Left) && placement != PlacementKey(Top, Centre) && placement != PlacementKey(Top, Right);
    assert placement != PlacementKey(Middle, Left) && placement != PlacementKey(Middle, Centre) && placement != PlacementKey(Middle, Right);
    assert placement != PlacementKey(Bottom, Left) && placement != PlacementKey(Bottom, Centre) && placement != PlacementKey(Bottom, Right);
  }

  /** A text box at most 20 px smaller than the image in each direction stays
      inside the rectangle inset 10 px from every edge, in every cell. */
  lemma GridKeepsMargin(row: Row, column: Column, imageSize: Dims, textWidth: int, textHeight: int)
    requires 0 <= textWidth <= imageSize.width - 20
    requires 0 <= textHeight <= imageSize.height - 20
    ensures var x := ColumnX(column, imageSize.width, textWidth);
      10 <= x && x + textWidth <= imageSize.width - 10
    ensures var y := RowY(row, imageSize.height, textHeight);
      10 <= y && y + textHeight <= imageSize.height - 10
  {
  }

  /** The transparent RGBA layer create_text_image draws on: always the
      requested image size, with the text drawn once at `at` in `fill`. */
  datatype TextLayer = TextLayer(size: Dims, fontSize: int, at: Point, fill: Json)

  /** create_text_image on the properties the model proposed. Image.new
      raises ValueError for a negative side before anything is looked up;
      then the size entry picks the font size, PIL measures the text in that
      font (`measure`), the placement entry picks the corner from the
      measured width and height, and the color entry is the fill, which
      draw.text converts. The steps happen in that order; the first one that
      fails raises. `knownColour` is PIL's colour-name parser: the colour
      strings it accepts. */
  function CreateTextImage(properties: Json, imageSize: Dims, measure: int -> TextBox,
                           knownColour: string -> bool): (r: Result<TextLayer>)
    ensures r.Ok? ==> r.value.size == imageSize
    ensures r.Ok? ==> r.value.fontSize in {24, 36, 48}
    ensures r.Ok? ==> 0 <= imageSize.width && 0 <= imageSize.height
    ensures r.Ok? && r.value.fill.JStr? ==> knownColour(r.value.fill.s)
    ensures r.Err? ==> r.exc == KeyError || r.exc == TypeError || r.exc == ValueError
    ensures imageSize.width < 0 || imageSize.height < 0 ==> r == Err(ValueError)
    ensures 0 <= imageSize.width && 0 <= imageSize.height && !properties.JObj? ==> r == Err(TypeError)
  {
    if imageSize.width < 0 || imageSize.height < 0 then Err(ValueError)
    else
      match Subscript(properties, "size")
      case Err(e) => Err(e)
      case Ok(size) =>
        match FontSize(size)
        case Err(e) => Err(e)
        case Ok(fontSize) => DrawText(properties, imageSize, fontSize, measure(fontSize), knownColour)
  }

  /** The rest of create_text_image once the font is chosen and the text
      measured: the placement lookup, the colour lookup, then draw.text,
      which raises ValueError for a colour string PIL does not know. */
  function DrawText(properties: Json, imageSize: Dims, fontSize: int, box: TextBox,
                    knownColour: string -> bool): (r: Result<TextLayer>)
    ensures r.Ok? ==> r.value.size == imageSize && r.value.fontSize == fontSize
    ensures r.Ok? ==> Subscript(properties, "color") == Ok(r.value.fill)
    ensures r.Ok? && r.value.fill.JStr? ==> knownColour(r.value.fill.s)
    ensures r.Err? ==> r.exc == KeyError || r.exc == TypeError || r.exc == ValueError
    ensures r == Err(ValueError) <==>
      && Subscript(properties, "placement").Ok?
      && TextPosition(Subscript(properties, "placement").value, imageSize, box.right - box.left, box.bottom - box.top).Ok?
      && Subscript(properties, "color").Ok?
      && Subscript(properties, "color").value.JStr?
      && !knownColour(Subscript(properties, "color").value.s)
  {
    match Subscript(properties, "placement")
    case Err(e) => Err(e)
    case Ok(placement) =>
      match TextPosition(placement, imageSize, box.right - box.left, box.bottom - box.top)
      case Err(e) => Err(e)
      case Ok(at) =>
        match Subscript(properties, "color")
        case Err(e) => Err(e)
        case Ok(fill) =>
          if fill.JStr? && !knownColour(fill.s) then Err(ValueError)
          else Ok(TextLayer(imageSize, fontSize, at, fill))
  }

  /** When the image size is non-negative, all three lookups succeed and PIL
      knows the colour, the layer has the requested size, the font size of
      the size entry, the corner the placement entry names for the box
      measured in that font, and the colour entry as fill. */
  lemma CreateTextImageSucceeds(properties: Json, imageSize: Dims, measure: int -> TextBox,
                                knownColour: string -> bool,
                                size: Json, placement: Json, at: Point, fill: Json)
    requires 0 <= imageSize.width && 0 <= imageSize.height
    requires Subscript(properties, "size") == Ok(size) && FontSize(size).Ok?
    requires Subscript(properties, "placement") == Ok(placement)
    requires var box := measure(FontSize(size).value);
      TextPosition(placement, imageSize, box.right - box.left, box.bottom - box.top) == Ok(at)
    requires Subscript(properties, "color") == Ok(fill)
    requires fill.JStr? ==> knownColour(fill.s)
    ensures CreateTextImage(properties, imageSize, measure, knownColour)
         == Ok(TextLayer(imageSize, FontSize(size).value, at, fill))
  {
    var fontSize := FontSize(size).value;
    assert DrawText(properties, imageSize, fontSize, measure(fontSize), knownColour)
        == Ok(TextLayer(imageSize, fontSize, at, fill));
  }

  /** Well-formed properties: a layer of the requested size, with the font
      size of the size entry and the text's top-left corner in the requested
      grid cell for the measured box. */
  lemma CreateTextImageInCell(properties: Json, imageSize: Dims, measure: int -> TextBox,
                              knownColour: string -> bool,
                              size: Json, row: Row, column: Column, fill: Json)
    requires 0 <= imageSize.width && 0 <= imageSize.height
    requires Subscript(properties, "size") == Ok(size) && FontSize(size).Ok?
    requires Subscript(properties, "placement") == Ok(JStr(PlacementKey(row, column)))
    requires Subscript(properties, "color") == Ok(fill)
    requires fill.JStr? ==> knownColour(fill.s)
    ensures var fontSize := FontSize(size).value;
      var box := measure(fontSize);
      CreateTextImage(properties, imageSize, measure, knownColour)
        == Ok(TextLayer(imageSize, fontSize,
                        Point(ColumnX(column, imageSize.width, box.right - box.left),
                              RowY(row, imageSize.height, box.bottom - box.top)),
                        fill))
  {
    var box := measure(FontSize(size).value);
    var at := Point(ColumnX(column, imageSize.width, box.right - box.left),
                    RowY(row, imageSize.height, box.bottom - box.top));
    TableIsGrid(row, column, imageSize, box.right - box.left, box.bottom - box.top);
    CreateTextImageSucceeds(properties, imageSize, measure, knownColour, size, JStr(PlacementKey(row, column)), at, fill);
  }

  /** A colour string PIL does not know raises ValueError from draw.text,
      after every lookup has succeeded. */
  lemma UnknownColourRaises(properties: Json, imageSize: Dims, measure: int -> TextBox,
                            knownColour: string -> bool, size: Json, row: Row, column: Column, colour: string)
    requires 0 <= imageSize.width && 0 <= imageSize.height
    requires Subscript(properties, "size") == Ok(size) && FontSize(size).Ok?
    requires Subscript(properties, "placement") == Ok(JStr(PlacementKey(row, column)))
    requires Subscript(properties, "color") == Ok(JStr(colour))
    requires !knownColour(colour)
    ensures CreateTextImage(properties, imageSize, measure, knownColour) == Err(ValueError)
  {
    var box := measure(FontSize(size).value);
    TableIsGrid(row, column, imageSize, box.right - box.left, box.bottom - box.top);
  }

  /** A placement outside the nine keys raises KeyError once the size is
      valid, whatever the colour entry holds. */
  lemma UnknownPlacementRaises(properties: Json, imageSize: Dims, measure: int -> TextBox,
                               knownColour: string -> bool, size: Json, placement: string)
    requires 0 <= imageSize.width && 0 <= imageSize.height
    requires Subscript(properties, "size") == Ok(size) && FontSize(size).Ok?
    requires Subscript(properties, "placement") == Ok(JStr(placement))
    requires forall row, column :: placement != PlacementKey(row, column)
    ensures CreateTextImage(properties, imageSize, measure, knownColour) == Err(KeyError)
  {
    var box := measure(FontSize(size).value);
    OnlyGridKeys(placement, imageSize, box.right - box.left, box.bottom - box.top);
  }

  /** A size outside the table raises KeyError before anything is measured
      or placed. */
  lemma UnknownSizeRaises(properties: Json, imageSize: Dims, measure: int -> TextBox,
                          knownColour: string -> bool, size: string)
    requires 0 <= imageSize.width && 0 <= imageSize.height
    requires Subscript(properties, "size") == Ok(JStr(size))
    requires size != "small" && size != "medium" && size != "large"
    ensures CreateTextImage(properties, imageSize, measure, knownColour) == Err(KeyError)
  {
    assert FontSize(JStr(size)) == Err(KeyError);
  }
}
