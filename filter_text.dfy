/** The overlay filter composer: from the overlay options it builds the
    ordered list of `drawtext`/`scrolltext` filters for the two centre
    lines, the two top-right lines and the timecode. Text substitution
    (`parse`) and the absolute clock are left symbolic: a filter carries the
    template it would substitute, or the clock shift it would add. */
module FilterText {
  import opened Wrappers
  import opened Strings
  import opened Config

  const DefaultFont := "swansea-bold.ttf"
  const DefaultFontSize: nat := 50
  const DefaultTextColor := "white"
  const DefaultBackground := "black"

  datatype Kind = Drawtext | Scrolltext

  /** `x=(w-text_w)/2` or `x=(w-text_w-inset)`. */
  datatype XPos = Centred | RightInset(inset: nat)

  /** `y=((h-text_h)/2)-d`, `y=((h-text_h)/2)+d` or `y=d`. */
  datatype YPos = AboveCentre(offset: nat) | BelowCentre(offset: nat) | FromTop(offset: nat)

  /** The text a filter shows: `parse(template, options)`, or the current
      time shifted by a number of seconds. */
  datatype Text = Parsed(template: string) | Clock(shiftSeconds: int)

  datatype TextFilter = TextFilter(
    kind: Kind,
    font: string,
    text: Text,
    fontColor: string,
    fontSize: nat,
    boxColor: string,
    x: XPos,
    y: YPos)

  /** `options?.overlay?.fontSize || 50`. */
  function FontSize(o: TextOptions): (n: nat)
    ensures n > 0
    ensures o.overlay.Some? && o.overlay.value.fontSize != 0 ==> n == o.overlay.value.fontSize
    ensures o.overlay.None? || o.overlay.value.fontSize == 0 ==> n == DefaultFontSize
  {
    if o.overlay.Some? && o.overlay.value.fontSize != 0 then o.overlay.value.fontSize else DefaultFontSize
  }

  /** `parseInt(fontSize * tenths / 10)` for a whole font size. */
  function Scaled(fontSize: nat, tenths: nat): nat {
    fontSize * tenths / 10
  }

  function KindOf(scrolling: bool): Kind {
    if scrolling then Scrolltext else Drawtext
  }

  /** Centre line 1: scrolls with `overlay.scrolling`, font from the top-level
      `font`, colours from the overlay. */
  function CentreLine1(o: TextOptions, ov: Overlay, size: nat): TextFilter {
    TextFilter(KindOf(ov.scrolling), OrElse(o.font, DefaultFont), Parsed(ov.line1),
      OrElse(ov.textColor, DefaultTextColor), size, OrElse(ov.backgroundColor, DefaultBackground),
      Centred, AboveCentre(Scaled(size, 6)))
  }

  /** Centre line 2: as line 1 but below the centre, and scrolling with the
      top-level `scrolling` flag. */
  function CentreLine2(o: TextOptions, ov: Overlay, size: nat): TextFilter {
    TextFilter(KindOf(o.scrolling), OrElse(o.font, DefaultFont), Parsed(ov.line2),
      OrElse(ov.textColor, DefaultTextColor), size, OrElse(ov.backgroundColor, DefaultBackground),
      Centred, BelowCentre(Scaled(size, 6)))
  }

  /** Top-right line 1: never scrolls, font from the overlay, colours from the
      top-level `textColor`/`backgroundColor`. */
  function TopRightLine1(o: TextOptions, ov: Overlay, tr: TopRight, size: nat): TextFilter {
    TextFilter(Drawtext, OrElse(ov.font, DefaultFont), Parsed(tr.line1),
      OrElse(o.textColor, DefaultTextColor), size / 2, OrElse(o.backgroundColor, DefaultBackground),
      RightInset(Scaled(size, 4)), FromTop(Scaled(size, 6)))
  }

  /** Top-right line 2: never scrolls, font and colours from the overlay. */
  function TopRightLine2(ov: Overlay, tr: TopRight, size: nat): TextFilter {
    TextFilter(Drawtext, OrElse(ov.font, DefaultFont), Parsed(tr.line2),
      OrElse(ov.textColor, DefaultTextColor), size / 2, OrElse(ov.backgroundColor, DefaultBackground),
      RightInset(Scaled(size, 4)), FromTop(Scaled(size, 12)))
  }

  /** The clock shift of the timecode: `offset` hours, 0 when unset. */
  function ClockShift(ov: Overlay): int {
    if ov.offset != 0 then 60 * 60 * ov.offset else 0
  }

  function TimecodeLine(ov: Overlay, size: nat): TextFilter {
    TextFilter(KindOf(ov.scrolling), OrElse(ov.font, DefaultFont), Clock(ClockShift(ov)),
      OrElse(ov.textColor, DefaultTextColor), size, OrElse(ov.backgroundColor, DefaultBackground),
      Centred, BelowCentre(Scaled(size, 18)))
  }

  function When(present: bool, f: TextFilter): seq<TextFilter> {
    if present then [f] else []
  }

  /** The top-right lines: present only when `topRight` is set. */
  function TopRightFilters(o: TextOptions, ov: Overlay, size: nat): seq<TextFilter> {
    match ov.topRight
    case None => []
    case Some(tr) => When(tr.line1 != "", TopRightLine1(o, ov, tr, size)) + When(tr.line2 != "", TopRightLine2(ov, tr, size))
  }

  /** The filter list: each line present exactly when its field is set, in
      the order centre 1, centre 2, top-right 1, top-right 2, timecode; no
      overlay at all gives the empty list. */
  function TextFilters(o: TextOptions): seq<TextFilter> {
    match o.overlay
    case None => []
    case Some(ov) =>
      var size := FontSize(o);
      When(ov.line1 != "", CentreLine1(o, ov, size))
      + When(ov.line2 != "", CentreLine2(o, ov, size))
      + TopRightFilters(o, ov, size)
      + When(ov.timecode, TimecodeLine(ov, size))
  }

  /** The exported function of filter-text: pushes the filters one by one.
      Reading `options.overlay.line2` without an overlay throws; the catch
      returns what has been pushed by then. */
  method ComposeTextFilters(o: TextOptions) returns (filters: seq<TextFilter>)
    ensures filters == TextFilters(o)
  {
    var fontSize := FontSize(o);
    filters := [];
    if o.overlay.Some? && o.overlay.value.line1 != "" {
      filters := filters + [CentreLine1(o, o.overlay.value, fontSize)];
    }
    if o.overlay.None? {
      return;
    }
    var ov := o.overlay.value;
    if ov.line2 != "" {
      filters := filters + [CentreLine2(o, ov, fontSize)];
    }
    if ov.topRight.Some? {
      filters := PushTopRight(filters, o, ov, ov.topRight.value, fontSize);
    }
    if ov.timecode {
      var offset := 0;
      if ov.offset != 0 {
        offset := 60 * 60 * ov.offset;
      }
      filters := filters + [TextFilter(KindOf(ov.scrolling), OrElse(ov.font, DefaultFont), Clock(offset),
        OrElse(ov.textColor, DefaultTextColor), fontSize, OrElse(ov.backgroundColor, DefaultBackground),
        Centred, BelowCentre(Scaled(fontSize, 18)))];
    }
  }

  /** The `topRight` block of the composer: one push per set line. */
  method PushTopRight(filters: seq<TextFilter>, o: TextOptions, ov: Overlay, tr: TopRight, fontSize: nat)
    returns (pushed: seq<TextFilter>)
    requires ov.topRight == Some(tr)
    ensures pushed == filters + TopRightFilters(o, ov, fontSize)
  {
    pushed := filters;
    if tr.line1 != "" {
      pushed := pushed + [TopRightLine1(o, ov, tr, fontSize)];
    }
    if tr.line2 != "" {
      pushed := pushed + [TopRightLine2(ov, tr, fontSize)];
    }
  }

  // ---------------------------------------------------------------------
  // rendering of the option string's styling tail

  function XExpr(x: XPos): string {
    match x
    case Centred => "(w-text_w)/2"
    case RightInset(k) => "(w-text_w-" + NatToString(k) + ")"
  }

  function YExpr(y: YPos): string {
    match y
    case AboveCentre(d) => "((h-text_h)/2)-" + NatToString(d)
    case BelowCentre(d) => "((h-text_h)/2)+" + NatToString(d)
    case FromTop(d) => NatToString(d)
  }

  /** The part of a filter's option string after the text: colour, size, the
      half-transparent box and the position. */
  function StyleOptions(f: TextFilter): string {
    "fontcolor=" + f.fontColor + ":fontsize=" + NatToString(f.fontSize) + ":box=1:boxcolor="
      + f.boxColor + "@0.5:boxborderw=8:x=" + XExpr(f.x) + ":y=" + YExpr(f.y)
  }

  // ---------------------------------------------------------------------
  // properties

  /** The list has at most five filters, and none without an overlay. */
  lemma AtMostFiveFilters(o: TextOptions)
    ensures |TextFilters(o)| <= 5
    ensures o.overlay.None? ==> TextFilters(o) == []
  {
  }

  /** Every top-right filter is a plain `drawtext`; centre line 1 and the
      timecode scroll with `overlay.scrolling`, centre line 2 with the
      top-level `scrolling`. */
  lemma ScrollingFlags(o: TextOptions)
    requires o.overlay.Some?
    ensures var ov := o.overlay.value; var size := FontSize(o);
      && CentreLine1(o, ov, size).kind == (if ov.scrolling then Scrolltext else Drawtext)
      && CentreLine2(o, ov, size).kind == (if o.scrolling then Scrolltext else Drawtext)
      && TimecodeLine(ov, size).kind == (if ov.scrolling then Scrolltext else Drawtext)
      && (ov.topRight.Some? ==>
           TopRightLine1(o, ov, ov.topRight.value, size).kind == Drawtext
           && TopRightLine2(ov, ov.topRight.value, size).kind == Drawtext)
  {
  }

  /** With every field set, the list is exactly the five lines in order. */
  lemma FullOverlayOrder(o: TextOptions)
    requires o.overlay.Some?
    requires var ov := o.overlay.value;
      ov.line1 != "" && ov.line2 != "" && ov.topRight.Some? && ov.topRight.value.line1 != ""
      && ov.topRight.value.line2 != "" && ov.timecode
    ensures var ov := o.overlay.value; var tr := ov.topRight.value; var size := FontSize(o);
      TextFilters(o) == [CentreLine1(o, ov, size), CentreLine2(o, ov, size), TopRightLine1(o, ov, tr, size),
                         TopRightLine2(ov, tr, size), TimecodeLine(ov, size)]
  {
  }

  /** Positions as integer functions of the font size: the centre lines sit
      0.6 font sizes above and below the centre, the top-right lines at 0.6
      and 1.2 font sizes from the top and 0.4 from the right edge at half the
      size, the timecode 1.8 font sizes below the centre. */
  lemma Positions(o: TextOptions)
    requires o.overlay.Some?
    ensures var ov := o.overlay.value; var size := FontSize(o);
      && CentreLine1(o, ov, size).x == Centred && CentreLine1(o, ov, size).y == AboveCentre(size * 6 / 10)
      && CentreLine2(o, ov, size).x == Centred && CentreLine2(o, ov, size).y == BelowCentre(size * 6 / 10)
      && TimecodeLine(ov, size).x == Centred && TimecodeLine(ov, size).y == BelowCentre(size * 18 / 10)
      && (ov.topRight.Some? ==>
           var tr := ov.topRight.value;
           && TopRightLine1(o, ov, tr, size).x == RightInset(size * 4 / 10)
           && TopRightLine1(o, ov, tr, size).y == FromTop(size * 6 / 10)
           && TopRightLine1(o, ov, tr, size).fontSize == size / 2
           && TopRightLine2(ov, tr, size).x == RightInset(size * 4 / 10)
           && TopRightLine2(ov, tr, size).y == FromTop(size * 12 / 10)
           && TopRightLine2(ov, tr, size).fontSize == size / 2)
  {
  }

  /** Over the composed list: only centred filters scroll; every filter
      inset from the right is a plain `drawtext` at half the font size,
      0.4 font sizes from the edge and measured from the top; every centred
      filter is at the full font size, placed relative to the centre. */
  lemma ComposedLayout(o: TextOptions)
    ensures var size := FontSize(o);
      forall f | f in TextFilters(o) ::
        && (f.kind == Scrolltext ==> f.x == Centred)
        && (f.x.RightInset? ==>
              f.kind == Drawtext && f.x == RightInset(size * 4 / 10) && f.fontSize == size / 2 && f.y.FromTop?)
        && (f.x == Centred ==> f.fontSize == size && !f.y.FromTop?)
  {
    if o.overlay.Some? {
      ScrollingFlags(o);
      Positions(o);
    }
  }

  /** At the default font size of 50 the offsets are 30 (centre lines and
      first top-right line), 60 (second top-right line) and 90 (timecode),
      with the top-right lines at size 25, inset 20. */
  lemma DefaultSizeOffsets(o: TextOptions)
    requires o.overlay.Some? && o.overlay.value.fontSize == 0
    ensures FontSize(o) == 50
    ensures var ov := o.overlay.value;
      && CentreLine1(o, ov, 50).y == AboveCentre(30) && CentreLine2(o, ov, 50).y == BelowCentre(30)
      && TimecodeLine(ov, 50).y == BelowCentre(90)
      && (ov.topRight.Some? ==>
           && TopRightLine1(o, ov, ov.topRight.value, 50).y == FromTop(30)
           && TopRightLine2(ov, ov.topRight.value, 50).y == FromTop(60)
           && TopRightLine1(o, ov, ov.topRight.value, 50).x == RightInset(20)
           && TopRightLine1(o, ov, ov.topRight.value, 50).fontSize == 25)
  {
  }

  /** The first centre line with default styling renders white text on a
      half-transparent black box, 30 pixels above the centre. */
  lemma DefaultCentreLineStyle(o: TextOptions)
    requires o.overlay.Some?
    requires var ov := o.overlay.value; ov.fontSize == 0 && ov.textColor == "" && ov.backgroundColor == ""
    ensures StyleOptions(CentreLine1(o, o.overlay.value, FontSize(o)))
      == "fontcolor=" + "white" + ":fontsize=" + "50" + ":box=1:boxcolor=" + "black"
         + "@0.5:boxborderw=8:x=" + "(w-text_w)/2" + ":y=" + "((h-text_h)/2)-30"
  {
    assert NatToString(50) == NatToString(5) + [DigitChar(0)] == "50";
    assert NatToString(30) == NatToString(3) + [DigitChar(0)] == "30";
    assert Scaled(50, 6) == 30;
    var f := CentreLine1(o, o.overlay.value, FontSize(o));
    assert f.fontColor == "white" && f.boxColor == "black" && f.fontSize == 50;
    assert YExpr(f.y) == "((h-text_h)/2)-30";
    assert XExpr(f.x) == "(w-text_w)/2";
  }

  /** The timecode is shifted by whole hours: 3600 seconds per unit of
      `offset`, none when it is unset. */
  lemma TimecodeShift(o: TextOptions)
    requires o.overlay.Some? && o.overlay.value.timecode
    ensures TextFilters(o)[|TextFilters(o)| - 1] == TimecodeLine(o.overlay.value, FontSize(o))
    ensures TimecodeLine(o.overlay.value, FontSize(o)).text == Clock(3600 * o.overlay.value.offset)
  {
  }
}
