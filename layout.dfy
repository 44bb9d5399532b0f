/** The layout comparison page. It resolves the AI's alternate layout for a
    page out of `metadata.optimal_layout` (sanitise, parse, index; any
    exception becomes `null`) and draws the visuals of the original page
    and of the alternate page as rectangles scaled by the slider's value.

    JavaScript evaluation is modelled on decoded JSON values: reading a
    property of `null` or `undefined` throws, an object has its data members
    and nothing else, and a missing member or array element is `undefined`.
    `JSON.parse` is the parameter `parse` (`None` when it throws). */
module Layout {
  import opened Wrappers
  import opened Json
  import opened Fences

  /** The outcome of a JavaScript expression: it throws, or yields
      `undefined`, or yields a JSON value. */
  datatype Js = Thrown | Undefined | Value(v: Json)

  /** `v.name`: reading a property of `null` throws; only an object has data
      members, so on any other value the property is `undefined`. */
  function Member(v: Json, name: string): (r: Js)
    ensures r.Thrown? <==> v.JNull?
    ensures r.Value? ==> v.JObj? && (name, r.v) in v.members
    ensures v.JObj? && r.Undefined? ==> forall i :: 0 <= i < |v.members| ==> v.members[i].0 != name
  {
    match v
    case JNull => Thrown
    case JObj(members) =>
      LookupFinds(members, name);
      (match Lookup(members, name)
       case Some(m) => Value(m)
       case None => Undefined)
    case _ => Undefined
  }

  /** `target[i]` for an integer `i`: indexing `null` or `undefined` throws;
      an array or a string has elements at `0 <= i < length`; an object is
      looked up by the numeral of `i`. Anything else is `undefined`. */
  function Index(target: Js, i: int): (r: Js)
    ensures r.Thrown? <==> target.Thrown? || target.Undefined? || target == Value(JNull)
    ensures target.Value? && target.v.JArr? && 0 <= i < |target.v.items| ==> r == Value(target.v.items[i])
    ensures target.Value? && target.v.JArr? && !(0 <= i < |target.v.items|) ==> r.Undefined?
  {
    match target
    case Thrown => Thrown
    case Undefined => Thrown
    case Value(JNull) => Thrown
    case Value(JArr(items)) => if 0 <= i < |items| then Value(items[i]) else Undefined
    case Value(JStr(s)) => if 0 <= i < |s| then Value(JStr([s[i]])) else Undefined
    case Value(JObj(members)) =>
      (match Lookup(members, IntToDecimal(i))
       case Some(m) => Value(m)
       case None => Undefined)
    case Value(_) => Undefined
  }

  /** JavaScript truthiness of a decoded value (`!metadata`). */
  predicate JsTruthy(v: Json) {
    match v
    case JNull => false
    case JBool(b) => b
    case JNum(n) => n != 0.0
    case JStr(s) => |s| > 0
    case _ => true
  }

  /*** The resolver ***/

  /** The body of the `try` block on a string `optimal_layout`:
      `JSON.parse(sanitizedLayout).pages[pageIndex]`, with the `catch` giving
      `null`. `Some(JNull)` is `null` and `None` is `undefined`. */
  function ResolveText(text: string, pageIndex: int, parse: string -> Option<Json>): (r: Option<Json>)
    ensures parse(Sanitize(text)).None? ==> r == Some(JNull)
    ensures r.None? ==> parse(Sanitize(text)).Some? && Member(parse(Sanitize(text)).value, "pages").Value?
  {
    match parse(Sanitize(text))
    case None => Some(JNull)
    case Some(doc) =>
      match Index(Member(doc, "pages"), pageIndex)
      case Thrown => Some(JNull)
      case Undefined => None
      case Value(page) => Some(page)
  }

  /** `page`: the alternate page. A missing or non-string `optimal_layout`
      has no `replace` method, so the `try` block throws and `page` is
      `null`. */
  function ResolveAlternatePage(metadata: Json, pageIndex: int, parse: string -> Option<Json>): (r: Option<Json>)
    ensures !(Member(metadata, "optimal_layout").Value? && Member(metadata, "optimal_layout").v.JStr?) ==>
      r == Some(JNull)
  {
    match Member(metadata, "optimal_layout")
    case Value(JStr(text)) => ResolveText(text, pageIndex, parse)
    case _ => Some(JNull)
  }

  /** A layout that is not a string, or whose sanitised text does not parse,
      resolves to `null`. */
  lemma ResolveFailure(metadata: Json, pageIndex: int, parse: string -> Option<Json>)
    ensures (forall text :: Member(metadata, "optimal_layout") != Value(JStr(text))) ==>
      ResolveAlternatePage(metadata, pageIndex, parse) == Some(JNull)
    ensures forall text :: Member(metadata, "optimal_layout") == Value(JStr(text)) && parse(Sanitize(text)).None? ==>
      ResolveAlternatePage(metadata, pageIndex, parse) == Some(JNull)
  {
  }

  /** A parsed layout without a `pages` member (an object lacking it, or any
      other value) resolves to `null`. */
  lemma ResolveWithoutPages(text: string, pageIndex: int, parse: string -> Option<Json>)
    requires parse(Sanitize(text)).Some?
    requires var doc := parse(Sanitize(text)).value; !doc.JObj? || Lookup(doc.members, "pages").None?
    ensures ResolveText(text, pageIndex, parse) == Some(JNull)
  {
  }

  /** With a `pages` array, an index in range yields that page and an index
      out of range yields `undefined`, not `null`. */
  lemma ResolvePages(text: string, pageIndex: int, parse: string -> Option<Json>, pages: seq<Json>)
    requires parse(Sanitize(text)).Some?
    requires parse(Sanitize(text)).value.JObj?
    requires Lookup(parse(Sanitize(text)).value.members, "pages") == Some(JArr(pages))
    ensures 0 <= pageIndex < |pages| ==> ResolveText(text, pageIndex, parse) == Some(pages[pageIndex])
    ensures !(0 <= pageIndex < |pages|) ==> ResolveText(text, pageIndex, parse) == None
  {
  }

  /** A fenced payload "```json\n<body>\n```" resolves as its body does, when
      the body has no backticks. */
  lemma ResolveFenced(body: string, pageIndex: int, parse: string -> Option<Json>)
    requires '`' !in body
    ensures ResolveText(JsonFence + "\n" + body + "\n" + Fence, pageIndex, parse)
         == ResolveText(body, pageIndex, parse)
  {
    SanitizeFenced(body);
  }

  /*** The renderer ***/

  /** A JavaScript number: a finite value or `NaN` (JSON has no infinities). */
  datatype Num = Finite(r: real) | NaN

  /** `Rect = { left, top, width, height }` */
  datatype Rect = Rect(left: Num, top: Num, width: Num, height: Num)

  /** A render that throws, or draws a value. */
  datatype Render<+T> = Throws | Drawn(value: T)

  /** The numeric coercion of `x * scale`'s left operand. `undefined` is
      `NaN`, `null` is 0, a boolean 0 or 1, an object `NaN`; strings and
      arrays are converted through their text by `fromText`. */
  function ToNumber(x: Js, fromText: Json -> Num): (r: Num)
    ensures !x.Value? ==> r == NaN
    ensures x.Value? && x.v.JNum? ==> r == Finite(x.v.n)
    ensures x == Value(JNull) ==> r == Finite(0.0)
  {
    match x
    case Value(JNum(n)) => Finite(n)
    case Value(JNull) => Finite(0.0)
    case Value(JBool(b)) => Finite(if b then 1.0 else 0.0)
    case Value(JObj(_)) => NaN
    case Value(other) => fromText(other)
    case _ => NaN
  }

  /** `x * scale` */
  function Scaled(x: Js, scale: real, fromText: Json -> Num): (r: Num)
    ensures r.NaN? <==> ToNumber(x, fromText).NaN?
    ensures r.Finite? ==> r.r == ToNumber(x, fromText).r * scale
  {
    match ToNumber(x, fromText)
    case Finite(r) => Finite(r * scale)
    case NaN => NaN
  }

  /** One visual's rectangle: `const { x, y, width, height } = v.position`
      throws on a `null` visual and on a `null` or `undefined` position. */
  function ProjectVisual(v: Json, scale: real, fromText: Json -> Num): (r: Render<Rect>)
    ensures r.Drawn? <==> Member(v, "position").Value? && !Member(v, "position").v.JNull?
  {
    match Member(v, "position")
    case Value(position) =>
      if position.JNull? then Throws
      else Drawn(Rect(
        Scaled(Member(position, "x"), scale, fromText),
        Scaled(Member(position, "y"), scale, fromText),
        Scaled(Member(position, "width"), scale, fromText),
        Scaled(Member(position, "height"), scale, fromText)))
    case _ => Throws
  }

  /** `visuals.map(...)`: every visual's rectangle in order; one that throws
      aborts the render. */
  function ProjectAll(visuals: seq<Json>, scale: real, fromText: Json -> Num): (r: Render<seq<Rect>>)
    ensures r.Drawn? ==> |r.value| == |visuals|
  {
    if |visuals| == 0 then Drawn([])
    else
      match ProjectVisual(visuals[0], scale, fromText)
      case Throws => Throws
      case Drawn(rect) =>
        match ProjectAll(visuals[1..], scale, fromText)
        case Throws => Throws
        case Drawn(rects) => Drawn([rect] + rects)
  }

  /** One pane: `page.visuals.map(...)`. Reading `visuals` of `null` or
      `undefined` throws, and so does calling `map` on anything but an
      array. */
  function RenderPane(page: Js, scale: real, fromText: Json -> Num): (r: Render<seq<Rect>>)
    ensures r.Drawn? ==> page.Value? && Member(page.v, "visuals").Value? && Member(page.v, "visuals").v.JArr?
    ensures r.Drawn? ==> r == ProjectAll(Member(page.v, "visuals").v.items, scale, fromText)
  {
    match page
    case Value(p) =>
      (match Member(p, "visuals")
       case Value(JArr(visuals)) => ProjectAll(visuals, scale, fromText)
       case _ => Throws)
    case _ => Throws
  }

  function AsJs(page: Option<Json>): Js {
    match page
    case None => Undefined
    case Some(p) => Value(p)
  }

  /** What the page shows: the placeholder without metadata, both panes, or
      nothing at all when the render throws. */
  datatype View = NoMetadata | Crashed | Compare(original: seq<Rect>, alternate: seq<Rect>)

  /** The page for the stored `metadata` (`null` when none is stored). The
      original page `metadata.pages[pageIndex]` is read outside the `try`, and
      neither it nor the resolved page is checked before `.visuals.map`. */
  function LayoutView(metadata: Json, pageIndex: int, scale: real,
                      parse: string -> Option<Json>, fromText: Json -> Num): (r: View)
    ensures r.NoMetadata? <==> !JsTruthy(metadata)
  {
    if !JsTruthy(metadata) then NoMetadata
    else
      var original := Index(Member(metadata, "pages"), pageIndex);
      var alternate := AsJs(ResolveAlternatePage(metadata, pageIndex, parse));
      match (RenderPane(original, scale, fromText), RenderPane(alternate, scale, fromText))
      case (Drawn(o), Drawn(a)) => Compare(o, a)
      case _ => Crashed
  }

  /** A visual whose position holds numbers gets the rectangle
      `(x*scale, y*scale, width*scale, height*scale)`; with non-negative
      numbers and scale the rectangle is non-negative. */
  lemma ProjectNumbers(v: Json, scale: real, fromText: Json -> Num, position: Json,
                       x: real, y: real, width: real, height: real)
    requires Member(v, "position") == Value(position) && !position.JNull?
    requires Member(position, "x") == Value(JNum(x)) && Member(position, "y") == Value(JNum(y))
    requires Member(position, "width") == Value(JNum(width)) && Member(position, "height") == Value(JNum(height))
    ensures ProjectVisual(v, scale, fromText)
         == Drawn(Rect(Finite(x * scale), Finite(y * scale), Finite(width * scale), Finite(height * scale)))
    ensures 0.0 <= scale && 0.0 <= x && 0.0 <= y && 0.0 <= width && 0.0 <= height ==>
      var r := ProjectVisual(v, scale, fromText).value;
      0.0 <= r.left.r && 0.0 <= r.top.r && 0.0 <= r.width.r && 0.0 <= r.height.r
  {
    assert Scaled(Member(position, "x"), scale, fromText) == Finite(x * scale);
    assert Scaled(Member(position, "y"), scale, fromText) == Finite(y * scale);
    assert Scaled(Member(position, "width"), scale, fromText) == Finite(width * scale);
    assert Scaled(Member(position, "height"), scale, fromText) == Finite(height * scale);
  }

  /** A visual at (10, 20) sized 100 by 50, at scale 0.5, is drawn at (5, 10)
      sized 50 by 25. */
  lemma ProjectExample(fromText: Json -> Num)
    ensures ProjectVisual(
      JObj([("position", JObj([("x", JNum(10.0)), ("y", JNum(20.0)), ("width", JNum(100.0)), ("height", JNum(50.0))]))]),
      0.5, fromText)
      == Drawn(Rect(Finite(5.0), Finite(10.0), Finite(50.0), Finite(25.0)))
  {
  }

  /** A pane draws exactly one rectangle per visual, in visual order, each
      the visual's own projection, unless some visual's projection throws. */
  lemma {:induction false} ProjectAllShape(visuals: seq<Json>, scale: real, fromText: Json -> Num)
    ensures ProjectAll(visuals, scale, fromText).Drawn? <==>
      forall i :: 0 <= i < |visuals| ==> ProjectVisual(visuals[i], scale, fromText).Drawn?
    ensures ProjectAll(visuals, scale, fromText).Drawn? ==>
      var rects := ProjectAll(visuals, scale, fromText).value;
      |rects| == |visuals| &&
      forall i :: 0 <= i < |visuals| ==> rects[i] == ProjectVisual(visuals[i], scale, fromText).value
    decreases |visuals|
  {
    if |visuals| > 0 {
      ProjectAllShape(visuals[1..], scale, fromText);
      assert forall i :: 1 <= i < |visuals| ==> visuals[i] == visuals[1..][i - 1];
    }
  }

  /** Without metadata the placeholder shows. With metadata, both panes show
      exactly when both pages render, each pane being its own page's
      rendering; so a `null` or `undefined` alternate page (a layout that
      does not parse, or an index out of range), or an original page out of
      range, breaks the whole render. */
  lemma ViewOutcome(metadata: Json, pageIndex: int, scale: real,
                    parse: string -> Option<Json>, fromText: Json -> Num)
    ensures var view := LayoutView(metadata, pageIndex, scale, parse, fromText);
      var original := Index(Member(metadata, "pages"), pageIndex);
      var alternate := AsJs(ResolveAlternatePage(metadata, pageIndex, parse));
      && (view.NoMetadata? <==> !JsTruthy(metadata))
      && (view.Compare? <==> JsTruthy(metadata) && RenderPane(original, scale, fromText).Drawn?
                                                && RenderPane(alternate, scale, fromText).Drawn?)
      && (view.Compare? ==>
            view.original == RenderPane(original, scale, fromText).value &&
            view.alternate == RenderPane(alternate, scale, fromText).value)
      && (JsTruthy(metadata) && ResolveAlternatePage(metadata, pageIndex, parse) in {None, Some(JNull)} ==>
            view == Crashed)
      && (JsTruthy(metadata) && original.Undefined? ==> view == Crashed)
  {
  }

  /** A pane that draws shows a page whose `visuals` is an array, one
      rectangle per visual in visual order, each that visual's projection. */
  lemma PaneProjectsVisuals(page: Js, scale: real, fromText: Json -> Num)
    requires RenderPane(page, scale, fromText).Drawn?
    ensures page.Value? && Member(page.v, "visuals").Value? && Member(page.v, "visuals").v.JArr?
    ensures var vs, rects := Member(page.v, "visuals").v.items, RenderPane(page, scale, fromText).value;
      && |rects| == |vs|
      && forall i :: 0 <= i < |vs| ==> ProjectVisual(vs[i], scale, fromText) == Drawn(rects[i])
  {
    ProjectAllShape(Member(page.v, "visuals").v.items, scale, fromText);
  }

  /** When both panes show, each holds one rectangle per visual of its own
      page, in visual order, each that visual's projection at the one shared
      `scale`. */
  lemma PanesProjectVisuals(metadata: Json, pageIndex: int, scale: real,
                            parse: string -> Option<Json>, fromText: Json -> Num)
    requires LayoutView(metadata, pageIndex, scale, parse, fromText).Compare?
    ensures var original := Index(Member(metadata, "pages"), pageIndex);
      original.Value? && Member(original.v, "visuals").Value? && Member(original.v, "visuals").v.JArr?
    ensures var alternate := AsJs(ResolveAlternatePage(metadata, pageIndex, parse));
      alternate.Value? && Member(alternate.v, "visuals").Value? && Member(alternate.v, "visuals").v.JArr?
    ensures var ov := Member(Index(Member(metadata, "pages"), pageIndex).v, "visuals").v.items;
      var rects := LayoutView(metadata, pageIndex, scale, parse, fromText).original;
      && |rects| == |ov|
      && forall i :: 0 <= i < |ov| ==> ProjectVisual(ov[i], scale, fromText) == Drawn(rects[i])
    ensures var av := Member(AsJs(ResolveAlternatePage(metadata, pageIndex, parse)).v, "visuals").v.items;
      var rects := LayoutView(metadata, pageIndex, scale, parse, fromText).alternate;
      && |rects| == |av|
      && forall i :: 0 <= i < |av| ==> ProjectVisual(av[i], scale, fromText) == Drawn(rects[i])
  {
    ViewOutcome(metadata, pageIndex, scale, parse, fromText);
    PaneProjectsVisuals(Index(Member(metadata, "pages"), pageIndex), scale, fromText);
    PaneProjectsVisuals(AsJs(ResolveAlternatePage(metadata, pageIndex, parse)), scale, fromText);
  }

  /*** The scale slider ***/

  /** The `scale` state and its slider: `min={0.1}`, `max={10}`. */
  class ScaleSlider {
    var scale: real

    predicate Valid()
      reads this
    {
      0.1 <= scale <= 10.0
    }

    /** `useState(0.48)` */
    constructor ()
      ensures scale == 0.48 && Valid()
    {
      scale := 0.48;
    }

    /** `handleScaleChange`: the slider reports a value within its range. */
    method HandleScaleChange(newValue: real)
      requires 0.1 <= newValue <= 10.0
      modifies this
      ensures scale == newValue && Valid()
    {
      scale := newValue;
    }
  }

  /** At any slider value, a visual with non-negative numeric position and
      size is drawn at a non-negative place with a non-negative size. */
  lemma SliderScaleNonNegative(slider: ScaleSlider, v: Json, fromText: Json -> Num, position: Json,
                               x: real, y: real, width: real, height: real)
    requires slider.Valid()
    requires Member(v, "position") == Value(position) && !position.JNull?
    requires Member(position, "x") == Value(JNum(x)) && Member(position, "y") == Value(JNum(y))
    requires Member(position, "width") == Value(JNum(width)) && Member(position, "height") == Value(JNum(height))
    requires 0.0 <= x && 0.0 <= y && 0.0 <= width && 0.0 <= height
    ensures var r := ProjectVisual(v, slider.scale, fromText);
      r.Drawn? && 0.0 <= r.value.left.r && 0.0 <= r.value.top.r && 0.0 <= r.value.width.r && 0.0 <= r.value.height.r
  {
    ProjectNumbers(v, slider.scale, fromText, position, x, y, width, height);
  }
}
