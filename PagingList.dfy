/**
 * A model of the layout arithmetic of the PagingList component: the snap
 * offsets given to the list, the trailing spacer rendered under start
 * alignment, and the web-only correction of the `x` a cell reports in its
 * layout event. Dimensions are whole pixels.
 */
module PagingList {

  datatype Option<T> = None | Some(value: T)

  // ---------------------------------------------------------------------
  // Props
  // ---------------------------------------------------------------------

  /** The geometry every item is styled with. */
  datatype ItemStyle = ItemStyle(width: int, height: int, margin: int)

  /** Distance between the starts of two neighbouring items. */
  function Pitch(style: ItemStyle): int {
    style.width + style.margin
  }

  /** The list's `snapToAlignment` prop. */
  datatype Alignment = Start | Center | End

  /** The alignment used when the caller leaves the prop undefined. */
  const DefaultAlignment: Alignment := Center

  /** The alignment in effect: the caller's if given, the default otherwise. */
  function ResolveAlignment(given: Option<Alignment>): (a: Alignment)
    ensures given.None? ==> a == DefaultAlignment
    ensures given.Some? ==> a == given.value
  {
    match given
    case None => DefaultAlignment
    case Some(a) => a
  }

  /** The container width before the outer view has reported its layout. */
  const InitialContainerWidth: int := 0

  // ---------------------------------------------------------------------
  // Snap offsets
  // ---------------------------------------------------------------------

  /** One stop per data element, the i-th at `i` pitches from the start. */
  function SnapToOffsets(data: seq<string>, style: ItemStyle): (offsets: seq<int>)
    ensures |offsets| == |data|
    ensures |offsets| > 0 ==> offsets[0] == 0
    ensures forall i :: 0 < i < |offsets| ==> offsets[i] - offsets[i - 1] == Pitch(style)
  {
    seq(|data|, i => i * Pitch(style))
  }

  ghost predicate StrictlyIncreasing(s: seq<int>) {
    forall i, j :: 0 <= i < j < |s| ==> s[i] < s[j]
  }

  /** A sequence that starts at 0 and steps by `p` is the closed form `i * p`. */
  lemma {:induction false} UniformStepsClosedForm(s: seq<int>, p: int, k: nat)
    requires |s| > 0 && s[0] == 0
    requires forall i :: 0 < i < |s| ==> s[i] - s[i - 1] == p
    requires k < |s|
    ensures s[k] == k * p
  {
    if k > 0 {
      UniformStepsClosedForm(s, p, k - 1);
      assert s[k] == (k - 1) * p + p;
    }
  }

  /**
   * The contract of `SnapToOffsets` determines its result: any sequence with
   * one entry per element, starting at 0 and stepping by one pitch, is it.
   */
  lemma SnapOffsetsDeterminedByContract(data: seq<string>, style: ItemStyle, s: seq<int>)
    requires |s| == |data|
    requires |s| > 0 ==> s[0] == 0
    requires forall i :: 0 < i < |s| ==> s[i] - s[i - 1] == Pitch(style)
    ensures s == SnapToOffsets(data, style)
  {
    forall k | 0 <= k < |s| ensures s[k] == SnapToOffsets(data, style)[k] {
      UniformStepsClosedForm(s, Pitch(style), k);
    }
  }

  /** The stops depend on how many items there are, not on what they are. */
  lemma SnapOffsetsDependOnlyOnCount(d1: seq<string>, d2: seq<string>, style: ItemStyle)
    requires |d1| == |d2|
    ensures SnapToOffsets(d1, style) == SnapToOffsets(d2, style)
  {
  }

  lemma MulStrictlyMonotone(i: int, j: int, p: int)
    requires 0 <= i < j && p > 0
    ensures i * p < j * p
  {
  }

  /**
   * The stops are strictly increasing exactly when the pitch is positive,
   * or when there are too few of them to compare.
   */
  lemma SnapOffsetsStrictlyIncreasing(data: seq<string>, style: ItemStyle)
    ensures StrictlyIncreasing(SnapToOffsets(data, style)) <==> (Pitch(style) > 0 || |data| <= 1)
  {
    var s := SnapToOffsets(data, style);
    if Pitch(style) > 0 {
      forall i, j | 0 <= i < j < |s| ensures s[i] < s[j] {
        MulStrictlyMonotone(i, j, Pitch(style));
      }
    } else if |data| > 1 {
      assert s[1] - s[0] == Pitch(style);
      assert !(s[0] < s[1]);
    }
  }

  // ---------------------------------------------------------------------
  // Footer spacer
  // ---------------------------------------------------------------------

  /** The size of the spacer view rendered after the last item. */
  datatype Spacer = Spacer(width: int, height: int)

  /**
   * The list footer: a spacer only under start alignment, as wide as the
   * container minus one pitch (not clamped) and as tall as an item.
   */
  function Footer(alignment: Alignment, containerWidth: int, style: ItemStyle): (footer: Option<Spacer>)
    ensures footer.Some? <==> alignment == Start
    ensures footer.Some? ==> footer.value.width + Pitch(style) == containerWidth
    ensures footer.Some? ==> footer.value.height == style.height
  {
    if alignment != Start then None
    else Some(Spacer(containerWidth - style.width - style.margin, style.height))
  }

  /** With the default alignment, or any but start, there is no footer. */
  lemma FooterOnlyWhenStartRequested(given: Option<Alignment>, containerWidth: int, style: ItemStyle)
    ensures Footer(ResolveAlignment(given), containerWidth, style).Some? <==> given == Some(Start)
    ensures Footer(ResolveAlignment(None), containerWidth, style) == None
  {
  }

  /** The spacer width is negative exactly when the container is narrower than a pitch. */
  lemma FooterWidthUnclamped(containerWidth: int, style: ItemStyle)
    ensures Footer(Start, containerWidth, style).value.width < 0 <==> containerWidth < Pitch(style)
    ensures Footer(Start, InitialContainerWidth, style).value.width == -Pitch(style)
  {
  }

  /**
   * What the spacer is for: if each of `n > 0` items spans one pitch and the
   * spacer follows them, the content is longer than the container by exactly
   * the last snap offset, so the last item can be scrolled to its
   * start-aligned stop.
   */
  lemma {:induction false} StartSpacerReachesLastStop(data: seq<string>, containerWidth: int, style: ItemStyle)
    requires |data| > 0
    ensures Footer(Start, containerWidth, style).Some?
    ensures var contentLength := |data| * Pitch(style) + Footer(Start, containerWidth, style).value.width;
            contentLength - containerWidth == SnapToOffsets(data, style)[|data| - 1]
  {
    assert |data| * Pitch(style) == (|data| - 1) * Pitch(style) + Pitch(style);
  }

  // ---------------------------------------------------------------------
  // Cell layout events and the web offset correction
  // ---------------------------------------------------------------------

  /** The platform the component runs on. */
  datatype Platform = Web | Other

  /**
   * A layout event as nested records; `rest` stands for the fields of each
   * object that the component never looks at.
   */
  datatype Layout<R> = Layout(x: int, y: int, width: int, height: int, rest: R)
  datatype NativeEvent<R> = NativeEvent(layout: Layout<R>, rest: R)
  datatype LayoutEvent<R> = LayoutEvent(nativeEvent: NativeEvent<R>, rest: R)

  /** The identity of a layout callback the caller supplied. */
  datatype Listener = Listener(id: nat)

  /** What the list passes to its cell renderer: the index, the cell's own onLayout and everything else. */
  datatype CellProps<P> = CellProps(index: int, onLayout: Option<Listener>, others: P)

  /** The onLayout a rendered cell view carries. */
  datatype LayoutHandler =
    | Forward(listener: Listener)                            // the caller's callback itself
    | FixOffset(index: int, downstream: Option<Listener>)    // the web wrapper around it

  /** The props of the rendered cell view. */
  datatype ViewProps<P> = ViewProps(onLayout: Option<LayoutHandler>, others: P)

  /** One invocation of a caller's layout callback. */
  datatype Call<R> = Call(listener: Listener, event: LayoutEvent<R>)

  /**
   * The corrected event: `nativeEvent.layout.x` becomes `index` pitches,
   * every other field at every level is copied.
   */
  function CorrectOffset<R>(e: LayoutEvent<R>, index: int, style: ItemStyle): (c: LayoutEvent<R>)
    ensures c.nativeEvent.layout.x == index * Pitch(style)
    ensures c.nativeEvent.layout.y == e.nativeEvent.layout.y
    ensures c.nativeEvent.layout.width == e.nativeEvent.layout.width
    ensures c.nativeEvent.layout.height == e.nativeEvent.layout.height
    ensures c.nativeEvent.layout.rest == e.nativeEvent.layout.rest
    ensures c.nativeEvent.rest == e.nativeEvent.rest
    ensures c.rest == e.rest
  {
    e.(nativeEvent := e.nativeEvent.(layout := e.nativeEvent.layout.(x := index * (style.width + style.margin))))
  }

  /** Correcting twice is correcting once, and an already right event is left as it is. */
  lemma CorrectOffsetIdempotent<R>(e: LayoutEvent<R>, index: int, style: ItemStyle)
    ensures CorrectOffset(CorrectOffset(e, index, style), index, style) == CorrectOffset(e, index, style)
    ensures CorrectOffset(e, index, style) == e <==> e.nativeEvent.layout.x == index * Pitch(style)
  {
    if e.nativeEvent.layout.x == index * Pitch(style) {
      var c := CorrectOffset(e, index, style);
      assert c.nativeEvent.layout == e.nativeEvent.layout;
      assert c.nativeEvent == e.nativeEvent;
    }
  }

  /**
   * The cell renderer: the index is consumed, everything else is passed to
   * the view; on web the caller's onLayout is replaced by the wrapper.
   */
  function CellRendererComponent<P>(platform: Platform, cell: CellProps<P>): (view: ViewProps<P>)
    ensures view.others == cell.others
    ensures platform == Other ==> (view.onLayout.Some? <==> cell.onLayout.Some?)
    ensures platform == Other && view.onLayout.Some? ==> view.onLayout.value == Forward(cell.onLayout.value)
    ensures platform == Web ==> view.onLayout == Some(FixOffset(cell.index, cell.onLayout))
  {
    match platform
    case Web => ViewProps(Some(FixOffset(cell.index, cell.onLayout)), cell.others)
    case Other =>
      match cell.onLayout
      case None => ViewProps(None, cell.others)
      case Some(l) => ViewProps(Some(Forward(l)), cell.others)
  }

  /**
   * The callbacks invoked when the view reports `e`. The wrapper reads the
   * item style current at that moment, so `style` is an argument here.
   */
  function DispatchLayout<R>(handler: Option<LayoutHandler>, style: ItemStyle, e: LayoutEvent<R>): (calls: seq<Call<R>>)
    ensures |calls| <= 1
    ensures handler.None? ==> calls == []
    ensures handler.Some? && handler.value.Forward? ==> calls == [Call(handler.value.listener, e)]
    ensures handler.Some? && handler.value.FixOffset? ==>
      calls == (if handler.value.downstream.Some?
                then [Call(handler.value.downstream.value, CorrectOffset(e, handler.value.index, style))]
                else [])
  {
    match handler
    case None => []
    case Some(Forward(l)) => [Call(l, e)]
    case Some(FixOffset(index, downstream)) =>
      match downstream
      case None => []
      case Some(l) => [Call(l, CorrectOffset(e, index, style))]
  }

  /**
   * End to end, a layout report of a cell reaches the caller's onLayout
   * exactly once if there is one and never otherwise; on web with `x`
   * replaced by the cell's logical offset, elsewhere verbatim.
   */
  function OnCellLayout<P, R>(platform: Platform, cell: CellProps<P>, style: ItemStyle, e: LayoutEvent<R>): (calls: seq<Call<R>>)
    ensures |calls| == (if cell.onLayout.Some? then 1 else 0)
    ensures |calls| == 1 ==> calls[0].listener == cell.onLayout.value
    ensures |calls| == 1 && platform == Other ==> calls[0].event == e
    ensures |calls| == 1 && platform == Web ==>
      calls[0].event.nativeEvent.layout.x == cell.index * Pitch(style) &&
      calls[0].event.nativeEvent.layout.(x := e.nativeEvent.layout.x) == e.nativeEvent.layout &&
      calls[0].event.nativeEvent.rest == e.nativeEvent.rest &&
      calls[0].event.rest == e.rest
  {
    DispatchLayout(CellRendererComponent(platform, cell).onLayout, style, e)
  }

  /** On web the corrected `x` of the cell at `index` is that cell's snap offset. */
  lemma CorrectedOffsetIsSnapOffset<P, R>(data: seq<string>, cell: CellProps<P>, style: ItemStyle, e: LayoutEvent<R>)
    requires 0 <= cell.index < |data|
    requires cell.onLayout.Some?
    ensures var calls := OnCellLayout(Web, cell, style, e);
            |calls| == 1 && calls[0].event.nativeEvent.layout.x == SnapToOffsets(data, style)[cell.index]
  {
  }
}
