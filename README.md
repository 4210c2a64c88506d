# PagingList layout arithmetic

A Dafny model of the logic inside the `PagingList` React Native component, a
horizontally paging wrapper around a `FlatList`. The component computes
three things from its props and leaves the rest to the host list:

- **Snap offsets.** Unless the caller passes its own `snapToOffsets`, it gives
  one snap stop per data element. The stop for item
  `i` is `i * (itemStyle.width + itemStyle.margin)`, so it is `i` pitches from
  the start.
- **Footer spacer.** When `snapToAlignment` is `'start'`, it renders a trailing
  spacer view. The spacer's width is the measured container width minus one
  pitch and its height is the item height. For any other alignment there is no
  footer, and the default alignment is `'center'`.
- **Web layout correction.** On the web platform the cell renderer wraps each
  cell's `onLayout`. The caller then receives the layout event with
  `nativeEvent.layout.x` replaced by the cell's logical offset, `index` pitches.
  All other fields are copied. On other platforms the cell's props go to the
  view unchanged, apart from `index`, which the renderer consumes.

Everything is in `PagingList.dfy`, module `PagingList`. Dimensions are
unbounded integers (pixels). The platform is a parameter (`Web | Other`).
The container width is a parameter too. The layout event is modelled as
three nested records, and each record has an opaque `rest` field that stands
for the fields the component never reads. The wrapped `onLayout` reads
`this.props.itemStyle` when the event fires, not when the cell is rendered.
So the item style is an argument of `DispatchLayout`, not of
`CellRendererComponent`.

Two facts about the code that the model keeps:
- The spacer width is not clamped at zero. It is negative when the container is
  narrower than one pitch, including before the first container measurement.
- A non-positive pitch is not rejected. The stops then just stop increasing.

## Model

| member | source | states |
|---|---|---|
| `PagingList.ResolveAlignment` | src/PagingList.tsx:32-34 | an undefined `snapToAlignment` becomes `Center`; a given one is kept |
| `PagingList.SnapToOffsets` | src/PagingList.tsx:40-46 | one stop per data element; the first stop is 0; neighbouring stops differ by exactly `width + margin` |
| `PagingList.UniformStepsClosedForm` | src/PagingList.tsx:44 | a sequence that starts at 0 and steps by `p` has `k * p` at position `k` |
| `PagingList.SnapOffsetsDeterminedByContract` | src/PagingList.tsx:43-45 | any sequence with one entry per element, starting at 0 and stepping by `width + margin`, equals the computed stops, so the stop at position `i` is `i * (width + margin)` |
| `PagingList.SnapOffsetsDependOnlyOnCount` | src/PagingList.tsx:43-45 | two data arrays of the same length give the same stops, whatever they hold |
| `PagingList.SnapOffsetsStrictlyIncreasing` | src/PagingList.tsx:44 | the stops are strictly increasing if and only if the pitch is positive or there is at most one item |
| `PagingList.Footer` | src/PagingList.tsx:48-63 | a spacer exists if and only if the alignment is `Start`; its width plus one pitch is the container width; its height is the item height |
| `PagingList.FooterOnlyWhenStartRequested` | src/PagingList.tsx:32-34 | a footer exists if and only if the caller asked for `'start'`; with the default alignment there is none |
| `PagingList.FooterWidthUnclamped` | src/PagingList.tsx:36-38 | the spacer width is negative exactly when the container is narrower than one pitch; before measurement (width 0) it is minus one pitch |
| `PagingList.StartSpacerReachesLastStop` | src/PagingList.tsx:56-60 | if every item spans one pitch, the content (items plus spacer) is longer than the container by exactly the last snap stop |
| `PagingList.CorrectOffset` | src/PagingList.tsx:74-84 | the corrected event has `layout.x = index * (width + margin)`; every other field of the event, of `nativeEvent` and of `layout` is unchanged |
| `PagingList.CorrectOffsetIdempotent` | src/PagingList.tsx:78-83 | correcting twice equals correcting once; an event is left unchanged if and only if its `x` already equals the logical offset |
| `PagingList.CellRendererComponent` | src/PagingList.tsx:68-93 | the view gets every prop except `index`; on web its onLayout is the wrapper around the cell's onLayout; elsewhere it is the cell's own onLayout, present exactly when that one is |
| `PagingList.DispatchLayout` | src/PagingList.tsx:72-87 | a layout report calls at most one callback; no handler means no call; a forwarded callback receives the event verbatim; the web wrapper calls nothing without a downstream callback and otherwise calls it once with the corrected event |
| `PagingList.OnCellLayout` | src/PagingList.tsx:68-93 | end to end, the caller's onLayout is called exactly once per layout report if it exists and never otherwise; on web it receives the event with only `x` replaced by `index` pitches; elsewhere it receives the event verbatim |
| `PagingList.CorrectedOffsetIsSnapOffset` | src/PagingList.tsx:44 | on web, the corrected `x` of the cell at `index` below the number of items equals the snap stop at `index` |

## Left out

- `render()`, the JSX tree, the style arrays and the fixed list props (`pagingEnabled`, `horizontal`, `decelerationRate`, and so on) are not modelled. They are plumbing with no logic.
- The `externalListComponent` substitution is not modelled. It only chooses which foreign list component is rendered.
- The `setState` that stores the outer view's measured width is not modelled. The container width is a parameter; only its initial value 0 is kept, as `InitialContainerWidth`.
- Detecting `Platform.OS` is not modelled. The platform is a parameter.
- JavaScript `number` is a float; the model uses exact integers, so it leaves out rounding and non-finite values.
- Malformed layout events are not modelled: the model's events always have `nativeEvent` and `nativeEvent.layout`. On web, when the cell has an `onLayout`, an event without `nativeEvent` makes the wrapper throw a `TypeError`. An event whose `nativeEvent` has no `layout` does not throw: spreading the missing layout adds nothing, so the caller gets a layout that holds only `x`. Without an `onLayout` the wrapper never reads the event.
- A caller's own `snapToOffsets` prop is not modelled. `Props` does not exclude it, and the remaining props are spread after the computed `snapToOffsets`, so a caller-supplied value replaces the computed stops. The model describes the computed stops only.
- `StartSpacerReachesLastStop` assumes that every item spans exactly one pitch. The component does not enforce that; it is the caller's styling.
