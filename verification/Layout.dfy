/** The box tree of packages/tui/src/layout.ts: placement, clipping, scrolling and the hit test. */
module Layout {
  import opened Common

  datatype Rect = Rect(x: int, y: int, width: int, height: int)

  /** A laid-out component. `view` names the scroll view of a scroll container. */
  datatype Box = Box(rect: Rect, clip: Rect, children: seq<Box>, view: Option<nat>)

  datatype Align = Start | Center | End | Stretch

  /**
   * A component with everything layout asks of it: rendered line counts by width, the allocator's sizes, the content
   * width of a scroll view and its scroll position before and after it learns the heights of content and viewport.
   */
  datatype Component =
    | Leaf(lineCount: int -> nat)
    | Scroll(view: nat, content: Component, contentWidth: int -> int, previousTop: int, newTop: (int, int) -> int)
    | VStack(entries: seq<Entry>, gap: int)
    | HStack(entries: seq<Entry>, gap: int, align: Align)

  datatype Entry = Entry(component: Component, size: (int, Option<int>) -> nat, naturalHeight: int -> nat)

  function Max(a: int, b: int): int { if a < b then b else a }
  function Min(a: int, b: int): int { if a < b then a else b }

  predicate Contains(r: Rect, x: int, y: int) {
    r.x <= x < r.x + r.width && r.y <= y < r.y + r.height
  }

  function Intersect(a: Rect, b: Rect): Rect {
    var x, y := Max(a.x, b.x), Max(a.y, b.y);
    var right, bottom := Min(a.x + a.width, b.x + b.width), Min(a.y + a.height, b.y + b.height);
    Rect(x, y, Max(0, right - x), Max(0, bottom - y))
  }

  // ---------------------------------------------------------------- shifting and clipping a tree

  function Translate(b: Box, dy: int): (r: Box)
    ensures |r.children| == |b.children|
  {
    b.(rect := b.rect.(y := b.rect.y + dy),
       children := seq(|b.children|, i requires 0 <= i < |b.children| => Translate(b.children[i], dy)))
  }

  function UpdateClips(b: Box, clip: Rect): (r: Box)
    ensures |r.children| == |b.children|
  {
    var own := Intersect(clip, b.rect);
    b.(clip := own, children := seq(|b.children|, i requires 0 <= i < |b.children| => UpdateClips(b.children[i], own)))
  }

  // ---------------------------------------------------------------- layout

  function LayoutComponent(c: Component, x: int, y: int, width: int, height: Option<int>, clip: Rect): Box
    decreases c, 1, 0
  {
    var safeWidth := Max(1, width);
    match c
    case Leaf(lineCount) =>
      var rect := Rect(x, y, safeWidth, if height.None? then lineCount(safeWidth) else Max(0, height.value));
      Box(rect, Intersect(clip, rect), [], None)
    case Scroll(_, _, _, _, _) => ScrollBox(c, Content(c, x, y - c.previousTop, safeWidth, clip), x, y, safeWidth,
                                            height, clip)
    case VStack(entries, gap) =>
      var natural := SumSizes(entries, safeWidth, height) + Max(0, |entries| - 1) * gap;
      var rect := Rect(x, y, safeWidth, if height.None? then natural else Max(0, height.value));
      var own := Intersect(clip, rect);
      Box(rect, own, LayoutColumn(c, 0, x, y, safeWidth, height, own), None)
    case HStack(entries, gap, align) =>
      var rowHeight := if height.None? then MaxHeight(entries, safeWidth) else Max(0, height.value);
      var rect := Rect(x, y, safeWidth, rowHeight);
      var own := Intersect(clip, rect);
      Box(rect, own, LayoutRow(c, 0, x, y, safeWidth, rowHeight, own), None)
  }

  /** The content of a scroll container, laid out with its top at y. */
  function Content(c: Component, x: int, y: int, width: int, clip: Rect): Box
    requires c.Scroll?
    decreases c, 0, 0
  {
    LayoutComponent(c.content, x, y, c.contentWidth(width), None, clip)
  }

  /** A scroll container around its content, which was laid out at the old scroll position. */
  function ScrollBox(c: Component, child: Box, x: int, y: int, width: int, height: Option<int>, clip: Rect): Box
    requires c.Scroll?
  {
    var contentHeight := child.rect.height;
    var rect := Rect(x, y, width, if height.None? then contentHeight else Max(0, height.value));
    var moved := Translate(child, c.previousTop - c.newTop(contentHeight, rect.height));
    var childClip := Intersect(clip, rect);
    Box(rect, childClip, [UpdateClips(moved, childClip)], Some(c.view))
  }

  function SumSizes(entries: seq<Entry>, width: int, height: Option<int>): nat {
    if entries == [] then 0 else entries[0].size(width, height) + SumSizes(entries[1..], width, height)
  }

  function ChildHeight(e: Entry, width: int): nat { e.naturalHeight(Max(1, e.size(width, Some(width)))) }

  function MaxHeight(entries: seq<Entry>, width: int): int {
    if entries == [] then 0 else Max(ChildHeight(entries[0], width), MaxHeight(entries[1..], width))
  }

  /** The children of a vertical stack from entry i on, the next one at childY. */
  function LayoutColumn(c: Component, i: nat, x: int, childY: int, width: int, height: Option<int>,
                        clip: Rect): seq<Box>
    requires c.VStack? && i <= |c.entries|
    decreases c, 0, |c.entries| - i
  {
    if i == |c.entries| then []
    else
      var size := c.entries[i].size(width, height);
      [LayoutComponent(c.entries[i].component, x, childY, width, Some(size), clip)]
      + LayoutColumn(c, i + 1, x, childY + size + c.gap, width, height, clip)
  }

  function Indent(align: Align, slack: int): int {
    match align
    case Center => slack / 2
    case End => slack
    case _ => 0
  }

  function RowChildHeight(c: Component, i: nat, width: int, rowHeight: int): int
    requires c.HStack? && i < |c.entries|
  {
    if c.align.Stretch? then rowHeight else Min(rowHeight, ChildHeight(c.entries[i], width))
  }

  /** A child of a horizontal stack; one that gets no width is not laid out. */
  function RowChild(c: Component, i: nat, childX: int, y: int, width: int, rowHeight: int, clip: Rect): Box
    requires c.HStack? && i < |c.entries|
    decreases c, 0, 0
  {
    var childHeight := RowChildHeight(c, i, width, rowHeight);
    var childY := y + Indent(c.align, rowHeight - childHeight);
    var childWidth := c.entries[i].size(width, Some(width));
    if childWidth == 0 then Box(Rect(childX, childY, 0, childHeight), Rect(childX, childY, 0, 0), [], None)
    else LayoutComponent(c.entries[i].component, childX, childY, childWidth, Some(childHeight), clip)
  }

  /** The children of a horizontal stack from entry i on, the next one at childX. */
  function LayoutRow(c: Component, i: nat, childX: int, y: int, width: int, rowHeight: int, clip: Rect): seq<Box>
    requires c.HStack? && i <= |c.entries|
    decreases c, 0, |c.entries| - i
  {
    if i == |c.entries| then []
    else
      [RowChild(c, i, childX, y, width, rowHeight, clip)]
      + LayoutRow(c, i + 1, childX + c.entries[i].size(width, Some(width)) + c.gap, y, width, rowHeight, clip)
  }

  /** renderLayoutFrame lays the root out over the whole viewport. */
  function Viewport(width: int, height: int): Rect { Rect(0, 0, Max(1, width), Max(1, height)) }

  function Frame(root: Component, width: int, height: int): Box {
    LayoutComponent(root, 0, 0, Max(1, width), Some(Max(1, height)), Viewport(width, height))
  }

  // ---------------------------------------------------------------- clips are exact

  /** The cells of r are exactly those of both a and b. */
  ghost predicate Covers(r: Rect, a: Rect, b: Rect) {
    forall x, y :: Contains(r, x, y) <==> Contains(a, x, y) && Contains(b, x, y)
  }

  lemma IntersectCovers(a: Rect, b: Rect)
    ensures Covers(Intersect(a, b), a, b)
  {
  }

  /** Every clip in the tree covers exactly the cells of the enclosing clip that lie in the box's own rectangle. */
  ghost predicate Exact(b: Box, clip: Rect) {
    Covers(b.clip, clip, b.rect) && AllExact(b.children, b.clip)
  }

  ghost predicate AllExact(bs: seq<Box>, clip: Rect) {
    forall i :: 0 <= i < |bs| ==> Exact(bs[i], clip)
  }

  lemma {:induction false} UpdateClipsExact(b: Box, clip: Rect)
    ensures Exact(UpdateClips(b, clip), clip)
  {
    var r := UpdateClips(b, clip);
    IntersectCovers(clip, b.rect);
    forall i | 0 <= i < |r.children| ensures Exact(r.children[i], r.clip) {
      UpdateClipsExact(b.children[i], r.clip);
    }
  }

  lemma AllExactCons(b: Box, bs: seq<Box>, clip: Rect)
    requires Exact(b, clip) && AllExact(bs, clip)
    ensures AllExact([b] + bs, clip)
  {
  }

  lemma ScrollBoxExact(c: Component, child: Box, x: int, y: int, width: int, height: Option<int>, clip: Rect)
    requires c.Scroll?
    ensures Exact(ScrollBox(c, child, x, y, width, height, clip), clip)
  {
    var b := ScrollBox(c, child, x, y, width, height, clip);
    IntersectCovers(clip, b.rect);
    UpdateClipsExact(Translate(child, c.previousTop - c.newTop(child.rect.height, b.rect.height)), b.clip);
  }

  lemma {:induction false} LayoutExact(c: Component, x: int, y: int, width: int, height: Option<int>, clip: Rect)
    ensures Exact(LayoutComponent(c, x, y, width, height, clip), clip)
    decreases c, 1, 0
  {
    var b := LayoutComponent(c, x, y, width, height, clip);
    IntersectCovers(clip, b.rect);
    match c
    case Leaf(_) =>
    case Scroll(_, _, _, _, _) =>
      ScrollBoxExact(c, Content(c, x, y - c.previousTop, Max(1, width), clip), x, y, Max(1, width), height, clip);
    case VStack(_, _) => ColumnExact(c, 0, x, y, Max(1, width), height, b.clip);
    case HStack(_, _, _) => RowExact(c, 0, x, y, Max(1, width), b.rect.height, b.clip);
  }

  lemma {:induction false} ColumnExact(c: Component, i: nat, x: int, childY: int, width: int, height: Option<int>,
                                       clip: Rect)
    requires c.VStack? && i <= |c.entries|
    ensures AllExact(LayoutColumn(c, i, x, childY, width, height, clip), clip)
    decreases c, 0, |c.entries| - i
  {
    if i < |c.entries| {
      var size := c.entries[i].size(width, height);
      LayoutExact(c.entries[i].component, x, childY, width, Some(size), clip);
      ColumnExact(c, i + 1, x, childY + size + c.gap, width, height, clip);
      AllExactCons(LayoutComponent(c.entries[i].component, x, childY, width, Some(size), clip),
                   LayoutColumn(c, i + 1, x, childY + size + c.gap, width, height, clip), clip);
    }
  }

  lemma {:induction false} RowExact(c: Component, i: nat, childX: int, y: int, width: int, rowHeight: int, clip: Rect)
    requires c.HStack? && i <= |c.entries|
    ensures AllExact(LayoutRow(c, i, childX, y, width, rowHeight, clip), clip)
    decreases c, 0, |c.entries| - i
  {
    if i < |c.entries| {
      var childWidth := c.entries[i].size(width, Some(width));
      RowChildExact(c, i, childX, y, width, rowHeight, clip);
      RowExact(c, i + 1, childX + childWidth + c.gap, y, width, rowHeight, clip);
      AllExactCons(RowChild(c, i, childX, y, width, rowHeight, clip),
                   LayoutRow(c, i + 1, childX + childWidth + c.gap, y, width, rowHeight, clip), clip);
    }
  }

  lemma {:induction false} RowChildExact(c: Component, i: nat, childX: int, y: int, width: int, rowHeight: int,
                                         clip: Rect)
    requires c.HStack? && i < |c.entries|
    ensures Exact(RowChild(c, i, childX, y, width, rowHeight, clip), clip)
    decreases c, 0, 0
  {
    var childHeight := RowChildHeight(c, i, width, rowHeight);
    LayoutExact(c.entries[i].component, childX, y + Indent(c.align, rowHeight - childHeight),
                c.entries[i].size(width, Some(width)), Some(childHeight), clip);
  }

  // ---------------------------------------------------------------- where stacks put their children

  /** A component that is given a height gets exactly the rectangle asked for. */
  lemma GivenRect(c: Component, x: int, y: int, width: int, height: int, clip: Rect)
    ensures LayoutComponent(c, x, y, width, Some(height), clip).rect == Rect(x, y, Max(1, width), Max(0, height))
  {
  }

  /** From the top of entry i to the top of entry k of a vertical stack. */
  function Down(c: Component, i: nat, k: nat, width: int, height: Option<int>): int
    requires c.VStack? && i <= k <= |c.entries|
    decreases k - i
  {
    if i == k then 0 else c.entries[i].size(width, height) + c.gap + Down(c, i + 1, k, width, height)
  }

  lemma {:induction false} ColumnLength(c: Component, i: nat, x: int, childY: int, width: int, height: Option<int>,
                                        clip: Rect)
    requires c.VStack? && i <= |c.entries|
    ensures |LayoutColumn(c, i, x, childY, width, height, clip)| == |c.entries| - i
    decreases |c.entries| - i
  {
    if i < |c.entries| {
      ColumnLength(c, i + 1, x, childY + c.entries[i].size(width, height) + c.gap, width, height, clip);
    }
  }

  lemma {:induction false} ColumnPlaces(c: Component, i: nat, x: int, childY: int, width: int, height: Option<int>,
                                        clip: Rect, k: nat)
    requires c.VStack? && i <= k < |c.entries|
    ensures var column := LayoutColumn(c, i, x, childY, width, height, clip);
      && |column| == |c.entries| - i
      && column[k - i].rect == Rect(x, childY + Down(c, i, k, width, height), Max(1, width),
                                    c.entries[k].size(width, height))
    decreases |c.entries| - i
  {
    ColumnLength(c, i, x, childY, width, height, clip);
    var size := c.entries[i].size(width, height);
    if k == i {
      GivenRect(c.entries[i].component, x, childY, width, size, clip);
    } else {
      var rest := LayoutColumn(c, i + 1, x, childY + size + c.gap, width, height, clip);
      ColumnPlaces(c, i + 1, x, childY + size + c.gap, width, height, clip, k);
      assert LayoutColumn(c, i, x, childY, width, height, clip)[k - i] == rest[k - i - 1];
    }
  }

  lemma {:induction false} DownIsSum(c: Component, i: nat, width: int, height: Option<int>)
    requires c.VStack? && i <= |c.entries|
    ensures Down(c, i, |c.entries|, width, height) ==
            SumSizes(c.entries[i..], width, height) + (|c.entries| - i) * c.gap
    decreases |c.entries| - i
  {
    if i < |c.entries| {
      assert c.entries[i..][1..] == c.entries[i + 1..];
      DownIsSum(c, i + 1, width, height);
      assert (|c.entries| - i) * c.gap == c.gap + (|c.entries| - (i + 1)) * c.gap;
    }
  }

  lemma {:induction false} DownSplits(c: Component, i: nat, k: nat, width: int, height: Option<int>)
    requires c.VStack? && i <= k < |c.entries|
    ensures Down(c, i, k + 1, width, height) == Down(c, i, k, width, height) + c.entries[k].size(width, height) + c.gap
    decreases k - i
  {
    if i < k { DownSplits(c, i + 1, k, width, height); }
  }

  /** The children of a vertical stack keep its left edge and width, each the gap below the one before. */
  lemma StackPlaces(c: Component, x: int, y: int, width: int, height: Option<int>, clip: Rect, k: nat)
    requires c.VStack? && k < |c.entries|
    ensures var column := LayoutColumn(c, 0, x, y, width, height, clip);
      && |column| == |c.entries| && column[k].rect.x == x && column[k].rect.width == Max(1, width)
      && (if k == 0 then column[k].rect.y == y
          else column[k].rect.y == column[k - 1].rect.y + column[k - 1].rect.height + c.gap)
  {
    ColumnPlaces(c, 0, x, y, width, height, clip, k);
    if k > 0 {
      ColumnPlaces(c, 0, x, y, width, height, clip, k - 1);
      DownSplits(c, 0, k - 1, width, height);
    }
  }

  lemma NaturalHeight(c: Component, width: int, height: Option<int>)
    requires c.VStack? && c.entries != []
    ensures var n := |c.entries| - 1;
      SumSizes(c.entries, width, height) + n * c.gap == Down(c, 0, n, width, height) + c.entries[n].size(width, height)
  {
    var n := |c.entries| - 1;
    DownIsSum(c, 0, width, height);
    DownSplits(c, 0, n, width, height);
    assert c.entries[0..] == c.entries;
    assert (n + 1) * c.gap == n * c.gap + c.gap;
  }

  /** A vertical stack that is given no height ends exactly with its last child. */
  lemma StackFits(c: Component, x: int, y: int, width: int, clip: Rect)
    requires c.VStack? && c.entries != []
    ensures var b := LayoutComponent(c, x, y, width, None, clip);
      var n := |c.entries| - 1;
      && b.children == LayoutColumn(c, 0, x, y, Max(1, width), None, b.clip)
      && |b.children| == n + 1 && b.children[n].rect.y + b.children[n].rect.height == b.rect.y + b.rect.height
  {
    var own := LayoutComponent(c, x, y, width, None, clip).clip;
    NaturalHeight(c, Max(1, width), None);
    ColumnPlaces(c, 0, x, y, Max(1, width), None, own, |c.entries| - 1);
  }

  /** From the left of entry i to the left of entry k of a horizontal stack. */
  function Across(c: Component, i: nat, k: nat, width: int): int
    requires c.HStack? && i <= k <= |c.entries|
    decreases k - i
  {
    if i == k then 0 else c.entries[i].size(width, Some(width)) + c.gap + Across(c, i + 1, k, width)
  }

  lemma {:induction false} RowPlaces(c: Component, i: nat, childX: int, y: int, width: int, rowHeight: int, clip: Rect,
                                     k: nat)
    requires c.HStack? && i <= k < |c.entries|
    ensures var row := LayoutRow(c, i, childX, y, width, rowHeight, clip);
      && |row| == |c.entries| - i
      && row[k - i] == RowChild(c, k, childX + Across(c, i, k, width), y, width, rowHeight, clip)
    decreases |c.entries| - i
  {
    if i + 1 < |c.entries| {
      RowPlaces(c, i + 1, childX + c.entries[i].size(width, Some(width)) + c.gap, y, width, rowHeight, clip,
                if k == i then i + 1 else k);
    }
  }

  lemma {:induction false} AcrossSplits(c: Component, i: nat, k: nat, width: int)
    requires c.HStack? && i <= k < |c.entries|
    ensures Across(c, i, k + 1, width) == Across(c, i, k, width) + c.entries[k].size(width, Some(width)) + c.gap
    decreases k - i
  {
    if i < k { AcrossSplits(c, i + 1, k, width); }
  }

  /** A child of a row stays within the row's height, on the side its alignment says. */
  lemma RowChildPlace(c: Component, k: nat, childX: int, y: int, width: int, rowHeight: nat, clip: Rect)
    requires c.HStack? && k < |c.entries|
    ensures var r := RowChild(c, k, childX, y, width, rowHeight, clip).rect;
      var above, below := r.y - y, y + rowHeight - (r.y + r.height);
      && r.x == childX && r.width == c.entries[k].size(width, Some(width))
      && above >= 0 && below >= 0
      && (c.align.Stretch? ==> above == 0 && below == 0) && (c.align.Start? ==> above == 0)
      && (c.align.End? ==> below == 0) && (c.align.Center? ==> above <= below <= above + 1)
  {
    var h := RowChildHeight(c, k, width, rowHeight);
    GivenRect(c.entries[k].component, childX, y + Indent(c.align, rowHeight - h), c.entries[k].size(width, Some(width)),
              h, clip);
  }

  lemma RowChildLeft(c: Component, k: nat, childX: int, y: int, width: int, rowHeight: int, clip: Rect)
    requires c.HStack? && k < |c.entries|
    ensures var r := RowChild(c, k, childX, y, width, rowHeight, clip).rect;
      r.x == childX && r.width == c.entries[k].size(width, Some(width))
  {
    var h := RowChildHeight(c, k, width, rowHeight);
    GivenRect(c.entries[k].component, childX, y + Indent(c.align, rowHeight - h), c.entries[k].size(width, Some(width)),
              h, clip);
  }

  lemma RowLeft(c: Component, x: int, y: int, width: int, rowHeight: int, clip: Rect, k: nat)
    requires c.HStack? && k < |c.entries|
    ensures var row := LayoutRow(c, 0, x, y, width, rowHeight, clip);
      && |row| == |c.entries|
      && row[k].rect.x == x + Across(c, 0, k, width) && row[k].rect.width == c.entries[k].size(width, Some(width))
  {
    RowPlaces(c, 0, x, y, width, rowHeight, clip, k);
    RowChildLeft(c, k, x + Across(c, 0, k, width), y, width, rowHeight, clip);
  }

  /** The children of a horizontal stack, each the gap to the right of the one before. */
  lemma RowStackPlaces(c: Component, x: int, y: int, width: int, rowHeight: int, clip: Rect, k: nat)
    requires c.HStack? && k < |c.entries|
    ensures var row := LayoutRow(c, 0, x, y, width, rowHeight, clip);
      && |row| == |c.entries|
      && (if k == 0 then row[k].rect.x == x else row[k].rect.x == row[k - 1].rect.x + row[k - 1].rect.width + c.gap)
  {
    RowLeft(c, x, y, width, rowHeight, clip, k);
    if k > 0 {
      RowLeft(c, x, y, width, rowHeight, clip, k - 1);
      AcrossSplits(c, 0, k - 1, width);
    }
  }

  /** A row that is given no height is as high as its highest child would be alone. */
  lemma {:induction false} RowHeightIsHighest(entries: seq<Entry>, width: int)
    ensures var h := MaxHeight(entries, width);
      && (forall i :: 0 <= i < |entries| ==> ChildHeight(entries[i], width) <= h)
      && (h == 0 || exists i :: 0 <= i < |entries| && ChildHeight(entries[i], width) == h)
  {
    if entries != [] {
      RowHeightIsHighest(entries[1..], width);
      var h, rest := MaxHeight(entries, width), entries[1..];
      forall i | 0 <= i < |entries| ensures ChildHeight(entries[i], width) <= h {
        if i > 0 { assert entries[i] == rest[i - 1]; }
      }
      if h != 0 && h != ChildHeight(entries[0], width) {
        var i :| 0 <= i < |rest| && ChildHeight(rest[i], width) == h;
        assert entries[i + 1] == rest[i];
      }
    }
  }

  // ---------------------------------------------------------------- what a laid-out box holds

  /** Text keeps the height it is given, or is as high as it has lines at its own width. */
  lemma LeafHolds(c: Component, x: int, y: int, width: int, height: Option<int>, clip: Rect)
    requires c.Leaf?
    ensures var b := LayoutComponent(c, x, y, width, height, clip);
      && b.rect.x == x && b.rect.y == y && b.rect.width >= 1 && (width >= 1 ==> b.rect.width == width)
      && (height.None? ==> b.rect.height == c.lineCount(b.rect.width))
      && (height.Some? && height.value >= 0 ==> b.rect.height == height.value)
      && b.children == [] && b.view.None?
  {
  }

  /**
   * A vertical stack holds its components from the top, each as high as its size says and laid out in its own place
   * below the one before.
   */
  lemma StackHolds(c: Component, x: int, y: int, width: int, height: Option<int>, clip: Rect, k: nat)
    requires c.VStack? && k < |c.entries|
    ensures var b := LayoutComponent(c, x, y, width, height, clip);
      && |b.children| == |c.entries| && b.view.None?
      && var r := b.children[k].rect;
      && b.children[k] == LayoutComponent(c.entries[k].component, r.x, r.y, r.width, Some(r.height), b.clip)
      && r.x == b.rect.x && r.width == b.rect.width && r.height == c.entries[k].size(b.rect.width, height)
      && r.y == (if k == 0 then b.rect.y else b.children[k - 1].rect.y + b.children[k - 1].rect.height + c.gap)
  {
    var b := LayoutComponent(c, x, y, width, height, clip);
    StackPlaces(c, x, y, Max(1, width), height, b.clip, k);
    ColumnHolds(c, 0, x, y, Max(1, width), height, b.clip, k);
    ColumnPlaces(c, 0, x, y, Max(1, width), height, b.clip, k);
  }

  lemma {:induction false} ColumnHolds(c: Component, i: nat, x: int, childY: int, width: int, height: Option<int>,
                                       clip: Rect, k: nat)
    requires c.VStack? && i <= k < |c.entries| && width >= 1
    ensures var column := LayoutColumn(c, i, x, childY, width, height, clip);
      && |column| == |c.entries| - i
      && column[k - i] == LayoutComponent(c.entries[k].component, x, column[k - i].rect.y, width,
                                          Some(c.entries[k].size(width, height)), clip)
    decreases |c.entries| - i
  {
    ColumnLength(c, i, x, childY, width, height, clip);
    var size := c.entries[i].size(width, height);
    if k == i {
      GivenRect(c.entries[i].component, x, childY, width, size, clip);
    } else {
      var rest := LayoutColumn(c, i + 1, x, childY + size + c.gap, width, height, clip);
      ColumnHolds(c, i + 1, x, childY + size + c.gap, width, height, clip, k);
      assert LayoutColumn(c, i, x, childY, width, height, clip)[k - i] == rest[k - i - 1];
    }
  }

  /** Place r of a child within a row b: its alignment fixes its distance from top and bottom. */
  predicate Aligned(align: Align, b: Rect, r: Rect) {
    var above, below := r.y - b.y, b.y + b.height - (r.y + r.height);
    && above >= 0 && below >= 0
    && (align.Stretch? ==> above == 0 && below == 0) && (align.Start? ==> above == 0)
    && (align.End? ==> below == 0) && (align.Center? ==> above <= below <= above + 1)
  }

  /**
   * A horizontal stack holds its components from the left, each as wide as its size says and laid out in its own place
   * next to the one before; one without width holds nothing. Unless they stretch, children keep their natural height as
   * far as the row has it.
   */
  lemma RowHolds(c: Component, x: int, y: int, width: int, height: Option<int>, clip: Rect, k: nat)
    requires c.HStack? && k < |c.entries|
    ensures var b := LayoutComponent(c, x, y, width, height, clip);
      && |b.children| == |c.entries| && b.view.None?
      && var e, r := c.entries[k], b.children[k].rect;
      && r.width == e.size(b.rect.width, Some(b.rect.width))
      && r.x == (if k == 0 then b.rect.x else b.children[k - 1].rect.x + b.children[k - 1].rect.width + c.gap)
      && Aligned(c.align, b.rect, r)
      && (!c.align.Stretch? ==> r.height == Min(b.rect.height, e.naturalHeight(Max(1, r.width))))
      && (if r.width == 0 then b.children[k].children == [] && b.children[k].view.None?
          else b.children[k] == LayoutComponent(e.component, r.x, r.y, r.width, Some(r.height), b.clip))
  {
    var b := LayoutComponent(c, x, y, width, height, clip);
    var w, h := Max(1, width), b.rect.height;
    assert h >= 0 by { MaxHeightIsNat(c.entries, w); }
    assert b.children == LayoutRow(c, 0, x, y, w, h, b.clip);
    assert b.rect.x == x && b.rect.y == y && b.rect.width == w;
    RowHoldsAt(c, b, k);
  }

  lemma RowHoldsAt(c: Component, b: Box, k: nat)
    requires c.HStack? && k < |c.entries| && b.rect.height >= 0 && b.rect.width >= 1
    requires b.children == LayoutRow(c, 0, b.rect.x, b.rect.y, b.rect.width, b.rect.height, b.clip)
    ensures |b.children| == |c.entries|
    ensures var e, r := c.entries[k], b.children[k].rect;
      && r.width == e.size(b.rect.width, Some(b.rect.width))
      && r.x == (if k == 0 then b.rect.x else b.children[k - 1].rect.x + b.children[k - 1].rect.width + c.gap)
      && Aligned(c.align, b.rect, r)
      && (!c.align.Stretch? ==> r.height == Min(b.rect.height, e.naturalHeight(Max(1, r.width))))
      && (if r.width == 0 then b.children[k].children == [] && b.children[k].view.None?
          else b.children[k] == LayoutComponent(e.component, r.x, r.y, r.width, Some(r.height), b.clip))
  {
    var x, y, w, h := b.rect.x, b.rect.y, b.rect.width, b.rect.height;
    RowStackPlaces(c, x, y, w, h, b.clip, k);
    RowPlaces(c, 0, x, y, w, h, b.clip, k);
    RowChildPlace(c, k, x + Across(c, 0, k, w), y, w, h, b.clip);
    RowChildHolds(c, k, x + Across(c, 0, k, w), y, w, h, b.clip);
  }

  lemma MaxHeightIsNat(entries: seq<Entry>, width: int)
    ensures MaxHeight(entries, width) >= 0
  {
  }

  lemma RowChildHolds(c: Component, k: nat, childX: int, y: int, width: int, rowHeight: nat, clip: Rect)
    requires c.HStack? && k < |c.entries|
    ensures var child, e := RowChild(c, k, childX, y, width, rowHeight, clip), c.entries[k];
      && (!c.align.Stretch? ==> child.rect.height == Min(rowHeight, e.naturalHeight(Max(1, child.rect.width))))
      && (if child.rect.width == 0 then child.children == [] && child.view.None?
          else child == LayoutComponent(e.component, child.rect.x, child.rect.y, child.rect.width,
                                        Some(child.rect.height), clip))
  {
    var h := RowChildHeight(c, k, width, rowHeight);
    GivenRect(c.entries[k].component, childX, y + Indent(c.align, rowHeight - h), c.entries[k].size(width, Some(width)),
              h, clip);
  }

  /** A row that is given no height is as high as the highest of its children at the width each gets. */
  lemma RowNaturalHeight(c: Component, x: int, y: int, width: int, clip: Rect)
    requires c.HStack?
    ensures var r := LayoutComponent(c, x, y, width, None, clip).rect;
      && (forall e :: e in c.entries ==> e.naturalHeight(Max(1, e.size(r.width, Some(r.width)))) <= r.height)
      && (r.height == 0 ||
          exists e :: e in c.entries && e.naturalHeight(Max(1, e.size(r.width, Some(r.width)))) == r.height)
  {
    var w, h := Max(1, width), MaxHeight(c.entries, Max(1, width));
    RowHeightIsHighest(c.entries, w);
    if h != 0 {
      var i :| 0 <= i < |c.entries| && ChildHeight(c.entries[i], w) == h;
      assert c.entries[i] in c.entries;
    }
  }

  /**
   * A scroll container holds one child: its content at the width the container leaves it and at full height, shifted
   * up by the scroll position.
   */
  lemma ScrollHolds(c: Component, x: int, y: int, width: int, height: Option<int>, clip: Rect)
    requires c.Scroll?
    ensures var b := LayoutComponent(c, x, y, width, height, clip);
      && b.view == Some(c.view) && |b.children| == 1
      && var r := b.children[0].rect;
      && r.x == b.rect.x && r.y == b.rect.y - c.newTop(r.height, b.rect.height)
      && r.width == Max(1, c.contentWidth(b.rect.width))
      && r.height == LayoutComponent(c.content, r.x, r.y, r.width, None, clip).rect.height
      && (height.None? ==> b.rect.height == r.height)
  {
    var w := Max(1, width);
    var a := Content(c, x, y - c.previousTop, w, clip);
    ScrollBoxHolds(c, a, x, y, w, height, clip);
    ContentHolds(c, a, x, y - c.previousTop, w, clip, ScrollBox(c, a, x, y, w, height, clip).children[0].rect);
  }

  lemma ContentHolds(c: Component, a: Box, x: int, y: int, width: int, clip: Rect, r: Rect)
    requires c.Scroll? && a == Content(c, x, y, width, clip)
    requires r.width == a.rect.width && r.height == a.rect.height
    ensures a.rect.x == x && a.rect.y == y && r.width == Max(1, c.contentWidth(width))
    ensures r.height == LayoutComponent(c.content, r.x, r.y, r.width, None, clip).rect.height
  {
    OwnPlace(c.content, x, y, c.contentWidth(width), None, clip);
    HeightAnywhere(c.content, x, y, c.contentWidth(width), clip, r.x, r.y, r.width, clip);
  }

  lemma ScrollBoxHolds(c: Component, a: Box, x: int, y: int, width: int, height: Option<int>, clip: Rect)
    requires c.Scroll?
    ensures var b := ScrollBox(c, a, x, y, width, height, clip);
      && b.view == Some(c.view) && |b.children| == 1 && b.rect.x == x && b.rect.y == y && b.rect.width == width
      && (height.None? ==> b.rect.height == a.rect.height)
      && b.children[0].rect == a.rect.(y := a.rect.y + c.previousTop - c.newTop(a.rect.height, b.rect.height))
  {
  }

  /** A natural height depends on the width alone. */
  lemma {:induction false} HeightAnywhere(c: Component, x: int, y: int, width: int, clip: Rect, x': int, y': int,
                                          width': int, clip': Rect)
    requires Max(1, width) == Max(1, width')
    ensures LayoutComponent(c, x, y, width, None, clip).rect.height ==
            LayoutComponent(c, x', y', width', None, clip').rect.height
    decreases c
  {
    if c.Scroll? {
      var w := Max(1, width);
      HeightAnywhere(c.content, x, y - c.previousTop, c.contentWidth(w), clip, x', y' - c.previousTop,
                     c.contentWidth(w), clip');
    }
  }

  lemma OwnPlace(c: Component, x: int, y: int, width: int, height: Option<int>, clip: Rect)
    ensures var r := LayoutComponent(c, x, y, width, height, clip).rect;
      r.x == x && r.y == y && r.width == Max(1, width)
  {
  }

  // ---------------------------------------------------------------- along a path

  predicate ValidPath(b: Box, path: seq<nat>) {
    path == [] || (path[0] < |b.children| && ValidPath(b.children[path[0]], path[1..]))
  }

  function BoxAt(b: Box, path: seq<nat>): Box
    requires ValidPath(b, path)
  {
    if path == [] then b else BoxAt(b.children[path[0]], path[1..])
  }

  /** The cell lies in the rectangles of every box along the path, both ends included. */
  predicate InAllRects(b: Box, path: seq<nat>, x: int, y: int)
    requires ValidPath(b, path)
  {
    Contains(b.rect, x, y) && (path == [] || InAllRects(b.children[path[0]], path[1..], x, y))
  }

  lemma {:induction false} ClipAlongPath(b: Box, clip: Rect, path: seq<nat>, x: int, y: int)
    requires Exact(b, clip) && ValidPath(b, path)
    ensures Contains(BoxAt(b, path).clip, x, y) <==> Contains(clip, x, y) && InAllRects(b, path, x, y)
    decreases |path|
  {
    if path != [] {
      ClipAlongPath(b.children[path[0]], b.clip, path[1..], x, y);
    }
  }

  /**
   * In a frame each box's clip covers exactly the cells of the viewport in the rectangles of the box and its
   * ancestors.
   */
  lemma FrameClips(root: Component, width: int, height: int, path: seq<nat>, x: int, y: int)
    requires ValidPath(Frame(root, width, height), path)
    ensures var b := Frame(root, width, height);
      Contains(BoxAt(b, path).clip, x, y) <==> Contains(Viewport(width, height), x, y) && InAllRects(b, path, x, y)
  {
    LayoutExact(root, 0, 0, Max(1, width), Some(Max(1, height)), Viewport(width, height));
    ClipAlongPath(Frame(root, width, height), Viewport(width, height), path, x, y);
  }

  // ---------------------------------------------------------------- the hit test

  datatype Found = Found(view: nat, depth: nat)

  function Own(b: Box, depth: nat, x: int, y: int): seq<Found> {
    if b.view.Some? && Contains(b.rect, x, y) then [Found(b.view.value, depth)] else []
  }

  /** The search that leaves out every subtree whose clip misses the cell. */
  function Visit(b: Box, depth: nat, x: int, y: int): seq<Found>
    decreases b, 1, 0
  {
    if Contains(b.clip, x, y) then Own(b, depth, x, y) + VisitFrom(b, 0, depth + 1, x, y) else []
  }

  /** The children of b from the i-th on. */
  function VisitFrom(b: Box, i: nat, depth: nat, x: int, y: int): seq<Found>
    requires i <= |b.children|
    decreases b, 0, |b.children| - i
  {
    if i == |b.children| then [] else Visit(b.children[i], depth, x, y) + VisitFrom(b, i + 1, depth, x, y)
  }

  /** The search of the whole tree, by rectangles alone: `inside` says the cell is in all that encloses b. */
  function Search(b: Box, depth: nat, x: int, y: int, inside: bool): seq<Found>
    decreases b, 1, 0
  {
    (if inside then Own(b, depth, x, y) else []) + SearchFrom(b, 0, depth + 1, x, y, inside && Contains(b.rect, x, y))
  }

  function SearchFrom(b: Box, i: nat, depth: nat, x: int, y: int, inside: bool): seq<Found>
    requires i <= |b.children|
    decreases b, 0, |b.children| - i
  {
    if i == |b.children| then []
    else Search(b.children[i], depth, x, y, inside) + SearchFrom(b, i + 1, depth, x, y, inside)
  }

  lemma {:induction false} NothingOutside(b: Box, depth: nat, x: int, y: int)
    ensures Search(b, depth, x, y, false) == []
    decreases b, 1, 0
  {
    NothingOutsideFrom(b, 0, depth + 1, x, y);
  }

  lemma {:induction false} NothingOutsideFrom(b: Box, i: nat, depth: nat, x: int, y: int)
    requires i <= |b.children|
    ensures SearchFrom(b, i, depth, x, y, false) == []
    decreases b, 0, |b.children| - i
  {
    if i < |b.children| {
      NothingOutside(b.children[i], depth, x, y);
      NothingOutsideFrom(b, i + 1, depth, x, y);
    }
  }

  lemma {:induction false} VisitIsSearch(b: Box, clip: Rect, depth: nat, x: int, y: int)
    requires Exact(b, clip)
    ensures Visit(b, depth, x, y) == Search(b, depth, x, y, Contains(clip, x, y))
    decreases b, 1, 0
  {
    if Contains(b.clip, x, y) {
      VisitFromIsSearch(b, 0, depth + 1, x, y);
    } else {
      NothingOutsideFrom(b, 0, depth + 1, x, y);
    }
  }

  lemma {:induction false} VisitFromIsSearch(b: Box, i: nat, depth: nat, x: int, y: int)
    requires i <= |b.children| && AllExact(b.children, b.clip)
    ensures VisitFrom(b, i, depth, x, y) == SearchFrom(b, i, depth, x, y, Contains(b.clip, x, y))
    decreases b, 0, |b.children| - i
  {
    if i < |b.children| {
      VisitIsSearch(b.children[i], b.clip, depth, x, y);
      VisitFromIsSearch(b, i + 1, depth, x, y);
    }
  }

  /**
   * The search finds exactly the scroll views of the boxes in whose rectangle, and all enclosing ones, the cell lies.
   */
  lemma {:induction false} SearchFindsPath(b: Box, depth: nat, x: int, y: int, f: Found) returns (path: seq<nat>)
    requires f in Search(b, depth, x, y, true)
    ensures ValidPath(b, path) && InAllRects(b, path, x, y)
    ensures BoxAt(b, path).view == Some(f.view) && f.depth == depth + |path|
    decreases b, 1, 0
  {
    if f in Own(b, depth, x, y) {
      path := [];
    } else {
      if !Contains(b.rect, x, y) { NothingOutsideFrom(b, 0, depth + 1, x, y); }
      var i, rest := SearchFromFindsPath(b, 0, depth + 1, x, y, f);
      path := [i] + rest;
      assert path[1..] == rest;
    }
  }

  lemma {:induction false} SearchFromFindsPath(b: Box, i: nat, depth: nat, x: int, y: int, f: Found)
    returns (k: nat, path: seq<nat>)
    requires i <= |b.children| && f in SearchFrom(b, i, depth, x, y, true)
    ensures i <= k < |b.children| && ValidPath(b.children[k], path) && InAllRects(b.children[k], path, x, y)
    ensures BoxAt(b.children[k], path).view == Some(f.view) && f.depth == depth + |path|
    decreases b, 0, |b.children| - i
  {
    if f in Search(b.children[i], depth, x, y, true) {
      path := SearchFindsPath(b.children[i], depth, x, y, f);
      k := i;
    } else {
      k, path := SearchFromFindsPath(b, i + 1, depth, x, y, f);
    }
  }

  lemma {:induction false} SearchFindsAll(b: Box, depth: nat, x: int, y: int, path: seq<nat>)
    requires ValidPath(b, path) && InAllRects(b, path, x, y) && BoxAt(b, path).view.Some?
    ensures Found(BoxAt(b, path).view.value, depth + |path|) in Search(b, depth, x, y, true)
    decreases |path|
  {
    if path != [] {
      SearchFindsAll(b.children[path[0]], depth + 1, x, y, path[1..]);
      InSearchFrom(b, 0, path[0], depth + 1, x, y, Found(BoxAt(b, path).view.value, depth + |path|));
    }
  }

  lemma {:induction false} InSearchFrom(b: Box, i: nat, k: nat, depth: nat, x: int, y: int, f: Found)
    requires i <= k < |b.children| && f in Search(b.children[k], depth, x, y, true)
    ensures f in SearchFrom(b, i, depth, x, y, true)
    decreases k - i
  {
    if i < k { InSearchFrom(b, i + 1, k, depth, x, y, f); }
  }

  // ---------------------------------------------------------------- deepest first

  predicate SortedByDepth(fs: seq<Found>) {
    |fs| <= 1 || (fs[0].depth >= fs[1].depth && SortedByDepth(fs[1..]))
  }

  /** A stable sort by falling depth. */
  function DeepestFirst(fs: seq<Found>): (r: seq<Found>)
    ensures SortedByDepth(r)
  {
    if fs == [] then [] else Insert(fs[0], DeepestFirst(fs[1..]))
  }

  function Insert(f: Found, fs: seq<Found>): (r: seq<Found>)
    requires SortedByDepth(fs)
    ensures SortedByDepth(r) && r != [] && (r[0] == f || (fs != [] && r[0] == fs[0] && fs[0].depth > f.depth))
  {
    if fs == [] || fs[0].depth <= f.depth then
      assert ([f] + fs)[1..] == fs;
      [f] + fs
    else
      var rest := Insert(f, fs[1..]);
      assert ([fs[0]] + rest)[1..] == rest;
      [fs[0]] + rest
  }

  lemma {:induction false} InsertAdds(f: Found, fs: seq<Found>)
    requires SortedByDepth(fs)
    ensures multiset(Insert(f, fs)) == multiset(fs) + multiset{f}
  {
    if fs != [] && fs[0].depth > f.depth {
      InsertAdds(f, fs[1..]);
      assert fs == [fs[0]] + fs[1..];
    }
  }

  /** Nothing is lost, added or doubled. */
  lemma {:induction false} DeepestFirstPermutes(fs: seq<Found>)
    ensures multiset(DeepestFirst(fs)) == multiset(fs)
  {
    if fs != [] {
      DeepestFirstPermutes(fs[1..]);
      InsertAdds(fs[0], DeepestFirst(fs[1..]));
      assert fs == [fs[0]] + fs[1..];
    }
  }

  /** The finds at one depth, in order. */
  function AtDepth(fs: seq<Found>, d: nat): seq<Found> {
    if fs == [] then [] else (if fs[0].depth == d then [fs[0]] else []) + AtDepth(fs[1..], d)
  }

  lemma {:induction false} InsertAtDepth(f: Found, fs: seq<Found>, d: nat)
    requires SortedByDepth(fs)
    ensures AtDepth(Insert(f, fs), d) == AtDepth([f] + fs, d)
  {
    assert ([f] + fs)[1..] == fs;
    if fs != [] && fs[0].depth > f.depth {
      InsertAtDepth(f, fs[1..], d);
      assert ([f] + fs[1..])[1..] == fs[1..];
      assert ([fs[0]] + Insert(f, fs[1..]))[1..] == Insert(f, fs[1..]);
    }
  }

  /** Finds at the same depth keep their order. */
  lemma {:induction false} DeepestFirstIsStable(fs: seq<Found>, d: nat)
    ensures AtDepth(DeepestFirst(fs), d) == AtDepth(fs, d)
  {
    if fs != [] {
      DeepestFirstIsStable(fs[1..], d);
      InsertAtDepth(fs[0], DeepestFirst(fs[1..]), d);
      assert ([fs[0]] + DeepestFirst(fs[1..]))[1..] == DeepestFirst(fs[1..]);
    }
  }

  function Views(fs: seq<Found>): seq<nat> {
    if fs == [] then [] else [fs[0].view] + Views(fs[1..])
  }

  /** The views of the finds, in their order. */
  lemma {:induction false} ViewsAt(fs: seq<Found>, i: nat)
    ensures |Views(fs)| == |fs|
    ensures i < |fs| ==> Views(fs)[i] == fs[i].view
  {
    if fs != [] { ViewsAt(fs[1..], if i == 0 then 0 else i - 1); }
  }

  /** The visit as it is written, appending to one list. */
  method VisitInto(found: seq<Found>, b: Box, depth: nat, x: int, y: int) returns (r: seq<Found>)
    ensures r == found + Visit(b, depth, x, y)
    decreases b
  {
    r := found;
    if !Contains(b.clip, x, y) {
      return;
    }
    if b.view.Some? && Contains(b.rect, x, y) {
      r := r + [Found(b.view.value, depth)];
    }
    for i := 0 to |b.children|
      invariant r + VisitFrom(b, i, depth + 1, x, y) == found + Visit(b, depth, x, y)
    {
      r := VisitInto(r, b.children[i], depth + 1, x, y);
    }
  }

  /** On a frame the pruned visit finds what the search of the whole tree finds, in the same order. */
  lemma HitTestIsSearch(root: Component, width: int, height: int, x: int, y: int)
    ensures Visit(Frame(root, width, height), 0, x, y)
         == Search(Frame(root, width, height), 0, x, y, Contains(Viewport(width, height), x, y))
  {
    LayoutExact(root, 0, 0, Max(1, width), Some(Max(1, height)), Viewport(width, height));
    VisitIsSearch(Frame(root, width, height), Viewport(width, height), 0, x, y);
  }

  /**
   * getScrollViewsAt on a frame: the scroll views found by searching the whole tree by rectangles within the viewport,
   * deepest first.
   */
  method GetScrollViewsAt(ghost root: Component, ghost width: int, ghost height: int, frame: Box, x: int, y: int)
    returns (views: seq<nat>)
    requires frame == Frame(root, width, height)
    ensures var found := DeepestFirst(Search(frame, 0, x, y, Contains(Viewport(width, height), x, y)));
      && views == Views(found)
      && |views| == |found| && forall i :: 0 <= i < |found| ==> views[i] == found[i].view
  {
    HitTestIsSearch(root, width, height, x, y);
    var found := VisitInto([], frame, 0, x, y);
    assert found == Visit(frame, 0, x, y);
    found := DeepestFirst(found);
    views := Views(found);
    ViewsAt(found, 0);
    forall i | 0 <= i < |found| ensures views[i] == found[i].view {
      ViewsAt(found, i);
    }
  }

  // ---------------------------------------------------------------- scrolling is layout at the final position

  /** The trees place the same boxes; clips may differ. */
  ghost predicate SamePlaces(a: Box, b: Box) {
    && a.rect == b.rect && a.view == b.view && |a.children| == |b.children|
    && (forall i :: 0 <= i < |a.children| ==> SamePlaces(a.children[i], b.children[i]))
  }

  lemma {:induction false} SamePlacesTransitive(a: Box, b: Box, c: Box)
    requires SamePlaces(a, b) && SamePlaces(b, c)
    ensures SamePlaces(a, c)
  {
    forall i | 0 <= i < |a.children| ensures SamePlaces(a.children[i], c.children[i]) {
      SamePlacesTransitive(a.children[i], b.children[i], c.children[i]);
    }
  }

  lemma {:induction false} UpdateClipsKeepsPlaces(b: Box, clip: Rect)
    ensures SamePlaces(UpdateClips(b, clip), b)
  {
    forall i | 0 <= i < |b.children| ensures SamePlaces(UpdateClips(b, clip).children[i], b.children[i]) {
      UpdateClipsKeepsPlaces(b.children[i], Intersect(clip, b.rect));
    }
  }

  /** Clips are recomputed from the places alone. */
  lemma {:induction false} UpdateClipsForgets(a: Box, b: Box, clip: Rect)
    requires SamePlaces(a, b)
    ensures UpdateClips(a, clip) == UpdateClips(b, clip)
  {
    var p, q := UpdateClips(a, clip), UpdateClips(b, clip);
    forall i | 0 <= i < |p.children| ensures p.children[i] == q.children[i] {
      UpdateClipsForgets(a.children[i], b.children[i], Intersect(clip, a.rect));
    }
    assert p.children == q.children;
  }

  lemma {:induction false} TranslateKeepsSame(a: Box, b: Box, dy: int)
    requires SamePlaces(a, b)
    ensures SamePlaces(Translate(a, dy), Translate(b, dy))
  {
    forall i | 0 <= i < |a.children| ensures SamePlaces(Translate(a, dy).children[i], Translate(b, dy).children[i]) {
      TranslateKeepsSame(a.children[i], b.children[i], dy);
    }
  }

  lemma {:induction false} TranslateTwice(b: Box, d: int, e: int)
    ensures Translate(Translate(b, d), e) == Translate(b, d + e)
  {
    var p, q := Translate(Translate(b, d), e), Translate(b, d + e);
    forall i | 0 <= i < |p.children| ensures p.children[i] == q.children[i] {
      TranslateTwice(b.children[i], d, e);
    }
    assert p.children == q.children;
  }

  /** Laying out lower down places the same boxes lower down, whatever the clips. */
  lemma {:induction false} LayoutShifts(c: Component, x: int, y: int, width: int, height: Option<int>, clip: Rect,
                                        clip': Rect, dy: int)
    ensures SamePlaces(Translate(LayoutComponent(c, x, y, width, height, clip), dy),
                       LayoutComponent(c, x, y + dy, width, height, clip'))
    decreases c, 1, 0
  {
    match c
    case Leaf(_) =>
    case Scroll(_, _, _, _, _) =>
      ContentShifts(c, x, y - c.previousTop, Max(1, width), clip, clip', dy);
      ScrollShifts(c, x, y, width, height, clip, clip', dy);
    case VStack(_, _) =>
      var a, b := LayoutComponent(c, x, y, width, height, clip), LayoutComponent(c, x, y + dy, width, height, clip');
      ColumnShifts(c, 0, x, y, Max(1, width), height, a.clip, b.clip, dy);
    case HStack(_, _, _) =>
      var a, b := LayoutComponent(c, x, y, width, height, clip), LayoutComponent(c, x, y + dy, width, height, clip');
      RowShifts(c, 0, x, y, Max(1, width), a.rect.height, a.clip, b.clip, dy);
  }

  /** A shifted list of boxes against another list. */
  ghost predicate ShiftedAlike(bs: seq<Box>, cs: seq<Box>, dy: int) {
    |bs| == |cs| && forall i :: 0 <= i < |bs| ==> SamePlaces(Translate(bs[i], dy), cs[i])
  }

  lemma {:induction false} ColumnShifts(c: Component, i: nat, x: int, childY: int, width: int, height: Option<int>,
                                        clip: Rect, clip': Rect, dy: int)
    requires c.VStack? && i <= |c.entries|
    ensures ShiftedAlike(LayoutColumn(c, i, x, childY, width, height, clip),
                         LayoutColumn(c, i, x, childY + dy, width, height, clip'), dy)
    decreases c, 0, |c.entries| - i
  {
    if i < |c.entries| {
      var size := c.entries[i].size(width, height);
      LayoutShifts(c.entries[i].component, x, childY, width, Some(size), clip, clip', dy);
      ColumnShifts(c, i + 1, x, childY + size + c.gap, width, height, clip, clip', dy);
      assert childY + dy + size + c.gap == childY + size + c.gap + dy;
    }
  }

  lemma {:induction false} RowShifts(c: Component, i: nat, childX: int, y: int, width: int, rowHeight: int, clip: Rect,
                                     clip': Rect, dy: int)
    requires c.HStack? && i <= |c.entries|
    ensures ShiftedAlike(LayoutRow(c, i, childX, y, width, rowHeight, clip),
                         LayoutRow(c, i, childX, y + dy, width, rowHeight, clip'), dy)
    decreases c, 0, |c.entries| - i
  {
    if i < |c.entries| {
      var childHeight := RowChildHeight(c, i, width, rowHeight);
      var childWidth := c.entries[i].size(width, Some(width));
      var childY := y + Indent(c.align, rowHeight - childHeight);
      LayoutShifts(c.entries[i].component, childX, childY, childWidth, Some(childHeight), clip, clip', dy);
      assert childY + dy == y + dy + Indent(c.align, rowHeight - childHeight);
      assert SamePlaces(Translate(RowChild(c, i, childX, y, width, rowHeight, clip), dy),
                        RowChild(c, i, childX, y + dy, width, rowHeight, clip'));
      RowShifts(c, i + 1, childX + childWidth + c.gap, y, width, rowHeight, clip, clip', dy);
    }
  }

  lemma {:induction false} ContentShifts(c: Component, x: int, y: int, width: int, clip: Rect, clip': Rect, dy: int)
    requires c.Scroll?
    ensures SamePlaces(Translate(Content(c, x, y, width, clip), dy), Content(c, x, y + dy, width, clip'))
    decreases c, 0, 0
  {
    LayoutShifts(c.content, x, y, c.contentWidth(width), None, clip, clip', dy);
  }

  lemma ScrollShifts(c: Component, x: int, y: int, width: int, height: Option<int>, clip: Rect, clip': Rect, dy: int)
    requires c.Scroll?
    requires SamePlaces(Translate(Content(c, x, y - c.previousTop, Max(1, width), clip), dy),
                        Content(c, x, y - c.previousTop + dy, Max(1, width), clip'))
    ensures SamePlaces(Translate(LayoutComponent(c, x, y, width, height, clip), dy),
                       LayoutComponent(c, x, y + dy, width, height, clip'))
  {
    assert y - c.previousTop + dy == y + dy - c.previousTop;
    ScrollBoxShifts(c, Content(c, x, y - c.previousTop, Max(1, width), clip),
                    Content(c, x, y + dy - c.previousTop, Max(1, width), clip'), x, y, Max(1, width), height,
                    clip, clip', dy);
  }

  lemma ScrollBoxShifts(c: Component, a: Box, b: Box, x: int, y: int, width: int, height: Option<int>, clip: Rect,
                        clip': Rect, dy: int)
    requires c.Scroll? && SamePlaces(Translate(a, dy), b)
    ensures SamePlaces(Translate(ScrollBox(c, a, x, y, width, height, clip), dy),
                       ScrollBox(c, b, x, y + dy, width, height, clip'))
  {
    var p, q := ScrollBox(c, a, x, y, width, height, clip), ScrollBox(c, b, x, y + dy, width, height, clip');
    MovedAlike(a, b, c.previousTop - c.newTop(a.rect.height, p.rect.height), dy, p.clip, q.clip);
  }

  /** Shifting by k and clipping commutes with a shift by dy, up to the clips. */
  lemma MovedAlike(a: Box, b: Box, k: int, dy: int, clip: Rect, clip': Rect)
    requires SamePlaces(Translate(a, dy), b)
    ensures SamePlaces(Translate(UpdateClips(Translate(a, k), clip), dy), UpdateClips(Translate(b, k), clip'))
  {
    var p, q := Translate(a, k), Translate(b, k);
    UpdateClipsKeepsPlaces(p, clip);
    TranslateKeepsSame(UpdateClips(p, clip), p, dy);
    TranslateTwice(a, k, dy);
    TranslateTwice(a, dy, k);
    TranslateKeepsSame(Translate(a, dy), b, k);
    SamePlacesTransitive(Translate(UpdateClips(p, clip), dy), Translate(p, dy), q);
    UpdateClipsKeepsPlaces(q, clip');
    SamePlacesSymmetric(UpdateClips(q, clip'), q);
    SamePlacesTransitive(Translate(UpdateClips(p, clip), dy), q, UpdateClips(q, clip'));
  }

  lemma {:induction false} SamePlacesSymmetric(a: Box, b: Box)
    requires SamePlaces(a, b)
    ensures SamePlaces(b, a)
  {
    forall i | 0 <= i < |a.children| ensures SamePlaces(b.children[i], a.children[i]) {
      SamePlacesSymmetric(a.children[i], b.children[i]);
    }
  }

  lemma ScrollBoxReclips(c: Component, a: Box, direct: Box, x: int, y: int, width: int, height: Option<int>, clip: Rect)
    requires c.Scroll?
    requires var b := ScrollBox(c, a, x, y, width, height, clip);
      SamePlaces(Translate(a, c.previousTop - c.newTop(a.rect.height, b.rect.height)), direct)
    ensures var b := ScrollBox(c, a, x, y, width, height, clip); b.children == [UpdateClips(direct, b.clip)]
  {
    var b := ScrollBox(c, a, x, y, width, height, clip);
    UpdateClipsForgets(Translate(a, c.previousTop - c.newTop(a.rect.height, b.rect.height)), direct, b.clip);
  }

  /**
   * A scroll container lays its content out at the old scroll position, shifts it and clips it again. The result is the
   * content laid out at the new position in the first place, with the same tree of rectangles and clips.
   */
  lemma ScrollIsDirectLayout(c: Component, x: int, y: int, width: int, height: Option<int>, clip: Rect)
    returns (top: int)
    requires c.Scroll?
    ensures var b := LayoutComponent(c, x, y, width, height, clip);
      && top == c.newTop(Content(c, x, y - c.previousTop, Max(1, width), clip).rect.height, b.rect.height)
      && b.children == [UpdateClips(Content(c, x, y - top, Max(1, width), b.clip), b.clip)]
  {
    var w := Max(1, width);
    var a := Content(c, x, y - c.previousTop, w, clip);
    var b := ScrollBox(c, a, x, y, w, height, clip);
    top := c.newTop(a.rect.height, b.rect.height);
    ContentShifts(c, x, y - c.previousTop, w, clip, b.clip, c.previousTop - top);
    assert y - c.previousTop + (c.previousTop - top) == y - top;
    ScrollBoxReclips(c, a, Content(c, x, y - top, w, b.clip), x, y, w, height, clip);
  }
}
