/** The passes of packages/tui/src/layout.ts that rewrite boxes in place, against the functions on trees in Layout. */
module LayoutBoxes {
  import opened Common
  import opened Layout

  /** The footprints of a box's children: apart from each other and from the box itself. */
  ghost predicate Apart(reprs: seq<set<object>>, within: set<object>) {
    && (forall i :: 0 <= i < |reprs| ==> reprs[i] <= within)
    && (forall i, j :: 0 <= i < j < |reprs| ==> reprs[i] !! reprs[j])
  }

  function WithChild(t: Box, i: nat, u: Box): Box
    requires i < |t.children|
  {
    t.(children := t.children[i := u])
  }

  /** A box already moved, its first n children moved with it. */
  function MovedSoFar(t: Box, dy: int, n: nat): Box
    requires n <= |t.children|
  {
    var all := Translate(t, dy);
    all.(children := all.children[..n] + t.children[n..])
  }

  lemma MoveOneMore(t: Box, dy: int, n: nat)
    requires n < |t.children|
    ensures MovedSoFar(t, dy, n).children[n] == t.children[n]
    ensures WithChild(MovedSoFar(t, dy, n), n, Translate(t.children[n], dy)) == MovedSoFar(t, dy, n + 1)
  {
    var p, q := WithChild(MovedSoFar(t, dy, n), n, Translate(t.children[n], dy)), MovedSoFar(t, dy, n + 1);
    assert p.children == q.children;
  }

  lemma MoveEnds(t: Box, dy: int)
    ensures MovedSoFar(t, dy, 0) == t.(rect := Translate(t, dy).rect)
    ensures MovedSoFar(t, dy, |t.children|) == Translate(t, dy)
  {
    assert MovedSoFar(t, dy, 0).children == t.children;
    assert MovedSoFar(t, dy, |t.children|).children == Translate(t, dy).children;
  }

  /** A box with its own clip updated and those of its first n children and all below them. */
  function ClippedSoFar(t: Box, clip: Rect, n: nat): Box
    requires n <= |t.children|
  {
    var all := UpdateClips(t, clip);
    all.(children := all.children[..n] + t.children[n..])
  }

  lemma ClipOneMore(t: Box, clip: Rect, n: nat)
    requires n < |t.children|
    ensures ClippedSoFar(t, clip, n).children[n] == t.children[n]
    ensures WithChild(ClippedSoFar(t, clip, n), n, UpdateClips(t.children[n], Intersect(clip, t.rect)))
         == ClippedSoFar(t, clip, n + 1)
  {
    var p := WithChild(ClippedSoFar(t, clip, n), n, UpdateClips(t.children[n], Intersect(clip, t.rect)));
    assert p.children == ClippedSoFar(t, clip, n + 1).children;
  }

  lemma ClipEnds(t: Box, clip: Rect)
    ensures ClippedSoFar(t, clip, 0) == t.(clip := Intersect(clip, t.rect))
    ensures ClippedSoFar(t, clip, |t.children|) == UpdateClips(t, clip)
  {
    assert ClippedSoFar(t, clip, 0).children == t.children;
    assert ClippedSoFar(t, clip, |t.children|).children == UpdateClips(t, clip).children;
  }

  class LayoutBox {
    var rect: Rect
    var clip: Rect
    var children: seq<LayoutBox>
    var view: Option<nat>
    ghost var reprs: seq<set<object>>
    ghost var Repr: set<object>

    /** The box and the boxes below it form a tree, and t is what they hold. */
    ghost predicate Holds(t: Box)
      reads this, Repr
      decreases t
    {
      && this in Repr
      && rect == t.rect && clip == t.clip && view == t.view
      && |children| == |t.children| == |reprs| && Apart(reprs, Repr - {this})
      && (forall i :: 0 <= i < |children| ==>
            children[i] in reprs[i] && children[i].Repr == reprs[i] && children[i].Holds(t.children[i]))
    }

    constructor (rect: Rect, clip: Rect, view: Option<nat>)
      ensures Holds(Box(rect, clip, [], view)) && fresh(Repr)
    {
      this.rect, this.clip, this.view := rect, clip, view;
      children := [];
      reprs := [];
      Repr := {this};
    }

    /** Moves the box itself; the children stay. */
    method MoveSelf(dy: int, ghost t: Box)
      requires Holds(t)
      modifies this`rect
      ensures Holds(t.(rect := t.rect.(y := t.rect.y + dy)))
    {
      rect := rect.(y := rect.y + dy);
    }

    method TranslateBox(dy: int, ghost t: Box)
      requires Holds(t)
      modifies Repr
      ensures Repr == old(Repr) && children == old(children) && Holds(Translate(t, dy))
      decreases t, 1
    {
      MoveSelf(dy, t);
      MoveEnds(t, dy);
      ghost var now := MovedSoFar(t, dy, 0);
      for i := 0 to |children|
        invariant Repr == old(Repr) && children == old(children) && |children| == |t.children|
        invariant now == MovedSoFar(t, dy, i) && Holds(now)
      {
        MoveOneMore(t, dy, i);
        TranslateChild(i, dy, now, t);
        now := MovedSoFar(t, dy, i + 1);
      }
    }

    /** `now` is what the box holds; its i-th child is still the one of t. */
    method TranslateChild(i: nat, dy: int, ghost now: Box, ghost t: Box)
      requires Holds(now) && i < |now.children| == |t.children| && now.children[i] == t.children[i]
      modifies Repr
      ensures Repr == old(Repr) && children == old(children) && Holds(WithChild(now, i, Translate(t.children[i], dy)))
      decreases t, 0
    {
      children[i].TranslateBox(dy, t.children[i]);
      forall k | 0 <= k < |children| && k != i
        ensures children[k] in reprs[k] && children[k].Repr == reprs[k] && children[k].Holds(now.children[k])
      {
        assert reprs[k] !! reprs[i];
      }
    }

    /** Clips the box itself; the children stay. */
    method ClipSelf(parentClip: Rect, ghost t: Box)
      requires Holds(t)
      modifies this`clip
      ensures Holds(t.(clip := Intersect(parentClip, t.rect)))
    {
      clip := Intersect(parentClip, rect);
    }

    method UpdateBoxClips(parentClip: Rect, ghost t: Box)
      requires Holds(t)
      modifies Repr
      ensures Repr == old(Repr) && children == old(children) && Holds(UpdateClips(t, parentClip))
      decreases t, 1
    {
      ClipSelf(parentClip, t);
      ClipEnds(t, parentClip);
      ghost var now := ClippedSoFar(t, parentClip, 0);
      for i := 0 to |children|
        invariant Repr == old(Repr) && children == old(children) && |children| == |t.children|
        invariant now == ClippedSoFar(t, parentClip, i) && Holds(now)
      {
        ClipOneMore(t, parentClip, i);
        UpdateChildClips(i, now, t);
        now := ClippedSoFar(t, parentClip, i + 1);
      }
    }

    /** `now` is what the box holds; its i-th child is still the one of t. */
    method UpdateChildClips(i: nat, ghost now: Box, ghost t: Box)
      requires Holds(now) && i < |now.children| == |t.children| && now.children[i] == t.children[i]
      modifies Repr
      ensures Repr == old(Repr) && children == old(children)
      ensures Holds(WithChild(now, i, UpdateClips(t.children[i], now.clip)))
      decreases t, 0
    {
      children[i].UpdateBoxClips(clip, t.children[i]);
      forall k | 0 <= k < |children| && k != i
        ensures children[k] in reprs[k] && children[k].Repr == reprs[k] && children[k].Holds(now.children[k])
      {
        assert reprs[k] !! reprs[i];
      }
    }

    method Reposition(dy: int, parentClip: Rect, ghost t: Box) returns (ghost u: Box)
      requires Holds(t)
      modifies Repr
      ensures Repr == old(Repr) && u == UpdateClips(Translate(t, dy), parentClip) && Holds(u)
    {
      TranslateBox(dy, t);
      u := Translate(t, dy);
      UpdateBoxClips(parentClip, u);
      u := UpdateClips(u, parentClip);
    }

    /** Takes a whole tree in as the last child. */
    method Push(child: LayoutBox, ghost t: Box, ghost u: Box)
      requires Holds(t) && child.Holds(u) && child.Repr !! Repr
      modifies this
      ensures Repr == old(Repr) + child.Repr && Holds(t.(children := t.children + [u]))
    {
      children := children + [child];
      reprs := reprs + [child.Repr];
      Repr := Repr + child.Repr;
    }
  }

  method LayoutInPlace(c: Component, x: int, y: int, width: int, height: Option<int>, clip: Rect) returns (b: LayoutBox)
    ensures fresh(b.Repr) && b.Holds(LayoutComponent(c, x, y, width, height, clip))
    decreases c, 2
  {
    var safeWidth := Max(1, width);
    match c
    case Leaf(lineCount) =>
      var rect := Rect(x, y, safeWidth, if height.None? then lineCount(safeWidth) else Max(0, height.value));
      b := new LayoutBox(rect, Intersect(clip, rect), None);
    case Scroll(_, _, _, _, _) => b := LayoutScroll(c, x, y, safeWidth, height, clip);
    case VStack(entries, gap) =>
      var natural := SumSizes(entries, safeWidth, height) + Max(0, |entries| - 1) * gap;
      var rect := Rect(x, y, safeWidth, if height.None? then natural else Max(0, height.value));
      b := new LayoutBox(rect, Intersect(clip, rect), None);
      LayoutEntriesDown(c, b, Box(rect, Intersect(clip, rect), [], None), x, y, safeWidth, height);
    case HStack(entries, gap, align) =>
      var rowHeight := if height.None? then MaxHeight(entries, safeWidth) else Max(0, height.value);
      var rect := Rect(x, y, safeWidth, rowHeight);
      b := new LayoutBox(rect, Intersect(clip, rect), None);
      LayoutEntriesAcross(c, b, Box(rect, Intersect(clip, rect), [], None), x, y, safeWidth, rowHeight);
  }

  method LayoutScroll(c: Component, x: int, y: int, width: int, height: Option<int>, clip: Rect) returns (b: LayoutBox)
    requires c.Scroll?
    ensures fresh(b.Repr)
    ensures b.Holds(ScrollBox(c, Content(c, x, y - c.previousTop, width, clip), x, y, width, height, clip))
    decreases c, 0
  {
    var child := LayoutInPlace(c.content, x, y - c.previousTop, c.contentWidth(width), None, clip);
    b := Enclose(c, child, Content(c, x, y - c.previousTop, width, clip), x, y, width, height, clip);
  }

  /** Shifts the content to the new scroll position, clips it again and puts it into the container's box. */
  method Enclose(c: Component, child: LayoutBox, ghost t: Box, x: int, y: int, width: int, height: Option<int>,
                 clip: Rect)
    returns (b: LayoutBox)
    requires c.Scroll? && child.Holds(t)
    modifies child.Repr
    ensures fresh(b.Repr - old(child.Repr)) && b.Holds(ScrollBox(c, t, x, y, width, height, clip))
  {
    var contentHeight := child.rect.height;
    var rect := Rect(x, y, width, if height.None? then contentHeight else Max(0, height.value));
    var shift := c.previousTop - c.newTop(contentHeight, rect.height);
    var childClip := Intersect(clip, rect);
    ghost var u := child.Reposition(shift, childClip, t);
    assert ScrollBox(c, t, x, y, width, height, clip) == Box(rect, childClip, [u], Some(c.view));
    b := Wrap(child, u, rect, childClip, c.view);
  }

  /** A new box around a tree. */
  method Wrap(child: LayoutBox, ghost u: Box, rect: Rect, clip: Rect, view: nat) returns (b: LayoutBox)
    requires child.Holds(u)
    ensures fresh(b.Repr - child.Repr) && b.Holds(Box(rect, clip, [u], Some(view)))
  {
    b := new LayoutBox(rect, clip, Some(view));
    b.Push(child, Box(rect, clip, [], Some(view)), u);
  }

  lemma Reassociate(done: seq<Box>, u: Box, rest: seq<Box>)
    ensures done + ([u] + rest) == (done + [u]) + rest
  {
  }

  /** Lays a component out as the last child of b, which holds t. */
  method LayoutChild(c: Component, b: LayoutBox, ghost t: Box, x: int, y: int, width: int, height: int)
    requires b.Holds(t)
    modifies b
    ensures fresh(b.Repr - old(b.Repr))
    ensures b.Holds(t.(children := t.children + [LayoutComponent(c, x, y, width, Some(height), t.clip)]))
    decreases c, 3
  {
    var child := LayoutInPlace(c, x, y, width, Some(height), b.clip);
    b.Push(child, t, LayoutComponent(c, x, y, width, Some(height), t.clip));
  }

  function ColumnChild(c: Component, i: nat, x: int, childY: int, width: int, height: Option<int>, clip: Rect): Box
    requires c.VStack? && i < |c.entries|
  {
    LayoutComponent(c.entries[i].component, x, childY, width, Some(c.entries[i].size(width, height)), clip)
  }

  lemma ColumnStep(done: seq<Box>, c: Component, i: nat, x: int, childY: int, width: int, height: Option<int>,
                   clip: Rect)
    requires c.VStack? && i < |c.entries|
    ensures done + LayoutColumn(c, i, x, childY, width, height, clip) ==
            (done + [ColumnChild(c, i, x, childY, width, height, clip)]) +
            LayoutColumn(c, i + 1, x, childY + c.entries[i].size(width, height) + c.gap, width, height, clip)
  {
  }

  /** One child of a vertical stack. */
  method LayoutDown(c: Component, i: nat, b: LayoutBox, ghost t: Box, x: int, childY: int, width: int,
                    height: Option<int>)
    requires c.VStack? && i < |c.entries| && b.Holds(t)
    modifies b
    ensures fresh(b.Repr - old(b.Repr))
    ensures b.Holds(t.(children := t.children + [ColumnChild(c, i, x, childY, width, height, t.clip)]))
    decreases c, 0
  {
    LayoutChild(c.entries[i].component, b, t, x, childY, width, c.entries[i].size(width, height));
  }

  /** Lays the entries of a vertical stack out below each other, into an empty box. */
  method LayoutEntriesDown(c: Component, b: LayoutBox, ghost t: Box, x: int, y: int, width: int, height: Option<int>)
    requires c.VStack? && b.Holds(t) && t.children == []
    modifies b
    ensures fresh(b.Repr - old(b.Repr))
    ensures b.Holds(t.(children := LayoutColumn(c, 0, x, y, width, height, t.clip)))
    decreases c, 1
  {
    var childY := y;
    ghost var done: seq<Box> := [];
    for i := 0 to |c.entries|
      invariant fresh(b.Repr - old(b.Repr)) && b.Holds(t.(children := done))
      invariant done + LayoutColumn(c, i, x, childY, width, height, t.clip) ==
                LayoutColumn(c, 0, x, y, width, height, t.clip)
    {
      LayoutDown(c, i, b, t.(children := done), x, childY, width, height);
      ColumnStep(done, c, i, x, childY, width, height, t.clip);
      done := done + [ColumnChild(c, i, x, childY, width, height, t.clip)];
      childY := childY + c.entries[i].size(width, height) + c.gap;
    }
  }

  /** One child of a horizontal stack; without width it gets an empty box and is not laid out. */
  method LayoutAcross(c: Component, i: nat, b: LayoutBox, ghost t: Box, childX: int, y: int, width: int, rowHeight: int)
    requires c.HStack? && i < |c.entries| && b.Holds(t)
    modifies b
    ensures fresh(b.Repr - old(b.Repr))
    ensures b.Holds(t.(children := t.children + [RowChild(c, i, childX, y, width, rowHeight, t.clip)]))
    decreases c, 0
  {
    var childHeight := RowChildHeight(c, i, width, rowHeight);
    var childY := y + Indent(c.align, rowHeight - childHeight);
    var childWidth := c.entries[i].size(width, Some(width));
    if childWidth == 0 {
      var rect, clip := Rect(childX, childY, 0, childHeight), Rect(childX, childY, 0, 0);
      var child := new LayoutBox(rect, clip, None);
      b.Push(child, t, Box(rect, clip, [], None));
    } else {
      LayoutChild(c.entries[i].component, b, t, childX, childY, childWidth, childHeight);
    }
  }

  /** Lays the entries of a horizontal stack out beside each other, into an empty box. */
  method LayoutEntriesAcross(c: Component, b: LayoutBox, ghost t: Box, x: int, y: int, width: int, rowHeight: int)
    requires c.HStack? && b.Holds(t) && t.children == []
    modifies b
    ensures fresh(b.Repr - old(b.Repr))
    ensures b.Holds(t.(children := LayoutRow(c, 0, x, y, width, rowHeight, t.clip)))
    decreases c, 1
  {
    var childX := x;
    ghost var done: seq<Box> := [];
    for i := 0 to |c.entries|
      invariant fresh(b.Repr - old(b.Repr)) && b.Holds(t.(children := done))
      invariant done + LayoutRow(c, i, childX, y, width, rowHeight, t.clip) ==
                LayoutRow(c, 0, x, y, width, rowHeight, t.clip)
    {
      LayoutAcross(c, i, b, t.(children := done), childX, y, width, rowHeight);
      ghost var u := RowChild(c, i, childX, y, width, rowHeight, t.clip);
      childX := childX + c.entries[i].size(width, Some(width)) + c.gap;
      Reassociate(done, u, LayoutRow(c, i + 1, childX, y, width, rowHeight, t.clip));
      done := done + [u];
    }
  }
}
