/** The dashboard builder store: a grid layout of widgets, an undo history of
    layouts with a cursor, and the widget actions that push to it. */
module DashboardBuilder {
  import opened Seqs
  import opened Format

  /** A react-grid-layout item: id, grid position and size. */
  datatype Item = Item(id: string, x: int, y: int, w: int, h: int)

  type Layout = seq<Item>

  /** The store: the shown layout, the history of layouts and the cursor. */
  datatype Builder = Builder(layout: Layout, history: seq<Layout>, index: nat)

  /** The store as created: an empty layout and a history holding it. */
  const Initial: Builder := Builder([], [[]], 0)

  /** The cursor points into the history. */
  predicate Valid(b: Builder) {
    b.index < |b.history|
  }

  /** The shown layout is the one under the cursor. */
  predicate Synced(b: Builder) {
    Valid(b) && b.layout == b.history[b.index]
  }

  lemma InitialSynced()
    ensures Synced(Initial)
  {
  }

  /** `setLayout`: the shown layout only. */
  function SetLayout(b: Builder, l: Layout): (r: Builder)
    ensures r.layout == l && r.history == b.history && r.index == b.index
  {
    b.(layout := l)
  }

  /** `pushToHistory`: the history up to the cursor (`slice(0, index + 1)`,
      which stops at the end of the history), then `l`; the cursor moves to
      `l`, which is also shown. Any redo tail is dropped. */
  function Push(b: Builder, l: Layout): (r: Builder)
    ensures Synced(r) && r.layout == l
    ensures |r.history| == (if b.index < |b.history| then b.index + 1 else |b.history|) + 1
    ensures r.history[..|r.history| - 1] == b.history[..|r.history| - 1] && r.history[|r.history| - 1] == l
    ensures r.index == |r.history| - 1
  {
    var kept := b.history[..if b.index < |b.history| then b.index + 1 else |b.history|];
    Builder(l, kept + [l], |kept|)
  }

  function CanUndo(b: Builder): bool {
    b.index > 0
  }

  function CanRedo(b: Builder): bool {
    b.index < |b.history| - 1
  }

  /** `undo`: step the cursor back and show that layout, when there is one. */
  function Undo(b: Builder): (r: Builder)
    requires Valid(b)
    ensures Valid(r) && r.history == b.history
    ensures CanUndo(b) ==> r.index == b.index - 1 && r.layout == b.history[b.index - 1]
    ensures !CanUndo(b) ==> r == b
  {
    if b.index > 0 then b.(index := b.index - 1, layout := b.history[b.index - 1]) else b
  }

  /** `redo`: step the cursor forward and show that layout, when there is one. */
  function Redo(b: Builder): (r: Builder)
    requires Valid(b)
    ensures Valid(r) && r.history == b.history
    ensures CanRedo(b) ==> r.index == b.index + 1 && r.layout == b.history[b.index + 1]
    ensures !CanRedo(b) ==> r == b
  {
    if b.index < |b.history| - 1 then b.(index := b.index + 1, layout := b.history[b.index + 1]) else b
  }

  /** After a push there is nothing to redo, and there is something to undo
      whenever the cursor was valid. */
  lemma PushDropsRedo(b: Builder, l: Layout)
    ensures !CanRedo(Push(b, l))
    ensures Valid(b) ==> CanUndo(Push(b, l)) && Push(b, l).history[b.index] == b.history[b.index]
  {
  }

  /** Undo then redo restores a synced store. */
  lemma RedoUndo(b: Builder)
    requires Synced(b) && CanUndo(b)
    ensures CanRedo(Undo(b)) && Redo(Undo(b)) == b
  {
  }

  /** Redo then undo restores a synced store. */
  lemma UndoRedo(b: Builder)
    requires Synced(b) && CanRedo(b)
    ensures CanUndo(Redo(b)) && Undo(Redo(b)) == b
  {
  }

  /** Undo and redo keep the shown layout the one under the cursor. */
  lemma StepsKeepSynced(b: Builder)
    requires Synced(b)
    ensures Synced(Undo(b)) && Synced(Redo(b))
  {
  }

  // ------------------------------------------------------------ placement

  /** The width and height of a new widget. */
  const NewW: int := 4
  const NewH: int := 3

  /** The collision test of the placement loop: a `NewW` by `NewH` rectangle
      at `(x, y)` overlaps item `p`. */
  predicate Overlaps(p: Item, x: int, y: int) {
    x < p.x + p.w && x + NewW > p.x && y < p.y + p.h && y + NewH > p.y
  }

  predicate Collides(ps: Layout, x: int, y: int) {
    exists i :: 0 <= i < |ps| && Overlaps(ps[i], x, y)
  }

  /** The `n`-th position the loop tries: columns 0, 2, 4, 6, 8, then the
      next band two rows down. */
  function Candidate(n: nat): (int, int) {
    (2 * (n % 5), 2 * (n / 5))
  }

  /** The lowest bottom edge of the items, at least 0. */
  function Bottom(ps: Layout): (b: int)
    ensures b >= 0 && forall i :: 0 <= i < |ps| ==> ps[i].y + ps[i].h <= b
  {
    if |ps| == 0 then 0
    else
      var rest := Bottom(ps[1..]);
      assert forall i :: 1 <= i < |ps| ==> ps[i] == ps[1..][i - 1];
      if ps[0].y + ps[0].h > rest then ps[0].y + ps[0].h else rest
  }

  /** Below every item there is nothing to collide with. */
  lemma BelowIsFree(ps: Layout, x: int, y: int)
    requires y >= Bottom(ps)
    ensures !Collides(ps, x, y)
  {
  }

  /** The placement loop of `addWidget`: the first position in scan order
      where a new widget overlaps no item. It stops by the band below the
      lowest item, since nothing collides there. */
  method Place(ps: Layout) returns (x: int, y: int)
    ensures !Collides(ps, x, y)
    ensures exists n: nat :: Candidate(n) == (x, y) && forall m: nat :: m < n ==> Collides(ps, Candidate(m).0, Candidate(m).1)
    ensures 0 <= x <= 8 && x % 2 == 0 && 0 <= y <= Bottom(ps) + 1 && y % 2 == 0
  {
    x, y := 0, 0;
    ghost var n: nat := 0;
    while Collides(ps, x, y)
      invariant Candidate(n) == (x, y)
      invariant forall m: nat :: m < n ==> Collides(ps, Candidate(m).0, Candidate(m).1)
      invariant y <= Bottom(ps) + 1
      decreases 5 * Bottom(ps) - n
    {
      if y >= Bottom(ps) {
        BelowIsFree(ps, x, y);
      }
      x := x + 2;
      if x > 8 {
        x := 0;
        y := y + 2;
      }
      n := n + 1;
    }
  }

  /** `${widgetType}_${Date.now()}`, the clock reading passed in. */
  function WidgetId(widgetType: string, now: nat): string {
    widgetType + "_" + NatToString(now)
  }

  /** `addWidget`: a 4 by 3 widget at the first free position is appended
      to the layout, which is shown and pushed to the history. Existing items
      are left as they were. */
  method AddWidget(b: Builder, widgetType: string, now: nat) returns (r: Builder)
    ensures |r.layout| == |b.layout| + 1 && r.layout[..|b.layout|] == b.layout
    ensures var w := r.layout[|b.layout|];
            && w == Item(WidgetId(widgetType, now), w.x, w.y, NewW, NewH)
            && !Collides(b.layout, w.x, w.y)
    ensures r == Push(b, r.layout)
  {
    var x, y := Place(b.layout);
    var l := b.layout + [Item(WidgetId(widgetType, now), x, y, NewW, NewH)];
    r := Push(SetLayout(b, l), l);
  }

  /** `removeWidget`: the layout without the items of that id, in order,
      shown and pushed to the history. */
  function RemoveWidget(b: Builder, id: string): (r: Builder)
    ensures r == Push(b, r.layout)
    ensures forall it :: it in r.layout <==> it in b.layout && it.id != id
    ensures IsSubsequence(r.layout, b.layout)
  {
    var l := Filter(b.layout, (it: Item) => it.id != id);
    FilterIsSubsequence(b.layout, (it: Item) => it.id != id);
    Push(SetLayout(b, l), l)
  }

  /** Removing keeps every item of another id as often as the layout held
      it, and none of `id`. */
  lemma RemoveWidgetCount(b: Builder, id: string, it: Item)
    ensures multiset(RemoveWidget(b, id).layout)[it] == if it.id != id then multiset(b.layout)[it] else 0
  {
    FilterCount(b.layout, (x: Item) => x.id != id, it);
  }
}
