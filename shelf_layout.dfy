/**
 * The grid layout shared by both Shelf scripts (Shelf.cs and Editor/Shelf.cs): where the
 * placement loop puts each item, when it stops, and how many grid cells the gizmo
 * colour table has. Each loop draw (a random prefab from the product pool, instantiated,
 * with its collider size) is an input.
 */
module ShelfLayout {
  import opened Engine

  /** The Inspector fields of a shelf; `cellX` and `cellZ` are the two components of cellSize. */
  datatype ShelfSettings = ShelfSettings(
    width: real,
    height: real,
    depth: real,
    gap: real,
    itemCount: int,
    positionOffset: Vec3,
    yOffset: real,
    autoDepthAndWidth: bool,
    cellX: real,
    cellZ: real)

  /** The field initialisers both scripts declare. */
  const Defaults := ShelfSettings(10.0, 5.0, 2.0, 0.5, 0, Zero, 0.1, false, 1.0, 1.0)

  /** The shelf volume, the cell size (x, z), the gap in effect between cells and the placement offset. */
  datatype Grid = Grid(width: real, height: real, depth: real, gap: real, cellX: real, cellZ: real, offset: Vec3)

  /** The first cell: the shelf's left-back corner cell, shifted by the offset. */
  function StartCursor(g: Grid): Vec3 {
    Vec3(g.offset.x - g.width / 2.0 + g.cellX / 2.0, g.offset.y, g.offset.z - g.depth / 2.0 + g.cellZ / 2.0)
  }

  /**
   * CheckIfItemCanFit: an item of `size` at cursor `c` must not reach past the right
   * edge, the front edge or the top. The test is against the shelf's own half-extents,
   * so it does not take the placement offset into account, and it has no lower bounds.
   */
  predicate Fits(g: Grid, size: Vec3, c: Vec3) {
    !(c.x + size.x / 2.0 > g.width / 2.0 || c.z + size.z / 2.0 > g.depth / 2.0 || c.y + size.y > g.height)
  }

  /** The next cell of the row would reach past the row's end. */
  predicate RowFull(g: Grid, c: Vec3) {
    c.x + g.cellX + g.gap + g.cellX / 2.0 > StartCursor(g).x + g.width
  }

  /** The next row would reach past the last one. */
  predicate LayerFull(g: Grid, c: Vec3) {
    c.z + g.cellZ + g.gap + g.cellZ / 2.0 > StartCursor(g).z + g.depth
  }

  /**
   * The cursor move after placing an item `itemHeight` tall: next cell in the row; past
   * the row's end, back to the row start and one row deeper; past the last row, back to
   * the first row one layer up.
   */
  function Advance(g: Grid, c: Vec3, itemHeight: real): Vec3 {
    var start := StartCursor(g);
    if !RowFull(g, c) then Vec3(c.x + g.cellX + g.gap, c.y, c.z)
    else if !LayerFull(g, c) then Vec3(start.x, c.y, c.z + g.cellZ + g.gap)
    else Vec3(start.x, c.y + itemHeight + g.gap, start.z)
  }


  /**
   * Where the cursor goes: along the row while the next cell fits in it, else to the start
   * of the next row, else to the first cell one layer up. With a gap that is not negative
   * every step moves at least one cell along x, or one cell deeper in z, or up by the
   * item's height.
   */
  lemma AdvanceMoves(g: Grid, c: Vec3, itemHeight: real)
    ensures var r := Advance(g, c, itemHeight);
      && (!RowFull(g, c) ==> r == c.(x := c.x + g.cellX + g.gap))
      && (RowFull(g, c) && !LayerFull(g, c) ==> r == Vec3(StartCursor(g).x, c.y, c.z + g.cellZ + g.gap))
      && (RowFull(g, c) && LayerFull(g, c) ==> r == Vec3(StartCursor(g).x, c.y + itemHeight + g.gap, StartCursor(g).z))
      && (g.gap >= 0.0 && itemHeight >= 0.0 ==>
        || r.x >= c.x + g.cellX
        || (r.x == StartCursor(g).x && r.z >= c.z + g.cellZ && r.y == c.y)
        || (r.x == StartCursor(g).x && r.z == StartCursor(g).z && r.y >= c.y + itemHeight))
  {
  }

  /**
   * One loop draw: the instantiated prefab (its entity and collider size, or the unit size
   * when it has no collider), or an exception raised while picking it (an empty or missing
   * product pool).
   */
  datatype Draw = Prefab(entity: EntityId, size: Vec3) | Throws

  /** Why placement ended: all items placed, an item that did not fit, or an exception. */
  datatype Stop = Finished | NoRoom | Raised

  /** An item left on the shelf at the given local position. */
  datatype Placed = Placed(entity: EntityId, localPosition: Vec3)

  /** The placements in order, why the loop ended, and the cursor at that point. */
  datatype Plan = Plan(placed: seq<Placed>, stop: Stop, cursor: Vec3)

  /** The cursor of a placed item, from its local position (which is raised by `yOffset`). */
  function Lowered(p: Placed, yOffset: real): Vec3 {
    p.localPosition.(y := p.localPosition.y - yOffset)
  }

  /** The placed entities, in order. */
  function Entities(ps: seq<Placed>): (es: seq<EntityId>)
    ensures |es| == |ps| && forall i :: 0 <= i < |ps| ==> es[i] == ps[i].entity
  {
    seq(|ps|, i requires 0 <= i < |ps| => ps[i].entity)
  }

  lemma EntitiesSnoc(ps: seq<Placed>, p: Placed)
    ensures Entities(ps + [p]) == Entities(ps) + [p.entity]
  {
  }

  /** `ps` placed before the rest of a plan. */
  function Prepend(ps: seq<Placed>, p: Plan): Plan {
    Plan(ps + p.placed, p.stop, p.cursor)
  }

  /** The placement loop from cursor `c` over iterations `k` up to `n` (draw `k` first). */
  function PlanFrom(g: Grid, yOffset: real, c: Vec3, draws: seq<Draw>, k: nat, n: nat): Plan
    requires k <= n <= |draws|
    decreases n - k
  {
    if k == n then Plan([], Finished, c)
    else match draws[k]
      case Throws => Plan([], Raised, c)
      case Prefab(e, size) =>
        if !Fits(g, size, c) then Plan([], NoRoom, c)
        else Prepend([Placed(e, Vec3(c.x, c.y + yOffset, c.z))], PlanFrom(g, yOffset, Advance(g, c, size.y), draws, k + 1, n))
  }

  /**
   * What the placement loop guarantees, from iteration `k`: at most `n - k` items, all of
   * them exactly when it finishes; the j-th placed item is draw k + j and fits where it
   * stands; the first one stands at the cursor it starts from; an early stop is the next
   * draw not fitting at the final cursor, or raising.
   */
  lemma {:induction false} PlanFromFacts(g: Grid, yOffset: real, c: Vec3, draws: seq<Draw>, k: nat, n: nat)
    requires k <= n <= |draws|
    ensures var p := PlanFrom(g, yOffset, c, draws, k, n);
      && |p.placed| <= n - k
      && (p.stop == Finished <==> |p.placed| == n - k)
      && (forall i :: k <= i < k + |p.placed| ==>
            && draws[i].Prefab? && p.placed[i - k].entity == draws[i].entity
            && Fits(g, draws[i].size, Lowered(p.placed[i - k], yOffset)))
      && (p.placed != [] ==> p.placed[0].localPosition == Vec3(c.x, c.y + yOffset, c.z))
      && (p.placed == [] ==> p.cursor == c)
      && (p.stop == NoRoom ==> draws[k + |p.placed|].Prefab? && !Fits(g, draws[k + |p.placed|].size, p.cursor))
      && (p.stop == Raised ==> draws[k + |p.placed|].Throws?)
    decreases n - k
  {
    if k < n && draws[k].Prefab? && Fits(g, draws[k].size, c) {
      var size := draws[k].size;
      var rest := PlanFrom(g, yOffset, Advance(g, c, size.y), draws, k + 1, n);
      PlanFromFacts(g, yOffset, Advance(g, c, size.y), draws, k + 1, n);
      var here := Placed(draws[k].entity, Vec3(c.x, c.y + yOffset, c.z));
      assert Lowered(here, yOffset) == c;
      var p := Prepend([here], rest);
      assert p == PlanFrom(g, yOffset, c, draws, k, n);
      forall i | k <= i < k + |p.placed|
        ensures
          && draws[i].Prefab? && p.placed[i - k].entity == draws[i].entity
          && Fits(g, draws[i].size, Lowered(p.placed[i - k], yOffset))
      {
        if i == k {
          assert p.placed[0] == here;
        } else {
          assert p.placed[i - k] == rest.placed[i - (k + 1)];
        }
      }
      if p.stop != Finished {
        assert k + |p.placed| == (k + 1) + |rest.placed|;
      }
    }
  }

  /**
   * How the placement loop steps, from iteration `k`: the first item stands at the start
   * cursor, each later item at Advance of the one before it (by the previous item's
   * height), and the final cursor is Advance of the last item placed.
   */
  lemma {:induction false} PlanFromSteps(g: Grid, yOffset: real, c: Vec3, draws: seq<Draw>, k: nat, n: nat)
    requires k <= n <= |draws|
    ensures var p := PlanFrom(g, yOffset, c, draws, k, n);
      && |p.placed| <= n - k
      && (p.placed != [] ==> Lowered(p.placed[0], yOffset) == c)
      && (forall i :: k <= i && i + 1 < k + |p.placed| ==>
            draws[i].Prefab? &&
            Lowered(p.placed[i + 1 - k], yOffset) == Advance(g, Lowered(p.placed[i - k], yOffset), draws[i].size.y))
      && (p.placed != [] ==>
            draws[k + |p.placed| - 1].Prefab? &&
            p.cursor == Advance(g, Lowered(p.placed[|p.placed| - 1], yOffset), draws[k + |p.placed| - 1].size.y))
    decreases n - k
  {
    if k < n && draws[k].Prefab? && Fits(g, draws[k].size, c) {
      var size := draws[k].size;
      var next := Advance(g, c, size.y);
      var rest := PlanFrom(g, yOffset, next, draws, k + 1, n);
      PlanFromSteps(g, yOffset, next, draws, k + 1, n);
      var here := Placed(draws[k].entity, Vec3(c.x, c.y + yOffset, c.z));
      assert Lowered(here, yOffset) == c;
      var p := Prepend([here], rest);
      assert p == PlanFrom(g, yOffset, c, draws, k, n);
      forall i | k <= i && i + 1 < k + |p.placed|
        ensures draws[i].Prefab? &&
          Lowered(p.placed[i + 1 - k], yOffset) == Advance(g, Lowered(p.placed[i - k], yOffset), draws[i].size.y)
      {
        assert p.placed[i + 1 - k] == rest.placed[i - k];
        if i == k {
          assert p.placed[0] == here;
        } else {
          assert p.placed[i - k] == rest.placed[i - (k + 1)];
        }
      }
      if rest.placed != [] {
        assert p.placed[|p.placed| - 1] == rest.placed[|rest.placed| - 1];
        assert k + |p.placed| == (k + 1) + |rest.placed|;
      } else {
        assert p.placed == [here];
      }
    }
  }

  /**
   * The number of loop values x, x + s, x + 2s, ... below `w` (the columns, or the rows,
   * of the gizmo grid when x = 0).
   */
  function Ticks(x: real, w: real, s: real): nat
    requires s > 0.0
    decreases ((w - x) / s).Floor
  {
    if x < w then
      StepQuotient(w - x, s);
      1 + Ticks(x + s, w, s)
    else 0
  }

  lemma StepQuotient(a: real, s: real)
    requires s > 0.0
    ensures (a - s) / s == a / s - 1.0
  {
    var d := (a - s) / s - (a / s - 1.0);
    assert (a - s) / s * s == a - s;
    assert a / s * s == a;
    assert d * s == 0.0;
  }

  /** The loop count in closed form: the ceiling of the remaining length over the step. */
  lemma {:induction false} TicksClosedForm(x: real, w: real, s: real)
    requires s > 0.0
    ensures Ticks(x, w, s) == if x < w then CeilToInt((w - x) / s) else 0
    decreases ((w - x) / s).Floor
  {
    if x < w {
      StepQuotient(w - x, s);
      TicksClosedForm(x + s, w, s);
      assert (w - (x + s)) / s == (w - x) / s - 1.0 by {
        assert w - (x + s) == (w - x) - s;
      }
      assert (w - x) / s > 0.0 by {
        assert (w - x) / s * s == w - x;
      }
      if x + s >= w {
        assert (w - x) / s <= 1.0 by {
          assert (w - x) / s * s == w - x;
        }
      }
    }
  }

  /** new Color(r, g, b): an opaque colour. */
  function Opaque(rgb: (real, real, real)): Color {
    Color(rgb.0, rgb.1, rgb.2, 1.0)
  }

  /** The gizmo colour table built from the first `k` random colour triples. */
  function Palette(rgb: seq<(real, real, real)>, k: nat): (cs: seq<Color>)
    requires k <= |rgb|
    ensures |cs| == k && forall j :: 0 <= j < k ==> cs[j] == Opaque(rgb[j])
  {
    seq(k, j requires 0 <= j < k => Opaque(rgb[j]))
  }

  /** One more colour at the end of the table. */
  lemma PaletteSnoc(rgb: seq<(real, real, real)>, k: nat)
    requires k < |rgb|
    ensures Palette(rgb, k) + [Opaque(rgb[k])] == Palette(rgb, k + 1)
  {
  }

  /** Cell `rows` of column `cols` lies inside a table of `ncols` columns of `nz` cells. */
  lemma CellIndex(cols: nat, rows: nat, nz: nat, ncols: nat)
    requires cols < ncols && rows < nz
    ensures cols * nz + rows < ncols * nz
  {
    assert (cols + 1) * nz <= ncols * nz;
  }

  /** A finished column adds `nz` cells. */
  lemma ColumnDone(cols: nat, nz: nat)
    ensures cols * nz + nz == (cols + 1) * nz
  {
  }

  lemma PrependAssoc(a: seq<Placed>, b: seq<Placed>, p: Plan)
    ensures Prepend(a, Prepend(b, p)) == Prepend(a + b, p)
  {
    assert a + (b + p.placed) == (a + b) + p.placed;
  }

  /**
   * The placement loop at iteration `i` with cursor `c`: `whole` is the plan from the
   * start, `newly` the items placed so far.
   */
  ghost predicate LoopAt(g: Grid, yOffset: real, draws: seq<Draw>, n: nat, whole: Plan, newly: seq<Placed>, i: nat, c: Vec3)
    requires i <= n <= |draws|
  {
    whole == Prepend(newly, PlanFrom(g, yOffset, c, draws, i, n))
  }

  lemma LoopStarts(g: Grid, yOffset: real, draws: seq<Draw>, n: nat)
    requires n <= |draws|
    ensures LoopAt(g, yOffset, draws, n, PlanFrom(g, yOffset, StartCursor(g), draws, 0, n), [], 0, StartCursor(g))
  {
  }

  /** All `n` iterations done: the plan is what was placed. */
  lemma LoopFinishes(g: Grid, yOffset: real, draws: seq<Draw>, n: nat, whole: Plan, newly: seq<Placed>, c: Vec3)
    requires n <= |draws| && LoopAt(g, yOffset, draws, n, whole, newly, n, c)
    ensures whole.placed == newly && whole.stop == Finished
  {
    assert newly + [] == newly;
  }

  /** The i-th draw raises: the plan ends with what was placed. */
  lemma LoopRaises(g: Grid, yOffset: real, draws: seq<Draw>, n: nat, whole: Plan, newly: seq<Placed>, i: nat, c: Vec3)
    requires i < n <= |draws| && LoopAt(g, yOffset, draws, n, whole, newly, i, c) && draws[i].Throws?
    ensures whole.placed == newly && whole.stop == Raised
  {
    assert newly + [] == newly;
  }

  /** The i-th draw does not fit at `c`: the plan ends with what was placed. */
  lemma LoopNoRoom(g: Grid, yOffset: real, draws: seq<Draw>, n: nat, whole: Plan, newly: seq<Placed>, i: nat, c: Vec3)
    requires i < n <= |draws| && LoopAt(g, yOffset, draws, n, whole, newly, i, c)
    requires draws[i].Prefab? && !Fits(g, draws[i].size, c)
    ensures whole.placed == newly && whole.stop == NoRoom
  {
    assert newly + [] == newly;
  }

  /** The i-th draw fits at `c`: it is placed there as `here`, and the loop moves on to the next cell. */
  lemma LoopPlaces(g: Grid, yOffset: real, draws: seq<Draw>, n: nat, whole: Plan, newly: seq<Placed>, i: nat, c: Vec3,
                   here: Placed, next: Vec3)
    requires i < n <= |draws| && LoopAt(g, yOffset, draws, n, whole, newly, i, c)
    requires draws[i].Prefab? && Fits(g, draws[i].size, c)
    requires here == Placed(draws[i].entity, Vec3(c.x, c.y + yOffset, c.z)) && next == Advance(g, c, draws[i].size.y)
    ensures LoopAt(g, yOffset, draws, n, whole, newly + [here], i + 1, next)
  {
    PrependAssoc(newly, [here], PlanFrom(g, yOffset, next, draws, i + 1, n));
  }

}
