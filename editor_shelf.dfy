/**
 * The editor-time Shelf (Editor/Shelf.cs): the same grid placement as the runtime
 * shelf, but every cursor step uses max(gap, 0), an exception while placing is caught
 * here (placement just ends, the items placed so far stay), Start does nothing, and
 * ClearChildren empties the shelf. `destroyed` logs the children ClearChildren
 * destroys, in the order it destroys them.
 */
module EditorShelves {
  import opened Engine
  import opened ShelfLayout

  class Shelf {
    var width: real
    var depth: real
    const height: real
    const gap: real
    const itemCount: int
    const positionOffset: Vec3
    const yOffset: real
    const autoDepthAndWidth: bool
    const cellX: real
    const cellZ: real
    /** The bounds size of the shelf's shared mesh; None without a MeshFilter or a mesh. */
    const meshSize: Option<Vec3>
    const localScale: Vec3
    var children: seq<EntityId>
    var placedItems: seq<EntityId>
    var layout: seq<Placed>
    var gridColors: seq<Color>
    var colorsInitialized: bool
    var destroyed: seq<EntityId>

    /** The grid the placement loop works on: a negative gap counts as none. */
    function Layout(): (g: Grid)
      reads this`width, this`depth
      ensures g.gap >= 0.0 && g.gap >= gap
    {
      Grid(width, height, depth, Max(gap, 0.0), cellX, cellZ, positionOffset)
    }

    /** The number of loop iterations: a negative count places nothing. */
    function ItemsToPlace(): nat {
      if itemCount > 0 then itemCount else 0
    }

    constructor (s: ShelfSettings, meshSize: Option<Vec3>, localScale: Vec3, children: seq<EntityId>)
      ensures width == s.width && depth == s.depth && height == s.height && gap == s.gap
      ensures itemCount == s.itemCount && positionOffset == s.positionOffset && yOffset == s.yOffset
      ensures autoDepthAndWidth == s.autoDepthAndWidth && cellX == s.cellX && cellZ == s.cellZ
      ensures this.meshSize == meshSize && this.localScale == localScale && this.children == children
      ensures placedItems == [] && layout == [] && gridColors == [] && !colorsInitialized && destroyed == []
    {
      width := s.width;
      depth := s.depth;
      height := s.height;
      gap := s.gap;
      itemCount := s.itemCount;
      positionOffset := s.positionOffset;
      yOffset := s.yOffset;
      autoDepthAndWidth := s.autoDepthAndWidth;
      cellX := s.cellX;
      cellZ := s.cellZ;
      this.meshSize := meshSize;
      this.localScale := localScale;
      this.children := children;
      placedItems := [];
      layout := [];
      gridColors := [];
      colorsInitialized := false;
      destroyed := [];
    }

    /** Width and depth are as AdjustDepthAndWidth leaves them, starting from `w0` and `d0`. */
    ghost predicate SizeAdjustedFrom(w0: real, d0: real)
      reads this`width, this`depth
    {
      if autoDepthAndWidth && meshSize.Some? then
        width == meshSize.value.x * localScale.x && depth == meshSize.value.z * localScale.z
      else
        width == w0 && depth == d0
    }

    /** With automatic sizing and a mesh, width and depth come from the scaled mesh bounds. */
    method AdjustDepthAndWidth()
      modifies this`width, this`depth
      ensures SizeAdjustedFrom(old(width), old(depth))
    {
      if autoDepthAndWidth {
        if meshSize.Some? {
          depth := meshSize.value.z * localScale.z;
          width := meshSize.value.x * localScale.x;
        }
      }
    }

    /** The placed-items list starts again from the shelf's current children. */
    method UpdatePlacedItems()
      modifies this`placedItems
      ensures placedItems == children
    {
      placedItems := [];
      for k := 0 to |children|
        invariant placedItems == children[..k]
      {
        placedItems := placedItems + [children[k]];
      }
    }

    function CheckIfItemCanFit(itemSize: Vec3, currentX: real, currentZ: real, currentY: real): (b: bool)
      reads this`width, this`depth
      ensures b <==> Fits(Layout(), itemSize, Vec3(currentX, currentY, currentZ))
    {
      !(currentX + itemSize.x / 2.0 > width / 2.0 || currentZ + itemSize.z / 2.0 > depth / 2.0 || currentY + itemSize.y > height)
    }

    /**
     * PlaceItemsOnShelf with `draws[i]` the outcome of the i-th product pick. The new
     * items become children of the shelf and are listed after the existing children;
     * one that does not fit is destroyed at once. An exception is caught and ends the
     * loop; `raised` says that happened (the error log line).
     */
    method PlaceItemsOnShelf(draws: seq<Draw>) returns (raised: bool)
      requires ItemsToPlace() <= |draws|
      modifies this`width, this`depth, this`placedItems, this`children, this`layout
      ensures SizeAdjustedFrom(old(width), old(depth))
      ensures var p := PlanFrom(Layout(), yOffset, StartCursor(Layout()), draws, 0, ItemsToPlace());
        && children == old(children) + Entities(p.placed)
        && placedItems == children
        && layout == old(layout) + p.placed
        && raised == (p.stop == Raised)
    {
      AdjustDepthAndWidth();
      UpdatePlacedItems();

      var startX := positionOffset.x - width / 2.0 + cellX / 2.0;
      var startY := positionOffset.y;
      var startZ := positionOffset.z - depth / 2.0 + cellZ / 2.0;

      var currentX := startX;
      var currentY := startY;
      var currentZ := startZ;

      ghost var g := Layout();
      ghost var n := ItemsToPlace();
      ghost var whole := PlanFrom(g, yOffset, StartCursor(g), draws, 0, n);
      ghost var newly: seq<Placed> := [];
      assert StartCursor(g) == Vec3(currentX, currentY, currentZ);
      LoopStarts(g, yOffset, draws, n);
      ghost var children0, layout0 := children, layout;

      raised := false;
      var i := 0;
      while i < itemCount
        invariant 0 <= i <= n && |newly| == i
        invariant width == g.width && depth == g.depth && startX == StartCursor(g).x && startZ == StartCursor(g).z
        invariant LoopAt(g, yOffset, draws, n, whole, newly, i, Vec3(currentX, currentY, currentZ))
        invariant children == children0 + Entities(newly) && placedItems == children
        invariant layout == layout0 + newly
        invariant !raised
        decreases itemCount - i
      {
        ghost var c := Vec3(currentX, currentY, currentZ);
        var draw := draws[i];
        if draw.Throws? {
          LoopRaises(g, yOffset, draws, n, whole, newly, i, c);
          raised := true;
          break;
        }
        var item := draw.entity;
        children := children + [item];
        var itemSize := draw.size;

        var canFit := CheckIfItemCanFit(itemSize, currentX, currentZ, currentY);
        if !canFit {
          LoopNoRoom(g, yOffset, draws, n, whole, newly, i, c);
          children := children[..|children| - 1];
          break;
        }

        var here := Placed(item, Vec3(currentX, currentY + yOffset, currentZ));
        layout := layout + [here];
        placedItems := placedItems + [item];

        assert Max(gap, 0.0) == g.gap;
        currentX := currentX + cellX + Max(gap, 0.0);
        if currentX + cellX / 2.0 > startX + width {
          assert RowFull(g, c);
          currentX := startX;
          currentZ := currentZ + cellZ + Max(gap, 0.0);
          if currentZ + cellZ / 2.0 > startZ + depth {
            assert LayerFull(g, c);
            currentZ := startZ;
            currentY := currentY + itemSize.y + Max(gap, 0.0);
          } else {
            assert !LayerFull(g, c);
          }
        } else {
          assert !RowFull(g, c);
        }

        LoopPlaces(g, yOffset, draws, n, whole, newly, i, c, here, Vec3(currentX, currentY, currentZ));
        EntitiesSnoc(newly, here);
        newly := newly + [here];
        i := i + 1;
      }
      if i == n {
        LoopFinishes(g, yOffset, draws, n, whole, newly, Vec3(currentX, currentY, currentZ));
      }
    }

    /** The number of gizmo grid cells: columns across the width times rows across the depth. */
    function Cells(): nat
      requires cellX + Max(gap, 0.0) > 0.0 && cellZ + Max(gap, 0.0) > 0.0
      reads this`width, this`depth
    {
      Ticks(0.0, width, cellX + Max(gap, 0.0)) * Ticks(0.0, depth, cellZ + Max(gap, 0.0))
    }

    /**
     * InitializeGridColors with `rgb` the random colour components, three per cell;
     * only the first call fills the table. The steps must be positive: with a
     * non-positive cell size and a positive width the loop of the source does not end.
     */
    method InitializeGridColors(rgb: seq<(real, real, real)>)
      requires cellX + Max(gap, 0.0) > 0.0 && cellZ + Max(gap, 0.0) > 0.0
      requires !colorsInitialized ==> Cells() <= |rgb|
      modifies this`gridColors, this`colorsInitialized
      ensures colorsInitialized
      ensures old(colorsInitialized) ==> gridColors == old(gridColors)
      ensures !old(colorsInitialized) ==> gridColors == Palette(rgb, Cells())
    {
      if !colorsInitialized {
        var sx := cellX + Max(gap, 0.0);
        var sz := cellZ + Max(gap, 0.0);
        ghost var ncols := Ticks(0.0, width, sx);
        ghost var nz := Ticks(0.0, depth, sz);
        gridColors := [];
        ghost var cols := 0;
        var drawn := 0;
        var x := 0.0;
        while x < width
          invariant ncols == cols + Ticks(x, width, sx)
          invariant ncols * nz <= |rgb|
          invariant drawn == cols * nz && gridColors == Palette(rgb, drawn)
          decreases Ticks(x, width, sx)
        {
          ghost var rows := 0;
          var z := 0.0;
          while z < depth
            invariant nz == rows + Ticks(z, depth, sz)
            invariant drawn == cols * nz + rows && gridColors == Palette(rgb, drawn)
            decreases Ticks(z, depth, sz)
          {
            CellIndex(cols, rows, nz, ncols);
            PaletteSnoc(rgb, drawn);
            gridColors := gridColors + [Opaque(rgb[drawn])];
            drawn := drawn + 1;
            rows := rows + 1;
            z := z + sz;
          }
          ColumnDone(cols, nz);
          cols := cols + 1;
          x := x + sx;
        }
        colorsInitialized := true;
      }
    }
  
    /**
     * ClearChildren: destroys the children from the last index down to the first, so
     * the shelf is left empty; the destroyed children are logged last one first.
     */
    method ClearChildren()
      modifies this`children, this`destroyed
      ensures children == []
      ensures destroyed == old(destroyed) + Reversed(old(children))
    {
      var i := |children| - 1;
      while i >= 0
        invariant -1 <= i < |old(children)|
        invariant children == old(children)[..i + 1]
        invariant destroyed == old(destroyed) + Reversed(old(children)[i + 1..])
      {
        ghost var s := old(children);
        assert s[i..][1..] == s[i + 1..];
        destroyed := destroyed + [children[i]];
        children := children[..i];
        i := i - 1;
      }
    }
  }

  /** `s` last element first. */
  function Reversed(s: seq<EntityId>): (r: seq<EntityId>)
    ensures |r| == |s|
    ensures forall k :: 0 <= k < |s| ==> r[k] == s[|s| - 1 - k]
    decreases |s|
  {
    if s == [] then [] else Reversed(s[1..]) + [s[0]]
  }
}
