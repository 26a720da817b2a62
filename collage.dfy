/**
 * The grid layout of a collage: how many columns and rows, how wide each
 * tile is, how large the canvas is, and where each image goes. Downloading,
 * resizing and uploading the images are not part of this model; the tile
 * height, which comes from the images' average aspect ratio, is an input.
 */
module Collage {
  import opened Wrappers

  const DefaultMaxWidth := 1080
  const DefaultPadding := 5
  const MaxAutoColumns := 3

  /** Options of the call; `columns == 0` stands for "not given". */
  datatype Options = Options(maxWidth: int, padding: nat, columns: nat)

  function DefaultOptions(): Options {
    Options(DefaultMaxWidth, DefaultPadding, 0)
  }

  datatype Grid = Grid(count: nat, columns: nat, rows: nat, imageWidth: int, imageHeight: int,
                       padding: nat, canvasWidth: int, canvasHeight: int)

  datatype Tile = Tile(image: nat, left: int, top: int)

  datatype CollageError = NoImageUrls

  /** `Math.ceil(Math.sqrt(n))`: the least `r` with `r * r >= n`. */
  function CeilSqrt(n: nat): (r: nat)
    ensures r * r >= n
    ensures r == 0 || (r - 1) * (r - 1) < n
  {
    CeilSqrtFrom(n, 0)
  }

  function CeilSqrtFrom(n: nat, r: nat): (s: nat)
    requires r == 0 || (r - 1) * (r - 1) < n
    ensures s * s >= n
    ensures s == 0 || (s - 1) * (s - 1) < n
    decreases n - r
  {
    if r * r >= n then r
    else
      assert r < n by {
        if r > 0 {
          MulMonotone(1, r, r);
        }
      }
      CeilSqrtFrom(n, r + 1)
  }

  /** The number of columns: the caller's, or as many as the square root asks for, at most three. */
  function Columns(n: nat, userColumns: nat): (c: nat)
    ensures userColumns > 0 ==> c == userColumns
    ensures userColumns == 0 && n >= 1 ==> 1 <= c <= MaxAutoColumns
    // Without a user value: the fewest columns whose square holds every image, capped at three.
    ensures userColumns == 0 ==> c <= MaxAutoColumns && (c == MaxAutoColumns || c * c >= n)
    ensures userColumns == 0 ==> c == 0 || (c - 1) * (c - 1) < n
  {
    if userColumns > 0 then userColumns
    else if CeilSqrt(n) < MaxAutoColumns then CeilSqrt(n) else MaxAutoColumns
  }

  /** Left to itself, the grid has one column for one image, two for up to four and three beyond. */
  lemma {:induction false} AutoColumns(n: nat)
    ensures Columns(n, 0) == if n <= 1 then n else if n <= 4 then 2 else MaxAutoColumns
  {
    var c := Columns(n, 0);
    assert c == 0 || c == 1 || c == 2 || c == 3;
  }

  /** `Math.ceil(n / columns)`. */
  function Rows(n: nat, columns: nat): (r: nat)
    requires columns > 0
    ensures r * columns >= n
    ensures r == 0 || (r - 1) * columns < n
  {
    (n + columns - 1) / columns
  }

  /** `Math.floor((maxWidth - padding * (columns - 1)) / columns)`. */
  function ImageWidth(maxWidth: int, padding: nat, columns: nat): (w: int)
    requires columns > 0
    ensures w * columns <= maxWidth - padding * (columns - 1) < (w + 1) * columns
  {
    (maxWidth - padding * (columns - 1)) / columns
  }

  /**
   * The extent of `count` tiles of `size` laid side by side with `padding`
   * between them (`size * count + padding * (count - 1)`): the span ends at
   * the far edge of the last tile. The canvas width and height are both spans.
   */
  function Span(size: int, count: nat, padding: nat): (r: int)
    requires count > 0
    ensures r == (count - 1) * (size + padding) + size
  {
    size * count + padding * (count - 1)
  }

  /** The canvas is never wider than the maximum width the options give. */
  lemma CanvasFitsMaxWidth(maxWidth: int, padding: nat, columns: nat)
    requires columns > 0
    ensures Span(ImageWidth(maxWidth, padding, columns), columns, padding) <= maxWidth
  {
    var room := maxWidth - padding * (columns - 1);
    var w := room / columns;
    assert w * columns <= room;
  }

  /** The layout for `urls` (None: no array given), or the error raised when there is no image. */
  function Layout(urls: Option<seq<string>>, options: Options, imageHeight: int): (r: Result<Grid, CollageError>)
    ensures r.Err? <==> urls.None? || |urls.value| == 0
    ensures r.Ok? ==> r.value.count == |urls.value| && r.value.columns >= 1
    ensures r.Ok? ==> r.value.rows * r.value.columns >= r.value.count > (r.value.rows - 1) * r.value.columns
    ensures r.Ok? ==> r.value.canvasWidth <= options.maxWidth
    ensures r.Ok? ==> WellFormed(r.value)
    // The grid is the one the options and the image count determine.
    ensures r.Ok? ==>
      && r.value.columns == Columns(|urls.value|, options.columns)
      && r.value.rows == Rows(|urls.value|, r.value.columns)
      && r.value.imageWidth == ImageWidth(options.maxWidth, options.padding, r.value.columns)
      && r.value.imageHeight == imageHeight && r.value.padding == options.padding
  {
    if urls.None? || |urls.value| == 0 then Err(NoImageUrls)
    else
      var n := |urls.value|;
      var c := Columns(n, options.columns);
      var rows := Rows(n, c);
      var w := ImageWidth(options.maxWidth, options.padding, c);
      CanvasFitsMaxWidth(options.maxWidth, options.padding, c);
      Ok(Grid(n, c, rows, w, imageHeight, options.padding,
              Span(w, c, options.padding), Span(imageHeight, rows, options.padding)))
  }

  /**
   * Where image `i` goes: column `i % columns`, row `i / columns`, each step a
   * tile plus the padding. On a well-formed grid every image's tile lies
   * inside the canvas.
   */
  function Place(i: nat, g: Grid): (t: Tile)
    requires g.columns > 0
    ensures t.image == i
    ensures WellFormed(g) && i < g.count && g.imageWidth >= 0 && g.imageHeight >= 0 ==>
      0 <= t.left && t.left + g.imageWidth <= g.canvasWidth
      && 0 <= t.top && t.top + g.imageHeight <= g.canvasHeight
  {
    var t := Tile(i, (i % g.columns) * (g.imageWidth + g.padding), (i / g.columns) * (g.imageHeight + g.padding));
    if WellFormed(g) && i < g.count && g.imageWidth >= 0 && g.imageHeight >= 0 then
      SlotInsideCanvas(g, i);
      t
    else t
  }

  /** The `compositeArray` loop: one entry per image, in input order. */
  method CompositeArray(g: Grid) returns (tiles: seq<Tile>)
    requires g.columns > 0
    ensures |tiles| == g.count
    ensures forall i :: 0 <= i < |tiles| ==> tiles[i].image == i
    ensures forall i :: 0 <= i < |tiles| ==> tiles[i].left == (i % g.columns) * (g.imageWidth + g.padding)
    ensures forall i :: 0 <= i < |tiles| ==> tiles[i].top == (i / g.columns) * (g.imageHeight + g.padding)
  {
    tiles := [];
    for i := 0 to g.count
      invariant |tiles| == i
      invariant forall k :: 0 <= k < i ==> tiles[k] == Place(k, g)
    {
      var row := i / g.columns;
      var col := i % g.columns;
      var left := col * (g.imageWidth + g.padding);
      var top := row * (g.imageHeight + g.padding);
      tiles := tiles + [Tile(i, left, top)];
    }
  }

  predicate WellFormed(g: Grid) {
    g.columns > 0 && g.rows > 0 && g.rows * g.columns >= g.count
    && g.canvasWidth == Span(g.imageWidth, g.columns, g.padding)
    && g.canvasHeight == Span(g.imageHeight, g.rows, g.padding)
  }

  /** The slot of image `i` (column `i % columns`, row `i / columns`) lies inside the canvas. */
  lemma SlotInsideCanvas(g: Grid, i: nat)
    requires WellFormed(g) && i < g.count
    requires g.imageWidth >= 0 && g.imageHeight >= 0
    ensures 0 <= (i % g.columns) * (g.imageWidth + g.padding)
    ensures (i % g.columns) * (g.imageWidth + g.padding) + g.imageWidth <= g.canvasWidth
    ensures 0 <= (i / g.columns) * (g.imageHeight + g.padding)
    ensures (i / g.columns) * (g.imageHeight + g.padding) + g.imageHeight <= g.canvasHeight
  {
    var c, w, h, p := g.columns, g.imageWidth, g.imageHeight, g.padding;
    var col, row := i % c, i / c;
    assert row * c <= i;
    MulCancel(row, g.rows, c);
    SpanFits(col, c, w, p);
    SpanFits(row, g.rows, h, p);
  }

  /** A tile in slot `k` of `n`, each slot `w` wide and followed by `p` of padding, ends within the `n` slots. */
  lemma SpanFits(k: nat, n: nat, w: nat, p: nat)
    requires k < n
    ensures 0 <= k * (w + p) && k * (w + p) + w <= w * n + p * (n - 1)
  {
    MulMonotone(k, n - 1, w + p);
    assert (n - 1) * (w + p) == (n - 1) * w + (n - 1) * p;
    assert (n - 1) * w + w == w * n;
  }

  /** No two tiles overlap. */
  lemma TilesDisjoint(g: Grid, i: nat, j: nat)
    requires g.columns > 0 && i != j
    requires g.imageWidth >= 0 && g.imageHeight >= 0
    ensures var a, b := Place(i, g), Place(j, g);
      a.left + g.imageWidth <= b.left || b.left + g.imageWidth <= a.left
      || a.top + g.imageHeight <= b.top || b.top + g.imageHeight <= a.top
  {
    SlotsDisjoint(i, j, g.columns, g.imageWidth, g.imageHeight, g.padding);
  }

  /** Slots `i` and `j` of a grid with `c` columns, of tiles `w` by `h` spaced by `p`, do not overlap. */
  lemma SlotsDisjoint(i: nat, j: nat, c: nat, w: nat, h: nat, p: nat)
    requires c > 0 && i != j
    ensures (i % c) * (w + p) + w <= (j % c) * (w + p) || (j % c) * (w + p) + w <= (i % c) * (w + p)
      || (i / c) * (h + p) + h <= (j / c) * (h + p) || (j / c) * (h + p) + h <= (i / c) * (h + p)
  {
    if i % c < j % c {
      MulMonotone(i % c + 1, j % c, w + p);
    } else if j % c < i % c {
      MulMonotone(j % c + 1, i % c, w + p);
    } else if i / c < j / c {
      MulMonotone(i / c + 1, j / c, h + p);
    } else if j / c < i / c {
      MulMonotone(j / c + 1, i / c, h + p);
    } else {
      SameSlot(i, j, c);
      assert false;
    }
  }

  /** Two indices in the same row and column are the same index. */
  lemma SameSlot(i: nat, j: nat, c: nat)
    requires c > 0 && i % c == j % c && i / c == j / c
    ensures i == j
  {
    assert i == (i / c) * c + i % c;
    assert j == (j / c) * c + j % c;
  }

  lemma MulCancel(a: nat, b: nat, k: nat)
    requires a * k < b * k
    ensures a < b
  {
    if a >= b {
      MulMonotone(b, a, k);
      assert false;
    }
  }

  lemma MulMonotone(a: nat, b: nat, k: nat)
    requires a <= b
    ensures a * k <= b * k
  {
  }
}
