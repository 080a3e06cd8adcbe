// The picture grid of a feed post (app/components/feed/FeedCard.tsx): how
// many tiles, how many columns, which tile is tall or spans the row, and the
// "+N" overlay on the last tile.
module FeedCard {
  import opened Js

  /** One rendered tile: its picture, whether it spans both columns, whether it is the tall one, and its overlay. */
  datatype Tile = Tile(url: string, spansBoth: bool, tall: bool, overlay: Option<int>)

  datatype Grid = Grid(columns: int, tiles: seq<Tile>)

  /** `grid-cols-1` for one picture, `grid-cols-2` for any other count. */
  function Columns(count: int): (c: int)
    ensures c == 1 <==> count == 1
    ensures c == 1 || c == 2
  {
    if count == 1 then 1 else 2
  }

  /** `images.slice(0, 4).map(...)`, each tile laid out by its index and the picture count. */
  function Tiles(images: seq<string>): (tiles: seq<Tile>)
    ensures |tiles| == if |images| < 4 then |images| else 4
    ensures forall i | 0 <= i < |tiles| :: tiles[i].url == images[i]
    ensures forall i | 0 <= i < |tiles| :: tiles[i].tall <==> i == 0
    ensures forall i | 0 <= i < |tiles| :: tiles[i].spansBoth <==> |images| == 3 && i == 0
    ensures forall i | 0 <= i < |tiles| :: tiles[i].overlay.Some? <==> |images| > 4 && i == 3
    ensures forall i | 0 <= i < |tiles| :: tiles[i].overlay.Some? ==> tiles[i].overlay.value == |images| - 4
  {
    var n := |images|;
    var shown := if n < 4 then n else 4;
    seq(shown, i requires 0 <= i < shown =>
      Tile(images[i], n == 3 && i == 0, i == 0, if n > 4 && i == 3 then Some(n - 4) else None))
  }

  /** The image block, rendered only for a present, non-empty list. */
  function ImageGrid(images: Option<seq<string>>): (g: Option<Grid>)
    ensures g.Some? <==> images.Some? && |images.value| > 0
    ensures g.Some? ==> g.value == Grid(Columns(|images.value|), Tiles(images.value))
  {
    if images.Some? && |images.value| > 0 then Some(Grid(Columns(|images.value|), Tiles(images.value))) else None
  }

  /** The count of hidden pictures the overlay announces, 0 without one. */
  function Hidden(tiles: seq<Tile>): int {
    if |tiles| == 4 && tiles[3].overlay.Some? then tiles[3].overlay.value else 0
  }

  /**
   * Every picture is either shown or counted by the overlay, at most four
   * are shown, only the first is tall, and the grid has a single column
   * exactly when there is a single picture.
   */
  lemma GridAccountsForEveryPicture(images: seq<string>)
    requires |images| > 0
    ensures var g := ImageGrid(Some(images)).value;
      && 1 <= |g.tiles| <= 4
      && |g.tiles| + Hidden(g.tiles) == |images|
      && (Hidden(g.tiles) > 0 <==> |images| > 4)
      && (forall i | 0 <= i < |g.tiles| && i != 0 :: !g.tiles[i].tall && !g.tiles[i].spansBoth)
      && (g.columns == 1 <==> |g.tiles| == 1)
  {
    var tiles := Tiles(images);
    if |images| >= 4 {
      assert tiles[3].overlay.Some? <==> |images| > 4;
    }
  }
}
