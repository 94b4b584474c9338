/** The grid of pose snapshots of one swing
    (src/components/pose/SnapshotGrid.tsx): the loading, error and grid
    views in that order of precedence, one tile per swing event, the tile
    click, and the record of images that failed to load. */
module SnapshotGrid {
  import opened Common
  import opened Types

  /** `swingEvents`: the tiles, in order. */
  const GridEvents: seq<SwingEvent> := [Setup, TopBackswing, ImpactEvent, FollowThrough]

  /** The grid shows each of the four events exactly once, in swing order. */
  lemma GridEventsSpec(e: SwingEvent)
    ensures e in GridEvents && NoDup(GridEvents)
    ensures seq(|GridEvents|, i requires 0 <= i < |GridEvents| => EventKey(GridEvents[i])) ==
      ["setup", "top_backswing", "impact", "follow_through"]
  {
  }

  /** What a tile shows. */
  datatype TileContent = SnapshotImage(url: string) | FailedImage | NoSnapshot

  datatype Tile = Tile(event: SwingEvent, content: TileContent)

  /** What the grid component shows. */
  datatype View = LoadingView | ErrorView(message: string) | GridView(tiles: seq<Tile>)

  /** `imageErrors[key]` read as a condition (a missing key is falsy). */
  predicate Marked(imageErrors: map<string, bool>, key: string) {
    key in imageErrors && imageErrors[key]
  }

  /** `snapshotUrl && !hasError ? <img> : <placeholder>` */
  function TileFor(snapshots: PoseSnapshot, imageErrors: map<string, bool>, e: SwingEvent): Tile {
    var url := SnapshotUrl(snapshots, e);
    if Truthy(url) && !Marked(imageErrors, EventKey(e)) then Tile(e, SnapshotImage(url.value))
    else if Marked(imageErrors, EventKey(e)) then Tile(e, FailedImage)
    else Tile(e, NoSnapshot)
  }

  /** The component's output: loading wins over an error message, which
      wins over the grid. */
  function Render(loading: bool, error: Option<string>, snapshots: PoseSnapshot,
                  imageErrors: map<string, bool>): (v: View)
    ensures loading ==> v == LoadingView
    ensures !loading && Truthy(error) ==> v == ErrorView(error.value)
    ensures !loading && !Truthy(error) ==> v.GridView? && |v.tiles| == |GridEvents|
    ensures v.GridView? ==> forall i :: 0 <= i < |v.tiles| ==>
      v.tiles[i] == TileFor(snapshots, imageErrors, GridEvents[i])
  {
    if loading then LoadingView
    else if Truthy(error) then ErrorView(error.value)
    else GridView(seq(|GridEvents|, i requires 0 <= i < |GridEvents| => TileFor(snapshots, imageErrors, GridEvents[i])))
  }

  /** A tile shows its image exactly when the event has a snapshot URL and
      its image has not failed; a failed image says so even when the URL is
      there. */
  lemma TileSpec(snapshots: PoseSnapshot, imageErrors: map<string, bool>, e: SwingEvent)
    ensures TileFor(snapshots, imageErrors, e).content.SnapshotImage? <==>
      Truthy(SnapshotUrl(snapshots, e)) && !Marked(imageErrors, EventKey(e))
    ensures TileFor(snapshots, imageErrors, e).content.SnapshotImage? ==>
      TileFor(snapshots, imageErrors, e).content.url == SnapshotUrl(snapshots, e).value
    ensures TileFor(snapshots, imageErrors, e).content == FailedImage <==> Marked(imageErrors, EventKey(e))
  {
  }

  /** A tile click: `snapshotUrl && handleImageClick(key, url)`, which
      forwards to `onSnapshotClick` when there is one. */
  function TileClick(snapshots: PoseSnapshot, e: SwingEvent, hasOnSnapshotClick: bool): (r: Option<(string, string)>)
    ensures r.Some? <==> Truthy(SnapshotUrl(snapshots, e)) && hasOnSnapshotClick
    ensures r.Some? ==> r.value == (EventKey(e), SnapshotUrl(snapshots, e).value)
  {
    var snapshotUrl := SnapshotUrl(snapshots, e);
    if Truthy(snapshotUrl) && hasOnSnapshotClick then Some((EventKey(e), snapshotUrl.value)) else None
  }

  /** A click on a tile whose image failed still opens the snapshot: the
      click looks at the URL only. */
  lemma FailedTileStillClickable(snapshots: PoseSnapshot, imageErrors: map<string, bool>, e: SwingEvent)
    requires Truthy(SnapshotUrl(snapshots, e)) && Marked(imageErrors, EventKey(e))
    ensures TileFor(snapshots, imageErrors, e).content == FailedImage
    ensures TileClick(snapshots, e, true) == Some((EventKey(e), SnapshotUrl(snapshots, e).value))
  {
  }

  class SnapshotGridView {
    var imageErrors: map<string, bool>

    /** Only failed images are recorded. */
    predicate Valid()
      reads this
    {
      forall k :: k in imageErrors ==> imageErrors[k]
    }

    constructor ()
      ensures Valid() && imageErrors == map[]
    {
      imageErrors := map[];
    }

    /** `handleImageError`: marks one event's image as failed. */
    method HandleImageError(eventKey: string)
      requires Valid()
      modifies this
      ensures Valid()
      ensures imageErrors == old(imageErrors)[eventKey := true]
    {
      imageErrors := imageErrors[eventKey := true];
    }
  }

  /** A failed image turns only its own tile into the failure notice; the
      other tiles are as before. */
  method ImageErrorIsLocal(v: SnapshotGridView, snapshots: PoseSnapshot, e: SwingEvent, other: SwingEvent)
    requires v.Valid() && e != other
    modifies v
    ensures v.Valid()
    ensures TileFor(snapshots, v.imageErrors, e).content == FailedImage
    ensures TileFor(snapshots, v.imageErrors, other) == TileFor(snapshots, old(v.imageErrors), other)
  {
    v.HandleImageError(EventKey(e));
    assert EventKey(other) != EventKey(e);
  }
}
