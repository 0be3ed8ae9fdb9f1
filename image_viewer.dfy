/**
 * The main window's image viewer: the list of images with its current
 * position, the preview's zoom and rotation, the thumbnail grid layout, the
 * size-ordered loading queue and the configuration defaults.  Widgets,
 * threads and decoding are left out; a canvas size is a parameter and a
 * decoded picture is its size.
 */
module Viewer {
  import opened Common
  import Sorting

  /** One entry of the image list; the size is the file size in bytes,
      absent when it was never recorded. */
  datatype ImageEntry = ImageEntry(name: string, path: string, size: Option<int>)

  /** A decoded preview picture, by its size. */
  datatype Picture = Picture(width: nat, height: nat)

  const MinZoom: real := 0.1
  const MaxZoom: real := 5.0
  const ZoomStep: real := 0.1

  // ------------------------------------------------------------ rotation

  /** rotate_left: a quarter turn back, modulo 360. */
  function RotatedLeft(angle: int): int {
    (angle - 90) % 360
  }

  /** rotate_right: a quarter turn on, modulo 360. */
  function RotatedRight(angle: int): int {
    (angle + 90) % 360
  }

  predicate QuarterTurn(angle: int) {
    angle == 0 || angle == 90 || angle == 180 || angle == 270
  }

  /** Both turns keep the angle a quarter turn. */
  lemma RotationsAreQuarterTurns(angle: int)
    requires QuarterTurn(angle)
    ensures QuarterTurn(RotatedLeft(angle)) && QuarterTurn(RotatedRight(angle))
  {
  }

  /** From a quarter turn, each turn undoes the other, and four of either
      come back to the start. */
  lemma RotationsUndoEachOther(angle: int)
    requires QuarterTurn(angle)
    ensures RotatedLeft(RotatedRight(angle)) == angle && RotatedRight(RotatedLeft(angle)) == angle
    ensures RotatedRight(RotatedRight(RotatedRight(RotatedRight(angle)))) == angle
    ensures RotatedLeft(RotatedLeft(RotatedLeft(RotatedLeft(angle)))) == angle
  {
  }

  // ---------------------------------------------------------------- zoom

  /** zoom_in's new factor: one step up, capped at the maximum. */
  function ZoomedIn(z: real): real {
    if z < MaxZoom then (if z + ZoomStep < MaxZoom then z + ZoomStep else MaxZoom) else z
  }

  /** zoom_out's new factor: one step down, floored at the minimum. */
  function ZoomedOut(z: real): real {
    if z > MinZoom then (if z - ZoomStep > MinZoom then z - ZoomStep else MinZoom) else z
  }

  /** Both keep the factor within [0.1, 5.0], zoom_in never shrinks and
      zoom_out never grows it, each changes it exactly when it is not at its
      bound, and away from the bounds one undoes the other. */
  lemma ZoomStaysInRange(z: real)
    requires MinZoom <= z <= MaxZoom
    ensures MinZoom <= ZoomedIn(z) <= MaxZoom && MinZoom <= ZoomedOut(z) <= MaxZoom
    ensures z <= ZoomedIn(z) && ZoomedOut(z) <= z
    ensures ZoomedIn(z) != z <==> z < MaxZoom
    ensures ZoomedOut(z) != z <==> z > MinZoom
    ensures z + ZoomStep <= MaxZoom ==> ZoomedOut(ZoomedIn(z)) == z
    ensures z - ZoomStep >= MinZoom ==> ZoomedIn(ZoomedOut(z)) == z
  {
  }

  /** The picture's size as drawn: a quarter or three-quarter turn swaps
      width and height. */
  function Rotated(p: Picture, angle: int): Picture {
    if angle == 90 || angle == 270 then Picture(p.height, p.width) else p
  }

  /** The canvas zoom_fit works with: one not yet laid out counts as
      350 x 300. */
  function Canvas(canvasWidth: int, canvasHeight: int): (int, int) {
    if canvasWidth <= 1 || canvasHeight <= 1 then (350, 300) else (canvasWidth, canvasHeight)
  }

  /** The largest factor, at most 1 and at least the minimum, at which the
      picture fits the given room. */
  function Fitted(roomX: int, roomY: int, p: Picture): real
    requires p.width > 0 && p.height > 0
  {
    var scaleX := roomX as real / p.width as real;
    var scaleY := roomY as real / p.height as real;
    var fit := if scaleX <= scaleY then scaleX else scaleY;
    var capped := if fit <= 1.0 then fit else 1.0;
    if capped >= MinZoom then capped else MinZoom
  }

  /** zoom_fit: the rotated picture fitted to the canvas less a 20-pixel
      margin on each axis. */
  function FitZoom(canvasWidth: int, canvasHeight: int, p: Picture): real
    requires p.width > 0 && p.height > 0
  {
    var (w, h) := Canvas(canvasWidth, canvasHeight);
    Fitted(w - 20, h - 20, p)
  }

  /** The fitted factor lies in [0.1, 1.0]; above the minimum the picture
      fits the room in both directions, and below 1 it fills one of them
      exactly. */
  lemma FittedFits(roomX: int, roomY: int, p: Picture)
    requires p.width > 0 && p.height > 0
    ensures var z := Fitted(roomX, roomY, p);
      && MinZoom <= z <= 1.0
      && (z > MinZoom ==> z * p.width as real <= roomX as real && z * p.height as real <= roomY as real)
      && (MinZoom < z < 1.0 ==> z * p.width as real == roomX as real || z * p.height as real == roomY as real)
  {
    var scaleX := roomX as real / p.width as real;
    var scaleY := roomY as real / p.height as real;
    ScaledBack(roomX, p.width);
    ScaledBack(roomY, p.height);
    var z := Fitted(roomX, roomY, p);
    if z > MinZoom {
      AtMostScale(z, scaleX, roomX, p.width);
      AtMostScale(z, scaleY, roomY, p.height);
    }
  }

  /** zoom_fit's factor lies in [0.1, 1.0]; above the minimum the picture
      fits the canvas margin in both directions, and below 1 it fills one
      of them exactly. */
  lemma FitZoomFits(canvasWidth: int, canvasHeight: int, p: Picture)
    requires p.width > 0 && p.height > 0
    ensures var z := FitZoom(canvasWidth, canvasHeight, p);
      var (w, h) := Canvas(canvasWidth, canvasHeight);
      && MinZoom <= z <= 1.0
      && (z > MinZoom ==> z * p.width as real <= (w - 20) as real && z * p.height as real <= (h - 20) as real)
      && (MinZoom < z < 1.0 ==> z * p.width as real == (w - 20) as real || z * p.height as real == (h - 20) as real)
  {
    var (w, h) := Canvas(canvasWidth, canvasHeight);
    FittedFits(w - 20, h - 20, p);
  }

  lemma ScaledBack(room: int, size: nat)
    requires size > 0
    ensures (room as real / size as real) * size as real == room as real
  {
  }

  lemma AtMostScale(z: real, scale: real, room: int, size: nat)
    requires size > 0 && z <= scale && scale * size as real == room as real
    ensures z * size as real <= room as real
  {
    assert (scale - z) * size as real >= 0.0;
  }

  // ---------------------------------------------------------- navigation

  /** previous_image's new position: one back when that is a valid one. */
  function PreviousIndex(i: int, n: nat): int {
    if n > 0 && i > 0 && i - 1 < n then i - 1 else i
  }

  /** next_image's new position: one on when that stays in the list. */
  function NextIndex(i: int, n: nat): int {
    if n > 0 && i < n - 1 && 0 <= i + 1 then i + 1 else i
  }

  /** Moving from a valid position stays valid, never jumps more than one,
      and back-and-forth returns except at the ends. */
  lemma NavigationStaysInRange(i: int, n: nat)
    requires 0 <= i < n
    ensures 0 <= PreviousIndex(i, n) < n && 0 <= NextIndex(i, n) < n
    ensures PreviousIndex(i, n) == (if i == 0 then 0 else i - 1)
    ensures NextIndex(i, n) == (if i == n - 1 then i else i + 1)
    ensures i < n - 1 ==> PreviousIndex(NextIndex(i, n), n) == i
    ensures 0 < i ==> NextIndex(PreviousIndex(i, n), n) == i
  {
  }

  /** remove_current_image's new position after the entry at i of n was
      removed: the same position, or the new last one, or 0 when none is
      left. */
  function IndexAfterRemoval(i: int, n: nat): int {
    if n == 0 then 0 else if i >= n then n - 1 else i
  }

  /** The position after a removal is valid in the shorter list. */
  lemma RemovalKeepsIndexInRange(i: int, n: nat)
    requires 0 <= i < n + 1
    ensures n > 0 ==> 0 <= IndexAfterRemoval(i, n) < n && IndexAfterRemoval(i, n) <= i
    ensures n == 0 ==> IndexAfterRemoval(i, n) == 0
    ensures i < n ==> IndexAfterRemoval(i, n) == i
  {
  }

  // ---------------------------------------------------------------- grid

  /** display_grid_view's column count: the canvas width (280 before it is
      laid out) over the thumbnail width plus 20, at least one. */
  function GridColumns(canvasWidth: int, thumbnail: nat): (cols: int)
    ensures cols >= 1
  {
    var w := if canvasWidth <= 1 then 280 else canvasWidth;
    var fit := w / (thumbnail + 20);
    if fit >= 1 then fit else 1
  }

  /** Image i's cell: row i div cols, column i mod cols. */
  function Cell(i: nat, cols: int): (int, int)
    requires cols >= 1
  {
    (i / cols, i % cols)
  }

  /** Cells fill the grid row by row: every column is within the grid, the
      cell gives back its image's position, so different images get
      different cells. */
  lemma CellsAreDistinct(i: nat, j: nat, cols: int)
    requires cols >= 1
    ensures 0 <= Cell(i, cols).1 < cols && Cell(i, cols).0 >= 0
    ensures Cell(i, cols).0 * cols + Cell(i, cols).1 == i
    ensures i != j ==> Cell(i, cols) != Cell(j, cols)
  {
    assert (i / cols) * cols + i % cols == i;
    assert (j / cols) * cols + j % cols == j;
  }

  /** A thumbnail of width at most the canvas less 20 leaves room for a
      whole thumbnail in every column. */
  lemma ColumnsFitTheCanvas(canvasWidth: int, thumbnail: nat)
    requires canvasWidth > 1 && thumbnail + 20 <= canvasWidth
    ensures GridColumns(canvasWidth, thumbnail) * (thumbnail + 20) <= canvasWidth
    ensures canvasWidth < (GridColumns(canvasWidth, thumbnail) + 1) * (thumbnail + 20)
  {
    var d := thumbnail + 20;
    assert (canvasWidth / d) * d + canvasWidth % d == canvasWidth;
  }

  // ------------------------------------------------------------- listing

  /** The extensions load_images accepts, compared lower-cased. */
  const SupportedFormats: set<string> := {".jpg", ".jpeg", ".png", ".gif", ".bmp", ".tiff", ".tif",
    ".webp", ".ico", ".ppm", ".pgm", ".pbm", ".pnm", ".arw"}

  predicate Supported(path: string) {
    Lower(Suffix(path)) in SupportedFormats
  }

  /** A file is of a supported type exactly when its extension, lower-cased,
      is one of the supported ones, whatever its folder. */
  lemma SupportedByExtension(dir: string, stem: string, ext: string)
    requires |stem| > 0 && '/' !in stem
    requires |ext| > 0 && '/' !in ext && '.' !in ext
    ensures Supported(dir + "/" + stem + "." + ext) <==> Lower("." + ext) in SupportedFormats
  {
    SuffixOfFile(dir, stem, ext);
  }

  /** A path load_images lists: one the type test accepts (Supported, in
      the viewer) whose size can be read (sizeOf stands for
      os.path.getsize). */
  predicate Qualifies(path: string, accept: string -> bool, sizeOf: string -> Option<int>) {
    accept(path) && sizeOf(path).Some?
  }

  /** The entry load_images records for a path. */
  function EntryOf(path: string, sizeOf: string -> Option<int>): ImageEntry {
    ImageEntry(FileName(path), path, sizeOf(path))
  }

  /** The entries load_images lists from the first n paths, in order. */
  function ListedUpTo(files: seq<string>, accept: string -> bool, sizeOf: string -> Option<int>, n: nat): seq<ImageEntry>
    requires n <= |files|
  {
    if n == 0 then []
    else ListedUpTo(files, accept, sizeOf, n - 1)
           + (if Qualifies(files[n - 1], accept, sizeOf) then [EntryOf(files[n - 1], sizeOf)] else [])
  }

  function Listed(files: seq<string>, accept: string -> bool, sizeOf: string -> Option<int>): seq<ImageEntry> {
    ListedUpTo(files, accept, sizeOf, |files|)
  }

  /** The loop of load_images: each accepted path whose size can be read
      is appended to the list, in the order given. */
  method ListFiles(files: seq<string>, accept: string -> bool, sizeOf: string -> Option<int>)
    returns (entries: seq<ImageEntry>)
    ensures entries == Listed(files, accept, sizeOf)
  {
    entries := [];
    for i := 0 to |files|
      invariant entries == ListedUpTo(files, accept, sizeOf, i)
    {
      var path := files[i];
      var size := sizeOf(path);
      if accept(path) && size.Some? {
        entries := entries + [ImageEntry(FileName(path), path, size)];
      }
    }
  }

  /** Every listed entry is the entry of a qualifying path among the first
      n, and the list is no longer than n. */
  lemma {:induction false} ListedUpToSound(files: seq<string>, accept: string -> bool, sizeOf: string -> Option<int>,
                                           n: nat)
    requires n <= |files|
    ensures |ListedUpTo(files, accept, sizeOf, n)| <= n
    ensures forall e :: e in ListedUpTo(files, accept, sizeOf, n) ==>
      exists i :: 0 <= i < n && Qualifies(files[i], accept, sizeOf) && e == EntryOf(files[i], sizeOf)
  {
    if n > 0 {
      ListedUpToSound(files, accept, sizeOf, n - 1);
    }
  }

  /** Every qualifying path among the first n is listed. */
  lemma {:induction false} ListedUpToComplete(files: seq<string>, accept: string -> bool, sizeOf: string -> Option<int>,
                                              n: nat, i: nat)
    requires i < n <= |files| && Qualifies(files[i], accept, sizeOf)
    ensures EntryOf(files[i], sizeOf) in ListedUpTo(files, accept, sizeOf, n)
  {
    if i < n - 1 {
      ListedUpToComplete(files, accept, sizeOf, n - 1, i);
    }
  }

  /** Nothing is listed exactly when no path qualifies. */
  lemma ListedEmptyIff(files: seq<string>, accept: string -> bool, sizeOf: string -> Option<int>)
    ensures Listed(files, accept, sizeOf) == [] <==> forall i :: 0 <= i < |files| ==> !Qualifies(files[i], accept, sizeOf)
  {
    if Listed(files, accept, sizeOf) == [] {
      forall i | 0 <= i < |files|
        ensures !Qualifies(files[i], accept, sizeOf)
      {
        if Qualifies(files[i], accept, sizeOf) {
          ListedUpToComplete(files, accept, sizeOf, |files|, i);
        }
      }
    } else {
      ListedUpToSound(files, accept, sizeOf, |files|);
      var e := Listed(files, accept, sizeOf)[0];
      assert e in Listed(files, accept, sizeOf);
    }
  }

  // ------------------------------------------------------- loading queue

  /** One entry of the loading queue. */
  datatype QueueItem = QueueItem(index: nat, size: int, path: string, loaded: bool)

  /** image_info.get('size', 0). */
  function SizeOf(e: ImageEntry): int {
    if e.size.Some? then e.size.value else 0
  }

  /** The sort key of position i: its size, 0 outside the list. */
  function SizeAt(images: seq<ImageEntry>, i: int): int {
    if 0 <= i < |images| then SizeOf(images[i]) else 0
  }

  /** Ascending size, ties by position: the order of Python's stable sort
      by size of a list built in position order. */
  function BySize(images: seq<ImageEntry>): (int, int) -> bool {
    (i: int, j: int) => SizeAt(images, i) < SizeAt(images, j) || (SizeAt(images, i) == SizeAt(images, j) && i <= j)
  }

  function Range(n: nat): (r: seq<int>)
    ensures |r| == n && forall k :: 0 <= k < n ==> r[k] == k
  {
    seq(n, k requires 0 <= k < n => k)
  }

  /** The queue item of position i, not yet loaded. */
  function Item(images: seq<ImageEntry>, i: int): QueueItem {
    if 0 <= i < |images| then QueueItem(i, SizeOf(images[i]), images[i].path, false)
    else QueueItem(0, 0, "", false)
  }

  /** The positions in loading order. */
  function LoadingOrder(images: seq<ImageEntry>): seq<int> {
    Sorting.Sort(Range(|images|), BySize(images))
  }

  /** create_sorted_loading_queue, completed to allow an empty list: the
      items in loading order. */
  function LoadingQueue(images: seq<ImageEntry>): (q: seq<QueueItem>)
    ensures |q| == |images|
  {
    var order := LoadingOrder(images);
    seq(|order|, k requires 0 <= k < |order| => Item(images, order[k]))
  }

  /** create_sorted_loading_queue as written: building the queue for an
      empty list fails (None) when it reads the first item. */
  function LoadingQueueAsWritten(images: seq<ImageEntry>): Option<seq<QueueItem>> {
    if |images| == 0 then None else Some(LoadingQueue(images))
  }

  /** An empty image list, as from a selection without supported files,
      makes the queue construction fail. */
  lemma EmptyListBreaksTheQueue()
    ensures LoadingQueueAsWritten([]).None?
    ensures LoadingQueue([]) == []
  {
  }

  /** A selection in which no file is of a supported type with a readable
      size (the open-files dialog also offers every file) leaves the list
      empty, and the queue construction fails exactly then. */
  lemma UnsupportedSelectionBreaksTheQueue(files: seq<string>, sizeOf: string -> Option<int>)
    ensures LoadingQueueAsWritten(Listed(files, Supported, sizeOf)).None? <==>
      forall i :: 0 <= i < |files| ==> !Qualifies(files[i], Supported, sizeOf)
  {
    ListedEmptyIff(files, Supported, sizeOf);
  }

  lemma BySizeIsTotal(images: seq<ImageEntry>)
    ensures Sorting.TotalOrder(BySize(images))
  {
  }

  /** The positions a queue loads, in its order. */
  function Positions(q: seq<QueueItem>): (r: seq<int>)
    ensures |r| == |q| && forall k :: 0 <= k < |q| ==> r[k] == q[k].index
  {
    seq(|q|, k requires 0 <= k < |q| => q[k].index)
  }

  /** The loading order lists every position of the list once, in
      ascending size and, among equal sizes, in list order. */
  lemma LoadingOrderIsSortedPermutation(images: seq<ImageEntry>)
    ensures var order := LoadingOrder(images);
      && multiset(order) == multiset(Range(|images|))
      && (forall k :: 0 <= k < |order| ==> 0 <= order[k] < |images|)
      && (forall i :: 0 <= i < |images| ==> i in order)
      && NoDuplicates(order)
      && (forall k, l :: 0 <= k < l < |order| ==>
            SizeAt(images, order[k]) < SizeAt(images, order[l])
            || (SizeAt(images, order[k]) == SizeAt(images, order[l]) && order[k] < order[l]))
  {
    var order := LoadingOrder(images);
    var n := |images|;
    BySizeIsTotal(images);
    Sorting.SortSorted(Range(n), BySize(images));
    forall k | 0 <= k < n
      ensures 0 <= order[k] < n
    {
      assert order[k] in multiset(Range(n));
    }
    forall i | 0 <= i < n
      ensures i in order
    {
      assert Range(n)[i] == i;
      assert i in multiset(Range(n));
    }
    forall k, l | 0 <= k < l < n
      ensures order[k] != order[l]
    {
      DistinctStaysDistinct(Range(n), order, k, l);
    }
    forall k, l | 0 <= k < l < n
      ensures SizeAt(images, order[k]) < SizeAt(images, order[l])
              || (SizeAt(images, order[k]) == SizeAt(images, order[l]) && order[k] < order[l])
    {
      assert BySize(images)(order[k], order[l]);
    }
  }

  /** The queue holds every position exactly once, each with its own size
      and path and not yet loaded, in ascending size, equal sizes in their
      list order. */
  lemma LoadingQueueIsSortedPermutation(images: seq<ImageEntry>)
    ensures var q := LoadingQueue(images);
      && (forall k :: 0 <= k < |q| ==>
            && 0 <= q[k].index < |images| && !q[k].loaded
            && q[k].size == SizeOf(images[q[k].index]) && q[k].path == images[q[k].index].path)
      && multiset(Positions(q)) == multiset(Range(|images|))
      && NoDuplicates(Positions(q))
      && (forall k, l :: 0 <= k < l < |q| ==>
            q[k].size < q[l].size || (q[k].size == q[l].size && q[k].index < q[l].index))
  {
    LoadingOrderIsSortedPermutation(images);
    var q := LoadingQueue(images);
    assert Positions(q) == LoadingOrder(images);
  }

  // -------------------------------------------------------------- config

  /** load_config's defaults: both last-used directories start at home. */
  function DefaultConfig(home: string): map<string, string> {
    map["last_file_directory" := home, "last_folder_directory" := home]
  }

  /** load_config: without a readable stored configuration, the defaults;
      otherwise the stored one with each missing default key added, one
      key at a time. */
  method LoadConfig(stored: Option<map<string, string>>, home: string) returns (config: map<string, string>)
    ensures stored.None? ==> config == DefaultConfig(home)
    ensures stored.Some? ==>
      && config.Keys == stored.value.Keys + DefaultConfig(home).Keys
      && (forall k :: k in stored.value ==> config[k] == stored.value[k])
      && (forall k :: k in DefaultConfig(home) && k !in stored.value ==> config[k] == DefaultConfig(home)[k])
  {
    var defaults := DefaultConfig(home);
    if stored.None? {
      return defaults;
    }
    config := stored.value;
    var todo := defaults.Keys;
    while todo != {}
      invariant todo <= defaults.Keys
      invariant config.Keys == stored.value.Keys + (defaults.Keys - todo)
      invariant forall k :: k in stored.value ==> config[k] == stored.value[k]
      invariant forall k :: k in defaults.Keys - todo && k !in stored.value ==> config[k] == defaults[k]
      decreases todo
    {
      var key :| key in todo;
      if key !in config {
        config := config[key := defaults[key]];
      }
      todo := todo - {key};
    }
  }

  // -------------------------------------------------------------- viewer

  class ImageViewer {
    var images: seq<ImageEntry>
    var currentIndex: int
    var thumbnailWidth: nat
    var zoomFactor: real
    var rotationAngle: int
    var originalImage: Option<Picture>
    var config: map<string, string>

    /** The factor stays within its bounds, the angle a quarter turn, and
        the current position names an image whenever there is one. */
    ghost predicate Valid()
      reads this
    {
      && MinZoom <= zoomFactor <= MaxZoom && QuarterTurn(rotationAngle)
      && (originalImage.Some? ==> originalImage.value.width > 0 && originalImage.value.height > 0)
      && 0 <= currentIndex && (currentIndex < |images| || currentIndex == 0)
    }

    constructor(stored: Option<map<string, string>>, home: string)
      ensures Valid()
      ensures images == [] && currentIndex == 0 && thumbnailWidth == 150
      ensures zoomFactor == 1.0 && rotationAngle == 0 && originalImage.None?
      ensures stored.None? ==> config == DefaultConfig(home)
      ensures stored.Some? ==>
        && config.Keys == stored.value.Keys + DefaultConfig(home).Keys
        && (forall k :: k in stored.value ==> config[k] == stored.value[k])
        && (forall k :: k in DefaultConfig(home) && k !in stored.value ==> config[k] == DefaultConfig(home)[k])
    {
      var loaded := LoadConfig(stored, home);
      config := loaded;
      images := [];
      currentIndex := 0;
      thumbnailWidth := 150;
      zoomFactor := 1.0;
      rotationAngle := 0;
      originalImage := None;
    }

    /** rotate_left: a quarter turn back, only with a picture shown. */
    method RotateLeft()
      requires Valid()
      modifies this
      ensures Valid()
      ensures rotationAngle == if originalImage.Some? then RotatedLeft(old(rotationAngle)) else old(rotationAngle)
      ensures images == old(images) && currentIndex == old(currentIndex) && zoomFactor == old(zoomFactor)
      ensures originalImage == old(originalImage) && config == old(config)
      ensures thumbnailWidth == old(thumbnailWidth)
    {
      if originalImage.Some? {
        RotationsAreQuarterTurns(rotationAngle);
        rotationAngle := RotatedLeft(rotationAngle);
      }
    }

    /** rotate_right: a quarter turn on, only with a picture shown. */
    method RotateRight()
      requires Valid()
      modifies this
      ensures Valid()
      ensures rotationAngle == if originalImage.Some? then RotatedRight(old(rotationAngle)) else old(rotationAngle)
      ensures images == old(images) && currentIndex == old(currentIndex) && zoomFactor == old(zoomFactor)
      ensures originalImage == old(originalImage) && config == old(config)
      ensures thumbnailWidth == old(thumbnailWidth)
    {
      if originalImage.Some? {
        RotationsAreQuarterTurns(rotationAngle);
        rotationAngle := RotatedRight(rotationAngle);
      }
    }

    /** reset_rotation: back to 0, only with a picture shown. */
    method ResetRotation()
      requires Valid()
      modifies this
      ensures Valid()
      ensures rotationAngle == if originalImage.Some? then 0 else old(rotationAngle)
      ensures images == old(images) && currentIndex == old(currentIndex) && zoomFactor == old(zoomFactor)
      ensures originalImage == old(originalImage) && config == old(config)
      ensures thumbnailWidth == old(thumbnailWidth)
    {
      if originalImage.Some? {
        rotationAngle := 0;
      }
    }

    /** zoom_in: one step up to the maximum, only with a picture shown. */
    method ZoomIn()
      requires Valid()
      modifies this
      ensures Valid()
      ensures zoomFactor == if originalImage.Some? then ZoomedIn(old(zoomFactor)) else old(zoomFactor)
      ensures images == old(images) && currentIndex == old(currentIndex) && rotationAngle == old(rotationAngle)
      ensures originalImage == old(originalImage) && config == old(config)
      ensures thumbnailWidth == old(thumbnailWidth)
    {
      if originalImage.Some? && zoomFactor < MaxZoom {
        zoomFactor := if zoomFactor + ZoomStep < MaxZoom then zoomFactor + ZoomStep else MaxZoom;
      }
    }

    /** zoom_out: one step down to the minimum, only with a picture shown. */
    method ZoomOut()
      requires Valid()
      modifies this
      ensures Valid()
      ensures zoomFactor == if originalImage.Some? then ZoomedOut(old(zoomFactor)) else old(zoomFactor)
      ensures images == old(images) && currentIndex == old(currentIndex) && rotationAngle == old(rotationAngle)
      ensures originalImage == old(originalImage) && config == old(config)
      ensures thumbnailWidth == old(thumbnailWidth)
    {
      if originalImage.Some? && zoomFactor > MinZoom {
        zoomFactor := if zoomFactor - ZoomStep > MinZoom then zoomFactor - ZoomStep else MinZoom;
      }
    }

    /** zoom_fit on a canvas of the given size, only with a picture shown. */
    method ZoomFit(canvasWidth: int, canvasHeight: int)
      requires Valid()
      modifies this
      ensures Valid()
      ensures originalImage.Some? ==>
        zoomFactor == FitZoom(canvasWidth, canvasHeight, Rotated(originalImage.value, rotationAngle))
      ensures originalImage.None? ==> zoomFactor == old(zoomFactor)
      ensures images == old(images) && currentIndex == old(currentIndex) && rotationAngle == old(rotationAngle)
      ensures originalImage == old(originalImage) && config == old(config)
      ensures thumbnailWidth == old(thumbnailWidth)
    {
      if originalImage.None? {
        return;
      }
      var working := Rotated(originalImage.value, rotationAngle);
      FitZoomFits(canvasWidth, canvasHeight, working);
      zoomFactor := FitZoom(canvasWidth, canvasHeight, working);
    }

    /** show_preview: a valid position becomes the current one; the picture
        itself arrives later, through OnImageLoaded. */
    method ShowPreview(index: int)
      requires Valid()
      modifies this
      ensures Valid()
      ensures currentIndex == if 0 <= index < |images| then index else old(currentIndex)
      ensures images == old(images) && zoomFactor == old(zoomFactor) && rotationAngle == old(rotationAngle)
      ensures originalImage == old(originalImage) && config == old(config)
      ensures thumbnailWidth == old(thumbnailWidth)
    {
      if 0 <= index < |images| {
        currentIndex := index;
      }
    }

    /** The loading thread's picture with on_image_loaded: shown unrotated
        at the fitted factor. */
    method OnImageLoaded(p: Picture, canvasWidth: int, canvasHeight: int)
      requires Valid() && p.width > 0 && p.height > 0
      modifies this
      ensures Valid()
      ensures originalImage == Some(p) && rotationAngle == 0
      ensures zoomFactor == FitZoom(canvasWidth, canvasHeight, p)
      ensures images == old(images) && currentIndex == old(currentIndex) && config == old(config)
      ensures thumbnailWidth == old(thumbnailWidth)
    {
      originalImage := Some(p);
      zoomFactor := 1.0;
      rotationAngle := 0;
      ZoomFit(canvasWidth, canvasHeight);
    }

    /** on_image_load_error: the picture is dropped; factor and angle stay. */
    method OnImageLoadError()
      requires Valid()
      modifies this
      ensures Valid()
      ensures originalImage.None?
      ensures zoomFactor == old(zoomFactor) && rotationAngle == old(rotationAngle)
      ensures images == old(images) && currentIndex == old(currentIndex) && config == old(config)
      ensures thumbnailWidth == old(thumbnailWidth)
    {
      originalImage := None;
    }

    /** clear_preview: no picture, factor 1, no rotation. */
    method ClearPreview()
      requires Valid()
      modifies this
      ensures Valid()
      ensures originalImage.None? && zoomFactor == 1.0 && rotationAngle == 0
      ensures images == old(images) && currentIndex == old(currentIndex) && config == old(config)
      ensures thumbnailWidth == old(thumbnailWidth)
    {
      originalImage := None;
      zoomFactor := 1.0;
      rotationAngle := 0;
    }

    /** previous_image. */
    method PreviousImage()
      requires Valid()
      modifies this
      ensures Valid()
      ensures currentIndex == PreviousIndex(old(currentIndex), |images|)
      ensures images == old(images) && zoomFactor == old(zoomFactor) && rotationAngle == old(rotationAngle)
      ensures originalImage == old(originalImage) && config == old(config)
      ensures thumbnailWidth == old(thumbnailWidth)
    {
      if |images| > 0 && currentIndex > 0 {
        ShowPreview(currentIndex - 1);
      }
    }

    /** next_image. */
    method NextImage()
      requires Valid()
      modifies this
      ensures Valid()
      ensures currentIndex == NextIndex(old(currentIndex), |images|)
      ensures images == old(images) && zoomFactor == old(zoomFactor) && rotationAngle == old(rotationAngle)
      ensures originalImage == old(originalImage) && config == old(config)
      ensures thumbnailWidth == old(thumbnailWidth)
    {
      if |images| > 0 && currentIndex < |images| - 1 {
        ShowPreview(currentIndex + 1);
      }
    }

    /** first_image: position 0 when there are images. */
    method FirstImage()
      requires Valid()
      modifies this
      ensures Valid()
      ensures currentIndex == if |images| > 0 then 0 else old(currentIndex)
      ensures images == old(images) && zoomFactor == old(zoomFactor) && rotationAngle == old(rotationAngle)
      ensures originalImage == old(originalImage) && config == old(config)
      ensures thumbnailWidth == old(thumbnailWidth)
    {
      if |images| > 0 {
        currentIndex := 0;
        ShowPreview(0);
      }
    }

    /** last_image: the last position when there are images. */
    method LastImage()
      requires Valid()
      modifies this
      ensures Valid()
      ensures currentIndex == if |images| > 0 then |images| - 1 else old(currentIndex)
      ensures images == old(images) && zoomFactor == old(zoomFactor) && rotationAngle == old(rotationAngle)
      ensures originalImage == old(originalImage) && config == old(config)
      ensures thumbnailWidth == old(thumbnailWidth)
    {
      if |images| > 0 {
        currentIndex := |images| - 1;
        ShowPreview(currentIndex);
      }
    }

    /** remove_current_image (the definition that takes effect): with a
        valid current position and the user's confirmation, exactly that
        entry leaves the list, the position is re-clamped, and an emptied
        list clears the preview; otherwise nothing changes. */
    method RemoveCurrentImage(confirmed: bool)
      requires Valid()
      modifies this
      ensures Valid()
      ensures var i := old(currentIndex);
        var removing := 0 <= i < |old(images)| && confirmed;
        && images == (if removing then old(images)[..i] + old(images)[i + 1..] else old(images))
        && currentIndex == (if removing then IndexAfterRemoval(i, |images|) else i)
        && (removing && images == [] ==> originalImage.None? && zoomFactor == 1.0 && rotationAngle == 0)
        && (!removing || images != [] ==>
              originalImage == old(originalImage) && zoomFactor == old(zoomFactor)
              && rotationAngle == old(rotationAngle))
      ensures config == old(config)
      ensures thumbnailWidth == old(thumbnailWidth)
    {
      if |images| > 0 && 0 <= currentIndex < |images| && confirmed {
        images := images[..currentIndex] + images[currentIndex + 1..];
        if |images| > 0 {
          if currentIndex >= |images| {
            currentIndex := |images| - 1;
          }
          ShowPreview(currentIndex);
        } else {
          currentIndex := 0;
          ClearPreview();
        }
      }
    }

    /** display_grid_view's layout: the cell of every image, in order. */
    method GridLayout(canvasWidth: int) returns (cells: seq<(int, int)>)
      ensures |cells| == |images|
      ensures forall i :: 0 <= i < |cells| ==> cells[i] == Cell(i, GridColumns(canvasWidth, thumbnailWidth))
    {
      var width := if canvasWidth <= 1 then 280 else canvasWidth;
      var cols := width / (thumbnailWidth + 20);
      if cols < 1 {
        cols := 1;
      }
      cells := [];
      for i := 0 to |images|
        invariant |cells| == i
        invariant forall j :: 0 <= j < i ==> cells[j] == Cell(j, cols)
      {
        cells := cells + [(i / cols, i % cols)];
      }
    }

    /** clear_images: an empty list at position 0 and a cleared preview. */
    method ClearImages()
      requires Valid()
      modifies this
      ensures Valid()
      ensures images == [] && currentIndex == 0
      ensures originalImage.None? && zoomFactor == 1.0 && rotationAngle == 0
      ensures config == old(config) && thumbnailWidth == old(thumbnailWidth)
    {
      images := [];
      currentIndex := 0;
      ClearPreview();
    }

    /** load_images: the list is replaced by the supported, sized files in
        the order given, the first becomes current, and the loading queue
        is built over them.  The queue is the corrected one: empty for an
        empty list, where the code as written raises. */
    method LoadImages(files: seq<string>, sizeOf: string -> Option<int>) returns (queue: seq<QueueItem>)
      requires Valid()
      modifies this
      ensures Valid()
      ensures images == Listed(files, Supported, sizeOf) && currentIndex == 0
      ensures originalImage.None? && zoomFactor == 1.0 && rotationAngle == 0
      ensures queue == LoadingQueue(images)
      ensures config == old(config) && thumbnailWidth == old(thumbnailWidth)
    {
      ClearImages();
      images := ListFiles(files, Supported, sizeOf);
      if |images| > 0 {
        currentIndex := 0;
        ShowPreview(0);
      }
      queue := CreateSortedLoadingQueue();
    }

    /** create_sorted_loading_queue over the current list, one item per
        entry in list order, then sorted by size.  This follows the
        corrected definition LoadingQueue: on an empty list it returns an
        empty queue, where the code as written raises IndexError
        (LoadingQueueAsWritten). */
    method CreateSortedLoadingQueue() returns (queue: seq<QueueItem>)
      ensures queue == LoadingQueue(images)
    {
      var items: seq<int> := [];
      for i := 0 to |images|
        invariant items == Range(i)
      {
        items := items + [i];
      }
      var entries := images;
      var order := Sorting.Sort(items, BySize(entries));
      queue := seq(|order|, k requires 0 <= k < |order| => Item(entries, order[k]));
    }
  }
}
