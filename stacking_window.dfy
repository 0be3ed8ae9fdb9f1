/**
 * The stacking window's bookkeeping: the list of selected image paths (add
 * without duplicates, remove by serial number), the parameter presets, the
 * guard and output naming before a run, the outcome dispatch after it, and
 * the image-count text.  The Tk widgets are left out: each Tk variable is a
 * field, each label text a value.
 */
module StackingUi {
  import opened Common
  import Sorting
  import Stacker

  // ------------------------------------------------------------ adding

  /** add_image_files over the first n files: a file joins the list when it
      is not in the list built so far and Image.open succeeds on it. */
  function AddedUpTo(paths: seq<string>, files: seq<string>, opens: string -> bool, n: nat): seq<string>
    requires n <= |files|
  {
    if n == 0 then paths
    else
      var acc := AddedUpTo(paths, files, opens, n - 1);
      var f := files[n - 1];
      if f !in acc && opens(f) then acc + [f] else acc
  }

  function Added(paths: seq<string>, files: seq<string>, opens: string -> bool): seq<string> {
    AddedUpTo(paths, files, opens, |files|)
  }

  /** Adding keeps the old list as a prefix, brings in exactly the files
      that open and were not there, and lets no duplicate in, even when the
      batch itself repeats a file. */
  lemma {:induction false} AddedUpToFacts(paths: seq<string>, files: seq<string>, opens: string -> bool,
                                          n: nat)
    requires n <= |files|
    ensures var r := AddedUpTo(paths, files, opens, n);
      && |paths| <= |r| && r[..|paths|] == paths
      && (forall x :: x in r <==> x in paths || (x in files[..n] && opens(x)))
      && (NoDuplicates(paths) ==> NoDuplicates(r))
  {
    if n > 0 {
      AddedUpToFacts(paths, files, opens, n - 1);
      var acc := AddedUpTo(paths, files, opens, n - 1);
      assert files[..n] == files[..n - 1] + [files[n - 1]];
      var r := AddedUpTo(paths, files, opens, n);
      if files[n - 1] !in acc && opens(files[n - 1]) {
        assert r[..|paths|] == acc[..|paths|];
        forall i, j | 0 <= i < j < |r| && NoDuplicates(acc)
          ensures r[i] != r[j]
        {
          if j == |acc| {
            assert r[i] == acc[i];
          }
        }
      }
    }
  }

  // ---------------------------------------------------------- removing

  /** del s[i] when 0 <= i < len(s); otherwise nothing. */
  function Delete<T>(s: seq<T>, i: int): (r: seq<T>)
    ensures 0 <= i < |s| ==> |r| == |s| - 1
  {
    if 0 <= i < |s| then s[..i] + s[i + 1..] else s
  }

  /** The deletions applied one after the other, in the order given. */
  function DeleteEach<T>(s: seq<T>, indices: seq<int>): seq<T> {
    if indices == [] then s
    else Delete(DeleteEach(s, indices[..|indices| - 1]), indices[|indices| - 1])
  }

  /** The entries of s whose position (counted from lo) is not in drop, in
      their original order. */
  function Kept<T>(s: seq<T>, drop: set<int>, lo: int): seq<T> {
    if s == [] then []
    else (if lo in drop then [] else [s[0]]) + Kept(s[1..], drop, lo + 1)
  }

  /** The loop of remove_selected: del paths[index] for each index in turn,
      skipping one that is out of range. */
  method DeleteInTurn(paths: seq<string>, indices: seq<int>) returns (r: seq<string>)
    ensures r == DeleteEach(paths, indices)
  {
    r := paths;
    for k := 0 to |indices|
      invariant r == DeleteEach(paths, indices[..k])
    {
      assert indices[..k + 1][..k] == indices[..k];
      var index := indices[k];
      if 0 <= index < |r| {
        r := r[..index] + r[index + 1..];
      }
    }
    assert indices[..|indices|] == indices;
  }

  /** Python's sort(reverse=True) on the indices. */
  function Descending(s: seq<int>): seq<int> {
    Sorting.Sort(s, (a: int, b: int) => a >= b)
  }

  /** The 1-based serial numbers of the selected rows as list positions. */
  function Positions(serials: seq<int>): (r: seq<int>)
    ensures |r| == |serials| && forall k :: 0 <= k < |r| ==> r[k] == serials[k] - 1
  {
    seq(|serials|, k requires 0 <= k < |serials| => serials[k] - 1)
  }

  /** remove_selected's effect on the list: nothing without a selection,
      otherwise the positions deleted from the highest down, skipping those
      out of range. */
  function RemovedSelection(paths: seq<string>, serials: seq<int>): seq<string> {
    if serials == [] then paths else DeleteEach(paths, Descending(Positions(serials)))
  }

  lemma {:induction false} KeptAppend<T>(a: seq<T>, b: seq<T>, drop: set<int>, lo: int)
    ensures Kept(a + b, drop, lo) == Kept(a, drop, lo) + Kept(b, drop, lo + |a|)
  {
    if a == [] {
      assert a + b == b;
    } else {
      assert (a + b)[0] == a[0];
      assert (a + b)[1..] == a[1..] + b;
      KeptAppend(a[1..], b, drop, lo + 1);
      var head := if lo in drop then [] else [a[0]];
      assert Kept(a + b, drop, lo) == head + Kept(a[1..] + b, drop, lo + 1);
      assert Kept(a, drop, lo) == head + Kept(a[1..], drop, lo + 1);
    }
  }

  /** Positions outside the window [lo, lo + |s|) do not matter. */
  lemma {:induction false} KeptIgnoresOutside<T>(s: seq<T>, drop: set<int>, j: int, lo: int)
    requires j < lo || lo + |s| <= j
    ensures Kept(s, drop + {j}, lo) == Kept(s, drop, lo)
  {
    if s != [] {
      KeptIgnoresOutside(s[1..], drop, j, lo + 1);
    }
  }

  /** With nothing to drop in the window, everything is kept. */
  lemma {:induction false} KeptClear<T>(s: seq<T>, drop: set<int>, lo: int)
    requires forall d :: d in drop ==> d < lo || lo + |s| <= d
    ensures Kept(s, drop, lo) == s
  {
    if s != [] {
      KeptClear(s[1..], drop, lo + 1);
      assert s == [s[0]] + s[1..];
    }
  }

  /** Deleting position i after the higher positions of drop were left out
      is leaving out i as well. */
  lemma DeleteBelowDropped<T>(s: seq<T>, drop: set<int>, i: int)
    requires forall d :: d in drop ==> i < d
    ensures Delete(Kept(s, drop, 0), i) == Kept(s, drop + {i}, 0)
  {
    if 0 <= i < |s| {
      assert s == s[..i] + ([s[i]] + s[i + 1..]);
      KeptAppend(s[..i], [s[i]] + s[i + 1..], drop, 0);
      KeptAppend(s[..i], [s[i]] + s[i + 1..], drop + {i}, 0);
      KeptClear(s[..i], drop, 0);
      KeptClear(s[..i], drop + {i}, 0);
      KeptIgnoresOutside(s[i + 1..], drop, i, i + 1);
      assert ([s[i]] + s[i + 1..])[1..] == s[i + 1..];
      var rest := Kept(s[i + 1..], drop, i + 1);
      assert Kept(s, drop, 0) == s[..i] + ([s[i]] + rest);
      assert Kept(s, drop + {i}, 0) == s[..i] + rest;
      assert (s[..i] + ([s[i]] + rest))[..i] == s[..i];
      assert (s[..i] + ([s[i]] + rest))[i + 1..] == rest;
    } else {
      KeptIgnoresOutside(s, drop, i, 0);
      KeptLength(s, drop, 0);
    }
  }

  lemma {:induction false} KeptLength<T>(s: seq<T>, drop: set<int>, lo: int)
    ensures |Kept(s, drop, lo)| <= |s|
  {
    if s != [] {
      KeptLength(s[1..], drop, lo + 1);
    }
  }

  ghost predicate StrictlyDescending(d: seq<int>) {
    forall i, j :: 0 <= i < j < |d| ==> d[i] > d[j]
  }

  /** Deleting distinct positions from the highest down leaves exactly the
      entries at the other positions. */
  lemma {:induction false} DeleteEachDescending<T>(s: seq<T>, d: seq<int>)
    requires StrictlyDescending(d)
    ensures DeleteEach(s, d) == Kept(s, set k | k in d, 0)
  {
    if d == [] {
      assert (set k | k in d) == {};
      KeptClear(s, {}, 0);
    } else {
      var n := |d| - 1;
      var front := d[..n];
      DeleteEachDescending(s, front);
      assert forall k :: k in front ==> d[n] < k;
      DeleteBelowDropped(s, (set k | k in front), d[n]);
      assert (set k | k in d) == (set k | k in front) + {d[n]};
    }
  }

  lemma DescendingOrder()
    ensures Sorting.TotalOrder((a: int, b: int) => a >= b)
  {
  }

  /** Sorted descending, distinct positions are strictly descending. */
  lemma DescendingOfDistinct(s: seq<int>)
    requires NoDuplicates(s)
    ensures StrictlyDescending(Descending(s))
    ensures (set k | k in Descending(s)) == (set k | k in s)
  {
    var le := (a: int, b: int) => a >= b;
    DescendingOrder();
    Sorting.SortSorted(s, le);
    var d := Descending(s);
    assert multiset(d) == multiset(s);
    forall x
      ensures x in d <==> x in s
    {
      assert x in d <==> x in multiset(d);
      assert x in s <==> x in multiset(s);
    }
    forall i, j | 0 <= i < j < |d|
      ensures d[i] > d[j]
    {
      assert le(d[i], d[j]);
      DistinctStaysDistinct(s, d, i, j);
    }
  }

  /** The selected serials as positions: one position per serial. */
  lemma PositionsOfSerials(serials: seq<int>)
    ensures (set k | k in Positions(serials)) == (set k | k in serials :: k - 1)
  {
    var pos := Positions(serials);
    forall x | x in pos
      ensures x + 1 in serials
    {
      var m :| 0 <= m < |pos| && pos[m] == x;
      assert serials[m] == x + 1;
    }
    forall y | y in serials
      ensures y - 1 in pos
    {
      var m :| 0 <= m < |serials| && serials[m] == y;
      assert pos[m] == y - 1;
    }
  }

  lemma PositionsDistinct(serials: seq<int>)
    requires NoDuplicates(serials)
    ensures NoDuplicates(Positions(serials))
  {
  }

  /** With distinct serial numbers (the rows of the list have distinct
      ones), remove_selected leaves exactly the entries whose serial was not
      selected, in their original order; serials out of range are ignored. */
  lemma RemoveSelectedKeepsTheRest(paths: seq<string>, serials: seq<int>)
    requires NoDuplicates(serials)
    ensures RemovedSelection(paths, serials) == Kept(paths, set k | k in serials :: k - 1, 0)
  {
    if serials == [] {
      assert (set k | k in serials :: k - 1) == {};
      KeptClear(paths, {}, 0);
    } else {
      var pos := Positions(serials);
      PositionsOfSerials(serials);
      PositionsDistinct(serials);
      DescendingOfDistinct(pos);
      DeleteEachDescending(paths, Descending(pos));
    }
  }

  // ----------------------------------------------------------- presets

  /** The seven Tk variables a preset sets. */
  datatype Settings = Settings(threshold: int, minArea: int, maxArea: int, blur: real,
                               maxFeatures: int, ransac: real, rule: string)

  /** The Tk variables' initial values. */
  const InitialSettings := Settings(50, 3, 100, 1.5, 500, 5.0, "average")

  /** The preset table of load_preset. */
  function Preset(name: string): Option<Settings> {
    if name == "fast" then Some(Settings(60, 5, 80, 2.0, 300, 8.0, "average"))
    else if name == "balanced" then Some(Settings(50, 3, 100, 1.5, 500, 5.0, "median"))
    else if name == "quality" then Some(Settings(40, 2, 150, 1.0, 800, 3.0, "sigma_clip"))
    else None
  }

  /** The detection parameters update_stacker_params writes. */
  function StarParamsOf(s: Settings): Stacker.StarParams {
    Stacker.StarParams(s.threshold as real, s.minArea as real, s.maxArea as real, s.blur)
  }

  /** The presets go from fast to quality: a lower threshold, a wider area
      window, more features and a tighter RANSAC threshold at each step;
      only the three names are presets. */
  lemma PresetsTradeSpeedForQuality(name: string)
    ensures Preset(name).Some? <==> name in ["fast", "balanced", "quality"]
    ensures var f := Preset("fast").value;
      var b := Preset("balanced").value;
      var q := Preset("quality").value;
      && f.threshold > b.threshold > q.threshold
      && f.minArea > b.minArea > q.minArea && f.maxArea < b.maxArea < q.maxArea
      && f.maxFeatures < b.maxFeatures < q.maxFeatures && f.ransac > b.ransac > q.ransac
  {
  }

  /** The balanced preset is the stacker's own default detection and
      alignment setting, with the median instead of the mean. */
  lemma BalancedIsTheStackerDefault()
    ensures StarParamsOf(Preset("balanced").value) == Stacker.DefaultStarParams
    ensures Preset("balanced").value.maxFeatures == Stacker.DefaultAlignParams.maxFeatures
    ensures Preset("balanced").value.ransac == Stacker.DefaultAlignParams.ransacThreshold
    ensures Preset("balanced").value.rule == "median" != Stacker.DefaultStackParams.rule
  {
  }

  // --------------------------------------------------------- run output

  /** The decimal digits of n, as str(n). */
  function Decimal(n: nat): (s: string)
    ensures |s| >= 1 && forall k :: 0 <= k < |s| ==> '0' <= s[k] <= '9'
  {
    if n < 10 then [Digit(n)] else Decimal(n / 10) + [Digit(n % 10)]
  }

  function Digit(d: nat): (c: char)
    requires d < 10
    ensures '0' <= c <= '9'
  {
    (d + '0' as int) as char
  }

  /** int(s) on a string of decimal digits. */
  function ParseDecimal(s: string): nat
    requires forall k :: 0 <= k < |s| ==> '0' <= s[k] <= '9'
  {
    if s == [] then 0 else ParseDecimal(s[..|s| - 1]) * 10 + (s[|s| - 1] as int - '0' as int)
  }

  /** The number in the generated name reads back as the time it came from. */
  lemma {:induction false} DecimalRoundTrip(n: nat)
    ensures ParseDecimal(Decimal(n)) == n
  {
    if n >= 10 {
      DecimalRoundTrip(n / 10);
      var s := Decimal(n);
      assert s[..|s| - 1] == Decimal(n / 10);
    }
  }

  /** The name start_stacking gives a result when no output path is set. */
  function AutoName(seconds: nat): string {
    "stacked_" + Decimal(seconds) + ".jpg"
  }

  /** str(Path(first).parent / name): the name in the folder of first. */
  function Beside(first: string, name: string): string {
    first[..RFind(first, '/') + 1] + name
  }

  lemma AutoNameHasNoSlash(seconds: nat)
    ensures forall k :: 0 <= k < |AutoName(seconds)| ==> AutoName(seconds)[k] != '/'
  {
    var digits := Decimal(seconds);
    assert AutoName(seconds) == "stacked_" + digits + ".jpg";
    forall k | 0 <= k < |AutoName(seconds)|
      ensures AutoName(seconds)[k] != '/'
    {
      if 8 <= k < 8 + |digits| {
        assert AutoName(seconds)[k] == digits[k - 8];
      }
    }
  }

  /** The generated path is the generated name in the first image's folder. */
  lemma AutoOutputBesideFirstImage(first: string, seconds: nat)
    ensures var out := Beside(first, AutoName(seconds));
      var dir := first[..RFind(first, '/') + 1];
      && out[..|dir|] == dir
      && FileName(out) == AutoName(seconds)
      && FileName(out)[|FileName(out)| - 4..] == ".jpg"
  {
    AutoNameHasNoSlash(seconds);
    BesideKeepsFolderAndName(first, AutoName(seconds));
    AutoNameEndsInJpg(seconds);
  }

  /** A name without '/' placed in the folder of first: the path starts with
      that folder and its file name is the name. */
  lemma BesideKeepsFolderAndName(first: string, name: string)
    requires forall k :: 0 <= k < |name| ==> name[k] != '/'
    ensures var dir := first[..RFind(first, '/') + 1];
      && Beside(first, name)[..|dir|] == dir
      && FileName(Beside(first, name)) == name
  {
    var dir := first[..RFind(first, '/') + 1];
    RFindPastFreeText(dir, name, '/');
    FolderEndsAtItsSlash(first);
    assert (dir + name)[|dir|..] == name;
    assert (dir + name)[..|dir|] == dir;
  }

  /** The folder part of a path ends at its last '/', if it has one. */
  lemma FolderEndsAtItsSlash(path: string)
    ensures var dir := path[..RFind(path, '/') + 1];
      RFind(dir, '/') == |dir| - 1
  {
    var i := RFind(path, '/');
    if i == -1 {
      assert path[..0] == [];
    }
  }

  lemma AutoNameEndsInJpg(seconds: nat)
    ensures |AutoName(seconds)| >= 4 && AutoName(seconds)[|AutoName(seconds)| - 4..] == ".jpg"
  {
    var digits := Decimal(seconds);
    assert AutoName(seconds) == ("stacked_" + digits) + ".jpg";
  }

  // ----------------------------------------------------- after the run

  /** What process_stacking reports when the run ends. */
  datatype Outcome = Completed | SaveFailed | Cancelled | Failed

  /** process_stacking's dispatch: save only an uncancelled result; a set
      cancel flag is a cancellation; anything else is an error. */
  function Dispatch(result: Option<Stacker.Frame>, cancelFlag: bool, saved: bool): Outcome {
    if result.Some? && !cancelFlag then (if saved then Completed else SaveFailed)
    else if cancelFlag then Cancelled
    else Failed
  }

  /** A cancelled run is never saved and never reported as an error; a
      completed one had a result and was saved; an error means either no
      result or a failed save. */
  lemma DispatchCases(result: Option<Stacker.Frame>, cancelFlag: bool, saved: bool)
    ensures Dispatch(result, cancelFlag, saved) == Cancelled <==> cancelFlag
    ensures Dispatch(result, cancelFlag, saved) == Completed <==> result.Some? && !cancelFlag && saved
    ensures Dispatch(result, cancelFlag, saved) in {Failed, SaveFailed} <==>
      !cancelFlag && (result.None? || !saved)
  {
  }

  // ---------------------------------------------------- image-count text

  /** The estimate label: empty, the two-image hint, or the time in seconds
      below a minute and in minutes from a minute on. */
  datatype Estimate = NoEstimate | NeedTwo | Seconds(seconds: real) | Minutes(minutes: real)

  /** The image-count label: the prompt, or the count with the estimate. */
  datatype ImageInfo = Prompt | Selected(count: nat, estimate: Estimate)

  /** update_image_info, with size the result of opening the first image. */
  function ImageInfoOf(count: nat, size: Option<(int, int)>): ImageInfo {
    if count == 0 then Prompt
    else if count < 2 then Selected(count, NeedTwo)
    else if size.None? then Selected(count, NoEstimate)
    else
      var t := Stacker.EstimateProcessingTime(count, size.value.0, size.value.1);
      Selected(count, if t < 60.0 then Seconds(t) else Minutes(t / 60.0))
  }

  /** The time an estimate label stands for, in seconds. */
  function ShownSeconds(e: Estimate): real {
    match e
    case Seconds(s) => s
    case Minutes(m) => m * 60.0
    case _ => 0.0
  }

  /** With at least two images and a readable first one, the label shows
      the processing-time estimate, in the unit its size calls for. */
  lemma ImageInfoShowsTheEstimate(count: nat, size: Option<(int, int)>)
    ensures ImageInfoOf(count, size).Prompt? <==> count == 0
    ensures count == 1 ==> ImageInfoOf(count, size) == Selected(1, NeedTwo)
    ensures count >= 2 && size.Some? ==>
      var t := Stacker.EstimateProcessingTime(count, size.value.0, size.value.1);
      var e := ImageInfoOf(count, size).estimate;
      && ShownSeconds(e) == t
      && (e.Seconds? <==> t < 60.0)
      && (e.Minutes? ==> e.minutes >= 1.0)
  {
  }

  // ---------------------------------------------------------- settings

  /** The values of the ten Tk variables that save_settings writes and
      load_settings reads back. */
  datatype WindowValues = WindowValues(settings: Settings, sigmaLow: real, sigmaHigh: real, quality: int)

  /** The Tk variables' initial values, which are also load_settings'
      fall-backs for every missing key. */
  const InitialValues := WindowValues(InitialSettings, 2.0, 2.0, 95)

  /** The contents of the stored settings file, key by key; a key the file
      lacks (or whose whole section it lacks) is None. */
  datatype StoredSettings = StoredSettings(threshold: Option<int>, minArea: Option<int>, maxArea: Option<int>,
                                           blur: Option<real>, maxFeatures: Option<int>, ransac: Option<real>,
                                           rule: Option<string>, sigmaLow: Option<real>,
                                           sigmaHigh: Option<real>, quality: Option<int>)

  /** `d.get(key, default)`. */
  function GetOr<T>(o: Option<T>, default: T): (r: T)
    ensures o.Some? ==> r == o.value
    ensures o.None? ==> r == default
  {
    if o.Some? then o.value else default
  }

  /** load_settings: without a readable file the initial values stay;
      otherwise each key takes the stored value, or its default when
      absent. */
  function LoadedValues(stored: Option<StoredSettings>): (v: WindowValues)
    ensures stored.None? ==> v == InitialValues
  {
    if stored.None? then InitialValues
    else
      var st := stored.value;
      WindowValues(Settings(GetOr(st.threshold, 50), GetOr(st.minArea, 3), GetOr(st.maxArea, 100),
                            GetOr(st.blur, 1.5), GetOr(st.maxFeatures, 500), GetOr(st.ransac, 5.0),
                            GetOr(st.rule, "average")),
                   GetOr(st.sigmaLow, 2.0), GetOr(st.sigmaHigh, 2.0), GetOr(st.quality, 95))
  }

  /** save_settings: the dictionary written holds every value. */
  function SavedSettings(v: WindowValues): StoredSettings {
    var s := v.settings;
    StoredSettings(Some(s.threshold), Some(s.minArea), Some(s.maxArea), Some(s.blur), Some(s.maxFeatures),
                   Some(s.ransac), Some(s.rule), Some(v.sigmaLow), Some(v.sigmaHigh), Some(v.quality))
  }

  /** Saving and loading again restores every value. */
  lemma SaveThenLoadRestores(v: WindowValues)
    ensures LoadedValues(Some(SavedSettings(v))) == v
  {
  }

  /** A stored file that holds none of the keys loads like no file at all. */
  lemma EmptyFileIsNoFile()
    ensures LoadedValues(Some(StoredSettings(None, None, None, None, None, None, None, None, None, None)))
         == LoadedValues(None)
  {
  }

  // ------------------------------------------------------------ window

  class StackingWindow {
    const stacker: Stacker.AstroStacker
    /** What Image.open reports for a path: its size, or None when it fails. */
    const probe: string -> Option<(int, int)>
    var imagePaths: seq<string>
    var settings: Settings
    var sigmaLow: real
    var sigmaHigh: real
    var quality: int
    var outputPath: string
    var info: ImageInfo
    /** The processing thread is alive: start disabled, cancel enabled. */
    var running: bool
    var progressValue: real
    var resultImage: Option<Stacker.Frame>
    var outcome: Option<Outcome>

    /** __init__, whose load_settings reads the stored settings file
        (None when it is missing or unreadable). */
    constructor(kit: Stacker.Toolkit, probe: string -> Option<(int, int)>, stored: Option<StoredSettings>)
      ensures this.probe == probe && fresh(stacker) && stacker.kit == kit
      ensures imagePaths == [] && Values() == LoadedValues(stored)
      ensures outputPath == "" && info == Prompt
      ensures !running && progressValue == 0.0 && resultImage.None? && outcome.None?
    {
      stacker := new Stacker.AstroStacker(kit);
      this.probe := probe;
      imagePaths := [];
      var v := LoadedValues(stored);
      settings := v.settings;
      sigmaLow := v.sigmaLow;
      sigmaHigh := v.sigmaHigh;
      quality := v.quality;
      outputPath := "";
      info := Prompt;
      running := false;
      progressValue := 0.0;
      resultImage := None;
      outcome := None;
    }

    /** The ten values save_settings writes. */
    function Values(): WindowValues
      reads this
    {
      WindowValues(settings, sigmaLow, sigmaHigh, quality)
    }

    /** save_settings: the dictionary written to the settings file, from
        which load_settings restores the current values. */
    method SaveSettings() returns (file: StoredSettings)
      ensures file == SavedSettings(Values())
      ensures LoadedValues(Some(file)) == Values()
    {
      file := SavedSettings(Values());
      SaveThenLoadRestores(Values());
    }

    function Opens(): string -> bool
      reads this
    {
      (f: string) => probe(f).Some?
    }

    /** update_image_info. */
    method UpdateImageInfo()
      modifies this
      ensures info == ImageInfoOf(|imagePaths|, if |imagePaths| >= 2 then probe(imagePaths[0]) else None)
      ensures imagePaths == old(imagePaths) && settings == old(settings) && outputPath == old(outputPath)
      ensures running == old(running) && progressValue == old(progressValue)
      ensures resultImage == old(resultImage) && outcome == old(outcome)
      ensures sigmaLow == old(sigmaLow) && sigmaHigh == old(sigmaHigh) && quality == old(quality)
    {
      var count := |imagePaths|;
      if count == 0 {
        info := Prompt;
      } else if count < 2 {
        info := Selected(count, NeedTwo);
      } else {
        var size := probe(imagePaths[0]);
        if size.None? {
          info := Selected(count, NoEstimate);
        } else {
          var t := Stacker.EstimateProcessingTime(count, size.value.0, size.value.1);
          if t < 60.0 {
            info := Selected(count, Seconds(t));
          } else {
            info := Selected(count, Minutes(t / 60.0));
          }
        }
      }
    }

    /** add_image_files: each file not yet listed that opens is appended, in
        order; then the image-count text is refreshed. */
    method AddImageFiles(files: seq<string>)
      modifies this
      ensures imagePaths == Added(old(imagePaths), files, Opens())
      ensures info == ImageInfoOf(|imagePaths|, if |imagePaths| >= 2 then probe(imagePaths[0]) else None)
      ensures settings == old(settings) && outputPath == old(outputPath)
      ensures running == old(running) && progressValue == old(progressValue)
      ensures resultImage == old(resultImage) && outcome == old(outcome)
      ensures sigmaLow == old(sigmaLow) && sigmaHigh == old(sigmaHigh) && quality == old(quality)
    {
      for n := 0 to |files|
        invariant imagePaths == AddedUpTo(old(imagePaths), files, Opens(), n)
        invariant settings == old(settings) && outputPath == old(outputPath)
        invariant running == old(running) && progressValue == old(progressValue)
        invariant resultImage == old(resultImage) && outcome == old(outcome)
        invariant sigmaLow == old(sigmaLow) && sigmaHigh == old(sigmaHigh) && quality == old(quality)
      {
        var f := files[n];
        if f !in imagePaths && probe(f).Some? {
          imagePaths := imagePaths + [f];
        }
      }
      UpdateImageInfo();
    }

    /** remove_selected on the rows whose serial numbers are given. */
    method RemoveSelected(serials: seq<int>)
      modifies this
      ensures imagePaths == RemovedSelection(old(imagePaths), serials)
      ensures serials != [] ==>
        info == ImageInfoOf(|imagePaths|, if |imagePaths| >= 2 then probe(imagePaths[0]) else None)
      ensures serials == [] ==> info == old(info)
      ensures settings == old(settings) && outputPath == old(outputPath)
      ensures running == old(running) && progressValue == old(progressValue)
      ensures resultImage == old(resultImage) && outcome == old(outcome)
      ensures sigmaLow == old(sigmaLow) && sigmaHigh == old(sigmaHigh) && quality == old(quality)
    {
      if serials == [] {
        return;
      }
      imagePaths := DeleteInTurn(imagePaths, Descending(Positions(serials)));
      UpdateImageInfo();
    }

    /** load_preset: a known name sets the seven values, any other name
        changes nothing. */
    method LoadPreset(name: string)
      modifies this
      ensures settings == if Preset(name).Some? then Preset(name).value else old(settings)
      ensures imagePaths == old(imagePaths) && outputPath == old(outputPath) && info == old(info)
      ensures running == old(running) && progressValue == old(progressValue)
      ensures resultImage == old(resultImage) && outcome == old(outcome)
      ensures sigmaLow == old(sigmaLow) && sigmaHigh == old(sigmaHigh) && quality == old(quality)
    {
      var preset := Preset(name);
      if preset.Some? {
        settings := preset.value;
      }
    }

    /** update_stacker_params: the window's values into the stacker's
        parameter tables; the match threshold, the rejection ratio and the
        sigma_clip flag keep theirs. */
    method UpdateStackerParams()
      modifies stacker
      ensures stacker.starParams == StarParamsOf(settings)
      ensures stacker.alignParams
        == old(stacker.alignParams).(maxFeatures := settings.maxFeatures, ransacThreshold := settings.ransac)
      ensures stacker.stackParams
        == old(stacker.stackParams).(rule := settings.rule, sigmaLow := sigmaLow, sigmaHigh := sigmaHigh)
      ensures stacker.images == old(stacker.images) && stacker.cancelFlag == old(stacker.cancelFlag)
      ensures stacker.alignedImages == old(stacker.alignedImages)
      ensures stacker.referenceImage == old(stacker.referenceImage)
      ensures stacker.progress == old(stacker.progress) && stacker.reporting == old(stacker.reporting)
    {
      stacker.starParams := StarParamsOf(settings);
      stacker.alignParams := stacker.alignParams.(maxFeatures := settings.maxFeatures,
                                                  ransacThreshold := settings.ransac);
      stacker.stackParams := stacker.stackParams.(rule := settings.rule, sigmaLow := sigmaLow,
                                                  sigmaHigh := sigmaHigh);
    }

    /** start_stacking at the given time (int(time.time())): refused, with
        nothing changed, for fewer than two images or images that do not
        validate; otherwise an empty output path becomes the generated name
        beside the first image, the stacker gets the window's parameters and
        the run starts from progress 0. */
    method StartStacking(seconds: nat) returns (started: bool)
      modifies this, stacker
      ensures started <==> |imagePaths| >= 2 && Stacker.Validate(probe, imagePaths) == Stacker.Valid
      ensures !started ==>
        && running == old(running) && outputPath == old(outputPath) && progressValue == old(progressValue)
        && stacker.starParams == old(stacker.starParams) && stacker.alignParams == old(stacker.alignParams)
        && stacker.stackParams == old(stacker.stackParams)
      ensures started ==>
        && running && progressValue == 0.0
        && outputPath == (if old(outputPath) == "" then Beside(imagePaths[0], AutoName(seconds))
                          else old(outputPath))
        && stacker.starParams == StarParamsOf(settings)
        && stacker.alignParams
           == old(stacker.alignParams).(maxFeatures := settings.maxFeatures, ransacThreshold := settings.ransac)
        && stacker.stackParams
           == old(stacker.stackParams).(rule := settings.rule, sigmaLow := sigmaLow, sigmaHigh := sigmaHigh)
      ensures imagePaths == old(imagePaths) && settings == old(settings) && info == old(info)
      ensures sigmaLow == old(sigmaLow) && sigmaHigh == old(sigmaHigh) && quality == old(quality)
      ensures resultImage == old(resultImage) && outcome == old(outcome)
      ensures stacker.cancelFlag == old(stacker.cancelFlag) && stacker.images == old(stacker.images)
      ensures stacker.alignedImages == old(stacker.alignedImages)
      ensures stacker.referenceImage == old(stacker.referenceImage)
      ensures stacker.progress == old(stacker.progress) && stacker.reporting == old(stacker.reporting)
    {
      if |imagePaths| < 2 {
        return false;
      }
      var validation := Stacker.ValidateImages(probe, imagePaths);
      if validation != Stacker.Valid {
        return false;
      }
      if outputPath == "" {
        outputPath := Beside(imagePaths[0], AutoName(seconds));
      }
      UpdateStackerParams();
      running := true;
      progressValue := 0.0;
      started := true;
    }

    /** cancel_stacking: only a live run is cancelled. */
    method CancelStacking()
      modifies stacker
      ensures stacker.cancelFlag == (old(stacker.cancelFlag) || running)
      ensures stacker.images == old(stacker.images) && stacker.starParams == old(stacker.starParams)
      ensures stacker.alignParams == old(stacker.alignParams) && stacker.stackParams == old(stacker.stackParams)
      ensures stacker.alignedImages == old(stacker.alignedImages)
      ensures stacker.referenceImage == old(stacker.referenceImage)
      ensures stacker.progress == old(stacker.progress) && stacker.reporting == old(stacker.reporting)
    {
      if running {
        stacker.CancelProcessing();
      }
    }

    /** The end of process_stacking with the run's result, and the handler
        it schedules: the result is saved (save stands for save_result) only
        when present and not cancelled; a completed run keeps its result and
        shows 100, a cancelled one shows 0; every outcome ends the run. */
    method ProcessStacking(result: Option<Stacker.Frame>, save: (Stacker.Frame, string, int) -> bool)
      returns (o: Outcome)
      modifies this
      ensures o == Dispatch(result, stacker.cancelFlag,
                            result.Some? && save(result.value, outputPath, quality))
      ensures outcome == Some(o) && !running
      ensures o == Completed ==> resultImage == result && progressValue == 100.0
      ensures o == Cancelled ==> resultImage == old(resultImage) && progressValue == 0.0
      ensures o in {SaveFailed, Failed} ==> resultImage == old(resultImage) && progressValue == old(progressValue)
      ensures imagePaths == old(imagePaths) && settings == old(settings) && outputPath == old(outputPath)
      ensures info == old(info) && quality == old(quality)
      ensures sigmaLow == old(sigmaLow) && sigmaHigh == old(sigmaHigh)
    {
      if result.Some? && !stacker.cancelFlag {
        var saved := save(result.value, outputPath, quality);
        if saved {
          o := Completed;
          resultImage := result;
          progressValue := 100.0;
        } else {
          o := SaveFailed;
        }
      } else if stacker.cancelFlag {
        o := Cancelled;
        progressValue := 0.0;
      } else {
        o := Failed;
      }
      running := false;
      outcome := Some(o);
    }
  }
}
