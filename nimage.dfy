/**
 * `nImage`: which reader opens an image, the at most two attempts to open it,
 * the per-dimension layer properties, layer names, and the split of the image
 * into napari layer tuples.
 *
 * Opening a `BioImage` and loading its squeezed data are foreign: an oracle
 * gives, for a reader argument, either what the opened image exposes or
 * `None` for an unsupported file.
 */
module NImage {
  import opened Wrappers
  import opened Text
  import opened Paths
  import opened Lists
  import opened LayerUtils

  /** bioio's dimension names that the code tests for. */
  const MosaicTile: string := "M"
  const Channel: string := "C"
  const Samples: string := "S"

  const DefaultScene: string := "Image:0"
  const Delim: string := " :: "
  const UnknownPath: string := "unknown path"
  const ChannelPrefix: string := "channel_"

  // ---------------------------------------------------------------------------
  // Reader resolution and opening
  // ---------------------------------------------------------------------------

  /** What `nImage` accepts: a `str` path, a `Path`, or in-memory array data. */
  datatype ImageLike = StrPath(s: string) | PathObject(p: string) | ArrayData(id: nat)

  /** `isinstance(image, str | Path)`. */
  predicate IsPath(image: ImageLike)
  {
    image.StrPath? || image.PathObject?
  }

  /** `Path(image) if isinstance(image, str | Path) else None`. */
  function PathOf(image: ImageLike): (r: Option<string>)
    ensures r.Some? <==> IsPath(image)
  {
    match image
    case StrPath(s) => Some(s)
    case PathObject(p) => Some(p)
    case ArrayData(_) => None
  }

  /** A reader argument: one reader class or a priority list, each named by the plugin providing it. */
  datatype ReaderArg = OneReader(plugin: string) | ReaderSequence(plugins: seq<string>)

  /**
   * `_resolve_reader`: `preferred` is the configured preferred reader and
   * `installed` what `get_installed_plugins` reports.
   */
  function ResolveReader(image: ImageLike, explicit: Option<ReaderArg>, preferred: Option<string>, installed: set<string>)
    : (r: Option<ReaderArg>)
    ensures explicit.Some? ==> r == explicit
    ensures explicit.None? ==>
      (r.Some? <==> IsPath(image) && preferred.Some? && preferred.value != "" && preferred.value in installed)
    ensures explicit.None? && r.Some? ==> r == Some(OneReader(preferred.value))
  {
    if explicit.Some? then explicit
    else if !IsPath(image) then None
    else if preferred.None? || preferred.value == "" then None
    else if preferred.value !in installed then None
    else Some(OneReader(preferred.value))
  }

  /** A dimension of the squeezed data: its name and its length. */
  datatype Dim = Dim(name: string, size: nat)

  /** The squeezed data array: its dimensions in order and, per coordinate, its values as text. */
  datatype LayerArray = LayerArray(dims: seq<Dim>, coords: map<string, seq<string>>)

  /**
   * What an opened `BioImage` exposes to `nImage`:
   * the reader's dimension order, the scenes and the current one, the squeezed
   * data (`None` for mosaic data when the reader cannot give it), the physical
   * scale per dimension (`None` when reading it raises `AttributeError`; a
   * missing key is a missing or `None` attribute), the unit per dimension
   * (likewise), the layer metadata, and the file and memory sizes that
   * decide in-memory loading.
   */
  datatype BioView = BioView(
    readerDims: seq<string>,
    scenes: seq<string>,
    currentSceneIndex: nat,
    currentScene: string,
    data: LayerArray,
    mosaicData: Option<LayerArray>,
    scale: Option<map<string, real>>,
    units: Option<map<string, Option<string>>>,
    metadata: Value,
    fileSize: real,
    availableMem: real)

  /** `UnsupportedFileFormatError` as re-raised, or as enriched with plugin suggestions for a path. */
  datatype OpenError = Unsupported | UnsupportedWithSuggestions(path: string)

  /** The error construction ends with when no attempt succeeds. */
  function OpenFailure(image: ImageLike): (e: OpenError)
    ensures e.UnsupportedWithSuggestions? <==> IsPath(image)
  {
    match image
    case StrPath(s) => UnsupportedWithSuggestions(s)
    case PathObject(p) => UnsupportedWithSuggestions(p)
    case ArrayData(_) => Unsupported
  }

  /** The readers tried, in order, and how opening ended. */
  datatype Opening = Opening(attempts: seq<Option<ReaderArg>>, outcome: Result<BioView, OpenError>)

  /** The open-with-fallback of `nImage.__init__`, given the resolved reader. */
  function OpenWithFallback(image: ImageLike, resolved: Option<ReaderArg>, bioOpen: Option<ReaderArg> -> Option<BioView>)
    : (o: Opening)
  {
    var first := bioOpen(resolved);
    if first.Some? then Opening([resolved], Success(first.value))
    else if resolved.None? then Opening([None], Failure(OpenFailure(image)))
    else
      var second := bioOpen(None);
      if second.Some? then Opening([resolved, None], Success(second.value))
      else Opening([resolved, None], Failure(OpenFailure(image)))
  }

  /**
   * At most two attempts: the resolved reader first, then bioio's own choice
   * only when a resolved reader failed. Opening succeeds exactly when the last
   * attempt does, and the suggestion error is raised only for path inputs.
   */
  lemma OpenAttempts(image: ImageLike, resolved: Option<ReaderArg>, bioOpen: Option<ReaderArg> -> Option<BioView>)
    ensures var o := OpenWithFallback(image, resolved, bioOpen);
      && 1 <= |o.attempts| <= 2
      && o.attempts[0] == resolved
      && (|o.attempts| == 2 <==> resolved.Some? && bioOpen(resolved).None?)
      && (|o.attempts| == 2 ==> o.attempts[1] == None)
      && (o.outcome.Success? <==> bioOpen(o.attempts[|o.attempts| - 1]).Some?)
      && (o.outcome.Success? ==> o.outcome.value == bioOpen(o.attempts[|o.attempts| - 1]).value)
      && (o.outcome.Failure? ==> o.outcome.error == OpenFailure(image))
  {
  }

  /** Without a resolved reader there is exactly one attempt, with bioio's own choice. */
  lemma NoResolvedReaderOneAttempt(image: ImageLike, bioOpen: Option<ReaderArg> -> Option<BioView>)
    ensures OpenWithFallback(image, None, bioOpen).attempts == [None]
  {
  }

  /** Array input never gets the suggestion error; path input always does when nothing opens it. */
  lemma SuggestionsOnlyForPaths(image: ImageLike, resolved: Option<ReaderArg>,
                                bioOpen: Option<ReaderArg> -> Option<BioView>)
    requires OpenWithFallback(image, resolved, bioOpen).outcome.Failure?
    ensures IsPath(image) ==>
      OpenWithFallback(image, resolved, bioOpen).outcome.error == UnsupportedWithSuggestions(PathOf(image).value)
    ensures !IsPath(image) ==> OpenWithFallback(image, resolved, bioOpen).outcome.error == Unsupported
  {
  }

  // ---------------------------------------------------------------------------
  // Loading and the per-dimension properties
  // ---------------------------------------------------------------------------

  /** Loaded layer data and whether it is held in memory (rather than as a dask array). */
  datatype Loaded = Loaded(content: LayerArray, inMemory: bool)

  /** `_load_layer_data`: mosaic data when the reader has a mosaic-tile dimension, else the plain data. */
  function LoadedData(bio: BioView, path: Option<string>, inMemory: Option<bool>): (r: Option<Loaded>)
    ensures MosaicTile !in bio.readerDims ==> r.Some? && r.value.content == bio.data
    ensures MosaicTile in bio.readerDims ==> (r.Some? <==> bio.mosaicData.Some?)
    ensures r.Some? && inMemory.Some? ==> r.value.inMemory == inMemory.value
    ensures r.Some? && inMemory.None? && path.None? ==> r.value.inMemory
    ensures MosaicTile in bio.readerDims && r.Some? ==> r.value.content == bio.mosaicData.value
  {
    var mem := if inMemory.Some? then inMemory.value
               else DetermineInMemory(path, bio.fileSize, bio.availableMem, MaxInMemBytes, MaxInMemPercent);
    if MosaicTile in bio.readerDims then
      match bio.mosaicData
      case None => None
      case Some(a) => Some(Loaded(a, mem))
    else Some(Loaded(bio.data, mem))
  }

  /** The array's `dims`: its dimension names, in order. */
  function DimNames(dims: seq<Dim>): (r: seq<string>)
    ensures |r| == |dims|
    ensures forall i :: 0 <= i < |dims| ==> r[i] == dims[i].name
  {
    seq(|dims|, i requires 0 <= i < |dims| => dims[i].name)
  }

  /** The test `layer_axis_labels` applies to each dimension name. */
  function IsAxisLabel(): string -> bool
  {
    d => d != Channel && d != Samples
  }

  /** `layer_axis_labels`. */
  function AxisLabels(data: Option<Loaded>): seq<string>
  {
    match data
    case None => []
    case Some(l) => Filter(DimNames(l.content.dims), IsAxisLabel())
  }

  /** The axis labels are the data's dimensions without C and S, in order; none without data. */
  lemma AxisLabelsExactly(data: Option<Loaded>)
    ensures data.None? ==> AxisLabels(data) == []
    ensures data.Some? ==>
      var dims := DimNames(data.value.content.dims);
      (forall d :: d in AxisLabels(data) <==> d in dims && d != Channel && d != Samples)
      && (forall i, j :: 0 <= i < j < |AxisLabels(data)| ==> InOrder(dims, AxisLabels(data)[i], AxisLabels(data)[j]))
  {
    if data.Some? {
      FilterOrdered(DimNames(data.value.content.dims), IsAxisLabel());
    }
  }

  /** The scale of one dimension: `getattr(bio_scale, dim, None) or 1.0`. */
  function ScaleOf(scale: map<string, real>, dim: string): real
  {
    if dim in scale && scale[dim] != 0.0 then scale[dim] else 1.0
  }

  /** `layer_scale`: one entry per axis label. */
  function LayerScale(labels: seq<string>, scale: Option<map<string, real>>): (r: seq<real>)
    ensures |r| == |labels|
  {
    match scale
    case None => seq(|labels|, _ => 1.0)
    case Some(s) => seq(|labels|, i requires 0 <= i < |labels| => ScaleOf(s, labels[i]))
  }

  /**
   * A scale entry is the metadata's value where there is a non-zero one, and
   * 1.0 where the value is missing or zero or the scale cannot be read; so
   * no entry is ever zero.
   */
  lemma LayerScaleEntries(labels: seq<string>, scale: Option<map<string, real>>, i: int)
    requires 0 <= i < |labels|
    ensures scale.None? ==> LayerScale(labels, scale)[i] == 1.0
    ensures scale.Some? && labels[i] in scale.value && scale.value[labels[i]] != 0.0 ==>
      LayerScale(labels, scale)[i] == scale.value[labels[i]]
    ensures scale.Some? && (labels[i] !in scale.value || scale.value[labels[i]] == 0.0) ==>
      LayerScale(labels, scale)[i] == 1.0
    ensures LayerScale(labels, scale)[i] != 0.0
  {
  }

  /** `layer_units`: one entry per axis label, `None` where there is no unit. */
  function LayerUnits(labels: seq<string>, units: Option<map<string, Option<string>>>): (r: seq<Option<string>>)
    ensures |r| == |labels|
    ensures units.None? ==> forall i :: 0 <= i < |labels| ==> r[i] == None
    ensures units.Some? ==> forall i :: 0 <= i < |labels| ==>
      r[i] == (if labels[i] in units.value then units.value[labels[i]] else None)
  {
    match units
    case None => seq(|labels|, _ => None)
    case Some(u) => seq(|labels|, i requires 0 <= i < |labels| => if labels[i] in u then u[labels[i]] else None)
  }

  // ---------------------------------------------------------------------------
  // Layer names
  // ---------------------------------------------------------------------------

  /** Scene information goes into the name for multi-scene files and for a non-default scene. */
  predicate ShowsScene(bio: BioView)
  {
    |bio.scenes| > 1 || bio.currentScene != DefaultScene
  }

  /** The last part of every layer name. */
  function PathStem(path: Option<string>): string
  {
    match path
    case None => UnknownPath
    case Some(p) => Stem(Name(p))
  }

  /** The parts `_build_layer_name` joins. */
  function NameParts(channelName: Option<string>, bio: BioView, path: Option<string>): seq<string>
  {
    (if channelName.Some? && channelName.value != "" then [channelName.value] else [])
    + (if ShowsScene(bio) then [DecimalString(bio.currentSceneIndex), bio.currentScene] else [])
    + [PathStem(path)]
  }

  /** `_build_layer_name`. */
  function LayerName(channelName: Option<string>, bio: BioView, path: Option<string>): string
  {
    Join(Delim, NameParts(channelName, bio, path))
  }

  /**
   * A layer name starts with the channel name when there is one, ends with
   * the path stem (or `unknown path`), and shows the scene index and name in
   * between exactly when the scene is shown.
   */
  lemma LayerNameShape(channelName: Option<string>, bio: BioView, path: Option<string>)
    ensures var parts := NameParts(channelName, bio, path);
      var channelShown := channelName.Some? && channelName.value != "";
      && |parts| == (if channelShown then 1 else 0) + (if ShowsScene(bio) then 2 else 0) + 1
      && (channelShown ==> parts[0] == channelName.value)
      && (ShowsScene(bio) ==>
            var k := if channelShown then 1 else 0;
            parts[k] == DecimalString(bio.currentSceneIndex) && parts[k + 1] == bio.currentScene)
      && parts[|parts| - 1] == PathStem(path)
    ensures channelName.Some? && channelName.value != "" ==>
      StartsWith(LayerName(channelName, bio, path), channelName.value)
    ensures EndsWith(LayerName(channelName, bio, path), PathStem(path))
  {
    var parts := NameParts(channelName, bio, path);
    JoinStartsWithFirst(Delim, parts);
    JoinEndsWithLast(Delim, parts);
  }

  /** A single-scene image in the default scene, without a channel name, is named by its stem alone. */
  lemma PlainLayerName(bio: BioView, path: Option<string>)
    requires !ShowsScene(bio)
    ensures LayerName(None, bio, path) == PathStem(path)
  {
  }

  /** Without a channel name but with the scene shown: index, scene and stem. */
  lemma SceneLayerName(bio: BioView, path: Option<string>)
    requires ShowsScene(bio)
    ensures LayerName(None, bio, path) ==
      DecimalString(bio.currentSceneIndex) + Delim + bio.currentScene + Delim + PathStem(path)
  {
    var parts := NameParts(None, bio, path);
    assert parts == [DecimalString(bio.currentSceneIndex), bio.currentScene, PathStem(path)];
    assert Join(Delim, parts[1..]) == bio.currentScene + Delim + PathStem(path);
  }

  // ---------------------------------------------------------------------------
  // Layer tuples
  // ---------------------------------------------------------------------------

  /** The data of a layer tuple: the whole squeezed array `source`, or its `index`-th slice along `axis`. */
  datatype ArrayRef = WholeArray(source: LayerArray) | ChannelSlice(source: LayerArray, axis: nat, index: nat)

  /** Why `get_layer_data_tuples` fails: no data could be loaded, or the channel dimension has no coordinate. */
  datatype TuplesError = NoLayerData | NoChannelCoordinate

  /** The options of `get_layer_data_tuples` that shape the tuples. */
  datatype Overrides = Overrides(
    layerType: Option<string>,
    channelTypes: Option<map<string, string>>,
    channelKwargs: Option<map<string, map<string, Value>>>)

  /** A global layer type makes the per-channel types irrelevant. */
  function EffectiveChannelTypes(o: Overrides): Option<map<string, string>>
  {
    if o.layerType.Some? then None else o.channelTypes
  }

  /** `channel_kwargs.get(channel_name) if channel_kwargs else None`. */
  function ChannelExtra(o: Overrides, channelName: string): Option<map<string, Value>>
  {
    if o.channelKwargs.Some? && o.channelKwargs.value != map[] && channelName in o.channelKwargs.value then
      Some(o.channelKwargs.value[channelName])
    else None
  }

  /** The first position of `x` in `s`: `list.index`. */
  function IndexOf(s: seq<string>, x: string): (r: nat)
    requires x in s
    ensures r < |s| && s[r] == x
    ensures forall k :: 0 <= k < r ==> s[k] != x
  {
    if s[0] == x then 0 else 1 + IndexOf(s[1..], x)
  }

  /** The name of channel `i`: its coordinate value, or `channel_{i}` past the end of the coordinates. */
  function ChannelName(names: seq<string>, i: nat): string
  {
    if i < |names| then names[i] else ChannelPrefix + DecimalString(i)
  }

  /** What every tuple of one image shares. */
  datatype Shared = Shared(metadata: Value, scale: seq<real>, axisLabels: seq<string>, units: seq<Option<string>>)

  function SharedOf(bio: BioView, l: Loaded): Shared
  {
    var labels := AxisLabels(Some(l));
    Shared(bio.metadata, LayerScale(labels, bio.scale), labels, LayerUnits(labels, bio.units))
  }

  function TupleOf(data: ArrayRef, layerType: string, name: string, sh: Shared, channelIdx: int, totalChannels: int,
                   rgb: bool, extra: Option<map<string, Value>>): LayerTuple<ArrayRef>
  {
    LayerTuple(data, LayerKwargs(layerType, name, sh.metadata, sh.scale, sh.axisLabels, sh.units, channelIdx,
                                 totalChannels, rgb, extra), layerType)
  }

  /** The one tuple of an RGB image. */
  function RgbTuple(bio: BioView, path: Option<string>, l: Loaded, sh: Shared): LayerTuple<ArrayRef>
  {
    TupleOf(WholeArray(l.content), Image, LayerName(None, bio, path), sh, 0, 1, true, None)
  }

  /** The one tuple of an image without a channel dimension. */
  function SingleTuple(bio: BioView, path: Option<string>, l: Loaded, sh: Shared, o: Overrides): LayerTuple<ArrayRef>
  {
    var channelName := SingleChannelName(l.content.coords, Channel);
    var name := if channelName.Some? then channelName.value else "";
    var layerType := ResolveLayerType(name, o.layerType, EffectiveChannelTypes(o));
    var extra := if name != "" then ChannelExtra(o, name) else None;
    TupleOf(WholeArray(l.content), layerType, LayerName(channelName, bio, path), sh, 0, 1, false, extra)
  }

  /** The tuple of channel `i` out of `total`, sliced from `source` along `axis`. */
  function ChannelTuple(bio: BioView, path: Option<string>, source: LayerArray, names: seq<string>, axis: nat, total: nat,
                        sh: Shared, o: Overrides, i: nat): LayerTuple<ArrayRef>
  {
    var name := ChannelName(names, i);
    var layerType := ResolveLayerType(name, o.layerType, EffectiveChannelTypes(o));
    TupleOf(ChannelSlice(source, axis, i), layerType, LayerName(Some(name), bio, path), sh, i, total, false, ChannelExtra(o, name))
  }

  /** `get_layer_data_tuples` once the data is loaded. */
  function LayerTuples(bio: BioView, path: Option<string>, l: Loaded, o: Overrides)
    : Result<seq<LayerTuple<ArrayRef>>, TuplesError>
  {
    var sh := SharedOf(bio, l);
    var dims := DimNames(l.content.dims);
    if Samples in bio.readerDims then Success([RgbTuple(bio, path, l, sh)])
    else if Channel !in dims then Success([SingleTuple(bio, path, l, sh, o)])
    else if Channel !in l.content.coords then Failure(NoChannelCoordinate)
    else
      var axis := IndexOf(dims, Channel);
      var total := l.content.dims[axis].size;
      var names := l.content.coords[Channel];
      Success(SplitChannels(bio, path, l.content, names, axis, total, sh, o))
  }

  /** One tuple per channel, in channel order. */
  function SplitChannels(bio: BioView, path: Option<string>, source: LayerArray, names: seq<string>, axis: nat,
                         total: nat, sh: Shared, o: Overrides): (ts: seq<LayerTuple<ArrayRef>>)
    ensures |ts| == total
    ensures forall i :: 0 <= i < total ==> ts[i] == ChannelTuple(bio, path, source, names, axis, total, sh, o, i)
  {
    seq(total, i requires 0 <= i < total => ChannelTuple(bio, path, source, names, axis, total, sh, o, i))
  }

  /** An image whose reader has a samples dimension gives exactly one RGB image tuple, without colormap. */
  lemma RgbGivesOneTuple(bio: BioView, path: Option<string>, l: Loaded, o: Overrides)
    requires Samples in bio.readerDims
    ensures LayerTuples(bio, path, l, o).Success?
    ensures var ts := LayerTuples(bio, path, l, o).value;
      |ts| == 1 && ts[0].layerType == Image && ts[0].data == WholeArray(l.content)
      && ts[0].kwargs["rgb"] == Flag(true) && "colormap" !in ts[0].kwargs && "blending" !in ts[0].kwargs
  {
    var sh := SharedOf(bio, l);
    DefaultKwargsShape(Image, LayerName(None, bio, path), sh.metadata, sh.scale, sh.axisLabels, sh.units, 0, 1, true);
  }

  /**
   * Without samples and without a channel dimension there is exactly one
   * tuple, of the whole array, typed from the single-channel name and named
   * after it unless that channel's extra kwargs set the name.
   */
  lemma NoChannelGivesOneTuple(bio: BioView, path: Option<string>, l: Loaded, o: Overrides)
    requires Samples !in bio.readerDims && Channel !in DimNames(l.content.dims)
    ensures LayerTuples(bio, path, l, o).Success?
    ensures var ts := LayerTuples(bio, path, l, o).value;
      var channelName := SingleChannelName(l.content.coords, Channel);
      var name := if channelName.Some? then channelName.value else "";
      var extra := if name != "" then ChannelExtra(o, name) else None;
      && |ts| == 1 && ts[0].data == WholeArray(l.content)
      && ts[0].layerType == ResolveLayerType(name, o.layerType, EffectiveChannelTypes(o))
      && (extra.None? || "name" !in extra.value ==>
            "name" in ts[0].kwargs && ts[0].kwargs["name"] == Text(LayerName(channelName, bio, path)))
  {
    var channelName := SingleChannelName(l.content.coords, Channel);
    var name := if channelName.Some? then channelName.value else "";
    var extra := if name != "" then ChannelExtra(o, name) else None;
    var layerType := ResolveLayerType(name, o.layerType, EffectiveChannelTypes(o));
    var sh := SharedOf(bio, l);
    var layerName := LayerName(channelName, bio, path);
    DefaultKwargsShape(layerType, layerName, sh.metadata, sh.scale, sh.axisLabels, sh.units, 0, 1, false);
    if extra.Some? {
      ExtraKwargsWin(layerType, layerName, sh.metadata, sh.scale, sh.axisLabels, sh.units, 0, 1, false, extra.value);
    }
  }

  /**
   * Otherwise there is one tuple per channel, in channel order: tuple `i`
   * holds slice `i` along the channel axis, has that channel's resolved type
   * and the kwargs of channel `i` of `|ts|`, and is named after its channel
   * (the coordinate, or `channel_{i}`) unless its extra kwargs set the name.
   */
  lemma OneTuplePerChannel(bio: BioView, path: Option<string>, l: Loaded, o: Overrides, i: int)
    requires Samples !in bio.readerDims && Channel in DimNames(l.content.dims) && Channel in l.content.coords
    ensures LayerTuples(bio, path, l, o).Success?
    ensures var axis := IndexOf(DimNames(l.content.dims), Channel);
      var ts := LayerTuples(bio, path, l, o).value;
      |ts| == l.content.dims[axis].size
      && (0 <= i < |ts| ==>
            var name := ChannelName(l.content.coords[Channel], i);
            var sh := SharedOf(bio, l);
            var extra := ChannelExtra(o, name);
            && ts[i].data == ChannelSlice(l.content, axis, i)
            && ts[i].layerType == ResolveLayerType(name, o.layerType, EffectiveChannelTypes(o))
            && ts[i].kwargs == LayerKwargs(ts[i].layerType, LayerName(Some(name), bio, path), sh.metadata, sh.scale,
                                           sh.axisLabels, sh.units, i, |ts|, false, extra)
            && (extra.None? || "name" !in extra.value ==>
                  "name" in ts[i].kwargs && ts[i].kwargs["name"] == Text(LayerName(Some(name), bio, path)))
            && StartsWith(LayerName(Some(name), bio, path), name))
  {
    var axis := IndexOf(DimNames(l.content.dims), Channel);
    var total := l.content.dims[axis].size;
    if 0 <= i < total {
      var name := ChannelName(l.content.coords[Channel], i);
      if name != "" {
        LayerNameShape(Some(name), bio, path);
      }
      var sh := SharedOf(bio, l);
      var layerType := ResolveLayerType(name, o.layerType, EffectiveChannelTypes(o));
      var layerName := LayerName(Some(name), bio, path);
      var extra := ChannelExtra(o, name);
      DefaultKwargsShape(layerType, layerName, sh.metadata, sh.scale, sh.axisLabels, sh.units, i, total, false);
      if extra.Some? {
        ExtraKwargsWin(layerType, layerName, sh.metadata, sh.scale, sh.axisLabels, sh.units, i, total, false,
                       extra.value);
      }
    }
  }

  /** A global layer type is the type of every tuple of a non-RGB image, whatever the per-channel types say. */
  lemma GlobalTypeForAll(bio: BioView, path: Option<string>, l: Loaded, o: Overrides, t: string)
    requires Samples !in bio.readerDims && o.layerType == Some(t)
    requires LayerTuples(bio, path, l, o).Success?
    ensures forall k :: 0 <= k < |LayerTuples(bio, path, l, o).value| ==>
      LayerTuples(bio, path, l, o).value[k].layerType == t
  {
  }

  /**
   * Of the image-typed channel tuples whose extra kwargs leave blending alone,
   * only those after the first channel of a multi-channel image blend additively.
   */
  lemma ChannelBlending(bio: BioView, path: Option<string>, source: LayerArray, names: seq<string>, axis: nat,
                        total: nat, sh: Shared, o: Overrides, i: nat)
    requires var t := ChannelTuple(bio, path, source, names, axis, total, sh, o, i);
      t.layerType == Image && (ChannelExtra(o, ChannelName(names, i)).None? ||
                               "blending" !in ChannelExtra(o, ChannelName(names, i)).value)
    ensures var t := ChannelTuple(bio, path, source, names, axis, total, sh, o, i);
      "blending" in t.kwargs && (t.kwargs["blending"] == Text(Additive) <==> i > 0 && total > 1)
  {
    var name := ChannelName(names, i);
    var layerName := LayerName(Some(name), bio, path);
    DefaultKwargsShape(Image, layerName, sh.metadata, sh.scale, sh.axisLabels, sh.units, i, total, false);
    var extra := ChannelExtra(o, name);
    if extra.Some? {
      ExtraKwargsWin(Image, layerName, sh.metadata, sh.scale, sh.axisLabels, sh.units, i, total, false, extra.value);
    }
    BlendingAdditive(i, total);
  }

  // ---------------------------------------------------------------------------
  // Tuples from the image's state
  // ---------------------------------------------------------------------------

  /** What a `get_layer_data_tuples` call leaves cached, and what it gives. */
  datatype TuplesCall = TuplesCall(cached: Option<Loaded>, result: Result<seq<LayerTuple<ArrayRef>>, TuplesError>)

  /**
   * `get_layer_data_tuples` on an image showing `bio` with `cached` loaded:
   * (re)load when nothing is cached or `in_memory` is given, fall back on
   * the lazy `layer_data` load, fail when there is still no data.
   */
  function CallTuples(bio: BioView, path: Option<string>, cached: Option<Loaded>, inMemory: Option<bool>, o: Overrides)
    : TuplesCall
  {
    var first := if cached.None? || inMemory.Some? then LoadedData(bio, path, inMemory) else cached;
    var data := if first.Some? then first else LoadedData(bio, path, None);
    TuplesCall(data, if data.None? then Failure(NoLayerData) else LayerTuples(bio, path, data.value, o))
  }

  /**
   * Data already cached is used as it is, whatever the image shows now,
   * unless `in_memory` is given. Otherwise what is cached does not matter,
   * the data loaded from what the image shows is what stays cached (the
   * fallback load never rescues a failed load), and the call fails for
   * missing data exactly when nothing could be loaded.
   */
  lemma CachedDataUsed(bio: BioView, path: Option<string>, cached: Option<Loaded>, inMemory: Option<bool>,
                       o: Overrides)
    ensures cached.Some? && inMemory.None? ==>
      CallTuples(bio, path, cached, inMemory, o) == TuplesCall(cached, LayerTuples(bio, path, cached.value, o))
    ensures cached.None? || inMemory.Some? ==>
      && CallTuples(bio, path, cached, inMemory, o) == CallTuples(bio, path, None, inMemory, o)
      && CallTuples(bio, path, cached, inMemory, o).cached == LoadedData(bio, path, inMemory)
    ensures var c := CallTuples(bio, path, cached, inMemory, o);
      c.result == Failure(NoLayerData) <==> c.cached.None?
  {
  }

  // ---------------------------------------------------------------------------
  // The image object
  // ---------------------------------------------------------------------------

  class NImage {
    /** The opened `BioImage`, as its current scene shows it. */
    var bio: BioView
    /** What the opened image shows once `set_scene(s)` has selected scene `s`. */
    const sceneView: string -> BioView
    /** The source file, or `None` for array data. */
    var path: Option<string>
    /** The loaded data, once it has been loaded. */
    var layerData: Option<Loaded>

    /** The instance state `__init__` sets once opening succeeded. */
    constructor(image: ImageLike, bio: BioView, sceneView: string -> BioView)
      ensures this.bio == bio && this.sceneView == sceneView
      ensures path == PathOf(image) && layerData == None
    {
      this.bio := bio;
      this.sceneView := sceneView;
      path := PathOf(image);
      layerData := None;
    }

    /**
     * `set_scene`, which nImage inherits from `BioImage`: the image shows
     * scene `s`, and the data cached from the previous scene stays.
     */
    method SetScene(s: string)
      modifies this
      ensures bio == sceneView(s)
      ensures path == old(path) && layerData == old(layerData)
    {
      bio := sceneView(s);
    }

    /** `set_scene` as an nImage evidently needs it: switching scene drops the cached data. */
    method SetSceneReloading(s: string)
      modifies this
      ensures bio == sceneView(s)
      ensures path == old(path) && layerData == None
    {
      bio := sceneView(s);
      layerData := None;
    }

    /** `_load_layer_data`. */
    method LoadLayerData(inMemory: Option<bool>)
      modifies this
      ensures bio == old(bio) && path == old(path)
      ensures layerData == LoadedData(bio, path, inMemory)
    {
      var mem: bool;
      if inMemory.None? {
        mem := DetermineInMemory(path, bio.fileSize, bio.availableMem, MaxInMemBytes, MaxInMemPercent);
      } else {
        mem := inMemory.value;
      }
      if MosaicTile in bio.readerDims {
        if bio.mosaicData.Some? {
          layerData := Some(Loaded(bio.mosaicData.value, mem));
        } else {
          layerData := None;
        }
      } else {
        layerData := Some(Loaded(bio.data, mem));
      }
    }

    /** The `layer_data` property: loads on first access. */
    method GetLayerData() returns (d: Option<Loaded>)
      modifies this
      ensures bio == old(bio) && path == old(path)
      ensures layerData == (if old(layerData).Some? then old(layerData) else LoadedData(bio, path, None))
      ensures d == layerData
    {
      if layerData.None? {
        LoadLayerData(None);
      }
      d := layerData;
    }

    /**
     * `get_layer_data_tuples`: (re)loads the data when it is missing or
     * `in_memory` is given, fails when there still is none, and otherwise
     * builds the tuples from the loaded data.
     */
    method GetLayerDataTuples(inMemory: Option<bool>, o: Overrides)
      returns (r: Result<seq<LayerTuple<ArrayRef>>, TuplesError>)
      modifies this
      ensures bio == old(bio) && path == old(path)
      ensures TuplesCall(layerData, r) == CallTuples(bio, path, old(layerData), inMemory, o)
    {
      if layerData.None? || inMemory.Some? {
        LoadLayerData(inMemory);
      }
      var data := GetLayerData();
      if data.None? {
        return Failure(NoLayerData);
      }
      r := BuildTuples(data.value, o);
    }

    /** The tuples of the loaded data `l`: one RGB tuple, one single-channel tuple, or one per channel. */
    method BuildTuples(l: Loaded, o: Overrides) returns (r: Result<seq<LayerTuple<ArrayRef>>, TuplesError>)
      ensures r == LayerTuples(bio, path, l, o)
    {
      var sh := SharedOf(bio, l);
      if Samples in bio.readerDims {
        var t := BuildLayerTuple(WholeArray(l.content), Image, LayerName(None, bio, path), sh.metadata, sh.scale, sh.axisLabels,
                                 sh.units, 0, 1, true, None);
        return Success([t]);
      }
      var dims := DimNames(l.content.dims);
      if Channel !in dims {
        var channelName := SingleChannelName(l.content.coords, Channel);
        var name := if channelName.Some? then channelName.value else "";
        var layerType := ResolveLayerType(name, o.layerType, EffectiveChannelTypes(o));
        var extra := if name != "" then ChannelExtra(o, name) else None;
        var t := BuildLayerTuple(WholeArray(l.content), layerType, LayerName(channelName, bio, path), sh.metadata, sh.scale,
                                 sh.axisLabels, sh.units, 0, 1, false, extra);
        return Success([t]);
      }
      if Channel !in l.content.coords {
        return Failure(NoChannelCoordinate);
      }
      var axis := IndexOf(dims, Channel);
      var tuples := ChannelTuples(l.content, l.content.coords[Channel], axis, l.content.dims[axis].size, sh, o);
      r := Success(tuples);
    }

    /** The split loop: tuple `i` is channel `i` of `total`. */
    method ChannelTuples(source: LayerArray, names: seq<string>, axis: nat, total: nat, sh: Shared, o: Overrides)
      returns (tuples: seq<LayerTuple<ArrayRef>>)
      ensures tuples == SplitChannels(bio, path, source, names, axis, total, sh, o)
    {
      tuples := [];
      for i := 0 to total
        invariant |tuples| == i
        invariant forall k :: 0 <= k < i ==> tuples[k] == ChannelTuple(bio, path, source, names, axis, total, sh, o, k)
      {
        var name := ChannelName(names, i);
        var layerType := ResolveLayerType(name, o.layerType, EffectiveChannelTypes(o));
        var t := BuildLayerTuple(ChannelSlice(source, axis, i), layerType, LayerName(Some(name), bio, path), sh.metadata,
                                 sh.scale, sh.axisLabels, sh.units, i, total, false, ChannelExtra(o, name));
        tuples := tuples + [t];
      }
    }
  }

  /**
   * `nImage(image, reader)`: resolves the reader, opens with fallback, and
   * sets `path` exactly for path inputs. `bioOpen` is bioio's opening with a
   * given reader, and `sceneView` what the opened image shows per scene.
   */
  method Create(image: ImageLike, explicit: Option<ReaderArg>, preferred: Option<string>, installed: set<string>,
                bioOpen: Option<ReaderArg> -> Option<BioView>, sceneView: string -> BioView)
    returns (r: Result<NImage, OpenError>)
    ensures var o := OpenWithFallback(image, ResolveReader(image, explicit, preferred, installed), bioOpen);
      && (r.Success? <==> o.outcome.Success?)
      && (r.Success? ==> fresh(r.value) && r.value.bio == o.outcome.value && r.value.sceneView == sceneView
                         && r.value.path == PathOf(image) && r.value.layerData == None)
      && (r.Failure? ==> r.error == o.outcome.error)
  {
    var resolved := ResolveReader(image, explicit, preferred, installed);
    var got: Option<BioView>;
    if resolved.Some? {
      got := bioOpen(resolved);
      if got.None? {
        got := bioOpen(None);
      }
    } else {
      got := bioOpen(None);
    }
    if got.None? {
      return Failure(OpenFailure(image));
    }
    var img := new NImage(image, got.value, sceneView);
    r := Success(img);
  }
}
