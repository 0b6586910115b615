/**
 * Choosing a napari layer type from a channel name and shaping the
 * `(data, kwargs, layer_type)` tuple napari builds a layer from.
 */
module LayerUtils {
  import opened Wrappers
  import opened Text

  /** The values a layer-kwargs dictionary holds. */
  datatype Value =
    | Text(text: string)
    | Flag(flag: bool)
    | Reals(reals: seq<real>)
    | Texts(texts: seq<string>)
    | MaybeTexts(maybeTexts: seq<Option<string>>)
      /** What `get_colormap_for_channel(channel_idx, total_channels)` gives; that function is not part of this model. */
    | ColormapFor(channelIdx: int, totalChannels: int)
    | Record(fields: map<string, Value>)
      /** Any other object a caller passes through (a `BioImage`, raw reader metadata, a user value). */
    | Other(id: nat)

  /** `(data, layer_kwargs, layer_type)`. */
  datatype LayerTuple<D> = LayerTuple(data: D, kwargs: map<string, Value>, layerType: string)

  // ---------------------------------------------------------------------------
  // Layer type
  // ---------------------------------------------------------------------------

  /** `LABEL_KEYWORDS`; the source holds them in a frozenset, so their order means nothing. */
  const LabelKeywords: seq<string> := ["label", "mask", "segmentation", "seg", "roi"]

  const Labels: string := "labels"
  const Image: string := "image"

  /** Some label keyword occurs in the lower-cased channel name. */
  predicate HasLabelKeyword(channelName: string)
  {
    exists k | 0 <= k < |LabelKeywords| :: Contains(Lower(channelName), LabelKeywords[k])
  }

  /** `infer_layer_type`. */
  function InferLayerType(channelName: string): (r: string)
    ensures r == Labels || r == Image
    ensures r == Labels <==> HasLabelKeyword(channelName)
  {
    if HasLabelKeyword(channelName) then Labels else Image
  }

  /** The keywords are already lower case. */
  lemma KeywordsLower(k: int)
    requires 0 <= k < |LabelKeywords|
    ensures Lower(LabelKeywords[k]) == LabelKeywords[k]
  {
  }

  /** A name with a keyword anywhere in it, in any letter case, is a labels layer. */
  lemma KeywordMakesLabels(before: string, keyword: string, after: string, k: int)
    requires 0 <= k < |LabelKeywords|
    requires Lower(keyword) == LabelKeywords[k]
    ensures InferLayerType(before + keyword + after) == Labels
  {
    var name := before + keyword + after;
    LowerConcat(before + keyword, after);
    LowerConcat(before, keyword);
    assert Lower(name) == Lower(before) + LabelKeywords[k] + Lower(after);
    assert InfixAt(Lower(name), LabelKeywords[k], |before|) by {
      assert Lower(name)[|before|..|before| + |LabelKeywords[k]|] == LabelKeywords[k];
    }
  }

  /** Names that agree once lower-cased get the same type. */
  lemma InferCaseInsensitive(a: string, b: string)
    requires Lower(a) == Lower(b)
    ensures InferLayerType(a) == InferLayerType(b)
  {
  }

  /** Names without any keyword, such as `DAPI` or `GFP`, are image layers. */
  lemma NoKeywordIsImage(channelName: string)
    requires forall k, i :: 0 <= k < |LabelKeywords| && 0 <= i ==> !InfixAt(Lower(channelName), LabelKeywords[k], i)
    ensures InferLayerType(channelName) == Image
  {
  }

  /** `resolve_layer_type`: the global override, else the per-channel entry, else the inferred type. */
  function ResolveLayerType(channelName: string, globalOverride: Option<string>, channelTypes: Option<map<string, string>>)
    : (r: string)
    ensures globalOverride.Some? ==> r == globalOverride.value
    ensures globalOverride.None? && channelTypes.Some? && channelName in channelTypes.value ==>
      r == channelTypes.value[channelName]
    ensures globalOverride.None? && (channelTypes.None? || channelName !in channelTypes.value) ==>
      r == InferLayerType(channelName)
  {
    if globalOverride.Some? then globalOverride.value
    else if channelTypes.Some? && channelTypes.value != map[] && channelName in channelTypes.value then
      channelTypes.value[channelName]
    else InferLayerType(channelName)
  }

  /** Without overrides a resolved type is always `labels` or `image`. */
  lemma ResolveWithoutOverrides(channelName: string, channelTypes: Option<map<string, string>>)
    requires channelTypes.None? || channelName !in channelTypes.value
    ensures ResolveLayerType(channelName, None, channelTypes) in {Labels, Image}
  {
  }

  /** `get_single_channel_name`: the one coordinate value of the channel dimension, as text. */
  function SingleChannelName(coords: map<string, seq<string>>, channelDim: string): (r: Option<string>)
    ensures r.Some? <==> channelDim in coords && |coords[channelDim]| == 1
    ensures r.Some? ==> r.value == coords[channelDim][0]
  {
    if channelDim in coords && |coords[channelDim]| == 1 then Some(coords[channelDim][0]) else None
  }

  // ---------------------------------------------------------------------------
  // In-memory loading
  // ---------------------------------------------------------------------------

  const MaxInMemBytes: real := 4000000000.0
  const MaxInMemPercent: real := 0.3

  /**
   * `determine_in_memory`: `fileSize` and `availableMem` stand for what the
   * file system and the operating system report.
   */
  function DetermineInMemory(path: Option<string>, fileSize: real, availableMem: real, maxBytes: real, maxPercent: real)
    : (r: bool)
    ensures path.None? ==> r
    ensures path.Some? ==> (r <==> fileSize <= maxBytes && fileSize < maxPercent * availableMem)
  {
    if path.None? then true
    else fileSize <= maxBytes && fileSize < maxPercent * availableMem
  }

  /**
   * A file that is loaded into memory would still be if it were smaller,
   * if more memory were available, or if either threshold were higher.
   */
  lemma InMemoryMonotone(path: Option<string>, fileSize: real, availableMem: real, maxBytes: real, maxPercent: real,
                         smallerSize: real, moreMem: real, higherBytes: real, higherPercent: real)
    requires smallerSize <= fileSize && 0.0 <= availableMem <= moreMem
    requires maxBytes <= higherBytes && 0.0 <= maxPercent <= higherPercent
    ensures DetermineInMemory(path, fileSize, availableMem, maxBytes, maxPercent) ==>
      DetermineInMemory(path, smallerSize, moreMem, higherBytes, higherPercent)
  {
    if path.Some? && DetermineInMemory(path, fileSize, availableMem, maxBytes, maxPercent) {
      var allowed, allowedWithMore, allowedHigher := maxPercent * availableMem, maxPercent * moreMem,
                                                     higherPercent * moreMem;
      assert allowed <= allowedWithMore by {
        assert allowedWithMore - allowed == maxPercent * (moreMem - availableMem);
      }
      assert allowedWithMore <= allowedHigher by {
        assert allowedHigher - allowedWithMore == (higherPercent - maxPercent) * moreMem;
      }
    }
  }

  // ---------------------------------------------------------------------------
  // Layer tuple
  // ---------------------------------------------------------------------------

  const Additive: string := "additive"
  const TranslucentNoDepth: string := "translucent_no_depth"

  /** The blending of a non-RGB image layer. */
  function Blending(channelIdx: int, totalChannels: int): (r: string)
  {
    if channelIdx > 0 && totalChannels > 1 then Additive else TranslucentNoDepth
  }

  lemma BlendingAdditive(channelIdx: int, totalChannels: int)
    ensures Blending(channelIdx, totalChannels) == Additive <==> channelIdx > 0 && totalChannels > 1
    ensures Blending(channelIdx, totalChannels) != Additive ==> Blending(channelIdx, totalChannels) == TranslucentNoDepth
  {
  }

  /** The keys every layer tuple starts with. */
  const BaseKeys: set<string> := {"name", "metadata", "scale", "axis_labels", "units"}

  function BaseKwargs(name: string, metadata: Value, scale: seq<real>, axisLabels: seq<string>,
                      units: seq<Option<string>>): map<string, Value>
  {
    map["name" := Text(name), "metadata" := metadata, "scale" := Reals(scale), "axis_labels" := Texts(axisLabels),
        "units" := MaybeTexts(units)]
  }

  /** The kwargs before the extra ones: the base entries, then `rgb`, or colormap and blending, or nothing. */
  function DefaultKwargs(layerType: string, name: string, metadata: Value, scale: seq<real>, axisLabels: seq<string>,
                         units: seq<Option<string>>, channelIdx: int, totalChannels: int, rgb: bool): map<string, Value>
  {
    var base := BaseKwargs(name, metadata, scale, axisLabels, units);
    if rgb then base["rgb" := Flag(true)]
    else if layerType == Image then
      base["colormap" := ColormapFor(channelIdx, totalChannels)]["blending" := Text(Blending(channelIdx, totalChannels))]
    else base
  }

  /** `layer_kwargs` as returned: the defaults, updated with the extra kwargs when there are any. */
  function LayerKwargs(layerType: string, name: string, metadata: Value, scale: seq<real>, axisLabels: seq<string>,
                       units: seq<Option<string>>, channelIdx: int, totalChannels: int, rgb: bool,
                       extraKwargs: Option<map<string, Value>>): map<string, Value>
  {
    var defaults := DefaultKwargs(layerType, name, metadata, scale, axisLabels, units, channelIdx, totalChannels, rgb);
    if extraKwargs.Some? && extraKwargs.value != map[] then defaults + extraKwargs.value else defaults
  }

  /** `build_layer_tuple`: fills the kwargs dictionary step by step. */
  method BuildLayerTuple<D>(data: D, layerType: string, name: string, metadata: Value, scale: seq<real>,
                            axisLabels: seq<string>, units: seq<Option<string>>, channelIdx: int, totalChannels: int,
                            rgb: bool, extraKwargs: Option<map<string, Value>>)
    returns (t: LayerTuple<D>)
    ensures t.data == data && t.layerType == layerType
    ensures t.kwargs == LayerKwargs(layerType, name, metadata, scale, axisLabels, units, channelIdx, totalChannels, rgb,
                                    extraKwargs)
  {
    var kwargs := map["name" := Text(name), "metadata" := metadata, "scale" := Reals(scale),
                      "axis_labels" := Texts(axisLabels), "units" := MaybeTexts(units)];
    if rgb {
      kwargs := kwargs["rgb" := Flag(true)];
    } else if layerType == Image {
      kwargs := kwargs["colormap" := ColormapFor(channelIdx, totalChannels)];
      kwargs := kwargs["blending" := Text(if channelIdx > 0 && totalChannels > 1 then Additive else TranslucentNoDepth)];
    }
    if extraKwargs.Some? && extraKwargs.value != map[] {
      kwargs := kwargs + extraKwargs.value;
    }
    t := LayerTuple(data, kwargs, layerType);
  }

  /**
   * The defaults: the five base entries, `rgb` exactly for RGB layers, and
   * colormap and blending exactly for other image layers.
   */
  lemma DefaultKwargsShape(layerType: string, name: string, metadata: Value, scale: seq<real>, axisLabels: seq<string>,
                           units: seq<Option<string>>, channelIdx: int, totalChannels: int, rgb: bool)
    ensures var kw := DefaultKwargs(layerType, name, metadata, scale, axisLabels, units, channelIdx, totalChannels, rgb);
      && kw.Keys == BaseKeys + (if rgb then {"rgb"} else if layerType == Image then {"colormap", "blending"} else {})
      && kw["name"] == Text(name) && kw["metadata"] == metadata && kw["scale"] == Reals(scale)
      && kw["axis_labels"] == Texts(axisLabels) && kw["units"] == MaybeTexts(units)
      && (rgb ==> kw["rgb"] == Flag(true))
      && (!rgb && layerType == Image ==>
            kw["colormap"] == ColormapFor(channelIdx, totalChannels)
            && kw["blending"] == Text(Blending(channelIdx, totalChannels)))
  {
  }

  /** The extra kwargs come last: each of them wins, and every other key keeps its default. */
  lemma ExtraKwargsWin(layerType: string, name: string, metadata: Value, scale: seq<real>, axisLabels: seq<string>,
                       units: seq<Option<string>>, channelIdx: int, totalChannels: int, rgb: bool,
                       extra: map<string, Value>)
    ensures var defaults := DefaultKwargs(layerType, name, metadata, scale, axisLabels, units, channelIdx,
                                          totalChannels, rgb);
      var kw := LayerKwargs(layerType, name, metadata, scale, axisLabels, units, channelIdx, totalChannels, rgb,
                            Some(extra));
      && kw.Keys == defaults.Keys + extra.Keys
      && (forall k :: k in extra ==> kw[k] == extra[k])
      && (forall k :: k in defaults && k !in extra ==> kw[k] == defaults[k])
  {
  }
}
