/**
 * OME-Zarr compatibility patches applied to a `bioio_ome_zarr` reader after
 * it opened a store: version 0.3 string axes are rewritten in place as
 * version 0.4 axis dictionaries, and stores whose datasets predate
 * `coordinateTransformations` get one warning.
 *
 * The multiscales metadata is modelled by the parts the patches look at:
 * each scene's `axes`, the key sets of its `datasets` entries, and its
 * `version`. A log record is modelled by the version text it carries.
 */
module Compatibility {
  import opened Wrappers
  import opened Text

  /** An entry of a scene's `axes` list: a bare name (version 0.3) or a dictionary (version 0.4 and later). */
  datatype Axis = StrAxis(name: string) | DictAxis(fields: map<string, string>)

  /** One entry of the multiscales list; `None` stands for an absent key. */
  datatype SceneMeta = SceneMeta(axes: Option<seq<Axis>>, datasets: Option<seq<set<string>>>, version: Option<string>)

  const Time: string := "time"
  const ChannelType: string := "channel"
  const Space: string := "space"

  /** `_AXIS_TYPE_MAP`. */
  const AxisTypeMap: map<string, string> := map["t" := Time, "c" := ChannelType, "z" := Space, "y" := Space, "x" := Space]

  /** The axis type of a dimension name: its lower-cased entry in the map, `space` otherwise. */
  function AxisType(name: string): string
  {
    var key := Lower(name);
    if key in AxisTypeMap then AxisTypeMap[key] else Space
  }

  /** `t` (either case) is time, `c` (either case) is channel, and every other name is space. */
  lemma AxisTypes(name: string)
    ensures AxisType(name) in {Time, ChannelType, Space}
    ensures AxisType(name) == Time <==> Lower(name) == "t"
    ensures AxisType(name) == ChannelType <==> Lower(name) == "c"
    ensures Lower(name) != "t" && Lower(name) != "c" ==> AxisType(name) == Space
  {
  }

  /** A scene whose axes are present, non-empty and begin with a bare name: the version 0.3 test. */
  predicate HasStringAxes(s: SceneMeta)
  {
    s.axes.Some? && |s.axes.value| > 0 && s.axes.value[0].StrAxis?
  }

  predicate AllStrings(axes: seq<Axis>)
  {
    forall i :: 0 <= i < |axes| ==> axes[i].StrAxis?
  }

  /**
   * The rewrite of a scene succeeds unless its axes begin with a name but
   * hold a dictionary further on, where lower-casing that entry raises
   * `AttributeError`.
   */
  predicate Patchable(s: SceneMeta)
  {
    !HasStringAxes(s) || AllStrings(s.axes.value)
  }

  /** The version 0.4 dictionary for a bare axis name. */
  function DictFor(name: string): Axis
  {
    DictAxis(map["name" := name, "type" := AxisType(name)])
  }

  function PatchedAxes(axes: seq<Axis>): seq<Axis>
    requires AllStrings(axes)
  {
    seq(|axes|, i requires 0 <= i < |axes| => DictFor(axes[i].name))
  }

  /** One scene after the loop body ran on it. */
  function PatchScene(s: SceneMeta): SceneMeta
    requires Patchable(s)
  {
    if HasStringAxes(s) then s.(axes := Some(PatchedAxes(s.axes.value))) else s
  }

  /**
   * A rewritten scene keeps its datasets and version and as many axes, in
   * the same order; each becomes a dictionary holding exactly its name and
   * its type. Every other scene is left as it was.
   */
  lemma PatchSceneShape(s: SceneMeta, i: int)
    requires Patchable(s)
    ensures PatchScene(s).datasets == s.datasets && PatchScene(s).version == s.version
    ensures !HasStringAxes(s) ==> PatchScene(s) == s
    ensures HasStringAxes(s) ==>
      var axes := PatchScene(s).axes.value;
      && |axes| == |s.axes.value|
      && (0 <= i < |axes| ==>
            axes[i].DictAxis? && axes[i].fields.Keys == {"name", "type"}
            && axes[i].fields["name"] == s.axes.value[i].name
            && axes[i].fields["type"] == AxisType(s.axes.value[i].name))
  {
  }

  /** A rewritten scene no longer has string axes, so a second rewrite leaves it alone. */
  lemma PatchSceneIdempotent(s: SceneMeta)
    requires Patchable(s)
    ensures !HasStringAxes(PatchScene(s)) && Patchable(PatchScene(s))
    ensures PatchScene(PatchScene(s)) == PatchScene(s)
  {
  }

  /** The first scene the rewrite fails on, if any. */
  function FirstUnpatchable(ms: seq<SceneMeta>): (r: Option<nat>)
    ensures r.Some? ==> r.value < |ms| && !Patchable(ms[r.value])
    ensures r.Some? ==> forall j :: 0 <= j < r.value ==> Patchable(ms[j])
    ensures r.None? ==> forall j :: 0 <= j < |ms| ==> Patchable(ms[j])
  {
    if ms == [] then None
    else if !Patchable(ms[0]) then Some(0)
    else match FirstUnpatchable(ms[1..])
         case None => None
         case Some(k) => Some(k + 1)
  }

  /** How far the loop gets: up to the failing scene, or through all of them. */
  function PatchLimit(ms: seq<SceneMeta>): (n: nat)
    ensures n <= |ms|
    ensures forall j :: 0 <= j < n ==> Patchable(ms[j])
  {
    if FirstUnpatchable(ms).Some? then FirstUnpatchable(ms).value else |ms|
  }

  /** The scenes before `n` rewritten, the rest untouched. */
  function PatchedUpTo(ms: seq<SceneMeta>, n: nat): (r: seq<SceneMeta>)
    requires n <= |ms|
    requires forall j :: 0 <= j < n ==> Patchable(ms[j])
    ensures |r| == |ms|
  {
    seq(|ms|, j requires 0 <= j < |ms| => if j < n then PatchScene(ms[j]) else ms[j])
  }

  /** The multiscales list once `_normalize_v03_string_axes` returned or raised. */
  function Normalized(ms: seq<SceneMeta>): seq<SceneMeta>
  {
    PatchedUpTo(ms, PatchLimit(ms))
  }

  /** What `_normalize_v03_string_axes` ends with. */
  datatype Outcome =
    | Unpatched
      /** Something was rewritten; the info record carries this version text. */
    | Patched(version: string)
      /** Raised on the scene at this index. */
    | AttributeErrorAt(scene: nat)

  /** The version fallbacks of the info record and of the warning. */
  const NormalizeFallback: string := "unknown (likely 0.3)"
  const WarnFallback: string := "unknown (likely 0.1 or 0.2)"

  function VersionOr(s: SceneMeta, fallback: string): string
  {
    if s.version.Some? then s.version.value else fallback
  }

  function NormalizeOutcome(ms: seq<SceneMeta>): Outcome
  {
    if FirstUnpatchable(ms).Some? then AttributeErrorAt(FirstUnpatchable(ms).value)
    else if exists j :: 0 <= j < |ms| && HasStringAxes(ms[j]) then Patched(VersionOr(ms[0], NormalizeFallback))
    else Unpatched
  }

  /**
   * Normalising twice leaves what normalising once left: rewritten scenes
   * have dictionary axes, and a failing scene fails again in the same place.
   * A second call rewrites nothing.
   */
  lemma NormalizeIdempotent(ms: seq<SceneMeta>)
    ensures Normalized(Normalized(ms)) == Normalized(ms)
    ensures FirstUnpatchable(Normalized(ms)) == FirstUnpatchable(ms)
    ensures NormalizeOutcome(Normalized(ms)) == (if FirstUnpatchable(ms).Some? then NormalizeOutcome(ms) else Unpatched)
  {
    var n := PatchLimit(ms);
    var once := Normalized(ms);
    forall j | 0 <= j < n
      ensures Patchable(once[j]) && !HasStringAxes(once[j]) && PatchScene(once[j]) == once[j]
    {
      PatchSceneIdempotent(ms[j]);
    }
    SameFirstUnpatchable(ms, once, n);
    assert PatchLimit(once) == n;
    assert Normalized(once) == once;
  }

  /**
   * Two lists that agree from `n` on, and are both patchable before it, fail
   * on the same scene.
   */
  lemma {:induction false} SameFirstUnpatchable(a: seq<SceneMeta>, b: seq<SceneMeta>, n: nat)
    requires |a| == |b| && n <= |a|
    requires forall j :: 0 <= j < n ==> Patchable(a[j]) && Patchable(b[j])
    requires forall j :: n <= j < |a| ==> a[j] == b[j]
    requires FirstUnpatchable(a).Some? ==> FirstUnpatchable(a).value >= n
    ensures FirstUnpatchable(a) == FirstUnpatchable(b)
  {
    if a != [] {
      if n > 0 {
        SameFirstUnpatchable(a[1..], b[1..], n - 1);
      } else {
        assert a == b;
      }
    }
  }

  /** A list with nothing to rewrite is left exactly as it was. */
  lemma NothingToRewrite(ms: seq<SceneMeta>)
    requires forall j :: 0 <= j < |ms| ==> !HasStringAxes(ms[j])
    ensures Normalized(ms) == ms && NormalizeOutcome(ms) == Unpatched
  {
  }

  /** The `coordinateTransformations` key of a dataset entry. */
  const CoordinateTransformations: string := "coordinateTransformations"

  /**
   * `_warn_if_no_coordinate_transforms`' test: the list is non-empty, the
   * first scene has datasets, and the first dataset has no
   * `coordinateTransformations`. The result is the version text the one
   * warning carries.
   */
  function WarnVersion(ms: Option<seq<SceneMeta>>): (r: Option<string>)
    ensures r.Some? <==>
      && ms.Some? && |ms.value| > 0
      && ms.value[0].datasets.Some? && |ms.value[0].datasets.value| > 0
      && CoordinateTransformations !in ms.value[0].datasets.value[0]
  {
    if ms.None? || ms.value == [] then None
    else
      var first := ms.value[0];
      var datasets := if first.datasets.Some? then first.datasets.value else [];
      if datasets != [] && CoordinateTransformations !in datasets[0] then Some(VersionOr(first, WarnFallback))
      else None
  }

  /** The warning's text around the version. */
  const WarnHead: string := "OME-Zarr compatibility warning: this store appears to be OME-Zarr spec version "
  const WarnBeforeKey: string := ", which pre-dates '"
  const WarnBeforeScale: string := "' in dataset entries (introduced in v0.3). Physical scale and unit metadata cannot be read. ndevio will open the image with "
  const ScaleOne: string := "scale=1.0"
  const WarnTail: string := " and no units. Consider converting the file to OME-Zarr >=v0.4."

  function WarningMessage(version: string): string
  {
    WarnHead + version + WarnBeforeKey + CoordinateTransformations + WarnBeforeScale + ScaleOne + WarnTail
  }

  /** A text assembled from seven parts contains the second, fourth and sixth. */
  lemma ContainsParts(a: string, b: string, c: string, d: string, e: string, f: string, g: string)
    ensures var s := a + b + c + d + e + f + g;
      Contains(s, b) && Contains(s, d) && Contains(s, f)
  {
    var s := a + b + c + d + e + f + g;
    var i := |a|;
    assert s[i..i + |b|] == b;
    assert InfixAt(s, b, i);
    var j := |a + b + c|;
    assert s[j..j + |d|] == d;
    assert InfixAt(s, d, j);
    var k := |a + b + c + d + e|;
    assert s[k..k + |f|] == f;
    assert InfixAt(s, f, k);
  }

  /**
   * The warning names the store's version (or, without one, a text saying it
   * is unknown), the missing key, and the fallback scale.
   */
  lemma WarningContents(ms: Option<seq<SceneMeta>>)
    requires WarnVersion(ms).Some?
    ensures var msg := WarningMessage(WarnVersion(ms).value);
      && Contains(msg, WarnVersion(ms).value)
      && Contains(msg, CoordinateTransformations)
      && Contains(msg, ScaleOne)
    ensures ms.value[0].version.Some? ==> WarnVersion(ms).value == ms.value[0].version.value
    ensures ms.value[0].version.None? ==> Contains(WarningMessage(WarnVersion(ms).value), "unknown")
  {
    var v := WarnVersion(ms).value;
    ContainsParts(WarnHead, v, WarnBeforeKey, CoordinateTransformations, WarnBeforeScale, ScaleOne, WarnTail);
    if ms.value[0].version.None? {
      FallbackSaysUnknown();
      ContainsTransitive(WarningMessage(v), v, "unknown");
    }
  }

  /** Both version fallbacks say the version is unknown. */
  lemma FallbackSaysUnknown()
    ensures Contains(WarnFallback, "unknown") && Contains(NormalizeFallback, "unknown")
  {
    assert InfixAt(WarnFallback, "unknown", 0);
    assert InfixAt(NormalizeFallback, "unknown", 0);
  }

  /** Rewriting axes touches neither datasets nor versions, so it never changes whether or how the warning fires. */
  lemma NormalizeKeepsWarning(ms: seq<SceneMeta>)
    ensures WarnVersion(Some(Normalized(ms))) == WarnVersion(Some(ms))
  {
    if ms != [] && PatchLimit(ms) > 0 {
      PatchSceneShape(ms[0], 0);
    }
  }

  /** The reader state the patches work on: `_multiscales_metadata`. */
  class OmeZarrReader {
    var multiscales: Option<seq<SceneMeta>>

    constructor(multiscales: Option<seq<SceneMeta>>)
      ensures this.multiscales == multiscales
    {
      this.multiscales := multiscales;
    }

    /** `_normalize_v03_string_axes`: rewrites the scenes in place, stopping where a rewrite raises. */
    method NormalizeV03StringAxes() returns (r: Outcome)
      modifies this
      ensures old(multiscales).None? ==> multiscales == None && r == Unpatched
      ensures old(multiscales).Some? ==>
        multiscales == Some(Normalized(old(multiscales).value)) && r == NormalizeOutcome(old(multiscales).value)
    {
      if multiscales.None? || multiscales.value == [] {
        return Unpatched;
      }
      ghost var ms := multiscales.value;
      var count := |multiscales.value|;
      var patched := false;
      for i := 0 to count
        invariant multiscales.Some? && |multiscales.value| == |ms|
        invariant forall j :: 0 <= j < i ==> Patchable(ms[j])
        invariant multiscales.value == PatchedUpTo(ms, i)
        invariant patched <==> exists j :: 0 <= j < i && HasStringAxes(ms[j])
      {
        var scene := multiscales.value[i];
        if scene.axes.None? || scene.axes.value == [] {
          continue;
        }
        var axes := scene.axes.value;
        if axes[0].StrAxis? {
          if !AllStrings(axes) {
            FirstUnpatchableAt(ms, i);
            return AttributeErrorAt(i);
          }
          multiscales := Some(multiscales.value[i := scene.(axes := Some(PatchedAxes(axes)))]);
          patched := true;
        }
      }
      FirstUnpatchableAt(ms, |ms|);
      if patched {
        r := Patched(VersionOr(multiscales.value[0], NormalizeFallback));
      } else {
        r := Unpatched;
      }
    }

    /** `_warn_if_no_coordinate_transforms`: the version text of the one warning, if it fires. */
    method WarnIfNoCoordinateTransforms() returns (warning: Option<string>)
      ensures warning == WarnVersion(multiscales)
    {
      warning := None;
      if multiscales.None? || multiscales.value == [] {
        return;
      }
      var first := multiscales.value[0];
      var datasets := if first.datasets.Some? then first.datasets.value else [];
      if datasets != [] && CoordinateTransformations !in datasets[0] {
        warning := Some(VersionOr(first, WarnFallback));
      }
    }

    /**
     * `apply_ome_zarr_compat_patches`: normalises, then checks for the
     * warning; an `AttributeError` from normalising ends the call first.
     */
    method ApplyOmeZarrCompatPatches() returns (normalized: Outcome, warning: Option<string>)
      modifies this
      ensures old(multiscales).Some? ==> multiscales == Some(Normalized(old(multiscales).value))
      ensures old(multiscales).None? ==> multiscales == None
      ensures normalized.AttributeErrorAt? ==> warning == None
      ensures !normalized.AttributeErrorAt? ==> warning == WarnVersion(old(multiscales))
    {
      normalized := NormalizeV03StringAxes();
      if normalized.AttributeErrorAt? {
        return normalized, None;
      }
      if old(multiscales).Some? {
        NormalizeKeepsWarning(old(multiscales).value);
      }
      warning := WarnIfNoCoordinateTransforms();
    }
  }

  /** Where the loop stops: the first failing scene is `i` when all before it patch and `i` does not (or `i` is the end). */
  lemma {:induction false} FirstUnpatchableAt(ms: seq<SceneMeta>, i: nat)
    requires i <= |ms|
    requires forall j :: 0 <= j < i ==> Patchable(ms[j])
    requires i < |ms| ==> !Patchable(ms[i])
    ensures i < |ms| ==> FirstUnpatchable(ms) == Some(i)
    ensures i == |ms| ==> FirstUnpatchable(ms) == None
  {
    if i > 0 {
      FirstUnpatchableAt(ms[1..], i - 1);
    }
  }
}
