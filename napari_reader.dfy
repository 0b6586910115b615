/**
 * The napari reader hook: deciding whether ndevio offers a reader for a path,
 * and dispatching an opened image's scenes into layer tuples.
 */
module NapariReader {
  import opened Wrappers
  import opened Suggest
  import LayerUtils
  import NImage

  /** The two `scene_handling` choices the hook tests for. */
  const ViewFirstSceneOnly: string := "View First Scene Only"
  const ViewAllScenes: string := "View All Scenes"

  /** What napari passes: one path, or a list of paths. */
  datatype PathLike = OnePath(path: string) | PathList(paths: seq<string>)

  /** The reader function returned: `napari_reader_function` with its keyword arguments bound. */
  datatype ReaderFunction = ReaderFunction(inMemory: Option<bool>, firstSceneOnly: bool, allScenes: bool)

  /** An explicit flag wins; otherwise the scene-handling setting decides. */
  function ResolveFlag(explicit: Option<bool>, sceneHandling: string, choice: string): (r: bool)
    ensures explicit.Some? ==> r == explicit.value
    ensures explicit.None? ==> (r <==> sceneHandling == choice)
  {
    if explicit.Some? then explicit.value else sceneHandling == choice
  }

  /**
   * `napari_get_reader`; `sceneHandling` is the `ndevio_reader.scene_handling`
   * setting.
   */
  function NapariGetReader(path: PathLike, inMemory: Option<bool>, firstSceneOnly: Option<bool>,
                           allScenes: Option<bool>, sceneHandling: string): (r: Option<ReaderFunction>)
    ensures r.Some? <==> path.OnePath? && SuggestForPath(path.path) != []
    ensures r.Some? ==>
      && r.value.inMemory == inMemory
      && r.value.firstSceneOnly == ResolveFlag(firstSceneOnly, sceneHandling, ViewFirstSceneOnly)
      && r.value.allScenes == ResolveFlag(allScenes, sceneHandling, ViewAllScenes)
  {
    var first := ResolveFlag(firstSceneOnly, sceneHandling, ViewFirstSceneOnly);
    var all := ResolveFlag(allScenes, sceneHandling, ViewAllScenes);
    match path
    case PathList(_) => None
    case OnePath(p) => if SuggestForPath(p) == [] then None else Some(ReaderFunction(inMemory, first, all))
  }

  /** The setting alone never asks for both first-scene-only and all-scenes. */
  lemma SettingPicksOneMode(path: PathLike, inMemory: Option<bool>, sceneHandling: string)
    requires NapariGetReader(path, inMemory, None, None, sceneHandling).Some?
    ensures var f := NapariGetReader(path, inMemory, None, None, sceneHandling).value;
      !(f.firstSceneOnly && f.allScenes)
  {
  }

  /** A `(data, kwargs, layer_type)` tuple of an image's layer. */
  type LayerDataTuple = LayerUtils.LayerTuple<NImage.ArrayRef>

  /** What the reader function gives napari: layer tuples, or the `[(None,)]` placeholder once the scene widget is open. */
  datatype ReadResult = Layers(layers: seq<LayerDataTuple>) | SceneWidget

  /** The reader function calls `get_layer_data_tuples` without any override. */
  const NoOverrides: NImage.Overrides := NImage.Overrides(None, None, None)

  // ---------------------------------------------------------------------------
  // Tuples of several scenes
  // ---------------------------------------------------------------------------

  /** `a`'s tuples followed by `b`'s, or the first failure. */
  function Then<T, E>(a: Result<seq<T>, E>, b: Result<seq<T>, E>): Result<seq<T>, E>
  {
    if a.Failure? then a else if b.Failure? then b else Success(a.value + b.value)
  }

  /** Nothing gathered before `r` leaves `r` as it is. */
  lemma ThenNothing<T, E>(r: Result<seq<T>, E>)
    ensures Then(Success([]), r) == r
  {
    if r.Success? {
      assert [] + r.value == r.value;
    }
  }

  /** The tuples of the scenes in scene order, or the first failing scene's failure. */
  function Collect<T, E>(scenes: seq<string>, tuplesFor: string -> Result<seq<T>, E>): Result<seq<T>, E>
  {
    if scenes == [] then Success([]) else Then(tuplesFor(scenes[0]), Collect(scenes[1..], tuplesFor))
  }

  /** Reading scenes `a` and then scenes `b` gives `a`'s tuples followed by `b`'s. */
  lemma {:induction false} CollectAppend<T, E>(a: seq<string>, b: seq<string>, tuplesFor: string -> Result<seq<T>, E>)
    ensures Collect(a + b, tuplesFor) == Then(Collect(a, tuplesFor), Collect(b, tuplesFor))
  {
    if a == [] {
      assert a + b == b;
      ThenNothing(Collect(b, tuplesFor));
    } else {
      assert (a + b)[0] == a[0] && (a + b)[1..] == a[1..] + b;
      CollectAppend(a[1..], b, tuplesFor);
      var x, y, z := tuplesFor(a[0]), Collect(a[1..], tuplesFor), Collect(b, tuplesFor);
      if x.Success? && y.Success? && z.Success? {
        assert x.value + (y.value + z.value) == (x.value + y.value) + z.value;
      }
    }
  }

  /**
   * Collecting fails exactly when some scene fails, and then with the
   * failure of the first scene that fails.
   */
  lemma {:induction false} CollectFirstFailure<T, E>(scenes: seq<string>, tuplesFor: string -> Result<seq<T>, E>)
    ensures Collect(scenes, tuplesFor).Success? <==> forall j :: 0 <= j < |scenes| ==> tuplesFor(scenes[j]).Success?
    ensures Collect(scenes, tuplesFor).Failure? ==>
      exists j :: 0 <= j < |scenes| && tuplesFor(scenes[j]) == Collect(scenes, tuplesFor)
                  && forall k :: 0 <= k < j ==> tuplesFor(scenes[k]).Success?
  {
    if scenes != [] {
      CollectFirstFailure(scenes[1..], tuplesFor);
      if tuplesFor(scenes[0]).Success? && Collect(scenes[1..], tuplesFor).Failure? {
        var j :| 0 <= j < |scenes[1..]| && tuplesFor(scenes[1..][j]) == Collect(scenes[1..], tuplesFor)
                 && forall k :: 0 <= k < j ==> tuplesFor(scenes[1..][k]).Success?;
        assert tuplesFor(scenes[j + 1]) == Collect(scenes, tuplesFor);
        assert forall k :: 0 <= k < j + 1 ==> tuplesFor(scenes[k]).Success? by {
          forall k | 0 < k < j + 1
            ensures tuplesFor(scenes[k]).Success?
          {
            assert scenes[k] == scenes[1..][k - 1];
          }
        }
      }
      if forall j :: 0 <= j < |scenes| ==> tuplesFor(scenes[j]).Success? {
        assert forall j :: 0 <= j < |scenes[1..]| ==> tuplesFor(scenes[1..][j]).Success? by {
          forall j | 0 <= j < |scenes[1..]|
            ensures tuplesFor(scenes[1..][j]).Success?
          {
            assert scenes[1..][j] == scenes[j + 1];
          }
        }
      }
    }
  }

  /**
   * When collecting succeeds, scene `j`'s tuples sit, whole and unchanged,
   * right after the tuples of the scenes before it.
   */
  lemma CollectBlock<T, E>(scenes: seq<string>, tuplesFor: string -> Result<seq<T>, E>, j: int)
    requires 0 <= j < |scenes| && Collect(scenes, tuplesFor).Success?
    ensures tuplesFor(scenes[j]).Success? && Collect(scenes[..j], tuplesFor).Success?
    ensures var all := Collect(scenes, tuplesFor).value;
      var start := |Collect(scenes[..j], tuplesFor).value|;
      var block := tuplesFor(scenes[j]).value;
      start + |block| <= |all| && all[start..start + |block|] == block
  {
    assert scenes == scenes[..j] + ([scenes[j]] + scenes[j + 1..]);
    CollectAppend(scenes[..j], [scenes[j]] + scenes[j + 1..], tuplesFor);
    assert ([scenes[j]] + scenes[j + 1..])[1..] == scenes[j + 1..];
  }

  // ---------------------------------------------------------------------------
  // The reader function
  // ---------------------------------------------------------------------------

  /** The state a read leaves the image in (the scene shown, the data cached) and what it gives. */
  datatype Run<R> = Run(bio: NImage.BioView, cached: Option<NImage.Loaded>, result: Result<R, NImage.TuplesError>)

  /** Tuples `acc` gathered before `run`. */
  function Extend(acc: seq<LayerDataTuple>, run: Run<seq<LayerDataTuple>>): Run<seq<LayerDataTuple>>
  {
    Run(run.bio, run.cached, Then(Success(acc), run.result))
  }

  /**
   * The all-scenes loop on an image showing `bio` with `cached` loaded: set
   * each scene in turn and append its tuples, stopping at the first failure.
   * `view(s)` is what the image shows once scene `s` is set, and `reloading`
   * says whether setting a scene drops the cached data.
   */
  function AllScenes(scenes: seq<string>, view: string -> NImage.BioView, path: Option<string>, bio: NImage.BioView,
                     cached: Option<NImage.Loaded>, inMemory: Option<bool>, reloading: bool): Run<seq<LayerDataTuple>>
  {
    if scenes == [] then Run(bio, cached, Success([]))
    else
      var shown := view(scenes[0]);
      var c := NImage.CallTuples(shown, path, if reloading then None else cached, inMemory, NoOverrides);
      if c.result.Failure? then Run(shown, c.cached, c.result)
      else
        var rest := AllScenes(scenes[1..], view, path, shown, c.cached, inMemory, reloading);
        Run(rest.bio, rest.cached, Then(c.result, rest.result))
  }

  /** One turn of the all-scenes loop: scene `i` is set and read, and the loop stops or goes on with the rest. */
  lemma AllScenesStep(acc: seq<LayerDataTuple>, scenes: seq<string>, i: int, view: string -> NImage.BioView,
                      path: Option<string>, bio: NImage.BioView, cached: Option<NImage.Loaded>, inMemory: Option<bool>,
                      reloading: bool, c: NImage.TuplesCall)
    requires 0 <= i < |scenes|
    requires c == NImage.CallTuples(view(scenes[i]), path, if reloading then None else cached, inMemory, NoOverrides)
    ensures var run := Extend(acc, AllScenes(scenes[i..], view, path, bio, cached, inMemory, reloading));
      && (c.result.Failure? ==> run == Run(view(scenes[i]), c.cached, c.result))
      && (c.result.Success? ==>
            run == Extend(acc + c.result.value, AllScenes(scenes[i + 1..], view, path, view(scenes[i]), c.cached,
                                                          inMemory, reloading)))
  {
    var here := scenes[i..];
    assert here != [] && here[0] == scenes[i] && here[1..] == scenes[i + 1..];
    var rest := AllScenes(scenes[i + 1..], view, path, view(scenes[i]), c.cached, inMemory, reloading);
    assert AllScenes(here, view, path, bio, cached, inMemory, reloading) ==
      if c.result.Failure? then Run(view(scenes[i]), c.cached, c.result)
      else Run(rest.bio, rest.cached, Then(c.result, rest.result));
    if c.result.Success? && rest.result.Success? {
      assert acc + (c.result.value + rest.result.value) == (acc + c.result.value) + rest.result.value;
    }
  }

  /** What `get_layer_data_tuples` gives on an image that has just been set to show `bio`, with nothing cached. */
  function SceneTuples(bio: NImage.BioView, path: Option<string>, inMemory: Option<bool>)
    : Result<seq<LayerDataTuple>, NImage.TuplesError>
  {
    NImage.CallTuples(bio, path, None, inMemory, NoOverrides).result
  }

  /**
   * As written: once data is cached and `in_memory` is not given, every
   * scene's tuples are built from that same cached data (only the names,
   * RGB test and metadata follow the scene), and the cache never changes.
   */
  lemma {:induction false} StaleCacheAcrossScenes(scenes: seq<string>, view: string -> NImage.BioView,
                                                  path: Option<string>, bio: NImage.BioView, l: NImage.Loaded)
    ensures var run := AllScenes(scenes, view, path, bio, Some(l), None, false);
      && run.cached == Some(l)
      && run.result == Collect(scenes, s => NImage.LayerTuples(view(s), path, l, NoOverrides))
  {
    if scenes != [] {
      NImage.CachedDataUsed(view(scenes[0]), path, Some(l), None, NoOverrides);
      StaleCacheAcrossScenes(scenes[1..], view, path, view(scenes[0]), l);
    }
  }

  /**
   * As written, with nothing cached and `in_memory` not given, the data the
   * first scene loads is the data of every scene's tuples.
   */
  lemma FirstSceneDataForAll(scenes: seq<string>, view: string -> NImage.BioView, path: Option<string>,
                             bio: NImage.BioView, l: NImage.Loaded)
    requires scenes != [] && NImage.LoadedData(view(scenes[0]), path, None) == Some(l)
    ensures AllScenes(scenes, view, path, bio, None, None, false).result ==
      Collect(scenes, s => NImage.LayerTuples(view(s), path, l, NoOverrides))
  {
    NImage.CachedDataUsed(view(scenes[0]), path, None, None, NoOverrides);
    StaleCacheAcrossScenes(scenes[1..], view, path, view(scenes[0]), l);
  }

  /**
   * With `set_scene` dropping the cached data, each scene's tuples are
   * exactly what that scene gives on its own, whatever was cached before.
   */
  lemma {:induction false} ReloadingReadsEachScene(scenes: seq<string>, view: string -> NImage.BioView,
                                                   path: Option<string>, bio: NImage.BioView,
                                                   cached: Option<NImage.Loaded>, inMemory: Option<bool>)
    ensures AllScenes(scenes, view, path, bio, cached, inMemory, true).result ==
      Collect(scenes, s => SceneTuples(view(s), path, inMemory))
  {
    if scenes != [] {
      var c := NImage.CallTuples(view(scenes[0]), path, None, inMemory, NoOverrides);
      ReloadingReadsEachScene(scenes[1..], view, path, view(scenes[0]), c.cached, inMemory);
    }
  }

  /**
   * An explicit `in_memory` makes every scene reload, so the code as
   * written then behaves exactly as with the cache dropped on every switch.
   */
  lemma {:induction false} ExplicitMemoryReloads(scenes: seq<string>, view: string -> NImage.BioView,
                                                 path: Option<string>, bio: NImage.BioView,
                                                 cached: Option<NImage.Loaded>, inMemory: Option<bool>)
    requires inMemory.Some?
    ensures AllScenes(scenes, view, path, bio, cached, inMemory, false) ==
      AllScenes(scenes, view, path, bio, cached, inMemory, true)
  {
    if scenes != [] {
      NImage.CachedDataUsed(view(scenes[0]), path, cached, inMemory, NoOverrides);
      var c := NImage.CallTuples(view(scenes[0]), path, None, inMemory, NoOverrides);
      ExplicitMemoryReloads(scenes[1..], view, path, view(scenes[0]), c.cached, inMemory);
    }
  }

  /** Scene "A" of the example file: one 2x2 plane. */
  const PlaneA: NImage.LayerArray := NImage.LayerArray([NImage.Dim("Y", 2), NImage.Dim("X", 2)], map[])

  /** Scene "B" of the example file: two named channels of 2x2. */
  const ChannelsB: NImage.LayerArray :=
    NImage.LayerArray([NImage.Dim("C", 2), NImage.Dim("Y", 2), NImage.Dim("X", 2)], map["C" := ["red", "green"]])

  /** What a small two-scene file shows once scene `s` is set. */
  function ExampleView(s: string): NImage.BioView
  {
    NImage.BioView(["T", "C", "Z", "Y", "X"], ["A", "B"], if s == "A" then 0 else 1, s,
                   if s == "A" then PlaneA else ChannelsB, None, None, None, LayerUtils.Other(0), 1.0, 100.0)
  }

  /** Whatever scene the example file shows, the plane of scene "A" gives one tuple of that plane. */
  lemma PlaneTuple(s: string, path: string)
    ensures var ts := NImage.LayerTuples(ExampleView(s), Some(path), NImage.Loaded(PlaneA, true), NoOverrides);
      ts.Success? && |ts.value| == 1 && ts.value[0].data == NImage.WholeArray(PlaneA)
  {
    assert NImage.DimNames(PlaneA.dims) == ["Y", "X"];
    NImage.NoChannelGivesOneTuple(ExampleView(s), Some(path), NImage.Loaded(PlaneA, true), NoOverrides);
  }

  /** The channels of scene "B" give one tuple per channel, the first holding channel 0 of scene "B"'s array. */
  lemma ChannelTuplesB(path: string)
    ensures var ts := NImage.LayerTuples(ExampleView("B"), Some(path), NImage.Loaded(ChannelsB, true), NoOverrides);
      ts.Success? && |ts.value| == 2 && ts.value[0].data == NImage.ChannelSlice(ChannelsB, 0, 0)
  {
    assert NImage.DimNames(ChannelsB.dims) == ["C", "Y", "X"];
    NImage.OneTuplePerChannel(ExampleView("B"), Some(path), NImage.Loaded(ChannelsB, true), NoOverrides, 0);
  }

  /** Each scene of the example file loads its own array in memory. */
  lemma ExampleLoads(s: string, path: string)
    ensures NImage.LoadedData(ExampleView(s), Some(path), None) ==
      Some(NImage.Loaded(if s == "A" then PlaneA else ChannelsB, true))
  {
  }

  /**
   * Reading all scenes of the example file with `in_memory` not given, as
   * written: scene "B" gives a single tuple, and it holds scene "A"'s array.
   */
  lemma StaleSceneExample(path: string)
    ensures var run := AllScenes(["A", "B"], ExampleView, Some(path), ExampleView("A"), None, None, false);
      run.result.Success? && |run.result.value| == 2 && run.result.value[1].data == NImage.WholeArray(PlaneA)
  {
    var p := Some(path);
    var la := NImage.Loaded(PlaneA, true);
    ExampleLoads("A", path);
    FirstSceneDataForAll(["A", "B"], ExampleView, p, ExampleView("A"), la);
    assert ["A", "B"][1..] == ["B"] && ["B"][1..] == [];
    PlaneTuple("A", path);
    PlaneTuple("B", path);
  }

  /**
   * The same file read with the cached data dropped on every switch: scene
   * "B" gives its two channel slices.
   */
  lemma ReloadingSceneExample(path: string)
    ensures var run := AllScenes(["A", "B"], ExampleView, Some(path), ExampleView("A"), None, None, true);
      run.result.Success? && |run.result.value| == 3 && run.result.value[1].data == NImage.ChannelSlice(ChannelsB, 0, 0)
  {
    var p := Some(path);
    ReloadingReadsEachScene(["A", "B"], ExampleView, p, ExampleView("A"), None, None);
    assert ["A", "B"][1..] == ["B"] && ["B"][1..] == [];
    ExampleLoads("A", path);
    ExampleLoads("B", path);
    PlaneTuple("A", path);
    ChannelTuplesB(path);
  }

  /** The tuples as the reader function returns them. */
  function AsLayers(r: Result<seq<LayerDataTuple>, NImage.TuplesError>): Result<ReadResult, NImage.TuplesError>
  {
    if r.Failure? then Failure(r.error) else Success(Layers(r.value))
  }

  /**
   * `napari_reader_function` on an image showing `bio` with `cached`
   * loaded: the state it leaves the image in and what it gives.
   */
  function ReaderRun(view: string -> NImage.BioView, path: Option<string>, bio: NImage.BioView,
                     cached: Option<NImage.Loaded>, inMemory: Option<bool>, firstSceneOnly: bool, allScenes: bool)
    : Run<ReadResult>
  {
    if |bio.scenes| == 1 || firstSceneOnly then
      var c := NImage.CallTuples(bio, path, cached, inMemory, NoOverrides);
      Run(bio, c.cached, AsLayers(c.result))
    else if allScenes then
      var a := AllScenes(bio.scenes, view, path, bio, cached, inMemory, false);
      Run(a.bio, a.cached, AsLayers(a.result))
    else Run(bio, cached, Success(SceneWidget))
  }

  /**
   * One scene, or first-scene-only, reads the current scene alone even when
   * all scenes were asked for; the scene widget opens exactly when neither
   * that nor all-scenes applies, and then the image is left as it was.
   */
  lemma ReaderRunCases(view: string -> NImage.BioView, path: Option<string>, bio: NImage.BioView,
                       cached: Option<NImage.Loaded>, inMemory: Option<bool>, firstSceneOnly: bool, allScenes: bool)
    ensures var run := ReaderRun(view, path, bio, cached, inMemory, firstSceneOnly, allScenes);
      (|bio.scenes| == 1 || firstSceneOnly) ==>
        run.bio == bio && run.result == AsLayers(NImage.CallTuples(bio, path, cached, inMemory, NoOverrides).result)
    ensures var run := ReaderRun(view, path, bio, cached, inMemory, firstSceneOnly, allScenes);
      run.result == Success(SceneWidget) <==> |bio.scenes| != 1 && !firstSceneOnly && !allScenes
    ensures var run := ReaderRun(view, path, bio, cached, inMemory, firstSceneOnly, allScenes);
      run.result == Success(SceneWidget) ==> run.bio == bio && run.cached == cached
  {
  }

  /** One turn of the all-scenes loop: `img.set_scene(scene)`, then `img.get_layer_data_tuples(in_memory=in_memory)`. */
  method ReadScene(img: NImage.NImage, scene: string, inMemory: Option<bool>, reloading: bool)
    returns (r: Result<seq<LayerDataTuple>, NImage.TuplesError>)
    modifies img
    ensures img.path == old(img.path) && img.bio == img.sceneView(scene)
    ensures NImage.TuplesCall(img.layerData, r) ==
      NImage.CallTuples(img.sceneView(scene), img.path, if reloading then None else old(img.layerData), inMemory,
                        NoOverrides)
  {
    if reloading {
      img.SetSceneReloading(scene);
    } else {
      img.SetScene(scene);
    }
    r := img.GetLayerDataTuples(inMemory, NoOverrides);
  }

  /**
   * The all-scenes loop: set each scene and extend the layer list with its
   * tuples; a failure propagates out of the loop.
   */
  method ReadScenes(img: NImage.NImage, scenes: seq<string>, inMemory: Option<bool>, reloading: bool)
    returns (r: Result<seq<LayerDataTuple>, NImage.TuplesError>)
    modifies img
    ensures img.path == old(img.path)
    ensures Run(img.bio, img.layerData, r) ==
      AllScenes(scenes, img.sceneView, img.path, old(img.bio), old(img.layerData), inMemory, reloading)
  {
    var layerList: seq<LayerDataTuple> := [];
    assert scenes[0..] == scenes;
    ThenNothing(AllScenes(scenes, img.sceneView, img.path, img.bio, img.layerData, inMemory, reloading).result);
    for i := 0 to |scenes|
      invariant img.path == old(img.path)
      invariant Extend(layerList, AllScenes(scenes[i..], img.sceneView, img.path, img.bio, img.layerData, inMemory,
                                            reloading))
                == AllScenes(scenes, img.sceneView, img.path, old(img.bio), old(img.layerData), inMemory, reloading)
    {
      ghost var cached := img.layerData;
      ghost var bio := img.bio;
      var tuples := ReadScene(img, scenes[i], inMemory, reloading);
      AllScenesStep(layerList, scenes, i, img.sceneView, img.path, bio, cached, inMemory, reloading,
                    NImage.TuplesCall(img.layerData, tuples));
      if tuples.Failure? {
        return Failure(tuples.error);
      }
      layerList := layerList + tuples.value;
    }
    assert scenes[|scenes|..] == [] && layerList + [] == layerList;
    r := Success(layerList);
  }

  /**
   * `napari_reader_function` once `nImage(path)` has opened `img`: the
   * current scene's tuples, every scene's tuples, or the scene widget.
   */
  method NapariReaderFunction(img: NImage.NImage, inMemory: Option<bool>, firstSceneOnly: bool, allScenes: bool)
    returns (r: Result<ReadResult, NImage.TuplesError>)
    modifies img
    ensures img.path == old(img.path)
    ensures Run(img.bio, img.layerData, r) ==
      ReaderRun(img.sceneView, img.path, old(img.bio), old(img.layerData), inMemory, firstSceneOnly, allScenes)
  {
    var scenes := img.bio.scenes;
    if |scenes| == 1 || firstSceneOnly {
      var tuples := img.GetLayerDataTuples(inMemory, NoOverrides);
      return AsLayers(tuples);
    }
    if allScenes {
      var tuples := ReadScenes(img, scenes, inMemory, false);
      return AsLayers(tuples);
    }
    r := Success(SceneWidget);
  }
}
