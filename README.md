# ndevio core, modelled in Dafny

ndevio is a napari plugin that reads microscopy images through bioio. This
project models its reader logic and proves properties of that model:

- **Plugin registry and resolver** (`src/ndevio/_bioio_plugin_utils.py`).
  - The table of known bioio plugins, in priority order.
  - The extension index built from the table when the module loads.
  - The resolver that suggests plugins for an extension or a path.
    Multi-dot ("compound") extensions are tried before the final suffix.
  - The feasibility-report analysis.
  - The installation help text, and the four-branch "missing plugins" message.
- **`ReaderPluginManager`** (`src/ndevio/_plugin_manager.py`). A class whose
  feasibility report is computed at most once and then cached. From it come
  the installed, suggested and installable plugins, the reader priority list,
  the reader choice and the installation message.
- **Layer utilities** (`src/ndevio/_layer_utils.py`).
  - Inferring and resolving a layer type from a channel name.
  - The single-channel name.
  - The in-memory decision.
  - The `(data, kwargs, layer_type)` tuple napari builds a layer from.
- **`nImage`** (`src/ndevio/nimage.py`).
  - Which reader opens an image, and opening with a fallback.
  - Loading the layer data lazily.
  - Scale, axis labels and units for each dimension.
  - Layer names.
  - Splitting an image into one RGB tuple, one single-channel tuple, or one
    tuple per channel.
- **napari hook** (`src/ndevio/_napari_reader.py`). When a reader function is
  offered, how its flags are resolved, and how scenes are dispatched.
- **OME-Zarr compatibility** (`src/ndevio/bioio_plugins/_compatibility.py`).
  - Version 0.3 string axes are rewritten in place as version 0.4 dictionaries.
  - Stores older than `coordinateTransformations` get one warning.
- **Settings reset hook** (`scripts/reset_settings_values.py`). Puts every
  setting's `value` back to its `default`, and rewrites the file only when
  something changed.

Modules:

| Module | File |
|---|---|
| `Wrappers` (Option/Result) | `wrappers.dfy` |
| `Text` (ASCII lower-casing, prefixes, infixes, counting, `str.join`, code-point order and `sorted(set(...))`) | `text.dfy` |
| `Paths` (`pathlib` name, suffix and stem) | `paths.dfy` |
| `Lists` (order-keeping filter) | `lists.dfy` |
| `Registry` | `registry.dfy` |
| `Suggest` | `suggest.dfy` |
| `Feasibility` | `feasibility.dfy` |
| `PluginManager` | `plugin_manager.dfy` |
| `LayerUtils` | `layer_utils.dfy` |
| `NImage` | `nimage.dfy` |
| `NapariReader` | `napari_reader.dfy` |
| `Compatibility` | `compatibility.dfy` |
| `ResetSettings` | `reset_settings.dfy` |

How Python is modelled:

- Where the source changes state, the model is imperative: the manager's
  cache, `nImage`'s loaded data, the OME-Zarr reader's multiscales list and
  the settings file are class fields.
- The loops of the source are `while`/`for` loops. Each is proved against a
  specification function.
- A Python dictionary whose order matters is a sequence of pairs.
- Truthiness is written out. For example, `None` and `''` are both falsy for
  the preferred reader.
- Exceptions become error values of a `Result` or `Outcome`. This covers
  those the code handles and those it lets propagate: the `AssertionError`
  and `KeyError` of `get_layer_data_tuples` (`NImage.TuplesError`), the
  `UnsupportedFileFormatError` of opening (`NImage.OpenError`) and the
  `AttributeError` of the axis rewrite (`Compatibility.Outcome`).

Foreign calls become parameters, so every property holds whatever they do:

- bioio's `plugin_feasibility_report`
- whether a reader class imports
- `BioImage.determine_plugin`
- opening a `BioImage` and its squeezed data
- what the opened image shows once `set_scene` has selected a scene
- `format_plugin_installation_message`
- `get_colormap_for_channel`

## Model

| member | source | states |
|---|---|---|
| Registry.KnownPluginsAreKeys | src/ndevio/_plugin_manager.py:91-101 | `known_plugins` is the table's keys, in table order |
| Registry.PluginsWellFormed | src/ndevio/_bioio_plugin_utils.py:34-99 | In the plugin table, names are unique and every extension list is non-empty and duplicate-free. Every extension starts with a dot |
| Registry.BuildExtensionIndex | src/ndevio/_bioio_plugin_utils.py:101-107 | The built index has a key exactly for the extensions some plugin declares. Each key maps to the declaring plugins' names in table order |
| Registry.OwnersAreDeclaring | src/ndevio/_bioio_plugin_utils.py:101-107 | With duplicate-free extension lists, the index lists every plugin declaring an extension exactly once |
| Registry.DeclaringMembers | src/ndevio/_bioio_plugin_utils.py:101-107 | A plugin is listed for an extension if and only if it is in the table and declares that extension |
| Registry.DeclaringOrdered | src/ndevio/_bioio_plugin_utils.py:101-107 | Listed plugins keep table order |
| Registry.DeclaringNoDuplicates | src/ndevio/_bioio_plugin_utils.py:101-107 | With distinct names, no plugin is listed twice for one extension |
| Suggest.SuggestForExtensionDeclaring | src/ndevio/_bioio_plugin_utils.py:133-144 | The extension lookup lower-cases the extension. It gives exactly the plugins declaring it, in table order, each once, and nothing for an unknown extension |
| Suggest.SuggestForExtensionCaseInsensitive | src/ndevio/_bioio_plugin_utils.py:135 | The letter case of the extension does not change the suggestions |
| Suggest.LookupFindsMember | src/ndevio/_bioio_plugin_utils.py:140-141 | With distinct names, looking a plugin up by name finds that plugin's record |
| Suggest.IsCompoundCount | src/ndevio/_bioio_plugin_utils.py:158-159 | The source's test, a leading dot and more than two parts after splitting on dots, holds exactly when the extension has at least two dots |
| Suggest.FindCompound | src/ndevio/_bioio_plugin_utils.py:155-164 | The search loop returns the first plugin, in table order, with a compound extension that ends the lower-cased file name. It returns nothing when there is none |
| Suggest.SuggestPluginsForPath | src/ndevio/_bioio_plugin_utils.py:147-166 | Path suggestion is the compound search, then the suffix lookup |
| Suggest.CompoundPrecedence | src/ndevio/_bioio_plugin_utils.py:155-164 | When any compound extension matches, the answer is that single plugin, the earliest matching one |
| Suggest.SuffixFallback | src/ndevio/_bioio_plugin_utils.py:166 | Without a compound match, the answer is the suffix lookup: the plugins declaring the lower-cased suffix |
| Suggest.SuffixNeverCompound | src/ndevio/_bioio_plugin_utils.py:166 | A final suffix has one dot, so the suffix lookup never matches a compound extension |
| Suggest.SingleDotExtensionSuggestsOwner | src/ndevio/_bioio_plugin_utils.py:147-166 | For a dot-free stem plus a single-dot extension that a plugin declares, that plugin is suggested |
| Suggest.OmeTiffNamesResolveToOmeTiff | src/ndevio/_bioio_plugin_utils.py:147-166 | A name ending `.ome.tif` or `.ome.tiff`, in any case, resolves to `bioio-ome-tiff` alone |
| Suggest.TiledNamesResolveToOmeTiff | src/ndevio/_bioio_plugin_utils.py:147-166 | A name ending `.tiles.ome.tif` also resolves to `bioio-ome-tiff` alone |
| Suggest.TiledTiffNeverSuggested | src/ndevio/_bioio_plugin_utils.py:147-166 | `bioio-ome-tiled-tiff` is never suggested, for any path. This is a consequence of table order |
| Feasibility.AnalyzeFeasibilityReport | src/ndevio/_bioio_plugin_utils.py:110-130 | The one-pass loop skips `ArrayLike`. It computes the available readers and errors of the specification |
| Feasibility.AvailableReadersMembers | src/ndevio/_bioio_plugin_utils.py:117-122 | A reader is available if and only if the report marks it supported and it is not `ArrayLike` |
| Feasibility.AnalyzeSupported | src/ndevio/_bioio_plugin_utils.py:127 | `supported` holds exactly when some reader other than `ArrayLike` is supported |
| Feasibility.ReaderErrorsEntries | src/ndevio/_bioio_plugin_utils.py:123-124 | A reader gets an error entry if and only if it is not `ArrayLike`, is unsupported and has a truthy error. The entry is that error |
| Feasibility.ReaderErrorsNoOthers | src/ndevio/_bioio_plugin_utils.py:117-124 | Only readers named in the report get error entries |
| Feasibility.NonCore | src/ndevio/_bioio_plugin_utils.py:180 | The non-core filter keeps exactly the plugins without the core flag |
| Feasibility.FormatPluginSuggestion | src/ndevio/_bioio_plugin_utils.py:169-200 | Collecting the lines and joining them gives the specified text |
| Feasibility.SuggestionTextNone | src/ndevio/_bioio_plugin_utils.py:173-177 | With no plugins, the text says that none were found for the context |
| Feasibility.SuggestionTextAllCore | src/ndevio/_bioio_plugin_utils.py:182-187 | With only core plugins, the text says they should already be installed |
| Feasibility.SuggestionTextNamesNonCore | src/ndevio/_bioio_plugin_utils.py:189-200 | With a non-core plugin, the text opens with "To read <context>" and holds that plugin's `pip install` line |
| Feasibility.InstallLinesExactly | src/ndevio/_bioio_plugin_utils.py:191-197 | Among the lines, the install lines are exactly those of the non-core plugins |
| Feasibility.MissingPlugins | src/ndevio/_bioio_plugin_utils.py:235-239 | The missing plugins are exactly the suggested ones whose names are not among the available readers |
| Feasibility.ReaderListSorted | src/ndevio/_bioio_plugin_utils.py:241-256 | The reader list holds every supported reader once, in strictly increasing code-point order, and nothing else |
| Feasibility.MessageCapableButMissing | src/ndevio/_bioio_plugin_utils.py:229-250 | Some reader is supported and a suggested plugin is not. The message is the "failed to read" branch, with the reader list and the suggestion for the missing plugins |
| Feasibility.MessageCapableComplete | src/ndevio/_bioio_plugin_utils.py:251-256 | Some reader is supported and every suggested plugin is too. The message is "File supported by" with the reader list |
| Feasibility.MessageSuggestOnly | src/ndevio/_bioio_plugin_utils.py:259-260 | Nothing is supported and something is suggested. The message is the suggestion text for all suggested plugins |
| Feasibility.MessageUnknownExtension | src/ndevio/_bioio_plugin_utils.py:261-265 | Nothing is supported and nothing is suggested. The message names the file's suffix |
| Feasibility.RenderCapableButMissing | src/ndevio/_bioio_plugin_utils.py:242-250 | The text opens with "Installed plugin(s) <list>" and contains everything the list and the suggestion contain |
| Feasibility.RenderCapableComplete | src/ndevio/_bioio_plugin_utils.py:252-256 | The text opens with "File supported by: <list>" and contains everything the list contains |
| Feasibility.RenderUnknownExtension | src/ndevio/_bioio_plugin_utils.py:262-265 | The text opens with "No bioio plugins found for extension" and the quoted suffix |
| Feasibility.MessageNamesReaders | src/ndevio/_bioio_plugin_utils.py:226-256 | Whenever a reader is supported, the message names it |
| Feasibility.MessageInstallsMissing | src/ndevio/_bioio_plugin_utils.py:229-250 | With a reader supported, a suggested plugin that is neither supported nor core gets its `pip install` line in the message |
| PluginManager.Installed | src/ndevio/_plugin_manager.py:124-134 | `ArrayLike` is never an installed plugin |
| PluginManager.InstalledExactly | src/ndevio/_plugin_manager.py:133-134 | The installed plugins are exactly the report's readers other than `ArrayLike` |
| PluginManager.SupportedAreInstalled | src/ndevio/_plugin_manager.py:133-134 | A reader that the report marks supported is installed |
| PluginManager.IsCoreOfKnown | src/ndevio/_plugin_manager.py:177 | A known plugin is core exactly when its table entry says so |
| PluginManager.Suggested | src/ndevio/_plugin_manager.py:136-153 | Without a path there are no suggestions. With a path, the suggestions are the names of the resolver's suggestions |
| PluginManager.InstallableExactly | src/ndevio/_plugin_manager.py:155-179 | The installable plugins are exactly the suggested ones that are neither core nor installed, in suggestion order |
| PluginManager.PreferredFirst | src/ndevio/_plugin_manager.py:215-228 | An installed, importable preferred reader comes first in the priority list and appears nowhere else |
| PluginManager.PreferredNotInstalled | src/ndevio/_plugin_manager.py:215-218 | A preferred reader that is not installed changes nothing |
| PluginManager.PriorityRest | src/ndevio/_plugin_manager.py:224-231 | Apart from the preferred reader, the list is exactly the installed, importable known plugins, each once and in table order |
| PluginManager.NothingInstalledNoPriority | src/ndevio/_plugin_manager.py:212-233 | With nothing installed, the priority list is empty |
| PluginManager.KnownLoop | src/ndevio/_plugin_manager.py:224-231 | The loop over the known plugins keeps the installed, importable ones that are not the preferred reader |
| PluginManager.NoPathNoPriority | src/ndevio/_plugin_manager.py:117-118 | Without a path, the report is empty, nothing is installed and the priority list is empty |
| PluginManager.ReaderPluginManager.constructor | src/ndevio/_plugin_manager.py:79-88 | A new manager keeps the path and starts with an empty cache |
| PluginManager.ReaderPluginManager.FeasibilityReport | src/ndevio/_plugin_manager.py:103-122 | The report is empty without a path. bioio is asked once on first use with a path, and the cache answers after that |
| PluginManager.ReaderPluginManager.InstalledPlugins | src/ndevio/_plugin_manager.py:124-134 | Gives the installed plugins of the cached report |
| PluginManager.ReaderPluginManager.InstallablePlugins | src/ndevio/_plugin_manager.py:155-179 | Gives the installable plugins of the suggestions and the cached report |
| PluginManager.ReaderPluginManager.GetPriorityList | src/ndevio/_plugin_manager.py:181-233 | Gives the specified priority list for the cached report |
| PluginManager.ReaderPluginManager.GetReader | src/ndevio/_plugin_manager.py:235-283 | Gives `None` without a path or with an empty priority list. Otherwise it gives what plugin determination gives for the priority list |
| PluginManager.ReaderPluginManager.GetInstallationMessage | src/ndevio/_plugin_manager.py:285-306 | Empty without a path. Otherwise the formatter is applied to the file name and the suggested, installed and installable plugins |
| LayerUtils.InferLayerType | src/ndevio/_layer_utils.py:55-79 | The result is `labels` if and only if a label keyword occurs in the lower-cased name. Otherwise it is `image` |
| LayerUtils.KeywordMakesLabels | src/ndevio/_layer_utils.py:17-79 | A keyword anywhere in the name, in any letter case, gives `labels` |
| LayerUtils.InferCaseInsensitive | src/ndevio/_layer_utils.py:76 | Names that agree once lower-cased get the same type |
| LayerUtils.NoKeywordIsImage | src/ndevio/_layer_utils.py:76-79 | A name with no keyword is an image |
| LayerUtils.ResolveLayerType | src/ndevio/_layer_utils.py:82-108 | The global override wins, then a per-channel entry, then the inferred type |
| LayerUtils.ResolveWithoutOverrides | src/ndevio/_layer_utils.py:104-108 | Without overrides, the type is always `labels` or `image` |
| LayerUtils.SingleChannelName | src/ndevio/_layer_utils.py:20-52 | There is a name exactly when the channel coordinate exists and has one value. The name is that value |
| LayerUtils.DetermineInMemory | src/ndevio/_layer_utils.py:138-140 | Array data (no path) is always loaded into memory |
| LayerUtils.InMemoryMonotone | src/ndevio/_layer_utils.py:111-149 | A file loaded into memory would still be if it were smaller, if more memory were available, or if either limit were higher |
| LayerUtils.BlendingAdditive | src/ndevio/_layer_utils.py:216-220 | Blending is additive exactly for a channel after the first of a multi-channel image. Otherwise it is `translucent_no_depth` |
| LayerUtils.BuildLayerTuple | src/ndevio/_layer_utils.py:152-226 | Building the tuple step by step gives the data, the layer type and the specified kwargs |
| LayerUtils.DefaultKwargsShape | src/ndevio/_layer_utils.py:201-220 | The kwargs hold the five base entries. `rgb` appears exactly for RGB layers. Colormap and blending appear exactly for non-RGB image layers |
| LayerUtils.ExtraKwargsWin | src/ndevio/_layer_utils.py:222-224 | Every extra kwarg overrides its default, and every other key keeps its default |
| NImage.PathOf | src/ndevio/nimage.py:157 | The instance's path is set exactly for `str` or `Path` input |
| NImage.ResolveReader | src/ndevio/nimage.py:30-76 | An explicit reader wins. Otherwise there is a reader exactly when the input is a path and the preferred reader is set and installed, and then it is the preferred reader |
| NImage.OpenFailure | src/ndevio/nimage.py:143-153 | The suggestion error is raised exactly for path input. Array input re-raises the plain error |
| NImage.OpenAttempts | src/ndevio/nimage.py:133-153 | There are at most two attempts, the resolved reader first. bioio's own choice is tried second only when a resolved reader failed. Opening succeeds exactly when the last attempt does |
| NImage.NoResolvedReaderOneAttempt | src/ndevio/nimage.py:147-149 | Without a resolved reader there is a single attempt, with bioio's own choice |
| NImage.SuggestionsOnlyForPaths | src/ndevio/nimage.py:143-153 | When opening fails, path input gets the suggestion error and array input the plain error |
| NImage.Create | src/ndevio/nimage.py:124-157 | Construction succeeds exactly when opening does. The new instance has the opened image and its scenes, the path exactly for path input, and no loaded data |
| NImage.LoadedData | src/ndevio/nimage.py:181-213 | Data with a mosaic-tile dimension is the mosaic data, and loading fails when the reader cannot give it. Other data is the plain data. An explicit `in_memory` is kept, and array data is in memory |
| NImage.AxisLabelsExactly | src/ndevio/nimage.py:254-278 | The axis labels are the data's dimensions without C and S, in order. There are none without data |
| NImage.LayerScaleEntries | src/ndevio/nimage.py:219-252 | Each axis label has one entry: the metadata value when it is non-zero, otherwise 1.0. The entry is 1.0 everywhere when the scale cannot be read. No entry is zero |
| NImage.LayerUnits | src/ndevio/nimage.py:280-310 | Each axis label has one entry: its unit, or `None` when it has no unit or the units cannot be read |
| NImage.LayerNameShape | src/ndevio/nimage.py:350-377 | The name starts with the channel name when there is one and ends with the path stem or `unknown path`. It shows the scene index and name exactly for multi-scene files or a non-default scene |
| NImage.PlainLayerName | src/ndevio/nimage.py:371-377 | A single-scene image in its default scene, without a channel name, is named by its stem alone |
| NImage.SceneLayerName | src/ndevio/nimage.py:371-377 | Without a channel name but with the scene shown, the name is index, scene and stem, joined by ` :: ` |
| NImage.IndexOf | src/ndevio/nimage.py:503 | `list.index` gives the first position of the channel dimension |
| NImage.SplitChannels | src/ndevio/nimage.py:506-539 | One tuple per channel, tuple `i` for channel `i` |
| NImage.RgbGivesOneTuple | src/ndevio/nimage.py:458-471 | An image whose reader has a samples dimension gives one `image` tuple of the whole array. The tuple has `rgb` set and has neither colormap nor blending |
| NImage.NoChannelGivesOneTuple | src/ndevio/nimage.py:473-497 | Without a channel dimension there is one tuple of the whole array. Its type is resolved from the single-channel name, and its `name` kwarg is the layer name built with that channel name, unless the channel's extra kwargs set `name` |
| NImage.OneTuplePerChannel | src/ndevio/nimage.py:499-539 | Otherwise there is one tuple per channel, in order. There are as many tuples as the channel dimension is long. Tuple `i` slices channel `i`, has that channel's resolved type and the kwargs of channel `i` of all, with that channel's extra kwargs. Its `name` kwarg, unless the extra kwargs set it, is the layer name, which starts with the channel's name: its coordinate, or `channel_{i}` |
| NImage.GlobalTypeForAll | src/ndevio/nimage.py:447-448 | A global layer type is the type of every tuple of a non-RGB image, whatever the per-channel types say |
| NImage.ChannelBlending | src/ndevio/nimage.py:524-536 | In a channel's image tuple that no extra kwarg overrides, blending is additive exactly after the first channel of a multi-channel image |
| NImage.CachedDataUsed | src/ndevio/nimage.py:441-451 | Cached data is used as it is, whatever scene the image now shows, unless `in_memory` is given. Otherwise the data is loaded from the scene shown and stays cached, whatever was cached before. The call fails for missing data exactly when nothing could be loaded |
| NImage.NImage.constructor | src/ndevio/nimage.py:155-157 | A new instance has no loaded data, and a path exactly for path input |
| NImage.NImage.SetScene | src/ndevio/_napari_reader.py:128 | The image shows the scene set. The cached data stays, because nImage does not override `set_scene` |
| NImage.NImage.SetSceneReloading | src/ndevio/_napari_reader.py:128 | The corrected `set_scene`: the image shows the scene set, and nothing stays cached |
| NImage.NImage.LoadLayerData | src/ndevio/nimage.py:181-213 | Stores the loaded data of the specification |
| NImage.NImage.GetLayerData | src/ndevio/nimage.py:163-179 | Loads on first access only. After that it returns the cached data |
| NImage.NImage.GetLayerDataTuples | src/ndevio/nimage.py:383-539 | Leaves the cached data and gives the result of the call's specification, for the scene the image shows |
| NImage.NImage.BuildTuples | src/ndevio/nimage.py:453-539 | Gives the RGB, single-channel or per-channel tuples of the specification |
| NImage.NImage.ChannelTuples | src/ndevio/nimage.py:506-539 | The split loop gives one tuple per channel, tuple `i` for channel `i` |
| NapariReader.ResolveFlag | src/ndevio/_napari_reader.py:56-66 | An explicit flag wins. Otherwise the flag holds exactly when the scene-handling setting names its mode |
| NapariReader.NapariGetReader | src/ndevio/_napari_reader.py:17-86 | A reader function is offered exactly for a single path with some suggested plugin. It carries `in_memory` and the resolved flags |
| NapariReader.SettingPicksOneMode | src/ndevio/_napari_reader.py:56-66 | The setting alone never asks for both first-scene-only and all-scenes |
| NapariReader.CollectAppend | src/ndevio/_napari_reader.py:126-130 | Reading scenes `a` and then scenes `b` gives `a`'s tuples followed by `b`'s, or the first failure |
| NapariReader.CollectFirstFailure | src/ndevio/_napari_reader.py:126-130 | Reading fails exactly when some scene fails, and then with the failure of the first scene that fails |
| NapariReader.CollectBlock | src/ndevio/_napari_reader.py:126-130 | Scene `j`'s tuples appear whole and unchanged, right after those of the scenes before it |
| NapariReader.StaleCacheAcrossScenes | src/ndevio/_napari_reader.py:125-130 | Once data is cached and `in_memory` is not given, every scene's tuples are built from that same data, and the cache never changes |
| NapariReader.FirstSceneDataForAll | src/ndevio/_napari_reader.py:125-130 | With nothing cached and `in_memory` not given, the data the first scene loads is the data of every scene's tuples |
| NapariReader.ReloadingReadsEachScene | src/ndevio/_napari_reader.py:125-130 | With the cache dropped on every switch, each scene's tuples are what that scene gives on its own |
| NapariReader.ExplicitMemoryReloads | src/ndevio/nimage.py:441-445 | With `in_memory` given, the loop as written behaves exactly as with the cache dropped on every switch |
| NapariReader.StaleSceneExample | src/ndevio/_napari_reader.py:125-130 | A two-scene file read as written: the second scene, which has two channels, gives one tuple holding the first scene's array |
| NapariReader.ReloadingSceneExample | src/ndevio/_napari_reader.py:125-130 | The same file with the cache dropped on every switch: the second scene gives its two channel slices |
| NapariReader.ReaderRunCases | src/ndevio/_napari_reader.py:120-134 | One scene, or first-scene-only, reads only the current scene, even when all scenes were asked for. The scene widget opens exactly when neither that nor all-scenes applies, and then the image is untouched |
| NapariReader.ReadScene | src/ndevio/_napari_reader.py:128-129 | One turn of the loop: the image shows the scene, and the call gives its tuples from what is cached then |
| NapariReader.ReadScenes | src/ndevio/_napari_reader.py:125-130 | The all-scenes loop leaves the image as the all-scenes specification says and gives its tuples in scene order, or the first failure |
| NapariReader.NapariReaderFunction | src/ndevio/_napari_reader.py:117-134 | Leaves the image and gives the result of the reader function's specification: the current scene's tuples, every scene's tuples, or the scene widget |
| Compatibility.AxisTypes | src/ndevio/bioio_plugins/_compatibility.py:32-38 | `t` in either case is time and `c` in either case is channel. Every other name is space |
| Compatibility.PatchSceneShape | src/ndevio/bioio_plugins/_compatibility.py:79-92 | A rewritten scene keeps its datasets, its version and its axis order. Each axis becomes a dictionary with exactly its name and type. Other scenes are unchanged |
| Compatibility.PatchSceneIdempotent | src/ndevio/bioio_plugins/_compatibility.py:79-92 | A rewritten scene has no string axes left, so rewriting again changes nothing |
| Compatibility.FirstUnpatchable | src/ndevio/bioio_plugins/_compatibility.py:84-88 | Finds the first scene whose rewrite raises `AttributeError`: a string first axis with a dictionary later. Every scene before it can be rewritten |
| Compatibility.NormalizeIdempotent | src/ndevio/bioio_plugins/_compatibility.py:59-101 | Normalising twice gives what normalising once gives. A second call rewrites nothing, or fails on the same scene |
| Compatibility.NothingToRewrite | src/ndevio/bioio_plugins/_compatibility.py:78-94 | A list without string axes is left exactly as it was, and nothing is logged |
| Compatibility.WarnVersion | src/ndevio/bioio_plugins/_compatibility.py:120-123 | The warning fires exactly when the list is non-empty, the first scene has datasets and its first dataset lacks `coordinateTransformations` |
| Compatibility.WarningContents | src/ndevio/bioio_plugins/_compatibility.py:123-132 | The warning names the store's version (or says it is unknown), the missing key and the fallback `scale=1.0` |
| Compatibility.FallbackSaysUnknown | src/ndevio/bioio_plugins/_compatibility.py:94-123 | Both version fallbacks say that the version is unknown |
| Compatibility.NormalizeKeepsWarning | src/ndevio/bioio_plugins/_compatibility.py:44-56 | Normalising never changes whether the warning fires, or what it says |
| Compatibility.OmeZarrReader.constructor | src/ndevio/bioio_plugins/_compatibility.py:74 | The reader holds the given multiscales metadata |
| Compatibility.OmeZarrReader.NormalizeV03StringAxes | src/ndevio/bioio_plugins/_compatibility.py:59-101 | Rewrites the scenes in place up to the first one that raises. Returns unpatched, patched with the version text, or the failing scene |
| Compatibility.OmeZarrReader.WarnIfNoCoordinateTransforms | src/ndevio/bioio_plugins/_compatibility.py:104-132 | Gives the warning's version text exactly when the warning fires |
| Compatibility.OmeZarrReader.ApplyOmeZarrCompatPatches | src/ndevio/bioio_plugins/_compatibility.py:44-56 | Normalises first. The warning is checked only when normalising did not raise, and it answers as for the original metadata |
| ResetSettings.ResetSettingEffect | scripts/reset_settings_values.py:28-38 | A mapping with both keys ends with `value` equal to `default` and every other key unchanged. Anything else is untouched. A setting changes exactly when its value differed |
| ResetSettings.NothingToReset | scripts/reset_settings_values.py:24-39 | A document with nothing to reset is left exactly as it was |
| ResetSettings.ResetIdempotent | scripts/reset_settings_values.py:13-45 | After a reset nothing needs resetting, so a second run reports no change and writes nothing |
| ResetSettings.SettingsFile.constructor | scripts/reset_settings_values.py:18-19 | The file holds the given document and has not been rewritten |
| ResetSettings.SettingsFile.ResetSettingsToDefaults | scripts/reset_settings_values.py:13-45 | Reports a change exactly when the file has content and some setting needed resetting. Then the file is rewritten once, with the reset document; otherwise it is untouched |

## Left out

- Logging and `print`. The log and print calls are not modelled. The compatibility patches return the version text their records carry instead.
- I/O.
  - Reading and writing the settings file is modelled as the document it holds.
  - `main` of `scripts/reset_settings_values.py` (file existence check, exit codes) is not part of this model.
  - YAML parsing and dumping are not part of this model.
- `suggest_plugins_for_path`, `get_installed_plugins`, `get_reader_by_name` and `format_plugin_installation_message` are imported by the core but defined elsewhere.
  - The suggested names are modelled as the names of `_suggest_plugins_for_path`'s records.
  - The installed set and the importable set are parameters.
  - The formatter is a function parameter.
- `raise_unsupported_with_suggestions` is not part of this model. The error it raises is the `UnsupportedWithSuggestions` value.
- `NImage.ResolveReader`: does not model an `ImportError` from `get_reader_by_name` for an installed preferred reader. A reader is named by its plugin.
- The `layer_metadata` dictionary (`bioimage`, `raw_image_metadata`, the optional `ome_metadata`) is one opaque value of the opened image.
- Array values are not modelled. A tuple's data names the loaded array it comes from (its dimensions and coordinates): the whole squeezed array or one slice of it.
- `dims`, coordinates and the sizes are what the opened image exposes.
- `LayerUtils.DetermineInMemory`: file size and available memory are real-valued parameters. The file-system and `psutil` calls that produce them are left out.
- `NapariReader.NapariReaderFunction`: takes the image `nImage(path)` has opened. Opening and its failure are `NImage.Create`'s. What bioio's `set_scene` resets inside the `BioImage` is summed up in what the image shows for the scene.
- The scene widget and the plugin-installer widget (`_open_scene_container`, `_open_plugin_installer`) are napari docking widgets. They are left out. Opening the scene widget is the `SceneWidget` result.
- Letter case uses ASCII lowering only.
- Path names follow POSIX `pathlib` rules. The model does not cover Windows separators, drive letters, or the normalisation of `.` and repeated separators.
- `ResetSettings.SettingsFile.ResetSettingsToDefaults`: groups are assumed to be mappings, on which the source would otherwise raise. A setting's fields are a map, so their key order is not kept.
- `Compatibility.OmeZarrReader.NormalizeV03StringAxes`: axis names and dictionary fields are strings. A non-string entry other than a dictionary is not modelled.

Where the repository's own comments and tests expect something other than
what the code does, the model follows the code:

- The comment at `src/ndevio/_bioio_plugin_utils.py:154` names
  `.tiles.ome.tif` among the compound extensions the search tries first.
  However, `bioio-ome-tiff` comes first in the table and its `.ome.tif` also
  ends such a name. So the code resolves `x.tiles.ome.tif` to `bioio-ome-tiff`
  (`Suggest.TiledNamesResolveToOmeTiff`), and the tiled plugin is never
  suggested (`Suggest.TiledTiffNeverSuggested`).
- `tests/test_plugin_manager.py:54` expects `bioio-tifffile` not to be
  installable when it is not installed. The table gives `bioio-tifffile` no
  core flag, so the model, like the code, counts it as installable.
- The compatibility tests refer to functions such as `warn_if_old_zarr_format`
  that `src/ndevio/bioio_plugins/_compatibility.py` does not define. Only the
  functions that file defines are modelled.

## Findings

| source | as written | input that shows it | evidently intended | confidence | as-written member | corrected member |
|---|---|---|---|---|---|---|
| src/ndevio/_napari_reader.py:125-130 | `set_scene` keeps nImage's cached `_layer_data`, and `get_layer_data_tuples` reloads only when nothing is cached or `in_memory` is given (`src/ndevio/nimage.py:441-445`). So with `in_memory=None` every scene after the first is built from the first scene's data | a file whose scene A is one plane and whose scene B has two channels, read with all scenes and `in_memory` unset: B gives one tuple holding A's array | each scene's tuples are built from that scene's own data, as when the cache is dropped on `set_scene` | not executed; the stale reuse follows from the two cited places | NapariReader.StaleSceneExample | NapariReader.ReloadingReadsEachScene |
