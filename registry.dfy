/**
 * The static table of known bioio reader plugins, in priority order, and the
 * extension index built from it when the module is loaded.
 */
module Registry {
  import opened Wrappers
  import opened Text

  /** One entry of the table: the plugin's name with the record it maps to. */
  datatype Plugin = Plugin(
    name: string,
    extensions: seq<string>,
    description: string,
    repository: string,
    core: bool,
    note: Option<string>)

  /** The known plugins, in the order that decides every tie between them. */
  const Plugins: seq<Plugin> := [
    Plugin("bioio-czi", [".czi"], "Zeiss CZI files",
      "https://github.com/bioio-devs/bioio-czi", false, None),
    Plugin("bioio-dv", [".dv", ".r3d"], "DeltaVision files",
      "https://github.com/bioio-devs/bioio-dv", false, None),
    Plugin("bioio-imageio", [".bmp", ".gif", ".jpg", ".jpeg", ".png"], "Generic image formats (PNG, JPG, etc.)",
      "https://github.com/bioio-devs/bioio-imageio", true, None),
    Plugin("bioio-lif", [".lif"], "Leica LIF files",
      "https://github.com/bioio-devs/bioio-lif", false, None),
    Plugin("bioio-nd2", [".nd2"], "Nikon ND2 files",
      "https://github.com/bioio-devs/bioio-nd2", false, None),
    Plugin("bioio-ome-tiff", [".ome.tif", ".ome.tiff", ".tif", ".tiff"], "OME-TIFF files with valid OME-XML metadata",
      "https://github.com/bioio-devs/bioio-ome-tiff", true, None),
    Plugin("bioio-ome-tiled-tiff", [".tiles.ome.tif"], "Tiled OME-TIFF files",
      "https://github.com/bioio-devs/bioio-ome-tiled-tiff", false, None),
    Plugin("bioio-ome-zarr", [".zarr"], "OME-Zarr files",
      "https://github.com/bioio-devs/bioio-ome-zarr", true, None),
    Plugin("bioio-sldy", [".sldy", ".dir"], "3i SlideBook files",
      "https://github.com/bioio-devs/bioio-sldy", false, None),
    Plugin("bioio-tifffile", [".tif", ".tiff"], "TIFF files (including those without OME metadata)",
      "https://github.com/bioio-devs/bioio-tifffile", false, None),
    Plugin("bioio-tiff-glob", [".tiff"], "TIFF sequences (glob patterns)",
      "https://github.com/bioio-devs/bioio-tiff-glob", false, None),
    Plugin("bioio-bioformats", [".oib", ".oif", ".vsi", ".ims", ".lsm", ".stk"], "Proprietary microscopy formats (requires Java)",
      "https://github.com/bioio-devs/bioio-bioformats", false, Some("Requires Java Runtime Environment"))
  ]

  function Names(ps: seq<Plugin>): (r: seq<string>)
    ensures |r| == |ps|
    ensures forall i :: 0 <= i < |ps| ==> r[i] == ps[i].name
  {
    if ps == [] then [] else [ps[0].name] + Names(ps[1..])
  }

  /** `list(BIOIO_PLUGINS.keys())`, written out. */
  const KnownPlugins: seq<string> := ["bioio-czi", "bioio-dv", "bioio-imageio", "bioio-lif", "bioio-nd2",
    "bioio-ome-tiff", "bioio-ome-tiled-tiff", "bioio-ome-zarr", "bioio-sldy", "bioio-tifffile", "bioio-tiff-glob",
    "bioio-bioformats"]

  /** The written-out key list is the table's names, in table order. */
  lemma KnownPluginsAreKeys()
    ensures |KnownPlugins| == |Plugins|
    ensures forall i :: 0 <= i < |Plugins| ==> KnownPlugins[i] == Plugins[i].name
  {
  }

  predicate NamesDistinct(reg: seq<Plugin>)
  {
    forall i, j :: 0 <= i < j < |reg| ==> reg[i].name != reg[j].name
  }

  predicate ExtensionsDistinct(reg: seq<Plugin>)
  {
    forall i, a, b :: 0 <= i < |reg| && 0 <= a < b < |reg[i].extensions| ==>
      reg[i].extensions[a] != reg[i].extensions[b]
  }

  predicate ExtensionsDotted(reg: seq<Plugin>)
  {
    forall i, a :: 0 <= i < |reg| && 0 <= a < |reg[i].extensions| ==>
      StartsWith(reg[i].extensions[a], ".")
  }

  predicate NamesPrefixed(reg: seq<Plugin>)
  {
    forall i :: 0 <= i < |reg| ==> reg[i].extensions != [] && StartsWith(reg[i].name, "bioio-")
  }

  /** No ASCII capital and no separator, and at least two characters long. */
  predicate PlainExtension(e: string)
  {
    |e| >= 2 && forall k :: 0 <= k < |e| ==> !('A' <= e[k] <= 'Z') && e[k] != '/'
  }

  lemma PlainExtensionLower(e: string)
    requires PlainExtension(e)
    ensures Lower(e) == e && '/' !in e
  {
  }

  predicate ExtensionsPlain(reg: seq<Plugin>)
  {
    forall i, a :: 0 <= i < |reg| && 0 <= a < |reg[i].extensions| ==> PlainExtension(reg[i].extensions[a])
  }

  /** Names unique, every extension list non-empty, duplicate-free and dot-prefixed. */
  predicate WellFormed(reg: seq<Plugin>)
  {
    NamesDistinct(reg) && ExtensionsDistinct(reg) && ExtensionsDotted(reg) && NamesPrefixed(reg)
  }

  /** The written-out keys are pairwise different. */
  lemma KnownPluginsDistinct()
    ensures forall i, j :: 0 <= i < j < |KnownPlugins| ==> KnownPlugins[i] != KnownPlugins[j]
  {
  }

  lemma PluginsNamesDistinct()
    ensures NamesDistinct(Plugins)
  {
    KnownPluginsAreKeys();
    KnownPluginsDistinct();
  }

  lemma PluginsExtensionsDistinct() ensures ExtensionsDistinct(Plugins) {}
  lemma PluginsExtensionsDotted() ensures ExtensionsDotted(Plugins) {}
  lemma PluginsNamesPrefixed() ensures NamesPrefixed(Plugins) {}
  /** Every extension the table declares, each once. */
  const DeclaredExtensions: seq<string> := [".czi", ".dv", ".r3d", ".bmp", ".gif", ".jpg", ".jpeg", ".png",
    ".lif", ".nd2", ".ome.tif", ".ome.tiff", ".tif", ".tiff", ".tiles.ome.tif", ".zarr", ".sldy", ".dir",
    ".oib", ".oif", ".vsi", ".ims", ".lsm", ".stk"]

  lemma DeclaredExtensionsPlainFrom(lo: int)
    requires lo in {0, 6, 12, 18}
    ensures forall k :: lo <= k < lo + 6 ==> PlainExtension(DeclaredExtensions[k])
  {
  }

  lemma DeclaredExtensionsPlain()
    ensures forall e :: e in DeclaredExtensions ==> PlainExtension(e)
  {
    DeclaredExtensionsPlainFrom(0);
    DeclaredExtensionsPlainFrom(6);
    DeclaredExtensionsPlainFrom(12);
    DeclaredExtensionsPlainFrom(18);
  }

  lemma DeclaredExtensionsComplete()
    ensures forall i, a :: 0 <= i < |Plugins| && 0 <= a < |Plugins[i].extensions| ==>
      Plugins[i].extensions[a] in DeclaredExtensions
  {
  }

  lemma PluginsExtensionsPlain()
    ensures ExtensionsPlain(Plugins)
  {
    DeclaredExtensionsPlain();
    DeclaredExtensionsComplete();
  }

  lemma SingleDotExtensionsA()
    ensures forall e :: e in [".czi", ".dv", ".r3d", ".bmp", ".gif"] ==> '.' !in e[1..]
  {
  }

  lemma SingleDotExtensionsB()
    ensures forall e :: e in [".jpg", ".jpeg", ".png", ".lif", ".nd2"] ==> '.' !in e[1..]
  {
  }

  /** The five entries before `bioio-ome-tiff` declare single-dot extensions only. */
  lemma LeadingPluginsSingleDot()
    ensures forall m, a :: 0 <= m < 5 && 0 <= a < |Plugins[m].extensions| ==>
      '.' !in Plugins[m].extensions[a][1..]
  {
    SingleDotExtensionsA();
    SingleDotExtensionsB();
    assert forall m, a :: 0 <= m < 5 && 0 <= a < |Plugins[m].extensions| ==>
      Plugins[m].extensions[a] in [".czi", ".dv", ".r3d", ".bmp", ".gif"] + [".jpg", ".jpeg", ".png", ".lif", ".nd2"];
  }

  lemma PluginsWellFormed()
    ensures WellFormed(Plugins)
  {
    PluginsNamesDistinct();
    PluginsExtensionsDistinct();
    PluginsExtensionsDotted();
    PluginsNamesPrefixed();
  }

  // ---------------------------------------------------------------------------
  // The extension index
  // ---------------------------------------------------------------------------

  /** One copy of `name` for each time `exts` lists `ext`, in list order. */
  function Declarations(name: string, exts: seq<string>, ext: string): seq<string>
  {
    if exts == [] then []
    else Declarations(name, exts[..|exts| - 1], ext) + (if exts[|exts| - 1] == ext then [name] else [])
  }

  /**
   * What the index holds for `ext` after the registry's entries were appended
   * in table order and, within an entry, in extension order.
   */
  function Owners(reg: seq<Plugin>, ext: string): seq<string>
  {
    if reg == [] then []
    else Owners(reg[..|reg| - 1], ext) + Declarations(reg[|reg| - 1].name, reg[|reg| - 1].extensions, ext)
  }

  lemma DeclarationsStep(name: string, exts: seq<string>, j: int)
    requires 0 <= j < |exts|
    ensures forall e ::
      Declarations(name, exts[..j + 1], e) == Declarations(name, exts[..j], e) + (if exts[j] == e then [name] else [])
  {
    assert exts[..j + 1][..j] == exts[..j];
  }

  lemma OwnersStep(reg: seq<Plugin>, i: int)
    requires 0 <= i < |reg|
    ensures forall e ::
      Owners(reg[..i + 1], e) == Owners(reg[..i], e) + Declarations(reg[i].name, reg[i].extensions, e)
  {
    assert reg[..i + 1][..i] == reg[..i];
  }

  /** What the index holds for `e` after the first `j` extensions of entry `i` were appended. */
  ghost function Partial(reg: seq<Plugin>, i: int, j: int, e: string): seq<string>
    requires 0 <= i < |reg| && 0 <= j <= |reg[i].extensions|
  {
    Owners(reg[..i], e) + Declarations(reg[i].name, reg[i].extensions[..j], e)
  }

  lemma PartialStep(reg: seq<Plugin>, i: int, j: int)
    requires 0 <= i < |reg| && 0 <= j < |reg[i].extensions|
    ensures forall e :: e != reg[i].extensions[j] ==> Partial(reg, i, j + 1, e) == Partial(reg, i, j, e)
    ensures Partial(reg, i, j + 1, reg[i].extensions[j]) == Partial(reg, i, j, reg[i].extensions[j]) + [reg[i].name]
  {
    DeclarationsStep(reg[i].name, reg[i].extensions, j);
  }

  lemma PartialEnds(reg: seq<Plugin>, i: int)
    requires 0 <= i < |reg|
    ensures forall e :: Partial(reg, i, 0, e) == Owners(reg[..i], e)
    ensures forall e :: Partial(reg, i, |reg[i].extensions|, e) == Owners(reg[..i + 1], e)
  {
    assert reg[i].extensions[..|reg[i].extensions|] == reg[i].extensions;
    OwnersStep(reg, i);
  }

  /** Builds `_EXTENSION_TO_PLUGIN` from the table, as the module-level loop does. */
  method BuildExtensionIndex(reg: seq<Plugin>) returns (index: map<string, seq<string>>)
    ensures forall ext :: ext in index <==> Owners(reg, ext) != []
    ensures forall ext :: ext in index ==> index[ext] == Owners(reg, ext)
  {
    index := map[];
    for i := 0 to |reg|
      invariant forall ext :: ext in index <==> Owners(reg[..i], ext) != []
      invariant forall ext :: ext in index ==> index[ext] == Owners(reg[..i], ext)
    {
      index := AddPlugin(reg, i, index);
    }
    assert reg[..|reg|] == reg;
  }

  /** `index` holds, for every extension, what the loop has appended so far: nothing, or a non-empty list. */
  ghost predicate Mirrors(index: map<string, seq<string>>, reg: seq<Plugin>, i: int, j: int)
    requires 0 <= i < |reg| && 0 <= j <= |reg[i].extensions|
  {
    forall ext :: (ext in index <==> Partial(reg, i, j, ext) != []) && (ext in index ==> index[ext] == Partial(reg, i, j, ext))
  }

  /** Appending `name` under `ext` to a map with nothing or a list there. */
  function Appended(index: map<string, seq<string>>, ext: string, name: string): map<string, seq<string>>
  {
    index[ext := (if ext in index then index[ext] else []) + [name]]
  }

  lemma MirrorsStep(index: map<string, seq<string>>, reg: seq<Plugin>, i: int, j: int)
    requires 0 <= i < |reg| && 0 <= j < |reg[i].extensions|
    requires Mirrors(index, reg, i, j)
    ensures Mirrors(Appended(index, reg[i].extensions[j], reg[i].name), reg, i, j + 1)
  {
    PartialStep(reg, i, j);
  }

  /** The inner loop: appends entry `i`'s name under each of its extensions. */
  method AddPlugin(reg: seq<Plugin>, i: int, before: map<string, seq<string>>) returns (index: map<string, seq<string>>)
    requires 0 <= i < |reg|
    requires forall ext :: ext in before <==> Owners(reg[..i], ext) != []
    requires forall ext :: ext in before ==> before[ext] == Owners(reg[..i], ext)
    ensures forall ext :: ext in index <==> Owners(reg[..i + 1], ext) != []
    ensures forall ext :: ext in index ==> index[ext] == Owners(reg[..i + 1], ext)
  {
    var p := reg[i];
    PartialEnds(reg, i);
    index := before;
    for j := 0 to |p.extensions|
      invariant Mirrors(index, reg, i, j)
    {
      var ext := p.extensions[j];
      MirrorsStep(index, reg, i, j);
      if ext !in index {
        index := index[ext := []];
      }
      index := index[ext := index[ext] + [p.name]];
    }
  }

  /** The plugins of `reg`, in order, whose extension list holds `ext`. */
  function Declaring(reg: seq<Plugin>, ext: string): (r: seq<Plugin>)
    ensures forall p :: p in r ==> p in reg && ext in p.extensions
  {
    if reg == [] then []
    else Declaring(reg[..|reg| - 1], ext) + (if ext in reg[|reg| - 1].extensions then [reg[|reg| - 1]] else [])
  }

  lemma {:induction false} DeclarationsOnce(name: string, exts: seq<string>, ext: string)
    requires forall a, b :: 0 <= a < b < |exts| ==> exts[a] != exts[b]
    ensures Declarations(name, exts, ext) == if ext in exts then [name] else []
  {
    if exts != [] {
      var init := exts[..|exts| - 1];
      DeclarationsOnce(name, init, ext);
      assert exts == init + [exts[|exts| - 1]];
    }
  }

  /**
   * With duplicate-free extension lists, the index lists for `ext` exactly the
   * plugins declaring it, once each and in table order.
   */
  lemma {:induction false} OwnersAreDeclaring(reg: seq<Plugin>, ext: string)
    requires ExtensionsDistinct(reg)
    ensures Owners(reg, ext) == Names(Declaring(reg, ext))
  {
    if reg != [] {
      var init := reg[..|reg| - 1];
      var last := reg[|reg| - 1];
      assert ExtensionsDistinct(init);
      OwnersAreDeclaring(init, ext);
      DeclarationsOnce(last.name, last.extensions, ext);
      NamesConcat(Declaring(init, ext), if ext in last.extensions then [last] else []);
    }
  }

  lemma NamesConcat(a: seq<Plugin>, b: seq<Plugin>)
    ensures Names(a + b) == Names(a) + Names(b)
  {
  }

  /** Membership in `Declaring`, both ways. */
  lemma {:induction false} DeclaringMembers(reg: seq<Plugin>, ext: string, p: Plugin)
    ensures p in Declaring(reg, ext) <==> p in reg && ext in p.extensions
  {
    if reg != [] {
      var init := reg[..|reg| - 1];
      DeclaringMembers(init, ext, p);
      assert reg == init + [reg[|reg| - 1]];
    }
  }

  /** `Declaring` keeps table order: its entries sit at increasing table positions. */
  lemma {:induction false} DeclaringOrdered(reg: seq<Plugin>, ext: string, a: int, b: int)
    requires 0 <= a < b < |Declaring(reg, ext)|
    ensures exists i, j :: 0 <= i < j < |reg| && reg[i] == Declaring(reg, ext)[a] && reg[j] == Declaring(reg, ext)[b]
  {
    var init := reg[..|reg| - 1];
    var d := Declaring(reg, ext);
    var di := Declaring(init, ext);
    assert d[..|di|] == di;
    if b < |di| {
      DeclaringOrdered(init, ext, a, b);
      var i, j :| 0 <= i < j < |init| && init[i] == di[a] && init[j] == di[b];
      assert reg[i] == d[a] && reg[j] == d[b];
    } else {
      assert d[a] == di[a];
      assert d[a] in di;
      var i :| 0 <= i < |init| && init[i] == d[a];
      assert reg[i] == d[a] && reg[|reg| - 1] == d[b];
    }
  }

  /** With distinct names, the index never lists a plugin twice for one extension. */
  lemma {:induction false} DeclaringNoDuplicates(reg: seq<Plugin>, ext: string)
    requires NamesDistinct(reg)
    ensures forall a, b :: 0 <= a < b < |Declaring(reg, ext)| ==>
      Declaring(reg, ext)[a].name != Declaring(reg, ext)[b].name
  {
    forall a, b | 0 <= a < b < |Declaring(reg, ext)|
      ensures Declaring(reg, ext)[a].name != Declaring(reg, ext)[b].name
    {
      DeclaringOrdered(reg, ext, a, b);
    }
  }
}
