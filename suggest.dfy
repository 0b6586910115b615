/**
 * The extension resolver: which plugins a file extension or a file path
 * suggests, with multi-dot ("compound") extensions tried before the final
 * suffix.
 */
module Suggest {
  import opened Wrappers
  import opened Text
  import opened Paths
  import opened Registry

  /** `BIOIO_PLUGINS[name]` with its name: the first entry of `reg` called `name`. */
  function Lookup(reg: seq<Plugin>, name: string): (r: Option<Plugin>)
    ensures r.Some? ==> r.value in reg && r.value.name == name
    ensures r.None? ==> forall p :: p in reg ==> p.name != name
  {
    if reg == [] then None
    else if reg[0].name == name then Some(reg[0])
    else Lookup(reg[1..], name)
  }

  lemma {:induction false} LookupFindsMember(reg: seq<Plugin>, p: Plugin)
    requires NamesDistinct(reg) && p in reg
    ensures Lookup(reg, p.name) == Some(p)
  {
    if reg[0] != p {
      assert NamesDistinct(reg[1..]);
      assert p in reg[1..];
      LookupFindsMember(reg[1..], p);
    }
  }

  /**
   * `_suggest_plugins_for_extension`: the records the index lists for the
   * lower-cased extension, in index order; `[]` for an unknown extension.
   */
  function SuggestForExtension(fileExt: string): (r: seq<Plugin>)
  {
    var names := Owners(Plugins, Lower(fileExt));
    seq(|names|, i requires 0 <= i < |names| =>
      match Lookup(Plugins, names[i]) case Some(p) => p case None => Plugin(names[i], [], "", "", false, None))
  }

  /**
   * The index lookup returns exactly the plugins declaring the lower-cased
   * extension, in table order, each once.
   */
  lemma SuggestForExtensionDeclaring(fileExt: string)
    ensures SuggestForExtension(fileExt) == Declaring(Plugins, Lower(fileExt))
    ensures forall p :: p in SuggestForExtension(fileExt) <==> p in Plugins && Lower(fileExt) in p.extensions
    ensures forall a, b :: 0 <= a < b < |SuggestForExtension(fileExt)| ==>
      SuggestForExtension(fileExt)[a].name != SuggestForExtension(fileExt)[b].name
  {
    var ext := Lower(fileExt);
    PluginsWellFormed();
    OwnersAreDeclaring(Plugins, ext);
    var d := Declaring(Plugins, ext);
    forall i | 0 <= i < |d| ensures Lookup(Plugins, d[i].name) == Some(d[i]) {
      LookupFindsMember(Plugins, d[i]);
    }
    forall p ensures p in d <==> p in Plugins && ext in p.extensions {
      DeclaringMembers(Plugins, ext, p);
    }
    DeclaringNoDuplicates(Plugins, ext);
  }

  /** Case does not matter to the extension lookup. */
  lemma SuggestForExtensionCaseInsensitive(fileExt: string)
    ensures SuggestForExtension(fileExt) == SuggestForExtension(Lower(fileExt))
  {
    LowerIdempotent(fileExt);
  }

  // ---------------------------------------------------------------------------
  // Compound extensions and whole paths
  // ---------------------------------------------------------------------------

  /** A dot-led extension with a second dot after the leading one, such as `.ome.tif`. */
  predicate IsCompound(ext: string)
  {
    StartsWith(ext, ".") && exists k | 1 <= k < |ext| :: ext[k] == '.'
  }

  /**
   * The test the source writes, `ext.startswith(".") and len(ext.split(".")) > 2`:
   * splitting on dots gives more than two parts exactly when there are two dots.
   */
  lemma IsCompoundCount(ext: string)
    ensures IsCompound(ext) <==> StartsWith(ext, ".") && Count(ext, '.') >= 2
  {
    if IsCompound(ext) {
      var k :| 1 <= k < |ext| && ext[k] == '.';
      CountTwo(ext, '.', 0, k);
    }
    if StartsWith(ext, ".") && Count(ext, '.') >= 2 && !IsCompound(ext) {
      assert '.' !in ext[1..];
      CountAbsent(ext[1..], '.');
      assert false;
    }
  }

  /** Some extension of `p` is compound and ends `filename`. */
  predicate CompoundMatch(p: Plugin, filename: string)
  {
    exists e :: e in p.extensions && IsCompound(e) && EndsWith(filename, e)
  }

  /** The first plugin of `reg` with a compound extension ending `filename`. */
  function FirstCompound(reg: seq<Plugin>, filename: string): (r: Option<Plugin>)
    ensures r.Some? ==> r.value in reg && CompoundMatch(r.value, filename)
    ensures r.None? ==> forall p :: p in reg ==> !CompoundMatch(p, filename)
  {
    if reg == [] then None
    else if CompoundMatch(reg[0], filename) then Some(reg[0])
    else FirstCompound(reg[1..], filename)
  }

  /** `_suggest_plugins_for_path`: a compound match wins outright; otherwise the final suffix is looked up. */
  function SuggestForPath(path: string): seq<Plugin>
  {
    match FirstCompound(Plugins, Lower(Name(path)))
    case Some(p) => [p]
    case None => SuggestForExtension(Suffix(Name(path)))
  }

  /** The names `suggest_plugins_for_path` gives: the projection of the records. */
  function SuggestedNames(path: string): seq<string>
  {
    Names(SuggestForPath(path))
  }

  /**
   * The search loop of `_suggest_plugins_for_path` over a table: entries in
   * order, extensions in list order, stopping at the first compound extension
   * that ends the (already lower-cased) file name.
   */
  method FindCompound(reg: seq<Plugin>, filename: string) returns (r: Option<Plugin>)
    ensures r == FirstCompound(reg, filename)
  {
    for i := 0 to |reg|
      invariant FirstCompound(reg, filename) == FirstCompound(reg[i..], filename)
    {
      var p := reg[i];
      for j := 0 to |p.extensions|
        invariant forall k :: 0 <= k < j ==> !(IsCompound(p.extensions[k]) && EndsWith(filename, p.extensions[k]))
      {
        var ext := p.extensions[j];
        IsCompoundCount(ext);
        if StartsWith(ext, ".") && Count(ext, '.') >= 2 && EndsWith(filename, ext) {
          assert CompoundMatch(reg[i..][0], filename);
          return Some(p);
        }
      }
      assert reg[i..][1..] == reg[i + 1..];
    }
    return None;
  }

  /** `_suggest_plugins_for_path` as written: the search, then the suffix lookup. */
  method SuggestPluginsForPath(path: string) returns (r: seq<Plugin>)
    ensures r == SuggestForPath(path)
  {
    var found := FindCompound(Plugins, Lower(Name(path)));
    if found.Some? {
      return [found.value];
    }
    r := SuggestForExtension(Suffix(Name(path)));
  }

  /**
   * Compound precedence: when some table entry has a compound extension ending
   * the lower-cased file name, the answer is that single entry, the earliest
   * such one in the table.
   */
  lemma CompoundPrecedence(path: string, i: int)
    requires 0 <= i < |Plugins| && CompoundMatch(Plugins[i], Lower(Name(path)))
    ensures exists k :: (0 <= k <= i && SuggestForPath(path) == [Plugins[k]] &&
      CompoundMatch(Plugins[k], Lower(Name(path))) &&
      forall m :: 0 <= m < k ==> !CompoundMatch(Plugins[m], Lower(Name(path))))
  {
    FirstCompoundIsEarliest(Plugins, Lower(Name(path)), i);
  }

  lemma {:induction false} FirstCompoundIsEarliest(reg: seq<Plugin>, filename: string, i: int)
    requires 0 <= i < |reg| && CompoundMatch(reg[i], filename)
    ensures exists k :: (0 <= k <= i && FirstCompound(reg, filename) == Some(reg[k]) &&
      forall m :: 0 <= m < k ==> !CompoundMatch(reg[m], filename))
  {
    if !CompoundMatch(reg[0], filename) {
      FirstCompoundIsEarliest(reg[1..], filename, i - 1);
      var k :| 0 <= k <= i - 1 && FirstCompound(reg[1..], filename) == Some(reg[1..][k]) &&
        forall m :: 0 <= m < k ==> !CompoundMatch(reg[1..][m], filename);
      assert forall m :: 0 <= m < k + 1 ==> !CompoundMatch(reg[m], filename) by {
        forall m | 0 < m < k + 1 ensures !CompoundMatch(reg[m], filename) {
          assert reg[m] == reg[1..][m - 1];
        }
      }
    }
  }

  /** Without a compound match the answer is the lookup of the final suffix. */
  lemma SuffixFallback(path: string)
    requires forall p :: p in Plugins ==> !CompoundMatch(p, Lower(Name(path)))
    ensures SuggestForPath(path) == SuggestForExtension(Suffix(Name(path)))
    ensures SuggestForPath(path) == Declaring(Plugins, Lower(Suffix(Name(path))))
  {
    SuggestForExtensionDeclaring(Suffix(Name(path)));
  }

  // ---------------------------------------------------------------------------
  // Consequences for the shipped table
  // ---------------------------------------------------------------------------

  /** A name with a single dot ends with no compound extension. */
  lemma NoCompoundInSingleDotName(filename: string, p: Plugin)
    requires Count(filename, '.') <= 1
    ensures !CompoundMatch(p, filename)
  {
    forall e | e in p.extensions && IsCompound(e) && EndsWith(filename, e) ensures false {
      IsCompoundCount(e);
      CountOfSuffix(filename, e, '.');
    }
  }

  /** The final suffix never has two dots, so a compound extension is never found by it. */
  lemma SuffixNeverCompound(path: string, e: string)
    requires IsCompound(e)
    ensures Lower(Suffix(Name(path))) != e
  {
    var r := Suffix(Name(path));
    assert forall k :: 1 <= k < |r| ==> Lower(r)[k] != '.';
  }

  lemma NoCompoundBeforeOmeTiff(filename: string)
    ensures forall m :: 0 <= m < 5 ==> !CompoundMatch(Plugins[m], filename)
  {
    LeadingPluginsSingleDot();
  }

  /** The table entries the lemmas below rely on. */
  lemma OmeTiffEntries()
    ensures Plugins[5].name == "bioio-ome-tiff" && Plugins[5].extensions[0] == ".ome.tif"
    ensures Plugins[5].extensions[1] == ".ome.tiff"
    ensures Plugins[6].name == "bioio-ome-tiled-tiff" && Plugins[6].extensions == [".tiles.ome.tif"]
  {
  }

  /** The OME-TIFF extensions have two dots or more. */
  lemma OmeExtensionsCompound()
    ensures IsCompound(".ome.tif") && IsCompound(".ome.tiff") && IsCompound(".tiles.ome.tif")
  {
    assert ".ome.tif"[4] == '.';
    assert ".ome.tiff"[4] == '.';
    assert ".tiles.ome.tif"[6] == '.';
  }

  lemma TiledEndsOmeTif(filename: string)
    requires EndsWith(filename, ".tiles.ome.tif")
    ensures EndsWith(filename, ".ome.tif")
  {
    EndsWithTransitive(filename, ".tiles.ome.tif", ".ome.tif");
  }

  lemma ShadowedByOmeTif(owner: Plugin, tiled: Plugin, filename: string)
    requires ".ome.tif" in owner.extensions && tiled.extensions == [".tiles.ome.tif"]
    requires CompoundMatch(tiled, filename)
    ensures CompoundMatch(owner, filename)
  {
    assert EndsWith(filename, ".tiles.ome.tif");
    TiledEndsOmeTif(filename);
    OmeExtensionsCompound();
  }

  /** `bioio-ome-tiff` owns `.ome.tif`, which ends every name ending `.tiles.ome.tif`. */
  lemma OmeTiffShadowsTiled(filename: string)
    requires CompoundMatch(Plugins[6], filename)
    ensures CompoundMatch(Plugins[5], filename)
  {
    OmeTiffEntries();
    assert Plugins[5].extensions[0] in Plugins[5].extensions;
    ShadowedByOmeTif(Plugins[5], Plugins[6], filename);
  }

  /** Only table entry 6 carries the tiled plugin's name. */
  lemma TiledNameUnique()
    ensures forall q :: q in Plugins && q.name == "bioio-ome-tiled-tiff" ==> q == Plugins[6]
  {
    PluginsNamesDistinct();
    OmeTiffEntries();
  }

  lemma TiledNameOnlyAt6(r: seq<Plugin>)
    requires forall p :: p in r ==> p in Plugins
    requires Plugins[6] !in r
    ensures "bioio-ome-tiled-tiff" !in Names(r)
  {
    TiledNameUnique();
    forall k | 0 <= k < |r| ensures Names(r)[k] != "bioio-ome-tiled-tiff" {
      assert r[k] in r;
    }
  }

  /** A compound match at `bioio-ome-tiff` settles the answer: no earlier entry has one. */
  lemma ResolvesToOmeTiff(path: string)
    requires CompoundMatch(Plugins[5], Lower(Name(path)))
    ensures SuggestForPath(path) == [Plugins[5]]
    ensures SuggestedNames(path) == ["bioio-ome-tiff"]
  {
    var filename := Lower(Name(path));
    NoCompoundBeforeOmeTiff(filename);
    FirstCompoundIsEarliest(Plugins, filename, 5);
    OmeTiffEntries();
  }

  /** `bioio-ome-tiff` has a compound extension ending any name that ends `.ome.tif` or `.ome.tiff`. */
  lemma OmeTiffMatches(filename: string)
    requires EndsWith(filename, ".ome.tif") || EndsWith(filename, ".ome.tiff")
    ensures CompoundMatch(Plugins[5], filename)
  {
    OmeTiffEntries();
    OmeExtensionsCompound();
    assert Plugins[5].extensions[0] in Plugins[5].extensions;
    assert Plugins[5].extensions[1] in Plugins[5].extensions;
  }

  /** A file name ending `.ome.tif` or `.ome.tiff`, in any case, resolves to `bioio-ome-tiff` alone. */
  lemma OmeTiffNamesResolveToOmeTiff(path: string)
    requires EndsWith(Lower(Name(path)), ".ome.tif") || EndsWith(Lower(Name(path)), ".ome.tiff")
    ensures SuggestedNames(path) == ["bioio-ome-tiff"]
  {
    OmeTiffMatches(Lower(Name(path)));
    ResolvesToOmeTiff(path);
  }

  /**
   * A tiled OME-TIFF name such as `x.tiles.ome.tif` also resolves to
   * `bioio-ome-tiff` alone, because `.ome.tif` ends it and that entry comes first.
   */
  lemma TiledNamesResolveToOmeTiff(path: string)
    requires EndsWith(Lower(Name(path)), ".tiles.ome.tif")
    ensures SuggestedNames(path) == ["bioio-ome-tiff"]
  {
    TiledEndsOmeTif(Lower(Name(path)));
    OmeTiffNamesResolveToOmeTiff(path);
  }

  /** When a compound extension decides, the plugin it picks is not the tiled one. */
  lemma CompoundPickIsNotTiled(path: string)
    requires FirstCompound(Plugins, Lower(Name(path))).Some?
    ensures SuggestForPath(path) == [FirstCompound(Plugins, Lower(Name(path))).value]
    ensures FirstCompound(Plugins, Lower(Name(path))).value != Plugins[6]
  {
    var filename := Lower(Name(path));
    if CompoundMatch(Plugins[6], filename) {
      OmeTiffShadowsTiled(filename);
      ResolvesToOmeTiff(path);
      OmeTiffEntries();
    }
  }

  /** When the final suffix decides, the tiled plugin is not among the plugins declaring it. */
  lemma SuffixPickIsNotTiled(path: string)
    requires FirstCompound(Plugins, Lower(Name(path))).None?
    ensures Plugins[6] !in SuggestForPath(path)
    ensures forall p :: p in SuggestForPath(path) ==> p in Plugins
  {
    OmeTiffEntries();
    OmeExtensionsCompound();
    SuffixNeverCompound(path, ".tiles.ome.tif");
    SuffixFallback(path);
    DeclaringMembers(Plugins, Lower(Suffix(Name(path))), Plugins[6]);
  }

  /** So the tiled OME-TIFF plugin is never suggested, for any path. */
  lemma TiledTiffNeverSuggested(path: string)
    ensures Plugins[6] !in SuggestForPath(path)
    ensures "bioio-ome-tiled-tiff" !in SuggestedNames(path)
  {
    if FirstCompound(Plugins, Lower(Name(path))).Some? {
      CompoundPickIsNotTiled(path);
    } else {
      SuffixPickIsNotTiled(path);
    }
    TiledNameOnlyAt6(SuggestForPath(path));
  }

  /** A dot-free stem followed by a plain single-dot extension: the name's only dot starts the suffix. */
  lemma SingleDotName(stem: string, e: string)
    requires stem != [] && '.' !in stem && '/' !in stem
    requires PlainExtension(e) && e[0] == '.' && !IsCompound(e)
    ensures Suffix(Name(stem + e)) == e
    ensures Count(Lower(Name(stem + e)), '.') == 1
  {
    var path := stem + e;
    PlainExtensionLower(e);
    assert '.' !in e[1..];
    NameOfPlain(path);
    LastIndexOfIs(path, '.', |stem|);
    assert path == stem + [e[0]] + e[1..];
    CountConcat(stem + [e[0]], e[1..], '.');
    CountConcat(stem, [e[0]], '.');
    CountAbsent(stem, '.');
    CountAbsent(e[1..], '.');
    CountLower(path, '.');
  }

  /**
   * For a dot-free, non-empty base name followed by a single-dot extension
   * that a plugin declares, that plugin is among the suggestions.
   */
  lemma SingleDotExtensionSuggestsOwner(stem: string, i: int, a: int)
    requires 0 <= i < |Plugins| && 0 <= a < |Plugins[i].extensions|
    requires !IsCompound(Plugins[i].extensions[a])
    requires stem != [] && '.' !in stem && '/' !in stem
    ensures Plugins[i] in SuggestForPath(stem + Plugins[i].extensions[a])
  {
    var e := Plugins[i].extensions[a];
    var path := stem + e;
    PluginsExtensionsPlain();
    PluginsExtensionsDotted();
    SingleDotName(stem, e);
    PlainExtensionLower(e);
    forall p | p in Plugins ensures !CompoundMatch(p, Lower(Name(path))) {
      NoCompoundInSingleDotName(Lower(Name(path)), p);
    }
    SuffixFallback(path);
    DeclaringMembers(Plugins, e, Plugins[i]);
  }
}
