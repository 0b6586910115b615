/**
 * `ReaderPluginManager`: the installed, suggested and installable plugins of
 * one file, derived from a feasibility report that is computed at most once,
 * and the reader priority list handed to bioio.
 *
 * Reader classes are represented by the names of the plugins that provide
 * them; whether a plugin's reader class can be imported is an oracle set.
 */
module PluginManager {
  import opened Wrappers
  import opened Text
  import opened Registry
  import opened Suggest
  import opened Feasibility
  import Paths
  import opened Lists

  // ---------------------------------------------------------------------------
  // What the properties compute, as functions of their inputs
  // ---------------------------------------------------------------------------

  /** `installed_plugins`: every reader the report names, except `"ArrayLike"`. */
  function Installed(report: seq<Entry>): (r: set<string>)
    ensures ArrayLike !in r
  {
    set e | e in report && e.reader != ArrayLike :: e.reader
  }

  /** A reader the report says can read the file is an installed plugin. */
  lemma SupportedAreInstalled(report: seq<Entry>, n: string)
    requires SupportedIn(report, n)
    ensures n in Installed(report)
  {
    var e :| e in report && e.reader == n && e.support.supported && n != ArrayLike;
  }

  /** Exactly the report's readers other than `"ArrayLike"` are installed. */
  lemma InstalledExactly(report: seq<Entry>, n: string)
    ensures n in Installed(report) <==> n != ArrayLike && exists i :: 0 <= i < |report| && report[i].reader == n
  {
    if n in Installed(report) {
      var e :| e in report && e.reader != ArrayLike && e.reader == n;
      var i :| 0 <= i < |report| && report[i] == e;
    }
    if n != ArrayLike && exists i :: 0 <= i < |report| && report[i].reader == n {
      var i :| 0 <= i < |report| && report[i].reader == n;
      assert report[i] in report;
    }
  }

  /** `BIOIO_PLUGINS.get(name, {}).get('core', False)`. */
  predicate IsCore(name: string)
  {
    match Lookup(Plugins, name)
    case Some(p) => p.core
    case None => false
  }

  /** A known plugin is core exactly when its table entry says so. */
  lemma IsCoreOfKnown(i: int)
    requires 0 <= i < |Plugins|
    ensures IsCore(Plugins[i].name) <==> Plugins[i].core
  {
    PluginsNamesDistinct();
    LookupFindsMember(Plugins, Plugins[i]);
  }

  /** `suggested_plugins`: nothing without a path, else the names the resolver suggests. */
  function Suggested(path: Option<string>): (r: seq<string>)
    ensures path.None? ==> r == []
    ensures path.Some? ==> forall n :: n in r <==> exists p :: p in SuggestForPath(path.value) && p.name == n
  {
    match path
    case None => []
    case Some(p) =>
      var ps := SuggestForPath(p);
      assert forall n :: n in Names(ps) <==> exists q :: q in ps && q.name == n by {
        forall n | n in Names(ps) ensures exists q :: q in ps && q.name == n {
          var i :| 0 <= i < |ps| && Names(ps)[i] == n;
          assert ps[i] in ps;
        }
        forall n | exists q :: q in ps && q.name == n ensures n in Names(ps) {
          var q :| q in ps && q.name == n;
          var i :| 0 <= i < |ps| && ps[i] == q;
          assert Names(ps)[i] == n;
        }
      }
      SuggestedNames(p)
  }

  /** The test `installable_plugins` applies to each suggested name. */
  function InstallableTest(installed: set<string>): string -> bool
  {
    n => !IsCore(n) && n !in installed
  }

  /** `installable_plugins`: the suggested names that are neither core nor installed. */
  function Installable(suggested: seq<string>, installed: set<string>): seq<string>
  {
    Filter(suggested, InstallableTest(installed))
  }

  /** Installable plugins are exactly the suggested, non-core, uninstalled ones, in suggestion order. */
  lemma InstallableExactly(suggested: seq<string>, installed: set<string>)
    ensures forall n :: n in Installable(suggested, installed) <==> n in suggested && !IsCore(n) && n !in installed
    ensures forall i, j :: 0 <= i < j < |Installable(suggested, installed)| ==>
      InOrder(suggested, Installable(suggested, installed)[i], Installable(suggested, installed)[j])
  {
    FilterOrdered(suggested, InstallableTest(installed));
  }

  /** `if preferred_reader and preferred_reader in installed`: `None` and `''` are both falsy. */
  predicate PreferredInstalled(preferred: Option<string>, installed: set<string>)
  {
    preferred.Some? && preferred.value != "" && preferred.value in installed
  }

  /** The test the loop of `get_priority_list` applies to each known plugin. */
  function LoopTest(installed: set<string>, importable: set<string>, preferred: Option<string>): string -> bool
  {
    n => n in installed && preferred != Some(n) && n in importable
  }

  /**
   * `get_priority_list` over the known plugins `known`: the preferred reader
   * if it is installed and imports, then the loop's readers.
   */
  function PriorityList(known: seq<string>, installed: set<string>, importable: set<string>, preferred: Option<string>)
    : seq<string>
  {
    (if PreferredInstalled(preferred, installed) && preferred.value in importable then [preferred.value] else [])
    + Filter(known, LoopTest(installed, importable, preferred))
  }

  /** An installed, importable preferred reader leads the list and appears nowhere else. */
  lemma PreferredFirst(known: seq<string>, installed: set<string>, importable: set<string>, p: string)
    requires p != "" && p in installed && p in importable
    ensures PriorityList(known, installed, importable, Some(p))[0] == p
    ensures p !in PriorityList(known, installed, importable, Some(p))[1..]
  {
    var pl := PriorityList(known, installed, importable, Some(p));
    assert pl[1..] == Filter(known, LoopTest(installed, importable, Some(p)));
  }

  /** A preferred reader that is not installed contributes nothing: the list is the one without it. */
  lemma PreferredNotInstalled(known: seq<string>, installed: set<string>, importable: set<string>, p: string)
    requires p !in installed
    ensures p !in PriorityList(known, installed, importable, Some(p))
    ensures PriorityList(known, installed, importable, Some(p)) == PriorityList(known, installed, importable, None)
  {
    var f1 := LoopTest(installed, importable, Some(p));
    var f2 := LoopTest(installed, importable, None);
    assert forall n :: f1(n) == f2(n);
    FilterSameTest(known, f1, f2);
  }

  /**
   * Apart from the preferred reader, the list holds exactly the installed,
   * importable known plugins, each once and in the order of `known`.
   */
  lemma PriorityRest(known: seq<string>, installed: set<string>, importable: set<string>, preferred: Option<string>)
    requires Distinct(known)
    ensures var pl := PriorityList(known, installed, importable, preferred);
      var rest := if PreferredInstalled(preferred, installed) && preferred.value in importable then pl[1..] else pl;
      (forall n :: n in rest <==> n in known && n in installed && n in importable && preferred != Some(n))
      && Distinct(pl)
      && (forall i, j :: 0 <= i < j < |rest| ==> InOrder(known, rest[i], rest[j]))
  {
    var test := LoopTest(installed, importable, preferred);
    var f := Filter(known, test);
    FilterOrdered(known, test);
    FilterDistinct(known, test);
    var pl := PriorityList(known, installed, importable, preferred);
    if PreferredInstalled(preferred, installed) && preferred.value in importable {
      assert pl == [preferred.value] + f;
      assert pl[1..] == f;
    } else {
      assert pl == f;
    }
  }

  /** With nothing installed, as without a path, the priority list is empty. */
  lemma NothingInstalledNoPriority(known: seq<string>, importable: set<string>, preferred: Option<string>)
    ensures PriorityList(known, {}, importable, preferred) == []
  {
    FilterNothingKept(known, LoopTest({}, importable, preferred));
  }

  /** The known plugins have distinct names. */
  lemma KnownDistinct()
    ensures Distinct(KnownPlugins)
  {
  }

  // ---------------------------------------------------------------------------
  // The manager
  // ---------------------------------------------------------------------------

  /** The loop of `get_priority_list` over the known plugins, after the preferred reader. */
  method KnownLoop(known: seq<string>, installed: set<string>, importable: set<string>, preferred: Option<string>)
    returns (r: seq<string>)
    ensures r == Filter(known, LoopTest(installed, importable, preferred))
  {
    r := [];
    for i := 0 to |known|
      invariant r == Filter(known[..i], LoopTest(installed, importable, preferred))
    {
      assert known[..i + 1][..i] == known[..i];
      var name := known[i];
      if name in installed && preferred != Some(name) {
        if name in importable {
          r := r + [name];
        }
      }
    }
    assert known[..|known|] == known;
  }

  class ReaderPluginManager {
    /** The file managed, or `None` in standalone mode. */
    const path: Option<string>
    /** What bioio's `plugin_feasibility_report` gives for a path in this environment. */
    const bioioReport: string -> seq<Entry>
    /** The plugins whose reader class imports. */
    const importable: set<string>
    /** `known_plugins`: the names of the table, in table order. */
    const known: seq<string>

    /** The `cached_property` slot of `feasibility_report`. */
    var cache: Option<seq<Entry>>
    /** How many times bioio has been asked for a report. */
    var reportCalls: nat

    /** The report this manager stands for: `{}` without a path. */
    function Report(): seq<Entry>
    {
      match path
      case None => []
      case Some(p) => bioioReport(p)
    }

    ghost predicate Valid()
      reads this
    {
      reportCalls <= 1
      && (cache.None? ==> reportCalls == 0)
      && (cache.Some? ==> cache.value == Report())
      && (path.None? ==> reportCalls == 0)
    }

    constructor(path: Option<string>, bioioReport: string -> seq<Entry>, importable: set<string>)
      ensures this.path == path && this.bioioReport == bioioReport && this.importable == importable
      ensures known == KnownPlugins
      ensures cache == None && reportCalls == 0
      ensures Valid()
    {
      known := KnownPlugins;
      this.path := path;
      this.bioioReport := bioioReport;
      this.importable := importable;
      cache := None;
      reportCalls := 0;
    }

    /** `feasibility_report`: computed on first use, answered from the cache after. */
    method FeasibilityReport() returns (r: seq<Entry>)
      requires Valid()
      modifies this
      ensures Valid()
      ensures r == Report() && cache == Some(r)
      ensures path.None? ==> r == []
      ensures old(cache).Some? ==> reportCalls == old(reportCalls)
      ensures old(cache).None? && path.Some? ==> reportCalls == 1
    {
      if cache.Some? {
        return cache.value;
      }
      if path.None? {
        r := [];
      } else {
        r := bioioReport(path.value);
        reportCalls := reportCalls + 1;
      }
      cache := Some(r);
    }

    /** `installed_plugins`. */
    method InstalledPlugins() returns (r: set<string>)
      requires Valid()
      modifies this
      ensures Valid() && cache == Some(Report())
      ensures r == Installed(Report())
      ensures old(cache).Some? ==> reportCalls == old(reportCalls)
    {
      var report := FeasibilityReport();
      r := Installed(report);
    }

    /** `suggested_plugins`. */
    function SuggestedPlugins(): seq<string>
    {
      Suggested(path)
    }

    /** `installable_plugins`. */
    method InstallablePlugins() returns (r: seq<string>)
      requires Valid()
      modifies this
      ensures Valid() && cache == Some(Report())
      ensures r == Installable(SuggestedPlugins(), Installed(Report()))
    {
      var suggested := SuggestedPlugins();
      var installed := InstalledPlugins();
      r := Installable(suggested, installed);
    }

    /** `get_priority_list`: reader classes that fail to import are skipped. */
    method GetPriorityList(preferred: Option<string>) returns (priority: seq<string>)
      requires Valid()
      modifies this
      ensures Valid() && cache == Some(Report())
      ensures priority == PriorityList(known, Installed(Report()), importable, preferred)
    {
      var installed := InstalledPlugins();
      var head: seq<string> := [];
      if preferred.Some? && preferred.value != "" && preferred.value in installed {
        if preferred.value in importable {
          head := [preferred.value];
        }
      }
      var rest := KnownLoop(known, installed, importable, preferred);
      priority := head + rest;
    }

    /**
     * `get_reader`: `determine` stands for `BioImage.determine_plugin` on this
     * file with the given priority list, `None` when it raises.
     */
    method GetReader(preferred: Option<string>, determine: seq<string> -> Option<string>) returns (r: Option<string>)
      requires Valid()
      modifies this
      ensures Valid()
      ensures path.None? ==> r == None && unchanged(this)
      ensures path.Some? ==>
        var pl := PriorityList(known, Installed(Report()), importable, preferred);
        r == if pl == [] then None else determine(pl)
    {
      if path.None? {
        return None;
      }
      var priority := GetPriorityList(preferred);
      if priority == [] {
        return None;
      }
      r := determine(priority);
    }

    /**
     * `get_installation_message`: `format` stands for
     * `format_plugin_installation_message`, which is not part of this model.
     */
    method GetInstallationMessage(format: (string, seq<string>, set<string>, seq<string>) -> string)
      returns (s: string)
      requires Valid()
      modifies this
      ensures Valid()
      ensures path.None? ==> s == "" && unchanged(this)
      ensures path.Some? ==>
        s == format(Paths.Name(path.value), SuggestedPlugins(), Installed(Report()),
                    Installable(SuggestedPlugins(), Installed(Report())))
    {
      if path.None? {
        return "";
      }
      var installed := InstalledPlugins();
      var installable := InstallablePlugins();
      s := format(Paths.Name(path.value), SuggestedPlugins(), installed, installable);
    }
  }

  /** Without a path the report is empty, so nothing is installed and the priority list is empty. */
  lemma NoPathNoPriority(m: ReaderPluginManager, preferred: Option<string>)
    requires m.path.None?
    ensures m.Report() == []
    ensures Installed(m.Report()) == {}
    ensures PriorityList(m.known, Installed(m.Report()), m.importable, preferred) == []
  {
    NothingInstalledNoPriority(m.known, m.importable, preferred);
  }
}
