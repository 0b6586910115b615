/**
 * What a bioio feasibility report says about a file, and the help text built
 * from it and from the suggested plugins when a file cannot be read.
 */
module Feasibility {
  import opened Wrappers
  import opened Text
  import opened Paths
  import opened Registry
  import opened Suggest

  /** `PluginSupport`: whether one reader can read the file, and the error it raised. */
  datatype Support = Support(supported: bool, error: Option<string>)

  /** One item of the report: a reader name with its support record. */
  datatype Entry = Entry(reader: string, support: Support)

  /** bioio's built-in array reader, which is not a plugin. */
  const ArrayLike: string := "ArrayLike"

  /** `support.error` is truthy: present and not the empty string. */
  predicate HasError(s: Support)
  {
    s.error.Some? && s.error.value != []
  }

  /** A report is a dictionary: no reader appears twice. */
  predicate ReadersDistinct(report: seq<Entry>)
  {
    forall i, j :: 0 <= i < j < |report| ==> report[i].reader != report[j].reader
  }

  /** The record `_analyze_feasibility_report` returns. */
  datatype Analysis = Analysis(supported: bool, availableReaders: seq<string>, errors: map<string, string>)

  /** The supported readers other than `ArrayLike`, in report order. */
  function AvailableReaders(report: seq<Entry>): seq<string>
  {
    if report == [] then []
    else
      var e := report[|report| - 1];
      AvailableReaders(report[..|report| - 1]) + (if e.reader != ArrayLike && e.support.supported then [e.reader] else [])
  }

  /** The errors of the unsupported readers other than `ArrayLike` whose error is truthy. */
  function ReaderErrors(report: seq<Entry>): map<string, string>
  {
    if report == [] then map[]
    else
      var e := report[|report| - 1];
      var m := ReaderErrors(report[..|report| - 1]);
      if e.reader != ArrayLike && !e.support.supported && HasError(e.support) then m[e.reader := e.support.error.value] else m
  }

  function Analyze(report: seq<Entry>): Analysis
  {
    Analysis(|AvailableReaders(report)| > 0, AvailableReaders(report), ReaderErrors(report))
  }

  /** `_analyze_feasibility_report`: one pass over the report, skipping `ArrayLike`. */
  method AnalyzeFeasibilityReport(report: seq<Entry>) returns (a: Analysis)
    ensures a == Analyze(report)
  {
    var available: seq<string> := [];
    var errors: map<string, string> := map[];
    for i := 0 to |report|
      invariant available == AvailableReaders(report[..i])
      invariant errors == ReaderErrors(report[..i])
    {
      assert report[..i + 1][..i] == report[..i];
      var name := report[i].reader;
      var support := report[i].support;
      if name == ArrayLike {
        continue;
      }
      if support.supported {
        available := available + [name];
      } else if support.error.Some? && support.error.value != [] {
        errors := errors[name := support.error.value];
      }
    }
    assert report[..|report|] == report;
    return Analysis(|available| > 0, available, errors);
  }

  /** The report marks `n` supported, and `n` is not `ArrayLike`. */
  predicate SupportedIn(report: seq<Entry>, n: string)
  {
    n != ArrayLike && exists i :: 0 <= i < |report| && report[i].reader == n && report[i].support.supported
  }

  /** A reader is available exactly when the report marks it supported and it is not `ArrayLike`. */
  lemma {:induction false} AvailableReadersMembers(report: seq<Entry>, n: string)
    ensures n in AvailableReaders(report) <==> SupportedIn(report, n)
  {
    if report != [] {
      var init := report[..|report| - 1];
      AvailableReadersMembers(init, n);
      if exists i :: 0 <= i < |report| && report[i].reader == n && report[i].support.supported {
        var i :| 0 <= i < |report| && report[i].reader == n && report[i].support.supported;
        if i < |init| {
          assert init[i] == report[i];
        }
      }
      forall i | 0 <= i < |init| && init[i].reader == n && init[i].support.supported
        ensures 0 <= i < |report| && report[i].reader == n && report[i].support.supported
      {
        assert init[i] == report[i];
      }
    }
  }

  /** So the analysis finds support exactly when some reader other than `ArrayLike` is supported. */
  lemma AnalyzeSupported(report: seq<Entry>)
    ensures Analyze(report).supported <==> exists n :: SupportedIn(report, n)
  {
    if exists n :: SupportedIn(report, n) {
      var n :| SupportedIn(report, n);
      AvailableReadersMembers(report, n);
    }
    if Analyze(report).supported {
      AvailableReadersMembers(report, AvailableReaders(report)[0]);
    }
  }

  /**
   * A reader has an error entry exactly when it is not `ArrayLike`, is
   * unsupported and reported a truthy error; in a dictionary that error is
   * the one recorded.
   */
  lemma {:induction false} ReaderErrorsEntries(report: seq<Entry>, i: int)
    requires ReadersDistinct(report) && 0 <= i < |report|
    ensures report[i].reader in ReaderErrors(report) <==>
      report[i].reader != ArrayLike && !report[i].support.supported && HasError(report[i].support)
    ensures report[i].reader in ReaderErrors(report) ==> ReaderErrors(report)[report[i].reader] == report[i].support.error.value
  {
    var init := report[..|report| - 1];
    assert ReadersDistinct(init);
    if i < |init| {
      assert init[i] == report[i];
      ReaderErrorsEntries(init, i);
    } else {
      ReaderErrorsNoOthers(init, report[i].reader);
    }
  }

  /** Only readers of the report get error entries. */
  lemma {:induction false} ReaderErrorsNoOthers(report: seq<Entry>, n: string)
    requires forall i :: 0 <= i < |report| ==> report[i].reader != n
    ensures n !in ReaderErrors(report)
  {
    if report != [] {
      ReaderErrorsNoOthers(report[..|report| - 1], n);
    }
  }

  // ---------------------------------------------------------------------------
  // Installation suggestions
  // ---------------------------------------------------------------------------

  /** `[p for p in plugins if not p.get("core", False)]`. */
  function NonCore(plugins: seq<Plugin>): (r: seq<Plugin>)
    ensures forall p :: p in r <==> p in plugins && !p.core
  {
    if plugins == [] then []
    else NonCore(plugins[..|plugins| - 1]) + (if plugins[|plugins| - 1].core then [] else [plugins[|plugins| - 1]])
  }

  const NameIndent: string := "\n  "
  const Indent: string := "  "
  const NoteOpening: string := "  Note: "
  const PipInstall: string := "\n  pip install "
  const UvInstall: string := "  or: uv pip install "

  /** The command line that installs `name`. */
  function InstallLine(name: string): string
  {
    PipInstall + name
  }

  /** The lines one plugin contributes, in the order they are appended; the note only when it is truthy. */
  function PluginLines(p: Plugin): seq<string>
  {
    [NameIndent + p.name, Indent + p.description]
    + (if p.note.Some? && p.note.value != [] then [NoteOpening + p.note.value] else [])
    + [InstallLine(p.name), UvInstall + p.name]
  }

  function AllPluginLines(plugins: seq<Plugin>): seq<string>
  {
    if plugins == [] then []
    else AllPluginLines(plugins[..|plugins| - 1]) + PluginLines(plugins[|plugins| - 1])
  }

  const RestartLine: string := "\n\nRestart napari/Python after installing."

  function InstallHeader(context: string): string
  {
    "To read " + context + ", you may need to install:\n"
  }

  /** The lines joined into the message when some suggested plugin is not core. */
  function InstallLines(nonCore: seq<Plugin>, context: string): seq<string>
  {
    [InstallHeader(context)] + AllPluginLines(nonCore) + [RestartLine]
  }

  const SeeBioio: string := "\nSee https://github.com/bioio-devs/bioio for available plugins."

  /** `f"'{s}'"`. */
  function Quoted(s: string): string
  {
    "'" + s + "'"
  }

  const NoPluginsOpening: string := "No bioio plugins found for "
  const AlreadyOpening: string := "The required plugins for "
  const AlreadyRest: string := " should already be installed.\n"
    + "If you're still having issues, check your installation.\n"
    + "Otherwise, open an issue at https://github.com/ndev-kit/ndevio."

  function NoPluginsText(context: string): string
  {
    NoPluginsOpening + context + "." + SeeBioio
  }

  function AlreadyInstalledText(context: string): string
  {
    AlreadyOpening + context + AlreadyRest
  }

  /** What `_format_plugin_suggestion` returns. */
  function SuggestionText(plugins: seq<Plugin>, context: string): string
  {
    if plugins == [] then NoPluginsText(context)
    else if NonCore(plugins) == [] then AlreadyInstalledText(context)
    else Join("\n", InstallLines(NonCore(plugins), context))
  }

  /** `_format_plugin_suggestion`: the lines are collected in a list, then joined. */
  method FormatPluginSuggestion(plugins: seq<Plugin>, context: string) returns (s: string)
    ensures s == SuggestionText(plugins, context)
  {
    if plugins == [] {
      return NoPluginsText(context);
    }
    var nonCore := NonCore(plugins);
    if nonCore == [] {
      return AlreadyInstalledText(context);
    }
    var msg := [InstallHeader(context)];
    for i := 0 to |nonCore|
      invariant msg == [InstallHeader(context)] + AllPluginLines(nonCore[..i])
    {
      CollectedLinesStep(InstallHeader(context), nonCore, i);
      msg := msg + PluginLines(nonCore[i]);
    }
    assert nonCore[..|nonCore|] == nonCore;
    msg := msg + [RestartLine];
    s := Join("\n", msg);
  }

  lemma CollectedLinesStep(header: string, plugins: seq<Plugin>, i: int)
    requires 0 <= i < |plugins|
    ensures [header] + AllPluginLines(plugins[..i + 1]) == ([header] + AllPluginLines(plugins[..i])) + PluginLines(plugins[i])
  {
    assert plugins[..i + 1][..i] == plugins[..i];
  }

  /** A line belongs to the plugin lines of a list exactly when it belongs to those of one member. */
  lemma {:induction false} AllPluginLinesMembers(plugins: seq<Plugin>, line: string)
    ensures line in AllPluginLines(plugins) <==> exists p :: p in plugins && line in PluginLines(p)
  {
    if plugins != [] {
      var init := plugins[..|plugins| - 1];
      AllPluginLinesMembers(init, line);
      assert plugins == init + [plugins[|plugins| - 1]];
    }
  }

  /** Of a `bioio-` plugin's lines, only its own install line is an install line. */
  lemma InstallLineOfPlugin(p: Plugin, n: string)
    requires StartsWith(p.name, "bioio-")
    ensures InstallLine(n) in PluginLines(p) <==> n == p.name
  {
    var l := InstallLine(n);
    assert l[0] == '\n' && l[1] == ' ' && l[3] == 'p';
    assert (NameIndent + p.name)[3] == 'b';
    if InstallLine(n) == InstallLine(p.name) {
      assert n == InstallLine(n)[15..];
    }
  }

  /**
   * With at least one non-core plugin, the install lines of the message are
   * exactly those of the non-core plugins: none for a core plugin.
   */
  lemma InstallLinesExactly(plugins: seq<Plugin>, context: string, n: string)
    requires forall p :: p in plugins ==> StartsWith(p.name, "bioio-")
    ensures InstallLine(n) in InstallLines(NonCore(plugins), context) <==>
      exists p :: p in plugins && !p.core && p.name == n
  {
    var l := InstallLine(n);
    assert l[0] == '\n' && l[1] == ' ';
    assert InstallHeader(context)[0] == 'T';
    assert RestartLine[1] == '\n';
    AllPluginLinesMembers(NonCore(plugins), l);
    forall p | p in plugins
      ensures l in PluginLines(p) <==> n == p.name
    {
      InstallLineOfPlugin(p, n);
    }
  }

  /** No plugins: the text says none were found for the context. */
  lemma SuggestionTextNone(context: string)
    ensures StartsWith(SuggestionText([], context), NoPluginsOpening + context)
  {
    assert NoPluginsText(context) == (NoPluginsOpening + context) + ("." + SeeBioio);
    StartsWithConcat(NoPluginsOpening + context, "." + SeeBioio);
  }

  /** Only core plugins: the text says they should already be installed. */
  lemma SuggestionTextAllCore(plugins: seq<Plugin>, context: string)
    requires plugins != [] && forall p :: p in plugins ==> p.core
    ensures StartsWith(SuggestionText(plugins, context), AlreadyOpening + context)
  {
    if NonCore(plugins) != [] {
      assert NonCore(plugins)[0] in NonCore(plugins);
    }
    StartsWithConcat(AlreadyOpening + context, AlreadyRest);
  }

  /** A non-core plugin: the text opens with the install header and holds the plugin's install line. */
  lemma SuggestionTextNamesNonCore(plugins: seq<Plugin>, context: string, p: Plugin)
    requires p in plugins && !p.core
    ensures StartsWith(SuggestionText(plugins, context), "To read " + context)
    ensures Contains(SuggestionText(plugins, context), InstallLine(p.name))
  {
    var lines := InstallLines(NonCore(plugins), context);
    assert SuggestionText(plugins, context) == Join("\n", lines);
    assert InstallLine(p.name) in PluginLines(p);
    AllPluginLinesMembers(NonCore(plugins), InstallLine(p.name));
    assert lines[1..|lines| - 1] == AllPluginLines(NonCore(plugins));
    var k :| 0 <= k < |lines| && lines[k] == InstallLine(p.name);
    JoinContainsPart("\n", lines, k);
    JoinStartsWithFirst("\n", lines);
    StartsWithConcat("To read " + context, ", you may need to install:\n");
    StartsWithTransitive(Join("\n", lines), InstallHeader(context), "To read " + context);
  }

  // ---------------------------------------------------------------------------
  // The message for a file that could not be read
  // ---------------------------------------------------------------------------

  /** `[p for p in suggested_plugins if p["name"] not in installed_readers]`. */
  function MissingPlugins(suggested: seq<Plugin>, installed: seq<string>): (r: seq<Plugin>)
    ensures forall p :: p in r <==> p in suggested && p.name !in installed
  {
    if suggested == [] then []
    else
      var p := suggested[|suggested| - 1];
      MissingPlugins(suggested[..|suggested| - 1], installed) + (if p.name in installed then [] else [p])
  }

  /** `', '.join(sorted(installed_readers))`. */
  function ReaderList(report: seq<Entry>): string
  {
    Join(", ", SortedSet(AvailableReaders(report)))
  }

  /** The four messages `get_missing_plugins_message` can give, with what each one shows. */
  datatype MissingMessage =
    | CapableButMissing(readerList: string, suggestion: string)
    | CapableComplete(readerList: string)
    | SuggestOnly(suggestion: string)
    | UnknownExtension(suffix: string)

  const InstalledOpening: string := "Installed plugin(s) "
  const TryInstalling: string := " failed to read the file.\nTry installing:\n"
  const SupportedOpening: string := "File supported by: "
  const CheckLogs: string := "\nBut the installed plugin(s) failed to read it.\nCheck the error logs for details."
  const UnknownOpening: string := "No bioio plugins found for extension "

  /** The text of each message. */
  function Render(m: MissingMessage): string
  {
    match m
    case CapableButMissing(list, suggestion) => InstalledOpening + list + TryInstalling + suggestion
    case CapableComplete(list) => SupportedOpening + list + CheckLogs
    case SuggestOnly(suggestion) => suggestion
    case UnknownExtension(suffix) => UnknownOpening + Quoted(suffix) + "." + SeeBioio
  }

  /**
   * `get_missing_plugins_message`: an empty report stands for both `None`
   * and `{}`, which the source treats alike.
   */
  function MissingPluginsMessage(path: string, report: seq<Entry>): string
  {
    Render(MessageFor(Name(path), SuggestForPath(path), report))
  }

  /** The message for a file called `name` for which `suggested` are the suggested plugins. */
  function MessageFor(name: string, suggested: seq<Plugin>, report: seq<Entry>): MissingMessage
  {
    var readers := AvailableReaders(report);
    if report != [] && |readers| > 0 then
      var missing := MissingPlugins(suggested, readers);
      if missing != [] then CapableButMissing(ReaderList(report), SuggestionText(missing, Quoted(name)))
      else CapableComplete(ReaderList(report))
    else if suggested != [] then SuggestOnly(SuggestionText(suggested, Quoted(name)))
    else UnknownExtension(Suffix(name))
  }

  /** The reader list in the message holds every supported reader once, in code-point order. */
  lemma ReaderListSorted(report: seq<Entry>)
    ensures StrictlySorted(SortedSet(AvailableReaders(report)))
    ensures forall n :: n in SortedSet(AvailableReaders(report)) <==> SupportedIn(report, n)
    ensures forall n :: SupportedIn(report, n) ==> Contains(ReaderList(report), n)
  {
    var l := SortedSet(AvailableReaders(report));
    forall n ensures n in l <==> SupportedIn(report, n) {
      AvailableReadersMembers(report, n);
      assert n in l <==> n in Elems(l);
      assert n in AvailableReaders(report) <==> n in Elems(AvailableReaders(report));
    }
    forall n | SupportedIn(report, n) ensures Contains(ReaderList(report), n) {
      var k :| 0 <= k < |l| && l[k] == n;
      JoinContainsPart(", ", l, k);
    }
  }

  /** Some reader is supported: the analysis is positive and the report is not empty. */
  lemma SomeSupported(report: seq<Entry>, n: string)
    requires SupportedIn(report, n)
    ensures report != [] && |AvailableReaders(report)| > 0
  {
    AvailableReadersMembers(report, n);
  }

  /** No reader is supported: the analysis is negative. */
  lemma NoneSupported(report: seq<Entry>)
    requires forall n :: !SupportedIn(report, n)
    ensures AvailableReaders(report) == []
  {
    assert AvailableReaders(report) != [] ==> AvailableReaders(report)[0] in AvailableReaders(report);
    if AvailableReaders(report) != [] {
      AvailableReadersMembers(report, AvailableReaders(report)[0]);
    }
  }

  lemma {:induction false} MissingPluginsNone(suggested: seq<Plugin>, installed: seq<string>)
    requires forall p :: p in suggested ==> p.name in installed
    ensures MissingPlugins(suggested, installed) == []
  {
    if suggested != [] {
      MissingPluginsNone(suggested[..|suggested| - 1], installed);
    }
  }

  /**
   * First branch: some reader is supported but a suggested plugin is not among
   * them. The message lists the supported readers and suggests the missing
   * plugins, that one included.
   */
  lemma MessageCapableButMissing(name: string, suggested: seq<Plugin>, report: seq<Entry>, p: Plugin)
    requires exists n :: SupportedIn(report, n)
    requires p in suggested && !SupportedIn(report, p.name)
    ensures MessageFor(name, suggested, report).CapableButMissing?
    ensures MessageFor(name, suggested, report).readerList == ReaderList(report)
    ensures MessageFor(name, suggested, report).suggestion ==
      SuggestionText(MissingPlugins(suggested, AvailableReaders(report)), Quoted(name))
    ensures p in MissingPlugins(suggested, AvailableReaders(report))
  {
    var n :| SupportedIn(report, n);
    SomeSupported(report, n);
    AvailableReadersMembers(report, p.name);
  }

  /**
   * Second branch: some reader is supported and every suggested plugin is
   * among them. The message names the supported readers and suggests nothing.
   */
  lemma MessageCapableComplete(name: string, suggested: seq<Plugin>, report: seq<Entry>)
    requires exists n :: SupportedIn(report, n)
    requires forall p :: p in suggested ==> SupportedIn(report, p.name)
    ensures MessageFor(name, suggested, report) == CapableComplete(ReaderList(report))
  {
    var n :| SupportedIn(report, n);
    SomeSupported(report, n);
    forall q | q in suggested ensures q.name in AvailableReaders(report) {
      AvailableReadersMembers(report, q.name);
    }
    MissingPluginsNone(suggested, AvailableReaders(report));
  }

  /** Third branch: no reader is supported but some plugin is suggested; the message suggests them all. */
  lemma MessageSuggestOnly(name: string, suggested: seq<Plugin>, report: seq<Entry>)
    requires forall n :: !SupportedIn(report, n)
    requires suggested != []
    ensures MessageFor(name, suggested, report) == SuggestOnly(SuggestionText(suggested, Quoted(name)))
  {
    NoneSupported(report);
  }

  /** Fourth branch: nothing supported and nothing suggested; the message names the suffix. */
  lemma MessageUnknownExtension(name: string, suggested: seq<Plugin>, report: seq<Entry>)
    requires forall n :: !SupportedIn(report, n)
    requires suggested == []
    ensures MessageFor(name, suggested, report) == UnknownExtension(Suffix(name))
  {
    NoneSupported(report);
  }

  /** Each text opens with its own wording and shows what its message carries. */
  lemma RenderCapableButMissing(list: string, suggestion: string)
    ensures StartsWith(Render(CapableButMissing(list, suggestion)), InstalledOpening + list)
    ensures forall t :: Contains(list, t) || Contains(suggestion, t) ==> Contains(Render(CapableButMissing(list, suggestion)), t)
  {
    var head := InstalledOpening + list;
    var text := Render(CapableButMissing(list, suggestion));
    assert text == head + (TryInstalling + suggestion);
    StartsWithConcat(head, TryInstalling + suggestion);
    forall t | Contains(list, t) || Contains(suggestion, t) ensures Contains(text, t) {
      if Contains(suggestion, t) {
        ContainsInConcat(t, suggestion, head + TryInstalling);
      } else {
        ContainsInConcat(t, list, InstalledOpening);
        ContainsInConcat(t, head, TryInstalling + suggestion);
      }
    }
  }

  lemma RenderCapableComplete(list: string)
    ensures StartsWith(Render(CapableComplete(list)), SupportedOpening + list)
    ensures forall t :: Contains(list, t) ==> Contains(Render(CapableComplete(list)), t)
  {
    var head := SupportedOpening + list;
    StartsWithConcat(head, CheckLogs);
    forall t | Contains(list, t) ensures Contains(head + CheckLogs, t) {
      ContainsInConcat(t, list, SupportedOpening);
      ContainsInConcat(t, head, CheckLogs);
    }
  }

  lemma RenderUnknownExtension(suffix: string)
    ensures StartsWith(Render(UnknownExtension(suffix)), UnknownOpening + Quoted(suffix))
  {
    var head := UnknownOpening + Quoted(suffix);
    assert Render(UnknownExtension(suffix)) == head + ("." + SeeBioio);
    StartsWithConcat(head, "." + SeeBioio);
  }

  /** Whenever some reader is supported, the message names every supported reader. */
  lemma MessageNamesReaders(name: string, suggested: seq<Plugin>, report: seq<Entry>, n: string)
    requires SupportedIn(report, n)
    ensures Contains(Render(MessageFor(name, suggested, report)), n)
  {
    SomeSupported(report, n);
    ReaderListSorted(report);
    var list := ReaderList(report);
    assert Contains(list, n);
    var missing := MissingPlugins(suggested, AvailableReaders(report));
    if missing != [] {
      var suggestion := SuggestionText(missing, Quoted(name));
      assert MessageFor(name, suggested, report) == CapableButMissing(list, suggestion);
      RenderCapableButMissing(list, suggestion);
    } else {
      assert MessageFor(name, suggested, report) == CapableComplete(list);
      RenderCapableComplete(list);
    }
  }

  /** With some reader supported, a suggested plugin that is neither supported nor core gets its install line. */
  lemma MessageInstallsMissing(name: string, suggested: seq<Plugin>, report: seq<Entry>, p: Plugin)
    requires exists n :: SupportedIn(report, n)
    requires p in suggested && !SupportedIn(report, p.name) && !p.core
    ensures Contains(Render(MessageFor(name, suggested, report)), InstallLine(p.name))
  {
    MessageCapableButMissing(name, suggested, report, p);
    var missing := MissingPlugins(suggested, AvailableReaders(report));
    SuggestionTextNamesNonCore(missing, Quoted(name), p);
    RenderCapableButMissing(ReaderList(report), SuggestionText(missing, Quoted(name)));
  }
}
