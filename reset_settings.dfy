/**
 * The settings reset used as a pre-commit hook: every setting that carries
 * both a `default` and a `value` gets its value put back to its default, and
 * the settings file is rewritten only when that changed something.
 *
 * The file is modelled by the document it holds: loading gives that
 * document, and dumping stores it back.
 */
module ResetSettings {
  import opened Wrappers

  /** A setting entry: a mapping of fields, or any other YAML value. */
  datatype Setting<V> = Fields(fields: map<string, V>) | Plain(v: V)

  /** A settings group: setting names and entries, in file order. */
  type Group<V> = seq<(string, Setting<V>)>

  /** The document: group names and groups, in file order. */
  type Document<V> = seq<(string, Group<V>)>

  const DefaultKey: string := "default"
  const ValueKey: string := "value"

  /** The test of the inner loop: a mapping with both keys whose value differs from its default. */
  predicate NeedsReset<V(==)>(s: Setting<V>)
  {
    s.Fields? && DefaultKey in s.fields && ValueKey in s.fields && s.fields[ValueKey] != s.fields[DefaultKey]
  }

  /** One setting after the loop body ran on it. */
  function ResetSetting<V(==)>(s: Setting<V>): Setting<V>
  {
    if NeedsReset(s) then Fields(s.fields[ValueKey := s.fields[DefaultKey]]) else s
  }

  function ResetGroup<V(==)>(g: Group<V>): (r: Group<V>)
    ensures |r| == |g|
    ensures forall l :: 0 <= l < |g| ==> r[l] == (g[l].0, ResetSetting(g[l].1))
  {
    seq(|g|, l requires 0 <= l < |g| => (g[l].0, ResetSetting(g[l].1)))
  }

  /** The whole document once every group is reset. */
  function ResetAll<V(==)>(doc: Document<V>): (r: Document<V>)
    ensures |r| == |doc|
    ensures forall k :: 0 <= k < |doc| ==> r[k] == (doc[k].0, ResetGroup(doc[k].1))
  {
    seq(|doc|, k requires 0 <= k < |doc| => (doc[k].0, ResetGroup(doc[k].1)))
  }

  /** Some setting among the first `n` of `g` needs resetting. */
  predicate GroupNeedsReset<V(==)>(g: Group<V>, n: int)
    requires n <= |g|
  {
    exists l :: 0 <= l < n && NeedsReset(g[l].1)
  }

  /** Some setting in the first `n` groups of `doc` needs resetting. */
  predicate DocNeedsReset<V(==)>(doc: Document<V>, n: int)
    requires n <= |doc|
  {
    exists k :: 0 <= k < n && GroupNeedsReset(doc[k].1, |doc[k].1|)
  }

  /**
   * After a reset, every mapping with both keys has its value equal to its
   * default; everything else, and every key but `value`, is as it was.
   */
  lemma ResetSettingEffect<V>(s: Setting<V>)
    ensures var r := ResetSetting(s);
      && (s.Fields? && DefaultKey in s.fields && ValueKey in s.fields ==>
            r.Fields? && r.fields.Keys == s.fields.Keys && r.fields[ValueKey] == s.fields[DefaultKey]
            && forall key :: key in s.fields && key != ValueKey ==> r.fields[key] == s.fields[key])
      && (!(s.Fields? && DefaultKey in s.fields && ValueKey in s.fields) ==> r == s)
    ensures ResetSetting(s) != s <==> NeedsReset(s)
  {
    if NeedsReset(s) {
      assert ResetSetting(s).fields[ValueKey] != s.fields[ValueKey];
    }
  }

  /** A document with nothing to reset is left exactly as it was. */
  lemma NothingToReset<V>(doc: Document<V>)
    requires !DocNeedsReset(doc, |doc|)
    ensures ResetAll(doc) == doc
  {
    forall k | 0 <= k < |doc| ensures ResetGroup(doc[k].1) == doc[k].1 {
      assert !GroupNeedsReset(doc[k].1, |doc[k].1|);
    }
  }

  /** After a reset nothing needs resetting, so a second reset reports no change and changes nothing. */
  lemma ResetIdempotent<V>(doc: Document<V>)
    ensures !DocNeedsReset(ResetAll(doc), |doc|)
    ensures ResetAll(ResetAll(doc)) == ResetAll(doc)
  {
    var once := ResetAll(doc);
    forall k, l | 0 <= k < |doc| && 0 <= l < |once[k].1| ensures !NeedsReset(once[k].1[l].1) {
      ResetSettingEffect(doc[k].1[l].1);
    }
    NothingToReset(once);
  }

  /** The settings file of the hook. */
  class SettingsFile<V(==)> {
    /** The document the file holds; `None` for a file whose content is empty or null. */
    var stored: Option<Document<V>>
    /** How many times the file has been rewritten. */
    var writes: nat

    constructor(stored: Option<Document<V>>)
      ensures this.stored == stored && writes == 0
    {
      this.stored := stored;
      writes := 0;
    }

    /**
     * `reset_settings_to_defaults`: reports whether some setting changed,
     * and rewrites the file with the reset document exactly then.
     */
    method ResetSettingsToDefaults() returns (modified: bool)
      modifies this
      ensures modified <==> old(stored).Some? && DocNeedsReset(old(stored).value, |old(stored).value|)
      ensures modified ==> stored == Some(ResetAll(old(stored).value)) && writes == old(writes) + 1
      ensures !modified ==> stored == old(stored) && writes == old(writes)
    {
      if stored.None? || stored.value == [] {
        return false;
      }
      var settings := stored.value;
      ghost var orig := settings;
      modified := false;
      for i := 0 to |settings|
        invariant |settings| == |orig|
        invariant forall k :: 0 <= k < i ==> settings[k] == (orig[k].0, ResetGroup(orig[k].1))
        invariant forall k :: i <= k < |orig| ==> settings[k] == orig[k]
        invariant modified <==> DocNeedsReset(orig, i)
      {
        var group := settings[i].1;
        ghost var g := group;
        ghost var before := modified;
        for j := 0 to |group|
          invariant |group| == |g|
          invariant forall l :: 0 <= l < j ==> group[l] == (g[l].0, ResetSetting(g[l].1))
          invariant forall l :: j <= l < |g| ==> group[l] == g[l]
          invariant modified <==> before || GroupNeedsReset(g, j)
        {
          var setting := group[j].1;
          if setting.Fields? && DefaultKey in setting.fields && ValueKey in setting.fields
             && setting.fields[ValueKey] != setting.fields[DefaultKey] {
            group := group[j := (group[j].0, Fields(setting.fields[ValueKey := setting.fields[DefaultKey]]))];
            modified := true;
          }
        }
        assert group == ResetGroup(g);
        settings := settings[i := (settings[i].0, group)];
      }
      assert settings == ResetAll(orig);
      if modified {
        stored := Some(settings);
        writes := writes + 1;
      }
    }
  }
}
