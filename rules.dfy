/**
 * Reading the include and exclude fields of the configuration and building
 * the per-artist rule table (`parseFileList`, `addSpecifiedFiles` and
 * `getArtistRules` in genPlaylist.py).
 */
module Rules {
  import opened Wrappers
  import opened Text
  import opened Inputs

  /** The raw entries of a field: `value.strip().split(",")`. */
  function Pieces(value: string): (r: seq<string>)
    ensures |r| >= 1
  {
    Split(Strip(value, Whitespace), ',')
  }

  /** The absolute path entry `e` contributes: its own, when it names an existing file once stripped. */
  function EntryPath(host: Host, e: string): set<string>
  {
    var s := StripAll(e);
    if host.isFile(s) then {host.absPath(s)} else {}
  }

  /** The name entry `e` contributes: itself stripped, when that is non-empty and not an existing file. */
  function EntryName(host: Host, e: string): set<string>
  {
    var s := StripAll(e);
    if !host.isFile(s) && s != [] then {s} else {}
  }

  /** The absolute paths of the entries of `es` that, once stripped, name existing files. */
  function PathsOf(host: Host, es: seq<string>): set<string>
  {
    if es == [] then {} else PathsOf(host, es[..|es| - 1]) + EntryPath(host, es[|es| - 1])
  }

  /** The entries of `es` that, once stripped, are non-empty and not existing files. */
  function NamesOf(host: Host, es: seq<string>): set<string>
  {
    if es == [] then {} else NamesOf(host, es[..|es| - 1]) + EntryName(host, es[|es| - 1])
  }

  /** Appending an entry adds what that entry contributes. */
  lemma EntriesStep(host: Host, es: seq<string>, e: string)
    ensures PathsOf(host, es + [e]) == PathsOf(host, es) + EntryPath(host, e)
    ensures NamesOf(host, es + [e]) == NamesOf(host, es) + EntryName(host, e)
  {
    assert (es + [e])[..|es|] == es;
  }

  /**
   * Each entry is routed by what it is once stripped: an existing file
   * contributes exactly its absolute path to the paths, anything else
   * non-empty contributes itself to the names, and an empty entry
   * contributes nothing.
   */
  lemma {:induction false} EntryRouting(host: Host, es: seq<string>)
    ensures forall p :: p in PathsOf(host, es) <==>
              exists e :: e in es && host.isFile(StripAll(e)) && p == host.absPath(StripAll(e))
    ensures forall n :: n in NamesOf(host, es) <==>
              exists e :: e in es && !host.isFile(StripAll(e)) && StripAll(e) != [] && n == StripAll(e)
  {
    if es != [] {
      var last := es[|es| - 1];
      EntryRouting(host, es[..|es| - 1]);
      assert forall x :: x in es <==> x in es[..|es| - 1] || x == last;
    }
  }

  /** The paths field `key` of a section lists (none when the field is missing). */
  function PathTokens(host: Host, sec: Section, key: string): set<string>
  {
    if key in sec then PathsOf(host, Pieces(sec[key])) else {}
  }

  /** The bare file names field `key` of a section lists (none when the field is missing). */
  function NameTokens(host: Host, sec: Section, key: string): set<string>
  {
    if key in sec then NamesOf(host, Pieces(sec[key])) else {}
  }

  /**
   * The loop of `parseFileList` over the entries of one field: each entry
   * is stripped, then added to `paths` as an absolute path when it names an
   * existing file, or to `names` when it is non-empty.
   */
  method AddEntries(host: Host, pieces: seq<string>, paths: set<string>, names: set<string>)
    returns (paths': set<string>, names': set<string>)
    ensures paths' == paths + PathsOf(host, pieces)
    ensures names' == names + NamesOf(host, pieces)
  {
    paths', names' := paths, names;
    var i := 0;
    assert pieces[..0] == [];
    while i < |pieces|
      invariant 0 <= i <= |pieces|
      invariant paths' == paths + PathsOf(host, pieces[..i])
      invariant names' == names + NamesOf(host, pieces[..i])
    {
      var entry := StripAll(pieces[i]);
      assert pieces[..i + 1] == pieces[..i] + [pieces[i]];
      EntriesStep(host, pieces[..i], pieces[i]);
      if host.isFile(entry) {
        paths' := paths' + {host.absPath(entry)};
      } else if entry != [] {
        names' := names' + {entry};
      }
      i := i + 1;
    }
    assert pieces[..i] == pieces;
  }

  /**
   * `parseFileList`: adds the path entries of field `key` to `paths` and
   * the name entries to `names`; a missing field adds nothing.
   */
  method ParseFileList(host: Host, section: Section, key: string, paths: set<string>, names: set<string>)
    returns (paths': set<string>, names': set<string>)
    ensures paths' == paths + PathTokens(host, section, key)
    ensures names' == names + NameTokens(host, section, key)
  {
    paths', names' := paths, names;
    if key in section {
      paths', names' := AddEntries(host, Pieces(section[key]), paths, names);
    }
  }

  /**
   * `addSpecifiedFiles`: the include field of `section` feeds `filePaths`
   * and `fileNames`, its exclude field `excludePaths` and `excludeNames`;
   * a section that does not exist changes nothing.
   */
  method AddSpecifiedFiles(host: Host, cfg: Config, section: string,
                           filePaths: set<string>, excludePaths: set<string>,
                           fileNames: set<string>, excludeNames: set<string>)
    returns (filePaths': set<string>, excludePaths': set<string>,
             fileNames': set<string>, excludeNames': set<string>)
    ensures section !in cfg.sections ==>
              filePaths' == filePaths && excludePaths' == excludePaths
              && fileNames' == fileNames && excludeNames' == excludeNames
    ensures section in cfg.sections ==>
              && filePaths' == filePaths + PathTokens(host, cfg.sections[section], INCLUDE_KEY)
              && fileNames' == fileNames + NameTokens(host, cfg.sections[section], INCLUDE_KEY)
              && excludePaths' == excludePaths + PathTokens(host, cfg.sections[section], EXCLUDE_KEY)
              && excludeNames' == excludeNames + NameTokens(host, cfg.sections[section], EXCLUDE_KEY)
  {
    filePaths', excludePaths', fileNames', excludeNames' := filePaths, excludePaths, fileNames, excludeNames;
    if section !in cfg.sections {
      return;
    }
    filePaths', fileNames' := ParseFileList(host, cfg.sections[section], INCLUDE_KEY, filePaths, fileNames);
    excludePaths', excludeNames' := ParseFileList(host, cfg.sections[section], EXCLUDE_KEY, excludePaths, excludeNames);
  }

  /**
   * The rule record of one artist: whether every file of the artist is
   * wanted, the file names still to be found, the file names to leave
   * out, and the pool of files kept back for random sampling.
   */
  datatype ArtistRule = ArtistRule(addAll: bool, fileNames: set<string>, excludeNames: set<string>, random: seq<string>)

  /**
   * An artist wants all of its files when its include field is missing or
   * blank and it asks for no random count.
   */
  predicate WantsAll(sec: Section)
  {
    (INCLUDE_KEY !in sec || |Strip(sec[INCLUDE_KEY], Whitespace)| == 0) && RANDOM_KEY !in sec
  }

  /** The record `getArtistRules` builds for an artist section. */
  function RuleOf(host: Host, sec: Section): ArtistRule
  {
    ArtistRule(WantsAll(sec), NameTokens(host, sec, INCLUDE_KEY), NameTokens(host, sec, EXCLUDE_KEY), [])
  }

  /** The paths that field `key` of the artist sections among `names` lists. */
  function PathsAcross(host: Host, cfg: Config, names: seq<string>, key: string): set<string>
  {
    if names == [] then {}
    else
      var n := names[|names| - 1];
      PathsAcross(host, cfg, names[..|names| - 1], key)
      + SectionPaths(host, cfg, n, key)
  }

  /** The paths one section contributes to `PathsAcross`. */
  function SectionPaths(host: Host, cfg: Config, n: string, key: string): set<string>
  {
    if n != GENERAL && n in cfg.sections then PathTokens(host, cfg.sections[n], key) else {}
  }

  /** Extending the section list by one name adds that section's paths. */
  lemma PathsAcrossStep(host: Host, cfg: Config, names: seq<string>, n: string, key: string)
    ensures PathsAcross(host, cfg, names + [n], key) == PathsAcross(host, cfg, names, key) + SectionPaths(host, cfg, n, key)
  {
    assert (names + [n])[..|names|] == names;
  }

  /** A path is among `PathsAcross` exactly when some artist section among `names` lists it. */
  lemma {:induction false} PathsAcrossMembers(host: Host, cfg: Config, names: seq<string>, key: string, p: string)
    ensures p in PathsAcross(host, cfg, names, key) <==>
              exists i :: 0 <= i < |names| && p in SectionPaths(host, cfg, names[i], key)
  {
    if names != [] {
      var m := |names| - 1;
      var front := names[..m];
      assert names == front + [names[m]];
      PathsAcrossStep(host, cfg, front, names[m], key);
      PathsAcrossMembers(host, cfg, front, key, p);
      if p in PathsAcross(host, cfg, names, key) {
        if p !in SectionPaths(host, cfg, names[m], key) {
          var i :| 0 <= i < |front| && p in SectionPaths(host, cfg, front[i], key);
          assert front[i] == names[i];
        }
      } else {
        forall i | 0 <= i < |names|
          ensures p !in SectionPaths(host, cfg, names[i], key)
        {
          if i < m {
            assert front[i] == names[i];
          }
        }
      }
    }
  }

  /** The rule table built from the sections among `names`, later sections overriding earlier ones. */
  function RulesOf(host: Host, cfg: Config, names: seq<string>): map<string, ArtistRule>
  {
    if names == [] then map[]
    else
      var n := names[|names| - 1];
      var rules := RulesOf(host, cfg, names[..|names| - 1]);
      if n != GENERAL && n in cfg.sections then rules[n := RuleOf(host, cfg.sections[n])] else rules
  }

  /** Extending the section list by one name adds that section's record. */
  lemma RulesOfStep(host: Host, cfg: Config, names: seq<string>, n: string)
    ensures RulesOf(host, cfg, names + [n]) ==
              if n != GENERAL && n in cfg.sections then RulesOf(host, cfg, names)[n := RuleOf(host, cfg.sections[n])]
              else RulesOf(host, cfg, names)
  {
    assert (names + [n])[..|names|] == names;
  }

  /** The table holds a record for exactly the existing sections among `names` other than General. */
  lemma {:induction false} RulesOfKeys(host: Host, cfg: Config, names: seq<string>)
    ensures RulesOf(host, cfg, names).Keys == (set n | n in names && n in cfg.sections) - {GENERAL}
  {
    if names != [] {
      var m := |names| - 1;
      var front := names[..m];
      assert names == front + [names[m]];
      RulesOfStep(host, cfg, front, names[m]);
      RulesOfKeys(host, cfg, front);
      var now := set n | n in names && n in cfg.sections;
      var before := set n | n in front && n in cfg.sections;
      assert now == before + (if names[m] in cfg.sections then {names[m]} else {});
    }
  }

  /** Each record in the table is the rule of its section. */
  lemma {:induction false} RulesOfRecords(host: Host, cfg: Config, names: seq<string>)
    ensures forall a :: a in RulesOf(host, cfg, names) ==>
              a in cfg.sections && RulesOf(host, cfg, names)[a] == RuleOf(host, cfg.sections[a])
  {
    if names != [] {
      var m := |names| - 1;
      var front := names[..m];
      assert names == front + [names[m]];
      RulesOfStep(host, cfg, front, names[m]);
      RulesOfRecords(host, cfg, front);
    }
  }

  /**
   * The body of `getArtistRules` for one section: General is skipped; an
   * artist section's include and exclude fields feed the path sets, and
   * its rule record is entered in the table.
   */
  method AddArtistRule(host: Host, cfg: Config, section: string, rules: map<string, ArtistRule>,
                       filePaths: set<string>, excludePaths: set<string>)
    returns (rules': map<string, ArtistRule>, filePaths': set<string>, excludePaths': set<string>)
    requires section in cfg.sections
    ensures rules' == if section != GENERAL then rules[section := RuleOf(host, cfg.sections[section])] else rules
    ensures filePaths' == filePaths + SectionPaths(host, cfg, section, INCLUDE_KEY)
    ensures excludePaths' == excludePaths + SectionPaths(host, cfg, section, EXCLUDE_KEY)
  {
    rules', filePaths', excludePaths' := rules, filePaths, excludePaths;
    if section != GENERAL {
      var fileNames, excludeNames;
      filePaths', excludePaths', fileNames, excludeNames :=
        AddSpecifiedFiles(host, cfg, section, filePaths, excludePaths, {}, {});
      var addAll := false;
      if WantsAll(cfg.sections[section]) {
        addAll := true;
      }
      assert fileNames == NameTokens(host, cfg.sections[section], INCLUDE_KEY);
      assert excludeNames == NameTokens(host, cfg.sections[section], EXCLUDE_KEY);
      rules' := rules[section := ArtistRule(addAll, fileNames, excludeNames, [])];
    }
  }

  /**
   * `getArtistRules`: the rule table of every section other than General,
   * and every path listed in an artist's include (exclude) field added to
   * `filePaths` (`excludePaths`).
   */
  method GetArtistRules(host: Host, cfg: Config, filePaths: set<string>, excludePaths: set<string>)
    returns (rules: map<string, ArtistRule>, filePaths': set<string>, excludePaths': set<string>)
    requires WellFormed(cfg)
    ensures rules == RulesOf(host, cfg, cfg.order)
    ensures filePaths' == filePaths + PathsAcross(host, cfg, cfg.order, INCLUDE_KEY)
    ensures excludePaths' == excludePaths + PathsAcross(host, cfg, cfg.order, EXCLUDE_KEY)
  {
    rules := map[];
    filePaths', excludePaths' := filePaths, excludePaths;
    var i := 0;
    while i < |cfg.order|
      invariant 0 <= i <= |cfg.order|
      invariant rules == RulesOf(host, cfg, cfg.order[..i])
      invariant filePaths' == filePaths + PathsAcross(host, cfg, cfg.order[..i], INCLUDE_KEY)
      invariant excludePaths' == excludePaths + PathsAcross(host, cfg, cfg.order[..i], EXCLUDE_KEY)
    {
      var section := cfg.order[i];
      assert section in cfg.sections;
      assert cfg.order[..i + 1] == cfg.order[..i] + [section];
      PathsAcrossStep(host, cfg, cfg.order[..i], section, INCLUDE_KEY);
      PathsAcrossStep(host, cfg, cfg.order[..i], section, EXCLUDE_KEY);
      RulesOfStep(host, cfg, cfg.order[..i], section);
      rules, filePaths', excludePaths' := AddArtistRule(host, cfg, section, rules, filePaths', excludePaths');
      i := i + 1;
    }
    assert cfg.order[..i] == cfg.order;
  }

  /**
   * In a well-formed configuration every section but General gets exactly
   * its own rule, with an empty pool, and `addAll` set exactly when the
   * section wants all of its files.
   */
  lemma RulesOfConfig(host: Host, cfg: Config)
    requires WellFormed(cfg)
    ensures RulesOf(host, cfg, cfg.order).Keys == cfg.sections.Keys - {GENERAL}
    ensures forall a :: a in RulesOf(host, cfg, cfg.order) ==> RulesOf(host, cfg, cfg.order)[a] == RuleOf(host, cfg.sections[a])
    ensures forall a :: a in RulesOf(host, cfg, cfg.order) ==>
              && RulesOf(host, cfg, cfg.order)[a].random == []
              && (RulesOf(host, cfg, cfg.order)[a].addAll <==> WantsAll(cfg.sections[a]))
  {
    RulesOfKeys(host, cfg, cfg.order);
    RulesOfRecords(host, cfg, cfg.order);
  }

  /** An artist that wants all of its files has no file names pending. */
  lemma WantsAllHasNoPendingNames(host: Host, sec: Section)
    requires WantsAll(sec)
    ensures RuleOf(host, sec).fileNames == {}
  {
    if INCLUDE_KEY in sec {
      var w := Strip(sec[INCLUDE_KEY], Whitespace);
      assert w == [];
      assert Split(w, ',') == [[]];
      var es: seq<string> := [[]];
      assert StripAll([]) == [];
      assert EntryName(host, []) == {};
      assert es[..0] == [];
      assert NamesOf(host, es) == NamesOf(host, []) + EntryName(host, []);
    }
  }
}
