/**
 * Applying the rules to the files found in the General directories:
 * `processArtistRules` and the scan loop of `genPlaylist` in
 * genPlaylist.py.
 */
module Resolution {
  import opened Wrappers
  import opened Text
  import opened Inputs
  import opened Rules

  /**
   * What `processArtistRules` does to an artist's record and to the
   * playlist set for one file: an excluded name changes nothing; a wanted
   * file (all files wanted, or its name pending) is committed and its
   * name is no longer pending; any other file joins the artist's pool.
   */
  function ApplyArtistRule(rule: ArtistRule, filePaths: set<string>, filename: string, filePath: string)
    : (ArtistRule, set<string>)
  {
    if filename in rule.excludeNames then (rule, filePaths)
    else if rule.addAll || filename in rule.fileNames then
      (rule.(fileNames := rule.fileNames - {filename}), filePaths + {filePath})
    else
      (rule.(random := rule.random + [filePath]), filePaths)
  }

  /**
   * The outcomes of `processArtistRules`: an excluded name leaves record
   * and playlist alone; otherwise exactly one of "committed, no longer
   * pending" and "appended to the pool" happens, the first exactly when
   * all files are wanted or the name is pending; `addAll` and the
   * excluded names never change.
   */
  lemma ArtistRuleOutcomes(rule: ArtistRule, filePaths: set<string>, filename: string, filePath: string)
    ensures var (rule', filePaths') := ApplyArtistRule(rule, filePaths, filename, filePath);
      && rule'.addAll == rule.addAll
      && rule'.excludeNames == rule.excludeNames
      && (filename in rule.excludeNames ==> rule' == rule && filePaths' == filePaths)
      && (filename !in rule.excludeNames && (rule.addAll || filename in rule.fileNames) ==>
            && filePaths' == filePaths + {filePath}
            && rule'.fileNames == rule.fileNames - {filename}
            && rule'.random == rule.random)
      && (filename !in rule.excludeNames && !rule.addAll && filename !in rule.fileNames ==>
            && filePaths' == filePaths
            && rule'.fileNames == rule.fileNames
            && rule'.random == rule.random + [filePath])
  {
  }

  /** `processArtistRules`, updating the record and the playlist set it is handed. */
  method ProcessArtistRules(rule: ArtistRule, filePaths: set<string>, filename: string, filePath: string)
    returns (rule': ArtistRule, filePaths': set<string>)
    ensures (rule', filePaths') == ApplyArtistRule(rule, filePaths, filename, filePath)
  {
    rule', filePaths' := rule, filePaths;
    if filename in rule.excludeNames {
      return;
    }
    if rule.addAll || filename in rule.fileNames {
      filePaths' := filePaths' + {filePath};
      if filename in rule.fileNames {
        rule' := rule'.(fileNames := rule'.fileNames - {filename});
      } else {
        assert rule.fileNames - {filename} == rule.fileNames;
      }
    } else {
      rule' := rule'.(random := rule'.random + [filePath]);
    }
  }

  /** `getArtist`: the artist field of the file's tags split on `/`, or no artist at all. */
  function GetArtist(host: Host, filePath: string): (r: seq<string>)
    ensures forall i :: 0 <= i < |r| ==> '/' !in r[i]
  {
    match host.artistTag(filePath)
    case None => []
    case Some(tag) => Split(tag, '/')
  }

  /** The position of the first artist that has a record, if any. */
  function FirstRuled(artists: seq<string>, rules: map<string, ArtistRule>): (r: Option<nat>)
    ensures r.Some? ==> r.value < |artists| && artists[r.value] in rules
    ensures r.Some? ==> forall j :: 0 <= j < r.value ==> artists[j] !in rules
    ensures r.None? ==> forall j :: 0 <= j < |artists| ==> artists[j] !in rules
  {
    if artists == [] then None
    else if artists[0] in rules then Some(0)
    else
      match FirstRuled(artists[1..], rules)
      case None => None
      case Some(i) => Some(i + 1)
  }

  /**
   * The bookkeeping of the scan: the playlist set, the General section's
   * pending names, the General pool, and the artist rule table.
   */
  datatype ScanState = ScanState(filePaths: set<string>, fileNames: set<string>,
                                 randomGeneral: seq<string>, rules: map<string, ArtistRule>)

  /**
   * Resolving one file: only the first of its artists that has a record
   * applies that record; with none, the General rule commits a pending
   * name (and drops it from the pending names) or pools the file.
   */
  function Resolve(host: Host, st: ScanState, filename: string, filePath: string): ScanState
  {
    var artists := GetArtist(host, filePath);
    match FirstRuled(artists, st.rules)
    case Some(i) =>
      var (rule, paths) := ApplyArtistRule(st.rules[artists[i]], st.filePaths, filename, filePath);
      st.(filePaths := paths, rules := st.rules[artists[i] := rule])
    case None =>
      if filename in st.fileNames then
        st.(filePaths := st.filePaths + {filePath}, fileNames := st.fileNames - {filename})
      else
        st.(randomGeneral := st.randomGeneral + [filePath])
  }

  /**
   * Only the first artist with a record is consulted: its record and the
   * playlist set change as `ApplyArtistRule` says, every other record
   * stays as it was, and the General bookkeeping is untouched; without
   * such an artist the rule table stays as it was.
   */
  lemma ResolveFirstArtistOnly(host: Host, st: ScanState, filename: string, filePath: string)
    ensures var st' := Resolve(host, st, filename, filePath);
      && st'.rules.Keys == st.rules.Keys
      && (FirstRuled(GetArtist(host, filePath), st.rules).Some? ==>
            var chosen := GetArtist(host, filePath)[FirstRuled(GetArtist(host, filePath), st.rules).value];
            && chosen in st.rules
            && (st'.rules[chosen], st'.filePaths)
                 == ApplyArtistRule(st.rules[chosen], st.filePaths, filename, filePath)
            && st'.fileNames == st.fileNames
            && st'.randomGeneral == st.randomGeneral
            && (forall a :: a in st.rules && a != chosen ==> st'.rules[a] == st.rules[a]))
      && (FirstRuled(GetArtist(host, filePath), st.rules).None? ==>
            && st'.rules == st.rules
            && (filename in st.fileNames ==>
                  st'.filePaths == st.filePaths + {filePath} && st'.fileNames == st.fileNames - {filename}
                  && st'.randomGeneral == st.randomGeneral)
            && (filename !in st.fileNames ==>
                  st'.filePaths == st.filePaths && st'.fileNames == st.fileNames
                  && st'.randomGeneral == st.randomGeneral + [filePath]))
  {
  }

  /**
   * The resolution part of the scan loop: the artist search with its
   * `break`, `processArtistRules` on the record found, or the General rule.
   */
  method ResolveFile(host: Host, st: ScanState, filename: string, filePath: string) returns (st': ScanState)
    ensures st' == Resolve(host, st, filename, filePath)
  {
    st' := st;
    var artists := GetArtist(host, filePath);
    var hadArtistRules := false;
    var i := 0;
    while i < |artists|
      invariant 0 <= i <= |artists|
      invariant !hadArtistRules && st' == st
      invariant forall j :: 0 <= j < i ==> artists[j] !in st.rules
    {
      if artists[i] in st.rules {
        hadArtistRules := true;
        var rule, paths := ProcessArtistRules(st.rules[artists[i]], st.filePaths, filename, filePath);
        st' := st.(filePaths := paths, rules := st.rules[artists[i] := rule]);
        assert FirstRuled(artists, st.rules) == Some(i);
        break;
      }
      i := i + 1;
    }
    if !hadArtistRules {
      assert FirstRuled(artists, st.rules) == None;
      if filename in st.fileNames {
        st' := st'.(filePaths := st'.filePaths + {filePath}, fileNames := st'.fileNames - {filename});
      } else {
        st' := st'.(randomGeneral := st'.randomGeneral + [filePath]);
      }
    }
  }

  /** A file found in a General directory: its name and absolute path. */
  datatype Candidate = Candidate(name: string, path: string)

  /**
   * A file is passed over when it is already in the playlist, its path is
   * excluded, or its name is excluded by the General section.
   */
  predicate Skipped(excludePaths: set<string>, excludeNames: set<string>, st: ScanState, c: Candidate)
  {
    c.path in st.filePaths || c.path in excludePaths || c.name in excludeNames
  }

  /** One iteration of the scan over the files of a directory. */
  function Step(host: Host, excludePaths: set<string>, excludeNames: set<string>, st: ScanState, c: Candidate): ScanState
  {
    if Skipped(excludePaths, excludeNames, st, c) then st else Resolve(host, st, c.name, c.path)
  }

  /** The scan over the files `cs`, in order. */
  function ScanSpec(host: Host, excludePaths: set<string>, excludeNames: set<string>, st: ScanState, cs: seq<Candidate>)
    : ScanState
  {
    if cs == [] then st
    else Step(host, excludePaths, excludeNames, ScanSpec(host, excludePaths, excludeNames, st, cs[..|cs| - 1]), cs[|cs| - 1])
  }

  /** Scanning one more file is one more step. */
  lemma ScanSnoc(host: Host, excludePaths: set<string>, excludeNames: set<string>, st: ScanState,
                 cs: seq<Candidate>, c: Candidate)
    ensures ScanSpec(host, excludePaths, excludeNames, st, cs + [c])
         == Step(host, excludePaths, excludeNames, ScanSpec(host, excludePaths, excludeNames, st, cs), c)
  {
    assert (cs + [c])[..|cs|] == cs;
  }

  /** Scanning `a` then `b` is scanning `a + b`. */
  lemma {:induction false} ScanAppend(host: Host, excludePaths: set<string>, excludeNames: set<string>, st: ScanState,
                                      a: seq<Candidate>, b: seq<Candidate>)
    ensures ScanSpec(host, excludePaths, excludeNames, st, a + b)
         == ScanSpec(host, excludePaths, excludeNames, ScanSpec(host, excludePaths, excludeNames, st, a), b)
    decreases |b|
  {
    if b == [] {
      assert a + b == a;
    } else {
      var front := b[..|b| - 1];
      var c := b[|b| - 1];
      assert b == front + [c];
      assert a + b == (a + front) + [c];
      ScanAppend(host, excludePaths, excludeNames, st, a, front);
      ScanSnoc(host, excludePaths, excludeNames, st, a + front, c);
      ScanSnoc(host, excludePaths, excludeNames, ScanSpec(host, excludePaths, excludeNames, st, a), front, c);
    }
  }

  /** The absolute path of entry `name` of directory `dir`. */
  function PathIn(host: Host, dir: string, name: string): string
  {
    host.absPath(host.join(dir, name))
  }

  /** The entries among `names` of directory `dir` that are files, in listing order. */
  function Listing(host: Host, dir: string, names: seq<string>): (r: seq<Candidate>)
    ensures forall i :: 0 <= i < |r| ==> host.isFile(r[i].path)
  {
    if names == [] then []
    else
      var n := names[|names| - 1];
      Listing(host, dir, names[..|names| - 1])
      + (if host.isFile(PathIn(host, dir, n)) then [Candidate(n, PathIn(host, dir, n))] else [])
  }

  /** The files of one `dirs` entry: none when it is not a directory once stripped. */
  function DirListing(host: Host, piece: string): seq<Candidate>
  {
    var dir := StripAll(piece);
    if host.isDir(dir) then Listing(host, dir, host.listDir(dir)) else []
  }

  /** The files of the `dirs` entries `pieces`, directory by directory. */
  function DirsListing(host: Host, pieces: seq<string>): seq<Candidate>
  {
    if pieces == [] then []
    else DirsListing(host, pieces[..|pieces| - 1]) + DirListing(host, pieces[|pieces| - 1])
  }

  /** Everything the scan visits: the files of the General `dirs` field, if any. */
  function Candidates(host: Host, general: Section): seq<Candidate>
  {
    if DIRS_KEY in general then DirsListing(host, Pieces(general[DIRS_KEY])) else []
  }

  /** One iteration of the inner scan loop: skip, or resolve. */
  method ScanFile(host: Host, excludePaths: set<string>, excludeNames: set<string>, st: ScanState, c: Candidate)
    returns (st': ScanState)
    ensures st' == Step(host, excludePaths, excludeNames, st, c)
  {
    if c.path in st.filePaths || c.path in excludePaths || c.name in excludeNames {
      return st;
    }
    st' := ResolveFile(host, st, c.name, c.path);
  }

  /** The inner scan loop over the entries of one directory, skipping non-files. */
  method ScanDirectory(host: Host, excludePaths: set<string>, excludeNames: set<string>, st: ScanState, dir: string)
    returns (st': ScanState)
    ensures st' == ScanSpec(host, excludePaths, excludeNames, st, Listing(host, dir, host.listDir(dir)))
  {
    st' := st;
    var names := host.listDir(dir);
    var i := 0;
    assert names[..0] == [];
    while i < |names|
      invariant 0 <= i <= |names|
      invariant st' == ScanSpec(host, excludePaths, excludeNames, st, Listing(host, dir, names[..i]))
    {
      var filename := names[i];
      var filePath := host.absPath(host.join(dir, filename));
      assert names[..i + 1][..i] == names[..i] && names[..i + 1][i] == filename;
      if host.isFile(filePath) {
        assert Listing(host, dir, names[..i + 1]) == Listing(host, dir, names[..i]) + [Candidate(filename, filePath)];
        ScanSnoc(host, excludePaths, excludeNames, st, Listing(host, dir, names[..i]), Candidate(filename, filePath));
        st' := ScanFile(host, excludePaths, excludeNames, st', Candidate(filename, filePath));
      } else {
        assert Listing(host, dir, names[..i + 1]) == Listing(host, dir, names[..i]) + [];
        assert Listing(host, dir, names[..i]) + [] == Listing(host, dir, names[..i]);
      }
      i := i + 1;
    }
    assert names[..i] == names;
  }

  /** The outer scan loop over the `dirs` entries, skipping those that are not directories. */
  method ScanDirectories(host: Host, excludePaths: set<string>, excludeNames: set<string>, st: ScanState,
                         pieces: seq<string>)
    returns (st': ScanState)
    ensures st' == ScanSpec(host, excludePaths, excludeNames, st, DirsListing(host, pieces))
  {
    st' := st;
    var i := 0;
    assert pieces[..0] == [];
    while i < |pieces|
      invariant 0 <= i <= |pieces|
      invariant st' == ScanSpec(host, excludePaths, excludeNames, st, DirsListing(host, pieces[..i]))
    {
      var directory := StripAll(pieces[i]);
      assert pieces[..i + 1][..i] == pieces[..i];
      ScanAppend(host, excludePaths, excludeNames, st, DirsListing(host, pieces[..i]), DirListing(host, pieces[i]));
      if !host.isDir(directory) {
        assert DirListing(host, pieces[i]) == [];
        assert DirsListing(host, pieces[..i]) + [] == DirsListing(host, pieces[..i]);
        i := i + 1;
        continue;
      }
      st' := ScanDirectory(host, excludePaths, excludeNames, st', directory);
      i := i + 1;
    }
    assert pieces[..i] == pieces;
  }

  /** Every path waiting in an artist's pool is outside `excludePaths`. */
  predicate PoolsAvoid(rules: map<string, ArtistRule>, excludePaths: set<string>)
  {
    forall a, j :: a in rules && 0 <= j < |rules[a].random| ==> rules[a].random[j] !in excludePaths
  }

  /**
   * What the scan keeps: the playlist only grows and gains no excluded
   * path; pending names only shrink; every artist keeps its record, its
   * `addAll`, its excluded names and the start of its pool, and its
   * pending names only shrink; pools gain no excluded path.
   */
  predicate ScanKeeps(excludePaths: set<string>, st: ScanState, st': ScanState)
  {
    && st.filePaths <= st'.filePaths
    && (forall p :: p in st'.filePaths && p !in st.filePaths ==> p !in excludePaths)
    && st'.fileNames <= st.fileNames
    && st'.rules.Keys == st.rules.Keys
    && (forall a :: a in st.rules ==>
          && st'.rules[a].addAll == st.rules[a].addAll
          && st'.rules[a].excludeNames == st.rules[a].excludeNames
          && st'.rules[a].fileNames <= st.rules[a].fileNames
          && |st.rules[a].random| <= |st'.rules[a].random|
          && st'.rules[a].random[..|st.rules[a].random|] == st.rules[a].random)
    && (PoolsAvoid(st.rules, excludePaths) ==> PoolsAvoid(st'.rules, excludePaths))
  }

  /** `ScanKeeps` composes. */
  lemma ScanKeepsTrans(excludePaths: set<string>, s1: ScanState, s2: ScanState, s3: ScanState)
    requires ScanKeeps(excludePaths, s1, s2) && ScanKeeps(excludePaths, s2, s3)
    ensures ScanKeeps(excludePaths, s1, s3)
  {
    forall a | a in s1.rules
      ensures s3.rules[a].random[..|s1.rules[a].random|] == s1.rules[a].random
    {
      var n1 := |s1.rules[a].random|;
      assert s3.rules[a].random[..n1] == s3.rules[a].random[..|s2.rules[a].random|][..n1];
    }
  }

  /** One step keeps what the scan keeps. */
  lemma StepKeeps(host: Host, excludePaths: set<string>, excludeNames: set<string>, st: ScanState, c: Candidate)
    ensures ScanKeeps(excludePaths, st, Step(host, excludePaths, excludeNames, st, c))
  {
    var st' := Step(host, excludePaths, excludeNames, st, c);
    if !Skipped(excludePaths, excludeNames, st, c) {
      var artists := GetArtist(host, c.path);
      match FirstRuled(artists, st.rules)
      case Some(i) =>
        var rule := st.rules[artists[i]];
        ArtistRuleOutcomes(rule, st.filePaths, c.name, c.path);
        assert rule.random <= st'.rules[artists[i]].random;
      case None =>
    }
  }

  /** The whole scan keeps what one step keeps. */
  lemma {:induction false} ScanSpecKeeps(host: Host, excludePaths: set<string>, excludeNames: set<string>,
                                         st: ScanState, cs: seq<Candidate>)
    ensures ScanKeeps(excludePaths, st, ScanSpec(host, excludePaths, excludeNames, st, cs))
    decreases |cs|
  {
    if cs != [] {
      var mid := ScanSpec(host, excludePaths, excludeNames, st, cs[..|cs| - 1]);
      ScanSpecKeeps(host, excludePaths, excludeNames, st, cs[..|cs| - 1]);
      StepKeeps(host, excludePaths, excludeNames, mid, cs[|cs| - 1]);
      ScanKeepsTrans(excludePaths, st, mid, ScanSpec(host, excludePaths, excludeNames, st, cs));
    }
  }

  /**
   * A file whose path is already committed or excluded, or whose name the
   * General section excludes, changes nothing.
   */
  lemma SkippedChangesNothing(host: Host, excludePaths: set<string>, excludeNames: set<string>, st: ScanState, c: Candidate)
    requires c.path in st.filePaths || c.path in excludePaths || c.name in excludeNames
    ensures Step(host, excludePaths, excludeNames, st, c) == st
  {
  }
}
