# genPlaylist in Dafny

A model of the playlist generator `genPlaylist.py`, with proofs about it. The generator reads a
configuration file. A `General` section names the directories to scan and the output file. Every
other section is an artist whose `include`, `exclude` and `random` fields say which of that
artist's files go into the playlist. The generator builds a rule record per artist, commits the
files listed by path, and scans the General directories. It resolves each file found through the
rule of the first of its artists that has one, or through the General rule. Each requested random
count is drawn from the artist's pool of unresolved files. It reports the requested file names that
were never found and writes an XSPF playlist.

Modules, one per part of the program:

- `Wrappers`: `Option` and duplicate-free sequences.
- `Text`: Python's `str.strip()` / `str.strip(chars)`, `str.split`, POSIX `os.path.basename`, and
  `stripAll`.
- `Inputs`: the parsed configuration and the host.
  - The configuration is the section names in configparser's order plus each section's pairs.
  - The host is the file system, the tag reader and `int()`, given as functions.
- `Rules`: `parseFileList`, `addSpecifiedFiles`, `getArtistRules`.
  - Each loop is a method proved equal to a specification function.
  - Lemmas characterise those functions.
- `Resolution`:
  - `processArtistRules` and the first-artist search;
  - the directory scan, as methods proved equal to a fold (`ScanSpec`) over the files found;
  - what the scan preserves.
- `Sampling`: the `random.sample` loop.
  - The draw itself is a nondeterministic choice of distinct positions.
  - A count the pool cannot satisfy is the uncaught `ValueError`.
- `Playlist`: `writeToPlaylist` and the document text, with a reader proving the text round-trips.
- `Generator`: `genPlaylist` end to end.
  - A run is `Crashed` (uncaught exception) or `Finished` (scan result, draws, playlist set,
    missing-name report, written file).

Python's sets and dicts passed by reference become value parameters and results of methods.
Iteration over a set (the playlist when written, the names in the report) is a nondeterministic
enumeration, so every order is covered.

Where a natural reading of the program's intent differs from the code, the model follows the code:

- `stripAll` uses `strip("'\"")`, which removes every layer of quotes, not just one (`"'x'"`
  becomes `x`). Whitespace inside quotes is kept, so `' a '` becomes ` a `.
- Include paths are committed before the exclusions apply. A path listed both as included and as
  excluded ends up in the playlist (`Generator.ExcludedOnlyIfIncluded`). The playlist set and the
  excluded paths are therefore not disjoint in general.
- A random count that is negative or larger than the artist's pool makes `random.sample` raise. The
  exception is not caught, so the run stops before the report and before anything is written.
- Without a General section, the lookup `self.config["General"]` raises after the rule table has
  been built, and the run stops.
- A value of `random` that `int()` rejects skips that artist's draw. A missing `outputPath` means no
  file is written; the rest of the run still happens.
- The General pool (`randomGeneral`) is filled but never read.

## Model

| member | source | states |
|---|---|---|
| Text.Strip | genPlaylist.py:69 | `str.strip(chars)`: the result neither starts nor ends with a character of the set |
| Text.StripOffset | genPlaylist.py:69 | the stripped result sits at a returned offset of the input, and every character before and after it is one of the set |
| Text.StripRemovesOnlyDropped | genPlaylist.py:69 | strip removes only characters of the set, and only at the ends: the result is a contiguous piece of the input |
| Text.StripAround | genPlaylist.py:69 | padding made of the set's characters around a core whose end characters are kept is exactly what strip removes |
| Text.StripAll | genPlaylist.py:66-70 | `stripAll` leaves no quote character at either end of the token |
| Text.StripAllIsSlice | genPlaylist.py:66-70 | the token `stripAll` returns is a contiguous piece of its input |
| Text.StripAllKeepsClean | genPlaylist.py:66-70 | a token with no whitespace or quote at its ends comes back unchanged |
| Text.StripAllExample | genPlaylist.py:66-70 | `  'song.mp3'  ` becomes `song.mp3` |
| Text.StripAllRemovesNestedQuotes | genPlaylist.py:69 | all quote layers go: `"'x'"` becomes `x` |
| Text.StripAllKeepsQuotedSpace | genPlaylist.py:69 | whitespace inside quotes stays (`' a '` becomes ` a `), so a second `stripAll` changes the token again |
| Text.Split | genPlaylist.py:101 | `split(sep)` gives at least one piece and no piece contains the separator |
| Text.JoinSplit | genPlaylist.py:101 | joining the pieces of `split` with the separator restores the input |
| Text.SplitJoin | genPlaylist.py:101 | splitting a join of separator-free pieces (at least one) gives the pieces back |
| Text.BaseName | genPlaylist.py:227 | `os.path.basename` is no longer than the path and contains no `/` |
| Text.BaseNameIsTail | genPlaylist.py:227 | the base name is the end of the path: all of it, or the part after a `/` |
| Rules.Pieces | genPlaylist.py:101 | `value.strip().split(",")` has at least one entry, so even a blank field is visited once |
| Rules.EntryRouting | genPlaylist.py:101-109 | a path is collected iff some entry, stripped, is an existing file whose absolute path it is; a name is collected iff some entry, stripped, is non-empty and not an existing file |
| Rules.AddEntries | genPlaylist.py:101-109 | the loop over the entries adds exactly the paths and the names of those entries to the sets it is given |
| Rules.ParseFileList | genPlaylist.py:89-109 | `parseFileList` adds the path and name entries of the field, and nothing when the field is missing |
| Rules.AddSpecifiedFiles | genPlaylist.py:111-133 | the include field feeds `filePaths`/`fileNames` and the exclude field `excludePaths`/`excludeNames`; a missing section changes nothing |
| Rules.PathsAcrossMembers | genPlaylist.py:150-167 | a path is collected by the section loop iff some artist section lists it in that field |
| Rules.RulesOfKeys | genPlaylist.py:150-177 | the rule table holds a record for exactly the listed sections other than General |
| Rules.RulesOfRecords | genPlaylist.py:150-177 | every record in the table is its section's rule: `addAll`, its include names, its exclude names, an empty pool |
| Rules.AddArtistRule | genPlaylist.py:150-177 | one iteration: General is skipped; an artist section adds its include/exclude paths and enters its record |
| Rules.GetArtistRules | genPlaylist.py:135-179 | `getArtistRules` returns the table of all sections but General and adds every artist include (exclude) path to `filePaths` (`excludePaths`) |
| Rules.RulesOfConfig | genPlaylist.py:147-179 | for a whole configuration: keys are all sections but General, each pool starts empty, and `addAll` holds iff the include field is missing or blank and there is no `random` field |
| Rules.WantsAllHasNoPendingNames | genPlaylist.py:169-174 | an artist that wants all its files has no pending file names |
| Resolution.ArtistRuleOutcomes | genPlaylist.py:181-206 | an excluded name changes nothing; otherwise the file is either committed with its name no longer pending (iff `addAll` or the name is pending) or appended to the pool; `addAll` and the excluded names never change |
| Resolution.ProcessArtistRules | genPlaylist.py:181-206 | `processArtistRules` updates the record and the playlist set as `ArtistRuleOutcomes` describes |
| Resolution.GetArtist | genPlaylist.py:72-87 | the artists are the tag's artist field split on `/` (no artist when TinyTag raises `TinyTagException` or the tag has none); no name contains `/` |
| Resolution.FirstRuled | genPlaylist.py:292-299 | the position found is the first artist that has a record; none is found iff no artist has one |
| Resolution.ResolveFirstArtistOnly | genPlaylist.py:289-312 | only the first artist with a record is consulted: its record and the playlist set change as `ApplyArtistRule` says, and every other record and the General bookkeeping stay; without one, a pending General name is committed and dropped, or else the file joins the General pool |
| Resolution.ResolveFile | genPlaylist.py:289-312 | the artist loop with its `break`, then the General rule, computes `Resolve` |
| Resolution.Listing | genPlaylist.py:276-282 | every candidate of a directory listing is an existing file |
| Resolution.ScanFile | genPlaylist.py:284-312 | one candidate: skipped when its path is committed or excluded or its name is excluded, resolved otherwise |
| Resolution.SkippedChangesNothing | genPlaylist.py:284-287 | a skipped file leaves the whole scan state unchanged |
| Resolution.ScanDirectory | genPlaylist.py:276-312 | the loop over one directory's entries is the fold of `Step` over its files, in listing order |
| Resolution.ScanDirectories | genPlaylist.py:265-312 | the loop over the `dirs` entries (non-directories skipped) is the fold of `Step` over all their files |
| Resolution.ScanAppend | genPlaylist.py:265-312 | scanning one list of files and then another is scanning both in sequence |
| Resolution.StepKeeps | genPlaylist.py:284-312 | one file: the playlist only grows, never by an excluded path; pending names only shrink; records keep `addAll`, excluded names and their pool's prefix; pools gain no excluded path |
| Resolution.ScanSpecKeeps | genPlaylist.py:265-312 | the whole scan keeps all of the above |
| Sampling.FreePosition | genPlaylist.py:330 | fewer than `n` distinct positions below `n` leave a free position |
| Sampling.Draw | genPlaylist.py:330 | `random.sample` draws `k` distinct positions of the pool whenever `k` fits |
| Sampling.DrawnFromPools | genPlaylist.py:315-332 | every drawn path is an entry of the pool of one of the artists |
| Sampling.SampleRandom | genPlaylist.py:315-332 | on success every count fits, exactly the artists with an integer `random` field are drawn, each draw is valid, and the playlist gains exactly the drawn paths; on failure, the first artist (table order) whose count is negative or exceeds its pool is reported |
| Playlist.EntriesSnoc | genPlaylist.py:224-230 | writing one more path appends exactly its entry |
| Playlist.EntryReadsBack | genPlaylist.py:230 | an entry for a path without `<`, followed by more text, reads back as that path and that text |
| Playlist.ReadEntryPrint | genPlaylist.py:230 | whatever reads back as a path and a remainder is that path's entry followed by the remainder |
| Playlist.EntriesRoundTrip | genPlaylist.py:224-230 | the entries of paths without `<` read back as exactly those paths, in order |
| Playlist.ParsedEntriesPrint | genPlaylist.py:224-230 | any text that reads back as paths is exactly the entries of those paths |
| Playlist.DocumentRoundTrip | genPlaylist.py:220-233 | the whole file (header, entries, end marker) of paths without `<` reads back as those paths |
| Playlist.WriteToPlaylist | genPlaylist.py:208-233 | nothing is written iff General or its `outputPath` is missing; otherwise the file at `outputPath` holds the document of an order listing every path of the set exactly once |
| Generator.ArtistOrder | genPlaylist.py:150-153 | the artists the rule table iterates over are exactly the listed sections other than General |
| Generator.ArtistOrderNoDups | genPlaylist.py:150-153 | no artist is visited twice |
| Generator.ReportArtist | genPlaylist.py:336-338 | one warning per pending name of the artist, none repeated |
| Generator.ReportMissing | genPlaylist.py:334-338 | the report holds exactly the (name, artist) pairs still pending after the run, none repeated |
| Generator.SetUp | genPlaylist.py:255-261 | after `getArtistRules` and `addSpecifiedFiles("General")`: the table of all sections but General, and the include (exclude) paths of all sections and the General names |
| Generator.ScanGeneral | genPlaylist.py:263-312 | the General scan is the fold of `Step` over the files of the `dirs` entries, and does nothing without a `dirs` field |
| Generator.ScanOfKeeps | genPlaylist.py:255-312 | after the scan every artist still has its record and no pool holds an excluded path |
| Generator.ExcludedOnlyIfIncluded | genPlaylist.py:241-341 | every path an include field lists is in the final playlist, and an excluded path is in it only if an include field lists it too |
| Generator.Finish | genPlaylist.py:314-341 | after the scan: either the first artist in table order whose count does not fit is reported (all earlier ones fit), or every count fits, exactly the artists with an integer count are drawn, each draw is valid, the playlist is the scanned set plus the drawn paths, the report lists each pending (name, artist) pair exactly once, and the file written at `outputPath` lists every playlist path exactly once |
| Generator.GenPlaylist | genPlaylist.py:235-342 | the run crashes at the General lookup iff there is no General section; a sampling crash names the first artist in table order whose count does not fit; a finished run is the scan of the set-up state followed by everything `Generator.Finish` states: all counts fit, exactly the requested artists drawn with valid draws, the scanned set plus the drawn paths, the report without repeats, and each playlist path written exactly once to `outputPath` |

## Left out

- Reading the configuration file (configparser) is not modelled. The model starts from the parsed
  sections, in configparser's order, each as the map its lookups see. This covers the inherited
  `DEFAULT` values and case-folded option names; `DEFAULT` is an ordinary section in that order.
- The file system, the tag library (TinyTag) and `int()` are not modelled. They are the functions of
  `Inputs.Host`, and they are total: `isfile`, `isdir`, `abspath`, `join`, `listdir`, the artist
  tag and `int()`. The artist tag is None when TinyTag raises `TinyTagException` or the tag has no
  artist (genPlaylist.py:80-86). `int()` is None when it raises; the program catches every
  exception there (genPlaylist.py:321-326).
- Other exceptions from the tag reader or the file system are not modelled. In the program they
  end the run uncaught. Examples: an `OSError` from `TinyTag.get` (genPlaylist.py:81), from
  `os.listdir` (genPlaylist.py:276) or from opening the output file (genPlaylist.py:220). The only
  crashes the model has are the missing General section and `random.sample`'s `ValueError`.
- `print` warnings and progress messages are not modelled. The report of missing names is kept as
  data (`Generator.Missing`).
- Opening, writing and closing the output file is modelled as the text written and the path it
  goes to.
- Sampling.Draw: the draw is any choice of `k` distinct positions; uniformity is not modelled.
- Playlist.DocumentRoundTrip: the round trip holds only for paths without `<`. The program writes
  paths and titles without XML escaping, so a path containing `<` gives a document that does not
  read back.
- `main` (genPlaylist.py:345-362) is not modelled: it loops over the command-line files and skips
  missing ones.
- `SectionFiles` (genPlaylist.py:39-50) is not modelled: it is an empty placeholder class.
- The `len(...) > 0` test before the report (genPlaylist.py:336) is not modelled separately: it is
  subsumed, because an empty pending set gives no lines either way.
- The General random pool is collected (`ScanState.randomGeneral`) but, as in the program, never
  sampled.
