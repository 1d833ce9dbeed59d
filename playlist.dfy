/**
 * The XSPF text `writeToPlaylist` (genPlaylist.py) writes: a fixed
 * header, one track entry per path, a fixed end marker. Paths and titles
 * go in verbatim, with no XML escaping.
 */
module Playlist {
  import opened Wrappers
  import opened Text
  import opened Inputs

  const PLAYLIST_HEADERS: string :=
    "<?xml version=\"1.0\" encoding=\"UTF-8\"?>\n<playlist version=\"1\" xmlns=\"http://xspf.org/ns/0/\">\n\t<trackList>\n"
  const PLAYLIST_END: string := "\t</trackList>\n</playlist>"

  /** A format string with two holes, `open {} mid {} close`: a path and its title go in the holes. */
  datatype Template = Template(open: string, mid: string, close: string)

  /** `PLAYLIST_ENTRY_TEMPLATE`: the location is `file:///` and the path, the title its base name. */
  const ENTRY_TEMPLATE: Template :=
    Template("\t\t<track><location>file:///", "</location><title>", "</title></track>\n")

  /** The text after a template's first hole starts with `<`, so a path without `<` ends there. */
  predicate ClosesAtTag(t: Template)
  {
    t.mid != [] && t.mid[0] == '<'
  }

  /** The track entry of one path. */
  function Entry(t: Template, p: string): string
  {
    t.open + p + t.mid + BaseName(p) + t.close
  }

  /** The entries of `paths`, in order. */
  function Entries(t: Template, paths: seq<string>): string
  {
    if paths == [] then [] else Entry(t, paths[0]) + Entries(t, paths[1..])
  }

  /** The whole playlist file for `paths` written in that order. */
  function Document(paths: seq<string>): string
  {
    PLAYLIST_HEADERS + Entries(ENTRY_TEMPLATE, paths) + PLAYLIST_END
  }

  /** Writing one more path appends its entry. */
  lemma {:induction false} EntriesSnoc(t: Template, paths: seq<string>, p: string)
    ensures Entries(t, paths + [p]) == Entries(t, paths) + Entry(t, p)
  {
    if paths == [] {
      assert [] + [p] == [p];
      assert [p][1..] == [];
    } else {
      assert (paths + [p])[0] == paths[0];
      assert (paths + [p])[1..] == paths[1..] + [p];
      EntriesSnoc(t, paths[1..], p);
    }
  }

  /** The first position of `c` in `s`, or `|s|` when there is none. */
  function IndexOf(s: string, c: char): (k: nat)
    ensures k <= |s|
    ensures forall i :: 0 <= i < k ==> s[i] != c
    ensures k < |s| ==> s[k] == c
  {
    if s == [] then 0
    else if s[0] == c then 0
    else 1 + IndexOf(s[1..], c)
  }

  /**
   * Reading one entry off the front of `s`: the opening, a location that
   * runs up to the first `<`, then the rest of the template with the
   * location's base name as title. Gives the location and what follows.
   */
  function ReadEntry(t: Template, s: string): (r: Option<(string, string)>)
    requires ClosesAtTag(t)
    ensures r.Some? ==> |r.value.1| < |s|
  {
    if |s| < |t.open| || s[..|t.open|] != t.open then None
    else
      var rest := s[|t.open|..];
      var k := IndexOf(rest, '<');
      var p := rest[..k];
      var m := t.mid + BaseName(p) + t.close;
      if |rest| < k + |m| || rest[k..k + |m|] != m then None
      else Some((p, rest[k + |m|..]))
  }

  /** Reading entries back, one after the other, until the text runs out. */
  function ParseEntries(t: Template, s: string): Option<seq<string>>
    requires ClosesAtTag(t)
    decreases |s|
  {
    if s == [] then Some([])
    else
      match ReadEntry(t, s)
      case None => None
      case Some((p, more)) =>
        match ParseEntries(t, more)
        case None => None
        case Some(ps) => Some([p] + ps)
  }

  /** Reading a whole playlist file back. */
  function ParseDocument(doc: string): Option<seq<string>>
  {
    var h := |PLAYLIST_HEADERS|;
    var e := |PLAYLIST_END|;
    assert ENTRY_TEMPLATE.mid[0] == '<';
    if |doc| < h + e || doc[..h] != PLAYLIST_HEADERS || doc[|doc| - e..] != PLAYLIST_END then None
    else ParseEntries(ENTRY_TEMPLATE, doc[h..|doc| - e])
  }

  // Sequence identities over string parameters, used as proof steps below.
  // Stating them for arbitrary strings keeps the template's literal text out
  // of the solver's way.

  /** A sequence is its two halves around any cut. */
  lemma CutJoin(s: string, n: nat)
    requires n <= |s|
    ensures s == s[..n] + s[n..]
  {
  }

  /** Concatenation is associative. */
  lemma Assoc(a: string, b: string, c: string)
    ensures (a + b) + c == a + (b + c)
  {
  }

  /** Where a framed text splits: its head, its body and its tail. */
  lemma Framed(h: string, body: string, e: string)
    ensures var d := h + body + e;
      && d[..|h|] == h
      && d[|d| - |e|..] == e
      && d[|h|..|d| - |e|] == body
  {
  }

  /** The front of `o + r` is `o` and the rest is `r`. */
  lemma FrontAndRest(o: string, r: string)
    ensures (o + r)[..|o|] == o && (o + r)[|o|..] == r
  {
  }

  /** The three pieces of `p + (m + more)`. */
  lemma ThreeParts(p: string, m: string, more: string)
    ensures var r := p + (m + more);
      && r[..|p|] == p
      && r[|p|..|p| + |m|] == m
      && r[|p| + |m|..] == more
  {
  }

  /** A sequence is its three pieces around two cuts. */
  lemma CutTwice(s: string, k: nat, l: nat)
    requires k + l <= |s|
    ensures s == s[..k] + s[k..k + l] + s[k + l..]
  {
  }

  /** An entry followed by more text, grouped the way `ReadEntry` reads it. */
  lemma Regroup(o: string, p: string, mid: string, b: string, c: string, more: string)
    ensures o + p + mid + b + c + more == o + (p + (mid + b + c) + more)
  {
  }

  /** The location of a path without `<` ends where the text after it starts with `<`. */
  lemma LocationEnds(p: string, s: string)
    requires '<' !in p && s != [] && s[0] == '<'
    ensures IndexOf(p + s, '<') == |p|
  {
    assert (p + s)[|p|] == '<';
  }

  /** One entry in front of more text reads back as its path, leaving that text. */
  lemma EntryReadsBack(t: Template, p: string, more: string)
    requires ClosesAtTag(t) && '<' !in p
    ensures ReadEntry(t, Entry(t, p) + more) == Some((p, more))
  {
    var m := t.mid + BaseName(p) + t.close;
    var rest := p + (m + more);
    assert Entry(t, p) + more == t.open + rest by {
      Regroup(t.open, p, t.mid, BaseName(p), t.close, more);
      Assoc(p, m, more);
    }
    FrontAndRest(t.open, rest);
    LocationEnds(p, m + more);
    ThreeParts(p, m, more);
  }

  /** What reads back as a path and a remainder is that path's entry in front of the remainder. */
  lemma ReadEntryPrint(t: Template, s: string)
    requires ClosesAtTag(t) && ReadEntry(t, s).Some?
    ensures s == Entry(t, ReadEntry(t, s).value.0) + ReadEntry(t, s).value.1
  {
    var rest := s[|t.open|..];
    var k := IndexOf(rest, '<');
    var p := rest[..k];
    var m := t.mid + BaseName(p) + t.close;
    var more := rest[k + |m|..];
    assert ReadEntry(t, s) == Some((p, more));
    assert s == t.open + rest by {
      CutJoin(s, |t.open|);
    }
    assert rest == p + m + more by {
      CutTwice(rest, k, |m|);
    }
    Regroup(t.open, p, t.mid, BaseName(p), t.close, more);
  }

  /** The entries of paths without `<` read back as those paths. */
  lemma {:induction false} EntriesRoundTrip(t: Template, paths: seq<string>)
    requires ClosesAtTag(t)
    requires forall i :: 0 <= i < |paths| ==> '<' !in paths[i]
    ensures ParseEntries(t, Entries(t, paths)) == Some(paths)
  {
    if paths != [] {
      var s := Entries(t, paths);
      var more := Entries(t, paths[1..]);
      EntriesRoundTrip(t, paths[1..]);
      EntryReadsBack(t, paths[0], more);
      assert s == Entry(t, paths[0]) + more;
      assert |s| >= |t.mid| > 0;
      assert ParseEntries(t, s) == Some([paths[0]] + paths[1..]);
      assert [paths[0]] + paths[1..] == paths;
    }
  }

  /** A playlist file of paths without `<` reads back as those paths, in order. */
  lemma DocumentRoundTrip(paths: seq<string>)
    requires forall i :: 0 <= i < |paths| ==> '<' !in paths[i]
    ensures ParseDocument(Document(paths)) == Some(paths)
  {
    assert ENTRY_TEMPLATE.mid[0] == '<';
    Framed(PLAYLIST_HEADERS, Entries(ENTRY_TEMPLATE, paths), PLAYLIST_END);
    EntriesRoundTrip(ENTRY_TEMPLATE, paths);
  }

  /** Whatever reads back as paths is exactly the entries of those paths. */
  lemma {:induction false} ParsedEntriesPrint(t: Template, s: string)
    requires ClosesAtTag(t) && ParseEntries(t, s).Some?
    ensures Entries(t, ParseEntries(t, s).value) == s
    decreases |s|
  {
    if s != [] {
      var (p, more) := ReadEntry(t, s).value;
      ParsedEntriesPrint(t, more);
      var ps := ParseEntries(t, more).value;
      assert ParseEntries(t, s).value == [p] + ps;
      assert ([p] + ps)[0] == p && ([p] + ps)[1..] == ps;
      ReadEntryPrint(t, s);
    }
  }

  /** The output file's path and the text written to it, with the order the paths were written in. */
  datatype Written = Written(outputPath: string, order: seq<string>, text: string)

  /**
   * `writeToPlaylist`: without an `outputPath` in General nothing is
   * written; otherwise the file holds the header, one entry for each path
   * of the set in the order the set is enumerated, and the end marker.
   */
  method WriteToPlaylist(cfg: Config, filePaths: set<string>) returns (out: Option<Written>)
    ensures out.None? <==> GENERAL !in cfg.sections || OUTPUT_PATH_KEY !in cfg.sections[GENERAL]
    ensures out.Some? ==>
              && out.value.outputPath == cfg.sections[GENERAL][OUTPUT_PATH_KEY]
              && NoDups(out.value.order)
              && (forall p :: p in out.value.order <==> p in filePaths)
              && out.value.text == Document(out.value.order)
  {
    if GENERAL !in cfg.sections || OUTPUT_PATH_KEY !in cfg.sections[GENERAL] {
      return None;
    }
    var text := PLAYLIST_HEADERS;
    var order: seq<string> := [];
    var left := filePaths;
    while left != {}
      invariant left <= filePaths
      invariant NoDups(order)
      invariant forall p :: p in order <==> p in filePaths && p !in left
      invariant text == PLAYLIST_HEADERS + Entries(ENTRY_TEMPLATE, order)
      decreases |left|
    {
      var filePath :| filePath in left;
      EntriesSnoc(ENTRY_TEMPLATE, order, filePath);
      Assoc(PLAYLIST_HEADERS, Entries(ENTRY_TEMPLATE, order), Entry(ENTRY_TEMPLATE, filePath));
      text := text + Entry(ENTRY_TEMPLATE, filePath);
      order := order + [filePath];
      left := left - {filePath};
    }
    text := text + PLAYLIST_END;
    return Some(Written(cfg.sections[GENERAL][OUTPUT_PATH_KEY], order, text));
  }
}
