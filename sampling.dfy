/**
 * The random part of `genPlaylist` (genPlaylist.py): for every artist
 * whose section asks for a number of random files, that many distinct
 * entries of the artist's pool join the playlist. Which entries is the
 * random generator's choice and is left open here.
 */
module Sampling {
  import opened Wrappers
  import opened Inputs
  import opened Rules

  /** `k` distinct positions below `n`: the shape of `random.sample` on a pool of `n` entries. */
  predicate ValidDraw(n: nat, k: int, pos: seq<nat>)
  {
    && |pos| == k
    && NoDups(pos)
    && (forall i :: 0 <= i < |pos| ==> pos[i] < n)
  }

  /** Taking the top position `n - 1` out of distinct positions below `n` leaves distinct positions below `n - 1`. */
  lemma RemoveTop(pos: seq<nat>, n: nat, t: nat) returns (rest: seq<nat>)
    requires NoDups(pos) && t < |pos| && pos[t] == n - 1
    requires forall i :: 0 <= i < |pos| ==> pos[i] < n
    ensures |rest| == |pos| - 1 && NoDups(rest)
    ensures forall i :: 0 <= i < |rest| ==> rest[i] < n - 1
    ensures forall x :: x in pos ==> x == n - 1 || x in rest
  {
    rest := pos[..t] + pos[t + 1..];
    assert forall i :: 0 <= i < |rest| ==> rest[i] == pos[if i < t then i else i + 1];
    forall x | x in pos && x != n - 1
      ensures x in rest
    {
      var i :| 0 <= i < |pos| && pos[i] == x;
      assert rest[if i < t then i else i - 1] == x;
    }
  }

  /** Fewer than `n` distinct positions below `n` leave one free. */
  lemma {:induction false} FreePosition(pos: seq<nat>, n: nat) returns (j: nat)
    requires NoDups(pos) && |pos| < n
    requires forall i :: 0 <= i < |pos| ==> pos[i] < n
    ensures j < n && j !in pos
    decreases n
  {
    if n - 1 !in pos {
      return n - 1;
    }
    var t :| 0 <= t < |pos| && pos[t] == n - 1;
    var rest := RemoveTop(pos, n, t);
    j := FreePosition(rest, n - 1);
  }

  /** `random.sample`'s draw: `k` distinct positions of a pool of `n` entries, in whatever order the generator picks. */
  method Draw(n: nat, k: nat) returns (pos: seq<nat>)
    requires k <= n
    ensures ValidDraw(n, k, pos)
  {
    pos := [];
    while |pos| < k
      invariant |pos| <= k
      invariant NoDups(pos)
      invariant forall i :: 0 <= i < |pos| ==> pos[i] < n
    {
      ghost var free := FreePosition(pos, n);
      var x: nat :| x < n && x !in pos;
      pos := pos + [x];
    }
  }

  /** The entries of `pool` at the positions `pos`. */
  function Picked(pool: seq<string>, pos: seq<nat>): set<string>
  {
    set i | 0 <= i < |pos| && pos[i] < |pool| :: pool[pos[i]]
  }

  /** The count an artist's `random` field asks for: none when the field is missing or not an integer. */
  function Requested(host: Host, cfg: Config, artist: string): Option<int>
  {
    if artist in cfg.sections && RANDOM_KEY in cfg.sections[artist]
    then host.parseInt(cfg.sections[artist][RANDOM_KEY])
    else None
  }

  /** `random.sample` accepts the count: between zero and the size of the pool. */
  predicate CountFits(host: Host, cfg: Config, rules: map<string, ArtistRule>, artist: string)
    requires artist in rules
  {
    match Requested(host, cfg, artist)
    case None => true
    case Some(k) => 0 <= k <= |rules[artist].random|
  }

  /** The paths drawn for the artists `artists`, by the draws `draws`. */
  function DrawnPaths(rules: map<string, ArtistRule>, artists: seq<string>, draws: map<string, seq<nat>>): set<string>
  {
    if artists == [] then {}
    else
      var a := artists[|artists| - 1];
      DrawnPaths(rules, artists[..|artists| - 1], draws)
      + (if a in rules && a in draws then Picked(rules[a].random, draws[a]) else {})
  }

  /** One more position picks one more entry. */
  lemma PickedStep(pool: seq<string>, pos: seq<nat>, k: nat)
    requires k < |pos| && pos[k] < |pool|
    ensures Picked(pool, pos[..k + 1]) == Picked(pool, pos[..k]) + {pool[pos[k]]}
  {
    var a := pos[..k + 1];
    var b := pos[..k];
    forall p | p in Picked(pool, a)
      ensures p in Picked(pool, b) + {pool[pos[k]]}
    {
      var i :| 0 <= i < |a| && a[i] < |pool| && pool[a[i]] == p;
      if i < k {
        assert b[i] == a[i];
      }
    }
    forall p | p in Picked(pool, b) + {pool[pos[k]]}
      ensures p in Picked(pool, a)
    {
      if p in Picked(pool, b) {
        var i :| 0 <= i < |b| && b[i] < |pool| && pool[b[i]] == p;
        assert a[i] == b[i];
      } else {
        assert a[k] == pos[k];
      }
    }
  }

  /** The draw of an artist outside `artists` does not matter to `DrawnPaths`. */
  lemma {:induction false} DrawnPathsIgnores(rules: map<string, ArtistRule>, artists: seq<string>,
                                             draws: map<string, seq<nat>>, a: string, pos: seq<nat>)
    requires a !in artists
    ensures DrawnPaths(rules, artists, draws[a := pos]) == DrawnPaths(rules, artists, draws)
  {
    if artists != [] {
      DrawnPathsIgnores(rules, artists[..|artists| - 1], draws, a, pos);
    }
  }

  /** Every drawn path is an entry of the pool of one of the artists. */
  lemma {:induction false} DrawnFromPools(rules: map<string, ArtistRule>, artists: seq<string>,
                                          draws: map<string, seq<nat>>, p: string)
    requires p in DrawnPaths(rules, artists, draws)
    ensures exists a, j :: a in artists && a in rules && 0 <= j < |rules[a].random| && rules[a].random[j] == p
  {
    var m := |artists| - 1;
    var a := artists[m];
    if a in rules && a in draws && p in Picked(rules[a].random, draws[a]) {
      var i :| 0 <= i < |draws[a]| && draws[a][i] < |rules[a].random| && rules[a].random[draws[a][i]] == p;
      assert artists[m] in artists;
    } else {
      DrawnFromPools(rules, artists[..m], draws, p);
      var b, j :| b in artists[..m] && b in rules && 0 <= j < |rules[b].random| && rules[b].random[j] == p;
      assert b in artists;
    }
  }

  /**
   * The sampling loop ends either with the playlist and the draw made for
   * each artist, or with the `ValueError` that `random.sample` raises
   * (uncaught) for the first artist whose count does not fit its pool.
   */
  datatype Sampled =
    | Drawn(filePaths: set<string>, draws: map<string, seq<nat>>)
    | BadCount(artist: string, count: int)

  /**
   * The sampling loop of `genPlaylist` over the artists in table order:
   * an artist without a random count, or with one that is not an
   * integer, is passed over; otherwise `random.sample` draws that many
   * distinct entries of its pool into the playlist, or raises.
   */
  method SampleRandom(host: Host, cfg: Config, rules: map<string, ArtistRule>, artists: seq<string>,
                      filePaths: set<string>)
    returns (out: Sampled)
    requires NoDups(artists)
    requires forall a :: a in artists ==> a in rules && a in cfg.sections
    ensures out.Drawn? ==>
              && (forall a :: a in artists ==> CountFits(host, cfg, rules, a))
              && (forall a :: a in out.draws <==> a in artists && Requested(host, cfg, a).Some?)
              && (forall a :: a in out.draws ==>
                    ValidDraw(|rules[a].random|, Requested(host, cfg, a).value, out.draws[a]))
              && out.filePaths == filePaths + DrawnPaths(rules, artists, out.draws)
    ensures out.BadCount? ==>
              exists i :: 0 <= i < |artists|
                && artists[i] == out.artist
                && Requested(host, cfg, out.artist) == Some(out.count)
                && !CountFits(host, cfg, rules, out.artist)
                && (forall j :: 0 <= j < i ==> CountFits(host, cfg, rules, artists[j]))
  {
    var paths := filePaths;
    var draws: map<string, seq<nat>> := map[];
    var i := 0;
    assert artists[..0] == [];
    while i < |artists|
      invariant 0 <= i <= |artists|
      invariant forall j :: 0 <= j < i ==> CountFits(host, cfg, rules, artists[j])
      invariant forall a :: a in draws <==> a in artists[..i] && Requested(host, cfg, a).Some?
      invariant forall a :: a in draws ==> ValidDraw(|rules[a].random|, Requested(host, cfg, a).value, draws[a])
      invariant paths == filePaths + DrawnPaths(rules, artists[..i], draws)
    {
      var artist := artists[i];
      assert artists[..i + 1][..i] == artists[..i] && artists[..i + 1][i] == artist;
      assert artist !in artists[..i];
      assert artist !in draws;
      if RANDOM_KEY !in cfg.sections[artist] {
        i := i + 1;
        continue;
      }
      var nRandom := host.parseInt(cfg.sections[artist][RANDOM_KEY]);
      if nRandom.None? {
        i := i + 1;
        continue;
      }
      var pool := rules[artist].random;
      if nRandom.value < 0 || nRandom.value > |pool| {
        return BadCount(artist, nRandom.value);
      }
      var pos := Draw(|pool|, nRandom.value);
      var k := 0;
      assert pos[..0] == [];
      while k < |pos|
        invariant 0 <= k <= |pos|
        invariant paths == filePaths + DrawnPaths(rules, artists[..i], draws)
                           + Picked(pool, pos[..k])
      {
        PickedStep(pool, pos, k);
        paths := paths + {pool[pos[k]]};
        k := k + 1;
      }
      assert pos[..k] == pos;
      DrawnPathsIgnores(rules, artists[..i], draws, artist, pos);
      draws := draws[artist := pos];
      i := i + 1;
    }
    assert artists[..i] == artists;
    return Drawn(paths, draws);
  }
}
