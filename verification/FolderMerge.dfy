/** Merging two folders into one (enterprise-mcp-server/app/domains/document_ai/
    tools_document.py): files are copied under a name that is still free. */
module FolderMerge {

  /** A file name as the code splits it. */
  datatype Name = Name(stem: string, suffix: string)

  function Full(n: Name): string {
    n.stem + n.suffix
  }

  // ---------------------------------------------------------------------------
  // Candidate names
  // ---------------------------------------------------------------------------

  function Digit(d: nat): char
    requires d < 10
  {
    "0123456789"[d]
  }

  /** The decimal digits of a counter. */
  function Digits(n: nat): (s: string)
    ensures |s| > 0 && (|s| == 1 <==> n < 10)
  {
    if n < 10 then [Digit(n)] else Digits(n / 10) + [Digit(n % 10)]
  }

  /** Reading a decimal number. */
  ghost function NumberOf(s: string): int {
    if s == [] then 0 else 10 * NumberOf(s[..|s| - 1]) + (s[|s| - 1] as int - '0' as int)
  }

  /** Written and read back, a counter is itself; so different counters differ. */
  lemma {:induction false} DigitsReadBack(n: nat)
    ensures NumberOf(Digits(n)) == n
    ensures n > 0 ==> Digits(n)[0] != '0'
  {
    var s := Digits(n);
    assert Digit(n % 10) as int - '0' as int == n % 10;
    if n >= 10 {
      DigitsReadBack(n / 10);
      assert s[..|s| - 1] == Digits(n / 10);
    } else {
      assert s[..0] == [];
    }
  }

  lemma DigitsAreInjective(m: nat, n: nat)
    requires Digits(m) == Digits(n)
    ensures m == n
  {
    DigitsReadBack(m);
    DigitsReadBack(n);
  }

  /** The name tried first, and then with a counter before the suffix. */
  function Candidate(n: Name, counter: nat): string {
    if counter == 0 then Full(n) else n.stem + "_" + Digits(counter) + n.suffix
  }

  /** Two counted names with the same stem and suffix are equal only for equal digits. */
  lemma MiddleIsUnique(p: string, x: string, y: string, s: string)
    requires p + x + s == p + y + s
    ensures x == y
  {
    assert |p + x + s| == |p| + |x| + |s| && |p + y + s| == |p| + |y| + |s|;
    assert x == (p + x + s)[|p|..|p| + |x|];
    assert y == (p + y + s)[|p|..|p| + |y|];
  }

  lemma {:induction false} CandidatesDiffer(n: Name, j: nat, k: nat)
    requires Candidate(n, j) == Candidate(n, k)
    ensures j == k
  {
    assert j > 0 ==> |Candidate(n, j)| > |Full(n)|;
    assert k > 0 ==> |Candidate(n, k)| > |Full(n)|;
    if j > 0 && k > 0 {
      MiddleIsUnique(n.stem + "_", Digits(j), Digits(k), n.suffix);
      DigitsAreInjective(j, k);
    }
  }

  /** The candidates with counters below `k`. */
  ghost function Tried(n: Name, k: nat): set<string> {
    set i: nat | i < k :: Candidate(n, i)
  }

  lemma TriedGrows(n: Name, k: nat)
    ensures Candidate(n, k) !in Tried(n, k) && Tried(n, k + 1) == Tried(n, k) + {Candidate(n, k)}
  {
    forall i: nat | i < k
      ensures Candidate(n, i) == Candidate(n, k) ==> i == k
    {
      if Candidate(n, i) == Candidate(n, k) {
        CandidatesDiffer(n, i, k);
      }
    }
  }

  lemma {:induction false} TriedCount(n: Name, k: nat)
    ensures |Tried(n, k)| == k
  {
    if k > 0 {
      TriedCount(n, k - 1);
      TriedGrows(n, k - 1);
    }
  }

  lemma SubsetIsSmaller(a: set<string>, b: set<string>)
    requires a <= b
    ensures |a| <= |b|
  {
    assert b == a + (b - a);
  }

  // ---------------------------------------------------------------------------
  // Copying
  // ---------------------------------------------------------------------------

  /** A file found by the walk: its directory relative to the source root, its name, whether
      its extension is allowed, its content, and whether the copy succeeds. */
  datatype Source = Source(dir: string, name: Name, allowed: bool, content: string, readable: bool)

  /** A place in the output folder. */
  datatype Path = Path(dir: string, file: string)

  /** The first free candidate in a directory of the output. */
  ghost predicate FirstFree(files: map<Path, string>, dir: string, n: Name, k: nat) {
    Path(dir, Candidate(n, k)) !in files && forall i: nat :: i < k ==> Path(dir, Candidate(n, i)) in files
  }

  ghost function NamesIn(files: map<Path, string>, dir: string): set<string> {
    set p | p in files && p.dir == dir :: p.file
  }

  lemma TriedAreTaken(files: map<Path, string>, dir: string, n: Name, k: nat)
    requires forall i: nat :: i < k ==> Path(dir, Candidate(n, i)) in files
    ensures k <= |NamesIn(files, dir)|
  {
    forall x | x in Tried(n, k)
      ensures x in NamesIn(files, dir)
    {
      var i: nat :| i < k && x == Candidate(n, i);
      assert Path(dir, x) in files && Path(dir, x).file == x;
    }
    SubsetIsSmaller(Tried(n, k), NamesIn(files, dir));
    TriedCount(n, k);
  }

  /** The first free counter from `k` on; one exists because the output is finite. */
  ghost function FreeFrom(files: map<Path, string>, dir: string, n: Name, k: nat): (r: nat)
    requires forall i: nat :: i < k ==> Path(dir, Candidate(n, i)) in files
    ensures FirstFree(files, dir, n, r)
    decreases |NamesIn(files, dir)| - k
  {
    TriedAreTaken(files, dir, n, k);
    if Path(dir, Candidate(n, k)) !in files then k
    else
      TriedAreTaken(files, dir, n, k + 1);
      FreeFrom(files, dir, n, k + 1)
  }

  /** Where a source goes: the first of its candidate names that is free. */
  ghost function Destination(files: map<Path, string>, src: Source): Path {
    Path(src.dir, Candidate(src.name, FreeFrom(files, src.dir, src.name, 0)))
  }

  /** What the walk has done: the output, where each copied file went, and the counts. */
  datatype Progress = Progress(files: map<Path, string>, place: map<int, Path>, copied: nat, errors: seq<Name>)

  /** One walked file. */
  ghost function MergeOne(p: Progress, src: Source, i: int): Progress {
    if !src.allowed then p
    else if !src.readable then p.(errors := p.errors + [src.name])
    else
      var to := Destination(p.files, src);
      Progress(p.files[to := src.content], p.place[i := to], p.copied + 1, p.errors)
  }

  /** The output after the first `n` walked files. */
  ghost function MergedBy(start: map<Path, string>, walk: seq<Source>, n: nat): Progress
    requires n <= |walk|
  {
    if n == 0 then Progress(start, map[], 0, []) else MergeOne(MergedBy(start, walk, n - 1), walk[n - 1], n - 1)
  }

  datatype Stats = Stats(copied: nat, errors: seq<Name>)

  /** The output folder. */
  class Output {
    var files: map<Path, string>

    constructor (files: map<Path, string>)
      ensures this.files == files
    {
      this.files := files;
    }

    /** Finds a free name, whatever the finite folder holds, and writes only there. */
    method SafeCopy(src: Source) returns (to: Path)
      requires src.readable
      modifies this
      ensures to == Destination(old(files), src) && files == old(files)[to := src.content]
    {
      var k := 0;
      to := Path(src.dir, Full(src.name));
      TriedAreTaken(files, src.dir, src.name, 0);
      while to in files
        invariant files == old(files)
        invariant to == Path(src.dir, Candidate(src.name, k))
        invariant forall i: nat :: i < k ==> Path(src.dir, Candidate(src.name, i)) in files
        invariant k <= |NamesIn(files, src.dir)|
        decreases |NamesIn(files, src.dir)| + 1 - k
      {
        k := k + 1;
        to := Path(src.dir, src.name.stem + "_" + Digits(k) + src.name.suffix);
        TriedAreTaken(files, src.dir, src.name, k);
      }
      FirstFreeIsUnique(files, src.dir, src.name, k, FreeFrom(files, src.dir, src.name, 0));
      files := files[to := src.content];
    }

    /** The walk over both source folders. */
    method MergeFolders(walk: seq<Source>) returns (stats: Stats)
      modifies this
      ensures files == MergedBy(old(files), walk, |walk|).files
      ensures stats == Stats(MergedBy(old(files), walk, |walk|).copied, MergedBy(old(files), walk, |walk|).errors)
    {
      stats := Stats(0, []);
      for n := 0 to |walk|
        invariant files == MergedBy(old(files), walk, n).files
        invariant stats == Stats(MergedBy(old(files), walk, n).copied, MergedBy(old(files), walk, n).errors)
      {
        if walk[n].allowed {
          if walk[n].readable {
            var to := SafeCopy(walk[n]);
            stats := stats.(copied := stats.copied + 1);
          } else {
            stats := stats.(errors := stats.errors + [walk[n].name]);
          }
        }
      }
    }
  }

  lemma FirstFreeIsUnique(files: map<Path, string>, dir: string, n: Name, j: nat, k: nat)
    requires FirstFree(files, dir, n, j) && FirstFree(files, dir, n, k)
    ensures j == k
  {
  }

  // ---------------------------------------------------------------------------
  // What a merge guarantees
  // ---------------------------------------------------------------------------

  /** The files among the first `n` walked that are copied: those with an allowed extension
      that can be read. */
  ghost function Wanted(walk: seq<Source>, n: nat): set<int>
    requires n <= |walk|
  {
    set i | 0 <= i < n && walk[i].allowed && walk[i].readable
  }

  ghost function Allowed(walk: seq<Source>, n: nat): nat
    requires n <= |walk|
  {
    if n == 0 then 0 else Allowed(walk, n - 1) + if walk[n - 1].allowed then 1 else 0
  }

  lemma WantedStep(walk: seq<Source>, n: nat)
    requires n < |walk|
    ensures Wanted(walk, n + 1) ==
            if walk[n].allowed && walk[n].readable then Wanted(walk, n) + {n as int} else Wanted(walk, n)
    ensures n !in Wanted(walk, n)
  {
  }

  /** A source stands at `p` with its content, under one of its candidate names. */
  ghost predicate PlacedAt(files: map<Path, string>, src: Source, p: Path) {
    p in files && files[p] == src.content && p.dir == src.dir && exists k: nat :: p.file == Candidate(src.name, k)
  }

  ghost predicate Untouched(start: map<Path, string>, files: map<Path, string>) {
    forall p :: p in start ==> p in files && files[p] == start[p]
  }

  ghost predicate Places(start: map<Path, string>, files: map<Path, string>, walk: seq<Source>, place: map<int, Path>) {
    forall i :: i in place ==> 0 <= i < |walk| && PlacedAt(files, walk[i], place[i]) && place[i] !in start
  }

  ghost predicate OwnPlaces(place: map<int, Path>) {
    forall i, j :: i in place && j in place && place[i] == place[j] ==> i == j
  }

  ghost predicate NothingElse(start: map<Path, string>, files: map<Path, string>, place: map<int, Path>) {
    forall p :: p in files ==> p in start || p in place.Values
  }

  /** The output after `n` walked files. No file that was there is touched; every wanted file
      has a place of its own, in its directory and under one of its candidate names, with its
      content; nothing else is added. */
  ghost predicate Merged(start: map<Path, string>, files: map<Path, string>, walk: seq<Source>, n: nat,
                         place: map<int, Path>)
    requires n <= |walk|
  {
    && place.Keys == Wanted(walk, n)
    && Untouched(start, files) && Places(start, files, walk, place) && OwnPlaces(place) && NothingElse(start, files, place)
  }

  lemma PlacedStays(files: map<Path, string>, src: Source, p: Path, to: Path, content: string)
    requires PlacedAt(files, src, p) && to !in files
    ensures PlacedAt(files[to := content], src, p) && p != to
  {
  }

  lemma ValuesGrow<K, V>(m: map<K, V>, k: K, v: V)
    requires k !in m
    ensures m[k := v].Values == m.Values + {v}
  {
    var after := m[k := v];
    assert after[k] == v;
    forall x | x in m.Values
      ensures x in after.Values
    {
      var i :| i in m && m[i] == x;
      assert after[i] == x;
    }
  }

  lemma PlacesStep(start: map<Path, string>, files: map<Path, string>, walk: seq<Source>, place: map<int, Path>,
                   n: nat, k: nat)
    requires n < |walk| && n !in place && Places(start, files, walk, place) && Untouched(start, files)
    requires Path(walk[n].dir, Candidate(walk[n].name, k)) !in files
    ensures var to := Path(walk[n].dir, Candidate(walk[n].name, k));
            Places(start, files[to := walk[n].content], walk, place[n := to])
  {
    var to := Path(walk[n].dir, Candidate(walk[n].name, k));
    forall i | i in place
      ensures PlacedAt(files[to := walk[n].content], walk[i], place[i])
    {
      PlacedStays(files, walk[i], place[i], to, walk[n].content);
    }
  }

  lemma OwnPlacesStep(start: map<Path, string>, files: map<Path, string>, walk: seq<Source>, place: map<int, Path>,
                      n: int, to: Path)
    requires Places(start, files, walk, place) && OwnPlaces(place) && to !in files
    ensures OwnPlaces(place[n := to])
  {
  }

  lemma NothingElseStep(start: map<Path, string>, files: map<Path, string>, place: map<int, Path>, n: int, to: Path,
                        content: string)
    requires NothingElse(start, files, place) && n !in place
    ensures NothingElse(start, files[to := content], place[n := to])
  {
    ValuesGrow(place, n, to);
  }

  lemma MergedStep(start: map<Path, string>, files: map<Path, string>, walk: seq<Source>, n: nat,
                   place: map<int, Path>, k: nat)
    requires n < |walk| && walk[n].allowed && walk[n].readable && Merged(start, files, walk, n, place)
    requires Path(walk[n].dir, Candidate(walk[n].name, k)) !in files
    ensures var to := Path(walk[n].dir, Candidate(walk[n].name, k));
            Merged(start, files[to := walk[n].content], walk, n + 1, place[n := to])
  {
    var to := Path(walk[n].dir, Candidate(walk[n].name, k));
    WantedStep(walk, n);
    PlacesStep(start, files, walk, place, n, k);
    OwnPlacesStep(start, files, walk, place, n, to);
    NothingElseStep(start, files, place, n, to, walk[n].content);
  }

  lemma OneCounted(p: Progress, src: Source, i: int)
    ensures MergeOne(p, src, i).copied == p.copied + if src.allowed && src.readable then 1 else 0
    ensures |MergeOne(p, src, i).errors| == |p.errors| + if src.allowed && !src.readable then 1 else 0
  {
  }

  lemma AddOne(a: set<int>, x: int)
    requires x !in a
    ensures |a + {x}| == |a| + 1
  {
  }

  lemma WantedCount(walk: seq<Source>, n: nat)
    requires n < |walk|
    ensures |Wanted(walk, n + 1)| == |Wanted(walk, n)| + if walk[n].allowed && walk[n].readable then 1 else 0
  {
    WantedStep(walk, n);
    AddOne(Wanted(walk, n), n);
  }

  /** Every walked file with an allowed extension is counted as copied or as an error. */
  lemma {:induction false} MergeCounts(start: map<Path, string>, walk: seq<Source>, n: nat)
    requires n <= |walk|
    ensures var p := MergedBy(start, walk, n);
            p.copied == |Wanted(walk, n)| && p.copied + |p.errors| == Allowed(walk, n)
  {
    if n > 0 {
      MergeCounts(start, walk, n - 1);
      WantedCount(walk, n - 1);
      OneCounted(MergedBy(start, walk, n - 1), walk[n - 1], n - 1);
    }
  }

  lemma OneMerged(start: map<Path, string>, p: Progress, walk: seq<Source>, n: nat)
    requires n < |walk| && Merged(start, p.files, walk, n, p.place)
    ensures var q := MergeOne(p, walk[n], n); Merged(start, q.files, walk, n + 1, q.place)
  {
    var src := walk[n];
    if src.allowed && src.readable {
      MergedStep(start, p.files, walk, n, p.place, FreeFrom(p.files, src.dir, src.name, 0));
    } else {
      MergedSkip(start, p.files, walk, n, p.place);
    }
  }

  /** What was there stays as it was, every copied source has its own place, and nothing else
      is added. */
  lemma {:induction false} MergePlaces(start: map<Path, string>, walk: seq<Source>, n: nat)
    requires n <= |walk|
    ensures var p := MergedBy(start, walk, n); Merged(start, p.files, walk, n, p.place)
  {
    if n == 0 {
      MergedNone(start, walk);
    } else {
      MergePlaces(start, walk, n - 1);
      OneMerged(start, MergedBy(start, walk, n - 1), walk, n - 1);
    }
  }

  lemma MergedNone(files: map<Path, string>, walk: seq<Source>)
    ensures Merged(files, files, walk, 0, map[])
  {
  }

  lemma MergedSkip(start: map<Path, string>, files: map<Path, string>, walk: seq<Source>, n: nat, place: map<int, Path>)
    requires n < |walk| && Merged(start, files, walk, n, place) && !(walk[n].allowed && walk[n].readable)
    ensures Merged(start, files, walk, n + 1, place)
  {
    WantedStep(walk, n);
  }

  /** The merge is conservative, for every output folder and every walk; and every walked file
      with an allowed extension is counted as copied or as an error. */
  lemma MergeIsConservative(start: map<Path, string>, walk: seq<Source>, n: nat)
    requires n <= |walk|
    ensures var p := MergedBy(start, walk, n);
            && Merged(start, p.files, walk, n, p.place)
            && p.copied == |Wanted(walk, n)| && p.copied + |p.errors| == Allowed(walk, n)
  {
    MergePlaces(start, walk, n);
    MergeCounts(start, walk, n);
  }

  /** A copy keeps its own name if that is free, gets the suffixed name "_1" if only its own is
      taken, and in every case keeps stem, directory and suffix around a counter. */
  lemma KeepsItsName(files: map<Path, string>, src: Source)
    ensures Path(src.dir, Full(src.name)) !in files ==> Destination(files, src) == Path(src.dir, src.name.stem + src.name.suffix)
    ensures Path(src.dir, Full(src.name)) in files &&
            Path(src.dir, src.name.stem + "_1" + src.name.suffix) !in files ==>
              Destination(files, src) == Path(src.dir, src.name.stem + "_1" + src.name.suffix)
    ensures Destination(files, src).dir == src.dir
    ensures src.name.stem <= Destination(files, src).file
    ensures Path(src.dir, Full(src.name)) in files ==> src.name.stem + "_" <= Destination(files, src).file
  {
    var k := FreeFrom(files, src.dir, src.name, 0);
    assert Candidate(src.name, 0) == Full(src.name);
    assert Digits(1) == "1" && Candidate(src.name, 1) == src.name.stem + "_1" + src.name.suffix;
    if Path(src.dir, Full(src.name)) !in files {
      FirstFreeIsUnique(files, src.dir, src.name, k, 0);
    } else if Path(src.dir, Candidate(src.name, 1)) !in files {
      FirstFreeIsUnique(files, src.dir, src.name, k, 1);
    }
  }

  /** Where the i-th file went is the first of its names that was free when its turn came. */
  lemma {:induction false} PlacedInTurn(start: map<Path, string>, walk: seq<Source>, n: nat, i: nat)
    requires n <= |walk| && i < n && i in MergedBy(start, walk, n).place
    ensures MergedBy(start, walk, n).place[i] == Destination(MergedBy(start, walk, i).files, walk[i])
  {
    if i < n - 1 {
      MergedStays(MergedBy(start, walk, n - 1), walk[n - 1], n - 1, i);
      PlacedInTurn(start, walk, n - 1, i);
    } else {
      NotYetPlaced(start, walk, i);
      NewPlace(MergedBy(start, walk, i), walk[i], i);
    }
  }

  lemma NotYetPlaced(start: map<Path, string>, walk: seq<Source>, n: nat)
    requires n <= |walk|
    ensures n !in MergedBy(start, walk, n).place
  {
    MergePlaces(start, walk, n);
    assert n !in Wanted(walk, n);
  }

  lemma NewPlace(p: Progress, src: Source, k: int)
    requires k in MergeOne(p, src, k).place && k !in p.place
    ensures MergeOne(p, src, k).place[k] == Destination(p.files, src)
  {
  }

  lemma MergedStays(p: Progress, src: Source, k: int, i: int)
    requires i in MergeOne(p, src, k).place && i != k
    ensures i in p.place && MergeOne(p, src, k).place[i] == p.place[i]
  {
  }

  /** The errors name, in order, exactly the allowed files that could not be read. */
  ghost function Unreadable(walk: seq<Source>): seq<Name>
    decreases |walk|
  {
    if walk == [] then [] else ErrorOf(walk[0]) + Unreadable(walk[1..])
  }

  ghost function ErrorOf(src: Source): seq<Name> {
    if src.allowed && !src.readable then [src.name] else []
  }

  lemma {:induction false} UnreadableStep(walk: seq<Source>, src: Source)
    ensures Unreadable(walk + [src]) == Unreadable(walk) + ErrorOf(src)
    decreases |walk|
  {
    if walk == [] {
      assert ([] + [src])[1..] == [];
    } else {
      var more := walk + [src];
      assert more[0] == walk[0] && more[1..] == walk[1..] + [src];
      UnreadableStep(walk[1..], src);
      assert ErrorOf(walk[0]) + (Unreadable(walk[1..]) + ErrorOf(src)) == Unreadable(walk) + ErrorOf(src);
    }
  }

  lemma {:induction false} ErrorsNameUnreadable(start: map<Path, string>, walk: seq<Source>, n: nat)
    requires n <= |walk|
    ensures MergedBy(start, walk, n).errors == Unreadable(walk[..n])
  {
    if n > 0 {
      ErrorsNameUnreadable(start, walk, n - 1);
      assert walk[..n] == walk[..n - 1] + [walk[n - 1]];
      UnreadableStep(walk[..n - 1], walk[n - 1]);
      OneError(MergedBy(start, walk, n - 1), walk[n - 1], n - 1);
    } else {
      assert walk[..0] == [];
    }
  }

  lemma OneError(p: Progress, src: Source, i: int)
    ensures MergeOne(p, src, i).errors == p.errors + ErrorOf(src)
  {
  }
}
