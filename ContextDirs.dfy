/**
 * The context-directory allocator and reclaimer of BrowserFiles.kt: the guarded deletion of
 * temporary user-data directories with its ledger of cleaned directories, the sweep that
 * feeds it, the capped sequential allocator with round-robin reuse of a group's contexts,
 * the context count, and the name of a random context directory.
 *
 * The file system is a value: a map from paths to entries (directory or file, and the time
 * of last modification). An operation that changes it returns the new value. The object's
 * own state (the context groups and the ledger) lives in class BrowserFiles.
 */
module ContextDirs {
  import opened Wrappers
  import opened Paths
  import opened Text

  /** CONTEXT_DIR_PREFIX. */
  const ContextDirPrefix := "cx."
  /** PID_FILE_NAME. */
  const PidFileName := "launcher.pid"
  /** TEMPORARY_UDD_EXPIRY, twelve hours, in milliseconds. */
  const TemporaryUddExpiryMillis := 12 * 60 * 60 * 1000

  datatype Entry = Entry(isDirectory: bool, mtime: int)

  datatype FileSystem = FileSystem(entries: map<Path, Entry>)

  /** The IOExceptions the operations raise, and the iterator's NoSuchElementException. */
  datatype FsError = NoSuchFile(path: Path) | FileExists(path: Path) | NoSuchElement

  /** A path a call hands out, and the file system it leaves. */
  datatype Allocation = Allocation(fs: FileSystem, path: Path)

  predicate IsDir(fs: FileSystem, p: Path)
  {
    p in fs.entries && fs.entries[p].isDirectory
  }

  /** `Files.exists(path.resolveSibling(PID_FILE_NAME))`. */
  predicate HasSiblingPidFile(fs: FileSystem, p: Path)
  {
    ResolveSibling(p, PidFileName) in fs.entries
  }

  /** `DateTimes.isExpired(mtime, expiry)` at time now. */
  predicate IsExpired(mtime: int, expiry: int, now: int)
  {
    mtime + expiry < now
  }

  /** The entries directly inside dir: what `Files.list(dir)` yields. */
  function Children(fs: FileSystem, dir: Path): set<Path>
  {
    set p | p in fs.entries && Parent(p) == Some(dir)
  }

  // ---------------------------------------------------------------------------------------
  // Creating and deleting directories
  // ---------------------------------------------------------------------------------------

  /** The non-root prefixes of p, p itself included: the directories `createDirectories` needs. */
  function Ancestors(p: Path): set<Path>
  {
    set i | 1 <= i <= |p.names| :: Path(p.absolute, p.names[..i])
  }

  /**
   * `Files.createDirectories(p)`: every missing prefix of p becomes a directory; a prefix that
   * exists as a file makes the call fail.
   */
  function CreateDirectories(fs: FileSystem, p: Path, now: int): Result<FileSystem, FsError>
  {
    if exists q :: q in Ancestors(p) && q in fs.entries && !fs.entries[q].isDirectory then Err(FileExists(p))
    else Ok(FileSystem(map q | q in fs.entries.Keys + Ancestors(p) :: if q in fs.entries then fs.entries[q] else Entry(true, now)))
  }

  /**
   * A successful `createDirectories` leaves every prefix of p a directory, keeps every entry,
   * and adds only prefixes of p; it fails only when a prefix is a file.
   */
  lemma CreateDirectoriesFacts(fs: FileSystem, p: Path, now: int)
    ensures CreateDirectories(fs, p, now).Err? <==> exists q :: q in Ancestors(p) && q in fs.entries && !fs.entries[q].isDirectory
    ensures match CreateDirectories(fs, p, now)
      case Err(_) => true
      case Ok(fs1) =>
        && (forall q :: q in Ancestors(p) ==> IsDir(fs1, q))
        && (forall q :: q in fs.entries ==> q in fs1.entries && fs1.entries[q] == fs.entries[q])
        && (forall q :: q in fs1.entries ==> q in fs.entries || q in Ancestors(p))
  {
  }

  /** A path is among its own prefixes when it has a name. */
  lemma SelfAncestor(p: Path)
    requires p.names != []
    ensures p in Ancestors(p)
  {
    assert p.names[..|p.names|] == p.names;
  }

  /** A second `createDirectories` of the same path changes nothing. */
  lemma CreateDirectoriesIdempotent(fs: FileSystem, p: Path, now: int, later: int)
    requires CreateDirectories(fs, p, now).Ok?
    ensures CreateDirectories(CreateDirectories(fs, p, now).value, p, later) == CreateDirectories(fs, p, now)
  {
    var fs1 := CreateDirectories(fs, p, now).value;
    CreateDirectoriesFacts(fs, p, now);
    var fs2 := CreateDirectories(fs1, p, later);
    assert fs2.Ok?;
    assert fs2.value.entries == fs1.entries;
  }

  /**
   * `FileUtils.deleteQuietly(dir)`: removes dir and everything under it, except the entries in
   * remaining, which the deletion fails to remove, and the directories holding them (a
   * directory that is not empty cannot be removed); it never throws.
   */
  function DeleteQuietly(fs: FileSystem, dir: Path, remaining: set<Path>): (r: FileSystem)
    ensures forall p :: p in r.entries ==> p in fs.entries && r.entries[p] == fs.entries[p]
    ensures forall p :: p in fs.entries && p !in r.entries ==> StartsWith(p, dir)
    ensures forall q :: q in remaining && q in fs.entries ==> q in r.entries
  {
    FileSystem(map p | p in fs.entries && (!StartsWith(p, dir) || Holds(fs, remaining, p)) :: fs.entries[p])
  }

  /** p is, or lies above, an entry the deletion fails to remove. */
  predicate Holds(fs: FileSystem, remaining: set<Path>, p: Path)
  {
    exists q :: q in remaining && q in fs.entries && StartsWith(q, p)
  }

  /**
   * What `deleteQuietly` leaves under dir is closed upwards: every existing directory between a
   * surviving entry and dir survives too, and dir itself is gone exactly when nothing in it
   * fails to be removed.
   */
  lemma DeleteQuietlyKeepsAncestors(fs: FileSystem, dir: Path, remaining: set<Path>)
    ensures var r := DeleteQuietly(fs, dir, remaining);
      && (forall p, a :: p in r.entries && a in fs.entries && StartsWith(p, a) && StartsWith(a, dir) ==> a in r.entries)
      && (dir in fs.entries ==> (dir in r.entries <==> Holds(fs, remaining, dir)))
  {
    var r := DeleteQuietly(fs, dir, remaining);
    forall p, a | p in r.entries && a in fs.entries && StartsWith(p, a) && StartsWith(a, dir) ensures a in r.entries {
      StartsWithTransitive(p, a, dir);
      var q :| q in remaining && q in fs.entries && StartsWith(q, p);
      StartsWithTransitive(q, p, a);
    }
    StartsWithReflexive(dir);
  }

  // ---------------------------------------------------------------------------------------
  // Guarded deletion and the ledger
  // ---------------------------------------------------------------------------------------

  /**
   * `deleteTemporaryUserDataDir0`: skip a directory already cleaned, one outside the context
   * tmp dir, one not expired and one without a sibling pid file; reading the modification
   * time of a missing directory throws. Otherwise delete it, and record it as cleaned only if
   * it no longer exists.
   */
  ghost function DeleteSpec(cleaned: set<Path>, fs: FileSystem, dir: Path, tmpDir: Path, expiry: int, now: int,
                            remaining: set<Path>): (set<Path>, Result<FileSystem, FsError>)
  {
    if dir in cleaned then (cleaned, Ok(fs))
    else if !StartsWith(dir, tmpDir) then (cleaned, Ok(fs))
    else if dir !in fs.entries then (cleaned, Err(NoSuchFile(dir)))
    else if !IsExpired(fs.entries[dir].mtime, expiry, now) then (cleaned, Ok(fs))
    else if !HasSiblingPidFile(fs, dir) then (cleaned, Ok(fs))
    else
      var fs1 := DeleteQuietly(fs, dir, remaining);
      if dir in fs1.entries then (cleaned, Ok(fs1)) else (cleaned + {dir}, Ok(fs1))
  }

  /**
   * Nothing is deleted and nothing recorded for a directory already cleaned, one outside the
   * tmp dir, one not yet expired, or one without a sibling `launcher.pid`.
   */
  lemma DeleteGuards(cleaned: set<Path>, fs: FileSystem, dir: Path, tmpDir: Path, expiry: int, now: int, remaining: set<Path>)
    requires dir in cleaned || !StartsWith(dir, tmpDir)
          || (dir in fs.entries && (!IsExpired(fs.entries[dir].mtime, expiry, now) || !HasSiblingPidFile(fs, dir)))
    ensures DeleteSpec(cleaned, fs, dir, tmpDir, expiry, now, remaining) == (cleaned, Ok(fs))
  {
  }

  /**
   * The ledger grows by at most dir, and gains dir exactly when every guard passed and dir is
   * gone after the deletion; a failure leaves everything as it was.
   */
  lemma DeleteLedger(cleaned: set<Path>, fs: FileSystem, dir: Path, tmpDir: Path, expiry: int, now: int, remaining: set<Path>)
    ensures var (c, r) := DeleteSpec(cleaned, fs, dir, tmpDir, expiry, now, remaining);
      && (c == cleaned || c == cleaned + {dir})
      && (dir !in cleaned && dir in c <==>
            && r.Ok? && dir !in r.value.entries
            && StartsWith(dir, tmpDir) && dir in fs.entries && dir !in cleaned
            && IsExpired(fs.entries[dir].mtime, expiry, now) && HasSiblingPidFile(fs, dir))
      && (r.Err? ==> c == cleaned && r.error == NoSuchFile(dir))
  {
  }

  /** Only entries under dir, itself under the tmp dir, are ever removed. */
  lemma DeleteStaysInTmp(cleaned: set<Path>, fs: FileSystem, dir: Path, tmpDir: Path, expiry: int, now: int, remaining: set<Path>)
    ensures var (_, r) := DeleteSpec(cleaned, fs, dir, tmpDir, expiry, now, remaining);
      r.Ok? ==> forall p :: p in fs.entries && p !in r.value.entries ==> StartsWith(p, dir) && StartsWith(p, tmpDir)
  {
    var (_, r) := DeleteSpec(cleaned, fs, dir, tmpDir, expiry, now, remaining);
    if r.Ok? {
      forall p | p in fs.entries && p !in r.value.entries
        ensures StartsWith(p, dir) && StartsWith(p, tmpDir)
      {
        StartsWithTransitive(p, dir, tmpDir);
      }
    }
  }

  /** Once a directory is in the ledger, any later call on it is a no-op. */
  lemma DeleteIdempotent(cleaned: set<Path>, fs: FileSystem, dir: Path, tmpDir: Path, expiry: int, now: int, remaining: set<Path>,
                         fs2: FileSystem, expiry2: int, now2: int, remaining2: set<Path>)
    requires dir in DeleteSpec(cleaned, fs, dir, tmpDir, expiry, now, remaining).0
    ensures var c := DeleteSpec(cleaned, fs, dir, tmpDir, expiry, now, remaining).0;
      DeleteSpec(c, fs2, dir, tmpDir, expiry2, now2, remaining2) == (c, Ok(fs2))
  {
  }

  // ---------------------------------------------------------------------------------------
  // The sweep
  // ---------------------------------------------------------------------------------------

  /** The sweep's filter: not yet cleaned, a directory, and with a sibling pid file. */
  predicate IsCandidate(fs: FileSystem, cleaned: set<Path>, p: Path)
  {
    p !in cleaned && IsDir(fs, p) && HasSiblingPidFile(fs, p)
  }

  /**
   * The `forEach` of `cleanUpContextTmpDir` over the walked paths in walk order: the filter is
   * applied to each path when the stream reaches it, and a candidate goes to the guarded
   * deletion.
   */
  ghost function SweepFrom(cleaned: set<Path>, fs: FileSystem, walk: seq<Path>, tmpDir: Path, expiry: int, now: int,
                           remaining: set<Path>): (set<Path>, Result<FileSystem, FsError>)
    decreases |walk|
  {
    if walk == [] then (cleaned, Ok(fs))
    else if IsCandidate(fs, cleaned, walk[0]) then
      var (c1, r) := DeleteSpec(cleaned, fs, walk[0], tmpDir, expiry, now, remaining);
      match r
      case Err(e) => (c1, Err(e))
      case Ok(fs1) => SweepFrom(c1, fs1, walk[1..], tmpDir, expiry, now, remaining)
    else SweepFrom(cleaned, fs, walk[1..], tmpDir, expiry, now, remaining)
  }

  /**
   * `cleanUpContextTmpDir`: walking a missing tmp dir throws; walk is the order in which
   * `Files.walk(tmpDir, 3)` visits the tmp dir and the entries at most three levels below it.
   */
  ghost function CleanUpSpec(cleaned: set<Path>, fs: FileSystem, walk: seq<Path>, tmpDir: Path, expiry: int, now: int,
                             remaining: set<Path>): (set<Path>, Result<FileSystem, FsError>)
  {
    if tmpDir !in fs.entries then (cleaned, Err(NoSuchFile(tmpDir)))
    else SweepFrom(cleaned, fs, walk, tmpDir, expiry, now, remaining)
  }

  /**
   * The sweep never fails once the walk started (a candidate exists, so reading its time
   * cannot throw); it removes only entries under the tmp dir; and every path it adds to the
   * ledger was walked and no longer exists.
   */
  lemma {:induction false} SweepSafe(cleaned: set<Path>, fs: FileSystem, walk: seq<Path>, tmpDir: Path, expiry: int, now: int,
                                     remaining: set<Path>)
    ensures var (c, r) := SweepFrom(cleaned, fs, walk, tmpDir, expiry, now, remaining);
      && r.Ok?
      && cleaned <= c
      && (forall p :: p in fs.entries && p !in r.value.entries ==> StartsWith(p, tmpDir))
      && (forall p :: p in r.value.entries ==> p in fs.entries)
      && (forall p :: p in c && p !in cleaned ==> p in walk && p !in r.value.entries)
    decreases |walk|
  {
    if walk != [] {
      var p0 := walk[0];
      if IsCandidate(fs, cleaned, p0) {
        var (c1, r1) := DeleteSpec(cleaned, fs, p0, tmpDir, expiry, now, remaining);
        DeleteLedger(cleaned, fs, p0, tmpDir, expiry, now, remaining);
        DeleteStaysInTmp(cleaned, fs, p0, tmpDir, expiry, now, remaining);
        SweepSafe(c1, r1.value, walk[1..], tmpDir, expiry, now, remaining);
        assert forall p :: p in walk[1..] ==> p in walk;
      } else {
        SweepSafe(cleaned, fs, walk[1..], tmpDir, expiry, now, remaining);
        assert forall p :: p in walk[1..] ==> p in walk;
      }
    }
  }

  /** A walked path that is not a candidate when the stream reaches it is left alone. */
  lemma SweepSkips(cleaned: set<Path>, fs: FileSystem, walk: seq<Path>, tmpDir: Path, expiry: int, now: int,
                   remaining: set<Path>)
    requires walk != [] && !IsCandidate(fs, cleaned, walk[0])
    ensures SweepFrom(cleaned, fs, walk, tmpDir, expiry, now, remaining)
         == SweepFrom(cleaned, fs, walk[1..], tmpDir, expiry, now, remaining)
  {
  }

  // ---------------------------------------------------------------------------------------
  // Context groups
  // ---------------------------------------------------------------------------------------

  /**
   * A ContextGroup with its PathIterator: the group's paths, and the position of the cycling
   * iterator in them (at the end, the next call restarts from the first path).
   */
  datatype ContextGroup = ContextGroup(group: string, paths: seq<Path>, cursor: nat)

  function NewGroup(group: string): ContextGroup
  {
    ContextGroup(group, [], 0)
  }

  /** The group holds each path once, and its iterator is within the paths. */
  ghost predicate GroupInv(g: ContextGroup)
  {
    g.cursor <= |g.paths| && forall i, j :: 0 <= i < j < |g.paths| ==> g.paths[i] != g.paths[j]
  }

  /** `add`: the paths form a set, so adding a path already there changes nothing. */
  function Add(g: ContextGroup, p: Path): (r: ContextGroup)
    ensures GroupInv(g) ==> GroupInv(r)
    ensures forall q :: q in r.paths <==> q in g.paths || q == p
    ensures r.cursor == g.cursor && r.group == g.group
  {
    if p in g.paths then g else g.(paths := g.paths + [p])
  }

  /** `PathIterator.hasNext`: the path set is not empty. */
  predicate HasNext(g: ContextGroup)
  {
    |g.paths| > 0
  }

  /** `PathIterator.next`: the next path of `Iterators.cycle`, which throws on an empty set. */
  function Next(g: ContextGroup): (r: (Option<Path>, ContextGroup))
    ensures r.0.Some? <==> HasNext(g)
    ensures GroupInv(g) ==> GroupInv(r.1)
    ensures r.1.paths == g.paths && r.1.group == g.group
  {
    if |g.paths| == 0 then (None, g)
    else if g.cursor < |g.paths| then (Some(g.paths[g.cursor]), g.(cursor := g.cursor + 1))
    else (Some(g.paths[0]), g.(cursor := 1))
  }

  /** The result of the (i + 1)-th of successive `next` calls. */
  function NthNext(g: ContextGroup, i: nat): Option<Path>
    decreases i
  {
    if i == 0 then Next(g).0 else NthNext(Next(g).1, i - 1)
  }

  /**
   * The iterator cycles: over one round of n calls the (i + 1)-th returns the path i places
   * after the cursor, wrapping past the end (a cursor at the end counts as the start).
   */
  lemma {:induction false} NextCycles(g: ContextGroup, i: nat)
    requires GroupInv(g) && HasNext(g) && i < |g.paths|
    ensures var c := if g.cursor == |g.paths| then 0 else g.cursor;
      NthNext(g, i) == Some(g.paths[if c + i < |g.paths| then c + i else c + i - |g.paths|])
    decreases i
  {
    if i > 0 {
      NextCycles(Next(g).1, i - 1);
    }
  }

  /**
   * From a fresh iterator, n successive calls return the n paths in order, and the next call
   * starts over with the first.
   */
  lemma NextVisitsAll(g: ContextGroup)
    requires GroupInv(g) && HasNext(g) && g.cursor == 0
    ensures forall i :: 0 <= i < |g.paths| ==> NthNext(g, i) == Some(g.paths[i])
    ensures NthNext(g, |g.paths|) == Some(g.paths[0])
  {
    forall i | 0 <= i < |g.paths|
      ensures NthNext(g, i) == Some(g.paths[i])
    {
      NextCycles(g, i);
    }
    NextCycles(Next(g).1, |g.paths| - 1);
  }

  /** The group of a name, created if absent (`contextGroups.computeIfAbsent`). */
  function GroupOf(groups: map<string, ContextGroup>, group: string): ContextGroup
  {
    if group in groups then groups[group] else NewGroup(group)
  }

  // ---------------------------------------------------------------------------------------
  // Counting and naming
  // ---------------------------------------------------------------------------------------

  /** The directories directly in baseDir whose path string contains prefix. */
  function CountedDirs(fs: FileSystem, baseDir: Path, prefix: string): set<Path>
  {
    set p | p in fs.entries && Parent(p) == Some(baseDir) && fs.entries[p].isDirectory && Contains(ToString(p), prefix)
  }

  /** `computeContextCount`: one more than the counted directories, so never below 1. */
  function ContextCount(fs: FileSystem, baseDir: Path, prefix: string): (n: nat)
    ensures n >= 1
  {
    1 + |CountedDirs(fs, baseDir, prefix)|
  }

  /**
   * A new directory in baseDir whose path string contains the prefix raises the count by one;
   * one that does not contain it leaves the count alone.
   */
  lemma ContextCountAdd(fs: FileSystem, baseDir: Path, prefix: string, q: Path, now: int)
    requires q !in fs.entries && Parent(q) == Some(baseDir)
    ensures var fs1 := FileSystem(fs.entries[q := Entry(true, now)]);
      ContextCount(fs1, baseDir, prefix) == ContextCount(fs, baseDir, prefix) + (if Contains(ToString(q), prefix) then 1 else 0)
  {
    var fs1 := FileSystem(fs.entries[q := Entry(true, now)]);
    if Contains(ToString(q), prefix) {
      assert CountedDirs(fs1, baseDir, prefix) == CountedDirs(fs, baseDir, prefix) + {q};
    } else {
      assert CountedDirs(fs1, baseDir, prefix) == CountedDirs(fs, baseDir, prefix);
    }
  }

  /** The file name of a random context directory: `"%s%02d%02d%s%s"`. */
  function RandomDirName(month: nat, day: nat, rand: string, count: nat): string
    requires month < 100 && day < 100
  {
    ContextDirPrefix + Pad2(month) + Pad2(day) + rand + NatToString(count)
  }

  /** A five-character alphanumeric string, as `RandomStringUtils.randomAlphanumeric(5)` makes. */
  predicate IsAlphanumeric5(s: string)
  {
    |s| == 5 && forall i :: 0 <= i < 5 ==> ('0' <= s[i] <= '9' || 'a' <= s[i] <= 'z' || 'A' <= s[i] <= 'Z')
  }

  /**
   * The name reads back: the prefix, two digits of month, two of day, the random part, and the
   * count in decimal; and it is a single path element.
   */
  lemma RandomDirNameFormat(month: nat, day: nat, rand: string, count: nat)
    requires month < 100 && day < 100 && IsAlphanumeric5(rand)
    ensures var s := RandomDirName(month, day, rand, count);
      && s[..3] == ContextDirPrefix
      && ParseDigits(s[3..5]) == month
      && ParseDigits(s[5..7]) == day
      && s[7..12] == rand
      && IsDigits(s[12..]) && ParseDigits(s[12..]) == count
      && IsName(s)
  {
    var s := RandomDirName(month, day, rand, count);
    Pad2RoundTrip(month);
    Pad2RoundTrip(day);
    NatToStringRoundTrip(count);
    assert s[3..5] == Pad2(month);
    assert s[5..7] == Pad2(day);
    assert s[12..] == NatToString(count);
    assert forall i :: 0 <= i < |s| ==> s[i] != '/' by {
      forall i | 0 <= i < |s| ensures s[i] != '/' {
        if i >= 12 { assert s[i] == s[12..][i - 12]; }
      }
    }
  }

  /**
   * `computeRandomContextDir0`: create `tmp/<month>` (month unpadded), count its contexts, and
   * name the directory `<ident>/cx.<MM><dd><rand><count>` inside it; the directory itself is
   * not created. month and day come from `MonthDay.now()`, rand from the random generator.
   */
  function RandomContextDir(fs: FileSystem, tmpDir: Path, ident: string, month: nat, day: nat, rand: string, now: int): Result<Allocation, FsError>
    requires 1 <= month <= 12 && 1 <= day <= 31
  {
    var baseDir := Resolve(tmpDir, NatToString(month));
    match CreateDirectories(fs, baseDir, now)
    case Err(e) => Err(e)
    case Ok(fs1) =>
      var count := ContextCount(fs1, baseDir, ContextDirPrefix);
      var fileName := RandomDirName(month, day, rand, count);
      var path := Resolve(Resolve(baseDir, ident), fileName);
      match CreateDirectories(fs1, baseDir, now)
      case Err(e) => Err(e)
      case Ok(fs2) => Ok(Allocation(fs2, path))
  }

  lemma DecimalIsName(n: nat)
    ensures IsName(NatToString(n))
  {
    NatToStringRoundTrip(n);
    var s := NatToString(n);
    assert forall i :: 0 <= i < |s| ==> s[i] != '/' by {
      forall i | 0 <= i < |s| ensures s[i] != '/' { assert IsDigit(s[i]); }
    }
  }

  /** `cx.<n>` is a single path element. */
  lemma ContextNameIsName(n: nat)
    ensures IsName(ContextDirPrefix + NatToString(n))
  {
    DecimalIsName(n);
    var s := ContextDirPrefix + NatToString(n);
    assert forall i :: 0 <= i < |s| ==> s[i] != '/' by {
      forall i | 0 <= i < |s| ensures s[i] != '/' {
        if i >= 3 { assert s[i] == NatToString(n)[i - 3]; }
      }
    }
  }

  /**
   * The random directory is the directory `<ident>` resolved against `tmp/<month>`, with a
   * name in the format above and the count taken over `tmp/<month>`; only `tmp/<month>` is
   * created. With the default empty ident it lies at `tmp/<month>/<name>`, and with a single
   * name at `tmp/<month>/<ident>/<name>`.
   */
  lemma RandomContextDirLocation(fs: FileSystem, tmpDir: Path, ident: string, month: nat, day: nat, rand: string, now: int)
    requires 1 <= month <= 12 && 1 <= day <= 31 && IsAlphanumeric5(rand)
    ensures var baseDir := Resolve(tmpDir, NatToString(month));
      match RandomContextDir(fs, tmpDir, ident, month, day, rand, now)
      case Err(e) => CreateDirectories(fs, baseDir, now).Err?
      case Ok(a) =>
        var name := RandomDirName(month, day, rand, ContextCount(a.fs, baseDir, ContextDirPrefix));
        && Ok(a.fs) == CreateDirectories(fs, baseDir, now)
        && Parent(a.path) == Some(Resolve(baseDir, ident)) && FileName(a.path) == name
        && (ident == "" ==> a.path == Path(tmpDir.absolute, tmpDir.names + [NatToString(month), name]))
        && (IsName(ident) ==> a.path == Path(tmpDir.absolute, tmpDir.names + [NatToString(month), ident, name]))
  {
    var baseDir := Resolve(tmpDir, NatToString(month));
    DecimalIsName(month);
    RandomContextDirShape(fs, tmpDir, ident, month, day, rand, now);
    var created := CreateDirectories(fs, baseDir, now);
    if created.Ok? {
      var count := ContextCount(created.value, baseDir, ContextDirPrefix);
      RandomDirNameIsName(month, day, rand, count);
      ResolveUnderIdent(tmpDir, NatToString(month), ident, RandomDirName(month, day, rand, count));
    }
  }

  lemma RandomDirNameIsName(month: nat, day: nat, rand: string, count: nat)
    requires month < 100 && day < 100 && IsAlphanumeric5(rand)
    ensures IsName(RandomDirName(month, day, rand, count))
  {
    RandomDirNameFormat(month, day, rand, count);
  }

  /** The second `createDirectories` of `computeRandomContextDir0` repeats the first. */
  lemma RandomContextDirShape(fs: FileSystem, tmpDir: Path, ident: string, month: nat, day: nat, rand: string, now: int)
    requires 1 <= month <= 12 && 1 <= day <= 31
    ensures var baseDir := Resolve(tmpDir, NatToString(month));
      var created := CreateDirectories(fs, baseDir, now);
      RandomContextDir(fs, tmpDir, ident, month, day, rand, now)
        == if created.Err? then Err(created.error)
           else Ok(Allocation(created.value, Resolve(Resolve(baseDir, ident),
                                RandomDirName(month, day, rand, ContextCount(created.value, baseDir, ContextDirPrefix)))))
  {
    var baseDir := Resolve(tmpDir, NatToString(month));
    if CreateDirectories(fs, baseDir, now).Ok? {
      CreateDirectoriesIdempotent(fs, baseDir, now, now);
    }
  }

  /** A name resolved under `<ident>` of `tmpDir/<month>`: its parent is that directory. */
  lemma ResolveUnderIdent(tmpDir: Path, month: string, ident: string, name: string)
    requires IsName(month) && IsName(name)
    ensures var p := Resolve(Resolve(Resolve(tmpDir, month), ident), name);
      && Parent(p) == Some(Resolve(Resolve(tmpDir, month), ident)) && FileName(p) == name
      && (ident == "" ==> p == Path(tmpDir.absolute, tmpDir.names + [month, name]))
      && (IsName(ident) ==> p == Path(tmpDir.absolute, tmpDir.names + [month, ident, name]))
  {
    ResolveName(tmpDir, month);
    var baseDir := Resolve(tmpDir, month);
    var identDir := Resolve(baseDir, ident);
    assert identDir.absolute || identDir.names != [];
    ResolveName(identDir, name);
    if ident == "" {
      assert Parse(ident) == Path(false, []);
      assert identDir.names == baseDir.names + [];
      assert tmpDir.names + [month] + [name] == tmpDir.names + [month, name];
    }
    if IsName(ident) {
      ResolveName(baseDir, ident);
      assert tmpDir.names + [month] + [ident] + [name] == tmpDir.names + [month, ident, name];
    }
  }

  // ---------------------------------------------------------------------------------------
  // The sequential allocator
  // ---------------------------------------------------------------------------------------

  /** A file name of a context directory: it starts with `cx.`. */
  predicate IsContextName(s: string)
  {
    |s| >= 3 && s[..3] == ContextDirPrefix
  }

  /**
   * The listing filter of `computeNextSequentialContextDir0`: a directory that starts with
   * `cx.`. As written, the test is `Path.startsWith(String)`, which compares whole names from
   * the root; the evidently intended test is on the file name as a string.
   */
  predicate Listed(fs: FileSystem, p: Path, asWritten: bool)
  {
    IsDir(fs, p) && if asWritten then StartsWith(p, Parse(ContextDirPrefix)) else IsContextName(FileName(p))
  }

  /** `listing.filter { ... }.forEach { contextGroup.add(it) }`. */
  function AddListed(g: ContextGroup, fs: FileSystem, listing: seq<Path>, asWritten: bool): ContextGroup
    decreases |listing|
  {
    if listing == [] then g
    else
      var g1 := AddListed(g, fs, listing[..|listing| - 1], asWritten);
      var p := listing[|listing| - 1];
      if Listed(fs, p, asWritten) then Add(g1, p) else g1
  }

  /**
   * Adding the listing keeps the group's invariant and its iterator, and the group then holds
   * its old paths and the listed paths that pass the filter, and nothing else.
   */
  lemma {:induction false} AddListedFacts(g: ContextGroup, fs: FileSystem, listing: seq<Path>, asWritten: bool)
    ensures var r := AddListed(g, fs, listing, asWritten);
      && (GroupInv(g) ==> GroupInv(r))
      && r.cursor == g.cursor && r.group == g.group
      && forall q :: q in r.paths <==> q in g.paths || (q in listing && Listed(fs, q, asWritten))
    decreases |listing|
  {
    if listing != [] {
      var init := listing[..|listing| - 1];
      AddListedFacts(g, fs, init, asWritten);
      assert listing == init + [listing[|listing| - 1]];
    }
  }

  /**
   * `computeNextSequentialContextDir0` as written: count the contexts of baseDir, add the listed
   * contexts to the group, and at the cap hand out the group's next path, else create and
   * hand out `baseDir/group/cx.<count>`. Listing a missing baseDir throws. listing is the
   * order in which `listDirectoryEntries` returns baseDir's entries.
   */
  ghost function SequentialAsWritten(groups: map<string, ContextGroup>, fs: FileSystem, baseDir: Path, group: string,
                                     maxContexts: int, listing: seq<Path>, now: int): (map<string, ContextGroup>, Result<Allocation, FsError>)
  {
    if !IsDir(fs, baseDir) then (groups, Err(NoSuchFile(baseDir)))
    else
      var count := ContextCount(fs, baseDir, ContextDirPrefix);
      var g := AddListed(GroupOf(groups, group), fs, listing, true);
      if |g.paths| >= maxContexts then
        var (r, g1) := Next(g);
        (groups[group := g1], if r.Some? then Ok(Allocation(fs, r.value)) else Err(NoSuchElement))
      else
        var path := Resolve(Resolve(baseDir, group), ContextDirPrefix + NatToString(count));
        (groups[group := g],
         match CreateDirectories(fs, path, now)
         case Err(e) => Err(e)
         case Ok(fs1) => Ok(Allocation(fs1, path)))
  }

  /**
   * The two branches: at the cap the group's next path comes back and nothing is created;
   * below it the result is `baseDir/group/cx.<count>`, created.
   */
  lemma SequentialBranches(groups: map<string, ContextGroup>, fs: FileSystem, baseDir: Path, group: string,
                           maxContexts: int, listing: seq<Path>, now: int)
    requires IsDir(fs, baseDir)
    ensures var g := AddListed(GroupOf(groups, group), fs, listing, true);
      var (_, r) := SequentialAsWritten(groups, fs, baseDir, group, maxContexts, listing, now);
      var path := Resolve(Resolve(baseDir, group), ContextDirPrefix + NatToString(ContextCount(fs, baseDir, ContextDirPrefix)));
      && (|g.paths| >= maxContexts ==> r == (if HasNext(g) then Ok(Allocation(fs, Next(g).0.value)) else Err(NoSuchElement)))
      && (|g.paths| >= maxContexts && r.Ok? ==> r.value.path in g.paths)
      && (|g.paths| < maxContexts && r.Ok? ==> r.value.path == path && IsDir(r.value.fs, path))
  {
    var g := AddListed(GroupOf(groups, group), fs, listing, true);
    var path := Resolve(Resolve(baseDir, group), ContextDirPrefix + NatToString(ContextCount(fs, baseDir, ContextDirPrefix)));
    if |g.paths| < maxContexts {
      CreateDirectoriesFacts(fs, path, now);
      ContextNameIsName(ContextCount(fs, baseDir, ContextDirPrefix));
      ResolveName(Resolve(baseDir, group), ContextDirPrefix + NatToString(ContextCount(fs, baseDir, ContextDirPrefix)));
      SelfAncestor(path);
    }
  }

  /** An absolute listing never passes the filter as written, so the group never gains a path. */
  lemma {:induction false} AsWrittenGroupNeverGrows(g: ContextGroup, fs: FileSystem, listing: seq<Path>)
    requires forall i :: 0 <= i < |listing| ==> listing[i].absolute
    ensures AddListed(g, fs, listing, true) == g
    decreases |listing|
  {
    if listing != [] {
      AsWrittenGroupNeverGrows(g, fs, listing[..|listing| - 1]);
      AbsoluteNeverStartsWithRelative(listing[|listing| - 1], Parse(ContextDirPrefix));
    }
  }

  lemma NoContextInDefault()
    ensures !Contains("/ctx/default", ContextDirPrefix)
  {
    var s := "/ctx/default";
    ContainsOccurs(s, ContextDirPrefix);
    forall i | 0 <= i <= |s| - 3
      ensures !OccursAt(s, ContextDirPrefix, i)
    {
      var w := s[i..i + 3];
      if i == 1 {
        assert w[1] == 't';
      } else {
        assert w[0] == s[i] != 'c';
      }
    }
  }

  /** The example: a base directory `/ctx` whose group `default` already holds `cx.1`. */
  const ExampleBase := Path(true, ["ctx"])
  const ExampleGroupDir := Path(true, ["ctx", "default"])
  const ExampleContext := Path(true, ["ctx", "default", "cx.1"])
  const ExampleFs := FileSystem(map[ExampleBase := Entry(true, 0), ExampleGroupDir := Entry(true, 0), ExampleContext := Entry(true, 0)])

  lemma ExampleGroupDirString()
    ensures ToString(ExampleGroupDir) == "/ctx/default"
  {
    assert Join(["ctx", "default"][..1]) == "ctx";
  }

  lemma ExampleParents()
    ensures Parent(ExampleBase) != Some(ExampleBase)
    ensures Parent(ExampleContext) == Some(ExampleGroupDir)
  {
    assert ExampleContext.names[..2] == ExampleGroupDir.names;
  }

  /** When no child directory's path string contains the prefix, the count is 1. */
  lemma CountWithoutMatches(fs: FileSystem, baseDir: Path, prefix: string)
    requires forall p :: p in fs.entries && Parent(p) == Some(baseDir) ==> !Contains(ToString(p), prefix)
    ensures ContextCount(fs, baseDir, prefix) == 1
  {
    assert CountedDirs(fs, baseDir, prefix) == {};
  }

  /** The only child of `/ctx` is `/ctx/default`. */
  lemma ExampleOnlyChild(p: Path)
    requires p in ExampleFs.entries && Parent(p) == Some(ExampleBase)
    ensures p == ExampleGroupDir
  {
    ExampleParents();
  }

  /** No directory of `/ctx` is counted, so the count is 1. */
  lemma ExampleCount()
    ensures ContextCount(ExampleFs, ExampleBase, ContextDirPrefix) == 1
  {
    ExampleGroupDirString();
    NoContextInDefault();
    forall p | p in ExampleFs.entries && Parent(p) == Some(ExampleBase)
      ensures !Contains(ToString(p), ContextDirPrefix)
    {
      ExampleOnlyChild(p);
    }
    CountWithoutMatches(ExampleFs, ExampleBase, ContextDirPrefix);
  }

  /** `/ctx` resolved against `default` and `cx.1` is the existing context. */
  lemma ExampleResolve()
    ensures Resolve(Resolve(ExampleBase, "default"), ContextDirPrefix + NatToString(1)) == ExampleContext
  {
    assert NatToString(1) == "1";
    assert ContextDirPrefix + "1" == "cx.1";
    assert IsName("default");
    ContextNameIsName(1);
    ResolveName(ExampleBase, "default");
    assert ExampleBase.names + ["default"] == ExampleGroupDir.names;
    ResolveName(ExampleGroupDir, "cx.1");
    assert ExampleGroupDir.names + ["cx.1"] == ExampleContext.names;
  }

  lemma ExampleAncestors()
    ensures Ancestors(ExampleContext) == {ExampleBase, ExampleGroupDir, ExampleContext}
  {
    var c := ExampleContext;
    assert c.names[..1] == ["ctx"] && c.names[..2] == ["ctx", "default"] && c.names[..3] == c.names;
  }

  /** `cx.1` already exists, so creating it changes nothing. */
  lemma ExampleCreate(now: int)
    ensures CreateDirectories(ExampleFs, ExampleContext, now) == Ok(ExampleFs)
  {
    ExampleAncestors();
    assert CreateDirectories(ExampleFs, ExampleContext, now).value.entries == ExampleFs.entries;
  }

  /** One call, for a group that is still empty, hands out `cx.1` and leaves the group empty. */
  lemma ExampleCall(groups: map<string, ContextGroup>, now: int)
    requires GroupOf(groups, "default") == NewGroup("default")
    ensures SequentialAsWritten(groups, ExampleFs, ExampleBase, "default", 10, [ExampleGroupDir], now)
         == (groups["default" := NewGroup("default")], Ok(Allocation(ExampleFs, ExampleContext)))
  {
    ExampleCount();
    ExampleResolve();
    ExampleCreate(now);
    AsWrittenGroupNeverGrows(NewGroup("default"), ExampleFs, [ExampleGroupDir]);
  }

  /**
   * The discrepancy in one example: with `/ctx/default/cx.1` already there, two successive
   * calls for group `default` hand out the same `/ctx/default/cx.1`, and the group stays empty,
   * so the cap is never reached.
   */
  lemma AsWrittenRepeatsPath()
    ensures var (groups1, r1) := SequentialAsWritten(map[], ExampleFs, ExampleBase, "default", 10, [ExampleGroupDir], 1);
      var (groups2, r2) := SequentialAsWritten(groups1, ExampleFs, ExampleBase, "default", 10, [ExampleGroupDir], 2);
      && r1 == Ok(Allocation(ExampleFs, ExampleContext)) && r2 == r1
      && groups2 == groups1 == map["default" := NewGroup("default")]
  {
    ExampleCall(map[], 1);
    ExampleCall(map["default" := NewGroup("default")], 2);
  }

  // ---------------------------------------------------------------------------------------
  // The sequential allocator, corrected
  // ---------------------------------------------------------------------------------------

  /** The context directories directly in dir. */
  function ContextDirsIn(fs: FileSystem, dir: Path): set<Path>
  {
    set p | p in fs.entries && Parent(p) == Some(dir) && fs.entries[p].isDirectory && IsContextName(FileName(p))
  }

  /** The path of the n-th context of a group directory. */
  function ContextPath(groupDir: Path, n: nat): Path
  {
    Resolve(groupDir, ContextDirPrefix + NatToString(n))
  }

  /**
   * `computeNextSequentialContextDir0` as evidently intended: create the group directory, count
   * and list the contexts inside it, and at the cap hand out the group's next path, else
   * create and hand out `baseDir/group/cx.<count>`. listing is the order in which
   * `listDirectoryEntries` returns the group directory's entries.
   */
  ghost function Sequential(groups: map<string, ContextGroup>, fs: FileSystem, baseDir: Path, group: string,
                            maxContexts: int, listing: seq<Path>, now: int): (map<string, ContextGroup>, Result<Allocation, FsError>)
  {
    var groupDir := Resolve(baseDir, group);
    match CreateDirectories(fs, groupDir, now)
    case Err(e) => (groups, Err(e))
    case Ok(fs1) =>
      var count := 1 + |ContextDirsIn(fs1, groupDir)|;
      var g := AddListed(GroupOf(groups, group), fs1, listing, false);
      if |g.paths| >= maxContexts then
        var (r, g1) := Next(g);
        (groups[group := g1], if r.Some? then Ok(Allocation(fs1, r.value)) else Err(NoSuchElement))
      else
        var path := ContextPath(groupDir, count);
        (groups[group := g],
         match CreateDirectories(fs1, path, now)
         case Err(e) => Err(e)
         case Ok(fs2) => Ok(Allocation(fs2, path)))
  }

  /** The contexts cx.1 to cx.k of a group directory. */
  ghost function Numbered(groupDir: Path, k: nat): set<Path>
  {
    set i | 1 <= i <= k :: ContextPath(groupDir, i)
  }

  /**
   * The group directory holds exactly the contexts cx.1 to cx.k as directories, and no file
   * with a context name.
   */
  ghost predicate Dense(fs: FileSystem, groupDir: Path, k: nat)
  {
    && ContextDirsIn(fs, groupDir) == Numbered(groupDir, k)
    && forall p :: p in fs.entries && Parent(p) == Some(groupDir) && IsContextName(FileName(p)) ==> fs.entries[p].isDirectory
  }

  /** The n-th context is a directory directly in the group directory, with a context name. */
  lemma ContextPathFacts(groupDir: Path, n: nat)
    requires groupDir.names != []
    ensures ContextPath(groupDir, n) == Path(groupDir.absolute, groupDir.names + [ContextDirPrefix + NatToString(n)])
    ensures Parent(ContextPath(groupDir, n)) == Some(groupDir)
    ensures IsContextName(FileName(ContextPath(groupDir, n)))
  {
    ContextNameIsName(n);
    ResolveName(groupDir, ContextDirPrefix + NatToString(n));
  }

  /** Different numbers name different contexts. */
  lemma ContextPathInjective(groupDir: Path, a: nat, b: nat)
    requires groupDir.names != [] && ContextPath(groupDir, a) == ContextPath(groupDir, b)
    ensures a == b
  {
    ContextPathFacts(groupDir, a);
    ContextPathFacts(groupDir, b);
    var sa, sb := ContextDirPrefix + NatToString(a), ContextDirPrefix + NatToString(b);
    assert sa == ContextPath(groupDir, a).names[|groupDir.names|];
    assert sa == sb;
    assert NatToString(a) == sa[3..] == sb[3..] == NatToString(b);
    NatToStringInjective(a, b);
  }

  lemma {:induction false} NumberedCard(groupDir: Path, k: nat)
    requires groupDir.names != []
    ensures |Numbered(groupDir, k)| == k
  {
    if k > 0 {
      NumberedCard(groupDir, k - 1);
      assert Numbered(groupDir, k) == Numbered(groupDir, k - 1) + {ContextPath(groupDir, k)};
      if ContextPath(groupDir, k) in Numbered(groupDir, k - 1) {
        var i :| 1 <= i <= k - 1 && ContextPath(groupDir, i) == ContextPath(groupDir, k);
        ContextPathInjective(groupDir, i, k);
      }
    }
  }

  /** A sequence of distinct elements, all in s, is no longer than s is large. */
  lemma {:induction false} DistinctWithin(xs: seq<Path>, s: set<Path>)
    requires forall i, j :: 0 <= i < j < |xs| ==> xs[i] != xs[j]
    requires forall x :: x in xs ==> x in s
    ensures |xs| <= |s|
    decreases |xs|
  {
    if xs != [] {
      var last := xs[|xs| - 1];
      var init := xs[..|xs| - 1];
      assert forall x :: x in init ==> x in xs;
      assert last !in init;
      DistinctWithin(init, s - {last});
    }
  }

  /** The prefixes of a child are those of its directory, and the child. */
  lemma AncestorsOfChild(dir: Path, name: string)
    ensures Ancestors(Path(dir.absolute, dir.names + [name])) == Ancestors(dir) + {Path(dir.absolute, dir.names + [name])}
  {
    var c := Path(dir.absolute, dir.names + [name]);
    forall q | q in Ancestors(c) ensures q in Ancestors(dir) + {c} {
      var i :| 1 <= i <= |c.names| && q == Path(c.absolute, c.names[..i]);
      if i <= |dir.names| {
        assert c.names[..i] == dir.names[..i];
      } else {
        assert c.names[..i] == c.names;
      }
    }
    forall q | q in Ancestors(dir) + {c} ensures q in Ancestors(c) {
      if q == c {
        assert c.names[..|c.names|] == c.names;
      } else {
        var i :| 1 <= i <= |dir.names| && q == Path(dir.absolute, dir.names[..i]);
        assert c.names[..i] == dir.names[..i];
      }
    }
  }

  /** Creating the group directory adds no entry inside it. */
  lemma CreateGroupKeepsContexts(fs: FileSystem, groupDir: Path, now: int)
    requires CreateDirectories(fs, groupDir, now).Ok?
    ensures var fs1 := CreateDirectories(fs, groupDir, now).value;
      && ContextDirsIn(fs1, groupDir) == ContextDirsIn(fs, groupDir)
      && (forall p :: p in fs1.entries && Parent(p) == Some(groupDir) ==> p in fs.entries && fs1.entries[p] == fs.entries[p])
  {
    var fs1 := CreateDirectories(fs, groupDir, now).value;
    CreateDirectoriesFacts(fs, groupDir, now);
    forall p | p in fs1.entries && Parent(p) == Some(groupDir)
      ensures p in fs.entries && fs1.entries[p] == fs.entries[p]
    {
      if p !in fs.entries {
        assert false;
      }
    }
  }

  /** Creating a missing child of an existing directory adds exactly that directory. */
  lemma CreateChild(fs: FileSystem, dir: Path, name: string, now: int)
    requires Path(dir.absolute, dir.names + [name]) !in fs.entries
    requires forall q :: q in Ancestors(dir) ==> IsDir(fs, q)
    ensures var c := Path(dir.absolute, dir.names + [name]);
      CreateDirectories(fs, c, now) == Ok(FileSystem(fs.entries[c := Entry(true, now)]))
  {
    var c := Path(dir.absolute, dir.names + [name]);
    AncestorsOfChild(dir, name);
    assert CreateDirectories(fs, c, now).value.entries == fs.entries[c := Entry(true, now)];
  }

  /** In a dense group directory cx.(k + 1) is not there yet. */
  lemma NextContextAbsent(fs: FileSystem, groupDir: Path, k: nat)
    requires groupDir.names != [] && Dense(fs, groupDir, k)
    ensures ContextPath(groupDir, k + 1) !in fs.entries
  {
    var p := ContextPath(groupDir, k + 1);
    ContextPathFacts(groupDir, k + 1);
    if p in fs.entries {
      assert p in ContextDirsIn(fs, groupDir);
      var i :| 1 <= i <= k && ContextPath(groupDir, i) == p;
      ContextPathInjective(groupDir, i, k + 1);
    }
  }

  /** A new context directory joins the contexts of its directory. */
  lemma ContextDirsAdd(fs: FileSystem, dir: Path, p: Path, now: int)
    requires Parent(p) == Some(dir) && IsContextName(FileName(p))
    ensures ContextDirsIn(FileSystem(fs.entries[p := Entry(true, now)]), dir) == ContextDirsIn(fs, dir) + {p}
  {
  }

  lemma NumberedStep(groupDir: Path, k: nat)
    ensures Numbered(groupDir, k + 1) == Numbered(groupDir, k) + {ContextPath(groupDir, k + 1)}
  {
  }

  /** Adding cx.(k + 1) as a directory keeps the group directory dense. */
  lemma DenseGrows(fs: FileSystem, groupDir: Path, k: nat, now: int)
    requires groupDir.names != [] && Dense(fs, groupDir, k)
    ensures Dense(FileSystem(fs.entries[ContextPath(groupDir, k + 1) := Entry(true, now)]), groupDir, k + 1)
  {
    var p := ContextPath(groupDir, k + 1);
    ContextPathFacts(groupDir, k + 1);
    ContextDirsAdd(fs, groupDir, p, now);
    NumberedStep(groupDir, k);
  }

  /** Creating cx.(k + 1) in a dense group directory adds exactly that directory, and keeps it dense. */
  lemma CreateNextContext(fs: FileSystem, groupDir: Path, k: nat, now: int)
    requires groupDir.names != [] && Dense(fs, groupDir, k)
    requires forall q :: q in Ancestors(groupDir) ==> IsDir(fs, q)
    ensures var p := ContextPath(groupDir, k + 1);
      && CreateDirectories(fs, p, now) == Ok(FileSystem(fs.entries[p := Entry(true, now)]))
      && Dense(FileSystem(fs.entries[p := Entry(true, now)]), groupDir, k + 1)
  {
    ContextPathFacts(groupDir, k + 1);
    NextContextAbsent(fs, groupDir, k);
    CreateChild(fs, groupDir, ContextDirPrefix + NatToString(k + 1), now);
    DenseGrows(fs, groupDir, k, now);
  }

  /**
   * A group made of existing contexts, with the group directory's listing added, is still made
   * of existing contexts, holds each once, and is no larger than the number of contexts.
   */
  lemma ListedWithin(g: ContextGroup, fs: FileSystem, groupDir: Path, listing: seq<Path>, k: nat)
    requires groupDir.names != [] && Dense(fs, groupDir, k)
    requires GroupInv(g) && forall q :: q in g.paths ==> q in ContextDirsIn(fs, groupDir)
    requires forall q :: q in listing ==> Parent(q) == Some(groupDir)
    ensures var g1 := AddListed(g, fs, listing, false);
      && GroupInv(g1) && |g1.paths| <= k
      && forall q :: q in g1.paths ==> q in ContextDirsIn(fs, groupDir)
  {
    var g1 := AddListed(g, fs, listing, false);
    AddListedFacts(g, fs, listing, false);
    NumberedCard(groupDir, k);
    DistinctWithin(g1.paths, ContextDirsIn(fs, groupDir));
  }

  /** The precondition under which the corrected allocator hands out cx.1, cx.2, ... in turn. */
  ghost predicate Ready(groups: map<string, ContextGroup>, fs: FileSystem, groupDir: Path, group: string, k: nat)
  {
    && Dense(fs, groupDir, k)
    && GroupInv(GroupOf(groups, group))
    && forall q :: q in GroupOf(groups, group).paths ==> q in ContextDirsIn(fs, groupDir)
  }

  /**
   * Below the cap, the corrected allocator hands out the next number: with cx.1 to cx.k in
   * the group directory and k below the cap, it creates and returns cx.(k + 1), removes
   * nothing, and leaves the state ready for cx.(k + 2).
   */
  lemma SequentialAllocatesNext(groups: map<string, ContextGroup>, fs: FileSystem, baseDir: Path, group: string,
                                maxContexts: int, listing: seq<Path>, now: int, k: nat)
    requires IsName(group) && CreateDirectories(fs, Resolve(baseDir, group), now).Ok?
    requires Ready(groups, fs, Resolve(baseDir, group), group, k) && k < maxContexts
    requires forall q :: q in listing ==> Parent(q) == Some(Resolve(baseDir, group))
    ensures var groupDir := Resolve(baseDir, group);
      var (groups1, r) := Sequential(groups, fs, baseDir, group, maxContexts, listing, now);
      && r.Ok? && r.value.path == ContextPath(groupDir, k + 1) && IsDir(r.value.fs, r.value.path)
      && (forall q :: q in fs.entries ==> q in r.value.fs.entries)
      && Ready(groups1, r.value.fs, groupDir, group, k + 1)
  {
    var groupDir := Resolve(baseDir, group);
    ResolveName(baseDir, group);
    var fs1 := CreateDirectories(fs, groupDir, now).value;
    CreateDirectoriesFacts(fs, groupDir, now);
    CreateGroupKeepsContexts(fs, groupDir, now);
    assert Dense(fs1, groupDir, k);
    var g0 := GroupOf(groups, group);
    ListedWithin(g0, fs1, groupDir, listing, k);
    NumberedCard(groupDir, k);
    CreateNextContext(fs1, groupDir, k, now);
    var g := AddListed(g0, fs1, listing, false);
    var p := ContextPath(groupDir, k + 1);
    var fs2 := FileSystem(fs1.entries[p := Entry(true, now)]);
    assert Sequential(groups, fs, baseDir, group, maxContexts, listing, now) == (groups[group := g], Ok(Allocation(fs2, p)));
    assert ContextDirsIn(fs1, groupDir) <= ContextDirsIn(fs2, groupDir);
  }

  /**
   * At the cap, the corrected allocator creates no context: it hands out an existing context
   * of the group, or fails for a group that is still empty.
   */
  lemma SequentialAtCapReuses(groups: map<string, ContextGroup>, fs: FileSystem, baseDir: Path, group: string,
                              maxContexts: int, listing: seq<Path>, now: int, k: nat)
    requires IsName(group) && CreateDirectories(fs, Resolve(baseDir, group), now).Ok?
    requires Ready(groups, fs, Resolve(baseDir, group), group, k)
    requires forall q :: q in listing ==> Parent(q) == Some(Resolve(baseDir, group))
    requires |AddListed(GroupOf(groups, group), CreateDirectories(fs, Resolve(baseDir, group), now).value, listing, false).paths| >= maxContexts
    ensures var groupDir := Resolve(baseDir, group);
      var (groups1, r) := Sequential(groups, fs, baseDir, group, maxContexts, listing, now);
      && (r.Ok? ==> r.value.path in ContextDirsIn(fs, groupDir) && ContextDirsIn(r.value.fs, groupDir) == ContextDirsIn(fs, groupDir))
      && (r.Err? ==> r.error == NoSuchElement && maxContexts <= 0)
  {
    var groupDir := Resolve(baseDir, group);
    ResolveName(baseDir, group);
    var fs1 := CreateDirectories(fs, groupDir, now).value;
    CreateGroupKeepsContexts(fs, groupDir, now);
    var g0 := GroupOf(groups, group);
    ListedWithin(g0, fs1, groupDir, listing, k);
  }

  // ---------------------------------------------------------------------------------------
  // The object
  // ---------------------------------------------------------------------------------------

  /**
   * The `BrowserFiles` object: the context groups and the ledger of cleaned user-data
   * directories, with the two directories it works in.
   */
  class BrowserFiles {
    var contextGroups: map<string, ContextGroup>
    var cleanedUserDataDirs: set<Path>
    const contextTmpDir: Path
    const contextGroupBaseDir: Path

    constructor(contextTmpDir: Path, contextGroupBaseDir: Path)
      ensures contextGroups == map[] && cleanedUserDataDirs == {}
      ensures this.contextTmpDir == contextTmpDir && this.contextGroupBaseDir == contextGroupBaseDir
    {
      this.contextTmpDir := contextTmpDir;
      this.contextGroupBaseDir := contextGroupBaseDir;
      contextGroups := map[];
      cleanedUserDataDirs := {};
    }

    /** `deleteTemporaryUserDataDir0`; remaining are the entries the deletion fails to remove. */
    method DeleteTemporaryUserDataDir(fs: FileSystem, dir: Path, expiry: int, now: int, remaining: set<Path>)
      returns (r: Result<FileSystem, FsError>)
      modifies this
      ensures (cleanedUserDataDirs, r) == DeleteSpec(old(cleanedUserDataDirs), fs, dir, contextTmpDir, expiry, now, remaining)
      ensures contextGroups == old(contextGroups)
    {
      if dir in cleanedUserDataDirs {
        return Ok(fs);
      }
      if !StartsWith(dir, contextTmpDir) {
        return Ok(fs);
      }
      if dir !in fs.entries {
        return Err(NoSuchFile(dir));
      }
      if !IsExpired(fs.entries[dir].mtime, expiry, now) {
        return Ok(fs);
      }
      if !HasSiblingPidFile(fs, dir) {
        return Ok(fs);
      }
      var fs1 := DeleteQuietly(fs, dir, remaining);
      if dir !in fs1.entries {
        cleanedUserDataDirs := cleanedUserDataDirs + {dir};
      }
      return Ok(fs1);
    }

    /** `cleanUpContextTmpDir`; walk is the walk order and remaining what deletion fails to remove. */
    method CleanUpContextTmpDir(fs: FileSystem, walk: seq<Path>, expiry: int, now: int, remaining: set<Path>)
      returns (r: Result<FileSystem, FsError>)
      modifies this
      ensures (cleanedUserDataDirs, r) == CleanUpSpec(old(cleanedUserDataDirs), fs, walk, contextTmpDir, expiry, now, remaining)
      ensures contextGroups == old(contextGroups)
    {
      if contextTmpDir !in fs.entries {
        return Err(NoSuchFile(contextTmpDir));
      }
      var cur := fs;
      var i := 0;
      while i < |walk|
        invariant 0 <= i <= |walk|
        invariant contextGroups == old(contextGroups)
        invariant SweepFrom(cleanedUserDataDirs, cur, walk[i..], contextTmpDir, expiry, now, remaining)
               == SweepFrom(old(cleanedUserDataDirs), fs, walk, contextTmpDir, expiry, now, remaining)
      {
        assert walk[i..][0] == walk[i] && walk[i..][1..] == walk[i + 1..];
        if IsCandidate(cur, cleanedUserDataDirs, walk[i]) {
          var d := DeleteTemporaryUserDataDir(cur, walk[i], expiry, now, remaining);
          if d.Err? {
            return d;
          }
          cur := d.value;
        }
        i := i + 1;
      }
      return Ok(cur);
    }

    /**
     * `computeNextSequentialContextDir0`, corrected as in `Sequential`; listing is the order of
     * the group directory's entries.
     */
    method ComputeNextSequentialContextDir(fs: FileSystem, group: string, maxContexts: int, listing: seq<Path>, now: int)
      returns (r: Result<Allocation, FsError>)
      modifies this
      ensures (contextGroups, r) == Sequential(old(contextGroups), fs, contextGroupBaseDir, group, maxContexts, listing, now)
      ensures cleanedUserDataDirs == old(cleanedUserDataDirs)
    {
      var groupDir := Resolve(contextGroupBaseDir, group);
      var created := CreateDirectories(fs, groupDir, now);
      if created.Err? {
        return Err(created.error);
      }
      var fs1 := created.value;
      var count := 1 + |ContextDirsIn(fs1, groupDir)|;
      var g0 := GroupOf(contextGroups, group);
      var g := g0;
      var i := 0;
      while i < |listing|
        invariant 0 <= i <= |listing|
        invariant g == AddListed(g0, fs1, listing[..i], false)
      {
        assert listing[..i + 1][..i] == listing[..i];
        if Listed(fs1, listing[i], false) {
          g := Add(g, listing[i]);
        }
        i := i + 1;
      }
      assert listing[..i] == listing;
      if |g.paths| >= maxContexts {
        var (next, g1) := Next(g);
        contextGroups := contextGroups[group := g1];
        if next.None? {
          return Err(NoSuchElement);
        }
        return Ok(Allocation(fs1, next.value));
      }
      contextGroups := contextGroups[group := g];
      var path := ContextPath(groupDir, count);
      var made := CreateDirectories(fs1, path, now);
      if made.Err? {
        return Err(made.error);
      }
      return Ok(Allocation(made.value, path));
    }
  }
}
