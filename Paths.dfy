/**
 * Unix file-system paths as the JVM's Path type treats them: an absolute flag and a
 * list of non-empty names. Parsing drops empty names, so "a//b/" is the path a/b.
 */
module Paths {
  import opened Wrappers

  datatype Path = Path(absolute: bool, names: seq<string>)

  /** A single path element: non-empty and without a separator. */
  predicate IsName(s: string) { s != "" && '/' !in s }

  ghost predicate WellFormed(p: Path) { forall i :: 0 <= i < |p.names| ==> IsName(p.names[i]) }

  /** Splits s at '/', keeping the non-empty pieces; cur is the piece read so far. */
  function SplitFrom(s: string, cur: string): (r: seq<string>)
    requires '/' !in cur
    ensures forall i :: 0 <= i < |r| ==> IsName(r[i])
    decreases |s|
  {
    if s == [] then (if cur == "" then [] else [cur])
    else if s[0] == '/' then (if cur == "" then [] else [cur]) + SplitFrom(s[1..], "")
    else SplitFrom(s[1..], cur + [s[0]])
  }

  /** `Paths.get(s)`. */
  function Parse(s: string): (p: Path)
    ensures WellFormed(p)
  {
    Path(|s| > 0 && s[0] == '/', SplitFrom(s, ""))
  }

  /** `p.resolve(other)`: an absolute other replaces p, an empty one leaves p, anything else is appended. */
  function Resolve(p: Path, other: string): Path
  {
    var q := Parse(other);
    if q.absolute then q else Path(p.absolute, p.names + q.names)
  }

  /** `p.getParent()`: null for the root and for a one-name relative path. */
  function Parent(p: Path): Option<Path>
  {
    if p.names == [] || (!p.absolute && |p.names| == 1) then None
    else Some(Path(p.absolute, p.names[..|p.names| - 1]))
  }

  /** `p.resolveSibling(other)`. */
  function ResolveSibling(p: Path, other: string): Path
  {
    match Parent(p)
    case None => Parse(other)
    case Some(q) => Resolve(q, other)
  }

  /** `p.startsWith(q)`: compares whole names, and an absolute path never starts with a relative one. */
  predicate StartsWith(p: Path, q: Path)
  {
    p.absolute == q.absolute && |q.names| <= |p.names| && p.names[..|q.names|] == q.names
  }

  function Join(names: seq<string>): string
    decreases |names|
  {
    if names == [] then "" else if |names| == 1 then names[0]
    else Join(names[..|names| - 1]) + "/" + names[|names| - 1]
  }

  /** `p.toString()`. */
  function ToString(p: Path): string
  {
    (if p.absolute then "/" else "") + Join(p.names)
  }

  /** Splitting a string without separators, given a partial name, yields one name. */
  lemma {:induction false} SplitName(s: string, cur: string)
    requires '/' !in s && '/' !in cur && cur + s != ""
    ensures SplitFrom(s, cur) == [cur + s]
    decreases |s|
  {
    if s == [] {
      assert cur + s == cur;
    } else {
      assert s[0] in s;
      assert s == [s[0]] + s[1..];
      SplitName(s[1..], cur + [s[0]]);
      assert cur + [s[0]] + s[1..] == cur + s;
    }
  }

  /** A single name parses to the relative path holding just that name. */
  lemma ParseName(s: string)
    requires IsName(s)
    ensures Parse(s) == Path(false, [s])
  {
    SplitName(s, "");
    assert "" + s == s;
  }

  /** Resolving a single name appends it, and the result's parent is p (unless p is the empty path). */
  lemma ResolveName(p: Path, s: string)
    requires IsName(s)
    ensures Resolve(p, s) == Path(p.absolute, p.names + [s])
    ensures p.absolute || p.names != [] ==> Parent(Resolve(p, s)) == Some(p)
  {
    ParseName(s);
    assert (p.names + [s])[..|p.names|] == p.names;
  }

  /** A path resolved from p starts with p, unless the resolved part was absolute. */
  lemma ResolveStartsWith(p: Path, other: string)
    requires other == [] || other[0] != '/'
    ensures StartsWith(Resolve(p, other), p)
  {
    var q := Parse(other);
    assert (p.names + q.names)[..|p.names|] == p.names;
  }

  /** Every path starts with itself, so "starts with" is not "strictly inside". */
  lemma StartsWithReflexive(p: Path)
    ensures StartsWith(p, p)
  {
  }

  /** An absolute path never starts with a relative one, whatever its names. */
  lemma AbsoluteNeverStartsWithRelative(p: Path, q: Path)
    requires p.absolute && !q.absolute
    ensures !StartsWith(p, q)
  {
  }

  /** "Starts with" is transitive: a path under q, with q under r, is under r. */
  lemma StartsWithTransitive(p: Path, q: Path, r: Path)
    requires StartsWith(p, q) && StartsWith(q, r)
    ensures StartsWith(p, r)
  {
    assert p.names[..|r.names|] == p.names[..|q.names|][..|r.names|];
  }

  /** `p.fileName.toString()`: the last name, or "" for a path without names. */
  function FileName(p: Path): string
  {
    if p.names == [] then "" else p.names[|p.names| - 1]
  }
}
