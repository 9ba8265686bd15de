/** POSIX `pathlib.PurePath`, as far as the orchestration layer relies on it:
    parsing a string into components, the `/` operator, `.name`, `.suffix`,
    `.stem` and `str()`. */
module Paths {

  /** A parsed path: whether it is rooted, and its components. */
  datatype Path = Path(absolute: bool, parts: seq<string>)

  /** A component as pathlib keeps it: never empty, never ".", no separator. */
  predicate IsComponent(s: string) {
    s != "" && s != "." && '/' !in s
  }

  predicate WellFormed(p: Path) {
    forall i | 0 <= i < |p.parts| :: IsComponent(p.parts[i])
  }

  /** Index of the first '/' in `s`, or |s| when there is none. */
  function SlashIndex(s: string): (i: nat)
    ensures i <= |s|
    ensures '/' !in s[..i]
    ensures i < |s| ==> s[i] == '/'
  {
    if s == [] then 0
    else if s[0] == '/' then 0
    else
      var j := SlashIndex(s[1..]);
      assert s[..j + 1] == [s[0]] + s[1..][..j];
      j + 1
  }

  /** The components of a path string: split on '/', dropping "" and ".". */
  function Components(s: string): (cs: seq<string>)
    ensures forall i | 0 <= i < |cs| :: IsComponent(cs[i])
    decreases |s|
  {
    if s == [] then []
    else
      var i := SlashIndex(s);
      var head := s[..i];
      var rest := if i < |s| then Components(s[i + 1..]) else [];
      if head == "" || head == "." then rest else [head] + rest
  }

  /** `PurePosixPath(s)`. */
  function Parse(s: string): (p: Path)
    ensures WellFormed(p)
  {
    Path(|s| > 0 && s[0] == '/', Components(s))
  }

  /** `p / s`: an absolute right-hand side replaces the left. */
  function Join(p: Path, s: string): Path {
    var q := Parse(s);
    if q.absolute then q else Path(p.absolute, p.parts + q.parts)
  }

  /** `p.name`: the last component, "" for a root or an empty path. */
  function Name(p: Path): string {
    if p.parts == [] then "" else p.parts[|p.parts| - 1]
  }

  /** `p.parent` for a path with at least one component. */
  function Parent(p: Path): Path
    requires p.parts != []
  {
    Path(p.absolute, p.parts[..|p.parts| - 1])
  }

  /** Index of the last '.' in `s`, or -1. */
  function LastDot(s: string): (i: int)
    ensures -1 <= i < |s|
    ensures i >= 0 ==> s[i] == '.'
    ensures forall k | i < k < |s| :: s[k] != '.'
  {
    if s == [] then -1
    else if s[|s| - 1] == '.' then |s| - 1
    else LastDot(s[..|s| - 1])
  }

  /** `.suffix` of a name: from the last dot on, when that dot is neither
      the first nor the last character; otherwise "". */
  function Suffix(name: string): (r: string)
    ensures r == "" || (r[0] == '.' && forall k | 0 < k < |r| :: r[k] != '.')
    ensures |r| <= |name| && r == name[|name| - |r|..]
  {
    var i := LastDot(name);
    if 0 < i < |name| - 1 then name[i..] else ""
  }

  /** The suffix is non-empty exactly when the name has a dot, neither its
      first nor its last character, with no dot after it. */
  lemma SuffixWhen(name: string)
    ensures Suffix(name) != "" <==>
      exists i | 0 < i < |name| - 1 :: name[i] == '.' && '.' !in name[i + 1..]
  {
    var d := LastDot(name);
    if 0 < d < |name| - 1 {
      var after := name[d + 1..];
      assert '.' !in after by {
        forall k | 0 <= k < |after| ensures after[k] != '.' {
          assert after[k] == name[d + 1 + k];
        }
      }
    } else {
      forall i | 0 < i < |name| - 1 && name[i] == '.'
        ensures '.' in name[i + 1..]
      {
        assert d > i;
        assert name[i + 1..][d - i - 1] == '.';
      }
    }
  }

  /** `.stem` of a name: the name without its suffix. */
  function Stem(name: string): string {
    var i := LastDot(name);
    if 0 < i < |name| - 1 then name[..i] else name
  }

  /** `str(p)`. */
  function Text(p: Path): string {
    if p.parts == [] then (if p.absolute then "/" else ".")
    else (if p.absolute then "/" else "") + JoinParts(p.parts)
  }

  function JoinParts(parts: seq<string>): string
    requires parts != []
  {
    if |parts| == 1 then parts[0] else JoinParts(parts[..|parts| - 1]) + "/" + parts[|parts| - 1]
  }

  lemma StemAndSuffix(name: string)
    ensures Stem(name) + Suffix(name) == name
  {
  }

  /** A stem never holds a separator when its name does not. */
  lemma StemHasNoSlash(name: string)
    requires '/' !in name
    ensures '/' !in Stem(name)
  {
    var i := LastDot(name);
    if 0 < i < |name| - 1 {
      assert forall k | 0 <= k < i :: name[..i][k] == name[k];
    }
  }

  /** A single component parses to itself. */
  lemma ComponentParses(s: string)
    requires IsComponent(s)
    ensures Components(s) == [s]
  {
    assert s[..SlashIndex(s)] == s;
  }

  /** Joining a single component appends it: `dir / name` has that name and
      parent `dir`. */
  lemma JoinComponent(dir: Path, s: string)
    requires IsComponent(s)
    ensures Join(dir, s) == Path(dir.absolute, dir.parts + [s])
    ensures Name(Join(dir, s)) == s && Parent(Join(dir, s)) == dir
  {
    ComponentParses(s);
    assert s[0] != '/' by { assert s[0] in s; }
  }

  lemma JoinWellFormed(dir: Path, s: string)
    requires WellFormed(dir)
    ensures WellFormed(Join(dir, s))
  {
    var q := Parse(s);
    if !q.absolute {
      var parts := dir.parts + q.parts;
      forall i | 0 <= i < |parts| ensures IsComponent(parts[i]) {
        if i >= |dir.parts| { assert parts[i] == q.parts[i - |dir.parts|]; }
      }
    }
  }

  lemma NameOfWellFormed(p: Path)
    requires WellFormed(p)
    ensures '/' !in Name(p)
  {
  }
}
