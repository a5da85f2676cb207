/**
 * The two POSIX path operations the handler builds its names with:
 * `splitext` (root and extension of a path) and `join` (concatenation of
 * path components), with the semantics of Python's `posixpath` module.
 */
module PosixPath {

  /** A path that starts with the separator '/'. */
  predicate IsAbsolute(p: string)
  {
    |p| > 0 && p[0] == '/'
  }

  /** A path whose last character is the separator '/'. */
  predicate EndsWithSep(p: string)
  {
    |p| > 0 && p[|p| - 1] == '/'
  }

  /** `suffix` is the tail of `s`. */
  predicate EndsWith(s: string, suffix: string)
  {
    |suffix| <= |s| && s[|s| - |suffix|..] == suffix
  }

  /** Index of the last occurrence of `c` in `p`, or -1 when there is none (`str.rfind`). */
  function RFind(p: string, c: char): (i: int)
    ensures -1 <= i < |p|
    ensures 0 <= i ==> p[i] == c
    ensures forall k :: i < k < |p| ==> p[k] != c
  {
    if p == [] then -1
    else if p[|p| - 1] == c then |p| - 1
    else RFind(p[..|p| - 1], c)
  }

  /**
   * The loop of `splitext` that skips the leading dots of the final
   * component: true when some character of p[lo..hi] is not a dot.
   */
  function HasNonDot(p: string, lo: nat, hi: int): (r: bool)
    requires hi <= |p|
    ensures r <==> exists k :: lo <= k < hi && p[k] != '.'
    decreases hi - lo
  {
    lo < hi && (p[lo] != '.' || HasNonDot(p, lo + 1, hi))
  }

  /** The pair `os.path.splitext` returns. */
  datatype RootExt = RootExt(root: string, ext: string)

  /**
   * `os.path.splitext`: the extension starts at the last dot, provided that
   * dot lies after the last '/' and is preceded, within the final
   * component, by a character that is not a dot.
   */
  function SplitExt(p: string): (r: RootExt)
    ensures r.root + r.ext == p
    ensures r.ext != [] ==> r.ext[0] == '.' && '.' !in r.ext[1..] && '/' !in r.ext
    ensures p != [] ==> r.root != []
  {
    var sepIndex := RFind(p, '/');
    var dotIndex := RFind(p, '.');
    if dotIndex > sepIndex && HasNonDot(p, sepIndex + 1, dotIndex) then
      assert forall m :: 0 <= m < |p[dotIndex..]| ==> p[dotIndex..][m] == p[dotIndex + m];
      RootExt(p[..dotIndex], p[dotIndex..])
    else
      RootExt(p, [])
  }

  /** The final component of a path: what follows its last '/' (`os.path.basename`). */
  function BaseName(p: string): (r: string)
    ensures '/' !in r
    ensures EndsWith(p, r)
    ensures |r| < |p| ==> p[|p| - |r| - 1] == '/'
  {
    if p == [] || p[|p| - 1] == '/' then [] else BaseName(p[..|p| - 1]) + [p[|p| - 1]]
  }

  /** A file name has an extension when some dot in it follows a character that is not a dot. */
  ghost predicate HasExtension(name: string)
  {
    exists i, j :: 0 <= i < j < |name| && name[i] != '.' && name[j] == '.'
  }

  /**
   * Reference description of a root/extension split: the parts concatenate
   * back to the path, the extension is empty exactly when the final
   * component has no extension, and otherwise it is one dot followed by
   * neither a dot nor a separator.
   */
  ghost predicate IsExtSplit(p: string, root: string, ext: string)
  {
    && root + ext == p
    && (ext == [] <==> !HasExtension(BaseName(p)))
    && (ext != [] ==> ext[0] == '.' && '.' !in ext[1..] && '/' !in ext)
  }

  /** The final component is what follows the index `RFind` reports for '/'. */
  lemma BaseNameAfterLastSep(p: string)
    ensures BaseName(p) == p[RFind(p, '/') + 1..]
  {
    var r := BaseName(p);
    var s := RFind(p, '/');
    var t := |p| - |r|;
    assert r == p[t..];
    forall k | t <= k < |p|
      ensures p[k] != '/'
    {
      assert p[k] == r[k - t];
    }
    if t == 0 {
      assert s == -1;
    } else {
      assert p[t - 1] == '/';
      assert s == t - 1;
    }
  }

  /** A dot at `d` after a character that is not a dot, both after position `s`, makes an extension of `p[s + 1..]`. */
  lemma ExtensionAtDot(p: string, s: int, d: int)
    requires -1 <= s < d < |p| && p[d] == '.' && HasNonDot(p, s + 1, d)
    ensures HasExtension(p[s + 1..])
  {
    var name := p[s + 1..];
    var k :| s + 1 <= k < d && p[k] != '.';
    assert name[k - (s + 1)] == p[k] && name[d - (s + 1)] == p[d];
  }

  /** When `d` is the last dot and it does not follow a non-dot after `s`, `p[s + 1..]` has no extension. */
  lemma NoExtensionBeyond(p: string, s: int, d: int)
    requires -1 <= s < |p| && -1 <= d < |p|
    requires forall k :: d < k < |p| ==> p[k] != '.'
    requires !(d > s && HasNonDot(p, s + 1, d))
    ensures !HasExtension(p[s + 1..])
  {
    var name := p[s + 1..];
    forall i, j | 0 <= i < j < |name| && name[i] != '.'
      ensures name[j] != '.'
    {
      assert name[i] == p[s + 1 + i] && name[j] == p[s + 1 + j];
    }
  }

  /** `SplitExt` meets the reference description. */
  lemma SplitExtIsExtSplit(p: string)
    ensures IsExtSplit(p, SplitExt(p).root, SplitExt(p).ext)
  {
    BaseNameAfterLastSep(p);
    var s := RFind(p, '/');
    var d := RFind(p, '.');
    if d > s && HasNonDot(p, s + 1, d) {
      ExtensionAtDot(p, s, d);
    } else {
      NoExtensionBeyond(p, s, d);
    }
  }

  /** The reference description admits exactly one split: the one `SplitExt` computes. */
  lemma ExtSplitUnique(p: string, root: string, ext: string)
    requires IsExtSplit(p, root, ext)
    ensures SplitExt(p) == RootExt(root, ext)
  {
    SplitExtIsExtSplit(p);
    var e := SplitExt(p).ext;
    if ext != [] {
      assert e != [];
      assert ext == p[|p| - |ext|..] && e == p[|p| - |e|..];
      if |e| < |ext| {
        assert false;
      } else if |ext| < |e| {
        assert false;
      }
    }
  }

  /** One step of the loop of `os.path.join`: append part `b` to `path`. */
  function JoinStep(path: string, b: string): string
  {
    if IsAbsolute(b) then b
    else if path == [] || EndsWithSep(path) then path + b
    else path + "/" + b
  }

  /** `os.path.join(a, *parts)`. */
  function Join(a: string, parts: seq<string>): string
    decreases parts
  {
    if parts == [] then a else Join(JoinStep(a, parts[0]), parts[1..])
  }

  /** The joined path ends with the last part, and it extends `a` when no part is absolute. */
  lemma {:induction false} JoinExtends(a: string, parts: seq<string>)
    decreases parts
    ensures parts != [] ==> EndsWith(Join(a, parts), parts[|parts| - 1])
    ensures (forall k :: 0 <= k < |parts| ==> !IsAbsolute(parts[k])) ==> a <= Join(a, parts)
  {
    if parts != [] {
      var next := JoinStep(a, parts[0]);
      JoinExtends(next, parts[1..]);
      if |parts| == 1 {
        assert parts[1..] == [];
        assert EndsWith(next, parts[0]);
      } else {
        assert parts[1..][|parts| - 2] == parts[|parts| - 1];
      }
      if forall k :: 0 <= k < |parts| ==> !IsAbsolute(parts[k]) {
        assert !IsAbsolute(parts[0]);
        assert forall k :: 0 <= k < |parts[1..]| ==> parts[1..][k] == parts[k + 1];
        assert a <= next;
      }
    }
  }

  /** Joining a single part is one step of the join. */
  lemma JoinOne(a: string, b: string)
    ensures Join(a, [b]) == JoinStep(a, b)
  {
    assert [b][1..] == [];
  }

  /**
   * Joining a relative part keeps the path and puts exactly one '/' before
   * the part, unless the path is empty or already ends with '/'.
   */
  lemma JoinStepRelative(path: string, b: string)
    requires !IsAbsolute(b)
    ensures JoinStep(path, b) == path + (if path == [] || EndsWithSep(path) then "" else "/") + b
    ensures path != [] ==> EndsWith(JoinStep(path, b), "/" + b)
  {
    var r := JoinStep(path, b);
    if path == [] {
      assert r == path + "" + b;
    } else if EndsWithSep(path) {
      assert r == path + "" + b;
      assert r[|r| - |b| - 1..] == [path[|path| - 1]] + b;
    } else {
      assert r == path + ("/" + b);
    }
  }

  /** Joining a relative part to a path that ends in a component puts one '/' between them. */
  lemma JoinStepBelow(prefix: string, base: string, file: string)
    requires base != [] && !EndsWithSep(base) && !IsAbsolute(file)
    ensures JoinStep(prefix + base, file) == prefix + (base + "/" + file)
  {
    var dir := prefix + base;
    assert dir[|dir| - 1] == base[|base| - 1];
    assert dir + "/" + file == prefix + (base + "/" + file);
  }

  /** An absolute part discards everything joined before it. */
  lemma {:induction false} JoinRestartsAtAbsolute(a: string, parts: seq<string>, k: nat)
    decreases parts
    requires k < |parts| && IsAbsolute(parts[k])
    ensures Join(a, parts) == Join(parts[k], parts[k + 1..])
  {
    if k > 0 {
      JoinRestartsAtAbsolute(JoinStep(a, parts[0]), parts[1..], k - 1);
      assert parts[1..][k - 1 + 1..] == parts[k + 1..];
    }
  }

  /** `RFind` reports `i` when `c` stands at `i` and nowhere after it. */
  lemma RFindAt(p: string, c: char, i: int)
    requires -1 <= i < |p| && (0 <= i ==> p[i] == c)
    requires forall k :: i < k < |p| ==> p[k] != c
    ensures RFind(p, c) == i
  {
  }

  /** Worked cases of `os.path.splitext`: an ordinary extension, and only the last dot counts. */
  lemma SplitExtLastDot()
    ensures SplitExt("song.wav") == RootExt("song", ".wav")
    ensures SplitExt("a.b.mp3") == RootExt("a.b", ".mp3")
  {
    RFindAt("song.wav", '/', -1);
    RFindAt("song.wav", '.', 4);
    RFindAt("a.b.mp3", '/', -1);
    RFindAt("a.b.mp3", '.', 3);
  }

  /** Worked cases of `os.path.splitext`: leading dots and dots in directories are no extension. */
  lemma SplitExtLeadingDots()
    ensures SplitExt(".hidden") == RootExt(".hidden", "")
    ensures SplitExt("d.x/f") == RootExt("d.x/f", "")
    ensures SplitExt("..a.b") == RootExt("..a", ".b")
  {
    RFindAt(".hidden", '/', -1);
    RFindAt(".hidden", '.', 0);
    RFindAt("d.x/f", '/', 3);
    RFindAt("d.x/f", '.', 1);
    RFindAt("..a.b", '/', -1);
    RFindAt("..a.b", '.', 3);
  }
}
