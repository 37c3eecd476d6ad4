/** The parts of Node's `path` module (POSIX flavour) that main.js uses to
    name the output files of a run: `dirname`, `basename`, `extname` and
    `join`. */
module NodePath {

  /** Index of the last occurrence of `c` in `s`, or -1. */
  function LastIndexOf(s: string, c: char): (i: int)
    ensures -1 <= i < |s|
    ensures i >= 0 ==> s[i] == c
    ensures forall k :: i < k < |s| ==> s[k] != c
  {
    if |s| == 0 then -1
    else if s[|s| - 1] == c then |s| - 1
    else LastIndexOf(s[..|s| - 1], c)
  }

  /** `path.dirname`: everything before the last separator; "." when there is
      none and "/" when the only separator is the leading one. */
  function Dirname(p: string): string {
    var k := LastIndexOf(p, '/');
    if k < 0 then "." else if k == 0 then "/" else p[..k]
  }

  /** `path.basename`: everything after the last separator. */
  function Basename(p: string): string {
    p[LastIndexOf(p, '/') + 1..]
  }

  /** `path.extname`: the base name from its last dot on, unless that dot is
      the first character of the base name (".bashrc") or the base name is
      "..". */
  function Extname(p: string): string {
    var b := Basename(p);
    var d := LastIndexOf(b, '.');
    if d <= 0 || b == ".." then "" else b[d..]
  }

  /** `path.basename(p, path.extname(p))`: the base name without its
      extension. */
  function Stem(p: string): string {
    var b := Basename(p);
    b[..|b| - |Extname(p)|]
  }

  /** `path.join(dir, name)` for a single file name: "." is dropped and the
      root is not doubled. */
  function Join(dir: string, name: string): string {
    if dir == "." then name else if dir == "/" then "/" + name else dir + "/" + name
  }

  /** A base name never contains a separator. */
  lemma BasenameHasNoSeparator(p: string)
    ensures '/' !in Basename(p)
  {
    TailWithout(p, '/', LastIndexOf(p, '/'));
  }

  /** A character that does not occur after position `k` does not occur in
      the tail after `k`. */
  lemma TailWithout(s: string, c: char, k: int)
    requires -1 <= k < |s|
    requires forall j :: k < j < |s| ==> s[j] != c
    ensures c !in s[k + 1..]
  {
    var t := s[k + 1..];
    forall i | 0 <= i < |t| ensures t[i] != c {
      assert t[i] == s[k + 1 + i];
    }
  }

  /** The stem and the extension split the base name, and an extension, when
      there is one, starts with a dot that is not the first character. */
  lemma StemAndExtension(p: string)
    ensures Stem(p) + Extname(p) == Basename(p)
    ensures Extname(p) != "" ==> Extname(p)[0] == '.' && Stem(p) != ""
    ensures '/' !in Stem(p)
  {
    var b := Basename(p);
    BasenameHasNoSeparator(p);
    var e := Extname(p);
    var x := |b| - |e|;
    if e != "" {
      var d := LastIndexOf(b, '.');
      assert e == b[d..] && d > 0 && x == d;
    }
    assert e == b[x..];
    assert b[..x] + b[x..] == b;
    assert forall i :: 0 <= i < x ==> Stem(p)[i] == b[i];
  }

  lemma {:induction false} LastIndexOfAppended(a: string, c: char, b: string)
    requires c !in b
    ensures LastIndexOf(a + [c] + b, c) == |a|
  {
    var s := a + [c] + b;
    assert s[|a|] == c;
    assert forall k :: |a| < k < |s| ==> s[k] == b[k - |a| - 1];
  }

  /** A directory name is never empty. */
  lemma DirnameNonEmpty(p: string)
    ensures Dirname(p) != ""
  {
    var k := LastIndexOf(p, '/');
    if k > 0 {
      assert |p[..k]| == k;
    }
  }

  /** A plain name joined onto a directory lies in that directory and keeps
      its name. */
  lemma JoinedSibling(d: string, name: string)
    requires d != "" && '/' !in name
    ensures Dirname(Join(d, name)) == d
    ensures Basename(Join(d, name)) == name
  {
    if d == "." {
      PlainName(name);
    } else if d == "/" {
      UnderSeparator([], name);
    } else {
      UnderSeparator(d, name);
    }
  }

  /** A name without separators is its own base name, in ".". */
  lemma PlainName(name: string)
    requires '/' !in name
    ensures Dirname(name) == "." && Basename(name) == name
  {
    assert LastIndexOf(name, '/') == -1;
  }

  /** `d/name` splits at the separator written between them. */
  lemma UnderSeparator(d: string, name: string)
    requires '/' !in name
    ensures var j := d + ['/'] + name;
            LastIndexOf(j, '/') == |d| && j[..|d|] == d && j[|d| + 1..] == name
  {
    LastIndexOfAppended(d, '/', name);
    var j := d + ['/'] + name;
    assert j[..|d|] == d;
    assert j[|d| + 1..] == name;
  }

  /** A file joined onto the directory of `p` lies in that same directory
      and keeps its name: the output files of a run sit next to their
      input. */
  lemma SiblingInSameDirectory(p: string, name: string)
    requires '/' !in name
    ensures Dirname(Join(Dirname(p), name)) == Dirname(p)
    ensures Basename(Join(Dirname(p), name)) == name
  {
    DirnameNonEmpty(p);
    JoinedSibling(Dirname(p), name);
  }
}
