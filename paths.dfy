/**
 * Path manipulation used to name scenes: `Path.GetFileNameWithoutExtension`
 * and a case-insensitive `EndsWith`.
 *
 * Both '/' and '\' count as directory separators (the Windows behaviour of
 * the .NET path functions); the volume separator ':' is not treated
 * specially. Case folding covers ASCII letters only.
 */
module ScenePaths {

  predicate IsSeparator(c: char) {
    c == '/' || c == '\\'
  }

  /** The index just after the last directory separator of `p`, or 0 when there is none. */
  function FileNameStart(p: string): (k: nat)
    ensures k <= |p|
    ensures forall i :: k <= i < |p| ==> !IsSeparator(p[i])
    ensures k > 0 ==> IsSeparator(p[k - 1])
  {
    if |p| == 0 then 0
    else if IsSeparator(p[|p| - 1]) then |p|
    else FileNameStart(p[..|p| - 1])
  }

  /** The index of the last '.' in `n`, or -1 when there is none (`LastIndexOf('.')`). */
  function LastDot(n: string): (k: int)
    ensures -1 <= k < |n|
    ensures k >= 0 ==> n[k] == '.'
    ensures forall i :: k < i < |n| ==> n[i] != '.'
  {
    if |n| == 0 then -1
    else if n[|n| - 1] == '.' then |n| - 1
    else LastDot(n[..|n| - 1])
  }

  /** `Path.GetFileName`: the part of `p` after its last separator. */
  function FileName(p: string): (r: string)
    ensures forall c :: c in r ==> !IsSeparator(c)
    ensures |r| <= |p| && r == p[|p| - |r|..]
  {
    p[FileNameStart(p)..]
  }

  /**
   * `Path.GetFileNameWithoutExtension`: the file name with everything from
   * its last '.' on removed; a name without '.' is returned whole.
   */
  function FileNameWithoutExtension(p: string): (r: string)
    ensures forall c :: c in r ==> !IsSeparator(c)
    ensures r <= FileName(p)
  {
    var n := FileName(p);
    var k := LastDot(n);
    if k < 0 then n else n[..k]
  }

  /** ASCII case folding, as used by `StringComparison.OrdinalIgnoreCase`. */
  function ToLower(c: char): char {
    if 'A' <= c <= 'Z' then (c as int - 'A' as int + 'a' as int) as char else c
  }

  /** `s.EndsWith(suffix, StringComparison.OrdinalIgnoreCase)`. */
  predicate EndsWithIgnoreCase(s: string, suffix: string) {
    |suffix| <= |s| &&
    forall i :: 0 <= i < |suffix| ==> ToLower(s[|s| - |suffix| + i]) == ToLower(suffix[i])
  }

  /**
   * The name of a scene stored at `dir/stem.unity` is `stem`, whatever the
   * directory and even when the stem itself contains dots.
   */
  lemma {:induction false} SceneNameOfAssetPath(dir: string, stem: string)
    requires forall c :: c in stem ==> !IsSeparator(c)
    ensures FileNameWithoutExtension(dir + "/" + stem + ".unity") == stem
  {
    var p := dir + "/" + stem + ".unity";
    var k := FileNameStart(p);
    assert IsSeparator(p[|dir|]);
    assert k > |dir|;
    forall i | |dir| < i < |p| ensures !IsSeparator(p[i]) {
      if i <= |dir| + |stem| {
        assert p[i] == stem[i - |dir| - 1];
      } else {
        assert p[i] == ".unity"[i - |dir| - |stem| - 1];
      }
    }
    assert k == |dir| + 1;
    var n := FileName(p);
    assert n == stem + ".unity";
    var d := LastDot(n);
    assert n[|stem|] == '.';
    forall i | |stem| < i < |n| ensures n[i] != '.' {
      assert n[i] == ".unity"[i - |stem|];
    }
    assert d == |stem|;
    assert n[..d] == stem;
  }

  /** A file name without separators and without '.' is its own name without extension. */
  lemma PlainNameIsKept(dir: string, name: string)
    requires forall c :: c in name ==> !IsSeparator(c) && c != '.'
    ensures FileNameWithoutExtension(dir + "/" + name) == name
  {
    var p := dir + "/" + name;
    assert IsSeparator(p[|dir|]);
    forall i | |dir| < i < |p| ensures !IsSeparator(p[i]) {
      assert p[i] == name[i - |dir| - 1];
    }
    assert FileNameStart(p) == |dir| + 1;
    assert FileName(p) == name;
  }

  /** The empty path has the empty name. */
  lemma EmptyPathHasEmptyName()
    ensures FileNameWithoutExtension("") == ""
  {
  }
}
