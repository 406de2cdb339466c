/**
 * The part of PHP's `pathinfo` that msexport relies on, for '/'-separated
 * paths, and the choice of the main score among the rootfiles that
 * META-INF/container.xml lists.
 */
module Paths {
  import opened Wrappers
  import opened Halts

  /** `a` is a prefix of `s`: PHP's `substr(s, 0, |a|) == a`. */
  predicate IsPrefix(a: string, s: string)
  {
    |a| <= |s| && s[..|a|] == a
  }

  /** Position of the last `c` among the first `n` characters of `s`, or -1 when they hold no `c`. */
  function LastIndexBelow(s: string, c: char, n: nat): (r: int)
    requires n <= |s|
    ensures -1 <= r < n
    ensures r >= 0 ==> s[r] == c
    ensures forall j :: r < j < n ==> s[j] != c
    decreases n
  {
    if n == 0 then -1
    else if s[n - 1] == c then n - 1
    else LastIndexBelow(s, c, n - 1)
  }

  /** Position of the last `c` in `s`, or -1 when `s` holds no `c`. */
  function LastIndexOf(s: string, c: char): (r: int)
    ensures -1 <= r < |s|
    ensures r >= 0 ==> s[r] == c
    ensures forall j :: r < j < |s| ==> s[j] != c
  {
    LastIndexBelow(s, c, |s|)
  }

  /** `pathinfo(p)['basename']`: what follows the last '/'. */
  function Basename(p: string): string
  {
    p[LastIndexOf(p, '/') + 1..]
  }

  /** `pathinfo(p)['dirname']`: what precedes the last '/', "." without one, "/" for a root entry. */
  function Dirname(p: string): string
  {
    var k := LastIndexOf(p, '/');
    if k == -1 then "." else if k == 0 then "/" else p[..k]
  }

  /** `pathinfo(p)['extension']`: what follows the last '.' of the basename; absent without a '.'. */
  function Extension(p: string): Option<string>
  {
    var b := Basename(p);
    var k := LastIndexOf(b, '.');
    if k == -1 then None else Some(b[k + 1..])
  }

  /** `pathinfo(p)['filename']`: the basename without its extension. */
  function Filename(p: string): string
  {
    var b := Basename(p);
    var k := LastIndexOf(b, '.');
    if k == -1 then b else b[..k]
  }

  /** The extension as PHP string concatenation sees it: an absent key reads as "". */
  function ExtensionText(p: string): string
  {
    match Extension(p)
    case Some(e) => e
    case None => ""
  }

  /**
   * A rootfile that holds the main score: extension `mscx`, and a dirname
   * whose first nine characters are not `Excerpts/`.
   */
  predicate IsMainScore(p: string)
  {
    Extension(p) == Some("mscx") && !IsPrefix("Excerpts/", Dirname(p))
  }

  /** Entry `i` is the first rootfile that holds the main score. */
  predicate FirstMainScore(rootfiles: seq<string>, i: int)
  {
    0 <= i < |rootfiles| && IsMainScore(rootfiles[i])
    && forall j :: 0 <= j < i ==> !IsMainScore(rootfiles[j])
  }

  lemma FirstMainScoreUnique(rootfiles: seq<string>, i: int, j: int)
    requires FirstMainScore(rootfiles, i) && FirstMainScore(rootfiles, j)
    ensures i == j
  {
  }

  /** The test of line 197 on one entry, kept apart so the loop does not unfold it. */
  method CheckRootfile(p: string) returns (main: bool)
    ensures main <==> IsMainScore(p)
  {
    main := Extension(p) == Some("mscx") && !IsPrefix("Excerpts/", Dirname(p));
  }

  /** The rootfile loop of doRun: the index of the first main-score entry, or |rootfiles| when none is. */
  method FirstMainScoreIndex(rootfiles: seq<string>) returns (i: nat)
    ensures i <= |rootfiles|
    ensures forall j :: 0 <= j < i ==> !IsMainScore(rootfiles[j])
    ensures i < |rootfiles| ==> IsMainScore(rootfiles[i])
  {
    i := 0;
    while i < |rootfiles|
      invariant i <= |rootfiles|
      invariant forall j :: 0 <= j < i ==> !IsMainScore(rootfiles[j])
    {
      var main := CheckRootfile(rootfiles[i]);
      if main {
        return;
      }
      i := i + 1;
    }
  }

  /**
   * The rootfile selection of doRun: the first main-score entry, or the fatal
   * "missing name of actual score file".
   */
  method SelectScoreFile(rootfiles: seq<string>) returns (r: Result<string, Halt>)
    ensures r.Success? <==> exists i :: 0 <= i < |rootfiles| && IsMainScore(rootfiles[i])
    ensures r.Success? ==> exists i :: FirstMainScore(rootfiles, i) && rootfiles[i] == r.value
    ensures r.Failure? ==> r.error == MissingScoreFile
  {
    var i := FirstMainScoreIndex(rootfiles);
    if i < |rootfiles| {
      assert FirstMainScore(rootfiles, i);
      r := Success(rootfiles[i]);
    } else {
      r := Failure(MissingScoreFile);
    }
  }

  /** The last `c` sits at `k` when `s[k]` is `c` and no `c` follows it. */
  lemma LastIndexOfAt(s: string, c: char, k: nat)
    requires k < |s| && s[k] == c
    requires forall j :: k < j < |s| ==> s[j] != c
    ensures LastIndexOf(s, c) == k
  {
  }

  /** The dirname of `d/f` is `d` and its basename `f`, when `d` is not empty and `f` holds no '/'. */
  lemma DirnameOfJoin(d: string, f: string)
    requires |d| > 0 && '/' !in f
    ensures Dirname(d + "/" + f) == d
    ensures Basename(d + "/" + f) == f
  {
    var p := d + "/" + f;
    forall j | |d| < j < |p| ensures p[j] != '/' {
      assert p[j] == f[j - |d| - 1];
    }
    LastIndexOfAt(p, '/', |d|);
    assert p[..|d|] == d;
    assert p[|d| + 1..] == f;
  }

  /** A part score in its own folder, Excerpts/<name>/<file>, is skipped. */
  lemma ExcerptInFolderSkipped(name: string, file: string)
    requires '/' !in file
    ensures !IsMainScore("Excerpts/" + name + "/" + file)
  {
    var d := "Excerpts/" + name;
    DirnameOfJoin(d, file);
    assert "Excerpts/" + name + "/" + file == d + "/" + file;
    assert d[..9] == "Excerpts/";
  }

  /** The extension of `d/stem.ext` is `ext`, when neither `stem` nor `ext` holds a '/'
      and `ext` holds no '.'. */
  lemma ExtensionOfJoin(d: string, stem: string, ext: string)
    requires |d| > 0 && '/' !in stem && '/' !in ext && '.' !in ext
    ensures Dirname(d + "/" + stem + ("." + ext)) == d
    ensures Extension(d + "/" + stem + ("." + ext)) == Some(ext)
  {
    var f := stem + ("." + ext);
    assert d + "/" + stem + ("." + ext) == d + "/" + f;
    forall j | 0 <= j < |f| ensures f[j] != '/' {
      if j < |stem| {
        assert f[j] == stem[j];
      } else if j > |stem| {
        assert f[j] == ext[j - |stem| - 1];
      }
    }
    DirnameOfJoin(d, f);
    forall j | |stem| < j < |f| ensures f[j] != '.' {
      assert f[j] == ext[j - |stem| - 1];
    }
    LastIndexOfAt(f, '.', |stem|);
    assert f[|stem| + 1..] == ext;
  }

  /** A score stored directly under Excerpts/ has dirname "Excerpts", which is not
      `Excerpts/`-prefixed, so it is taken as the main score. */
  lemma ExcerptAtTopAccepted(stem: string)
    requires '/' !in stem
    ensures IsMainScore("Excerpts/" + stem + ".mscx")
  {
    assert "Excerpts" + "/" == "Excerpts/";
    assert "." + "mscx" == ".mscx";
    ExtensionOfJoin("Excerpts", stem, "mscx");
  }
}
