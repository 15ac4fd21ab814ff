/** File names: which directory entries the scanner treats as images, and how
    the record's file name is derived from the joined path. */
module Names {

  /** Lower-casing of one character. Only ASCII letters change; the suffixes
      compared below are ASCII. */
  function LowerChar(c: char): char
  {
    if 'A' <= c <= 'Z' then (c as int + 32) as char else c
  }

  function Lower(s: string): string
  {
    seq(|s|, i requires 0 <= i < |s| => LowerChar(s[i]))
  }

  predicate StartsWith(s: string, prefix: string)
  {
    |prefix| <= |s| && s[..|prefix|] == prefix
  }

  predicate EndsWith(s: string, suffix: string)
  {
    |suffix| <= |s| && s[|s| - |suffix|..] == suffix
  }

  /** The extensions the scanner accepts, compared against the lower-cased name. */
  const ImageExtensions: seq<string> := [".jpg", ".jpeg", ".png", ".heic"]

  /** The prefix of the resource-fork files some file systems leave beside each file. */
  const SidecarPrefix: string := "._"

  predicate HasImageExtension(name: string)
  {
    exists ext :: ext in ImageExtensions && EndsWith(Lower(name), ext)
  }

  /** A directory entry is processed when its lower-cased name ends in an image
      extension and the name itself does not start with the sidecar prefix.
      Such a name is at least as long as the shortest extension. */
  predicate IsCandidate(name: string): (r: bool)
    ensures r ==> |name| >= 4
  {
    HasImageExtension(name) && !StartsWith(name, SidecarPrefix)
  }

  /** The container format whose tags are read through a different decoder. */
  predicate IsHeic(name: string)
  {
    EndsWith(Lower(name), ".heic")
  }

  /** Path joining for a relative name: a separator is added unless the
      directory is empty or already ends with one; an absolute name replaces
      the directory. A relative name is kept whole at the end, after the
      directory and at most one added separator. */
  function Join(dir: string, name: string): (r: string)
    ensures StartsWith(name, "/") ==> r == name
    ensures !StartsWith(name, "/") ==> StartsWith(r, dir) && EndsWith(r, name) && |dir| + |name| <= |r| <= |dir| + |name| + 1
  {
    if StartsWith(name, "/") then name
    else if dir == [] || dir[|dir| - 1] == '/' then dir + name
    else dir + "/" + name
  }

  /** The last `/`-separated piece of a path (empty when the path ends in `/`):
      the longest suffix without a separator, so the character before it, if
      any, is a separator. */
  function LastSegment(path: string): (r: string)
    ensures '/' !in r && EndsWith(path, r)
    ensures |r| < |path| ==> path[|path| - |r| - 1] == '/'
  {
    if path == [] || path[|path| - 1] == '/' then []
    else LastSegment(path[..|path| - 1]) + [path[|path| - 1]]
  }

  lemma LowerConcat(a: string, b: string)
    ensures Lower(a + b) == Lower(a) + Lower(b)
  {
  }

  lemma LowerKeepsPunctuation(c: char)
    ensures LowerChar(c) == '.' <==> c == '.'
    ensures LowerChar(c) == '_' <==> c == '_'
    ensures LowerChar(c) == '/' <==> c == '/'
  {
  }

  /** Candidacy does not depend on letter case: names that agree once
      lower-cased are both candidates or both not. */
  lemma CandidateIgnoresCase(a: string, b: string)
    requires Lower(a) == Lower(b)
    ensures IsCandidate(a) <==> IsCandidate(b)
  {
    assert |a| == |Lower(a)| == |b|;
    if |a| >= 2 {
      LowerKeepsPunctuation(a[0]);
      LowerKeepsPunctuation(b[0]);
      LowerKeepsPunctuation(a[1]);
      LowerKeepsPunctuation(b[1]);
      assert Lower(a)[0] == Lower(b)[0] && Lower(a)[1] == Lower(b)[1];
      assert StartsWith(a, SidecarPrefix) <==> a[0] == '.' && a[1] == '_';
      assert StartsWith(b, SidecarPrefix) <==> b[0] == '.' && b[1] == '_';
    }
  }

  lemma SidecarPrefixNotCreated(stem: string, ext: string)
    requires |ext| >= 2 && ext[0] == '.' && ext[1] != '_'
    requires !StartsWith(stem, SidecarPrefix)
    ensures !StartsWith(stem + ext, SidecarPrefix)
  {
    if |stem| >= 2 {
      assert (stem + ext)[..2] == stem[..2];
    } else if |stem| == 1 {
      assert (stem + ext)[1] == '.';
    } else {
      assert (stem + ext)[1] == ext[1];
    }
  }

  lemma EndsWithLowered(stem: string, ext: string)
    ensures EndsWith(Lower(stem + ext), Lower(ext))
  {
    LowerConcat(stem, ext);
    var lower := Lower(stem + ext);
    assert lower[|lower| - |ext|..] == Lower(ext);
  }

  /** Any stem followed by an image extension, in any letter case, is a
      candidate unless the stem starts with the sidecar prefix. */
  lemma ExtensionMakesCandidate(stem: string, ext: string)
    requires Lower(ext) in ImageExtensions
    requires !StartsWith(stem, SidecarPrefix)
    ensures IsCandidate(stem + ext)
  {
    var e := Lower(ext);
    EndsWithLowered(stem, ext);
    assert e in ImageExtensions && EndsWith(Lower(stem + ext), e);
    assert |e| >= 4 && e[0] == '.' && e[1] != '_';
    LowerKeepsPunctuation(ext[0]);
    LowerKeepsPunctuation(ext[1]);
    SidecarPrefixNotCreated(stem, ext);
  }

  /** A sidecar file is never a candidate, whatever extension it carries. */
  lemma SidecarNeverCandidate(rest: string)
    ensures !IsCandidate(SidecarPrefix + rest)
  {
    assert (SidecarPrefix + rest)[..2] == SidecarPrefix;
  }

  /** Every candidate ends in one of the image extensions once lower-cased. */
  lemma CandidateHasExtension(name: string)
    requires IsCandidate(name)
    ensures exists i :: 0 <= i <= |name| && Lower(name[i..]) in ImageExtensions
  {
    var lower := Lower(name);
    var ext :| ext in ImageExtensions && EndsWith(lower, ext);
    var i := |name| - |ext|;
    LowerConcat(name[..i], name[i..]);
    assert name == name[..i] + name[i..];
    assert Lower(name[i..]) == lower[i..];
  }

  /** The last segment of a path ending in a separator followed by a name
      without separators is that name. */
  lemma {:induction false} LastSegmentAfterSeparator(dir: string, name: string)
    requires dir == [] || dir[|dir| - 1] == '/'
    requires '/' !in name
    ensures LastSegment(dir + name) == name
  {
    if name == [] {
      assert dir + name == dir;
    } else {
      var init := name[..|name| - 1];
      assert (dir + name)[..|dir + name| - 1] == dir + init;
      LastSegmentAfterSeparator(dir, init);
      assert init + [name[|name| - 1]] == name;
    }
  }

  /** The record's file name, the last segment of the joined path, is the
      entry's own name whenever that name holds no separator. */
  lemma BasenameOfJoin(dir: string, name: string)
    requires '/' !in name
    ensures LastSegment(Join(dir, name)) == name
  {
    assert name != [] ==> name[0] in name;
    if dir == [] || dir[|dir| - 1] == '/' {
      LastSegmentAfterSeparator(dir, name);
    } else {
      assert dir + "/" + name == (dir + "/") + name;
      LastSegmentAfterSeparator(dir + "/", name);
    }
  }
}
