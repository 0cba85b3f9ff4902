/** POSIX path names as `pathlib.PurePosixPath` sees them: the last component
    (`.name`), its final suffix (`.suffix`) and what precedes it (`.stem`),
    and the label-file name the converter derives from an image file name. */
module Paths {

  /** Index of the last occurrence of `c` in `s`, or -1 (Python's `str.rfind`). */
  function LastIndexOf(s: string, c: char): (i: int)
    ensures -1 <= i < |s|
    ensures i >= 0 ==> s[i] == c
    ensures forall j :: i < j < |s| ==> s[j] != c
    decreases |s|
  {
    if s == [] then -1
    else if s[|s| - 1] == c then |s| - 1
    else LastIndexOf(s[..|s| - 1], c)
  }

  /** A position holding `c` with no `c` after it is what `LastIndexOf` returns. */
  lemma LastIndexAt(s: string, c: char, k: nat)
    requires k < |s| && s[k] == c
    requires forall j :: k < j < |s| ==> s[j] != c
    ensures LastIndexOf(s, c) == k
  {
  }

  /** `PurePosixPath(p).name`: the last component once trailing separators and
      `.` components are dropped; the empty string when nothing is left. */
  function Name(p: string): (r: string)
    ensures '/' !in r
    ensures r != "."
    decreases |p|
  {
    if p == [] then []
    else if p[|p| - 1] == '/' then Name(p[..|p| - 1])
    else
      var i := LastIndexOf(p, '/');
      var last := p[i + 1..];
      assert forall j :: 0 <= j < |last| ==> last[j] == p[i + 1 + j];
      if last == "." then Name(p[..i + 1]) else last
  }

  /** `.suffix`: from the last dot on, unless that dot is the first or the last
      character of the name. */
  function Suffix(name: string): (r: string)
    ensures r != [] ==> 2 <= |r| < |name| && r[0] == '.' && '.' !in r[1..]
    ensures r != [] ==> name[|name| - |r|..] == r
  {
    var i := LastIndexOf(name, '.');
    if 0 < i < |name| - 1 then name[i..] else []
  }

  /** `.stem`: the name without its suffix. */
  function Stem(name: string): (r: string)
    ensures r <= name
    ensures r + Suffix(name) == name
  {
    var i := LastIndexOf(name, '.');
    if 0 < i < |name| - 1 then name[..i] else name
  }

  /** The label file an image is written to (line 52): `Path(file_name).stem + '.txt'`. */
  function LabelFileName(fileName: string): (r: string)
    ensures |r| >= 4 && r[|r| - 4..] == ".txt"
    ensures '/' !in r
  {
    var stem := Stem(Name(fileName));
    assert forall k :: 0 <= k < |stem| ==> stem[k] == Name(fileName)[k];
    stem + ".txt"
  }

  /** A character that does not occur is not found. */
  lemma {:induction false} LastIndexOfAbsent(s: string, c: char)
    requires c !in s
    ensures LastIndexOf(s, c) == -1
    decreases |s|
  {
    if s != [] {
      assert s[|s| - 1] in s;
      var init := s[..|s| - 1];
      assert forall x :: x in init ==> x in s;
      LastIndexOfAbsent(init, c);
    }
  }

  /** A plain component is its own name. */
  lemma NameOfComponent(base: string)
    requires base != [] && base != "." && '/' !in base
    ensures Name(base) == base
  {
    assert base[|base| - 1] in base;
    LastIndexOfAbsent(base, '/');
    assert base[0..] == base;
  }

  /** After a directory prefix, a plain component is still the name. */
  lemma NameOfJoin(dir: string, base: string)
    requires base != [] && base != "." && '/' !in base
    ensures Name(dir + "/" + base) == base
  {
    var p := dir + "/" + base;
    assert p[|p| - 1] == base[|base| - 1];
    assert base[|base| - 1] in base;
    forall j | |dir| < j < |p| ensures p[j] != '/' {
      assert p[j] == base[j - |dir| - 1];
      assert base[j - |dir| - 1] in base;
    }
    LastIndexAt(p, '/', |dir|);
    assert p[|dir| + 1..] == base;
  }

  /** A name `base.ext` whose extension has no dot has stem `base` and suffix `.ext`. */
  lemma StemOfExtension(base: string, ext: string)
    requires base != [] && ext != [] && '.' !in ext
    ensures Stem(base + "." + ext) == base
    ensures Suffix(base + "." + ext) == "." + ext
  {
    var n := base + "." + ext;
    forall j | |base| < j < |n| ensures n[j] != '.' {
      assert n[j] == ext[j - |base| - 1];
    }
    LastIndexAt(n, '.', |base|);
    assert n[..|base|] == base;
    assert n[|base|..] == "." + ext;
  }

  /** `base.ext` is its own name. */
  lemma PlainImageName(base: string, ext: string)
    requires base != [] && '/' !in base && '/' !in ext
    ensures Name(base + "." + ext) == base + "." + ext
  {
    var n := base + "." + ext;
    assert '/' !in n;
    assert n != "." by { assert |n| >= 2; }
    NameOfComponent(n);
  }

  /** The label file of `base.ext` is `base.txt`. */
  lemma LabelOfImageName(base: string, ext: string)
    requires base != [] && ext != [] && '.' !in ext
    requires '/' !in base && '/' !in ext
    ensures LabelFileName(base + "." + ext) == base + ".txt"
  {
    PlainImageName(base, ext);
    StemOfExtension(base, ext);
  }

  /** A directory in front of the image name does not change its label file. */
  lemma LabelOfNestedImageName(dir: string, base: string, ext: string)
    requires base != [] && ext != [] && '.' !in ext
    requires '/' !in base && '/' !in ext
    ensures LabelFileName(dir + "/" + base + "." + ext) == base + ".txt"
  {
    var n := base + "." + ext;
    assert '/' !in n;
    assert n != "." by { assert |n| >= 2; }
    NameOfJoin(dir, n);
    assert dir + "/" + base + "." + ext == dir + "/" + n;
    StemOfExtension(base, ext);
  }

  /** Two images whose names differ only in extension (`a.jpg`, `a.png`) share a
      label file, while their full names, which the copy bookkeeping uses, differ. */
  lemma SharedStemSharesLabel(base: string, ext1: string, ext2: string)
    requires base != [] && '/' !in base
    requires ext1 != [] && '.' !in ext1 && '/' !in ext1
    requires ext2 != [] && '.' !in ext2 && '/' !in ext2
    ensures LabelFileName(base + "." + ext1) == LabelFileName(base + "." + ext2) == base + ".txt"
    ensures ext1 != ext2 ==> base + "." + ext1 != base + "." + ext2
  {
    LabelOfImageName(base, ext1);
    LabelOfImageName(base, ext2);
    if ext1 != ext2 {
      assert (base + "." + ext1)[|base| + 1..] == ext1;
      assert (base + "." + ext2)[|base| + 1..] == ext2;
    }
  }
}
