/**
 * The test the hook DLL applies before it agrees to stay loaded in a process
 * that the application's hooks were injected into (devspy_hook/dllmain.c,
 * `init_dll`, lines 36-52): the process whose id the shared header names must
 * exist, and its executable path must end in `"\DevSpy<bits>.exe"`, compared
 * without regard to case.
 */
module Admission {
  import opened Win32
  import opened Api

  /** Case folding of one character as `_wcsnicmp` does it for ASCII letters. */
  function LowerAscii(c: char): (r: char)
    ensures 'A' <= c <= 'Z' ==> r as int == c as int + 32
    ensures !('A' <= c <= 'Z') ==> r == c
  {
    if 'A' <= c <= 'Z' then (c as int + 32) as char else c
  }

  /** Folds every character of `s`. */
  function FoldCase(s: string): (r: string)
    ensures |r| == |s|
    ensures forall i :: 0 <= i < |s| ==> r[i] == LowerAscii(s[i])
  {
    if s == [] then [] else [LowerAscii(s[0])] + FoldCase(s[1..])
  }

  /** `_wcsnicmp(a, b, |b|) == 0` for two strings of the same length without terminators inside. */
  predicate EqualIgnoringCase(a: string, b: string)
  {
    FoldCase(a) == FoldCase(b)
  }

  /** `L"\\" APP_EXE_NAME`: the tail the application's image path must have. */
  function ExpectedImageTail(b: Bits): (r: string)
    ensures |r| == 13 && r[0] == '\\' && r[1..] == AppExeName(b)
  {
    "\\" + AppExeName(b)
  }

  /**
   * Lines 44-46: the path is at least as long as the expected tail and its
   * last `|tail|` characters equal the tail up to case. Equivalently: some
   * suffix of the path equals the tail up to case.
   */
  function IsExpectedImage(path: string, b: Bits): (r: bool)
    ensures r <==> exists k :: 0 <= k <= |path| && EqualIgnoringCase(path[k..], ExpectedImageTail(b))
    ensures r ==> |path| >= 13
  {
    var tail := ExpectedImageTail(b);
    var ok := |path| >= |tail| && EqualIgnoringCase(path[|path| - |tail|..], tail);
    assert ok ==> EqualIgnoringCase(path[|path| - |tail|..], tail);
    assert forall k :: 0 <= k <= |path| && EqualIgnoringCase(path[k..], tail) ==> k == |path| - |tail|;
    ok
  }

  /**
   * Lines 36-52: the verdict once the shared header is mapped. `pid` is the
   * header's `app_process_id`; `process` is what `OpenProcess` returns for it
   * (consulted only when `pid` is not zero); `imagePath` is what
   * `GetModuleFileNameEx` returns, empty when it fails.
   */
  function ValidProcess(pid: u32, process: Option<Handle>, imagePath: string, b: Bits): (r: bool)
    ensures r ==> pid != 0 && process.Some? && |imagePath| != 0
    ensures r <==> pid != 0 && process.Some? && IsExpectedImage(imagePath, b)
  {
    if pid == 0 then false
    else match process
      case None => false
      case Some(_) => |imagePath| != 0 && IsExpectedImage(imagePath, b)
  }

  // ---------------------------------------------------------------------------
  // The same test stated on the file-name component of the path
  // ---------------------------------------------------------------------------

  /** The characters after the last `'\\'` of `path`, or all of it when there is none. */
  function FileName(path: string): (r: string)
    ensures |r| <= |path| && r == path[|path| - |r|..]
    ensures '\\' !in r
    ensures |r| < |path| ==> path[|path| - |r| - 1] == '\\'
  {
    if path == [] then []
    else if path[|path| - 1] == '\\' then []
    else
      var init := path[..|path| - 1];
      var f := FileName(init);
      var r := f + [path[|path| - 1]];
      ExtendSuffix(path, f);
      assert |f| < |init| ==> path[|path| - |r| - 1] == init[|init| - |f| - 1];
      r
  }

  /** A suffix of all but the last character, followed by that character, is a suffix. */
  lemma ExtendSuffix(s: string, f: string)
    requires 0 < |s| && |f| < |s| && f == s[..|s| - 1][|s| - 1 - |f|..]
    ensures f + [s[|s| - 1]] == s[|s| - |f| - 1..]
  {
    assert f == s[|s| - 1 - |f|..|s| - 1];
  }

  /** A separator at `j` with none after it makes the file name everything after `j`. */
  lemma {:induction false} FileNameAfterLastSeparator(path: string, j: nat)
    requires j < |path| && path[j] == '\\' && '\\' !in path[j + 1..]
    ensures FileName(path) == path[j + 1..]
  {
  }

  /** Folding never produces a backslash from anything but a backslash. */
  lemma FoldKeepsSeparator(c: char)
    ensures LowerAscii(c) == '\\' <==> c == '\\'
  {
  }

  /** Folding distributes over concatenation. */
  lemma FoldConcat(a: string, b: string)
    ensures FoldCase(a + b) == FoldCase(a) + FoldCase(b)
  {
    forall i | 0 <= i < |a + b|
      ensures FoldCase(a + b)[i] == (FoldCase(a) + FoldCase(b))[i]
    {
      if i < |a| {
        assert (a + b)[i] == a[i];
      } else {
        assert (a + b)[i] == b[i - |a|];
      }
    }
  }

  /** Strings equal up to case stay equal up to case when the same prefix is dropped. */
  lemma EqualIgnoringCaseDrop(a: string, b: string, k: nat)
    requires EqualIgnoringCase(a, b) && k <= |a|
    ensures EqualIgnoringCase(a[k..], b[k..])
  {
    forall i | 0 <= i < |a| - k
      ensures FoldCase(a[k..])[i] == FoldCase(b[k..])[i]
    {
      assert FoldCase(a)[k + i] == FoldCase(b)[k + i];
    }
  }

  /** A string equal up to case to one without a backslash has none either. */
  lemma NoSeparatorUpToCase(a: string, b: string)
    requires EqualIgnoringCase(a, b) && '\\' !in b
    ensures '\\' !in a
  {
    forall i | 0 <= i < |a|
      ensures a[i] != '\\'
    {
      assert FoldCase(a)[i] == FoldCase(b)[i];
      FoldKeepsSeparator(a[i]);
      FoldKeepsSeparator(b[i]);
    }
  }

  /** The executable's name has no backslash in it. */
  lemma ExeNameHasNoSeparator(b: Bits)
    ensures '\\' !in AppExeName(b)
  {
    if b.Bits64? {
      assert AppExeName(b) == "DevSpy64.exe";
    } else {
      assert AppExeName(b) == "DevSpy32.exe";
    }
  }

  /**
   * A string equal up to case to a backslash followed by a name without one
   * is itself a backslash followed by a name without one.
   */
  lemma {:induction false} SeparatorThenName(s: string, t: string)
    requires EqualIgnoringCase(s, t) && |t| > 0 && t[0] == '\\' && '\\' !in t[1..]
    ensures |s| == |t| && s[0] == '\\'
    ensures EqualIgnoringCase(s[1..], t[1..])
    ensures '\\' !in s[1..]
  {
    assert |s| == |t| && s[0] == '\\' by {
      assert FoldCase(s)[0] == FoldCase(t)[0];
      FoldKeepsSeparator(s[0]);
    }
    EqualIgnoringCaseDrop(s, t, 1);
    NoSeparatorUpToCase(s[1..], t[1..]);
  }

  /** A path the tail test accepts has a backslash 13 characters from its end, then the executable name up to case. */
  lemma {:induction false} ExpectedImageSplit(path: string, b: Bits)
    requires IsExpectedImage(path, b)
    ensures |path| >= 13 && path[|path| - 13] == '\\'
    ensures EqualIgnoringCase(path[|path| - 12..], AppExeName(b))
    ensures '\\' !in path[|path| - 12..]
  {
    var suffix := path[|path| - 13..];
    ExeNameHasNoSeparator(b);
    SeparatorThenName(suffix, ExpectedImageTail(b));
    assert suffix[1..] == path[|path| - 12..];
  }

  /** If the tail test accepts, the path has a directory part and its file name is the executable's. */
  lemma {:induction false} ExpectedImageHasFileName(path: string, b: Bits)
    requires IsExpectedImage(path, b)
    ensures '\\' in path && EqualIgnoringCase(FileName(path), AppExeName(b))
  {
    ExpectedImageSplit(path, b);
    var j := |path| - 13;
    FileNameAfterLastSeparator(path, j);
  }

  /** If the path has a directory part and its file name is the executable's, the tail test accepts. */
  lemma {:induction false} FileNameMakesExpectedImage(path: string, b: Bits)
    requires '\\' in path && EqualIgnoringCase(FileName(path), AppExeName(b))
    ensures IsExpectedImage(path, b)
  {
    var n := |path|;
    var r := FileName(path);
    assert |FoldCase(r)| == |FoldCase(AppExeName(b))|;
    assert |r| < n;
    var j := n - 13;
    assert path[j..] == [path[j]] + r;
    FoldConcat([path[j]], r);
    FoldConcat("\\", AppExeName(b));
    assert EqualIgnoringCase(path[j..], ExpectedImageTail(b));
  }

  /**
   * The tail test accepts a path exactly when the path has a directory part
   * and its file name is the application's executable name up to case; a bare
   * `"DevSpy64.exe"` is refused, and so is `"MyDevSpy64.exe"` in any directory.
   */
  lemma {:induction false} ExpectedImageIsFileName(path: string, b: Bits)
    ensures IsExpectedImage(path, b) <==> '\\' in path && EqualIgnoringCase(FileName(path), AppExeName(b))
  {
    if IsExpectedImage(path, b) {
      ExpectedImageHasFileName(path, b);
    }
    if '\\' in path && EqualIgnoringCase(FileName(path), AppExeName(b)) {
      FileNameMakesExpectedImage(path, b);
    }
  }

  /** Any directory followed by the executable's name, in any letter case, is accepted. */
  lemma {:induction false} AcceptsAnyDirectory(dir: string, name: string, b: Bits)
    requires EqualIgnoringCase(name, AppExeName(b))
    ensures IsExpectedImage(dir + "\\" + name, b)
  {
    var p := dir + "\\" + name;
    assert |name| == 12 by { assert |FoldCase(name)| == |FoldCase(AppExeName(b))|; }
    assert p[|p| - 13..] == "\\" + name;
    FoldConcat("\\", name);
    FoldConcat("\\", AppExeName(b));
    assert EqualIgnoringCase(p[|p| - 13..], ExpectedImageTail(b));
  }

  /**
   * Whatever the last twelve characters are, the path is refused when the
   * character before them is not a backslash: `"MyDevSpy64.exe"` in any
   * directory is not the application.
   */
  lemma {:induction false} RefusesLongerName(prefix: string, c: char, name: string, b: Bits)
    requires c != '\\' && |name| == 12
    ensures !IsExpectedImage(prefix + [c] + name, b)
  {
    var p := prefix + [c] + name;
    assert p[|p| - 13] == c;
    FoldKeepsSeparator(c);
    assert FoldCase(p[|p| - 13..])[0] != FoldCase(ExpectedImageTail(b))[0];
  }

  /** A bare executable name without a directory is refused. */
  lemma RefusesBareName(b: Bits)
    ensures !IsExpectedImage(AppExeName(b), b)
  {
  }

  /** The executable of the other build, in whatever directory, is refused. */
  lemma {:induction false} RefusesOtherBuild(dir: string, b: Bits, other: Bits)
    requires other != b
    ensures !IsExpectedImage(dir + "\\" + AppExeName(other), b)
  {
    var p := dir + "\\" + AppExeName(other);
    assert p[|p| - 13..] == ExpectedImageTail(other);
    assert FoldCase(p[|p| - 13..])[7] != FoldCase(ExpectedImageTail(b))[7];
  }
}
