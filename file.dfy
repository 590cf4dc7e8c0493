/**
 * Path building: C strings are NUL-terminated character arrays, and a path
 * is a directory and a file name joined by the path separator.
 */
module Files {
  import opened Wrappers

  const Nul: char := '\0'

  /** SC_PATH_SEPARATOR on the non-Windows builds ('\\' on Windows). */
  const Separator: char := '/'

  /** strlen: the index of the first NUL. */
  function StrLen(s: seq<char>): (n: nat)
    requires Nul in s
    ensures n < |s| && s[n] == Nul && Nul !in s[..n]
  {
    if s[0] == Nul then 0
    else
      assert Nul in s[1..];
      var m := StrLen(s[1..]);
      assert s[..m + 1] == [s[0]] + s[1..][..m];
      m + 1
  }

  /** The text of a C string: its characters before the first NUL. */
  function Str(s: seq<char>): seq<char>
    requires Nul in s
  {
    s[..StrLen(s)]
  }

  /** A C string ends at its first NUL and nowhere else. */
  lemma StrLenUnique(s: seq<char>, n: nat)
    requires n < |s| && s[n] == Nul && Nul !in s[..n]
    ensures Nul in s && StrLen(s) == n
  {
  }

  /** strrchr: the index of the last occurrence of `c` in `s`, if any. */
  function LastIndexOf(s: seq<char>, c: char): (r: Option<nat>)
    ensures r.None? <==> c !in s
    ensures r.Some? ==> r.value < |s| && s[r.value] == c && c !in s[r.value + 1..]
  {
    if |s| == 0 then None
    else if s[|s| - 1] == c then Some(|s| - 1)
    else
      var r := LastIndexOf(s[..|s| - 1], c);
      assert s == s[..|s| - 1] + [s[|s| - 1]];
      if r.Some? then
        assert s[r.value + 1..] == s[..|s| - 1][r.value + 1..] + [s[|s| - 1]];
        r
      else r
  }

  /** The path of the file `name` in the directory `dir`. */
  function JoinPath(dir: seq<char>, name: seq<char>): seq<char> {
    dir + [Separator] + name
  }

  /** The joined path is the directory, the separator at index |dir|, then the name. */
  lemma JoinPathParts(dir: seq<char>, name: seq<char>)
    ensures |JoinPath(dir, name)| == |dir| + |name| + 1
    ensures JoinPath(dir, name)[..|dir|] == dir && JoinPath(dir, name)[|dir|] == Separator
    ensures JoinPath(dir, name)[|dir| + 1..] == name
  {
  }

  /** Read back as a C string, a built path holding two C strings' texts is exactly their join. */
  lemma JoinedCStringReadsBack(dir: seq<char>, name: seq<char>)
    requires Nul !in dir && Nul !in name
    ensures Nul in JoinPath(dir, name) + [Nul]
    ensures Str(JoinPath(dir, name) + [Nul]) == JoinPath(dir, name)
  {
  }

  /**
   * sc_file_get_local_path on strings: the executable path cut at its last
   * separator, joined with `name`; None when there is no executable path or
   * it has no separator.
   */
  function LocalPath(executable: Option<seq<char>>, name: seq<char>): Option<seq<char>> {
    if executable.None? then None
    else
      match LastIndexOf(executable.value, Separator)
      case None => None
      case Some(k) => Some(JoinPath(executable.value[..k], name))
  }

  /** Only a path with a separator has a directory part. */
  lemma LocalPathFails(executable: seq<char>, name: seq<char>)
    ensures LocalPath(Some(executable), name).None? <==> Separator !in executable
  {
  }

  /** Appending a separator-free name keeps the last separator where it was. */
  lemma {:induction false} LastSeparatorBeforeName(dir: seq<char>, name: seq<char>)
    requires Separator !in name
    ensures LastIndexOf(JoinPath(dir, name), Separator) == Some(|dir|)
    decreases |name|
  {
    var p := JoinPath(dir, name);
    if |name| == 0 {
      assert p[|p| - 1] == Separator;
    } else {
      var shorter := name[..|name| - 1];
      assert p[..|p| - 1] == JoinPath(dir, shorter);
      assert p[|p| - 1] == name[|name| - 1] && name[|name| - 1] in name;
      LastSeparatorBeforeName(dir, shorter);
    }
  }

  /** The executable's own file name, looked up beside it, gives the executable path back. */
  lemma {:induction false} LocalPathRoundTrip(dir: seq<char>, base: seq<char>)
    requires Separator !in base
    ensures LocalPath(Some(JoinPath(dir, base)), base) == Some(JoinPath(dir, base))
  {
    LastSeparatorBeforeName(dir, base);
    assert JoinPath(dir, base)[..|dir|] == dir;
  }

  /** memcpy of `count` characters from `src[srcStart..]` to `dst[dstStart..]` (the regions do not overlap). */
  method MemCopy(dst: array<char>, dstStart: nat, src: array<char>, srcStart: nat, count: nat)
    requires dst != src
    requires dstStart + count <= dst.Length && srcStart + count <= src.Length
    modifies dst
    ensures dst[dstStart..dstStart + count] == src[srcStart..srcStart + count]
    ensures dst[..dstStart] == old(dst[..dstStart]) && dst[dstStart + count..] == old(dst[dstStart + count..])
  {
    forall i | dstStart <= i < dstStart + count {
      dst[i] := src[srcStart + i - dstStart];
    }
  }

  /**
   * sc_file_build_path: a fresh C string holding `dir`, the separator and
   * `name`; null when the allocation (`mallocOk`) fails.
   */
  method BuildPath(dir: array<char>, name: array<char>, mallocOk: bool) returns (path: array?<char>)
    requires Nul in dir[..] && Nul in name[..]
    ensures path != null <==> mallocOk
    ensures path != null ==> fresh(path) && path[..] == JoinPath(Str(dir[..]), Str(name[..])) + [Nul]
  {
    var dirLen := StrLen(dir[..]);
    var nameLen := StrLen(name[..]);
    var len := dirLen + nameLen + 2; // the separator and the NUL
    if !mallocOk {
      return null;
    }
    ghost var d, n := dir[..dirLen], name[..nameLen + 1];
    path := new char[len];
    MemCopy(path, 0, dir, 0, dirLen);
    path[dirLen] := Separator;
    ghost var head := path[..dirLen + 1];
    assert head == d + [Separator];
    MemCopy(path, dirLen + 1, name, 0, nameLen + 1);
    assert path[..] == head + n;
  }

  /**
   * sc_file_get_local_path: `executable` is the executable path (null when
   * it cannot be had), which is cut in place at its last separator.
   */
  method GetLocalPath(name: array<char>, executable: array?<char>, mallocOk: bool) returns (path: array?<char>)
    requires Nul in name[..]
    requires executable != null ==> Nul in executable[..] && executable != name
    modifies executable
    ensures path != null <==>
              LocalPath(if executable == null then None else Some(old(Str(executable[..]))), Str(name[..])).Some?
              && mallocOk
    ensures path != null ==>
              fresh(path) &&
              path[..] == LocalPath(Some(old(Str(executable[..]))), Str(name[..])).value + [Nul]
  {
    if executable == null {
      return null;
    }
    ghost var exe := Str(executable[..]);
    var k := LastIndexOf(executable[..StrLen(executable[..])], Separator);
    if k.None? {
      return null;
    }
    executable[k.value] := Nul;
    assert executable[..k.value] == exe[..k.value];
    StrLenUnique(executable[..], k.value);
    path := BuildPath(executable, name, mallocOk);
  }
}
