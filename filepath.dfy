/**
 * Go's `filepath.Ext` on a Unix system, where '/' is the only path
 * separator.
 */
module FilePath {

  /**
   * The extension of `path`: the suffix starting at the last '.' of the final
   * path element, or "" when the final element has no '.'.  Scanning from the
   * end, a '/' stops the search and a '.' ends it.
   */
  function Ext(path: string): (r: string)
    ensures r == [] || (r[0] == '.' && '.' !in r[1..] && '/' !in r)
    ensures |r| <= |path| && r == path[|path| - |r|..]
  {
    if path == [] then ""
    else
      var last := path[|path| - 1];
      if last == '/' then ""
      else if last == '.' then "."
      else
        var e := Ext(path[..|path| - 1]);
        if e == "" then "" else e + [last]
  }

  /** The '.' at position k has no '/' after it, so it lies in the final path element. */
  predicate DotInBaseAt(path: string, k: nat) {
    k < |path| && path[k] == '.' && '/' !in path[k + 1..]
  }

  /** The final path element contains a '.'. */
  ghost predicate HasDotInBase(path: string) {
    exists k: nat :: DotInBaseAt(path, k)
  }

  /** Appending a character other than '/' keeps every earlier '.' in the final element or out of it. */
  lemma DotInBaseExtend(init: string, c: char, k: nat)
    requires c != '/' && k < |init|
    ensures DotInBaseAt(init + [c], k) <==> DotInBaseAt(init, k)
  {
    assert (init + [c])[k + 1..] == init[k + 1..] + [c];
  }

  /** Ext is empty exactly when the final element has no '.'. */
  lemma {:induction false} ExtEmptyIff(path: string)
    ensures Ext(path) == "" <==> !HasDotInBase(path)
  {
    if path == [] {
      assert forall k: nat :: !DotInBaseAt(path, k);
    } else {
      var n := |path| - 1;
      var init := path[..n];
      assert path == init + [path[n]];
      if path[n] == '/' {
      } else if path[n] == '.' {
        assert DotInBaseAt(path, n);
      } else {
        ExtEmptyIff(init);
        if HasDotInBase(init) {
          var k: nat :| DotInBaseAt(init, k);
          DotInBaseExtend(init, path[n], k);
        }
        if HasDotInBase(path) {
          var k: nat :| DotInBaseAt(path, k);
          DotInBaseExtend(init, path[n], k);
        }
      }
    }
  }

  /**
   * A suffix that starts with '.' and holds no other '.' and no '/' is the
   * extension of any path ending with it.
   */
  lemma {:induction false} ExtOfSuffix(dir: string, ext: string)
    requires ext != [] && ext[0] == '.' && '.' !in ext[1..] && '/' !in ext
    ensures Ext(dir + ext) == ext
    decreases |ext|
  {
    var p := dir + ext;
    if |ext| > 1 {
      var init := ext[..|ext| - 1];
      assert p[..|p| - 1] == dir + init;
      assert ext[|ext| - 1] in ext[1..];
      assert init[1..] == ext[1..|ext| - 1];
      ExtOfSuffix(dir, init);
    }
  }

  /** Ext of a path grown by one character that is not a separator, from Ext of the shorter path. */
  lemma ExtSnoc(path: string, c: char)
    requires c != '/'
    ensures Ext(path + [c]) == if c == '.' then "." else if Ext(path) == "" then "" else Ext(path) + [c]
  {
    assert (path + [c])[..|path|] == path;
  }

  /** Directory components do not matter: only the final element decides. */
  lemma {:induction false} ExtIgnoresDirectory(dir: string, name: string)
    ensures Ext(dir + "/" + name) == Ext(name)
    decreases |name|
  {
    var p := dir + "/" + name;
    if name == [] {
      assert p == dir + ['/'];
      assert p[|p| - 1] == '/';
    } else {
      var n := |name| - 1;
      var init := name[..n];
      assert name == init + [name[n]];
      assert p == (dir + "/" + init) + [name[n]];
      if name[n] == '/' {
        assert p[|p| - 1] == '/';
      } else {
        ExtIgnoresDirectory(dir, init);
        ExtSnoc(dir + "/" + init, name[n]);
        ExtSnoc(init, name[n]);
      }
    }
  }
}
