/**
 * File paths and the certificate/key `Pair` of `src/pki.rs`.
 *
 * A path is its text.  `Join` follows `Path::join` on Unix: an absolute
 * second path replaces the first; otherwise a `/` is inserted unless the
 * first path is empty or already ends in one.
 */
module Paths {

  type Path = string

  predicate IsAbsolute(p: Path)
  {
    |p| > 0 && p[0] == '/'
  }

  predicate EndsWith(s: string, suffix: string)
  {
    |suffix| <= |s| && s[|s| - |suffix|..] == suffix
  }

  /** `dir` as the prefix that `Join` puts in front of a relative path. */
  function DirPrefix(dir: Path): Path
  {
    if |dir| == 0 || dir[|dir| - 1] == '/' then dir else dir + "/"
  }

  function Join(dir: Path, file: Path): Path
  {
    if IsAbsolute(file) then file else DirPrefix(dir) + file
  }

  /** The joined path ends with the joined file name, and a relative one lands under `dir`. */
  lemma JoinEndsWithFile(dir: Path, file: Path)
    ensures EndsWith(Join(dir, file), file)
    ensures !IsAbsolute(file) ==> Join(dir, file) == DirPrefix(dir) + file
    ensures !IsAbsolute(file) ==> |Join(dir, file)| > |file| || dir == []
  {
    var r := Join(dir, file);
    if !IsAbsolute(file) {
      assert r[|r| - |file|..] == file;
    }
  }

  /** Appending to the joined name is appending to the joined path. */
  lemma JoinAppend(dir: Path, name: string, suffix: string)
    requires name != [] || !IsAbsolute(suffix)
    ensures Join(dir, name + suffix) == Join(dir, name) + suffix
  {
    if name != [] {
      assert (name + suffix)[0] == name[0];
    }
  }

  /** Two relative names join onto the same directory to the same path only if equal. */
  lemma JoinInjective(dir: Path, a: string, b: string)
    requires !IsAbsolute(a) && !IsAbsolute(b)
    requires Join(dir, a) == Join(dir, b)
    ensures a == b
  {
    var p := DirPrefix(dir);
    assert a == (p + a)[|p|..];
    assert b == (p + b)[|p|..];
  }

  /** The file-system identity of an issued certificate: where its two PEM files are. */
  datatype Pair = Pair(cert: Path, key: Path)

  /** `Pair::new`: `<dir>/<name>.pem` and `<dir>/<name>-key.pem`. */
  function NewPair(dir: Path, name: string): Pair
  {
    Pair(Join(dir, name + ".pem"), Join(dir, name + "-key.pem"))
  }

  /**
   * The certificate is `<dir>/<name>` with `.pem` added and the key the same
   * with `-key.pem`; so the two never coincide.
   */
  lemma NewPairShape(dir: Path, name: string)
    ensures NewPair(dir, name).cert == Join(dir, name) + ".pem"
    ensures NewPair(dir, name).key == Join(dir, name) + "-key.pem"
    ensures NewPair(dir, name).cert != NewPair(dir, name).key
  {
    JoinAppend(dir, name, ".pem");
    JoinAppend(dir, name, "-key.pem");
    var base := Join(dir, name);
    assert (base + ".pem")[|base|] == '.';
    assert (base + "-key.pem")[|base|] == '-';
  }
}
