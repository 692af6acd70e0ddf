/** POSIX path joining and base names (`os.path.join`, `os.path.basename`). */
module Paths {
  import opened Wrappers
  import opened Text

  /** `os.path.join(dir, name)` with two arguments: an absolute `name` replaces
      `dir`, otherwise one separator is put between them when needed. */
  function Join(dir: string, name: string): string
  {
    if name != [] && name[0] == '/' then name
    else if dir == [] || dir[|dir| - 1] == '/' then dir + name
    else dir + "/" + name
  }

  /** `os.path.basename(p)`: everything after the last separator. */
  function Basename(p: string): string
  {
    match LastIndexOf(p, '/')
    case None => p
    case Some(i) => p[i + 1..]
  }

  /** The base name holds no separator, is the whole path when it has none,
      and is a suffix of the path. */
  lemma BasenameSpec(p: string)
    ensures var r := Basename(p);
      && '/' !in r
      && ('/' !in p ==> r == p)
      && |r| <= |p| && r == p[|p| - |r|..]
  {
  }

  /** A plain file name joined to a directory is the base name of the result. */
  lemma BasenameOfJoin(dir: string, name: string)
    requires '/' !in name
    ensures Basename(Join(dir, name)) == name
  {
    var p := Join(dir, name);
    if name == [] {
      assert p == dir || p == dir + "/";
      if LastIndexOf(p, '/').Some? {
        var i := LastIndexOf(p, '/').value;
        if p == dir + "/" {
          assert i == |p| - 1;
        } else {
          assert dir != [] && dir[|dir| - 1] == '/';
          assert i == |p| - 1;
        }
      }
    } else {
      var sep := if dir == [] || dir[|dir| - 1] == '/' then "" else "/";
      assert p == (dir + sep) + name;
      var head := dir + sep;
      if head != [] {
        assert head[|head| - 1] == '/';
        assert p[|head| - 1] == '/';
      }
      assert p[|head|..] == name;
      var i := LastIndexOf(p, '/');
      if head == [] {
        assert p == name;
      } else {
        assert '/' in p;
        assert i.value == |head| - 1;
      }
    }
  }

  /** Joining different plain names to one directory gives different paths. */
  lemma JoinInjective(dir: string, x: string, y: string)
    requires x != [] && y != [] && x[0] != '/' && y[0] != '/'
    requires Join(dir, x) == Join(dir, y)
    ensures x == y
  {
    var sep := if dir == [] || dir[|dir| - 1] == '/' then "" else "/";
    var head := dir + sep;
    assert Join(dir, x) == head + x && Join(dir, y) == head + y;
    assert x == (head + x)[|head|..];
    assert y == (head + y)[|head|..];
  }
}
