/** Paths beside the running executable: the model of `Config::get_path`.
    A path is kept as the standard library's `PathBuf` sees it, a root flag and
    a sequence of components; its text is the components joined by `/`. */
module Paths {

  /** One normal component of a path: non-empty, without a separator. */
  type Component = c: string | c != "" && '/' !in c witness "a"

  /** A filesystem path: whether it starts at the root, and its components. */
  datatype Path = Path(absolute: bool, comps: seq<Component>)

  /** A bare file name such as `hmc.ini`: relative, one component. */
  function FileName(name: Component): Path
  {
    Path(false, [name])
  }

  /** The components joined with the separator `/`. */
  function Join(cs: seq<Component>): string
    decreases |cs|
  {
    if |cs| == 0 then ""
    else if |cs| == 1 then cs[0]
    else Join(cs[..|cs| - 1]) + "/" + cs[|cs| - 1]
  }

  /** The text of a path, as `into_os_string().into_string()` yields it on a Unix host. */
  function Render(p: Path): string
  {
    (if p.absolute then "/" else "") + Join(p.comps)
  }

  /** The directory that contains `exe`: its last component dropped. A path
      without components (the root, or the empty path) has no parent and is
      left as it is. */
  function Dir(exe: Path): Path
  {
    if |exe.comps| == 0 then exe else Path(exe.absolute, exe.comps[..|exe.comps| - 1])
  }

  /** The text that a file name follows inside `Dir(exe)`: the directory and a
      separator, except for the root or the empty path, which need none. */
  function DirPrefix(exe: Path): string
  {
    if Dir(exe).comps == [] then Render(Dir(exe)) else Render(Dir(exe)) + "/"
  }

  /** Where `get_path` puts `file`: in the directory containing `exe`. An
      absolute `file` replaces the directory, as `PathBuf::push` does. */
  function Resolve(exe: Path, file: Path): Path
  {
    if file.absolute then file else Path(Dir(exe).absolute, Dir(exe).comps + file.comps)
  }

  /** `get_path`: a local copy of the executable's path, popped once, then
      pushed with `file`, then turned into text. The executable's path is a
      parameter here. */
  method GetPath(exe: Path, file: Path) returns (p: string)
    ensures p == Render(Resolve(exe, file))
  {
    var absolute, comps := exe.absolute, exe.comps;
    // pop: truncate to the parent, when there is one
    if |comps| > 0 {
      comps := comps[..|comps| - 1];
    }
    // push: an absolute argument replaces the path, a relative one is appended
    if file.absolute {
      absolute, comps := true, file.comps;
    } else {
      comps := comps + file.comps;
    }
    p := Render(Path(absolute, comps));
  }

  /** Joining two non-empty runs of components puts one separator between them. */
  lemma {:induction false} JoinConcat(a: seq<Component>, b: seq<Component>)
    requires a != [] && b != []
    ensures Join(a + b) == Join(a) + "/" + Join(b)
    decreases |b|
  {
    var ab := a + b;
    if |b| == 1 {
      assert ab[..|ab| - 1] == a;
      assert ab[|ab| - 1] == b[0];
    } else {
      var front := b[..|b| - 1];
      assert ab[..|ab| - 1] == a + front;
      assert ab[|ab| - 1] == b[|b| - 1];
      JoinConcat(a, front);
    }
  }

  /** The text of a resolved relative file is the executable's directory,
      a separator where one is needed, and then the file's own text. */
  lemma ResolveLocation(exe: Path, file: Path)
    requires !file.absolute && file.comps != []
    ensures Render(Resolve(exe, file)) == DirPrefix(exe) + Join(file.comps)
  {
    var d := Dir(exe);
    if d.comps != [] {
      JoinConcat(d.comps, file.comps);
    } else {
      assert d.comps + file.comps == file.comps;
    }
  }

  /** Two file names resolve to the same text exactly when they are the same
      name: the directory part depends on the executable's path alone. */
  lemma ResolveInjective(exe: Path, f1: Component, f2: Component)
    ensures Render(Resolve(exe, FileName(f1))) == Render(Resolve(exe, FileName(f2))) <==> f1 == f2
  {
    ResolveLocation(exe, FileName(f1));
    ResolveLocation(exe, FileName(f2));
    var pre := DirPrefix(exe);
    if pre + f1 == pre + f2 {
      assert f1 == (pre + f1)[|pre|..];
      assert f2 == (pre + f2)[|pre|..];
    }
  }
}
