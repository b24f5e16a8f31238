/** thiscli/util.py: walking up the tree, file freshness, the two ways to stop, and list phrasing. */
module Util {
  import opened Wrappers
  import opened Text
  import opened Process

  /** One value yielded by `walk_up`: a directory and its listing. */
  datatype Level = Level(dir: Path, entries: seq<string>)

  /** What `walk_up(bottom)` yields, in order, for a resolved `bottom`. */
  function Levels(fs: seq<Path>, bottom: Path): seq<Level>
    decreases |bottom|
  {
    [Level(bottom, ListDir(fs, bottom))] + (if bottom == [] then [] else Levels(fs, Parent(bottom)))
  }

  /**
   * The yields are the directory itself and then each ancestor up to the
   * root: level i is `bottom` with its last i components removed, listed.
   */
  lemma {:induction false} LevelsShape(fs: seq<Path>, bottom: Path)
    ensures |Levels(fs, bottom)| == |bottom| + 1
    ensures forall i :: 0 <= i <= |bottom| ==>
      Levels(fs, bottom)[i] == Level(bottom[..|bottom| - i], ListDir(fs, bottom[..|bottom| - i]))
    decreases |bottom|
  {
    var ls := Levels(fs, bottom);
    if bottom != [] {
      var up := Parent(bottom);
      LevelsShape(fs, up);
      forall i | 0 < i <= |bottom|
        ensures ls[i] == Level(bottom[..|bottom| - i], ListDir(fs, bottom[..|bottom| - i]))
      {
        assert ls[i] == Levels(fs, up)[i - 1];
        assert up[..|up| - (i - 1)] == bottom[..|bottom| - i];
      }
    }
  }

  /**
   * `walk_up` first yields its start, then the parent of each previous
   * directory, ends with the root, and is strictly ascending, so no
   * directory comes twice and the walk is finite.
   */
  lemma WalkUpOrder(fs: seq<Path>, bottom: Path)
    ensures Levels(fs, bottom)[0].dir == bottom
    ensures Levels(fs, bottom)[|Levels(fs, bottom)| - 1].dir == []
    ensures forall i :: 0 <= i < |Levels(fs, bottom)| - 1 ==>
      Levels(fs, bottom)[i + 1].dir == Parent(Levels(fs, bottom)[i].dir) != Levels(fs, bottom)[i].dir
    ensures forall i, j :: 0 <= i < j < |Levels(fs, bottom)| ==>
      |Levels(fs, bottom)[j].dir| < |Levels(fs, bottom)[i].dir|
  {
    LevelsShape(fs, bottom);
    var ls := Levels(fs, bottom);
    forall i | 0 <= i < |ls| - 1 ensures ls[i + 1].dir == Parent(ls[i].dir) != ls[i].dir {
      assert bottom[..|bottom| - i][..|bottom| - i - 1] == bottom[..|bottom| - (i + 1)];
    }
  }

  /** `walk_up(bottom)`: the generator's loop, collecting what it yields. */
  method WalkUp(fs: seq<Path>, bottom: Path) returns (levels: seq<Level>)
    ensures levels == Levels(fs, bottom)
  {
    levels := [];
    var cur := bottom;
    while true
      invariant levels + Levels(fs, cur) == Levels(fs, bottom)
      decreases |cur|
    {
      var here := Level(cur, ListDir(fs, cur));
      var next := Parent(cur);
      ghost var before := levels;
      levels := levels + [here];
      if next == cur {
        assert cur == [] by { assert |next| == if cur == [] then 0 else |cur| - 1; }
        assert Levels(fs, cur) == [here];
        return;
      }
      assert cur != [];
      assert Levels(fs, cur) == [here] + Levels(fs, next);
      assert before + Levels(fs, cur) == levels + Levels(fs, next);
      cur := next;
    }
  }

  /** `shutil.which(cmd) is not None`. */
  predicate HasCommand(h: Host, cmd: string)
  {
    cmd in h.which
  }

  /**
   * `needs_update(src, dest)`: true when `dest` is missing, else whether `src`
   * is newer. None stands for the FileNotFoundError `getmtime` raises when
   * `dest` exists but `src` does not.
   */
  function NeedsUpdate(fs: seq<Path>, h: Host, src: Path, dest: Path): (r: Option<bool>)
    ensures !Exists(fs, dest) ==> r == Some(true)
    ensures Exists(fs, dest) && Exists(fs, src) ==> r == Some(h.mtime(src) > h.mtime(dest))
    ensures r.None? <==> Exists(fs, dest) && !Exists(fs, src)
  {
    if !Exists(fs, dest) then Some(true)
    else if !Exists(fs, src) then None
    else Some(h.mtime(src) > h.mtime(dest))
  }

  /** `fail(message)`: echo the message and `sys.exit(1)`. */
  function Fail(p: Proc, message: string): Proc
  {
    Halt(Print(p, message), Exited(1))
  }

  /**
   * `fatal(message, *args)`: format only when arguments are given, print with
   * `ERROR: ` in front and `sys.exit(1)`. A template that asks for more
   * arguments than given raises IndexError instead.
   */
  function Fatal(p: Proc, message: string, args: seq<string>): Proc
  {
    var text := if args == [] then Some(message) else Format(message, args);
    match text
    case None => Halt(p, Crashed("IndexError"))
    case Some(t) => Halt(Print(p, "ERROR: " + t), Exited(1))
  }

  /** `warn(message)`: print with `WARNING: ` in front and carry on. */
  function Warn(p: Proc, message: string): Proc
  {
    Print(p, "WARNING: " + message)
  }

  /**
   * Both ways to stop end a running process with status 1 and one printed
   * line, and change nothing else. Without arguments `fatal` prints the
   * message as given, and a message without a `{}` field ignores any
   * arguments.
   */
  lemma FailAndFatalExitOne(p: Proc, message: string, args: seq<string>)
    requires p.status.Running?
    ensures Fail(p, message) == p.(out := p.out + [message], status := Exited(1))
    ensures Fatal(p, message, []) == p.(out := p.out + ["ERROR: " + message], status := Exited(1))
    ensures NoField(message) ==> Fatal(p, message, args) == Fatal(p, message, [])
  {
    if NoField(message) {
      FormatNoFields(message, args);
    }
  }

  /** `fatal` with one argument for a message with one `{}` field prints the argument in its place. */
  lemma FatalOneField(p: Proc, message: string, arg: string, pre: string, post: string)
    requires p.status.Running?
    requires message == pre + "{}" + post && NoField(pre + "{") && NoField(post)
    ensures Fatal(p, message, [arg]) == p.(out := p.out + ["ERROR: " + pre + arg + post], status := Exited(1))
  {
    FormatOneField(pre, post, arg);
    assert "ERROR: " + (pre + arg + post) == "ERROR: " + pre + arg + post;
  }

  /** `oxford_join(phrases)`. */
  function OxfordJoin(phrases: seq<string>): (r: string)
    ensures |phrases| == 0 ==> r == ""
    ensures |phrases| == 1 ==> r == phrases[0]
    ensures |phrases| == 2 ==> r == phrases[0] + " and " + phrases[1]
  {
    if |phrases| == 0 then ""
    else if |phrases| == 1 then phrases[0]
    else if |phrases| == 2 then Join(", ", phrases[..1]) + " and " + phrases[1]
    else Join(", ", phrases[..|phrases| - 1]) + ", and " + phrases[|phrases| - 1]
  }

  /**
   * With three or more phrases the result is the comma-joined list in which
   * the last phrase is preceded by "and", which is the serial comma.
   */
  lemma OxfordComma(phrases: seq<string>)
    requires |phrases| >= 3
    ensures OxfordJoin(phrases) == Join(", ", phrases[..|phrases| - 1] + ["and " + phrases[|phrases| - 1]])
  {
    JoinSnoc(", ", phrases[..|phrases| - 1], "and " + phrases[|phrases| - 1]);
  }
}
