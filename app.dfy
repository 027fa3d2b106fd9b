/** The two string rules of the server: the proxy prefix the application is
    mounted under, and the file a room's update log is kept in. */
module App {
  import opened Wrappers

  /** The root path the server is mounted under, from the value of the
      `COCAT_PROXY_PREFIX` environment variable (`None` when it is unset). A
      nonempty prefix gets a leading `/` if it lacks one, then loses one
      trailing `/` if it has one. */
  function RootPath(env: Option<string>): (r: string)
    ensures r == "" <==> env.GetOr("") == "" || env.GetOr("") == "/"
    ensures r != "" ==> r[0] == '/'
    ensures var p := env.GetOr("");
      p != "" && p != "/" ==>
        r == "/" + p[(if p[0] == '/' then 1 else 0) .. |p| - (if p[|p| - 1] == '/' then 1 else 0)]
  {
    var root := env.GetOr("");
    if root != "" then
      var led := if root[0] == '/' then root else "/" + root;
      if led[|led| - 1] == '/' then led[..|led| - 1] else led
    else
      ""
  }

  /** An unset variable and an empty one both mount at the root. */
  lemma UnsetIsEmpty()
    ensures RootPath(None) == RootPath(Some("")) == ""
  {
  }

  /** Only one trailing `/` is removed, so normalising is not idempotent:
      `//` becomes `/`, which becomes the empty prefix. */
  lemma RootPathNotIdempotent()
    ensures RootPath(Some("//")) == "/"
    ensures RootPath(Some(RootPath(Some("//")))) == ""
  {
  }

  /** A prefix already in normal form (a leading `/`, no trailing `/`) is
      left as it is, and a result without a trailing `/` normalises to
      itself. */
  lemma NormalFormIsFixed(p: string)
    requires p != "" && p[0] == '/' && p[|p| - 1] != '/'
    ensures RootPath(Some(p)) == p
  {
  }

  /** Giving the leading `/` oneself or leaving it to the rule makes no
      difference. */
  lemma LeadingSlashOptional(p: string)
    requires p != "" && p[0] != '/'
    ensures RootPath(Some("/" + p)) == RootPath(Some(p))
  {
  }

  /** `s.lstrip('/')`: `s` without any of its leading slashes. */
  function LStripSlashes(s: string): (r: string)
    ensures |r| <= |s| && s == Slashes(|s| - |r|) + r
    ensures r == [] || r[0] != '/'
    decreases |s|
  {
    if s != [] && s[0] == '/' then
      var r := LStripSlashes(s[1..]);
      var n := |s| - 1 - |r|;
      assert s[1..] == Slashes(n) + r;
      assert Slashes(n + 1) == "/" + Slashes(n);
      assert s == "/" + s[1..];
      assert "/" + (Slashes(n) + r) == ("/" + Slashes(n)) + r;
      r
    else
      assert s == "" + s;
      s
  }

  /** `k` slashes. */
  function Slashes(k: nat): (s: string)
    ensures |s| == k
  {
    if k == 0 then "" else "/" + Slashes(k - 1)
  }

  /** Every character of `Slashes(k)` is a slash. */
  lemma {:induction false} AllSlashes(k: nat)
    ensures forall i :: 0 <= i < k ==> Slashes(k)[i] == '/'
  {
    if k > 0 {
      AllSlashes(k - 1);
      assert forall i :: 1 <= i < k ==> Slashes(k)[i] == Slashes(k - 1)[i - 1];
    }
  }

  /** Stripping removes any number of leading slashes. */
  lemma {:induction false} StripSlashesPrefix(k: nat, s: string)
    ensures LStripSlashes(Slashes(k) + s) == LStripSlashes(s)
  {
    if k > 0 {
      var t := Slashes(k) + s;
      assert t == "/" + (Slashes(k - 1) + s);
      assert LStripSlashes(t) == LStripSlashes(Slashes(k - 1) + s);
      StripSlashesPrefix(k - 1, s);
    } else {
      assert Slashes(k) + s == s;
    }
  }

  /** Two strings strip to the same text exactly when they differ only in
      the number of their leading slashes. */
  lemma SameStripped(a: string, b: string)
    ensures LStripSlashes(a) == LStripSlashes(b) <==>
      exists i: nat, j: nat, t: string :: a == Slashes(i) + t && b == Slashes(j) + t
  {
    if LStripSlashes(a) == LStripSlashes(b) {
      var t := LStripSlashes(a);
      assert a == Slashes(|a| - |t|) + t && b == Slashes(|b| - |t|) + t;
    }
    if exists i: nat, j: nat, t: string :: a == Slashes(i) + t && b == Slashes(j) + t {
      var i, j, t :| a == Slashes(i) + t && b == Slashes(j) + t;
      StripSlashesPrefix(i, t);
      StripSlashesPrefix(j, t);
    }
  }

  /** A text stand-in for `Path(dir) / name`: the name after one `/`, and
      an empty name leaves the directory as it is. An empty directory is
      pathlib's `.`, so the name stands alone, and two empty texts give `.`.
      Pathlib's other clean-up (`.` segments, trailing and repeated slashes,
      the root directory) is not modelled. */
  function Join(dir: string, name: string): (r: string)
    ensures dir != "" && name != "" ==> |r| == |dir| + 1 + |name| && r[|dir|] == '/' && r[|dir| + 1..] == name
    ensures dir == "" && name != "" ==> r == name
    ensures name == "" ==> r == (if dir == "" then "." else dir)
    ensures r[..|dir|] == dir
  {
    if dir == "" then (if name == "" then "." else name)
    else if name == "" then dir
    else dir + "/" + name
  }

  /** The update log of room `roomId` under directory `dir`: the room id
      with all its leading slashes stripped, joined to the directory, with
      `.y` appended. */
  function RoomLogPath(dir: string, roomId: string): (r: string)
    ensures |r| >= |dir| + 2 && r[..|dir|] == dir && r[|r| - 2..] == ".y"
    ensures r == Join(dir, "") + ".y" <==>
      (forall i :: 0 <= i < |roomId| ==> roomId[i] == '/') || (dir == "" && LStripSlashes(roomId) == ".")
  {
    var name := LStripSlashes(roomId);
    var r := Join(dir, name) + ".y";
    assert r[..|dir|] == Join(dir, name)[..|dir|];
    assert (forall i :: 0 <= i < |roomId| ==> roomId[i] == '/') <==> name == "" by {
      var n := |roomId| - |name|;
      if name != "" {
        assert roomId[n] == (Slashes(n) + name)[n] == name[0];
      } else {
        AllSlashes(n);
        assert roomId == Slashes(n);
      }
    }
    assert r == Join(dir, "") + ".y" <==> name == "" || (dir == "" && name == ".") by {
      if dir != "" && name != "" {
        assert |r| != |Join(dir, "") + ".y"|;
      }
      if r == Join(dir, "") + ".y" && dir == "" {
        assert r[..|r| - 2] == Join(dir, name);
      }
    }
    r
  }

  /** Within a directory, the name part of the log path is the stripped
      room id and never starts with a slash; under the empty directory the
      stripped id is the whole name. */
  lemma LogFileName(dir: string, roomId: string)
    requires LStripSlashes(roomId) != ""
    ensures var r := RoomLogPath(dir, roomId);
      (dir != "" ==> r == dir + "/" + LStripSlashes(roomId) + ".y" && r[|dir| + 1] != '/') &&
      (dir == "" ==> r == LStripSlashes(roomId) + ".y" && r[0] != '/')
  {
  }

  /** Room ids that strip to the same text share a log file. Under the text
      join the converse holds too, except that under the empty directory
      the ids stripping to `""` and to `.` both give `..y`, as in pathlib. */
  lemma SameLogFile(dir: string, a: string, b: string)
    ensures RoomLogPath(dir, a) == RoomLogPath(dir, b) <==>
      LStripSlashes(a) == LStripSlashes(b) ||
      (dir == "" && {LStripSlashes(a), LStripSlashes(b)} == {"", "."})
  {
    var na, nb := LStripSlashes(a), LStripSlashes(b);
    if RoomLogPath(dir, a) == RoomLogPath(dir, b) {
      assert Join(dir, na) == Join(dir, nb) by {
        assert Join(dir, na) == RoomLogPath(dir, a)[..|RoomLogPath(dir, a)| - 2];
      }
      if dir != "" && na != "" && nb != "" {
        assert na == Join(dir, na)[|dir| + 1..];
      }
    }
  }

  /** Room ids that differ only in their number of leading slashes map to
      the same log file. */
  lemma LeadingSlashesShareLog(dir: string, k: nat, roomId: string)
    ensures RoomLogPath(dir, Slashes(k) + roomId) == RoomLogPath(dir, roomId)
  {
    StripSlashesPrefix(k, roomId);
  }
}
