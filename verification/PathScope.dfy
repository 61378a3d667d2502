/** The path gate of src/policy/exclusions.ts on a POSIX file system. A path is its list of segments;
    which paths exist, where they really are, where links lead, and which paths the patterns match are
    parameters. A link that leads nowhere does not count as existing. */
module PathScope {
  import opened Basics
  import opened TextLines

  type Path = seq<string>

  datatype Disk = Disk(present: Path -> bool, realPath: Path -> Path, linkTo: Path -> Option<Path>)

  /** `createPathScope`: the real root of the target, and its exclusion patterns. */
  datatype Scope = Scope(disk: Disk, root: Path, matches: string -> bool)

  // ---- paths --------------------------------------------------------------------------

  /** What lies between two slashes. */
  predicate IsSegment(segment: string) {
    segment != "" && '/' !in segment
  }

  ghost predicate AllSegments(path: Path) {
    forall i :: 0 <= i < |path| ==> IsSegment(path[i])
  }

  /** No `.` and no `..`. */
  ghost predicate Canonical(path: Path) {
    forall i :: 0 <= i < |path| ==> path[i] != "." && path[i] != ".."
  }

  /** What `join` and `resolve` make of further segments. */
  function Walk(base: Path, segments: Path): Path
    decreases |segments|
  {
    if |segments| == 0 then base
    else
      var next := if segments[0] == "." then base
        else if segments[0] == ".." then (if |base| == 0 then [] else base[..|base| - 1])
        else base + [segments[0]];
      Walk(next, segments[1..])
  }

  /** `path.split("/")` without the empty segments. */
  function SegmentsOf(text: string): Path {
    SegmentsAfter(text, "")
  }

  function SegmentsAfter(text: string, current: string): Path
    decreases |text|
  {
    var done := if current == "" then [] else [current];
    if text == "" then done
    else if text[0] == '/' then done + SegmentsAfter(text[1..], "")
    else SegmentsAfter(text[1..], current + [text[0]])
  }

  function JoinPath(segments: Path): string {
    if |segments| == 0 then ""
    else if |segments| == 1 then segments[0]
    else segments[0] + "/" + JoinPath(segments[1..])
  }

  function Reverse(s: Path): Path {
    if |s| == 0 then [] else Reverse(s[1..]) + [s[0]]
  }

  // ---- the nearest existing ancestor --------------------------------------------------

  /** The longest prefix that exists, if any does. */
  function NearestExisting(disk: Disk, path: Path): Option<nat>
    decreases |path|
  {
    if disk.present(path) then Some(|path|)
    else if |path| == 0 then None
    else NearestExisting(disk, path[..|path| - 1])
  }

  /** Where a path really is: its nearest existing ancestor resolved, and the rest put back. */
  function RealPath(disk: Disk, absolute: Path): Path {
    match NearestExisting(disk, absolute)
    case None => absolute
    case Some(n) => if n <= |absolute| then Walk(disk.realPath(absolute[..n]), absolute[n..]) else absolute
  }

  /** No prefix of at least this many segments exists. */
  ghost predicate NoneBeyond(disk: Disk, path: Path, n: nat) {
    forall m :: n <= m <= |path| ==> !disk.present(path[..m])
  }

  lemma {:induction false} NearestIsNearest(disk: Disk, path: Path)
    ensures match NearestExisting(disk, path)
      case Some(n) => n <= |path| && disk.present(path[..n]) && NoneBeyond(disk, path, n + 1)
      case None => NoneBeyond(disk, path, 0)
    decreases |path|
  {
    assert path[..|path|] == path;
    if !disk.present(path) && |path| > 0 {
      var parent := path[..|path| - 1];
      NearestIsNearest(disk, parent);
      assert forall m :: 0 <= m <= |parent| ==> parent[..m] == path[..m];
    }
  }

  lemma ReverseSnoc(s: Path, x: string)
    ensures Reverse(s + [x]) == [x] + Reverse(s)
    decreases |s|
  {
    if |s| > 0 {
      assert (s + [x])[1..] == s[1..] + [x];
      ReverseSnoc(s[1..], x);
    } else {
      assert s + [x] == [x];
    }
  }

  /** The walk up: whatever does not exist goes onto the tail, last segment first. */
  method RealPathOfNearestExisting(disk: Disk, absolute: Path) returns (place: Path)
    ensures place == RealPath(disk, absolute)
    ensures match NearestExisting(disk, absolute)
      case Some(n) => n <= |absolute| && place == Walk(disk.realPath(absolute[..n]), absolute[n..])
      case None => place == absolute
  {
    var tail: Path := [];
    var current := absolute;
    NearestIsNearest(disk, absolute);
    while true
      invariant current <= absolute && Reverse(tail) == absolute[|current|..]
      invariant NearestExisting(disk, current) == NearestExisting(disk, absolute)
      decreases |current|
    {
      assert absolute[..|current|] == current;
      if disk.present(current) {
        return Walk(disk.realPath(current), Reverse(tail));
      }
      var parent := if |current| == 0 then current else current[..|current| - 1];
      if parent == current {
        return absolute;
      }
      ReverseSnoc(tail, current[|current| - 1]);
      tail := tail + [current[|current| - 1]];
      assert absolute[|parent|..] == [current[|current| - 1]] + absolute[|current|..];
      current := parent;
    }
  }

  // ---- the decision -------------------------------------------------------------------

  datatype Decision = EmptyPath | Outside | Excluded(relativePath: string) | Allowed(relativePath: string)

  function Ups(n: nat): Path {
    if n == 0 then [] else [".."] + Ups(n - 1)
  }

  /** `relative(from, to)` on resolved paths. */
  function RelativeFrom(from: Path, to: Path): Path
    decreases |from|
  {
    if |from| > 0 && |to| > 0 && from[0] == to[0] then RelativeFrom(from[1..], to[1..]) else Ups(|from|) + to
  }

  function Absolute(scope: Scope, path: string): Path {
    if path != "" && path[0] == '/' then SegmentsOf(path) else Walk(scope.root, SegmentsOf(path))
  }

  /** Where the gate takes a path to land, with every `.` and `..` walked out. */
  function Location(scope: Scope, path: string): Path {
    Walk([], RealPath(scope.disk, Absolute(scope, path)))
  }

  /** Some prefix matches, whole segments at a time. */
  predicate IsExcluded(scope: Scope, relativePath: string) {
    var segments := SegmentsOf(relativePath);
    exists depth :: 1 <= depth <= |segments| && scope.matches(JoinPath(segments[..depth]))
  }

  predicate ClimbsOut(relative: Path) {
    |relative| > 0 && ".." <= relative[0]
  }

  function Check(scope: Scope, path: string): Decision {
    if |Trim(path)| == 0 then EmptyPath
    else
      var relative := RelativeFrom(scope.root, Location(scope, path));
      if ClimbsOut(relative) then Outside
      else if IsExcluded(scope, JoinPath(relative)) then Excluded(JoinPath(relative))
      else Allowed(JoinPath(relative))
  }

  /** Every ancestor is tested, the shortest first. */
  method TestExcluded(scope: Scope, relativePath: string) returns (excluded: bool)
    ensures excluded == IsExcluded(scope, relativePath)
  {
    var segments := SegmentsOf(relativePath);
    for depth := 1 to |segments| + 1
      invariant forall d :: 1 <= d < depth ==> !scope.matches(JoinPath(segments[..d]))
    {
      if scope.matches(JoinPath(segments[..depth])) {
        return true;
      }
    }
    excluded := false;
  }

  method CheckPath(scope: Scope, path: string) returns (decision: Decision)
    ensures decision == Check(scope, path)
  {
    if |Trim(path)| == 0 {
      return EmptyPath;
    }
    var absolute := Absolute(scope, path);
    var place := RealPathOfNearestExisting(scope.disk, absolute);
    var relative := RelativeFrom(scope.root, Walk([], place));
    if ClimbsOut(relative) {
      return Outside;
    }
    var relativePath := JoinPath(relative);
    var excluded := TestExcluded(scope, relativePath);
    decision := if excluded then Excluded(relativePath) else Allowed(relativePath);
  }

  // ---- segments and text --------------------------------------------------------------

  lemma {:induction false} AfterSlash(a: string, b: string, current: string)
    ensures SegmentsAfter(a + "/" + b, current) == SegmentsAfter(a, current) + SegmentsOf(b)
    decreases |a|
  {
    var t := a + "/" + b;
    if a == "" {
      assert t == ['/'] + b;
    } else {
      assert t == [a[0]] + (a[1..] + "/" + b);
      if a[0] == '/' {
        AfterSlash(a[1..], b, "");
      } else {
        AfterSlash(a[1..], b, current + [a[0]]);
      }
    }
  }

  lemma {:induction false} OneSegment(segment: string, current: string)
    requires '/' !in segment && segment != ""
    ensures SegmentsAfter(segment, current) == [current + segment]
    decreases |segment|
  {
    var next := current + [segment[0]];
    assert current + segment == next + segment[1..];
    if segment[1..] == "" {
      assert next + "" == next;
      assert SegmentsAfter("", next) == [next];
    } else {
      OneSegment(segment[1..], next);
    }
  }

  /** Joining segments and splitting them again gives them back. */
  lemma {:induction false} SplitOfJoin(path: Path)
    requires AllSegments(path)
    ensures SegmentsOf(JoinPath(path)) == path
  {
    if |path| == 1 {
      assert IsSegment(path[0]);
      OneSegment(path[0], "");
      assert "" + path[0] == path[0];
    } else if |path| > 1 {
      assert IsSegment(path[0]);
      OneSegment(path[0], "");
      assert "" + path[0] == path[0];
      AfterSlash(path[0], JoinPath(path[1..]), "");
      SplitOfJoin(path[1..]);
    }
  }

  lemma {:induction false} SegmentsAreSegments(text: string, current: string)
    requires '/' !in current
    ensures AllSegments(SegmentsAfter(text, current))
    decreases |text|
  {
    if text != "" {
      if text[0] == '/' {
        SegmentsAreSegments(text[1..], "");
      } else {
        SegmentsAreSegments(text[1..], current + [text[0]]);
      }
    }
  }

  /** Exclusion is inherited: what is under an excluded path is excluded. */
  lemma ExclusionIsInherited(scope: Scope, relativePath: string, below: string)
    requires IsExcluded(scope, relativePath)
    ensures IsExcluded(scope, relativePath + "/" + below)
  {
    AfterSlash(relativePath, below, "");
    var segments := SegmentsOf(relativePath);
    var all := SegmentsOf(relativePath + "/" + below);
    var depth :| 1 <= depth <= |segments| && scope.matches(JoinPath(segments[..depth]));
    assert all[..depth] == segments[..depth];
  }

  // ---- walking ------------------------------------------------------------------------

  /** Walking goes segment by segment: a name goes down, two dots go up, one dot stays. */
  lemma {:induction false} WalkIsStepwise(base: Path, a: Path, b: Path)
    ensures Walk(base, a + b) == Walk(Walk(base, a), b)
    ensures |a| == 1 ==>
      Walk(base, a) ==
        if a[0] == "." then base else if a[0] == ".." then base[..if |base| == 0 then 0 else |base| - 1] else base + a
    decreases |a|
  {
    if |a| == 0 {
      assert a + b == b;
    } else {
      TakeDrop(a, b);
      var next := if a[0] == "." then base
        else if a[0] == ".." then (if |base| == 0 then [] else base[..|base| - 1])
        else base + [a[0]];
      WalkIsStepwise(next, a[1..], b);
      assert |a| == 1 ==> a == [a[0]] && a[1..] == [] && Walk(next, []) == next;
    }
  }

  lemma {:induction false} WalkIsCanonical(base: Path, segments: Path)
    requires Canonical(base)
    ensures Canonical(Walk(base, segments))
    decreases |segments|
  {
    if |segments| > 0 {
      var next := if segments[0] == "." then base
        else if segments[0] == ".." then (if |base| == 0 then [] else base[..|base| - 1])
        else base + [segments[0]];
      WalkIsCanonical(next, segments[1..]);
    }
  }

  lemma {:induction false} WalkKeepsSegments(base: Path, segments: Path)
    requires AllSegments(base) && AllSegments(segments)
    ensures AllSegments(Walk(base, segments))
    decreases |segments|
  {
    hide IsSegment;
    if |segments| > 0 {
      var next := if segments[0] == "." then base
        else if segments[0] == ".." then (if |base| == 0 then [] else base[..|base| - 1])
        else base + [segments[0]];
      WalkKeepsSegments(next, segments[1..]);
    }
  }

  lemma {:induction false} RelativeOf(from: Path, to: Path)
    requires Canonical(to)
    ensures from <= to ==> RelativeFrom(from, to) == to[|from|..]
    ensures !(from <= to) ==> ClimbsOut(RelativeFrom(from, to))
    decreases |from|
  {
    if |from| > 0 && |to| > 0 && from[0] == to[0] {
      RelativeOf(from[1..], to[1..]);
      assert from <= to <==> from[1..] <= to[1..] by {
        assert from == [from[0]] + from[1..] && to == [to[0]] + to[1..];
      }
    } else if |from| == 0 {
      assert Ups(0) + to == to;
    } else {
      assert (Ups(|from|) + to)[0] == "..";
    }
  }

  // ---- what the gate promises ---------------------------------------------------------

  /** `realpath` and the root it gave are made of real segments. */
  ghost predicate Sane(scope: Scope) {
    AllSegments(scope.root) && forall p :: AllSegments(scope.disk.realPath(p))
  }

  lemma LocationIsReal(scope: Scope, path: string)
    requires Sane(scope)
    ensures Canonical(Location(scope, path)) && AllSegments(Location(scope, path))
  {
    var absolute := Absolute(scope, path);
    SegmentsAreSegments(path, "");
    WalkKeepsSegments(scope.root, SegmentsOf(path));
    var place := RealPath(scope.disk, absolute);
    NearestIsNearest(scope.disk, absolute);
    match NearestExisting(scope.disk, absolute) {
      case None =>
      case Some(n) => WalkKeepsSegments(scope.disk.realPath(absolute[..n]), absolute[n..]);
    }
    WalkIsCanonical([], place);
    WalkKeepsSegments([], place);
  }

  /** No prefix of these segments is matched by an exclusion pattern. */
  ghost predicate NothingExcluded(scope: Scope, segments: Path) {
    forall depth :: 1 <= depth <= |segments| ==> !scope.matches(JoinPath(segments[..depth]))
  }

  /** A path is allowed exactly when it is not blank and lands on the root plus some segments, none of
      them `..`, no leading part of them excluded, and the first of them not so much as starting with
      two dots: an ordinary file called `..notes` at the top of the target is refused as well. */
  lemma AllowedIff(scope: Scope, path: string)
    requires Sane(scope)
    ensures var location := Location(scope, path);
      Canonical(location) &&
      (Check(scope, path).Allowed? <==>
        |Trim(path)| > 0 && scope.root <= location && !ClimbsOut(location[|scope.root|..]) &&
        NothingExcluded(scope, location[|scope.root|..]))
    ensures Check(scope, path).EmptyPath? <==> |Trim(path)| == 0
    ensures var location := Location(scope, path);
      Check(scope, path).Excluded? <==>
        |Trim(path)| > 0 && scope.root <= location && !ClimbsOut(location[|scope.root|..]) &&
        !NothingExcluded(scope, location[|scope.root|..])
    ensures Check(scope, path).Allowed? || Check(scope, path).Excluded? ==>
      Check(scope, path).relativePath == JoinPath(Location(scope, path)[|scope.root|..])
  {
    hide Location, Trim;
    var location := Location(scope, path);
    LocationIsReal(scope, path);
    RelativeOf(scope.root, location);
    if scope.root <= location {
      SplitOfJoin(location[|scope.root|..]);
    }
  }

  /** Such a file: its place is inside, and it is refused. */
  lemma TwoDotsAreRefused(name: string)
    requires IsSegment(name) && ".." < name && |Trim(name)| > 0
    ensures var scope := Scope(Disk(p => p == ["r"], p => p, p => None), ["r"], text => false);
      Location(scope, name) == ["r", name] && Check(scope, name) == Outside
  {
    hide Trim;
    var scope := Scope(Disk(p => p == ["r"], p => p, p => None), ["r"], text => false);
    OneSegment(name, "");
    assert "" + name == name && name[0] == '.' && name != "." && name != "..";
    WalkOne(["r"], name);
    assert Absolute(scope, name) == ["r", name];
    assert ["r", name][..1] == ["r"] && ["r", name][1..] == [name];
    assert NearestExisting(scope.disk, ["r", name]) == Some(1);
    WalkOne([], "r");
    WalkTwo("r", name);
    RelativeOf(["r"], ["r", name]);
  }

  lemma WalkOne(base: Path, name: string)
    requires name != "." && name != ".."
    ensures Walk(base, [name]) == base + [name]
  {
    assert [name][1..] == [];
  }

  lemma WalkTwo(a: string, b: string)
    requires a != "." && a != ".." && b != "." && b != ".."
    ensures Walk([], [a, b]) == [a, b]
  {
    assert [a, b][1..] == [b];
    WalkOne([a], b);
    assert [] + [a] == [a];
  }

  // ---- links that lead nowhere --------------------------------------------------------

  /** Where a path goes on to when the first of it that does not exist is a link all the same. */
  function Onward(disk: Disk, absolute: Path): Option<Path> {
    match NearestExisting(disk, absolute)
    case None => None
    case Some(n) =>
      if n >= |absolute| then None
      else match disk.linkTo(disk.realPath(absolute[..n]) + [absolute[n]])
        case None => None
        case Some(target) => Some(target + absolute[n + 1..])
  }

  /** Where the system would put a new file of this path, following such links for this many hops. */
  function Landing(disk: Disk, absolute: Path, hops: nat): Option<Path>
    decreases hops
  {
    match Onward(disk, absolute)
    case None => Some(Walk([], RealPath(disk, absolute)))
    case Some(next) => if hops == 0 then None else Landing(disk, next, hops - 1)
  }

  ghost predicate LandsOutside(scope: Scope, absolute: Path, hops: nat) {
    Landing(scope.disk, absolute, hops).Some? && !(scope.root <= Landing(scope.disk, absolute, hops).value)
  }

  /** What the gate misses, and nothing else: an allowed path lands outside the target exactly when the
      first of it that does not exist is a link, and the place that link leads to lands outside. */
  lemma AllowedLandsOutsideIff(scope: Scope, path: string, hops: nat)
    requires Sane(scope) && Check(scope, path).Allowed?
    ensures var onward := Onward(scope.disk, Absolute(scope, path));
      LandsOutside(scope, Absolute(scope, path), hops) <==>
        onward.Some? && hops > 0 && LandsOutside(scope, onward.value, hops - 1)
  {
    AllowedIff(scope, path);
    hide Check, Sane, Onward, Walk, RealPath, Absolute, ClimbsOut, NothingExcluded, Trim;
  }

  /** So where no such link is in the way, an allowed path lands where the gate says, inside. */
  lemma AllowedLandsInside(scope: Scope, path: string, hops: nat)
    requires Sane(scope) && Check(scope, path).Allowed? && Onward(scope.disk, Absolute(scope, path)).None?
    ensures Landing(scope.disk, Absolute(scope, path), hops) == Some(Location(scope, path))
    ensures scope.root <= Location(scope, path)
  {
    AllowedIff(scope, path);
    hide Check, Sane, Onward, Walk, RealPath, Absolute, ClimbsOut, NothingExcluded, Trim;
  }

  /** A target at `/r` with a link `out` in it, to a place `/x` that is not there yet. */
  function LinkedScope(): Scope {
    Scope(Disk(p => |p| == 0 || p == ["r"], p => p, p => if p == ["r", "out"] then Some(["x"]) else None), ["r"], text => false)
  }

  lemma LinkIsAbsolute()
    ensures Absolute(LinkedScope(), "out") == ["r", "out"]
  {
    OneSegment("out", "");
    assert "" + "out" == "out";
    WalkOne(["r"], "out");
  }

  lemma LinkStaysInside()
    ensures Location(LinkedScope(), "out") == ["r", "out"]
  {
    var scope := LinkedScope();
    LinkIsAbsolute();
    WalkTwo("r", "out");
    WalkOne(["r"], "out");
    assert ["r", "out"][..1] == ["r"] && ["r", "out"][1..] == ["out"];
    assert NearestExisting(scope.disk, ["r", "out"]) == Some(1);
  }

  lemma LinkIsAllowed()
    ensures Check(LinkedScope(), "out").Allowed?
  {
    LinkStaysInside();
    TrimEmptyIffBlank("out");
    assert !IsTrimSpace("out"[0]);
    hide Location, Trim, IsTrimSpace;
    RelativeOf(["r"], ["r", "out"]);
    assert ["r", "out"][1..] == ["out"];
  }

  lemma LinkLeadsOn()
    ensures Onward(LinkedScope().disk, ["r", "out"]) == Some(["x"]) && Onward(LinkedScope().disk, ["x"]) == None
  {
    var disk := LinkedScope().disk;
    assert ["r", "out"][..1] == ["r"] && ["r", "out"][2..] == [] && ["x"] + [] == ["x"];
    assert NearestExisting(disk, ["r", "out"]) == Some(1);
    assert ["r"] + ["out"] == ["r", "out"];
    assert ["x"][..0] == [];
    assert "r"[0] != "x"[0];
    assert NearestExisting(disk, ["x"]) == Some(0);
    assert |[] + ["x"]| == 1;
  }

  /** It is allowed, and a file written to it is put outside. */
  lemma LinkToNowhereLandsOutside()
    ensures Check(LinkedScope(), "out").Allowed? && LandsOutside(LinkedScope(), Absolute(LinkedScope(), "out"), 1)
  {
    LinkIsAllowed();
    LinkIsAbsolute();
    LinkLeadsOn();
    var disk := LinkedScope().disk;
    assert ["x"][..0] == [] && ["x"][0..] == ["x"] && "r"[0] != "x"[0];
    assert NearestExisting(disk, ["x"]) == Some(0);
    WalkOne([], "x");
    assert [] + ["x"] == ["x"];
    assert Landing(disk, ["x"], 0) == Some(["x"]);
  }
}
