/** gpumpsmetric/gpumpsmetric.go, getgpuprocess: the processes on a GPU and the container each runs in. */
module Processes {
  import opened Wrappers
  import opened Strings

  /** A process as the driver and /proc report it: `cgroup` holds the lines of its cgroup file. */
  datatype Process = Process(pid: nat, usedGpuMemory: nat, name: string, cgroup: seq<string>)

  /** What one cgroup line contributes to the container list. */
  datatype Line = Other | Short | Usable(id: string)

  /** The indexes that the code uses on a line are in range. */
  predicate WellFormed(line: string) {
    var cgroups := Split(line, '/');
    |cgroups| >= 2 && (Kubepods(cgroups) ==> |cgroups| != 4)
  }

  predicate Kubepods(cgroups: seq<string>)
    requires |cgroups| >= 2
  {
    cgroups[1] == "kubepods" || cgroups[1] == "kubepods.slice"
  }

  /** A container name is `cri-<id>.scope` under systemd and the bare id otherwise. */
  function ContainerName(segment: string): string {
    var parts := Split(segment, '-');
    if |parts| > 1 then Split(parts[1], '.')[0] else segment
  }

  function Classify(line: string): Line
    requires WellFormed(line)
  {
    var cgroups := Split(line, '/');
    if !Kubepods(cgroups) then Other
    else if |cgroups| > 3 then Usable(ContainerName(cgroups[4]))
    else Short
  }

  /** No line met by the scan of a cgroup file runs into an index panic; the scan ends at the first usable line. */
  predicate Scannable(lines: seq<string>) {
    lines == [] || (WellFormed(lines[0]) && (Classify(lines[0]).Usable? || Scannable(lines[1..])))
  }

  predicate Readable(procs: seq<Process>) { forall i :: 0 <= i < |procs| ==> Scannable(procs[i].cgroup) }

  /** The list entries of one process: an empty one for each short line met, until a usable line ends the scan. */
  function Entries(lines: seq<string>): seq<string>
    requires Scannable(lines)
  {
    if lines == [] then []
    else match Classify(lines[0])
      case Other => Entries(lines[1..])
      case Short => [""] + Entries(lines[1..])
      case Usable(id) => [id]
  }

  predicate Counted(lines: seq<string>)
    requires Scannable(lines)
  {
    lines != [] && (Classify(lines[0]).Usable? || Counted(lines[1..]))
  }

  function AllEntries(procs: seq<Process>): seq<string>
    requires Readable(procs)
  {
    if procs == [] then [] else AllEntries(procs[..|procs| - 1]) + Entries(procs[|procs| - 1].cgroup)
  }

  function Names(procs: seq<Process>): (r: seq<string>)
    ensures |r| == |procs|
    ensures forall k :: 0 <= k < |r| ==> r[k] == procs[k].name
  {
    if procs == [] then [] else Names(procs[..|procs| - 1]) + [procs[|procs| - 1].name]
  }

  /** mpscount */
  function CountedProcesses(procs: seq<Process>): (n: nat)
    requires Readable(procs)
    ensures n <= |procs|
  {
    if procs == [] then 0
    else CountedProcesses(procs[..|procs| - 1]) + (if Counted(procs[|procs| - 1].cgroup) then 1 else 0)
  }

  /** The positions of the counted processes: their number is what is counted. */
  ghost function CountedAt(procs: seq<Process>): set<nat>
    requires Readable(procs)
  {
    set k: nat | k < |procs| && Counted(procs[k].cgroup)
  }

  lemma {:induction false} CountedIs(procs: seq<Process>)
    requires Readable(procs)
    ensures CountedProcesses(procs) == |CountedAt(procs)|
  {
    if procs != [] {
      var n := |procs| - 1;
      CountedIs(procs[..n]);
      assert CountedAt(procs) == CountedAt(procs[..n]) + (if Counted(procs[n].cgroup) then {n} else {});
    }
  }

  /** What one more process adds to the scan. */
  lemma ProcessStep(procs: seq<Process>, i: nat)
    requires i < |procs| && Readable(procs[..i]) && Scannable(procs[i].cgroup)
    ensures Readable(procs[..i + 1])
    ensures Names(procs[..i + 1]) == Names(procs[..i]) + [procs[i].name]
    ensures AllEntries(procs[..i + 1]) == AllEntries(procs[..i]) + Entries(procs[i].cgroup)
    ensures CountedProcesses(procs[..i + 1])
        == CountedProcesses(procs[..i]) + (if Counted(procs[i].cgroup) then 1 else 0)
  {
    assert procs[..i + 1][..i] == procs[..i];
    assert forall j :: 0 <= j < i ==> procs[..i + 1][j] == procs[..i][j];
  }

  /** processinfo: three lists that the join reads in parallel. */
  class ProcessInfo {
    var nvmlprocess: seq<Process>
    var name: seq<string>
    var containerId: seq<string>

    constructor ()
    {
      nvmlprocess, name, containerId := [], [], [];
    }

    /** None stands for an index panic on a cgroup line. */
    method GetGpuProcess(procs: seq<Process>) returns (mpscount: Option<nat>)
      modifies this
      ensures mpscount.Some? <==> Readable(procs)
      ensures mpscount.Some? ==> nvmlprocess == procs && name == Names(procs) && containerId == AllEntries(procs)
      ensures mpscount.Some? ==> mpscount.value == CountedProcesses(procs)
    {
      var count := 0;
      nvmlprocess, name, containerId := procs, [], [];
      for i := 0 to |procs|
        invariant Readable(procs[..i])
        invariant nvmlprocess == procs && name == Names(procs[..i]) && containerId == AllEntries(procs[..i])
        invariant count == CountedProcesses(procs[..i])
      {
        var usable := ScanCgroup(procs[i].cgroup);
        if usable.None? {
          return None;
        }
        ProcessStep(procs, i);
        count := count + usable.value;
        name := name + [procs[i].name];
      }
      assert procs[..|procs|] == procs;
      mpscount := Some(count);
    }

    /** The scan of one cgroup file. */
    method ScanCgroup(lines: seq<string>) returns (mpscount: Option<nat>)
      modifies this`containerId
      ensures mpscount.Some? <==> Scannable(lines)
      ensures mpscount.Some? ==> containerId == old(containerId) + Entries(lines)
      ensures mpscount.Some? ==> mpscount.value == if Counted(lines) then 1 else 0
    {
      var j := 0;
      while j < |lines|
        invariant j <= |lines|
        invariant Scannable(lines[j..]) <==> Scannable(lines)
        invariant Scannable(lines) ==> containerId + Entries(lines[j..]) == old(containerId) + Entries(lines)
        invariant Scannable(lines) ==> (Counted(lines[j..]) <==> Counted(lines))
      {
        assert lines[j..][1..] == lines[j + 1..];
        if !WellFormed(lines[j]) {
          return None;
        }
        match Classify(lines[j]) {
          case Other =>
          case Short =>
            containerId := containerId + [""];
          case Usable(id) =>
            containerId := containerId + [id];
            return Some(1);
        }
        j := j + 1;
      }
      mpscount := Some(0);
    }
  }

  // ----- what the text of a line says

  /** A line is its pieces between slashes; the second one and their number decide what becomes of it. */
  lemma LineClass(pieces: seq<string>)
    requires pieces != [] && forall i :: 0 <= i < |pieces| ==> '/' !in pieces[i]
    ensures var line := Join(pieces, '/');
            var pods := |pieces| >= 2 && (pieces[1] == "kubepods" || pieces[1] == "kubepods.slice");
            && (WellFormed(line) <==> |pieces| >= 2 && !(pods && |pieces| == 4))
            && (|pieces| >= 2 && !pods ==> Classify(line) == Other)
            && (pods && |pieces| <= 3 ==> Classify(line) == Short)
            && (pods && |pieces| >= 5 ==> Classify(line) == Usable(ContainerName(pieces[4])))
  {
    JoinSplit(pieces, '/');
  }

  /** The container name in a segment <runtime>-<id>.scope, or in any other with something after the second dash or
      the first dot: what stands between the first dash and these. */
  lemma NameBehindDash(runtime: string, id: string, rest: string)
    requires '-' !in runtime && '-' !in id && '.' !in id
    requires rest == "" || rest[0] == '.' || rest[0] == '-'
    ensures ContainerName(runtime + "-" + id + rest) == id
  {
    assert runtime + "-" + id + rest == runtime + ['-'] + (id + rest);
    SplitHead(runtime, id + rest, '-');
    FirstPieceExtends(id, rest, '-');
    var tail := Split(rest, '-')[0];
    assert tail == "" || tail[0] == '.';
    FirstPieceExtends(id, tail, '.');
    assert id + Split(tail, '.')[0] == id;
  }

  lemma ScopeName(runtime: string, id: string)
    requires '-' !in runtime && '-' !in id && '.' !in id
    ensures ContainerName(runtime + "-" + id + ".scope") == id
  {
    NameBehindDash(runtime, id, ".scope");
  }

  /** A segment without dashes is the container name itself. */
  lemma BareName(id: string)
    requires '-' !in id
    ensures ContainerName(id) == id
  {
    SplitWhole(id, '-');
  }

  /** A runtime whose own name has a dash, such as cri-containerd: what stands between that dash and the next dash or
      dot is taken for the container, so the id is found exactly if it is the same text. */
  lemma DashedRuntime(first: string, second: string, tail: string, id: string)
    requires '-' !in first && '-' !in second && '.' !in second
    requires tail == "" || tail[0] == '.' || tail[0] == '-'
    ensures var runtime := first + "-" + second + tail;
            && ContainerName(runtime + "-" + id + ".scope") == second
            && (ContainerName(runtime + "-" + id + ".scope") == id <==> second == id)
  {
    var rest := tail + "-" + id + ".scope";
    assert rest[0] == if tail == "" then '-' else tail[0];
    NameBehindDash(first, second, rest);
    assert first + "-" + second + tail + "-" + id + ".scope" == first + "-" + second + rest;
  }

  /** The line of a container under one of the two roots, with two directories between: the next segment names it. */
  lemma LineNames(x: string, root: string, a: string, b: string, segment: string)
    requires '/' !in x && '/' !in a && '/' !in b && '/' !in segment
    requires root == "kubepods" || root == "kubepods.slice"
    ensures var line := x + "/" + root + "/" + a + "/" + b + "/" + segment;
            WellFormed(line) && Classify(line) == Usable(ContainerName(segment))
  {
    var pieces := [x, root, a, b, segment];
    JoinOfFive(x, root, a, b, segment, '/');
    LineClass(pieces);
  }

  lemma JoinOfFive(p: string, q: string, r: string, s: string, t: string, sep: char)
    ensures Join([p, q, r, s, t], sep) == p + [sep] + q + [sep] + r + [sep] + s + [sep] + t
  {
    assert Join([p, q, r, s, t], sep) == p + [sep] + Join([q, r, s, t], sep) by {
      assert [p, q, r, s, t][1..] == [q, r, s, t];
    }
    assert Join([q, r, s, t], sep) == q + [sep] + Join([r, s, t], sep) by { assert [q, r, s, t][1..] == [r, s, t]; }
    assert Join([r, s, t], sep) == r + [sep] + Join([s, t], sep) by { assert [r, s, t][1..] == [s, t]; }
    assert Join([s, t], sep) == s + [sep] + t by { assert [s, t][1..] == [t]; }
    Associate(p, q, r, s, t, [sep]);
  }

  lemma Associate(p: string, q: string, r: string, s: string, t: string, sep: string)
    ensures p + sep + (q + sep + (r + sep + (s + sep + t))) == p + sep + q + sep + r + sep + s + sep + t
  {
  }

  /** End to end: the scan of a container's line yields the container's id, under systemd and otherwise. */
  lemma LineOfContainer(x: string, root: string, a: string, b: string, runtime: string, id: string)
    requires '/' !in x && '/' !in a && '/' !in b && '/' !in runtime && '/' !in id
    requires root == "kubepods" || root == "kubepods.slice"
    requires '-' !in runtime && '-' !in id && '.' !in id
    ensures var path := x + "/" + root + "/" + a + "/" + b + "/";
            && WellFormed(path + runtime + "-" + id + ".scope") && WellFormed(path + id)
            && Classify(path + runtime + "-" + id + ".scope") == Usable(id)
            && Classify(path + id) == Usable(id)
  {
    var path := x + "/" + root + "/" + a + "/" + b + "/";
    var segment := runtime + "-" + id + ".scope";
    LineNames(x, root, a, b, segment);
    LineNames(x, root, a, b, id);
    assert path + runtime + "-" + id + ".scope" == path + segment;
    ScopeName(runtime, id);
    BareName(id);
  }

  // ----- what the scan of a cgroup file yields

  function Classes(lines: seq<string>): (r: seq<Line>)
    requires forall i :: 0 <= i < |lines| ==> WellFormed(lines[i])
    ensures |r| == |lines| && forall i :: 0 <= i < |r| ==> r[i] == Classify(lines[i])
  {
    if lines == [] then [] else [Classify(lines[0])] + Classes(lines[1..])
  }

  /** None of these lines ends the scan. */
  ghost predicate Passed(lines: seq<string>) {
    forall i :: 0 <= i < |lines| ==> WellFormed(lines[i]) && !Classify(lines[i]).Usable?
  }

  /** The scan of `all` comes to `rest` with so many empty entries and without having counted the process. */
  ghost predicate PassedOver(all: seq<string>, rest: seq<string>, shorts: nat) {
    && (Scannable(all) <==> Scannable(rest))
    && (Scannable(rest) ==> Entries(all) == Repeat("", shorts) + Entries(rest) && (Counted(all) <==> Counted(rest)))
  }

  /** One more line in front. */
  lemma ScanNext(line: string, all: seq<string>, rest: seq<string>, shorts: nat)
    requires WellFormed(line) && !Classify(line).Usable? && PassedOver(all, rest, shorts)
    ensures PassedOver([line] + all, rest, shorts + (if Classify(line) == Short then 1 else 0))
  {
    assert ([line] + all)[0] == line && ([line] + all)[1..] == all;
    if Scannable(rest) {
      RepeatFront("", shorts);
      assert [""] + (Repeat("", shorts) + Entries(rest)) == ([""] + Repeat("", shorts)) + Entries(rest);
    }
  }

  /** Lines that do not end the scan leave an empty entry for each short one; the line behind them is met next. */
  lemma {:induction false} ScanPasses(lines: seq<string>, rest: seq<string>)
    requires Passed(lines)
    ensures PassedOver(lines + rest, rest, Count(Classes(lines), Short))
  {
    if lines == [] {
      NothingPassed(lines, rest);
    } else {
      ShortsFront(lines);
      ScanPasses(lines[1..], rest);
      FirstPassed(lines, rest, Count(Classes(lines[1..]), Short));
    }
  }

  lemma NothingPassed(lines: seq<string>, rest: seq<string>)
    requires lines == []
    ensures PassedOver(lines + rest, rest, 0)
  {
    assert lines + rest == rest;
  }

  lemma FirstPassed(lines: seq<string>, rest: seq<string>, shorts: nat)
    requires lines != [] && WellFormed(lines[0]) && !Classify(lines[0]).Usable?
    requires PassedOver(lines[1..] + rest, rest, shorts)
    ensures PassedOver(lines + rest, rest, shorts + (if Classify(lines[0]) == Short then 1 else 0))
  {
    ScanNext(lines[0], lines[1..] + rest, rest, shorts);
    assert lines + rest == [lines[0]] + (lines[1..] + rest);
  }

  lemma ClassesFront(lines: seq<string>)
    requires lines != [] && Passed(lines)
    ensures Passed(lines[1..])
    ensures Classes(lines)[0] == Classify(lines[0]) && Classes(lines)[1..] == Classes(lines[1..])
  {
  }

  lemma ShortsFront(lines: seq<string>)
    requires lines != [] && Passed(lines)
    ensures Passed(lines[1..])
    ensures Count(Classes(lines), Short)
         == Count(Classes(lines[1..]), Short) + (if Classify(lines[0]) == Short then 1 else 0)
  {
    CountPop(Classes(lines), Short);
    ClassesFront(lines);
  }

  lemma RepeatFront<T>(x: T, n: nat)
    ensures Repeat(x, n + 1) == [x] + Repeat(x, n)
  {
    assert |Repeat(x, n + 1)| == |[x] + Repeat(x, n)|;
  }

  /** The whole scan: it ends at the first usable line, whatever comes after it, with that line's container as the
      last entry, and counts the process; without such a line there are only empty entries and it is not counted. */
  lemma ScanYields(lines: seq<string>, line: string, rest: seq<string>)
    requires Passed(lines) && WellFormed(line) && Classify(line).Usable?
    ensures Scannable(lines) && Entries(lines) == Repeat("", Count(Classes(lines), Short)) && !Counted(lines)
    ensures var all := lines + [line] + rest;
            && Scannable(all) && Counted(all)
            && Entries(all) == Repeat("", Count(Classes(lines), Short)) + [Classify(line).id]
  {
    ScanPasses(lines, []);
    assert lines + [] == lines;
    ScanPasses(lines, [line] + rest);
    assert ([line] + rest)[0] == line;
    assert lines + [line] + rest == lines + ([line] + rest);
  }

  // ----- alignment of the container list with the process list

  /** For each entry of the container list, the process it came from. */
  function Origins(procs: seq<Process>): (r: seq<nat>)
    requires Readable(procs)
    ensures |r| == |AllEntries(procs)|
    ensures forall i :: 0 <= i < |r| ==> r[i] < |procs|
  {
    if procs == [] then []
    else Origins(procs[..|procs| - 1]) + Repeat(|procs| - 1, |Entries(procs[|procs| - 1].cgroup)|)
  }

  /** Entry k of the container list belongs to process k, for every k: what the join relies on. */
  ghost predicate Aligned(procs: seq<Process>)
    requires Readable(procs)
  {
    |AllEntries(procs)| == |procs| && forall k :: 0 <= k < |procs| ==> Origins(procs)[k] == k
  }

  ghost predicate OneEntryEach(procs: seq<Process>)
    requires Readable(procs)
  {
    forall k :: 0 <= k < |procs| ==> |Entries(procs[k].cgroup)| == 1
  }

  /** The lists are aligned exactly when every process contributes one entry: a process outside the pods shifts
      all later entries, and one with a short line before its usable line does so in the other direction. */
  lemma {:induction false} AlignedIffOneEntryEach(procs: seq<Process>)
    requires Readable(procs)
    ensures Aligned(procs) <==> OneEntryEach(procs)
    ensures OneEntryEach(procs) ==> forall k :: 0 <= k < |procs| ==> AllEntries(procs)[k] == Entries(procs[k].cgroup)[0]
  {
    if procs != [] {
      var front, last := procs[..|procs| - 1], procs[|procs| - 1];
      AlignedIffOneEntryEach(front);
      OneEntryEachFront(procs);
      if Aligned(procs) { AlignedFront(procs); }
      if Aligned(front) && |Entries(last.cgroup)| == 1 { AlignedBack(procs); }
    }
  }

  lemma OneEntryEachFront(procs: seq<Process>)
    requires Readable(procs) && procs != []
    ensures OneEntryEach(procs) <==> OneEntryEach(procs[..|procs| - 1]) && |Entries(procs[|procs| - 1].cgroup)| == 1
  {
    var n := |procs| - 1;
    assert forall k :: 0 <= k < n ==> procs[..n][k] == procs[k];
  }

  lemma AlignedFront(procs: seq<Process>)
    requires Readable(procs) && procs != [] && Aligned(procs)
    ensures Aligned(procs[..|procs| - 1]) && |Entries(procs[|procs| - 1].cgroup)| == 1
  {
    var n := |procs| - 1;
    var front := Origins(procs[..n]);
    var q := if |front| < n then |front| else n;
    assert Origins(procs)[q] == q;
    assert |front| == n;
    forall k | 0 <= k < n ensures front[k] == k { assert Origins(procs)[k] == k; }
  }

  lemma AlignedBack(procs: seq<Process>)
    requires Readable(procs) && procs != []
    requires Aligned(procs[..|procs| - 1]) && |Entries(procs[|procs| - 1].cgroup)| == 1
    ensures Aligned(procs)
    ensures AllEntries(procs) == AllEntries(procs[..|procs| - 1]) + [Entries(procs[|procs| - 1].cgroup)[0]]
  {
    var n := |procs| - 1;
    assert Origins(procs) == Origins(procs[..n]) + [n];
  }
}
