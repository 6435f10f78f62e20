/** When the backup of an upgrade on trial holds the previous binary although other tasks run
    beside it, and how it is lost otherwise. */
module UpgradeProtection {
  import opened Wrappers
  import opened Upgrade
  import opened UpgradeTasks
  import opened UpgradeAlone
  import opened UpgradeCollision

  // ----- Who touches a backup ---------------------------------------------------------------

  /** The step removes, replaces or moves away the backup at `p`. */
  predicate Touches(commands: seq<Command>, w: World, s: Step, p: Path)
    requires |w.phases| == |commands|
  {
    match s
    case Advance(j, op) =>
      j < |commands| && Backup(commands[j].current) == p &&
      (match (op, w.phases[j])
       case (ClearBackup(ok), Verified) => ok
       case (MoveAside(ok), Cleared) => ok && Active in w.disk.files
       case (PutBack(ok), PuttingBack) => ok
       case _ => false)
    case Restart(now, io) =>
      Expired(w.disk, now, io) && w.disk.sentinel.state.backupExe == p && io.restore
    case Handshake(io) =>
      w.disk.sentinel.Stored? && io.read && io.remove && w.disk.sentinel.state.backupExe == p
  }

  predicate Untouched(sha: Binary -> string, commands: seq<Command>, w: World, steps: seq<Step>, p: Path)
    requires |w.phases| == |commands|
    decreases |steps|
  {
    steps == [] ||
    (!Touches(commands, w, steps[0], p) &&
      (SameTasks(sha, commands, w, steps[0]);
       Untouched(sha, commands, Apply(sha, commands, w, steps[0]), steps[1..], p)))
  }

  /** At every point of the run the path names the file. */
  predicate AlwaysNames(sha: Binary -> string, commands: seq<Command>, w: World, steps: seq<Step>, p: Path, file: nat)
    requires |w.phases| == |commands|
    decreases |steps|
  {
    FileAt(w.disk.files, p) == Some(file) &&
    (steps == [] ||
      (SameTasks(sha, commands, w, steps[0]);
       AlwaysNames(sha, commands, Apply(sha, commands, w, steps[0]), steps[1..], p, file)))
  }

  lemma {:induction false} TaskTouches(sha: Binary -> string, commands: seq<Command>, w: World, j: nat, op: Op, p: Path)
    requires |w.phases| == |commands| && FilesOk(w) && j < |commands|
    requires p.Backup? && p in w.disk.files
    ensures FileAt(Perform(sha, commands[j], w, j, op).disk.files, p) == FileAt(w.disk.files, p)
       <==> !Touches(commands, w, Advance(j, op), p)
  {
    hide ChecksumMatches;
  }

  lemma {:induction false} StepTouches(sha: Binary -> string, commands: seq<Command>, w: World, s: Step, p: Path)
    requires |w.phases| == |commands| && FilesOk(w) && SentinelPaths(w.disk)
    requires p.Backup? && p in w.disk.files
    ensures FileAt(Apply(sha, commands, w, s).disk.files, p) == FileAt(w.disk.files, p) <==> !Touches(commands, w, s, p)
  {
    hide Perform, FilesOk;
    if s.Advance? && s.task < |commands| {
      TaskTouches(sha, commands, w, s.task, s.op, p);
    }
  }

  /** A file that some path but a staged one names is never written to. */
  lemma {:induction false} StepKeepsContent(sha: Binary -> string, commands: seq<Command>, initial: set<Binary>, w: World,
                                            s: Step, p: Path)
    requires |w.phases| == |commands| && Sound(sha, commands, initial, w) && !p.Staged? && p in w.disk.files
    ensures var file := w.disk.files[p]; var after := Apply(sha, commands, w, s);
      file in after.contents && after.contents[file] == w.contents[file]
  {
    hide Good, ChecksumMatches, SentinelPaths;
    if s.Advance? && s.task < |commands| {
      assert TaskOk(sha, commands, initial, w, s.task);
    }
  }

  /** Over an exclusive run a backup names its file at every point if and only if no step touches it;
      and then its content stays. */
  lemma {:induction false} BackupStaysExactlyWhen(sha: Binary -> string, commands: seq<Command>, initial: set<Binary>,
                                                  w: World, steps: seq<Step>, p: Path)
    requires |w.phases| == |commands| && Sound(sha, commands, initial, w) && ExclusiveRun(sha, commands, w, steps)
    requires p.Backup? && p in w.disk.files
    ensures AlwaysNames(sha, commands, w, steps, p, w.disk.files[p]) <==> Untouched(sha, commands, w, steps, p)
    ensures var file := w.disk.files[p]; var end := Run(sha, commands, w, steps);
      Untouched(sha, commands, w, steps, p) ==>
        FileAt(end.disk.files, p) == Some(file) && file in end.contents && end.contents[file] == w.contents[file]
    decreases |steps|
  {
    assert FilesOk(w) && SentinelPaths(w.disk);
    var file := w.disk.files[p];
    hide Apply, Exclusive, Sound, FilesOk, SentinelPaths, Touches;
    if steps != [] {
      var after := Apply(sha, commands, w, steps[0]);
      SameTasks(sha, commands, w, steps[0]);
      assert ExclusiveRun(sha, commands, after, steps[1..]);
      ExclusiveAtOnce(sha, commands, after, steps[1..]);
      StepStaysSound(sha, commands, initial, w, steps[0]);
      StepTouches(sha, commands, w, steps[0], p);
      StepKeepsContent(sha, commands, initial, w, steps[0], p);
      if !Touches(commands, w, steps[0], p) {
        BackupStaysExactlyWhen(sha, commands, initial, after, steps[1..], p);
      }
    }
  }

  // ----- Trials under interleaving -----------------------------------------------------------------

  /** A task moves the active binary aside, anything may run in between, and it saves its
      sentinel. From the first of these steps to the last the backup names the previous binary if
      and only if no step in between touches that backup. It then holds that binary unchanged, and
      a rollback after the deadline makes it active again. */
  lemma {:induction false} ProtectedExactlyWhen(sha: Binary -> string, commands: seq<Command>, initial: set<Binary>,
                                                w: World, i: nat, between: seq<Step>, now: int, later: int)
    requires |w.phases| == |commands| && Sound(sha, commands, initial, w) && Exclusive(commands, w)
    requires i < |commands| && w.phases[i] == Cleared && Active in w.disk.files
    requires var moved := Perform(sha, commands[i], w, i, MoveAside(true));
      && |moved.phases| == |commands| && ExclusiveRun(sha, commands, moved, between)
      && Run(sha, commands, moved, between).phases[i] == MovedIn
    requires now + commands[i].timeout < later
    ensures var c := commands[i]; var previous := w.disk.files[Active];
      var moved := Perform(sha, c, w, i, MoveAside(true));
      var end := Perform(sha, c, Run(sha, commands, moved, between), i, Save(now, Saved));
      var undone := RollbackDisk(end.disk, later, SMOOTH_ROLLBACK);
      && end.disk.sentinel == Stored(SwapState(c.target, c.current, now, c.timeout))
      && (AlwaysNames(sha, commands, moved, between, Backup(c.current), previous)
          <==> Untouched(sha, commands, moved, between, Backup(c.current)))
      && (Untouched(sha, commands, moved, between, Backup(c.current)) ==>
            && FileAt(end.disk.files, Backup(c.current)) == Some(previous)
            && FileAt(undone.files, Active) == Some(previous)
            && previous in end.contents && end.contents[previous] == w.contents[previous])
  {
    var c := commands[i];
    var previous := w.disk.files[Active];
    var moved := Perform(sha, c, w, i, MoveAside(true));
    AsideNames(sha, commands, w, i);
    assert previous in moved.contents && moved.contents[previous] == w.contents[previous] by {
      StepKeepsContent(sha, commands, initial, w, Advance(i, MoveAside(true)), Active);
    }
    hide Run, Sound, Exclusive, ExclusiveRun, Untouched, AlwaysNames, Perform;
    StepStaysSound(sha, commands, initial, w, Advance(i, MoveAside(true)));
    BackupStaysExactlyWhen(sha, commands, initial, moved, between, Backup(c.current));
    SavedTrial(sha, c, Run(sha, commands, moved, between), i, now, later);
  }

  lemma AsideNames(sha: Binary -> string, commands: seq<Command>, w: World, i: nat)
    requires |w.phases| == |commands| && i < |commands| && w.phases[i] == Cleared && Active in w.disk.files
    ensures var moved := Perform(sha, commands[i], w, i, MoveAside(true));
      && Apply(sha, commands, w, Advance(i, MoveAside(true))) == moved && |moved.phases| == |commands|
      && FileAt(moved.disk.files, Backup(commands[i].current)) == Some(w.disk.files[Active])
    ensures var moved := Perform(sha, commands[i], w, i, MoveAside(true));
      Exclusive(commands, w) ==> Exclusive(commands, moved)
  {
  }

  lemma SavedTrial(sha: Binary -> string, c: Command, w: World, i: nat, now: int, later: int)
    requires i < |w.phases| && w.phases[i] == MovedIn && now + c.timeout < later
    ensures var end := Perform(sha, c, w, i, Save(now, Saved));
      && end.disk == w.disk.(sentinel := Stored(SwapState(c.target, c.current, now, c.timeout)))
      && end.contents == w.contents
      && (Backup(c.current) in w.disk.files ==>
            FileAt(RollbackDisk(end.disk, later, SMOOTH_ROLLBACK).files, Active) == FileAt(w.disk.files, Backup(c.current)))
  {
  }

  // ----- How a backup is lost ----------------------------------------------------------------------

  function AsideSteps(i: nat, r: Request): seq<Step> {
    [Advance(i, ClearBackup(r.swap.removeOld)), Advance(i, MoveAside(r.swap.moveAside))]
  }

  function InSteps(i: nat, r: Request): seq<Step> {
    [Advance(i, MoveIn(r.swap.moveIn)), Advance(i, PutBack(r.swap.restore))]
  }

  function SaveSteps(i: nat, r: Request): seq<Step> {
    [Advance(i, Save(r.now, r.swap.save))]
  }

  /** Task `j` downloads and waits; task `i` downloads and moves the active binary aside ... */
  function Meeting(i: nat, ri: Request, j: nat, rj: Request): seq<Step> {
    DownloadSteps(j, rj) + DownloadSteps(i, ri) + AsideSteps(i, ri)
  }

  /** ... then `j` removes what it takes for an old backup, and `i` goes on. */
  function LostBackup(i: nat, ri: Request, j: nat, rj: Request): seq<Step> {
    Meeting(i, ri, j, rj) + [Advance(j, ClearBackup(true))] + InSteps(i, ri) + SaveSteps(i, ri)
  }

  lemma {:induction false} OthersStay(sha: Binary -> string, commands: seq<Command>, w: World, i: nat, j: nat, steps: seq<Step>)
    requires |w.phases| == |commands| && j < |commands| && i != j
    requires forall s :: s in steps ==> s.Advance? && s.task == i
    ensures Run(sha, commands, w, steps).phases[j] == w.phases[j]
    decreases |steps|
  {
    hide ChecksumMatches;
    if steps != [] {
      assert steps[0] in steps;
      SameTasks(sha, commands, w, steps[0]);
      OthersStay(sha, commands, Apply(sha, commands, w, steps[0]), i, j, steps[1..]);
    }
  }

  lemma {:induction false} InstalledShows(binary: Binary, tasks: nat)
    ensures Shows(Installed(binary, tasks), Disk(map[Active := binary], Absent))
    ensures |Installed(binary, tasks).phases| == tasks
    ensures forall i :: 0 <= i < tasks ==> Installed(binary, tasks).phases[i] == Requesting
  {
  }

  /** The disk when task `i` has moved the active binary aside. */
  function MeetingDisk(binary: Binary, ri: Request, rj: Request): Disk<Binary>
    requires ri.download.Complete? && rj.download.Complete?
  {
    Disk(map[Staged(rj.target) := rj.download.body, Staged(ri.target) := ri.download.body, Backup(ri.current) := binary], Absent)
  }

  lemma {:induction false} MeetingDiskIs(sha: Binary -> string, binary: Binary, ri: Request, rj: Request)
    requires Downloads(sha, ri.expected, ri.download) && Downloads(sha, rj.expected, rj.download)
    requires ri.target != rj.target && ri.swap.moveAside
    ensures var d2 := StagedDisk(sha, StagedDisk(sha, Disk(map[Active := binary], Absent), rj), ri);
      && Active in d2.files
      && d2.(files := Renamed(Removed(d2.files, Backup(ri.current), ri.swap.removeOld), Active, Backup(ri.current), true))
         == MeetingDisk(binary, ri, rj)
  {
    hide ChecksumMatches;
    var d1 := StagedDisk(sha, Disk(map[Active := binary], Absent), rj);
    assert d1.files == map[Active := binary, Staged(rj.target) := rj.download.body];
  }

  lemma {:induction false} DownloadBeside(sha: Binary -> string, commands: seq<Command>, w: World, d: Disk<Binary>,
                                          i: nat, r: Request, j: nat)
    requires |w.phases| == |commands| && i < |commands| && j < |commands| && i != j && commands[i] == CommandOf(r)
    requires Shows(w, d) && w.phases[i] == Requesting && Downloads(sha, r.expected, r.download)
    ensures var end := Run(sha, commands, w, DownloadSteps(i, r));
      Shows(end, StagedDisk(sha, d, r)) && end.phases[i] == Verified && end.phases[j] == w.phases[j]
  {
    hide Run, Shows, Downloads, StagedDisk;
    DownloadShows(sha, commands, w, d, i, r);
    OthersStay(sha, commands, w, i, j, DownloadSteps(i, r));
  }

  lemma {:induction false} AsideBeside(sha: Binary -> string, commands: seq<Command>, w: World, d: Disk<Binary>,
                                       i: nat, r: Request, j: nat)
    requires |w.phases| == |commands| && i < |commands| && j < |commands| && i != j && commands[i] == CommandOf(r)
    requires Shows(w, d) && w.phases[i] == Verified && r.swap.moveAside && Active in d.files
    ensures var end := Run(sha, commands, w, AsideSteps(i, r));
      && Shows(end, d.(files := Renamed(Removed(d.files, Backup(r.current), r.swap.removeOld), Active, Backup(r.current), true)))
      && end.phases[i] == MovedAside && end.phases[j] == w.phases[j]
  {
    hide Run, Shows, Renamed, Removed;
    AsideShows(sha, commands, w, d, i, r);
    OthersStay(sha, commands, w, i, j, AsideSteps(i, r));
  }

  lemma {:induction false} MeetingShows(sha: Binary -> string, commands: seq<Command>, binary: Binary,
                                        i: nat, ri: Request, j: nat, rj: Request)
    requires i < |commands| && j < |commands| && i != j && ri.target != rj.target && ri.swap.moveAside
    requires commands[i] == CommandOf(ri) && commands[j] == CommandOf(rj)
    requires Downloads(sha, ri.expected, ri.download) && Downloads(sha, rj.expected, rj.download)
    requires |Installed(binary, |commands|).phases| == |commands|
    ensures var w := Run(sha, commands, Installed(binary, |commands|), Meeting(i, ri, j, rj));
      Shows(w, MeetingDisk(binary, ri, rj)) && w.phases[i] == MovedAside && w.phases[j] == Verified
  {
    var w0, d0 := Installed(binary, |commands|), Disk(map[Active := binary], Absent);
    hide Run, Shows, Downloads, StagedDisk, Renamed, Removed, Installed, DownloadSteps, AsideSteps, MeetingDisk, CommandOf;
    InstalledShows(binary, |commands|);
    MeetingDiskIs(sha, binary, ri, rj);
    var d1 := StagedDisk(sha, d0, rj);
    RunAppends(sha, commands, w0, DownloadSteps(j, rj) + DownloadSteps(i, ri), AsideSteps(i, ri));
    RunAppends(sha, commands, w0, DownloadSteps(j, rj), DownloadSteps(i, ri));
    DownloadBeside(sha, commands, w0, d0, j, rj, i);
    var w1 := Run(sha, commands, w0, DownloadSteps(j, rj));
    DownloadBeside(sha, commands, w1, d1, i, ri, j);
    var w2 := Run(sha, commands, w1, DownloadSteps(i, ri));
    AsideBeside(sha, commands, w2, StagedDisk(sha, d1, ri), i, ri, j);
  }

  /** The disk without the backup, before the move in. */
  function LostDisk(ri: Request, rj: Request): Disk<Binary>
    requires ri.download.Complete? && rj.download.Complete?
  {
    Disk(map[Staged(rj.target) := rj.download.body, Staged(ri.target) := ri.download.body], Absent)
  }

  lemma {:induction false} LostDiskIs(binary: Binary, ri: Request, rj: Request)
    requires ri.download.Complete? && rj.download.Complete? && ri.current == rj.current && ri.target != rj.target
    ensures var m := MeetingDisk(binary, ri, rj);
      m.(files := Removed(m.files, Backup(rj.current), true)) == LostDisk(ri, rj)
  {
  }

  lemma {:induction false} LostDiskGoesOn(ri: Request, rj: Request)
    requires ri.download.Complete? && rj.download.Complete? && ri.target != rj.target
    ensures var d := LostDisk(ri, rj); var moved := Renamed(d.files, Staged(ri.target), Active, true);
      && Staged(ri.target) in d.files && Active !in d.files && Backup(ri.current) !in d.files && d.sentinel == Absent
      && Active in moved && Backup(ri.current) !in moved
      && Renamed(Renamed(d.files, Staged(ri.target), Active, false), Backup(ri.current), Active, true) == d.files
  {
  }

  lemma ShowsPaths(w: World, d: Disk<Binary>, p: Path)
    requires Shows(w, d)
    ensures p in w.disk.files <==> p in d.files
    ensures w.disk.sentinel == d.sentinel
  {
  }

  lemma {:induction false} ClearBeside(sha: Binary -> string, commands: seq<Command>, w: World, d: Disk<Binary>,
                                       i: nat, j: nat, r: Request)
    requires |w.phases| == |commands| && i < |commands| && j < |commands| && i != j && commands[j] == CommandOf(r)
    requires Shows(w, d) && w.phases[j] == Verified
    ensures var end := Run(sha, commands, w, [Advance(j, ClearBackup(true))]);
      Shows(end, d.(files := Removed(d.files, Backup(r.current), true))) && end.phases[i] == w.phases[i]
  {
    hide Run, Shows, Removed;
    RunOne(sha, commands, w, Advance(j, ClearBackup(true)));
    RemovedShows(w, d, Backup(r.current), true);
    PhaseShows(WithFiles(w, Removed(w.disk.files, Backup(r.current), true)),
               d.(files := Removed(d.files, Backup(r.current), true)), j, Cleared);
  }

  lemma {:induction false} SaveEnds(sha: Binary -> string, commands: seq<Command>, w: World, i: nat, r: Request)
    requires |w.phases| == |commands| && i < |commands| && commands[i] == CommandOf(r) && r.swap.save == Saved
    ensures var end := Run(sha, commands, w, SaveSteps(i, r)).disk;
      && end.files == w.disk.files
      && (w.phases[i] == MovedIn ==> end.sentinel == Stored(SwapState(r.target, r.current, r.now, r.timeout)))
  {
    hide Run, ChecksumMatches, Renamed, Removed;
    RunOne(sha, commands, w, Advance(i, Save(r.now, r.swap.save)));
  }

  lemma {:induction false} GoesOn(sha: Binary -> string, commands: seq<Command>, w: World, i: nat, ri: Request, rj: Request)
    requires |w.phases| == |commands| && i < |commands| && commands[i] == CommandOf(ri) && ri.target != rj.target
    requires ri.download.Complete? && rj.download.Complete? && ri.swap == SMOOTH_SWAP.(moveIn := ri.swap.moveIn)
    requires Shows(w, LostDisk(ri, rj)) && w.phases[i] == MovedAside
    ensures var end := Run(sha, commands, Run(sha, commands, w, InSteps(i, ri)), SaveSteps(i, ri)).disk;
      && Backup(ri.current) !in end.files
      && (if ri.swap.moveIn then
            Active in end.files && end.sentinel == Stored(SwapState(ri.target, ri.current, ri.now, ri.timeout))
          else Active !in end.files)
  {
    var d := LostDisk(ri, rj);
    LostDiskGoesOn(ri, rj);
    hide Run, Shows, Renamed, LostDisk, SaveSteps, Perform, SwapState;
    InShows(sha, commands, w, d, i, ri);
    var w1 := Run(sha, commands, w, InSteps(i, ri));
    var d1 := if ri.swap.moveIn then d.(files := Renamed(d.files, Staged(ri.target), Active, true)) else d;
    ShowsPaths(w1, d1, Active);
    ShowsPaths(w1, d1, Backup(ri.current));
    SaveEnds(sha, commands, w1, i, ri);
  }

  /** Two tasks started by the same running version: one removes the only copy of the original while
      the other swaps. The other then saves a sentinel for a backup that is not there; or, when
      its own move in fails, has nothing to put back, and no active binary is left. */
  lemma {:induction false} SwapsCanLoseTheBackup(sha: Binary -> string, commands: seq<Command>, binary: Binary,
                                                 i: nat, ri: Request, j: nat, rj: Request)
    requires i < |commands| && j < |commands| && i != j && ri.target != rj.target && ri.current == rj.current
    requires commands[i] == CommandOf(ri) && commands[j] == CommandOf(rj)
    requires Downloads(sha, ri.expected, ri.download) && Downloads(sha, rj.expected, rj.download)
    requires ri.swap == SMOOTH_SWAP.(moveIn := ri.swap.moveIn)
    ensures |Installed(binary, |commands|).phases| == |commands|
    ensures var end := Run(sha, commands, Installed(binary, |commands|), LostBackup(i, ri, j, rj)).disk;
      && Backup(ri.current) !in end.files
      && (if ri.swap.moveIn then
            Active in end.files && end.sentinel == Stored(SwapState(ri.target, ri.current, ri.now, ri.timeout))
          else Active !in end.files)
  {
    InstalledShows(binary, |commands|);
    LostDiskIs(binary, ri, rj);
    var w0 := Installed(binary, |commands|);
    var clear := [Advance(j, ClearBackup(true))];
    hide Run, Shows, Downloads, Renamed, Removed, Installed, MeetingDisk, LostDisk, Meeting, InSteps, SaveSteps, CommandOf;
    RunAppends(sha, commands, w0, Meeting(i, ri, j, rj) + clear + InSteps(i, ri), SaveSteps(i, ri));
    RunAppends(sha, commands, w0, Meeting(i, ri, j, rj) + clear, InSteps(i, ri));
    RunAppends(sha, commands, w0, Meeting(i, ri, j, rj), clear);
    MeetingShows(sha, commands, binary, i, ri, j, rj);
    var w1 := Run(sha, commands, w0, Meeting(i, ri, j, rj));
    ClearBeside(sha, commands, w1, MeetingDisk(binary, ri, rj), i, j, rj);
    GoesOn(sha, commands, Run(sha, commands, w1, clear), i, ri, rj);
  }
}
