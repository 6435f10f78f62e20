/** An upgrade task that nothing interrupts is the one-step upgrade. */
module UpgradeAlone {
  import opened Upgrade
  import opened UpgradeTasks

  /** Every path has a file of its own, with the content that `d` gives the path. */
  ghost predicate Shows(w: World, d: Disk<Binary>) {
    && FilesOk(w) && d.sentinel == w.disk.sentinel
    && (forall p :: p in d.files <==> p in w.disk.files)
    && (forall p :: p in w.disk.files ==> d.files[p] == w.contents[w.disk.files[p]])
  }

  function ArrivalOf(io: DownloadIo): Arrival {
    match io
    case WriteFailed(written) => Partial(written)
    case Complete(body, _) => Whole(body)
    case _ => Lost
  }

  function DownloadSteps(i: nat, r: Request): seq<Step> {
    [Advance(i, Create(!r.download.NotCreated?)), Advance(i, Receive(ArrivalOf(r.download)))]
    + [Advance(i, Check(r.download.Complete? && r.download.remove))]
  }

  function SwapSteps(i: nat, r: Request): seq<Step> {
    [Advance(i, ClearBackup(r.swap.removeOld)), Advance(i, MoveAside(r.swap.moveAside))]
    + [Advance(i, MoveIn(r.swap.moveIn)), Advance(i, PutBack(r.swap.restore))]
    + [Advance(i, Save(r.now, r.swap.save))]
  }

  /** The operations of a task in their order; those its outcome skips do nothing. */
  function Uninterrupted(i: nat, r: Request): seq<Step> {
    DownloadSteps(i, r) + SwapSteps(i, r)
  }

  function CommandOf(r: Request): Command {
    Command(r.target, r.current, r.expected, r.timeout)
  }

  lemma RenamedShows(w: World, d: Disk<Binary>, source: Path, target: Path, ok: bool)
    requires Shows(w, d)
    ensures Shows(WithFiles(w, Renamed(w.disk.files, source, target, ok)), d.(files := Renamed(d.files, source, target, ok)))
  {
  }

  lemma RemovedShows(w: World, d: Disk<Binary>, p: Path, ok: bool)
    requires Shows(w, d)
    ensures Shows(WithFiles(w, Removed(w.disk.files, p, ok)), d.(files := Removed(d.files, p, ok)))
  {
  }

  lemma CreatedShows(w: World, d: Disk<Binary>, i: nat, p: Path)
    requires Shows(w, d) && i < |w.phases|
    ensures Shows(Created(w, i, p), d.(files := d.files[p := []]))
  {
  }

  lemma WroteShows(w: World, d: Disk<Binary>, p: Path, bytes: Binary)
    requires Shows(w, d) && p in d.files && d.files[p] == []
    ensures Shows(Wrote(w, w.disk.files[p], bytes), d.(files := d.files[p := bytes]))
  {
  }

  lemma PhaseShows(w: World, d: Disk<Binary>, i: nat, phase: Phase)
    requires Shows(w, d) && i < |w.phases|
    ensures Shows(InPhase(w, i, phase), d)
  {
  }

  /** The upgrade gets to its check, or gives up before. */
  lemma {:induction false} ReceivedShows(sha: Binary -> string, commands: seq<Command>, w: World, d: Disk<Binary>,
                                         i: nat, r: Request)
    requires |w.phases| == |commands| && i < |commands| && commands[i] == CommandOf(r)
    requires Shows(w, d) && w.phases[i] == Requesting
    ensures var p := Staged(r.target); var io := r.download;
      var end := Run(sha, commands, w, [Advance(i, Create(!io.NotCreated?)), Advance(i, Receive(ArrivalOf(io)))]);
      && end.phases[i] == (if io.Complete? then Written(io.body) else Finished)
      && Shows(end, match io
                    case NotCreated => d
                    case BodyLost => d.(files := d.files[p := []])
                    case WriteFailed(written) => d.(files := d.files[p := written])
                    case Complete(body, _) => d.(files := d.files[p := body]))
  {
    hide Run, Shows, Wrote;
    var p := Staged(r.target);
    var io := r.download;
    RunTwo(sha, commands, w, Advance(i, Create(!io.NotCreated?)), Advance(i, Receive(ArrivalOf(io))));
    if io.NotCreated? {
      PhaseShows(w, d, i, Finished);
    } else {
      CreatedShows(w, d, i, p);
      var created := Created(w, i, p);
      var d1 := d.(files := d.files[p := []]);
      if io.BodyLost? {
        PhaseShows(created, d1, i, Finished);
      } else {
        var bytes := if io.WriteFailed? then io.written else io.body;
        WroteShows(created, d1, p, bytes);
        assert d1.files[p := bytes] == d.files[p := bytes];
        WroteKeepsPhases(created, created.disk.files[p], bytes);
        PhaseShows(Wrote(created, created.disk.files[p], bytes), d.(files := d.files[p := bytes]), i,
                   if io.WriteFailed? then Finished else Written(bytes));
      }
    }
  }

  lemma WroteKeepsPhases(w: World, file: nat, bytes: Binary)
    ensures Wrote(w, file, bytes).phases == w.phases
  {
  }

  lemma {:induction false} DownloadShows(sha: Binary -> string, commands: seq<Command>, w: World, d: Disk<Binary>,
                                         i: nat, r: Request)
    requires |w.phases| == |commands| && i < |commands| && commands[i] == CommandOf(r)
    requires Shows(w, d) && w.phases[i] == Requesting
    ensures var end := Run(sha, commands, w, DownloadSteps(i, r));
      Shows(end, StagedDisk(sha, d, r))
      && end.phases[i] == (if Downloads(sha, r.expected, r.download) then Verified else Finished)
  {
    hide Run, ChecksumMatches, Shows;
    var p := Staged(r.target);
    var io := r.download;
    var first := [Advance(i, Create(!io.NotCreated?)), Advance(i, Receive(ArrivalOf(io)))];
    var last := Advance(i, Check(io.Complete? && io.remove));
    RunAppends(sha, commands, w, first, [last]);
    ReceivedShows(sha, commands, w, d, i, r);
    var w1 := Run(sha, commands, w, first);
    RunOne(sha, commands, w1, last);
    StagedByCases(sha, d, r);
    if io.Complete? {
      var d1 := d.(files := d.files[p := io.body]);
      RemovedShows(w1, d1, p, io.remove);
      PhaseShows(w1, d1, i, Verified);
      PhaseShows(WithFiles(w1, Removed(w1.disk.files, p, io.remove)), d1.(files := Removed(d1.files, p, io.remove)), i, Finished);
    }
  }

  lemma StagedByCases(sha: Binary -> string, d: Disk<Binary>, r: Request)
    ensures var p := Staged(r.target);
      StagedDisk(sha, d, r) ==
      match r.download
      case NotCreated => d
      case BodyLost => d.(files := d.files[p := []])
      case WriteFailed(written) => d.(files := d.files[p := written])
      case Complete(body, remove) =>
        if ChecksumMatches(sha, body, r.expected) then d.(files := d.files[p := body])
        else d.(files := Removed(d.files[p := body], p, remove))
  {
    hide ChecksumMatches;
    var p := Staged(r.target);
    if r.download.Complete? {
      assert Removed(d.files[p := r.download.body], p, true) == d.files - {p};
    }
  }

  lemma {:induction false} FinishedIgnores(sha: Binary -> string, commands: seq<Command>, w: World, i: nat, steps: seq<Step>)
    requires |w.phases| == |commands| && i < |commands| && w.phases[i] == Finished
    requires forall s :: s in steps ==> s.Advance? && s.task == i
    ensures Run(sha, commands, w, steps) == w
    decreases |steps|
  {
    if steps != [] {
      assert steps[0] in steps;
      FinishedIgnores(sha, commands, w, i, steps[1..]);
    }
  }

  lemma RenameShows(w: World, d: Disk<Binary>, source: Path, target: Path, ok: bool, i: nat, phase: Phase)
    requires Shows(w, d) && i < |w.phases|
    ensures source in w.disk.files <==> source in d.files
    ensures Shows(InPhase(WithFiles(w, Renamed(w.disk.files, source, target, ok)), i, phase),
                  d.(files := Renamed(d.files, source, target, ok)))
  {
    hide Renamed;
    RenamedShows(w, d, source, target, ok);
  }

  lemma {:induction false} AsideShows(sha: Binary -> string, commands: seq<Command>, w: World, d: Disk<Binary>,
                                      i: nat, r: Request)
    requires |w.phases| == |commands| && i < |commands| && commands[i] == CommandOf(r)
    requires Shows(w, d) && w.phases[i] == Verified
    ensures var end := Run(sha, commands, w,
                           [Advance(i, ClearBackup(r.swap.removeOld)), Advance(i, MoveAside(r.swap.moveAside))]);
      var kept := Removed(d.files, Backup(r.current), r.swap.removeOld);
      && Shows(end, d.(files := Renamed(kept, Active, Backup(r.current), r.swap.moveAside)))
      && end.phases[i] == (if r.swap.moveAside && Active in d.files then MovedAside else Finished)
  {
    hide Run, Removed, Renamed, Shows;
    var backup := Backup(r.current);
    var s, t := Advance(i, ClearBackup(r.swap.removeOld)), Advance(i, MoveAside(r.swap.moveAside));
    RunTwo(sha, commands, w, s, t);
    var kept := WithFiles(w, Removed(w.disk.files, backup, r.swap.removeOld));
    var d1 := d.(files := Removed(d.files, backup, r.swap.removeOld));
    ActiveIsKept(d.files, backup, r.swap.removeOld);
    RemovedShows(w, d, backup, r.swap.removeOld);
    PhaseShows(kept, d1, i, Cleared);
    var w1 := InPhase(kept, i, Cleared);
    RenameShows(w1, d1, Active, backup, r.swap.moveAside, i,
                if r.swap.moveAside && Active in w1.disk.files then MovedAside else Finished);
  }

  lemma ActiveIsKept<T>(files: Files<T>, p: Path, ok: bool)
    requires p != Active
    ensures Active in Removed(files, p, ok) <==> Active in files
  {
  }

  lemma {:induction false} InShows(sha: Binary -> string, commands: seq<Command>, w: World, d: Disk<Binary>,
                                   i: nat, r: Request)
    requires |w.phases| == |commands| && i < |commands| && commands[i] == CommandOf(r)
    requires Shows(w, d) && w.phases[i] == MovedAside
    ensures var end := Run(sha, commands, w, [Advance(i, MoveIn(r.swap.moveIn)), Advance(i, PutBack(r.swap.restore))]);
      var moved := Renamed(d.files, Staged(r.target), Active, r.swap.moveIn);
      var done := r.swap.moveIn && Staged(r.target) in d.files;
      && Shows(end, d.(files := if done then moved else Renamed(moved, Backup(r.current), Active, r.swap.restore)))
      && end.phases[i] == (if done then MovedIn else Finished)
  {
    hide Run, Renamed, Shows;
    var s, t := Advance(i, MoveIn(r.swap.moveIn)), Advance(i, PutBack(r.swap.restore));
    RunTwo(sha, commands, w, s, t);
    var phase := if r.swap.moveIn && Staged(r.target) in w.disk.files then MovedIn else PuttingBack;
    RenameShows(w, d, Staged(r.target), Active, r.swap.moveIn, i, phase);
    var d1 := d.(files := Renamed(d.files, Staged(r.target), Active, r.swap.moveIn));
    var w1 := InPhase(WithFiles(w, Renamed(w.disk.files, Staged(r.target), Active, r.swap.moveIn)), i, phase);
    if phase.PuttingBack? {
      RenameShows(w1, d1, Backup(r.current), Active, r.swap.restore, i, Finished);
    }
  }

  lemma SavedShows(w: World, d: Disk<Binary>, sentinel: Sentinel, i: nat, phase: Phase)
    requires Shows(w, d) && i < |w.phases|
    ensures Shows(InPhase(w.(disk := w.disk.(sentinel := sentinel)), i, phase), d.(sentinel := sentinel))
    ensures d.sentinel == w.disk.sentinel
  {
  }

  /** The files after the renames of a swap. */
  lemma SwapFilesByCases(d: Disk<Binary>, r: Request)
    ensures var kept := Removed(d.files, Backup(r.current), r.swap.removeOld);
      var aside := Renamed(kept, Active, Backup(r.current), r.swap.moveAside);
      var moved := Renamed(aside, Staged(r.target), Active, r.swap.moveIn);
      && (Staged(r.target) in aside <==> Staged(r.target) in d.files)
      && SwapFiles(d, r.target, r.current, r.swap)
      == if !(r.swap.moveAside && Active in d.files) then aside
         else if MovesIn(d, r.target, r.swap) then moved
         else Renamed(moved, Backup(r.current), Active, r.swap.restore)
  {
    if Active in d.files && r.swap.moveAside { SwapByRenames(d, r.target, r.current, r.swap); }
  }

  lemma {:induction false} SwapShows(sha: Binary -> string, commands: seq<Command>, w: World, d: Disk<Binary>,
                                     i: nat, r: Request)
    requires |w.phases| == |commands| && i < |commands| && commands[i] == CommandOf(r)
    requires Shows(w, d) && w.phases[i] == Verified
    ensures Shows(Run(sha, commands, w, SwapSteps(i, r)),
                  Disk(SwapFiles(d, r.target, r.current, r.swap),
                       SwapSentinel(d, r.target, r.current, r.now, r.timeout, r.swap)))
  {
    hide Run, Removed, Renamed, Shows, SwapFiles;
    var aside := [Advance(i, ClearBackup(r.swap.removeOld)), Advance(i, MoveAside(r.swap.moveAside))];
    var moveIn := [Advance(i, MoveIn(r.swap.moveIn)), Advance(i, PutBack(r.swap.restore))];
    var save := [Advance(i, Save(r.now, r.swap.save))];
    var kept := Removed(d.files, Backup(r.current), r.swap.removeOld);
    var d1 := d.(files := Renamed(kept, Active, Backup(r.current), r.swap.moveAside));
    SwapFilesByCases(d, r);
    RunAppends(sha, commands, w, aside + moveIn, save);
    RunAppends(sha, commands, w, aside, moveIn);
    AsideShows(sha, commands, w, d, i, r);
    var w1 := Run(sha, commands, w, aside);
    if Active in d.files && r.swap.moveAside {
      InShows(sha, commands, w1, d1, i, r);
      var w2 := Run(sha, commands, w1, moveIn);
      RunOne(sha, commands, w2, save[0]);
      SavedShows(w2, d.(files := SwapFiles(d, r.target, r.current, r.swap)),
                 SwapSentinel(d, r.target, r.current, r.now, r.timeout, r.swap), i, Finished);
    } else {
      FinishedIgnores(sha, commands, w1, i, moveIn);
      FinishedIgnores(sha, commands, w1, i, save);
    }
  }

  /** The one-step upgrade is what a task does when nothing comes between its operations. */
  lemma {:induction false} UninterruptedIsDeploy(sha: Binary -> string, commands: seq<Command>, w: World, d: Disk<Binary>,
                                                 i: nat, r: Request)
    requires |w.phases| == |commands| && i < |commands| && commands[i] == CommandOf(r)
    requires Shows(w, d) && w.phases[i] == Requesting
    ensures Shows(Run(sha, commands, w, Uninterrupted(i, r)), DeployDisk(sha, d, r))
  {
    hide Run, Shows, StagedDisk, Downloads, SwapFiles, SwapSentinel;
    RunAppends(sha, commands, w, DownloadSteps(i, r), SwapSteps(i, r));
    DownloadShows(sha, commands, w, d, i, r);
    var w1 := Run(sha, commands, w, DownloadSteps(i, r));
    if Downloads(sha, r.expected, r.download) {
      SwapShows(sha, commands, w1, StagedDisk(sha, d, r), i, r);
    } else {
      FinishedIgnores(sha, commands, w1, i, SwapSteps(i, r));
    }
  }
}
