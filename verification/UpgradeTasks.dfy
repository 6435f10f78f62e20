/** Upgrade tasks that run side by side. Every AGENT_UPGRADE command starts a task of its own, and
    tasks interleave between any two file operations. A staged file stays open while its body
    is awaited and may be renamed meanwhile, so paths name numbered files and handles refer to
    the number. A stopped process takes all its tasks with it. */
module UpgradeTasks {
  import opened Wrappers
  import opened Upgrade

  datatype Command = Command(target: Version, current: Version, expected: string, timeout: int)

  /** How far a task has come. */
  datatype Phase =
    | Requesting
    | Opened(file: nat)
    | Written(body: Binary)
    | Verified
    | Cleared
    | MovedAside
    | PuttingBack
    | MovedIn
    | Finished

  datatype World = World(disk: Disk<nat>, contents: map<nat, Binary>, next: nat, phases: seq<Phase>)

  datatype Arrival = Lost | Partial(bytes: Binary) | Whole(bytes: Binary)

  /** One file operation of a task with its outcome. */
  datatype Op =
    | Create(ok: bool)
    | Receive(arrival: Arrival)
    | Check(remove: bool)
    | ClearBackup(ok: bool)
    | MoveAside(ok: bool)
    | MoveIn(ok: bool)
    | PutBack(ok: bool)
    | Save(now: int, result: SaveResult)

  datatype Step =
    | Advance(task: nat, op: Op)
    | Restart(now: int, rollback: RollbackIo)
    | Handshake(commit: CommitIo)

  // ----- The steps --------------------------------------------------------------------------

  /** `File::create`: an existing file is emptied, a missing one made. */
  function Created(w: World, i: nat, p: Path): World
    requires i < |w.phases|
  {
    var file := if p in w.disk.files then w.disk.files[p] else w.next;
    World(w.disk.(files := w.disk.files[p := file]), w.contents[file := []],
          if p in w.disk.files then w.next else w.next + 1, w.phases[i := Opened(file)])
  }

  /** Writing from the start of an open file keeps whatever reaches further. */
  function Overwritten(before: Binary, bytes: Binary): Binary {
    bytes + (if |bytes| < |before| then before[|bytes|..] else [])
  }

  lemma OverwritingKeepsTheRest(before: Binary, bytes: Binary)
    ensures |Overwritten(before, bytes)| == if |bytes| < |before| then |before| else |bytes|
    ensures forall i :: 0 <= i < |Overwritten(before, bytes)| ==>
      Overwritten(before, bytes)[i] == if i < |bytes| then bytes[i] else before[i]
  {
  }

  function Wrote(w: World, file: nat, bytes: Binary): World {
    w.(contents := w.contents[file := Overwritten(if file in w.contents then w.contents[file] else [], bytes)])
  }

  function WithFiles(w: World, files: Files<nat>): World {
    w.(disk := w.disk.(files := files))
  }

  function InPhase(w: World, i: nat, phase: Phase): World
    requires i < |w.phases|
  {
    w.(phases := w.phases[i := phase])
  }

  /** An operation that is not the next one of its task does nothing. */
  function Perform(sha: Binary -> string, c: Command, w: World, i: nat, op: Op): World
    requires i < |w.phases|
  {
    var files := w.disk.files;
    match (op, w.phases[i])
    case (Create(ok), Requesting) =>
      if ok then Created(w, i, Staged(c.target)) else InPhase(w, i, Finished)
    case (Receive(Lost), Opened(_)) => InPhase(w, i, Finished)
    case (Receive(Partial(bytes)), Opened(file)) => InPhase(Wrote(w, file, bytes), i, Finished)
    case (Receive(Whole(bytes)), Opened(file)) => InPhase(Wrote(w, file, bytes), i, Written(bytes))
    case (Check(remove), Written(body)) =>
      if ChecksumMatches(sha, body, c.expected) then InPhase(w, i, Verified)
      else InPhase(WithFiles(w, Removed(files, Staged(c.target), remove)), i, Finished)
    case (ClearBackup(ok), Verified) =>
      InPhase(WithFiles(w, Removed(files, Backup(c.current), ok)), i, Cleared)
    case (MoveAside(ok), Cleared) =>
      InPhase(WithFiles(w, Renamed(files, Active, Backup(c.current), ok)), i,
              if ok && Active in files then MovedAside else Finished)
    case (MoveIn(ok), MovedAside) =>
      InPhase(WithFiles(w, Renamed(files, Staged(c.target), Active, ok)), i,
              if ok && Staged(c.target) in files then MovedIn else PuttingBack)
    case (PutBack(ok), PuttingBack) =>
      InPhase(WithFiles(w, Renamed(files, Backup(c.current), Active, ok)), i, Finished)
    case (Save(now, result), MovedIn) =>
      var sentinel :=
        match result {
          case Saved => Stored(SwapState(c.target, c.current, now, c.timeout))
          case Untouched => w.disk.sentinel
          case Truncated => Garbage
        };
      InPhase(w.(disk := w.disk.(sentinel := sentinel)), i, Finished)
    case _ => w
  }

  /** The tasks that had begun are gone. */
  function Stopped(phases: seq<Phase>): seq<Phase> {
    seq(|phases|, i requires 0 <= i < |phases| => if phases[i].Requesting? then Requesting else Finished)
  }

  function Apply(sha: Binary -> string, commands: seq<Command>, w: World, s: Step): World
    requires |w.phases| == |commands|
  {
    match s
    case Advance(i, op) => if i < |commands| then Perform(sha, commands[i], w, i, op) else w
    case Restart(now, io) => w.(disk := RollbackDisk(w.disk, now, io), phases := Stopped(w.phases))
    case Handshake(io) => w.(disk := CommitDisk(w.disk, io))
  }

  /** After a restart a task that had begun does nothing any more, and one that had not is as before. */
  lemma RestartStops(sha: Binary -> string, commands: seq<Command>, w: World, now: int, io: RollbackIo, i: nat, op: Op)
    requires |w.phases| == |commands| && i < |commands|
    ensures var after := Apply(sha, commands, w, Restart(now, io));
      && |after.phases| == |commands| && after.contents == w.contents && after.next == w.next
      && (if w.phases[i].Requesting? then after.phases[i] == Requesting
          else Apply(sha, commands, after, Advance(i, op)) == after)
  {
    hide RollbackDisk, ChecksumMatches, Created, Wrote, Removed, Renamed;
  }

  lemma SameTasks(sha: Binary -> string, commands: seq<Command>, w: World, s: Step)
    requires |w.phases| == |commands|
    ensures |Apply(sha, commands, w, s).phases| == |commands|
  {
  }

  function Run(sha: Binary -> string, commands: seq<Command>, w: World, steps: seq<Step>): (end: World)
    requires |w.phases| == |commands|
    ensures |end.phases| == |commands|
    decreases |steps|
  {
    if steps == [] then w
    else
      SameTasks(sha, commands, w, steps[0]);
      Run(sha, commands, Apply(sha, commands, w, steps[0]), steps[1..])
  }

  // ----- No two tasks on one staged path ----------------------------------------------------

  /** The upgrade still relies on its staged file. */
  predicate Holding(p: Phase) {
    p.Opened? || p.Written? || p.Verified? || p.Cleared? || p.MovedAside?
  }

  predicate Exclusive(commands: seq<Command>, w: World)
    requires |w.phases| == |commands|
  {
    forall i, j :: 0 <= i < j < |commands| && Holding(w.phases[i]) && Holding(w.phases[j]) ==>
      commands[i].target != commands[j].target
  }

  predicate ExclusiveRun(sha: Binary -> string, commands: seq<Command>, w: World, steps: seq<Step>)
    requires |w.phases| == |commands|
    decreases |steps|
  {
    Exclusive(commands, w) &&
    (steps == [] ||
      (SameTasks(sha, commands, w, steps[0]);
       ExclusiveRun(sha, commands, Apply(sha, commands, w, steps[0]), steps[1..])))
  }

  /** Installed at the start, or with the checksum of some command. */
  ghost predicate Good(sha: Binary -> string, commands: seq<Command>, initial: set<Binary>, b: Binary) {
    b in initial || exists c :: c in commands && ChecksumMatches(sha, b, c.expected)
  }

  ghost predicate ActiveIsGood(sha: Binary -> string, commands: seq<Command>, initial: set<Binary>, w: World) {
    Active in w.disk.files ==>
      w.disk.files[Active] in w.contents && Good(sha, commands, initial, w.contents[w.disk.files[Active]])
  }

  /** Every path names a file of its own. */
  ghost predicate FilesOk(w: World) {
    && (forall p :: p in w.disk.files ==> w.disk.files[p] in w.contents && w.disk.files[p] < w.next)
    && (forall p, q :: p in w.disk.files && q in w.disk.files && w.disk.files[p] == w.disk.files[q] ==> p == q)
  }

  /** The staged file is what the upgrade task takes it to be. */
  ghost predicate TaskOk(sha: Binary -> string, commands: seq<Command>, initial: set<Binary>, w: World, i: nat)
    requires i < |commands| == |w.phases| && FilesOk(w)
  {
    var staged := Staged(commands[i].target);
    match w.phases[i]
    case Opened(file) => FileAt(w.disk.files, staged) == Some(file) && w.contents[file] == []
    case Written(body) => staged in w.disk.files && w.contents[w.disk.files[staged]] == body
    case Verified => staged in w.disk.files && Good(sha, commands, initial, w.contents[w.disk.files[staged]])
    case Cleared => staged in w.disk.files && Good(sha, commands, initial, w.contents[w.disk.files[staged]])
    case MovedAside => staged in w.disk.files && Good(sha, commands, initial, w.contents[w.disk.files[staged]])
    case _ => true
  }

  /** Every path but a staged one holds a good binary. */
  ghost predicate DiskOk(sha: Binary -> string, commands: seq<Command>, initial: set<Binary>, w: World) {
    && FilesOk(w) && SentinelPaths(w.disk)
    && (forall p :: p in w.disk.files && !p.Staged? ==> Good(sha, commands, initial, w.contents[w.disk.files[p]]))
  }

  ghost predicate Sound(sha: Binary -> string, commands: seq<Command>, initial: set<Binary>, w: World) {
    && |w.phases| == |commands| && DiskOk(sha, commands, initial, w)
    && (forall i :: 0 <= i < |commands| ==> TaskOk(sha, commands, initial, w, i))
  }

  lemma CreateKeepsDiskOk(sha: Binary -> string, commands: seq<Command>, initial: set<Binary>, w: World, i: nat, v: Version)
    requires DiskOk(sha, commands, initial, w) && i < |w.phases|
    ensures DiskOk(sha, commands, initial, Created(w, i, Staged(v)))
  {
    hide Good;
  }

  lemma CreateStaysSound(sha: Binary -> string, commands: seq<Command>, initial: set<Binary>, w: World, i: nat)
    requires Sound(sha, commands, initial, w) && i < |commands| && w.phases[i] == Requesting
    requires Exclusive(commands, Created(w, i, Staged(commands[i].target)))
    ensures Sound(sha, commands, initial, Created(w, i, Staged(commands[i].target)))
  {
    hide Good;
    CreateKeepsDiskOk(sha, commands, initial, w, i, commands[i].target);
    var after := Created(w, i, Staged(commands[i].target));
    forall j | 0 <= j < |commands|
      ensures TaskOk(sha, commands, initial, after, j)
    {
      assert TaskOk(sha, commands, initial, w, j);
      assert Holding(after.phases[i]);
    }
  }

  lemma ReceiveStaysSound(sha: Binary -> string, commands: seq<Command>, initial: set<Binary>, w: World, i: nat,
                          bytes: Binary, phase: Phase)
    requires Sound(sha, commands, initial, w) && Exclusive(commands, w) && i < |commands| && w.phases[i].Opened?
    requires phase == Finished || phase == Written(bytes)
    ensures Sound(sha, commands, initial, InPhase(Wrote(w, w.phases[i].file, bytes), i, phase))
  {
    hide Good;
    assert TaskOk(sha, commands, initial, w, i);
    var after := InPhase(Wrote(w, w.phases[i].file, bytes), i, phase);
    forall j | 0 <= j < |commands|
      ensures TaskOk(sha, commands, initial, after, j)
    {
      assert TaskOk(sha, commands, initial, w, j);
      assert Holding(w.phases[i]);
    }
  }

  lemma CheckStaysSound(sha: Binary -> string, commands: seq<Command>, initial: set<Binary>, w: World, i: nat, remove: bool)
    requires Sound(sha, commands, initial, w) && Exclusive(commands, w) && i < |commands| && w.phases[i].Written?
    ensures Sound(sha, commands, initial, Perform(sha, commands[i], w, i, Check(remove)))
  {
    hide ChecksumMatches;
    assert TaskOk(sha, commands, initial, w, i);
    assert commands[i] in commands;
    var after := Perform(sha, commands[i], w, i, Check(remove));
    forall j | 0 <= j < |commands|
      ensures TaskOk(sha, commands, initial, after, j)
    {
      assert TaskOk(sha, commands, initial, w, j);
      assert Holding(w.phases[i]);
    }
  }

  predicate Passed(p: Phase) {
    p.Verified? || p.Cleared? || p.MovedAside?
  }

  /** Every task goes on as before, or has passed its check, or has let go of its staged file. */
  predicate Follows(commands: seq<Command>, w: World, after: World) {
    && |after.phases| == |w.phases| == |commands| && after.contents == w.contents
    && forall j :: 0 <= j < |commands| && Holding(after.phases[j]) ==>
      && (after.phases[j] == w.phases[j] || (Passed(w.phases[j]) && Passed(after.phases[j])))
      && FileAt(after.disk.files, Staged(commands[j].target)) == FileAt(w.disk.files, Staged(commands[j].target))
  }

  lemma FollowingStaysSound(sha: Binary -> string, commands: seq<Command>, initial: set<Binary>, w: World, after: World)
    requires Sound(sha, commands, initial, w) && DiskOk(sha, commands, initial, after) && Follows(commands, w, after)
    ensures Sound(sha, commands, initial, after)
  {
    hide Good;
    forall j | 0 <= j < |commands|
      ensures TaskOk(sha, commands, initial, after, j)
    {
      assert TaskOk(sha, commands, initial, w, j);
    }
  }

  /** Moving a good file to where nothing is staged keeps the disk good. */
  lemma RenameKeepsDiskOk(sha: Binary -> string, commands: seq<Command>, initial: set<Binary>, w: World,
                          source: Path, target: Path, ok: bool)
    requires DiskOk(sha, commands, initial, w) && !target.Staged?
    requires source in w.disk.files ==> Good(sha, commands, initial, w.contents[w.disk.files[source]])
    ensures DiskOk(sha, commands, initial, WithFiles(w, Renamed(w.disk.files, source, target, ok)))
  {
    hide Good;
  }

  lemma RemoveKeepsDiskOk(sha: Binary -> string, commands: seq<Command>, initial: set<Binary>, w: World, p: Path, ok: bool)
    requires DiskOk(sha, commands, initial, w)
    ensures DiskOk(sha, commands, initial, WithFiles(w, Removed(w.disk.files, p, ok)))
  {
    hide Good;
  }

  lemma MoveKeepsDiskOk(sha: Binary -> string, commands: seq<Command>, initial: set<Binary>, w: World, i: nat, op: Op)
    requires Sound(sha, commands, initial, w) && i < |commands|
    requires op.ClearBackup? || op.MoveAside? || op.MoveIn? || op.PutBack? || op.Save?
    ensures DiskOk(sha, commands, initial, Perform(sha, commands[i], w, i, op))
  {
    hide Good, Renamed, Removed;
    var c := commands[i];
    assert TaskOk(sha, commands, initial, w, i);
    match (op, w.phases[i])
    case (ClearBackup(ok), Verified) => RemoveKeepsDiskOk(sha, commands, initial, w, Backup(c.current), ok);
    case (MoveAside(ok), Cleared) => RenameKeepsDiskOk(sha, commands, initial, w, Active, Backup(c.current), ok);
    case (MoveIn(ok), MovedAside) => RenameKeepsDiskOk(sha, commands, initial, w, Staged(c.target), Active, ok);
    case (PutBack(ok), PuttingBack) => RenameKeepsDiskOk(sha, commands, initial, w, Backup(c.current), Active, ok);
    case _ =>
  }

  lemma MoveStaysSound(sha: Binary -> string, commands: seq<Command>, initial: set<Binary>, w: World, i: nat, op: Op)
    requires Sound(sha, commands, initial, w) && Exclusive(commands, w) && i < |commands|
    requires op.ClearBackup? || op.MoveAside? || op.MoveIn? || op.PutBack? || op.Save?
    ensures Sound(sha, commands, initial, Perform(sha, commands[i], w, i, op))
  {
    MoveKeepsDiskOk(sha, commands, initial, w, i, op);
    MoveFollows(sha, commands, w, i, op);
    FollowingStaysSound(sha, commands, initial, w, Perform(sha, commands[i], w, i, op));
  }

  lemma MoveFollows(sha: Binary -> string, commands: seq<Command>, w: World, i: nat, op: Op)
    requires |w.phases| == |commands| && Exclusive(commands, w) && i < |commands|
    requires op.ClearBackup? || op.MoveAside? || op.MoveIn? || op.PutBack? || op.Save?
    ensures Follows(commands, w, Perform(sha, commands[i], w, i, op))
  {
    forall j | 0 <= j < |commands| && j != i && Holding(w.phases[j]) && Holding(w.phases[i])
      ensures commands[j].target != commands[i].target
    {
    }
  }

  /** A rollback moves only the active binary and the backup. */
  lemma RollbackKeepsDiskOk(sha: Binary -> string, commands: seq<Command>, initial: set<Binary>, w: World,
                            now: int, io: RollbackIo)
    requires DiskOk(sha, commands, initial, w)
    ensures DiskOk(sha, commands, initial, w.(disk := RollbackDisk(w.disk, now, io)))
  {
    hide Good, Renamed;
    if w.disk.sentinel.Stored? {
      var state := w.disk.sentinel.state;
      RenameKeepsDiskOk(sha, commands, initial, w, state.originalExe, Failed, io.moveAside);
      var aside := WithFiles(w, Renamed(w.disk.files, state.originalExe, Failed, io.moveAside));
      RenameKeepsDiskOk(sha, commands, initial, aside, state.backupExe, state.originalExe, io.restore);
    }
  }

  lemma RestartStaysSound(sha: Binary -> string, commands: seq<Command>, initial: set<Binary>, w: World,
                          now: int, io: RollbackIo)
    requires Sound(sha, commands, initial, w)
    ensures Sound(sha, commands, initial, Apply(sha, commands, w, Restart(now, io)))
  {
    hide Good, RollbackDisk, FilesOk, SentinelPaths, TaskOk;
    RollbackKeepsDiskOk(sha, commands, initial, w, now, io);
    var after := Apply(sha, commands, w, Restart(now, io));
    assert DiskOk(sha, commands, initial, after) by {
      SameDiskOk(sha, commands, initial, w.(disk := RollbackDisk(w.disk, now, io)), after);
    }
    FollowingStaysSound(sha, commands, initial, w, after);
  }

  lemma SameDiskOk(sha: Binary -> string, commands: seq<Command>, initial: set<Binary>, w: World, after: World)
    requires DiskOk(sha, commands, initial, w) && after == w.(phases := after.phases)
    ensures DiskOk(sha, commands, initial, after)
  {
    hide Good;
  }

  lemma HandshakeStaysSound(sha: Binary -> string, commands: seq<Command>, initial: set<Binary>, w: World, io: CommitIo)
    requires Sound(sha, commands, initial, w)
    ensures Sound(sha, commands, initial, Apply(sha, commands, w, Handshake(io)))
  {
    hide Good, TaskOk;
    if w.disk.sentinel.Stored? {
      RemoveKeepsDiskOk(sha, commands, initial, w, w.disk.sentinel.state.backupExe, io.remove);
    }
    FollowingStaysSound(sha, commands, initial, w, Apply(sha, commands, w, Handshake(io)));
  }

  lemma StepStaysSound(sha: Binary -> string, commands: seq<Command>, initial: set<Binary>, w: World, s: Step)
    requires Sound(sha, commands, initial, w) && Exclusive(commands, w)
    requires |Apply(sha, commands, w, s).phases| == |commands| && Exclusive(commands, Apply(sha, commands, w, s))
    ensures Sound(sha, commands, initial, Apply(sha, commands, w, s))
  {
    hide Good, ChecksumMatches, Exclusive, FilesOk, Created, Wrote;
    if !s.Advance? {
      if s.Restart? {
        RestartStaysSound(sha, commands, initial, w, s.now, s.rollback);
      } else {
        HandshakeStaysSound(sha, commands, initial, w, s.commit);
      }
    } else if s.task < |commands| {
      var i := s.task;
      match (s.op, w.phases[i])
      case (Create(ok), Requesting) =>
        if ok { CreateStaysSound(sha, commands, initial, w, i); } else { FinishedStaysSound(sha, commands, initial, w, i); }
      case (Receive(Lost), Opened(_)) => FinishedStaysSound(sha, commands, initial, w, i);
      case (Receive(Partial(bytes)), Opened(_)) => ReceiveStaysSound(sha, commands, initial, w, i, bytes, Finished);
      case (Receive(Whole(bytes)), Opened(_)) => ReceiveStaysSound(sha, commands, initial, w, i, bytes, Written(bytes));
      case (Check(remove), Written(_)) => CheckStaysSound(sha, commands, initial, w, i, remove);
      case (ClearBackup(_), _) => MoveStaysSound(sha, commands, initial, w, i, s.op);
      case (MoveAside(_), _) => MoveStaysSound(sha, commands, initial, w, i, s.op);
      case (MoveIn(_), _) => MoveStaysSound(sha, commands, initial, w, i, s.op);
      case (PutBack(_), _) => MoveStaysSound(sha, commands, initial, w, i, s.op);
      case (Save(_, _), _) => MoveStaysSound(sha, commands, initial, w, i, s.op);
      case _ =>
    }
  }

  lemma FinishedStaysSound(sha: Binary -> string, commands: seq<Command>, initial: set<Binary>, w: World, i: nat)
    requires Sound(sha, commands, initial, w) && i < |commands|
    ensures Sound(sha, commands, initial, InPhase(w, i, Finished))
  {
    hide Good;
    FollowingStaysSound(sha, commands, initial, w, InPhase(w, i, Finished));
  }

  lemma SoundIsGood(sha: Binary -> string, commands: seq<Command>, initial: set<Binary>, w: World)
    requires Sound(sha, commands, initial, w)
    ensures ActiveIsGood(sha, commands, initial, w)
  {
    hide Good, TaskOk;
  }

  lemma ExclusiveAtOnce(sha: Binary -> string, commands: seq<Command>, w: World, steps: seq<Step>)
    requires |w.phases| == |commands| && ExclusiveRun(sha, commands, w, steps)
    ensures Exclusive(commands, w)
  {
    hide Apply, Exclusive;
  }

  /** Over every run in which no two tasks hold the same staged path at a time, whichever
      operations fail and wherever the process stops, every path but a staged one, and so the
      active one, holds a binary from the start or one with the checksum of a command. */
  lemma {:induction false} ExclusiveRunsStaySound(sha: Binary -> string, commands: seq<Command>, initial: set<Binary>,
                                                  w: World, steps: seq<Step>)
    requires |w.phases| == |commands| && Sound(sha, commands, initial, w) && ExclusiveRun(sha, commands, w, steps)
    ensures Sound(sha, commands, initial, Run(sha, commands, w, steps))
    ensures ActiveIsGood(sha, commands, initial, Run(sha, commands, w, steps))
    decreases |steps|
  {
    hide Apply, Exclusive, Sound, ActiveIsGood;
    if steps == [] {
      SoundIsGood(sha, commands, initial, w);
    } else {
      SameTasks(sha, commands, w, steps[0]);
      var after := Apply(sha, commands, w, steps[0]);
      assert ExclusiveRun(sha, commands, after, steps[1..]);
      ExclusiveAtOnce(sha, commands, after, steps[1..]);
      StepStaysSound(sha, commands, initial, w, steps[0]);
      ExclusiveRunsStaySound(sha, commands, initial, after, steps[1..]);
    }
  }

  // ----- Runs in pieces ----------------------------------------------------------------------

  lemma {:induction false} RunAppends(sha: Binary -> string, commands: seq<Command>, w: World,
                                      first: seq<Step>, rest: seq<Step>)
    requires |w.phases| == |commands|
    ensures Run(sha, commands, w, first + rest) == Run(sha, commands, Run(sha, commands, w, first), rest)
    decreases |first|
  {
    hide Apply;
    if first == [] {
      assert first + rest == rest;
    } else {
      SameTasks(sha, commands, w, first[0]);
      assert (first + rest)[1..] == first[1..] + rest;
      RunAppends(sha, commands, Apply(sha, commands, w, first[0]), first[1..], rest);
    }
  }

  lemma {:induction false} RunOne(sha: Binary -> string, commands: seq<Command>, w: World, s: Step)
    requires |w.phases| == |commands|
    ensures Run(sha, commands, w, [s]) == Apply(sha, commands, w, s)
  {
    hide Apply;
    SameTasks(sha, commands, w, s);
    assert [s][1..] == [];
    assert Run(sha, commands, Apply(sha, commands, w, s), []) == Apply(sha, commands, w, s);
  }

  lemma {:induction false} RunTwo(sha: Binary -> string, commands: seq<Command>, w: World, s: Step, t: Step)
    requires |w.phases| == |commands|
    ensures |Apply(sha, commands, w, s).phases| == |commands|
    ensures Run(sha, commands, w, [s, t]) == Apply(sha, commands, Apply(sha, commands, w, s), t)
  {
    hide Apply, Run;
    SameTasks(sha, commands, w, s);
    RunOne(sha, commands, w, s);
    RunOne(sha, commands, Apply(sha, commands, w, s), t);
    assert [s] + [t] == [s, t];
    RunAppends(sha, commands, w, [s], [t]);
  }
}
