/** What every run of upgrades, restarts and handshakes keeps. */
module UpgradeRuns {
  import opened Wrappers
  import opened Upgrade

  datatype Step =
    | Deploy(request: Request)
    | Startup(now: int, rollback: RollbackIo)
    | Handshake(commit: CommitIo)

  function Apply(sha: Binary -> string, d: Disk<Binary>, s: Step): Disk<Binary> {
    match s
    case Deploy(r) => DeployDisk(sha, d, r)
    case Startup(now, io) => RollbackDisk(d, now, io)
    case Handshake(io) => CommitDisk(d, io)
  }

  function Run(sha: Binary -> string, d: Disk<Binary>, steps: seq<Step>): Disk<Binary>
    decreases |steps|
  {
    if steps == [] then d else Run(sha, Apply(sha, d, steps[0]), steps[1..])
  }

  // ----- Whatever fails: only verified binaries become active ---------------------------

  /** The bodies whose checksum matched in some download of the run. */
  function VerifiedBodies(sha: Binary -> string, steps: seq<Step>): set<Binary> {
    if steps == [] then {} else VerifiedBody(sha, steps[0]) + VerifiedBodies(sha, steps[1..])
  }

  function VerifiedBody(sha: Binary -> string, s: Step): set<Binary> {
    if s.Deploy? && Downloads(sha, s.request.expected, s.request.download) then {s.request.download.body} else {}
  }

  /** Every file that can become the active binary comes from `good`. */
  ghost predicate Trusted(d: Disk<Binary>, good: set<Binary>) {
    SentinelPaths(d) && forall p :: p in d.files && !p.Staged? ==> d.files[p] in good
  }

  lemma TrustedStep(sha: Binary -> string, d: Disk<Binary>, s: Step, good: set<Binary>)
    requires Trusted(d, good)
    ensures Trusted(Apply(sha, d, s), good + VerifiedBody(sha, s))
  {
  }

  /** Over every run of whole upgrade tasks, whichever file operations fail and even if one is
      swapped in while another is on trial, the active path holds a binary that was installed at
      the start or whose checksum matched. */
  lemma {:induction false} OnlyVerifiedBinaries(sha: Binary -> string, d: Disk<Binary>, steps: seq<Step>, good: set<Binary>)
    requires Trusted(d, good)
    decreases |steps|
    ensures Trusted(Run(sha, d, steps), good + VerifiedBodies(sha, steps))
    ensures Active in Run(sha, d, steps).files ==>
      Run(sha, d, steps).files[Active] in good + VerifiedBodies(sha, steps)
  {
    if steps == [] {
      assert good + VerifiedBodies(sha, steps) == good;
    } else {
      TrustedStep(sha, d, steps[0], good);
      OnlyVerifiedBinaries(sha, Apply(sha, d, steps[0]), steps[1..], good + VerifiedBody(sha, steps[0]));
      assert good + VerifiedBody(sha, steps[0]) + VerifiedBodies(sha, steps[1..])
          == good + VerifiedBodies(sha, steps);
    }
  }

  /** The two ways to be left without an active binary: the old one was moved aside, its
      replacement did not come, and putting the old one back failed. */
  predicate LosesActive(sha: Binary -> string, d: Disk<Binary>, s: Step) {
    match s
    case Deploy(r) =>
      Downloads(sha, r.expected, r.download) && r.swap.moveAside && !r.swap.moveIn && !r.swap.restore
    case Startup(now, io) =>
      Expired(d, now, io) && d.sentinel.state.backupExe in d.files && io.moveAside && !io.restore
    case Handshake(_) => false
  }

  lemma ActiveIsLostExactlyWhen(sha: Binary -> string, d: Disk<Binary>, s: Step)
    requires Active in d.files && SentinelPaths(d)
    ensures Active !in Apply(sha, d, s).files <==> LosesActive(sha, d, s)
  {
  }

  // ----- Smooth runs refine a transaction with two phases --------------------------------

  /** Settled on a binary, or trying `next` until `deadline` with `previous` in reserve. */
  datatype Phase =
    | Settled(binary: Binary)
    | Trial(previous: Binary, next: Binary, deadline: int, from: Version)

  ghost predicate Represents(d: Disk<Binary>, p: Phase) {
    match p
    case Settled(binary) =>
      FileAt(d.files, Active) == Some(binary) && !d.sentinel.Stored?
    case Trial(previous, next, deadline, from) =>
      && FileAt(d.files, Active) == Some(next)
      && FileAt(d.files, Backup(from)) == Some(previous)
      && d.sentinel.Stored?
      && d.sentinel.state.(targetVersion := "") == UpgradeState(from, "", Active, Backup(from), deadline)
  }

  function NextPhase(sha: Binary -> string, p: Phase, s: Step): Phase {
    match s
    case Deploy(r) =>
      if p.Settled? && Downloads(sha, r.expected, r.download) then
        Trial(p.binary, r.download.body, r.now + r.timeout, r.current)
      else p
    case Startup(now, _) =>
      if p.Trial? && now > p.deadline then Settled(p.previous) else p
    case Handshake(_) =>
      if p.Trial? then Settled(p.next) else p
  }

  /** All file operations after the download succeed. */
  predicate Smooth(s: Step) {
    match s
    case Deploy(r) => r.swap == SMOOTH_SWAP
    case Startup(_, io) => io == SMOOTH_ROLLBACK
    case Handshake(io) => io == SMOOTH_COMMIT
  }

  /** No verified upgrade arrives while another is on trial. */
  predicate OneInFlight(sha: Binary -> string, p: Phase, s: Step) {
    s.Deploy? && Downloads(sha, s.request.expected, s.request.download) ==> p.Settled?
  }

  predicate SmoothRun(sha: Binary -> string, p: Phase, steps: seq<Step>)
    decreases |steps|
  {
    steps == [] ||
    (Smooth(steps[0]) && OneInFlight(sha, p, steps[0]) && SmoothRun(sha, NextPhase(sha, p, steps[0]), steps[1..]))
  }

  function RunPhase(sha: Binary -> string, p: Phase, steps: seq<Step>): Phase
    decreases |steps|
  {
    if steps == [] then p else RunPhase(sha, NextPhase(sha, p, steps[0]), steps[1..])
  }

  lemma StepRefines(sha: Binary -> string, d: Disk<Binary>, p: Phase, s: Step)
    requires Represents(d, p) && Smooth(s) && OneInFlight(sha, p, s)
    ensures Represents(Apply(sha, d, s), NextPhase(sha, p, s))
  {
  }

  /** At every step boundary the disk is in the phase the transaction is in: settled with the
      active binary, or on trial with the previous binary intact in the backup. */
  lemma {:induction false} RunRefines(sha: Binary -> string, d: Disk<Binary>, p: Phase, steps: seq<Step>)
    requires Represents(d, p) && SmoothRun(sha, p, steps)
    decreases |steps|
    ensures Represents(Run(sha, d, steps), RunPhase(sha, p, steps))
  {
    if steps != [] {
      StepRefines(sha, d, p, steps[0]);
      RunRefines(sha, Apply(sha, d, steps[0]), NextPhase(sha, p, steps[0]), steps[1..]);
    }
  }

  predicate AllChecks(steps: seq<Step>) {
    forall s :: s in steps ==> !s.Deploy?
  }

  /** Once settled, restarts and handshakes change nothing, however often and whatever fails:
      an upgrade is settled at most once. */
  lemma {:induction false} SettledIsFinal(sha: Binary -> string, d: Disk<Binary>, p: Phase, steps: seq<Step>)
    requires Represents(d, p) && p.Settled? && AllChecks(steps)
    ensures Run(sha, d, steps) == d
  {
    if steps != [] {
      assert steps[0] in steps;
      assert Apply(sha, d, steps[0]) == d;
      SettledIsFinal(sha, d, p, steps[1..]);
    }
  }

  /** How a trial ends: commit keeps the target and leaves neither sentinel nor backup; an
      expired restart brings the previous binary back; an early restart changes nothing. */
  lemma TrialOutcomes(sha: Binary -> string, d: Disk<Binary>, p: Phase, now: int)
    requires Represents(d, p) && p.Trial?
    ensures var c := Apply(sha, d, Handshake(SMOOTH_COMMIT));
      c == Disk(d.files - {Backup(p.from)}, Absent)
    ensures var r := Apply(sha, d, Startup(now, SMOOTH_ROLLBACK));
      if p.deadline < now then
        && FileAt(r.files, Active) == Some(p.previous) && FileAt(r.files, Failed) == Some(p.next)
        && r.sentinel == Absent
      else r == d
  {
  }

  /** Every way an expired trial can turn out at start-up: each rename happens or not on its own, and the
      sentinel goes whether or not they did. */
  lemma RollbackOutcomes(sha: Binary -> string, d: Disk<Binary>, p: Phase, now: int, io: RollbackIo)
    requires Represents(d, p) && p.Trial? && p.deadline < now
    ensures !io.read ==> Apply(sha, d, Startup(now, io)) == d
    ensures io.read ==> var after := Apply(sha, d, Startup(now, io));
      && FileAt(after.files, Active) == (if io.restore then Some(p.previous) else if io.moveAside then None else Some(p.next))
      && FileAt(after.files, Backup(p.from)) == (if io.restore then None else Some(p.previous))
      && FileAt(after.files, Failed) == (if io.moveAside then Some(p.next) else FileAt(d.files, Failed))
      && after.sentinel == (if io.clear then Absent else d.sentinel)
  {
  }

  /** A sentinel whose backup is gone restores nothing, but is cleared all the same. */
  lemma RollbackWithoutBackup(sha: Binary -> string, d: Disk<Binary>, now: int)
    requires d.sentinel.Stored? && d.sentinel.state.backupExe !in d.files && d.sentinel.state.deadlineSecs < now
    ensures Apply(sha, d, Startup(now, SMOOTH_ROLLBACK)) == Disk(d.files, Absent)
  {
  }

  /** A handshake removes backup and sentinel each on its own, and does nothing without a readable sentinel. */
  lemma CommitOutcomes(sha: Binary -> string, d: Disk<Binary>, io: CommitIo)
    ensures var after := Apply(sha, d, Handshake(io));
      if d.sentinel.Stored? && io.read then
        && after.files == (if io.remove then d.files - {d.sentinel.state.backupExe} else d.files)
        && after.sentinel == (if io.clear then Absent else d.sentinel)
      else after == d
  {
  }

  /** Every way a verified upgrade can turn out from a settled disk: nothing swapped, no active
      binary left, a protected trial, or, when saving the sentinel failed, the new binary
      settled at once without any rollback. */
  lemma DeployOutcomes(sha: Binary -> string, d: Disk<Binary>, binary: Binary, r: Request)
    requires Represents(d, Settled(binary)) && Downloads(sha, r.expected, r.download)
    ensures var after := Apply(sha, d, Deploy(r)); var io := r.swap; var body := r.download.body;
      && (!io.moveAside || (!io.moveIn && io.restore) ==> Represents(after, Settled(binary)) && after.sentinel == d.sentinel)
      && (io.moveAside && !io.moveIn && !io.restore <==> Active !in after.files)
      && (Represents(after, Trial(binary, body, r.now + r.timeout, r.current))
          <==> io.moveAside && io.moveIn && io.save.Saved?)
      && (io.moveAside && io.moveIn && !io.save.Saved? ==> Represents(after, Settled(body)))
      && (io.moveAside && io.moveIn && io.save.Saved? ==>
            after.sentinel == Stored(UpgradeState(r.current, r.target, Active, Backup(r.current), r.now + r.timeout)))
  {
  }

  // ----- Overlapping upgrades ---------------------------------------------------------------

  /** Whatever came before, a rollback brings back what was active when the last swap happened. */
  lemma RollbackUndoesTheLastSwap(sha: Binary -> string, d: Disk<Binary>, r: Request, now: int)
    requires Active in d.files && Smooth(Deploy(r)) && Downloads(sha, r.expected, r.download)
    requires r.now + r.timeout < now
    ensures FileAt(Run(sha, d, [Deploy(r), Startup(now, SMOOTH_ROLLBACK)]).files, Active) == FileAt(d.files, Active)
  {
    hide Run, Downloads, StagedDisk;
    RunTwo(sha, d, Deploy(r), Startup(now, SMOOTH_ROLLBACK));
    StagingKeeps(sha, d, r);
  }

  lemma RunTwo(sha: Binary -> string, d: Disk<Binary>, first: Step, second: Step)
    ensures Run(sha, d, [first, second]) == Apply(sha, Apply(sha, d, first), second)
  {
    hide Apply;
    var steps := [first, second];
    assert steps[1..] == [second] && [second][1..] == [];
    assert Run(sha, Apply(sha, d, first), [second]) == Apply(sha, Apply(sha, d, first), second);
  }

  lemma StagingKeeps(sha: Binary -> string, d: Disk<Binary>, r: Request)
    requires Downloads(sha, r.expected, r.download)
    ensures Staged(r.target) in StagedDisk(sha, d, r).files
    ensures FileAt(StagedDisk(sha, d, r).files, Active) == FileAt(d.files, Active)
  {
  }

  /** Some start-up check after the deadline comes before the first handshake. */
  predicate RolledBack(deadline: int, checks: seq<Step>)
    decreases |checks|
  {
    checks != [] && !checks[0].Handshake? &&
    ((checks[0].Startup? && deadline < checks[0].now) || RolledBack(deadline, checks[1..]))
  }

  lemma {:induction false} ChecksSettle(sha: Binary -> string, p: Phase, checks: seq<Step>)
    requires AllChecks(checks) && forall s :: s in checks ==> Smooth(s)
    ensures SmoothRun(sha, p, checks)
    ensures p.Settled? ==> RunPhase(sha, p, checks) == p
    ensures p.Trial? && RolledBack(p.deadline, checks) ==> RunPhase(sha, p, checks) == Settled(p.previous)
    ensures p.Trial? && !RolledBack(p.deadline, checks) ==>
      RunPhase(sha, p, checks) == p || RunPhase(sha, p, checks) == Settled(p.next)
    decreases |checks|
  {
    if checks != [] {
      assert checks[0] in checks;
      ChecksSettle(sha, NextPhase(sha, p, checks[0]), checks[1..]);
    }
  }

  /** Why one upgrade at a time: a second upgrade after some checks, and then a rollback, bring
      back the original binary if and only if the first trial was already rolled back by then,
      or the first upgrade delivered the original once more. */
  lemma OverlapLosesPrevious(sha: Binary -> string, d: Disk<Binary>, binary: Binary, r1: Request, checks: seq<Step>,
                             r2: Request, now: int)
    requires Represents(d, Settled(binary)) && Smooth(Deploy(r1)) && Smooth(Deploy(r2))
    requires AllChecks(checks) && forall s :: s in checks ==> Smooth(s)
    requires Downloads(sha, r1.expected, r1.download) && Downloads(sha, r2.expected, r2.download)
    requires r2.now + r2.timeout < now
    ensures FileAt(Run(sha, Run(sha, Apply(sha, d, Deploy(r1)), checks), [Deploy(r2), Startup(now, SMOOTH_ROLLBACK)]).files,
                   Active) == Some(binary)
       <==> RolledBack(r1.now + r1.timeout, checks) || r1.download.body == binary
  {
    var p1 := Trial(binary, r1.download.body, r1.now + r1.timeout, r1.current);
    assert NextPhase(sha, Settled(binary), Deploy(r1)) == p1;
    hide Apply, NextPhase, RolledBack, Run, RunPhase;
    var d1 := Apply(sha, d, Deploy(r1));
    StepRefines(sha, d, Settled(binary), Deploy(r1));
    ChecksSettle(sha, p1, checks);
    RunRefines(sha, d1, p1, checks);
    RollbackUndoesTheLastSwap(sha, Run(sha, d1, checks), r2, now);
  }
}
