/** When two upgrade tasks meet on one staged file, and which commands rule that out. */
module UpgradeCollision {
  import opened Upgrade
  import opened UpgradeTasks

  predicate DistinctTargets(commands: seq<Command>) {
    forall i, j :: 0 <= i < j < |commands| ==> commands[i].target != commands[j].target
  }

  lemma {:induction false} DistinctTargetsExclude(sha: Binary -> string, commands: seq<Command>, w: World, steps: seq<Step>)
    requires |w.phases| == |commands| && DistinctTargets(commands)
    ensures ExclusiveRun(sha, commands, w, steps)
    decreases |steps|
  {
    hide Apply;
    if steps != [] {
      SameTasks(sha, commands, w, steps[0]);
      DistinctTargetsExclude(sha, commands, Apply(sha, commands, w, steps[0]), steps[1..]);
    }
  }

  /** An agent just installed, before any command. */
  function Installed(binary: Binary, tasks: nat): World {
    World(Disk(map[Active := 0], Absent), map[0 := binary], 1, seq(tasks, _ => Requesting))
  }

  lemma InstalledIsSound(sha: Binary -> string, commands: seq<Command>, binary: Binary)
    ensures Sound(sha, commands, {binary}, Installed(binary, |commands|))
  {
    var w := Installed(binary, |commands|);
    assert FilesOk(w);
    forall p | p in w.disk.files && !p.Staged?
      ensures Good(sha, commands, {binary}, w.contents[w.disk.files[p]])
    {
    }
  }

  /** Two tasks on one staged path: task `j` waits for its body with the file open ... */
  function BothOpen(i: nat, j: nat): seq<Step> {
    [Advance(j, Create(true)), Advance(i, Create(true))]
  }

  /** ... while task `i` writes, checks and installs that file; ... */
  function FirstInstalls(i: nat, body: Binary): seq<Step> {
    [Advance(i, Receive(Whole(body))), Advance(i, Check(true))]
    + [Advance(i, ClearBackup(true)), Advance(i, MoveAside(true))] + [Advance(i, MoveIn(true))]
  }

  /** ... and then the body of `j` arrives and is written through its open file. */
  function Collision(i: nat, j: nat, body: Binary, late: Binary): seq<Step> {
    BothOpen(i, j) + FirstInstalls(i, body) + [Advance(j, Receive(Whole(late)))]
  }

  /** The paths, the content of the shared file, and the two tasks at some point of the collision. */
  predicate At(w: World, files: Files<nat>, shared: Binary, i: nat, first: Phase, j: nat) {
    && w.disk.files == files && 1 in w.contents && w.contents[1] == shared
    && i < |w.phases| && j < |w.phases| && i != j && w.phases[i] == first && w.phases[j] == Opened(1)
  }

  lemma {:induction false} AfterBothOpen(sha: Binary -> string, commands: seq<Command>, binary: Binary, i: nat, j: nat)
    requires i < |commands| && j < |commands| && i != j && commands[i].target == commands[j].target
    ensures At(Run(sha, commands, Installed(binary, |commands|), BothOpen(i, j)),
               map[Active := 0, Staged(commands[i].target) := 1], [], i, Opened(1), j)
  {
    hide Run;
    var w0 := Installed(binary, |commands|);
    RunTwo(sha, commands, w0, Advance(j, Create(true)), Advance(i, Create(true)));
    assert Apply(sha, commands, w0, Advance(j, Create(true))).disk.files
        == map[Active := 0, Staged(commands[i].target) := 1];
  }

  lemma {:induction false} AfterCheck(sha: Binary -> string, commands: seq<Command>, w: World, i: nat, j: nat, body: Binary)
    requires |w.phases| == |commands| && i < |commands|
    requires At(w, map[Active := 0, Staged(commands[i].target) := 1], [], i, Opened(1), j)
    requires ChecksumMatches(sha, body, commands[i].expected)
    ensures At(Run(sha, commands, w, [Advance(i, Receive(Whole(body))), Advance(i, Check(true))]),
               w.disk.files, body, i, Verified, j)
  {
    hide Run, ChecksumMatches;
    RunTwo(sha, commands, w, Advance(i, Receive(Whole(body))), Advance(i, Check(true)));
  }

  lemma {:induction false} AfterMoveAside(sha: Binary -> string, commands: seq<Command>, w: World, i: nat, j: nat, body: Binary)
    requires |w.phases| == |commands| && i < |commands|
    requires At(w, map[Active := 0, Staged(commands[i].target) := 1], body, i, Verified, j)
    ensures At(Run(sha, commands, w, [Advance(i, ClearBackup(true)), Advance(i, MoveAside(true))]),
               map[Backup(commands[i].current) := 0, Staged(commands[i].target) := 1], body, i, MovedAside, j)
  {
    hide Run;
    RunTwo(sha, commands, w, Advance(i, ClearBackup(true)), Advance(i, MoveAside(true)));
    var w1 := Apply(sha, commands, w, Advance(i, ClearBackup(true)));
    assert At(w1, w.disk.files, body, i, Cleared, j);
  }

  lemma {:induction false} AfterMoveIn(sha: Binary -> string, commands: seq<Command>, w: World, i: nat, j: nat, body: Binary)
    requires |w.phases| == |commands| && i < |commands|
    requires At(w, map[Backup(commands[i].current) := 0, Staged(commands[i].target) := 1], body, i, MovedAside, j)
    ensures At(Run(sha, commands, w, [Advance(i, MoveIn(true))]),
               map[Backup(commands[i].current) := 0, Active := 1], body, i, MovedIn, j)
  {
    hide Run;
    RunOne(sha, commands, w, Advance(i, MoveIn(true)));
  }

  lemma {:induction false} AfterFirstInstalls(sha: Binary -> string, commands: seq<Command>, w: World, i: nat, j: nat,
                                              body: Binary)
    requires |w.phases| == |commands| && i < |commands|
    requires At(w, map[Active := 0, Staged(commands[i].target) := 1], [], i, Opened(1), j)
    requires ChecksumMatches(sha, body, commands[i].expected)
    ensures At(Run(sha, commands, w, FirstInstalls(i, body)),
               map[Backup(commands[i].current) := 0, Active := 1], body, i, MovedIn, j)
  {
    var files := w.disk.files;
    assert files == map[Active := 0, Staged(commands[i].target) := 1];
    hide Run, At, ChecksumMatches;
    var check := [Advance(i, Receive(Whole(body))), Advance(i, Check(true))];
    var aside := [Advance(i, ClearBackup(true)), Advance(i, MoveAside(true))];
    RunAppends(sha, commands, w, check + aside, [Advance(i, MoveIn(true))]);
    RunAppends(sha, commands, w, check, aside);
    var w1 := Run(sha, commands, w, check);
    AfterCheck(sha, commands, w, i, j, body);
    AfterMoveAside(sha, commands, w1, i, j, body);
    AfterMoveIn(sha, commands, Run(sha, commands, w1, aside), i, j, body);
  }

  lemma {:induction false} AfterLateBody(sha: Binary -> string, commands: seq<Command>, w: World, i: nat, j: nat,
                                         files: Files<nat>, body: Binary, late: Binary)
    requires |w.phases| == |commands| && At(w, files, body, i, MovedIn, j) && |body| <= |late|
    ensures var end := Run(sha, commands, w, [Advance(j, Receive(Whole(late)))]);
      end.disk.files == files && 1 in end.contents && end.contents[1] == late
  {
    hide Run;
    RunOne(sha, commands, w, Advance(j, Receive(Whole(late))));
  }

  /** The body of the second task becomes the active binary without any check. */
  lemma {:induction false} CollisionReachesActive(sha: Binary -> string, commands: seq<Command>, binary: Binary, i: nat, j: nat,
                                                  body: Binary, late: Binary)
    requires i < |commands| && j < |commands| && i != j && commands[i].target == commands[j].target
    requires ChecksumMatches(sha, body, commands[i].expected) && |body| <= |late|
    ensures var w := Run(sha, commands, Installed(binary, |commands|), Collision(i, j, body, late));
      Active in w.disk.files && w.disk.files[Active] in w.contents && w.contents[w.disk.files[Active]] == late
  {
    var w0 := Installed(binary, |commands|);
    hide Run, At, ChecksumMatches, Installed, BothOpen, FirstInstalls;
    RunAppends(sha, commands, w0, BothOpen(i, j) + FirstInstalls(i, body), [Advance(j, Receive(Whole(late)))]);
    RunAppends(sha, commands, w0, BothOpen(i, j), FirstInstalls(i, body));
    AfterBothOpen(sha, commands, binary, i, j);
    var w1 := Run(sha, commands, w0, BothOpen(i, j));
    AfterFirstInstalls(sha, commands, w1, i, j, body);
    AfterLateBody(sha, commands, Run(sha, commands, w1, FirstInstalls(i, body)), i, j,
                  map[Backup(commands[i].current) := 0, Active := 1], body, late);
  }

  /** Whatever the bodies and the schedule, the active binary is always a good one if and only if
      no two commands have the same target version. Every command was made for some body, and
      `late` is a binary that nobody asked for, at least as long as those. */
  lemma {:induction false} DistinctTargetsExactly(sha: Binary -> string, commands: seq<Command>, binary: Binary,
                                                  bodies: seq<Binary>, late: Binary)
    requires |bodies| == |commands| && !Good(sha, commands, {binary}, late)
    requires forall i :: 0 <= i < |commands| ==>
      ChecksumMatches(sha, bodies[i], commands[i].expected) && |bodies[i]| <= |late|
    ensures (forall steps :: ActiveIsGood(sha, commands, {binary}, Run(sha, commands, Installed(binary, |commands|), steps)))
       <==> DistinctTargets(commands)
  {
    hide Run, Good, Sound, Exclusive, ExclusiveRun, Installed, ChecksumMatches, Collision;
    var w0 := Installed(binary, |commands|);
    InstalledIsSound(sha, commands, binary);
    InstalledTasks(binary, |commands|);
    if DistinctTargets(commands) {
      forall steps
        ensures ActiveIsGood(sha, commands, {binary}, Run(sha, commands, w0, steps))
      {
        DistinctTargetsExclude(sha, commands, w0, steps);
        ExclusiveRunsStaySound(sha, commands, {binary}, w0, steps);
      }
    } else {
      var i, j :| 0 <= i < j < |commands| && commands[i].target == commands[j].target;
      CollisionReachesActive(sha, commands, binary, i, j, bodies[i], late);
      assert !ActiveIsGood(sha, commands, {binary}, Run(sha, commands, w0, Collision(i, j, bodies[i], late)));
    }
  }

  /** With distinct targets the active binary is, after any interleaving whatever, the one that was installed or
      one whose checksum some command asked for. */
  lemma {:induction false} ActiveWasAskedFor(sha: Binary -> string, commands: seq<Command>, binary: Binary, steps: seq<Step>)
    requires DistinctTargets(commands)
    ensures |Installed(binary, |commands|).phases| == |commands|
    ensures var w := Run(sha, commands, Installed(binary, |commands|), steps);
      Active in w.disk.files && w.disk.files[Active] in w.contents ==>
        var active := w.contents[w.disk.files[Active]];
        active == binary || exists i :: 0 <= i < |commands| && ChecksumMatches(sha, active, commands[i].expected)
  {
    hide Run, Sound, Exclusive, ExclusiveRun, Installed, ChecksumMatches;
    var w0 := Installed(binary, |commands|);
    InstalledIsSound(sha, commands, binary);
    InstalledTasks(binary, |commands|);
    DistinctTargetsExclude(sha, commands, w0, steps);
    ExclusiveRunsStaySound(sha, commands, {binary}, w0, steps);
  }

  lemma InstalledTasks(binary: Binary, tasks: nat)
    ensures |Installed(binary, tasks).phases| == tasks
  {
  }
}
