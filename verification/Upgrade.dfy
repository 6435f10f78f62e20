/** The over-the-air upgrade transaction of the endpoint agent: checksum gate, the two
    renames of the swap, the sentinel file, and commit or rollback. Every file operation
    takes its success as an input, so the theorems also speak about failures. */
module Upgrade {
  import opened Wrappers

  type Version = string
  type Binary = seq<bv8>

  /** The paths the transaction touches; their strings are pairwise distinct. */
  datatype Path = Active | Backup(version: Version) | Failed | Staged(version: Version)

  datatype UpgradeState = UpgradeState(
    previousVersion: Version, targetVersion: Version, originalExe: Path, backupExe: Path, deadlineSecs: int)

  /** `upgrade_state.json`: missing, not parseable, or holding a state. */
  datatype Sentinel = Absent | Garbage | Stored(state: UpgradeState)

  type Files<T> = map<Path, T>

  /** What the paths hold: contents, or the numbers of open files. */
  datatype Disk<T> = Disk(files: Files<T>, sentinel: Sentinel)

  /** Writing the sentinel succeeds, fails before touching the file, or fails half-way. */
  datatype SaveResult = Saved | Untouched | Truncated

  /** Which file operations of a swap succeed. */
  datatype SwapIo = SwapIo(removeOld: bool, moveAside: bool, moveIn: bool, restore: bool, save: SaveResult)

  datatype RollbackIo = RollbackIo(read: bool, moveAside: bool, restore: bool, clear: bool)

  datatype CommitIo = CommitIo(read: bool, remove: bool, clear: bool)

  /** How a download turns out: no staged file is created, the file is created but the body is
      lost, writing stops after some bytes, or the body is written; in the last case a body
      whose checksum does not match is then removed or not. */
  datatype DownloadIo =
    | NotCreated
    | BodyLost
    | WriteFailed(written: Binary)
    | Complete(body: Binary, remove: bool)

  datatype UpgradeError = DownloadFailed | ChecksumMismatch | MoveAsideFailed | MoveInFailed | SaveFailed

  const SMOOTH_SWAP := SwapIo(true, true, true, true, Saved)
  const SMOOTH_ROLLBACK := RollbackIo(true, true, true, true)
  const SMOOTH_COMMIT := CommitIo(true, true, true)

  // ----- File operations -----------------------------------------------------------

  /** `fs::rename` replaces the destination and needs the source to exist. */
  function Renamed<T>(files: Files<T>, source: Path, target: Path, ok: bool): Files<T> {
    if ok && source in files then (files - {source})[target := files[source]] else files
  }

  function Removed<T>(files: Files<T>, p: Path, ok: bool): Files<T> {
    if ok then files - {p} else files
  }

  // ----- The steps as functions -------------------------------------------------------

  function LowerCase(s: string): string {
    seq(|s|, i requires 0 <= i < |s| => if 'A' <= s[i] <= 'Z' then s[i] - 'A' + 'a' else s[i])
  }

  /** Checksums are compared without regard to ASCII case. */
  predicate ChecksumMatches(sha: Binary -> string, body: Binary, expected: string) {
    LowerCase(sha(body)) == LowerCase(expected)
  }

  /** Whether two characters are equal but for the case of an ASCII letter. */
  predicate SameLetter(a: char, b: char) {
    || a == b
    || ('A' <= a <= 'Z' && b as int == a as int + 32)
    || ('A' <= b <= 'Z' && a as int == b as int + 32)
  }

  /** The gate opens exactly when the digest is the expected one, letter for letter. */
  lemma GateIsTheDigest(sha: Binary -> string, body: Binary, expected: string)
    ensures ChecksumMatches(sha, body, expected)
       <==> |sha(body)| == |expected| && forall i :: 0 <= i < |expected| ==> SameLetter(sha(body)[i], expected[i])
  {
    var a, b := LowerCase(sha(body)), LowerCase(expected);
    if |sha(body)| == |expected| {
      assert forall i :: 0 <= i < |expected| ==> (SameLetter(sha(body)[i], expected[i]) <==> a[i] == b[i]);
      assert (forall i :: 0 <= i < |expected| ==> a[i] == b[i]) ==> a == b;
    }
  }

  predicate Downloads(sha: Binary -> string, expected: string, io: DownloadIo) {
    io.Complete? && ChecksumMatches(sha, io.body, expected)
  }

  /** The staged file after a download that stops early or fails its checksum. */
  function DownloadLeaves(sha: Binary -> string, expected: string, io: DownloadIo, before: Option<Binary>): Option<Binary> {
    match io
    case NotCreated => before
    case BodyLost => Some([])
    case WriteFailed(written) => Some(written)
    case Complete(body, remove) => if ChecksumMatches(sha, body, expected) || !remove then Some(body) else None
  }

  function WithFile(files: Files<Binary>, p: Path, content: Option<Binary>): Files<Binary> {
    match content
    case None => files - {p}
    case Some(b) => files[p := b]
  }

  function FileAt<T>(files: Files<T>, p: Path): Option<T> {
    if p in files then Some(files[p]) else None
  }

  predicate MovesIn(d: Disk<Binary>, target: Version, io: SwapIo) {
    io.moveIn && Staged(target) in d.files
  }

  function SwapState(target: Version, current: Version, now: int, timeout: int): UpgradeState {
    UpgradeState(current, target, Active, Backup(current), now + timeout)
  }

  /** Where a swap leaves every file, by case on what succeeded. */
  function SwapFiles(d: Disk<Binary>, target: Version, current: Version, io: SwapIo): Files<Binary> {
    var kept := Removed(d.files, Backup(current), io.removeOld);
    if Active !in d.files || !io.moveAside then kept
    else if MovesIn(d, target, io) then
      (kept - {Staged(target)})[Active := d.files[Staged(target)]][Backup(current) := d.files[Active]]
    else if io.restore then kept - {Backup(current)}
    else (kept - {Active})[Backup(current) := d.files[Active]]
  }

  function SwapSentinel(d: Disk<Binary>, target: Version, current: Version, now: int, timeout: int, io: SwapIo): Sentinel {
    if Active in d.files && io.moveAside && MovesIn(d, target, io) then
      match io.save {
        case Saved => Stored(SwapState(target, current, now, timeout))
        case Untouched => d.sentinel
        case Truncated => Garbage
      }
    else d.sentinel
  }

  /** The case analysis agrees with doing the renames one after the other. */
  lemma SwapByRenames(d: Disk<Binary>, target: Version, current: Version, io: SwapIo)
    requires Active in d.files && io.moveAside
    ensures var kept := Removed(d.files, Backup(current), io.removeOld);
      var aside := Renamed(kept, Active, Backup(current), true);
      var moved := Renamed(aside, Staged(target), Active, io.moveIn);
      SwapFiles(d, target, current, io)
      == if MovesIn(d, target, io) then moved else Renamed(moved, Backup(current), Active, io.restore)
  {
  }

  predicate Expired<T>(d: Disk<T>, now: int, io: RollbackIo) {
    d.sentinel.Stored? && io.read && now > d.sentinel.state.deadlineSecs
  }

  /** A stored sentinel names the active path and a backup path. */
  predicate SentinelPaths<T>(d: Disk<T>) {
    d.sentinel.Stored? ==> d.sentinel.state.originalExe == Active && d.sentinel.state.backupExe.Backup?
  }

  function RollbackFiles<T>(d: Disk<T>, now: int, io: RollbackIo): Files<T> {
    if Expired(d, now, io) && d.sentinel.state.backupExe in d.files then
      var s := d.sentinel.state;
      Renamed(Renamed(d.files, s.originalExe, Failed, io.moveAside), s.backupExe, s.originalExe, io.restore)
    else d.files
  }

  function RollbackDisk<T>(d: Disk<T>, now: int, io: RollbackIo): Disk<T> {
    Disk(RollbackFiles(d, now, io), if Expired(d, now, io) && io.clear then Absent else d.sentinel)
  }

  function CommitDisk<T>(d: Disk<T>, io: CommitIo): Disk<T> {
    if d.sentinel.Stored? && io.read then
      Disk(Removed(d.files, d.sentinel.state.backupExe, io.remove), if io.clear then Absent else d.sentinel)
    else d
  }

  // ----- The agent -----------------------------------------------------------------------

  class Agent {
    var files: Files<Binary>
    var sentinel: Sentinel

    ghost function OnDisk(): Disk<Binary>
      reads this
    {
      Disk(files, sentinel)
    }

    constructor (d: Disk<Binary>)
      ensures OnDisk() == d
    {
      files, sentinel := d.files, d.sentinel;
    }

    method Rename(source: Path, target: Path, ok: bool) returns (success: bool)
      modifies this`files
      ensures success == (ok && source in old(files))
      ensures files == Renamed(old(files), source, target, ok)
    {
      success := ok && source in files;
      if success {
        var content := files[source];
        files := files - {source};
        files := files[target := content];
      }
    }

    method RemoveFile(p: Path, ok: bool)
      modifies this`files
      ensures files == Removed(old(files), p, ok)
    {
      if ok { files := files - {p}; }
    }

    /** Only a body whose checksum matches is reported as downloaded, and it is what is staged. */
    method DownloadAndVerify(sha: Binary -> string, expected: string, target: Version, io: DownloadIo)
      returns (r: Result<(), UpgradeError>)
      modifies this`files
      ensures r.Ok? <==> Downloads(sha, expected, io)
      ensures r.Ok? ==> Staged(target) in files && files[Staged(target)] == io.body
      ensures files == WithFile(old(files), Staged(target),
                                DownloadLeaves(sha, expected, io, FileAt(old(files), Staged(target))))
    {
      var staged := Staged(target);
      if io.NotCreated? {
        assert files == WithFile(files, staged, FileAt(files, staged));
        return Err(DownloadFailed);
      }
      files := files[staged := []];
      if io.BodyLost? { return Err(DownloadFailed); }
      if io.WriteFailed? {
        files := files[staged := io.written];
        return Err(DownloadFailed);
      }
      files := files[staged := io.body];
      if !ChecksumMatches(sha, io.body, expected) {
        RemoveFile(staged, io.remove);
        assert files == WithFile(old(files), staged, if io.remove then None else Some(io.body));
        return Err(ChecksumMismatch);
      }
      return Ok(());
    }

    method ExecuteAtomicSwap(target: Version, current: Version, now: int, timeout: int, io: SwapIo)
      returns (r: Result<UpgradeState, UpgradeError>)
      modifies this
      ensures OnDisk() == Disk(SwapFiles(old(OnDisk()), target, current, io),
                               SwapSentinel(old(OnDisk()), target, current, now, timeout, io))
      ensures r.Ok? <==> Active in old(files) && io.moveAside && MovesIn(old(OnDisk()), target, io) && io.save.Saved?
      ensures r.Ok? ==> sentinel == Stored(r.value) && r.value == SwapState(target, current, now, timeout)
    {
      if Backup(current) in files {
        RemoveFile(Backup(current), io.removeOld);
      }
      assert files == Removed(old(files), Backup(current), io.removeOld);
      var aside := Rename(Active, Backup(current), io.moveAside);
      if !aside { return Err(MoveAsideFailed); }
      SwapByRenames(old(OnDisk()), target, current, io);
      var moved := Rename(Staged(target), Active, io.moveIn);
      if !moved {
        var _ := Rename(Backup(current), Active, io.restore);
        return Err(MoveInFailed);
      }
      var state := UpgradeState(current, target, Active, Backup(current), now + timeout);
      match io.save {
        case Saved =>
          sentinel := Stored(state);
          return Ok(state);
        case Untouched =>
          return Err(SaveFailed);
        case Truncated =>
          sentinel := Garbage;
          return Err(SaveFailed);
      }
    }

    method ClearSentinel(ok: bool)
      modifies this`sentinel
      ensures sentinel == if ok then Absent else old(sentinel)
    {
      if sentinel != Absent && ok { sentinel := Absent; }
    }

    method CheckAndHandleRollback(now: int, io: RollbackIo)
      modifies this
      ensures OnDisk() == RollbackDisk(old(OnDisk()), now, io)
    {
      if !sentinel.Stored? || !io.read { return; }
      var state := sentinel.state;
      if now > state.deadlineSecs {
        if state.backupExe in files {
          var _ := Rename(state.originalExe, Failed, io.moveAside);
          var _ := Rename(state.backupExe, state.originalExe, io.restore);
        }
        ClearSentinel(io.clear);
      }
    }

    method CommitUpgradeSuccess(io: CommitIo)
      modifies this
      ensures OnDisk() == CommitDisk(old(OnDisk()), io)
    {
      if !sentinel.Stored? || !io.read { return; }
      var backup := sentinel.state.backupExe;
      if backup in files {
        RemoveFile(backup, io.remove);
      }
      assert files == Removed(old(files), backup, io.remove);
      ClearSentinel(io.clear);
    }

    /** The upgrade task: download, check, and only then swap. */
    method HandleUpgrade(sha: Binary -> string, r: Request)
      modifies this
      ensures OnDisk() == DeployDisk(sha, old(OnDisk()), r)
    {
      var downloaded := DownloadAndVerify(sha, r.expected, r.target, r.download);
      if downloaded.Ok? {
        var _ := ExecuteAtomicSwap(r.target, r.current, r.now, r.timeout, r.swap);
      }
    }
  }

  /** An AGENT_UPGRADE command together with how its file operations turn out. */
  datatype Request = Request(target: Version, current: Version, expected: string, download: DownloadIo,
                             now: int, timeout: int, swap: SwapIo)

  function StagedDisk(sha: Binary -> string, d: Disk<Binary>, r: Request): Disk<Binary> {
    d.(files := WithFile(d.files, Staged(r.target),
                         DownloadLeaves(sha, r.expected, r.download, FileAt(d.files, Staged(r.target)))))
  }

  function DeployDisk(sha: Binary -> string, d: Disk<Binary>, r: Request): Disk<Binary> {
    var staged := StagedDisk(sha, d, r);
    if Downloads(sha, r.expected, r.download) then
      Disk(SwapFiles(staged, r.target, r.current, r.swap),
           SwapSentinel(staged, r.target, r.current, r.now, r.timeout, r.swap))
    else staged
  }
}
