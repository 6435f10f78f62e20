/** The endpoint agent's persisted identity: pairing code, slot binding, and the
    protected token, with the handlers that load, change and save it. */
module Pairing {
  import opened Wrappers

  // ----- Token protection ---------------------------------------------------------------

  const DPAPI_PREFIX: string := "dpapi:"

  predicate IsWhiteSpace(c: char) {
    var x := c as int;
    || 9 <= x <= 13 || x in {32, 0x85, 0xA0, 0x1680, 0x2028, 0x2029, 0x202F, 0x205F, 0x3000}
    || 0x2000 <= x <= 0x200A
  }

  /** `s.trim().is_empty()`. */
  predicate Blank(s: string) {
    forall i :: 0 <= i < |s| ==> IsWhiteSpace(s[i])
  }

  /** What decrypting and decoding a protected payload yields on this machine. */
  type Cipher = string -> Option<string>

  /** `enc` is a possible outcome of encrypting `plain`: a payload that decrypts to it, or failure. */
  predicate Encrypts(dec: Cipher, plain: string, enc: Option<string>) {
    enc.Some? ==> dec(enc.value) == Some(plain)
  }

  /** Payloads are never shorter than what they decrypt to. */
  ghost predicate NeverLengthens(dec: Cipher) {
    forall payload: string :: dec(payload).Some? ==> |dec(payload).value| <= |payload|
  }

  predicate IsProtected(s: string) {
    DPAPI_PREFIX <= s
  }

  function Protect(plain: string, enc: Option<string>): Option<string> {
    if Blank(plain) then Some("")
    else if IsProtected(plain) then Some(plain)
    else if enc.None? then None
    else Some(DPAPI_PREFIX + enc.value)
  }

  function Unprotect(cipher: string, dec: Cipher): Option<string> {
    if Blank(cipher) then Some("")
    else if !IsProtected(cipher) then Some(cipher)
    else dec(cipher[|DPAPI_PREFIX|..])
  }

  lemma ProtectedIsNotBlank(s: string)
    requires IsProtected(s)
    ensures !Blank(s)
  {
    assert s[0] == DPAPI_PREFIX[0];
  }

  /** Protecting twice equals protecting once, and unprotecting undoes protecting. */
  lemma ProtectLaws(dec: Cipher, plain: string, enc: Option<string>, again: Option<string>)
    requires Encrypts(dec, plain, enc) && Protect(plain, enc).Some?
    ensures Protect(Protect(plain, enc).value, again) == Protect(plain, enc)
    ensures !Blank(plain) && !IsProtected(plain) ==> Unprotect(Protect(plain, enc).value, dec) == Some(plain)
  {
    var c := Protect(plain, enc).value;
    if !Blank(plain) && !IsProtected(plain) {
      assert c[|DPAPI_PREFIX|..] == enc.value;
      assert IsProtected(c);
    }
    if IsProtected(c) { ProtectedIsNotBlank(c); }
  }

  /** What is stored for a token that could be encrypted carries the prefix and its payload; encryption
      is not asked for blank or already prefixed tokens. */
  lemma StoredForm(plain: string, payload: string)
    ensures Protect(plain, Some(payload)) == Some(if Blank(plain) then "" else if "dpapi:" <= plain then plain else "dpapi:" + payload)
    ensures Protect(plain, None).None? <==> !Blank(plain) && !("dpapi:" <= plain)
  {
  }

  /** Read back: blank as empty, plain text as it is, and a prefixed one as its payload decrypts. */
  lemma ReadForm(plain: string, payload: string, dec: Cipher)
    ensures Unprotect("", dec) == Some("")
    ensures Blank(plain) ==> Unprotect(plain, dec) == Some("")
    ensures !Blank(plain) && !("dpapi:" <= plain) ==> Unprotect(plain, dec) == Some(plain)
    ensures Unprotect("dpapi:" + payload, dec) == dec(payload)
  {
    var c := "dpapi:" + payload;
    ProtectedIsNotBlank(c);
    assert c[|DPAPI_PREFIX|..] == payload;
  }

  /** Among ASCII characters blank are the space and the controls from tab to carriage return. */
  lemma BlankAscii(c: char)
    requires c < 128 as char
    ensures Blank([c]) <==> c == ' ' || '\t' <= c <= '\r'
    ensures Blank("")
  {
    assert [c][0] == c;
  }

  /** Beyond ASCII: next line, no-break space and the spaces and separators of Unicode are blank; characters
      of no width are not. */
  lemma BlankBeyondAscii(c: char)
    ensures c as int in {0x85, 0xA0, 0x1680, 0x2028, 0x2029, 0x202F, 0x205F, 0x3000} ==> IsWhiteSpace(c)
    ensures 0x2000 <= c as int <= 0x200A ==> IsWhiteSpace(c)
    ensures c as int in {0x180E, 0x200B, 0x200C, 0x200D, 0x2060, 0xFEFF} ==> !IsWhiteSpace(c)
  {
  }

  // ----- Pairing codes ------------------------------------------------------------------

  /** Instants are in nanoseconds; a code lives 15 minutes. */
  const PAIRING_TTL: int := 15 * 60 * 1_000_000_000

  function Digit(n: nat): char
    requires n < 10
  {
    '0' + n as char
  }

  /** A number below a million, written with six digits. */
  function FormatCode(n: nat): string
    requires n < 1_000_000
  {
    [Digit(n / 100_000), Digit(n / 10_000 % 10), Digit(n / 1_000 % 10), Digit(n / 100 % 10), Digit(n / 10 % 10), Digit(n % 10)]
  }

  predicate IsValidCode(code: string) {
    |code| == 6 && forall i :: 0 <= i < 6 ==> '0' <= code[i] <= '9'
  }

  lemma CodeIsValid(n: nat)
    requires n < 1_000_000
    ensures IsValidCode(FormatCode(n))
  {
  }

  function Value(c: char): int {
    c as int - '0' as int
  }

  /** The six digits read back as the number they were made from, so distinct numbers give distinct codes. */
  lemma CodeReadsBack(n: nat)
    requires n < 1_000_000
    ensures var c := FormatCode(n);
      n == 100_000 * Value(c[0]) + 10_000 * Value(c[1]) + 1_000 * Value(c[2])
           + 100 * Value(c[3]) + 10 * Value(c[4]) + Value(c[5])
  {
    assert n / 10_000 == n / 100_000 * 10 + n / 10_000 % 10;
    assert n / 1_000 == n / 10_000 * 10 + n / 1_000 % 10;
    assert n / 100 == n / 1_000 * 10 + n / 100 % 10;
    assert n / 10 == n / 100 * 10 + n / 10 % 10;
  }

  /** Every text of six digits is a code that can be drawn, and nothing else counts as one. */
  lemma ValidCodesAreDrawn(code: string)
    ensures IsValidCode(code) <==> exists n: nat :: n < 1_000_000 && code == FormatCode(n)
  {
    if IsValidCode(code) {
      DrawnFrom(code);
    }
    forall n: nat | n < 1_000_000 ensures IsValidCode(FormatCode(n)) {
      CodeIsValid(n);
    }
  }

  lemma DrawnFrom(code: string)
    requires IsValidCode(code)
    ensures exists n: nat :: n < 1_000_000 && code == FormatCode(n)
  {
    var a, b, c, d, e, f := Value(code[0]), Value(code[1]), Value(code[2]), Value(code[3]), Value(code[4]), Value(code[5]);
    var n: nat := 10 * (10 * (10 * (10 * (10 * a + b) + c) + d) + e) + f;
    Quotients(a, b, c, d, e, f);
    assert FormatCode(n) == code;
  }

  lemma Quotients(a: int, b: int, c: int, d: int, e: int, f: int)
    requires 0 <= a < 10 && 0 <= b < 10 && 0 <= c < 10 && 0 <= d < 10 && 0 <= e < 10 && 0 <= f < 10
    ensures var n := 10 * (10 * (10 * (10 * (10 * a + b) + c) + d) + e) + f;
      && 0 <= n < 1_000_000
      && n / 100_000 == a && n / 10_000 % 10 == b && n / 1_000 % 10 == c
      && n / 100 % 10 == d && n / 10 % 10 == e && n % 10 == f
  {
    var n2 := 10 * a + b;
    var n3 := 10 * n2 + c;
    var n4 := 10 * n3 + d;
    var n5 := 10 * n4 + e;
    var n := 10 * n5 + f;
    assert n / 10 == n5;
    assert n / 100 == n4;
    assert n / 1_000 == n3;
    assert n / 10_000 == n2;
    assert n / 100_000 == a;
    LastDigit(a, b);
    LastDigit(n2, c);
    LastDigit(n3, d);
    LastDigit(n4, e);
    LastDigit(n5, f);
  }

  lemma LastDigit(q: int, d: int)
    requires 0 <= d < 10
    ensures (10 * q + d) % 10 == d
  {
  }

  // ----- The state --------------------------------------------------------------------------

  /** An RFC 3339 expiry, or text that does not parse as one. */
  datatype Expiry = At(instant: int) | Unparsable

  datatype Snapshot = Snapshot(
    instanceId: string,
    slotId: Option<string>,
    agentToken: Option<string>,
    pairingCode: Option<string>,
    expiresAt: Option<Expiry>)
  {
    predicate IsBound() {
      slotId.Some? && agentToken.Some?
    }

    function ActivePairingCode(now: int): Option<string> {
      if pairingCode.Some? && IsValidCode(pairingCode.value)
         && expiresAt.Some? && expiresAt.value.At? && now < expiresAt.value.instant
      then pairingCode else None
    }

    /** A slot implies a token and no pairing code. */
    predicate Consistent() {
      slotId.Some? ==> agentToken.Some? && pairingCode.None? && expiresAt.None?
    }

    function Issued(code: string, now: int): Snapshot {
      this.(pairingCode := Some(code), expiresAt := Some(At(now + PAIRING_TTL)))
    }
  }

  function Fresh(id: string): Snapshot {
    Snapshot(id, None, None, None, None)
  }

  /** The config file: absent, unreadable as JSON, or holding a state whose token may be protected. */
  datatype Config = Missing | Corrupt | Json(state: Snapshot)

  datatype Write = Written | Untouched | Truncated

  /** The inputs of a save: the outcome of encrypting the token, and of writing the file. */
  datatype SaveIo = SaveIo(enc: Option<string>, write: Write)

  function Loaded(config: Config, dec: Cipher, freshId: string): Snapshot {
    if !config.Json? then Fresh(freshId)
    else
      var s := config.state;
      if s.agentToken.None? || Blank(s.agentToken.value) then s
      else match Unprotect(s.agentToken.value, dec)
        case Some(token) => s.(agentToken := Some(token))
        case None => s.(agentToken := None, slotId := None)
  }

  function OnDisk(s: Snapshot, enc: Option<string>): Snapshot {
    if s.agentToken.None? || Blank(s.agentToken.value) then s
    else match Protect(s.agentToken.value, enc)
      case Some(token) => s.(agentToken := Some(token))
      case None => s
  }

  function Saved(config: Config, s: Snapshot, io: SaveIo): Config {
    match io.write
    case Written => Json(OnDisk(s, io.enc))
    case Untouched => config
    case Truncated => Corrupt
  }

  class AgentState {
    var instanceId: string
    var slotId: Option<string>
    var agentToken: Option<string>
    var pairingCode: Option<string>
    var expiresAt: Option<Expiry>

    function View(): Snapshot
      reads this
    {
      Snapshot(instanceId, slotId, agentToken, pairingCode, expiresAt)
    }

    constructor LoadFrom(config: Config, dec: Cipher, freshId: string)
      ensures View() == Loaded(config, dec, freshId)
    {
      var s := if config.Json? then config.state else Fresh(freshId);
      instanceId, slotId, agentToken, pairingCode, expiresAt :=
        s.instanceId, s.slotId, s.agentToken, s.pairingCode, s.expiresAt;
      new;
      if agentToken.Some? && !Blank(agentToken.value) {
        var plain := Unprotect(agentToken.value, dec);
        if plain.Some? {
          agentToken := plain;
        } else {
          agentToken := None;
          slotId := None;
        }
      }
    }

    method IssuePairingCode(random: nat, now: int) returns (code: string)
      requires random < 1_000_000
      modifies this
      ensures code == FormatCode(random) && View() == old(View()).Issued(code, now)
    {
      code := FormatCode(random);
      pairingCode := Some(code);
      expiresAt := Some(At(now + PAIRING_TTL));
    }

    method ClearPairingCode()
      modifies this
      ensures View() == old(View()).(pairingCode := None, expiresAt := None)
    {
      pairingCode := None;
      expiresAt := None;
    }

    method Bind(slot: string, token: string)
      modifies this
      ensures View() == Snapshot(old(instanceId), Some(slot), Some(token), None, None)
    {
      slotId := Some(slot);
      agentToken := Some(token);
      ClearPairingCode();
    }

    method Unbind(random: nat, now: int) returns (code: string)
      requires random < 1_000_000
      modifies this
      ensures code == FormatCode(random) && View() == Fresh(old(instanceId)).Issued(code, now)
    {
      slotId := None;
      agentToken := None;
      code := IssuePairingCode(random, now);
    }
  }

  // ----- Handlers ------------------------------------------------------------------------------

  /** Everything a handler takes from its surroundings. */
  datatype Env = Env(now: int, random: nat, freshId: string, io: SaveIo)

  datatype Command =
    | Startup
    | Status
    | Refresh
    | Bind(payload: Option<(string, string)>)
    | Unbind
    | Provision(token: string)

  /** The in-memory state a command ends with, and whether it is saved. */
  function Outcome(c: Command, s: Snapshot, env: Env): (Snapshot, bool)
    requires env.random < 1_000_000
  {
    var issued := s.Issued(FormatCode(env.random), env.now);
    match c
    case Startup => if s.IsBound() || s.ActivePairingCode(env.now).Some? then (s, false) else (issued, true)
    case Status => if s.IsBound() || s.ActivePairingCode(env.now).Some? then (s, false) else (issued, true)
    case Refresh => if s.IsBound() then (s, false) else (issued, true)
    case Bind(payload) =>
      if payload.None? || payload.value.0 == "" || payload.value.1 == "" then (s, false)
      else (Snapshot(s.instanceId, Some(payload.value.0), Some(payload.value.1), None, None), true)
    case Unbind => (Fresh(s.instanceId).Issued(FormatCode(env.random), env.now), true)
    case Provision(token) => (s.(agentToken := Some(token)), true)
  }

  function Step(config: Config, dec: Cipher, c: Command, env: Env): Config
    requires env.random < 1_000_000
  {
    var (s, save) := Outcome(c, Loaded(config, dec, env.freshId), env);
    if save then Saved(config, s, env.io) else config
  }

  datatype StatusReply = StatusReply(isBound: bool, pairingCode: Option<string>, expiresAt: Option<Expiry>)

  class ConfigFile {
    var config: Config
    const dec: Cipher

    constructor (dec: Cipher)
      ensures config == Missing && this.dec == dec
    {
      this.dec := dec;
      config := Missing;
    }

    method Save(state: AgentState, io: SaveIo) returns (ok: bool)
      modifies this`config
      ensures config == Saved(old(config), state.View(), io) && ok == io.write.Written?
    {
      var disk := state.View();
      if disk.agentToken.Some? && !Blank(disk.agentToken.value) {
        var enc := Protect(disk.agentToken.value, io.enc);
        if enc.Some? { disk := disk.(agentToken := enc); }
      }
      match io.write {
        case Written => config := Json(disk);
        case Untouched =>
        case Truncated => config := Corrupt;
      }
      ok := io.write.Written?;
    }

    /** GET_AGENT_STATUS: an unbound agent always answers with a live code. */
    method HandleStatus(env: Env) returns (reply: StatusReply)
      requires env.random < 1_000_000
      modifies this`config
      ensures config == Step(old(config), dec, Status, env)
      ensures var s := Outcome(Status, Loaded(old(config), dec, env.freshId), env).0;
        reply == if s.IsBound() then StatusReply(true, None, None) else StatusReply(false, s.pairingCode, s.expiresAt)
      ensures !reply.isBound ==>
        && reply.pairingCode.Some? && IsValidCode(reply.pairingCode.value)
        && reply.expiresAt.Some? && reply.expiresAt.value.At? && env.now < reply.expiresAt.value.instant
    {
      CodeIsValid(env.random);
      var state := new AgentState.LoadFrom(config, dec, env.freshId);
      if state.View().IsBound() { return StatusReply(true, None, None); }
      var active := state.View().ActivePairingCode(env.now);
      if active.None? {
        var code := state.IssuePairingCode(env.random, env.now);
        var _ := Save(state, env.io);
        active := Some(code);
      }
      reply := StatusReply(false, active, state.expiresAt);
    }

    method HandleStartup(env: Env)
      requires env.random < 1_000_000
      modifies this`config
      ensures config == Step(old(config), dec, Startup, env)
    {
      var state := new AgentState.LoadFrom(config, dec, env.freshId);
      if !state.View().IsBound() && state.View().ActivePairingCode(env.now).None? {
        var _ := state.IssuePairingCode(env.random, env.now);
        var _ := Save(state, env.io);
      }
    }

    method HandleRefresh(env: Env) returns (success: bool)
      requires env.random < 1_000_000
      modifies this`config
      ensures config == Step(old(config), dec, Refresh, env)
      ensures success <==> !Loaded(old(config), dec, env.freshId).IsBound() && env.io.write.Written?
    {
      var state := new AgentState.LoadFrom(config, dec, env.freshId);
      if state.View().IsBound() { return false; }
      var _ := state.IssuePairingCode(env.random, env.now);
      success := Save(state, env.io);
    }

    method HandleBind(payload: Option<(string, string)>, env: Env) returns (success: bool)
      requires env.random < 1_000_000
      modifies this`config
      ensures config == Step(old(config), dec, Bind(payload), env)
      ensures success <==> payload.Some? && payload.value.0 != "" && payload.value.1 != "" && env.io.write.Written?
    {
      if payload.None? { return false; }
      var (slot, token) := payload.value;
      if slot == "" || token == "" { return false; }
      var state := new AgentState.LoadFrom(config, dec, env.freshId);
      state.Bind(slot, token);
      success := Save(state, env.io);
    }

    method HandleUnbind(env: Env) returns (success: bool)
      requires env.random < 1_000_000
      modifies this`config
      ensures config == Step(old(config), dec, Unbind, env)
      ensures success <==> env.io.write.Written?
    {
      var state := new AgentState.LoadFrom(config, dec, env.freshId);
      var _ := state.Unbind(env.random, env.now);
      success := Save(state, env.io);
    }

    /** The installer's pre-shared token. */
    method ProvisionToken(token: string, env: Env)
      requires env.random < 1_000_000
      modifies this`config
      ensures config == Step(old(config), dec, Provision(token), env)
    {
      var state := new AgentState.LoadFrom(config, dec, env.freshId);
      state.agentToken := Some(token);
      var _ := Save(state, env.io);
    }
  }

}
