/** What every run of the pairing handlers keeps, and when a saved state loads back unchanged. */
module PairingRuns {
  import opened Wrappers
  import opened Pairing

  // ----- Saving and loading ------------------------------------------------------------------

  /** Whether the token survives a save and a load on this machine: it is blank, or not already
      prefixed, or its payload decrypts to the prefixed token itself. */
  predicate TokenSurvives(token: string, dec: Cipher) {
    Blank(token) || !IsProtected(token) || dec(token[|DPAPI_PREFIX|..]) == Some(token)
  }

  /** `load_from` after `save_to` returns the same state exactly when its token survives, also
      when encryption failed and the token was stored plain. */
  lemma SaveThenLoad(config: Config, s: Snapshot, dec: Cipher, io: SaveIo, freshId: string)
    requires io.write.Written?
    requires s.agentToken.Some? ==> Encrypts(dec, s.agentToken.value, io.enc)
    ensures Loaded(Saved(config, s, io), dec, freshId) == s
       <==> (s.agentToken.Some? ==> TokenSurvives(s.agentToken.value, dec))
  {
    if s.agentToken.Some? && !Blank(s.agentToken.value) {
      var token := s.agentToken.value;
      if !IsProtected(token) && io.enc.Some? {
        ProtectLaws(dec, token, io.enc, None);
        ProtectedIsNotBlank(DPAPI_PREFIX + io.enc.value);
      }
    }
  }

  /** The file holds the protected token where encryption works, the plain one where it fails, and everything
      else as it is. */
  lemma FileHoldsTheProtectedToken(config: Config, s: Snapshot, io: SaveIo)
    requires io.write.Written?
    ensures var saved := Saved(config, s, io);
      && saved.Json? && saved.state == s.(agentToken := saved.state.agentToken)
      && (s.agentToken.None? ==> saved.state.agentToken.None?)
      && (s.agentToken.Some? && !Blank(s.agentToken.value) ==>
            saved.state.agentToken.Some?
            && (io.enc.Some? ==> "dpapi:" <= saved.state.agentToken.value)
            && (io.enc.None? ==> saved.state.agentToken == s.agentToken))
  {
    hide Blank;
  }

  /** A cipher that never lengthens a payload never lets a prefixed token survive. */
  lemma PrefixedTokensNeverSurvive(token: string, dec: Cipher)
    requires NeverLengthens(dec)
    ensures TokenSurvives(token, dec) <==> !IsProtected(token)
  {
    if IsProtected(token) {
      ProtectedIsNotBlank(token);
      var payload := token[|DPAPI_PREFIX|..];
      assert |payload| < |token|;
      assert dec(payload).Some? ==> |dec(payload).value| <= |payload|;
    }
  }

  /** A stored state loads as bound exactly when it has a slot and a token, and the token is
      plain or decrypts; otherwise a stored slot survives only where there is no token to decrypt. */
  lemma LoadsAsBoundExactlyWhen(s: Snapshot, dec: Cipher, freshId: string)
    ensures var loaded := Loaded(Json(s), dec, freshId);
      && (loaded.IsBound() <==> s.IsBound() && (IsProtected(s.agentToken.value) ==> dec(s.agentToken.value[|DPAPI_PREFIX|..]).Some?))
      && (loaded.slotId == s.slotId || (loaded.slotId.None? && loaded.agentToken.None?))
  {
    if s.agentToken.Some? && IsProtected(s.agentToken.value) { ProtectedIsNotBlank(s.agentToken.value); }
  }

  // ----- Runs -----------------------------------------------------------------------------------

  datatype Event = Event(command: Command, env: Env)

  function Run(config: Config, dec: Cipher, events: seq<Event>): Config
    requires forall e :: e in events ==> e.env.random < 1_000_000
    decreases |events|
  {
    if events == [] then config
    else Run(Step(config, dec, events[0].command, events[0].env), dec, events[1..])
  }

  function Later(t: int, u: int): int {
    if t < u then u else t
  }

  /** The latest clock reading of a run; the system clock may be set back on the way. */
  function Latest(events: seq<Event>, clock: int): int {
    if events == [] then clock else Latest(events[1..], Later(clock, events[0].env.now))
  }

  /** The persisted state is consistent and no code outlives 15 minutes from the reading `clock`. */
  predicate Sane(config: Config, clock: int) {
    config.Json? ==>
      && config.state.Consistent()
      && (config.state.expiresAt.Some? && config.state.expiresAt.value.At? ==>
            config.state.expiresAt.value.instant <= clock + PAIRING_TTL)
  }

  lemma StepKeepsSane(config: Config, dec: Cipher, clock: int, c: Command, env: Env)
    requires Sane(config, clock) && env.random < 1_000_000
    ensures Sane(Step(config, dec, c, env), Later(clock, env.now))
  {
    hide FormatCode, Unprotect, Protect, Blank, IsValidCode;
  }

  /** Over every run, whatever fails on the way and however the clock is set, the persisted state
      stays consistent and no code outlives 15 minutes from the latest reading. */
  lemma {:induction false} ReachableIsSane(config: Config, dec: Cipher, clock: int, events: seq<Event>)
    requires Sane(config, clock)
    requires forall e :: e in events ==> e.env.random < 1_000_000
    ensures Sane(Run(config, dec, events), Latest(events, clock))
    decreases |events|
  {
    if events != [] {
      StepKeepsSane(config, dec, clock, events[0].command, events[0].env);
      ReachableIsSane(Step(config, dec, events[0].command, events[0].env), dec, Later(clock, events[0].env.now), events[1..]);
    }
  }

  /** In every persisted state reachable from a fresh install a slot implies a token and no
      pairing code, so a bound agent never holds a code. */
  lemma InstalledStaysConsistent(dec: Cipher, events: seq<Event>)
    requires forall e :: e in events ==> e.env.random < 1_000_000
    ensures var end := Run(Missing, dec, events);
      end.Json? && end.state.slotId.Some? ==>
        end.state.agentToken.Some? && end.state.pairingCode.None? && end.state.expiresAt.None?
  {
    hide Step, Run, Latest;
    ReachableIsSane(Missing, dec, 0, events);
  }

  predicate OffersCode(c: Command) {
    c.Startup? || c.Status? || c.Refresh? || c.Unbind?
  }

  /** `s` holds a six-digit code that has not expired at `now` and does so within 15 minutes of `clock`. */
  predicate HoldsLiveCode(s: Snapshot, now: int, clock: int) {
    s.ActivePairingCode(now).Some? && s.expiresAt.value.instant <= clock + PAIRING_TTL
  }

  /** After a status, refresh, unbind or start-up step, however the clock is set, the agent is bound
      without a code, or holds a live code that expires within 15 minutes of the latest reading; and
      unless saving failed, the file holds the same code. It expires within 15 minutes of this
      very step exactly when it is new, or the code found did so too: always, unless the clock
      was set back. */
  lemma UnboundAgentsHoldLiveCodes(config: Config, dec: Cipher, clock: int, c: Command, env: Env)
    requires Sane(config, clock) && env.random < 1_000_000 && OffersCode(c)
    ensures var before := Loaded(config, dec, env.freshId); var (s, save) := Outcome(c, before, env);
      var after := Step(config, dec, c, env);
      && (s.IsBound() ==> s.pairingCode.None? && !c.Unbind?)
      && (!s.IsBound() ==> HoldsLiveCode(s, env.now, Later(clock, env.now)))
      && (!s.IsBound() && (save ==> env.io.write.Written?) ==>
            && after.Json? && after.state.pairingCode == s.pairingCode
            && HoldsLiveCode(after.state, env.now, Later(clock, env.now)))
      && (!s.IsBound() ==>
            (HoldsLiveCode(s, env.now, env.now) <==> save || before.expiresAt.value.instant <= env.now + PAIRING_TTL))
      && (!s.IsBound() && clock <= env.now ==> HoldsLiveCode(s, env.now, env.now))
  {
    hide FormatCode, Unprotect, Protect, Blank, IsValidCode;
    CodeIsValid(env.random);
  }

  // ----- Bindings are stable -----------------------------------------------------------------------

  /** A BIND that is saved leaves an agent that loads as bound exactly when its token is plain or decrypts. */
  lemma BindIsLoaded(config: Config, dec: Cipher, slot: string, token: string, env: Env)
    requires slot != "" && token != "" && env.io.write.Written? && env.random < 1_000_000
    requires Encrypts(dec, token, env.io.enc)
    ensures var s := Loaded(Step(config, dec, Bind(Some((slot, token))), env), dec, env.freshId);
      && (s.IsBound() <==> Blank(token) || !IsProtected(token) || dec(token[|DPAPI_PREFIX|..]).Some?)
      && (TokenSurvives(token, dec) ==> s.slotId == Some(slot) && s.agentToken == Some(token))
  {
    var s := Loaded(config, dec, env.freshId);
    var bound := Snapshot(s.instanceId, Some(slot), Some(token), None, None);
    SaveThenLoad(config, bound, dec, env.io, env.freshId);
    if IsProtected(token) { ProtectedIsNotBlank(token); }
  }

  /** Status, refresh and start-up steps never touch the file of an agent that loads as bound. */
  lemma {:induction false} BindingIsStable(config: Config, dec: Cipher, events: seq<Event>)
    requires forall freshId :: Loaded(config, dec, freshId).IsBound()
    requires forall e :: e in events ==>
      e.env.random < 1_000_000 && (e.command.Startup? || e.command.Status? || e.command.Refresh?)
    ensures Run(config, dec, events) == config
    decreases |events|
  {
    if events != [] {
      assert events[0] in events;
      BindingIsStable(config, dec, events[1..]);
    }
  }

  // ----- What each command leaves behind -------------------------------------------------------------

  /** A refresh that is saved on an unbound agent replaces the code, live or not; an unbind that is
      saved leaves a new code too, and neither slot nor token. The instance id stays. */
  lemma RefreshAndUnbindRenew(config: Config, dec: Cipher, env: Env)
    requires env.random < 1_000_000 && env.io.write.Written?
    ensures var before := Loaded(config, dec, env.freshId);
      var renewed := Snapshot(before.instanceId, None, None, Some(FormatCode(env.random)), Some(At(env.now + 900_000_000_000)));
      && Step(config, dec, Unbind, env) == Json(renewed)
      && (if before.IsBound() then Step(config, dec, Refresh, env) == config
          else
            var after := Step(config, dec, Refresh, env);
            && after.Json? && after.state.pairingCode == renewed.pairingCode && after.state.expiresAt == renewed.expiresAt
            && after.state.instanceId == before.instanceId && after.state.slotId == before.slotId)
  {
    hide FormatCode, Unprotect, Protect, Blank;
  }

  /** Status and start-up leave a live code as it is, with its expiry, and write nothing; otherwise
      they renew it as a refresh does. */
  lemma LiveCodesAreKept(config: Config, dec: Cipher, env: Env)
    requires env.random < 1_000_000
    ensures var before := Loaded(config, dec, env.freshId);
      && Outcome(Status, before, env) == Outcome(Startup, before, env)
      && (before.IsBound() || before.ActivePairingCode(env.now).Some? ==>
            Outcome(Status, before, env) == (before, false) && Step(config, dec, Status, env) == config)
      && (!before.IsBound() && before.ActivePairingCode(env.now).None? ==>
            Outcome(Status, before, env) == Outcome(Refresh, before, env))
  {
    hide FormatCode, Unprotect, Protect, Blank, IsValidCode;
  }

  /** A bind without slot or token leaves the file alone. One that is saved keeps the instance id
      and no code, and a token that is provisioned changes nothing but the token; either token
      loads back if it survives. */
  lemma TokensAreStored(config: Config, dec: Cipher, slot: string, token: string, env: Env)
    requires env.random < 1_000_000 && env.io.write.Written? && Encrypts(dec, token, env.io.enc)
    ensures Step(config, dec, Bind(None), env) == config
    ensures slot == "" || token == "" ==> Step(config, dec, Bind(Some((slot, token))), env) == config
    ensures var before := Loaded(config, dec, env.freshId);
      TokenSurvives(token, dec) ==>
        && Loaded(Step(config, dec, Provision(token), env), dec, env.freshId) == before.(agentToken := Some(token))
        && (slot != "" && token != "" ==>
              Loaded(Step(config, dec, Bind(Some((slot, token))), env), dec, env.freshId)
              == Snapshot(before.instanceId, Some(slot), Some(token), None, None))
  {
    hide FormatCode, Loaded, TokenSurvives, Protect, Blank;
    var before := Loaded(config, dec, env.freshId);
    SaveThenLoad(config, before.(agentToken := Some(token)), dec, env.io, env.freshId);
    SaveThenLoad(config, Snapshot(before.instanceId, Some(slot), Some(token), None, None), dec, env.io, env.freshId);
  }

  /** Where no write succeeds no command changes what a later load finds, except that a write cut short
      leaves a fresh identity. */
  lemma UnsavedChangesNothing(config: Config, dec: Cipher, c: Command, env: Env)
    requires env.random < 1_000_000 && !env.io.write.Written?
    ensures Step(config, dec, c, env) == config || (env.io.write.Truncated? && Step(config, dec, c, env) == Corrupt)
    ensures Loaded(Corrupt, dec, env.freshId) == Snapshot(env.freshId, None, None, None, None)
  {
    hide FormatCode, Unprotect, Protect, Blank, IsValidCode;
  }

  /** A code is live while the clock reads less than its expiry, and its six digits are exactly the
      texts that can be drawn. */
  lemma LiveUntilExpiry(s: Snapshot, n: nat, now: int, expiry: int)
    requires n < 1_000_000 && s.pairingCode == Some(FormatCode(n)) && s.expiresAt == Some(At(expiry))
    ensures s.ActivePairingCode(now) == if now < expiry then Some(FormatCode(n)) else None
    ensures s.(expiresAt := None).ActivePairingCode(now) == s.(expiresAt := Some(Unparsable)).ActivePairingCode(now) == None
  {
    hide FormatCode, IsValidCode;
    CodeIsValid(n);
  }
}
