/** The transfer-hook program (programs/fs_allowlist/programs/fs_allowlist/src/lib.rs) as steps
    over keyed accounts. Each handler either fails and leaves every account as it was, or
    returns the new accounts. `log` remembers what happened, for the properties only. */
module Allowlist {
  import opened Wrappers
  import opened Sorting
  import Civil
  import AgeGate

  type Pubkey = nat
  type Word = nat

  const DEFAULT_KEY: Pubkey := 0
  const FS_AUTHORITY: Pubkey := 1
  const MAX_BLOCKED: nat := 64
  const MAX_ROOTS: nat := 8
  const I64_MAX: int := 0x7FFF_FFFF_FFFF_FFFF

  datatype Error =
    | Unauthorized | AlreadyInitialized | MissingAccount | TooMany | BadPolicy
    | BadProof | UnknownRoot | CountryBlocked | StaleProof | AgeBoundTooLax | InvalidProof | NullifierUsed
    | AttestationExpired | StillValid | NotTransferring | NotEligible

  datatype KycConfig =
    KycConfig(admin: Pubkey, eventId: Word, minAge: nat, ttlSecs: int, blocked: seq<nat>, roots: seq<Word>)

  datatype Attestation = Attestation(nullifier: Word, citizenship: nat, issuedAt: int, expiresAt: int)

  /** The public signals the program rebuilds; the fixed ones are left out. */
  datatype Signals = Signals(
    eventId: Word, wallet: Pubkey, nullifier: Word, citizenship: nat, root: Word,
    currentDate: nat, timestampUpper: nat, identityCounterUpper: nat, birthDateUpper: nat)

  /** The Groth16 verifier: any fixed relation between proofs and signals. */
  type Verifier = (Word, Signals) -> bool

  datatype Source = ByAdmin(admin: Pubkey) | ByAttestation(attestation: Attestation, blocked: seq<nat>, at: int)

  datatype Note =
    | AdminIs(mint: Pubkey, admin: Pubkey)
    | Activated(mint: Pubkey, wallet: Pubkey, source: Source)
    | Deactivated(mint: Pubkey, wallet: Pubkey)
    | Attested(holder: Pubkey, attestation: Attestation, policy: KycConfig, signals: Signals, proof: Word)
    | RootAccepted(root: Word)

  datatype State = State(
    configs: map<Pubkey, Pubkey>,
    entries: map<(Pubkey, Pubkey), bool>,
    kyc: Option<KycConfig>,
    policies: set<Pubkey>,
    attestations: map<Pubkey, Attestation>,
    nullifiers: map<Word, Pubkey>,
    log: seq<Note>)

  const EMPTY: State := State(map[], map[], None, {}, map[], map[], [])

  // ------------------------------------------------------------------ handlers

  function Initialize(s: State, authority: Pubkey, mint: Pubkey, admin: Pubkey): Result<State, Error> {
    if authority != FS_AUTHORITY then Err(Unauthorized)
    else if mint in s.configs then Err(AlreadyInitialized)
    else Ok(s.(configs := s.configs[mint := admin], log := s.log + [AdminIs(mint, admin)]))
  }

  function AddAllow(s: State, admin: Pubkey, mint: Pubkey, wallet: Pubkey): Result<State, Error> {
    if mint !in s.configs then Err(MissingAccount)
    else if s.configs[mint] != admin then Err(Unauthorized)
    else Ok(s.(entries := s.entries[(mint, wallet) := true], log := s.log + [Activated(mint, wallet, ByAdmin(admin))]))
  }

  function RemoveAllow(s: State, admin: Pubkey, mint: Pubkey, wallet: Pubkey): Result<State, Error> {
    if mint !in s.configs || (mint, wallet) !in s.entries then Err(MissingAccount)
    else if s.configs[mint] != admin then Err(Unauthorized)
    else Ok(s.(entries := s.entries[(mint, wallet) := false], log := s.log + [Deactivated(mint, wallet)]))
  }

  function SetAdmin(s: State, admin: Pubkey, mint: Pubkey, newAdmin: Pubkey): Result<State, Error> {
    if mint !in s.configs then Err(MissingAccount)
    else if s.configs[mint] != admin then Err(Unauthorized)
    else Ok(s.(configs := s.configs[mint := newAdmin], log := s.log + [AdminIs(mint, newAdmin)]))
  }

  function InitKycConfig(s: State, authority: Pubkey, admin: Pubkey, eventId: Word, minAge: nat, ttlSecs: int,
                         blocked: seq<nat>): Result<State, Error>
  {
    if authority != FS_AUTHORITY then Err(Unauthorized)
    else if s.kyc.Some? then Err(AlreadyInitialized)
    else if |blocked| > MAX_BLOCKED then Err(TooMany)
    else if ttlSecs <= 0 then Err(BadPolicy)
    else Ok(s.(kyc := Some(KycConfig(admin, eventId, minAge, ttlSecs, blocked, []))))
  }

  function SetKycPolicy(s: State, admin: Pubkey, minAge: nat, ttlSecs: int, blocked: seq<nat>): Result<State, Error> {
    if s.kyc.None? then Err(MissingAccount)
    else if s.kyc.value.admin != admin then Err(Unauthorized)
    else if |blocked| > MAX_BLOCKED then Err(TooMany)
    else if ttlSecs <= 0 then Err(BadPolicy)
    else Ok(s.(kyc := Some(s.kyc.value.(minAge := minAge, ttlSecs := ttlSecs, blocked := blocked))))
  }

  function PushKycRoot(s: State, admin: Pubkey, root: Word): Result<State, Error> {
    if s.kyc.None? then Err(MissingAccount)
    else if s.kyc.value.admin != admin then Err(Unauthorized)
    else
      var roots := s.kyc.value.roots;
      if root in roots then Ok(s)
      else
        var kept := if |roots| == MAX_ROOTS then roots[1..] else roots;
        Ok(s.(kyc := Some(s.kyc.value.(roots := kept + [root])), log := s.log + [RootAccepted(root)]))
  }

  function EnableKyc(s: State, admin: Pubkey, mint: Pubkey): Result<State, Error> {
    if mint !in s.configs then Err(MissingAccount)
    else if s.configs[mint] != admin then Err(Unauthorized)
    else Ok(s.(policies := s.policies + {mint}))
  }

  /** Who a nullifier record belongs to; a record just created holds the default key. */
  function RecordedWallet(s: State, nullifier: Word): Pubkey {
    if nullifier in s.nullifiers then s.nullifiers[nullifier] else DEFAULT_KEY
  }

  /** The clock may be off by a day either way. */
  ghost predicate DateMatches(now: int, currentDate: nat) {
    || AgeGate.DateCode(now, -1) == currentDate
    || AgeGate.DateCode(now, 0) == currentDate
    || AgeGate.DateCode(now, 1) == currentDate
  }

  /** The checks made before the pairing, in order. */
  ghost function PolicyError(c: KycConfig, now: int, sig: Signals): Option<Error> {
    if sig.nullifier == 0 then Some(BadProof)
    else if sig.root !in c.roots then Some(UnknownRoot)
    else if !(0xFF < sig.citizenship <= 0xFF_FFFF) then Some(BadProof)
    else if sig.citizenship in c.blocked then Some(CountryBlocked)
    else if !DateMatches(now, sig.currentDate) then Some(StaleProof)
    else if AgeGate.DecodeYymmdd(sig.birthDateUpper).None? then Some(BadProof)
    else if AgeGate.BoundOkOn(sig.birthDateUpper, sig.currentDate, Civil.DateAt(now), c.minAge) then None
    else Some(AgeBoundTooLax)
  }

  /** `submit_kyc_proof` by `sig.wallet`; the event id is the policy's, never the caller's. */
  ghost function SubmitKycProof(verify: Verifier, s: State, now: int, proof: Word, sig: Signals): Result<State, Error> {
    if s.kyc.None? then Err(MissingAccount)
    else
      var c := s.kyc.value;
      var public := sig.(eventId := c.eventId);
      var e := PolicyError(c, now, public);
      var bound := RecordedWallet(s, sig.nullifier);
      if e.Some? then Err(e.value)
      else if !verify(proof, public) then Err(InvalidProof)
      else if bound != DEFAULT_KEY && bound != sig.wallet then Err(NullifierUsed)
      else if now + c.ttlSecs > I64_MAX then Err(BadPolicy)
      else
        var a := Attestation(sig.nullifier, sig.citizenship, now, now + c.ttlSecs);
        Ok(s.(nullifiers := s.nullifiers[sig.nullifier := sig.wallet],
              attestations := s.attestations[sig.wallet := a],
              log := s.log + [Attested(sig.wallet, a, c, public, proof)]))
  }

  function AddAllowKyc(s: State, now: int, wallet: Pubkey, mint: Pubkey): Result<State, Error> {
    if s.kyc.None? || mint !in s.policies || wallet !in s.attestations then Err(MissingAccount)
    else
      var a := s.attestations[wallet];
      if a.expiresAt <= now then Err(AttestationExpired)
      else if a.citizenship in s.kyc.value.blocked then Err(CountryBlocked)
      else Ok(s.(entries := s.entries[(mint, wallet) := true],
                 log := s.log + [Activated(mint, wallet, ByAttestation(a, s.kyc.value.blocked, now))]))
  }

  function RevokeKycAllow(s: State, now: int, wallet: Pubkey, mint: Pubkey): Result<State, Error> {
    if s.kyc.None? || mint !in s.policies || wallet !in s.attestations || (mint, wallet) !in s.entries
    then Err(MissingAccount)
    else
      var a := s.attestations[wallet];
      if a.expiresAt > now && a.citizenship !in s.kyc.value.blocked then Err(StillValid)
      else Ok(s.(entries := s.entries[(mint, wallet) := false], log := s.log + [Deactivated(mint, wallet)]))
  }

  /** `execute`: reads only. */
  function Execute(s: State, transferring: bool, mint: Pubkey, destination: Pubkey): Result<(), Error> {
    if !transferring then Err(NotTransferring)
    else if (mint, destination) !in s.entries || !s.entries[(mint, destination)] then Err(NotEligible)
    else Ok(())
  }

  // ------------------------------------------------------------------ runs

  datatype Instruction =
    | DoInitialize(authority: Pubkey, mint: Pubkey, admin: Pubkey)
    | DoAddAllow(admin: Pubkey, mint: Pubkey, wallet: Pubkey)
    | DoRemoveAllow(admin: Pubkey, mint: Pubkey, wallet: Pubkey)
    | DoSetAdmin(admin: Pubkey, mint: Pubkey, newAdmin: Pubkey)
    | DoInitKyc(authority: Pubkey, admin: Pubkey, eventId: Word, minAge: nat, ttlSecs: int, blocked: seq<nat>)
    | DoSetPolicy(admin: Pubkey, minAge: nat, ttlSecs: int, blocked: seq<nat>)
    | DoPushRoot(admin: Pubkey, root: Word)
    | DoEnableKyc(admin: Pubkey, mint: Pubkey)
    | DoSubmit(now: int, proof: Word, signals: Signals)
    | DoAddAllowKyc(now: int, wallet: Pubkey, mint: Pubkey)
    | DoRevoke(now: int, wallet: Pubkey, mint: Pubkey)

  ghost function Handle(verify: Verifier, s: State, ix: Instruction): Result<State, Error> {
    match ix
    case DoInitialize(authority, mint, admin) => Initialize(s, authority, mint, admin)
    case DoAddAllow(admin, mint, wallet) => AddAllow(s, admin, mint, wallet)
    case DoRemoveAllow(admin, mint, wallet) => RemoveAllow(s, admin, mint, wallet)
    case DoSetAdmin(admin, mint, newAdmin) => SetAdmin(s, admin, mint, newAdmin)
    case DoInitKyc(authority, admin, eventId, minAge, ttl, blocked) =>
      InitKycConfig(s, authority, admin, eventId, minAge, ttl, blocked)
    case DoSetPolicy(admin, minAge, ttl, blocked) => SetKycPolicy(s, admin, minAge, ttl, blocked)
    case DoPushRoot(admin, root) => PushKycRoot(s, admin, root)
    case DoEnableKyc(admin, mint) => EnableKyc(s, admin, mint)
    case DoSubmit(now, proof, sig) => SubmitKycProof(verify, s, now, proof, sig)
    case DoAddAllowKyc(now, wallet, mint) => AddAllowKyc(s, now, wallet, mint)
    case DoRevoke(now, wallet, mint) => RevokeKycAllow(s, now, wallet, mint)
  }

  /** A failing instruction is rolled back. */
  ghost function Step(verify: Verifier, s: State, ix: Instruction): State {
    match Handle(verify, s, ix)
    case Ok(s') => s'
    case Err(_) => s
  }

  ghost function Run(verify: Verifier, ixs: seq<Instruction>): State {
    if ixs == [] then EMPTY else Step(verify, Run(verify, ixs[..|ixs| - 1]), ixs[|ixs| - 1])
  }

  /** No key pair owns the default key, so it signs nothing. */
  predicate Signable(ix: Instruction) {
    ix.DoSubmit? ==> ix.signals.wallet != DEFAULT_KEY
  }

  // ------------------------------------------------------------------ what every run keeps

  /** The newest note about a wallet's entry for a mint. */
  function LastNote(log: seq<Note>, mint: Pubkey, wallet: Pubkey): Option<Note> {
    if log == [] then None
    else
      var n := log[|log| - 1];
      if (n.Activated? || n.Deactivated?) && n.mint == mint && n.wallet == wallet then Some(n)
      else LastNote(log[..|log| - 1], mint, wallet)
  }

  /** The admin of a mint as of the end of the log. */
  function CurrentAdmin(log: seq<Note>, mint: Pubkey): Option<Pubkey> {
    if log == [] then None
    else if log[|log| - 1].AdminIs? && log[|log| - 1].mint == mint then Some(log[|log| - 1].admin)
    else CurrentAdmin(log[..|log| - 1], mint)
  }

  function AcceptedRoots(log: seq<Note>): seq<Word> {
    if log == [] then []
    else AcceptedRoots(log[..|log| - 1]) + if log[|log| - 1].RootAccepted? then [log[|log| - 1].root] else []
  }

  function Newest(roots: seq<Word>): seq<Word> {
    if |roots| <= MAX_ROOTS then roots else roots[|roots| - MAX_ROOTS..]
  }

  /** The attestation passed every check of the policy it was issued under. */
  ghost predicate Earned(verify: Verifier, n: Note)
    requires n.Attested?
  {
    var c, a, sig := n.policy, n.attestation, n.signals;
    && sig.wallet == n.holder && sig.nullifier == a.nullifier
    && sig.citizenship == a.citizenship && sig.eventId == c.eventId
    && PolicyError(c, a.issuedAt, sig) == None && verify(n.proof, sig)
    && a.expiresAt == a.issuedAt + c.ttlSecs
  }

  /** The note in which the wallet earned that attestation. */
  ghost predicate EarnedAs(verify: Verifier, n: Note, a: Attestation, wallet: Pubkey) {
    n.Attested? && n.holder == wallet && n.attestation == a && Earned(verify, n)
  }

  /** An attestation earned by the wallet earlier in the log. */
  ghost predicate HeldBy(verify: Verifier, log: seq<Note>, a: Attestation, wallet: Pubkey) {
    exists i :: 0 <= i < |log| && EarnedAs(verify, log[i], a, wallet)
  }

  /** After `log`, an activation by the mint's admin of that moment, or by a then-valid
      attestation of a citizen not blocked. */
  ghost predicate Justified(verify: Verifier, log: seq<Note>, n: Note)
    requires n.Activated?
  {
    match n.source
    case ByAdmin(admin) => CurrentAdmin(log, n.mint) == Some(admin)
    case ByAttestation(a, blocked, at) =>
      a.expiresAt > at && a.citizenship !in blocked && HeldBy(verify, log, a, n.wallet)
  }

  ghost predicate EntriesFollowLog(s: State) {
    forall m: Pubkey, w: Pubkey :: ((m, w) in s.entries && s.entries[(m, w)]) <==>
      (LastNote(s.log, m, w).Some? && LastNote(s.log, m, w).value.Activated?)
  }

  ghost predicate LogJustified(verify: Verifier, s: State) {
    forall i :: 0 <= i < |s.log| && s.log[i].Activated? ==> Justified(verify, s.log[..i], s.log[i])
  }

  ghost predicate AdminsFollowLog(s: State) {
    forall m: Pubkey :: CurrentAdmin(s.log, m) == if m in s.configs then Some(s.configs[m]) else None
  }

  ghost predicate AttestationsHeld(verify: Verifier, s: State) {
    forall w :: w in s.attestations ==> HeldBy(verify, s.log, s.attestations[w], w)
  }

  ghost predicate NullifiersBind(s: State) {
    && (forall w :: w in s.attestations ==>
          s.attestations[w].nullifier in s.nullifiers && s.nullifiers[s.attestations[w].nullifier] == w)
    && (forall n :: n in s.nullifiers ==> s.nullifiers[n] != DEFAULT_KEY)
  }

  ghost predicate RootsOk(s: State) {
    && (s.kyc.None? ==> AcceptedRoots(s.log) == [])
    && (s.kyc.Some? ==> NoDup(s.kyc.value.roots) && s.kyc.value.roots == Newest(AcceptedRoots(s.log)))
  }

  ghost predicate Inv(verify: Verifier, s: State) {
    && EntriesFollowLog(s) && AdminsFollowLog(s) && LogJustified(verify, s)
    && AttestationsHeld(verify, s) && NullifiersBind(s) && RootsOk(s)
  }

  lemma LogAppend(log: seq<Note>, n: Note, mint: Pubkey, wallet: Pubkey)
    ensures LastNote(log + [n], mint, wallet) ==
      if (n.Activated? || n.Deactivated?) && n.mint == mint && n.wallet == wallet then Some(n)
      else LastNote(log, mint, wallet)
    ensures CurrentAdmin(log + [n], mint) ==
      if n.AdminIs? && n.mint == mint then Some(n.admin) else CurrentAdmin(log, mint)
    ensures AcceptedRoots(log + [n]) == AcceptedRoots(log) + if n.RootAccepted? then [n.root] else []
  {
    assert (log + [n])[..|log|] == log;
  }

  lemma HeldStays(verify: Verifier, log: seq<Note>, n: Note, a: Attestation, wallet: Pubkey)
    requires HeldBy(verify, log, a, wallet)
    ensures HeldBy(verify, log + [n], a, wallet)
  {
    var i :| 0 <= i < |log| && EarnedAs(verify, log[i], a, wallet);
    assert (log + [n])[i] == log[i];
  }

  /** Appending a justified note keeps the log justified and every attestation held. */
  lemma LogGrows(verify: Verifier, s: State, n: Note)
    requires LogJustified(verify, s) && AttestationsHeld(verify, s)
    requires n.Activated? ==> Justified(verify, s.log, n)
    ensures LogJustified(verify, s.(log := s.log + [n])) && AttestationsHeld(verify, s.(log := s.log + [n]))
  {
    var log := s.log + [n];
    forall i | 0 <= i < |log| && log[i].Activated? ensures Justified(verify, log[..i], log[i]) {
      assert log[..i] == s.log[..i];
      if i == |s.log| { assert log[..i] == s.log; }
    }
    forall w | w in s.attestations ensures HeldBy(verify, log, s.attestations[w], w) {
      HeldStays(verify, s.log, n, s.attestations[w], w);
    }
  }

  /** Setting one entry and noting it keeps entries and log in step. */
  lemma EntryChangeKeeps(verify: Verifier, s: State, n: Note)
    requires Inv(verify, s) && (n.Activated? || n.Deactivated?)
    requires n.Activated? ==> Justified(verify, s.log, n)
    ensures Inv(verify, s.(entries := s.entries[(n.mint, n.wallet) := n.Activated?], log := s.log + [n]))
  {
    hide CurrentAdmin, LastNote, AcceptedRoots, Justified, Earned, HeldBy;
    LogGrows(verify, s, n);
    forall m: Pubkey, w: Pubkey { LogAppend(s.log, n, m, w); }
    LogAppend(s.log, n, 0, 0);
    forall m: Pubkey { LogAppend(s.log, n, m, 0); }
  }

  lemma AdminChangeKeeps(verify: Verifier, s: State, mint: Pubkey, admin: Pubkey)
    requires Inv(verify, s)
    ensures Inv(verify, s.(configs := s.configs[mint := admin], log := s.log + [AdminIs(mint, admin)]))
  {
    var n := AdminIs(mint, admin);
    LogGrows(verify, s, n);
    forall m: Pubkey, w: Pubkey { LogAppend(s.log, n, m, w); }
    forall m: Pubkey { LogAppend(s.log, n, m, 0); }
    LogAppend(s.log, n, 0, 0);
  }

  /** Notes about neither entries nor admins leave both in step with the log. */
  lemma OtherNote(s: State, n: Note)
    requires EntriesFollowLog(s) && AdminsFollowLog(s) && (n.Attested? || n.RootAccepted?)
    ensures EntriesFollowLog(s.(log := s.log + [n])) && AdminsFollowLog(s.(log := s.log + [n]))
  {
    forall m: Pubkey, w: Pubkey { LogAppend(s.log, n, m, w); }
    forall m: Pubkey { LogAppend(s.log, n, m, 0); }
  }

  lemma PushKeeps(verify: Verifier, s: State, admin: Pubkey, root: Word)
    requires Inv(verify, s) && PushKycRoot(s, admin, root).Ok?
    ensures Inv(verify, PushKycRoot(s, admin, root).value)
  {
    hide LastNote, CurrentAdmin, AcceptedRoots, Justified, Earned;
    var s' := PushKycRoot(s, admin, root).value;
    if s' != s {
      var n := RootAccepted(root);
      LogGrows(verify, s, n);
      OtherNote(s, n);
      LogAppend(s.log, n, 0, 0);
      var all := AcceptedRoots(s.log);
      assert s'.kyc.value.roots == Newest(all + [root]);
    }
  }

  lemma SubmitKeeps(verify: Verifier, s: State, now: int, proof: Word, sig: Signals)
    requires Inv(verify, s) && sig.wallet != DEFAULT_KEY
    requires SubmitKycProof(verify, s, now, proof, sig).Ok?
    ensures Inv(verify, SubmitKycProof(verify, s, now, proof, sig).value)
  {
    hide SubmitKycProof, Earned, LogJustified, AttestationsHeld, EntriesFollowLog, AdminsFollowLog, NullifiersBind;
    hide RootsOk;
    SubmitNote(verify, s, now, proof, sig);
    var c := s.kyc.value;
    var a := Attestation(sig.nullifier, sig.citizenship, now, now + c.ttlSecs);
    var n := Attested(sig.wallet, a, c, sig.(eventId := c.eventId), proof);
    LogGrows(verify, s, n);
    OtherNote(s, n);
    RootsStay(s, n);
    var s' := SubmitKycProof(verify, s, now, proof, sig).value;
    NewAttestation(verify, s, n, s');
    NullifierBound(s, sig.wallet, a, s');
    SameTables(verify, s.(log := s.log + [n]), s');
  }

  lemma RootsStay(s: State, n: Note)
    requires RootsOk(s) && !n.RootAccepted?
    ensures RootsOk(s.(log := s.log + [n]))
  {
    LogAppend(s.log, n, 0, 0);
  }

  /** What the attestations and nullifiers have no part in. */
  lemma SameTables(verify: Verifier, s: State, s': State)
    requires s'.log == s.log && s'.entries == s.entries && s'.configs == s.configs && s'.kyc == s.kyc
    requires EntriesFollowLog(s) && AdminsFollowLog(s) && LogJustified(verify, s) && RootsOk(s)
    ensures EntriesFollowLog(s') && AdminsFollowLog(s') && LogJustified(verify, s') && RootsOk(s')
  {
    hide Justified, LastNote, CurrentAdmin, AcceptedRoots;
  }

  lemma SubmitNote(verify: Verifier, s: State, now: int, proof: Word, sig: Signals)
    requires SubmitKycProof(verify, s, now, proof, sig).Ok?
    ensures s.kyc.Some?
    ensures var c := s.kyc.value;
      var a := Attestation(sig.nullifier, sig.citizenship, now, now + c.ttlSecs);
      var n := Attested(sig.wallet, a, c, sig.(eventId := c.eventId), proof);
      && Earned(verify, n)
      && (RecordedWallet(s, a.nullifier) == DEFAULT_KEY || RecordedWallet(s, a.nullifier) == sig.wallet)
      && SubmitKycProof(verify, s, now, proof, sig).value ==
           s.(nullifiers := s.nullifiers[sig.nullifier := sig.wallet],
              attestations := s.attestations[sig.wallet := a], log := s.log + [n])
  {
    hide PolicyError;
  }

  /** A noted attestation is held by its wallet. */
  lemma NewAttestation(verify: Verifier, s: State, n: Note, s': State)
    requires n.Attested? && Earned(verify, n) && AttestationsHeld(verify, s.(log := s.log + [n]))
    requires s'.log == s.log + [n] && s'.attestations == s.attestations[n.holder := n.attestation]
    ensures AttestationsHeld(verify, s')
  {
    hide Earned;
    assert (s.log + [n])[|s.log|] == n;
    assert HeldBy(verify, s.log + [n], n.attestation, n.holder);
  }

  /** Binding a free nullifier, or one already the wallet's, keeps the binding one to one. */
  lemma NullifierBound(s: State, wallet: Pubkey, a: Attestation, s': State)
    requires NullifiersBind(s) && wallet != DEFAULT_KEY
    requires var bound := RecordedWallet(s, a.nullifier); bound == DEFAULT_KEY || bound == wallet
    requires s'.nullifiers == s.nullifiers[a.nullifier := wallet] && s'.attestations == s.attestations[wallet := a]
    ensures NullifiersBind(s')
  {
  }

  /** Instructions that only touch the policy. */
  lemma PolicyKeeps(verify: Verifier, s: State, ix: Instruction)
    requires Inv(verify, s) && (ix.DoInitKyc? || ix.DoSetPolicy? || ix.DoEnableKyc?)
    ensures Inv(verify, Step(verify, s, ix))
  {
    hide LastNote, CurrentAdmin, AcceptedRoots, Justified, Earned;
  }

  lemma ActivationKeeps(verify: Verifier, s: State, ix: Instruction)
    requires Inv(verify, s) && (ix.DoAddAllow? || ix.DoAddAllowKyc?)
    ensures Inv(verify, Step(verify, s, ix))
  {
    hide LastNote, CurrentAdmin, AcceptedRoots, Earned, LogJustified, EntriesFollowLog, RootsOk;
    if Handle(verify, s, ix).Ok? {
      var source := if ix.DoAddAllow? then ByAdmin(ix.admin)
                    else ByAttestation(s.attestations[ix.wallet], s.kyc.value.blocked, ix.now);
      EntryChangeKeeps(verify, s, Activated(ix.mint, ix.wallet, source));
    }
  }

  lemma DeactivationKeeps(verify: Verifier, s: State, ix: Instruction)
    requires Inv(verify, s) && (ix.DoRemoveAllow? || ix.DoRevoke?)
    ensures Inv(verify, Step(verify, s, ix))
  {
    if Handle(verify, s, ix).Ok? { EntryChangeKeeps(verify, s, Deactivated(ix.mint, ix.wallet)); }
  }

  lemma AdministrationKeeps(verify: Verifier, s: State, ix: Instruction)
    requires Inv(verify, s) && (ix.DoInitialize? || ix.DoSetAdmin?)
    ensures Inv(verify, Step(verify, s, ix))
  {
    if Handle(verify, s, ix).Ok? {
      AdminChangeKeeps(verify, s, ix.mint, if ix.DoInitialize? then ix.admin else ix.newAdmin);
    }
  }

  lemma StepKeepsInv(verify: Verifier, s: State, ix: Instruction)
    requires Inv(verify, s) && Signable(ix)
    ensures Inv(verify, Step(verify, s, ix))
  {
    if ix.DoAddAllow? || ix.DoAddAllowKyc? {
      ActivationKeeps(verify, s, ix);
    } else if ix.DoRemoveAllow? || ix.DoRevoke? {
      DeactivationKeeps(verify, s, ix);
    } else if ix.DoInitialize? || ix.DoSetAdmin? {
      AdministrationKeeps(verify, s, ix);
    } else if ix.DoPushRoot? {
      if PushKycRoot(s, ix.admin, ix.root).Ok? { PushKeeps(verify, s, ix.admin, ix.root); }
    } else if ix.DoSubmit? {
      if SubmitKycProof(verify, s, ix.now, ix.proof, ix.signals).Ok? {
        SubmitKeeps(verify, s, ix.now, ix.proof, ix.signals);
      }
    } else {
      PolicyKeeps(verify, s, ix);
    }
  }

  lemma {:induction false} RunKeepsInv(verify: Verifier, ixs: seq<Instruction>)
    requires forall i :: 0 <= i < |ixs| ==> Signable(ixs[i])
    ensures Inv(verify, Run(verify, ixs))
  {
    if ixs != [] {
      RunKeepsInv(verify, ixs[..|ixs| - 1]);
      StepKeepsInv(verify, Run(verify, ixs[..|ixs| - 1]), ixs[|ixs| - 1]);
    }
  }

  // ------------------------------------------------------------------ who may change what

  predicate Active(s: State, mint: Pubkey, wallet: Pubkey) {
    (mint, wallet) in s.entries && s.entries[(mint, wallet)]
  }

  predicate Rules(s: State, mint: Pubkey, admin: Pubkey) {
    mint in s.configs && s.configs[mint] == admin
  }

  predicate Expired(s: State, wallet: Pubkey, now: int)
    requires wallet in s.attestations
  {
    s.attestations[wallet].expiresAt <= now
  }

  predicate Blocked(s: State, wallet: Pubkey)
    requires wallet in s.attestations && s.kyc.Some?
  {
    s.attestations[wallet].citizenship in s.kyc.value.blocked
  }

  predicate PolicyInBounds(ttlSecs: int, blocked: seq<nat>) {
    ttlSecs > 0 && |blocked| <= MAX_BLOCKED
  }

  /** Who has to sign an instruction and what the accounts have to say for it to be accepted. */
  ghost predicate MayRun(verify: Verifier, s: State, ix: Instruction) {
    match ix
    case DoInitialize(authority, mint, _) => authority == FS_AUTHORITY && mint !in s.configs
    case DoAddAllow(admin, mint, _) => Rules(s, mint, admin)
    case DoRemoveAllow(admin, mint, wallet) => Rules(s, mint, admin) && (mint, wallet) in s.entries
    case DoSetAdmin(admin, mint, _) => Rules(s, mint, admin)
    case DoInitKyc(authority, _, _, _, ttlSecs, blocked) =>
      authority == FS_AUTHORITY && s.kyc.None? && PolicyInBounds(ttlSecs, blocked)
    case DoSetPolicy(admin, _, ttlSecs, blocked) =>
      s.kyc.Some? && s.kyc.value.admin == admin && PolicyInBounds(ttlSecs, blocked)
    case DoPushRoot(admin, _) => s.kyc.Some? && s.kyc.value.admin == admin
    case DoEnableKyc(admin, mint) => Rules(s, mint, admin)
    case DoSubmit(now, proof, sig) =>
      && s.kyc.Some?
      && var c := s.kyc.value;
         && PolicyError(c, now, sig.(eventId := c.eventId)) == None && verify(proof, sig.(eventId := c.eventId))
         && (sig.nullifier in s.nullifiers ==> s.nullifiers[sig.nullifier] in {DEFAULT_KEY, sig.wallet})
         && now + c.ttlSecs <= I64_MAX
    case DoAddAllowKyc(now, wallet, mint) =>
      && s.kyc.Some? && mint in s.policies && wallet in s.attestations
      && !Expired(s, wallet, now) && !Blocked(s, wallet)
    case DoRevoke(now, wallet, mint) =>
      && s.kyc.Some? && mint in s.policies && wallet in s.attestations && (mint, wallet) in s.entries
      && (Expired(s, wallet, now) || Blocked(s, wallet))
  }

  /** An instruction is accepted exactly then; and then it has its effect. */
  lemma AcceptedIff(verify: Verifier, s: State, ix: Instruction)
    ensures Handle(verify, s, ix).Ok? <==> MayRun(verify, s, ix)
    ensures MayRun(verify, s, ix) ==> var s' := Step(verify, s, ix);
      match ix
      case DoInitialize(_, mint, admin) => Rules(s', mint, admin)
      case DoAddAllow(_, mint, wallet) => Active(s', mint, wallet)
      case DoRemoveAllow(_, mint, wallet) => !Active(s', mint, wallet)
      case DoSetAdmin(_, mint, newAdmin) => Rules(s', mint, newAdmin)
      case DoInitKyc(_, admin, eventId, minAge, ttlSecs, blocked) =>
        s'.kyc == Some(KycConfig(admin, eventId, minAge, ttlSecs, blocked, []))
      case DoSetPolicy(admin, minAge, ttlSecs, blocked) =>
        s'.kyc == Some(KycConfig(admin, s.kyc.value.eventId, minAge, ttlSecs, blocked, s.kyc.value.roots))
      case DoPushRoot(_, root) => s'.kyc.Some? && root in s'.kyc.value.roots
      case DoEnableKyc(_, mint) => mint in s'.policies
      case DoSubmit(now, _, sig) =>
        && sig.nullifier in s'.nullifiers && s'.nullifiers[sig.nullifier] == sig.wallet
        && sig.wallet in s'.attestations
        && s'.attestations[sig.wallet] == Attestation(sig.nullifier, sig.citizenship, now, now + s.kyc.value.ttlSecs)
      case DoAddAllowKyc(_, wallet, mint) => Active(s', mint, wallet)
      case DoRevoke(_, wallet, mint) => !Active(s', mint, wallet)
  {
    hide PolicyError;
  }

  /** The mint's admin, the policy's or the authority would have had to sign, and has not. */
  predicate WrongSigner(s: State, ix: Instruction) {
    match ix
    case DoInitialize(authority, _, _) => authority != FS_AUTHORITY
    case DoInitKyc(authority, _, _, _, _, _) => authority != FS_AUTHORITY
    case DoAddAllow(admin, mint, _) => mint in s.configs && s.configs[mint] != admin
    case DoRemoveAllow(admin, mint, _) => mint in s.configs && s.configs[mint] != admin
    case DoSetAdmin(admin, mint, _) => mint in s.configs && s.configs[mint] != admin
    case DoEnableKyc(admin, mint) => mint in s.configs && s.configs[mint] != admin
    case DoSetPolicy(admin, _, _, _) => s.kyc.Some? && s.kyc.value.admin != admin
    case DoPushRoot(admin, _) => s.kyc.Some? && s.kyc.value.admin != admin
    case _ => false
  }

  /** An account the instruction names does not exist. */
  predicate AccountMissing(s: State, ix: Instruction) {
    match ix
    case DoAddAllow(_, mint, _) => mint !in s.configs
    case DoRemoveAllow(_, mint, wallet) => mint !in s.configs || (mint, wallet) !in s.entries
    case DoSetAdmin(_, mint, _) => mint !in s.configs
    case DoEnableKyc(_, mint) => mint !in s.configs
    case DoSetPolicy(_, _, _, _) => s.kyc.None?
    case DoPushRoot(_, _) => s.kyc.None?
    case DoSubmit(_, _, _) => s.kyc.None?
    case DoAddAllowKyc(_, wallet, mint) => s.kyc.None? || mint !in s.policies || wallet !in s.attestations
    case DoRevoke(_, wallet, mint) =>
      s.kyc.None? || mint !in s.policies || wallet !in s.attestations || (mint, wallet) !in s.entries
    case _ => false
  }

  /** What is wrong with a proof, error by error. */
  ghost predicate ProofRefused(verify: Verifier, s: State, now: int, proof: Word, sig: Signals, e: Error) {
    && s.kyc.Some?
    && var c := s.kyc.value;
       match e
       case BadProof =>
         || sig.nullifier == 0 || !(0xFF < sig.citizenship <= 0xFF_FFFF)
         || AgeGate.DecodeYymmdd(sig.birthDateUpper).None?
       case UnknownRoot => sig.root !in c.roots
       case CountryBlocked => sig.citizenship in c.blocked
       case StaleProof => !DatedWithinADay(now, sig.currentDate)
       case AgeBoundTooLax => !BoundProvesAge(sig.birthDateUpper, sig.currentDate, now, c.minAge)
       case InvalidProof => !verify(proof, sig.(eventId := c.eventId))
       case NullifierUsed => sig.nullifier in s.nullifiers && s.nullifiers[sig.nullifier] !in {DEFAULT_KEY, sig.wallet}
       case BadPolicy => now + c.ttlSecs > I64_MAX
       case _ => false
  }

  /** What an error says of the accounts and the instruction. */
  ghost predicate Deserved(verify: Verifier, s: State, ix: Instruction, e: Error) {
    match e
    case Unauthorized => WrongSigner(s, ix)
    case MissingAccount => AccountMissing(s, ix)
    case AlreadyInitialized => (ix.DoInitialize? && ix.mint in s.configs) || (ix.DoInitKyc? && s.kyc.Some?)
    case TooMany => (ix.DoInitKyc? || ix.DoSetPolicy?) && |ix.blocked| > MAX_BLOCKED
    case AttestationExpired => ix.DoAddAllowKyc? && !AccountMissing(s, ix) && Expired(s, ix.wallet, ix.now)
    case StillValid =>
      ix.DoRevoke? && !AccountMissing(s, ix) && !Expired(s, ix.wallet, ix.now) && !Blocked(s, ix.wallet)
    case BadPolicy =>
      || ((ix.DoInitKyc? || ix.DoSetPolicy?) && ix.ttlSecs <= 0)
      || (ix.DoSubmit? && ProofRefused(verify, s, ix.now, ix.proof, ix.signals, e))
    case CountryBlocked =>
      || (ix.DoAddAllowKyc? && !AccountMissing(s, ix) && Blocked(s, ix.wallet))
      || (ix.DoSubmit? && ProofRefused(verify, s, ix.now, ix.proof, ix.signals, e))
    case _ => ix.DoSubmit? && ProofRefused(verify, s, ix.now, ix.proof, ix.signals, e)
  }

  /** Every error tells the truth. */
  lemma RefusedBecause(verify: Verifier, s: State, ix: Instruction)
    requires Handle(verify, s, ix).Err?
    ensures Deserved(verify, s, ix, Handle(verify, s, ix).error)
  {
    hide PolicyError, ProofRefused, SubmitKycProof;
    if ix.DoSubmit? {
      if s.kyc.None? { NoPolicy(verify, s, ix.now, ix.proof, ix.signals); }
      else { SubmissionRefused(verify, s, ix.now, ix.proof, ix.signals); }
    }
  }

  lemma NoPolicy(verify: Verifier, s: State, now: int, proof: Word, sig: Signals)
    requires s.kyc.None?
    ensures SubmitKycProof(verify, s, now, proof, sig) == Err(MissingAccount)
  {
  }

  lemma SubmissionRefused(verify: Verifier, s: State, now: int, proof: Word, sig: Signals)
    requires SubmitKycProof(verify, s, now, proof, sig).Err? && s.kyc.Some?
    ensures ProofRefused(verify, s, now, proof, sig, SubmitKycProof(verify, s, now, proof, sig).error)
    ensures SubmitKycProof(verify, s, now, proof, sig).error in
      {BadProof, UnknownRoot, CountryBlocked, StaleProof, AgeBoundTooLax, InvalidProof, NullifierUsed, BadPolicy}
  {
    hide DateMatches, DatedWithinADay, AgeGate.BoundOkOn, AgeGate.DecodeYymmdd, AgeGate.OlderThan, Civil.DateAt;
    var c := s.kyc.value;
    AgeGate.AgeGateExact(sig.birthDateUpper, sig.currentDate, Civil.DateAt(now), c.minAge);
    DateMatchesIff(now, sig.currentDate);
  }

  /** Nothing else changes: a mint's admin only by the authority while it has none, or by the admin it
      has; an entry only by that admin, or on the wallet's attestation; the policy only by its admin; a
      wallet's attestation only by its own accepted proof. */
  lemma OnlyTheEntitled(verify: Verifier, s: State, ix: Instruction)
    ensures var s' := Step(verify, s, ix);
      && (forall m :: m in s.configs ==>
            m in s'.configs && (s'.configs[m] == s.configs[m] || ix == DoSetAdmin(s.configs[m], m, s'.configs[m])))
      && (forall m :: m in s'.configs && m !in s.configs ==> ix == DoInitialize(FS_AUTHORITY, m, s'.configs[m]))
      && (forall m, w :: Active(s', m, w) && !Active(s, m, w) ==>
            || (m in s.configs && ix == DoAddAllow(s.configs[m], m, w))
            || (ix.DoAddAllowKyc? && ix == DoAddAllowKyc(ix.now, w, m) && MayRun(verify, s, ix)))
      && (forall m, w :: Active(s, m, w) && !Active(s', m, w) ==>
            || (m in s.configs && ix == DoRemoveAllow(s.configs[m], m, w))
            || (ix.DoRevoke? && ix == DoRevoke(ix.now, w, m) && MayRun(verify, s, ix)))
      && (s'.kyc != s.kyc ==>
            if s.kyc.None? then ix.DoInitKyc? && ix.authority == FS_AUTHORITY
            else
              && s'.kyc.Some? && s'.kyc.value.admin == s.kyc.value.admin && s'.kyc.value.eventId == s.kyc.value.eventId
              && ((ix.DoSetPolicy? && ix.admin == s.kyc.value.admin && s'.kyc.value.roots == s.kyc.value.roots)
                  || (ix.DoPushRoot? && ix.admin == s.kyc.value.admin
                      && s'.kyc.value == s.kyc.value.(roots := s'.kyc.value.roots))))
      && (forall m :: m in s'.policies && m !in s.policies ==> m in s.configs && ix == DoEnableKyc(s.configs[m], m))
      && s.policies <= s'.policies
      && (forall w :: w in s'.attestations && (w !in s.attestations || s'.attestations[w] != s.attestations[w]) ==>
            ix.DoSubmit? && ix.signals.wallet == w && MayRun(verify, s, ix))
      && (forall w :: w in s.attestations ==> w in s'.attestations)
  {
    hide PolicyError;
  }

  /** So over every run a mint stays with its admin until that admin hands it over. */
  lemma {:induction false} AdminStays(verify: Verifier, ixs: seq<Instruction>, i: nat, mint: Pubkey, admin: Pubkey)
    requires i <= |ixs| && Rules(Run(verify, ixs[..i]), mint, admin)
    requires forall k :: i <= k < |ixs| ==> !(ixs[k].DoSetAdmin? && ixs[k].admin == admin && ixs[k].mint == mint)
    ensures Rules(Run(verify, ixs), mint, admin)
  {
    hide Step;
    if i == |ixs| {
      assert ixs[..i] == ixs;
    } else {
      var init := ixs[..|ixs| - 1];
      assert init[..i] == ixs[..i];
      AdminStays(verify, init, i, mint, admin);
      OnlyTheEntitled(verify, Run(verify, init), ixs[|ixs| - 1]);
    }
  }

  /** And a wallet stays allowed until the mint's admin of the moment removes it, or its attestation
      has expired or is blocked. */
  lemma {:induction false} ActiveStays(verify: Verifier, ixs: seq<Instruction>, i: nat, mint: Pubkey, wallet: Pubkey)
    requires i <= |ixs| && Active(Run(verify, ixs[..i]), mint, wallet)
    requires forall k :: i <= k < |ixs| ==>
      !((ixs[k].DoRemoveAllow? || ixs[k].DoRevoke?) && ixs[k].mint == mint && ixs[k].wallet == wallet
        && MayRun(verify, Run(verify, ixs[..k]), ixs[k]))
    ensures Active(Run(verify, ixs), mint, wallet)
  {
    hide Step, MayRun;
    if i == |ixs| {
      assert ixs[..i] == ixs;
    } else {
      var n := |ixs| - 1;
      var init := ixs[..n];
      assert init[..i] == ixs[..i];
      forall k | i <= k < n ensures init[k] == ixs[k] && init[..k] == ixs[..k] {
      }
      ActiveStays(verify, init, i, mint, wallet);
      OnlyTheEntitled(verify, Run(verify, init), ixs[n]);
      AdminMayRemove(verify, Run(verify, init), mint, wallet);
    }
  }

  /** Whoever sets up the policy administers it for good, for the same event. */
  lemma {:induction false} PolicyAdminStays(verify: Verifier, ixs: seq<Instruction>, i: nat)
    requires i <= |ixs| && Run(verify, ixs[..i]).kyc.Some?
    ensures var before, after := Run(verify, ixs[..i]).kyc, Run(verify, ixs).kyc;
      after.Some? && after.value.admin == before.value.admin && after.value.eventId == before.value.eventId
  {
    hide Step;
    if i == |ixs| {
      assert ixs[..i] == ixs;
    } else {
      var init := ixs[..|ixs| - 1];
      assert init[..i] == ixs[..i];
      PolicyAdminStays(verify, init, i);
      OnlyTheEntitled(verify, Run(verify, init), ixs[|ixs| - 1]);
    }
  }

  lemma AdminMayRemove(verify: Verifier, s: State, mint: Pubkey, wallet: Pubkey)
    requires Active(s, mint, wallet)
    ensures mint in s.configs ==> MayRun(verify, s, DoRemoveAllow(s.configs[mint], mint, wallet))
  {
  }

  // ------------------------------------------------------------------ main results

  /** The proof's date reads as that of yesterday, today or tomorrow by the cluster clock. */
  ghost predicate DatedWithinADay(now: int, currentDate: nat) {
    exists day: int :: -1 <= day - now / Civil.SECONDS_PER_DAY <= 1 && AgeGate.Reads(currentDate, Civil.DateOfDay(day))
  }

  lemma DateMatchesIff(now: int, currentDate: nat)
    ensures DateMatches(now, currentDate) <==> DatedWithinADay(now, currentDate)
  {
    hide AgeGate.Reads, Civil.DayNumber;
    var today := now / Civil.SECONDS_PER_DAY;
    forall days: int ensures AgeGate.Reads(currentDate, Civil.DateOfDay(today + days)) <==>
      currentDate == AgeGate.DateCode(now, days)
    {
      AgeGate.DateCodeReads(now, days);
      AgeGate.ReadsIff(currentDate, Civil.DateOfDay(today + days));
      AgeGate.ReadsIff(AgeGate.DateCode(now, days), Civil.DateOfDay(today + days));
    }
    if day: int :| -1 <= day - today <= 1 && AgeGate.Reads(currentDate, Civil.DateOfDay(day)) {
      assert today + (day - today) == day;
      assert day - today == -1 || day - today == 0 || day - today == 1;
    }
    if DateMatches(now, currentDate) {
      var days := if AgeGate.DateCode(now, -1) == currentDate then -1
                  else if AgeGate.DateCode(now, 0) == currentDate then 0 else 1;
      assert AgeGate.Reads(currentDate, Civil.DateOfDay(today + days));
    }
  }

  /** Everyone below the proven bound is older than the minimum age, and the bound is not the
      missing February 29. */
  ghost predicate BoundProvesAge(ub: nat, current: nat, now: int, minAge: nat) {
    && AgeGate.DecodeYymmdd(ub).Some?
    && var n, today := AgeGate.NormalizeYymmdd(ub, current).value, Civil.DateAt(now);
       (forall b :: Civil.Before(b, n) ==> AgeGate.OlderThan(b, minAge, today))
       && !(AgeGate.NoCounterpart(today, minAge) && n == Civil.Date(today.y - minAge, 2, 29))
  }

  /** What passing the policy checks means: a fresh identity number, an accepted state root, a
      revealed citizenship that is not blocked, a current date, and a bound that proves the age. */
  lemma PolicyAcceptsIff(c: KycConfig, now: int, sig: Signals)
    ensures PolicyError(c, now, sig) == None <==>
      && sig.nullifier != 0 && sig.root in c.roots
      && 0xFF < sig.citizenship <= 0xFF_FFFF && sig.citizenship !in c.blocked
      && DatedWithinADay(now, sig.currentDate)
      && BoundProvesAge(sig.birthDateUpper, sig.currentDate, now, c.minAge)
  {
    hide AgeGate.DateCode, AgeGate.BoundOkOn, AgeGate.DecodeYymmdd, AgeGate.OlderThan, Civil.DateAt;
    hide DateMatches, DatedWithinADay;
    AgeGate.AgeGateExact(sig.birthDateUpper, sig.currentDate, Civil.DateAt(now), c.minAge);
    DateMatchesIff(now, sig.currentDate);
  }

  /** And the bound those checks compare is the latest date with its digits before the day of the proof,
      which lies within a day of the cluster's, in the years 2000 to 2099. */
  lemma CheckedBoundIsLatest(c: KycConfig, now: int, sig: Signals)
    requires PolicyError(c, now, sig) == None
    ensures exists day: int ::
      && -1 <= day - now / Civil.SECONDS_PER_DAY <= 1
      && var t, n := Civil.DateOfDay(day), AgeGate.NormalizeYymmdd(sig.birthDateUpper, sig.currentDate);
         && AgeGate.Reads(sig.currentDate, t)
         && (2000 <= t.y <= 2099 ==> n.Some? && AgeGate.IsLatestBefore(n.value, sig.birthDateUpper, t))
  {
    hide AgeGate.Reads, AgeGate.DecodeYymmdd, AgeGate.EncodeYymmdd, AgeGate.IsLatestBefore, BoundProvesAge;
    hide Civil.DayNumber, PolicyError;
    PolicyAcceptsIff(c, now, sig);
    var day: int :| -1 <= day - now / Civil.SECONDS_PER_DAY <= 1
      && AgeGate.Reads(sig.currentDate, Civil.DateOfDay(day));
    var t := Civil.DateOfDay(day);
    AgeGate.ReadsIff(sig.currentDate, t);
    DecodesIfChecked(c, now, sig);
    if 2000 <= t.y <= 2099 { AgeGate.NormalizedIsLatest(sig.birthDateUpper, t); }
  }

  lemma DecodesIfChecked(c: KycConfig, now: int, sig: Signals)
    requires PolicyError(c, now, sig) == None
    ensures AgeGate.DecodeYymmdd(sig.birthDateUpper).Some?
  {
    hide AgeGate.DecodeYymmdd, AgeGate.BoundOkOn, DateMatches;
  }

  /** One passport, one wallet: in no run do two wallets hold the same nullifier. */
  lemma OneWalletPerNullifier(verify: Verifier, ixs: seq<Instruction>, v: Pubkey, w: Pubkey)
    requires forall i :: 0 <= i < |ixs| ==> Signable(ixs[i])
    ensures var s := Run(verify, ixs);
      v in s.attestations && w in s.attestations && s.attestations[v].nullifier == s.attestations[w].nullifier ==>
        v == w
  {
    RunKeepsInv(verify, ixs);
  }

  /** The unsignable default key is what keeps that true: a record it owned would read as new, and
      the next wallet could take the same nullifier. */
  lemma DefaultKeyWouldShare(verify: Verifier, s: State, now: int, proof: Word, sig: Signals,
                             next: int, proof': Word, w: Pubkey)
    requires w != DEFAULT_KEY && sig.wallet == DEFAULT_KEY
    requires SubmitKycProof(verify, s, now, proof, sig).Ok?
    requires s.kyc.Some? && PolicyError(s.kyc.value, next, sig.(wallet := w, eventId := s.kyc.value.eventId)) == None
    requires verify(proof', sig.(wallet := w, eventId := s.kyc.value.eventId)) && next + s.kyc.value.ttlSecs <= I64_MAX
    ensures var s' := SubmitKycProof(verify, s, now, proof, sig).value;
            var r := SubmitKycProof(verify, s', next, proof', sig.(wallet := w));
            r.Ok? && r.value.attestations[DEFAULT_KEY].nullifier == r.value.attestations[w].nullifier
  {
    var s' := SubmitKycProof(verify, s, now, proof, sig).value;
    assert RecordedWallet(s', sig.nullifier) == DEFAULT_KEY;
  }

  /** In every run the accepted roots are the newest eight ever pushed, in order, none twice. */
  lemma RootsAreNewest(verify: Verifier, ixs: seq<Instruction>)
    requires forall i :: 0 <= i < |ixs| ==> Signable(ixs[i])
    ensures var s := Run(verify, ixs);
      s.kyc.Some? ==>
        && NoDup(s.kyc.value.roots) && |s.kyc.value.roots| <= MAX_ROOTS
        && s.kyc.value.roots == Newest(AcceptedRoots(s.log))
  {
    RunKeepsInv(verify, ixs);
  }

  lemma {:induction false} LastNoteIsLast(log: seq<Note>, mint: Pubkey, wallet: Pubkey) returns (i: nat)
    requires LastNote(log, mint, wallet).Some?
    ensures i < |log| && log[i] == LastNote(log, mint, wallet).value
    ensures (log[i].Activated? || log[i].Deactivated?) && log[i].mint == mint && log[i].wallet == wallet
    ensures forall j :: i < j < |log| ==> log[j] != Deactivated(mint, wallet)
  {
    var k := |log| - 1;
    if (log[k].Activated? || log[k].Deactivated?) && log[k].mint == mint && log[k].wallet == wallet {
      i := k;
    } else {
      i := LastNoteIsLast(log[..k], mint, wallet);
    }
  }

  /** At `i` the wallet was activated for the mint, justified by what came before, and nothing
      deactivated it afterwards. */
  ghost predicate ActivatedAt(verify: Verifier, log: seq<Note>, i: nat, mint: Pubkey, wallet: Pubkey) {
    && i < |log| && log[i].Activated? && log[i].mint == mint && log[i].wallet == wallet
    && Justified(verify, log[..i], log[i]) && forall j :: i < j < |log| ==> log[j] != Deactivated(mint, wallet)
  }

  /** Whenever the hook lets a transfer through, the destination was activated by the admin or by
      an attestation that was valid then, and nothing deactivated it afterwards. */
  lemma HookOnlyAfterActivation(verify: Verifier, ixs: seq<Instruction>, mint: Pubkey, destination: Pubkey)
    requires forall i :: 0 <= i < |ixs| ==> Signable(ixs[i])
    requires Execute(Run(verify, ixs), true, mint, destination).Ok?
    ensures exists i: nat :: ActivatedAt(verify, Run(verify, ixs).log, i, mint, destination)
  {
    RunKeepsInv(verify, ixs);
    var s := Run(verify, ixs);
    assert s.entries[(mint, destination)];
    var i := LastNoteIsLast(s.log, mint, destination);
    assert ActivatedAt(verify, s.log, i, mint, destination);
  }

  /** And an earned attestation means the age gate: everyone below the proven bound is older
      than the policy's minimum age on the day the proof was accepted. */
  lemma AttestedIsOldEnough(verify: Verifier, n: Note, birth: AgeGate.Triple)
    requires n.Attested?
    ensures var sig := n.signals;
      Earned(verify, n) && Civil.Before(birth, AgeGate.NormalizeYymmdd(sig.birthDateUpper, sig.currentDate).value) ==>
        AgeGate.OlderThan(birth, n.policy.minAge, Civil.DateAt(n.attestation.issuedAt))
  {
    var sig, today := n.signals, Civil.DateAt(n.attestation.issuedAt);
    if Earned(verify, n) && Civil.Before(birth, AgeGate.NormalizeYymmdd(sig.birthDateUpper, sig.currentDate).value) {
      AgeGate.AgeGateSound(sig.birthDateUpper, sig.currentDate, today, n.policy.minAge, birth);
    }
  }

  /** The attestation was earned, under a policy, with a bound below which everyone was older than
      that policy's minimum age on the day it was issued. */
  ghost predicate ProvenAge(verify: Verifier, n: Note, a: Attestation, wallet: Pubkey) {
    && n.Attested? && n.attestation == a && n.holder == wallet && Earned(verify, n)
    && AgeGate.DecodeYymmdd(n.signals.birthDateUpper).Some?
    && var bound := AgeGate.NormalizeYymmdd(n.signals.birthDateUpper, n.signals.currentDate).value;
       forall birth :: Civil.Before(birth, bound) ==>
         AgeGate.OlderThan(birth, n.policy.minAge, Civil.DateAt(a.issuedAt))
  }

  /** The activation at `i` was made by the mint's admin of that moment, or on an attestation still
      valid then whose holder had proved their age. */
  ghost predicate AdminOrProvenAge(verify: Verifier, log: seq<Note>, i: nat)
    requires i < |log| && log[i].Activated?
  {
    match log[i].source
    case ByAdmin(admin) => CurrentAdmin(log[..i], log[i].mint) == Some(admin)
    case ByAttestation(a, _, at) =>
      a.expiresAt > at && exists k :: 0 <= k < i && ProvenAge(verify, log[k], a, log[i].wallet)
  }

  /** From end to end: a transfer passes only to a wallet activated by the admin of that moment, or by
      an attestation whose holder proved their age to the policy then in force. */
  lemma HookMeansAdminOrProvenAge(verify: Verifier, ixs: seq<Instruction>, mint: Pubkey, destination: Pubkey)
    requires forall i :: 0 <= i < |ixs| ==> Signable(ixs[i])
    requires Execute(Run(verify, ixs), true, mint, destination).Ok?
    ensures var log := Run(verify, ixs).log;
      exists i: nat :: ActivatedAt(verify, log, i, mint, destination) && AdminOrProvenAge(verify, log, i)
  {
    hide Run, Earned, LastNote, CurrentAdmin;
    HookOnlyAfterActivation(verify, ixs, mint, destination);
    var log := Run(verify, ixs).log;
    var i: nat :| ActivatedAt(verify, log, i, mint, destination);
    if log[i].source.ByAttestation? {
      var a := log[i].source.attestation;
      assert HeldBy(verify, log[..i], a, destination);
      var k :| 0 <= k < |log[..i]| && EarnedAs(verify, log[..i][k], a, destination);
      EarnedProvesAge(verify, log[k], a, destination);
    }
  }

  lemma EarnedProvesAge(verify: Verifier, n: Note, a: Attestation, wallet: Pubkey)
    requires n.Attested? && n.attestation == a && n.holder == wallet && Earned(verify, n)
    ensures ProvenAge(verify, n, a, wallet)
  {
    hide AgeGate.OlderThan, Civil.DateAt, AgeGate.DecodeYymmdd;
    PolicyAcceptsIff(n.policy, a.issuedAt, n.signals);
  }
}
