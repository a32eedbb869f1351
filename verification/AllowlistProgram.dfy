/** The handlers of the transfer-hook program in their own form: they check, then assign account
    fields. A program that has handled any sequence of instructions is where `Allowlist.Run` says,
    so what holds of every run holds of it. */
module AllowlistProgram {
  import opened Wrappers
  import opened Allowlist
  import opened Sorting
  import AgeGate

  /** A handler's result and the accounts after it agree with the step. */
  ghost predicate Follows(r: Result<(), Error>, before: State, after: State, step: Result<State, Error>) {
    match step
    case Ok(s) => r.Ok? && after == s
    case Err(e) => r == Err(e) && after == before
  }

  /** The checks before the pairing, one `require!` at a time. Passing them means what
      `PolicyAcceptsIff` says; otherwise the first that fails is reported. */
  method CheckPolicy(cfg: KycConfig, now: int, sig: Signals) returns (e: Option<Error>)
    ensures e == PolicyError(cfg, now, sig)
    ensures e.None? ==> BoundProvesAge(sig.birthDateUpper, sig.currentDate, now, cfg.minAge)
    ensures e.None? ==> DatedWithinADay(now, sig.currentDate)
  {
    hide AgeGate.BoundOkOn, AgeGate.BirthBoundOk, AgeGate.DecodeYymmdd, AgeGate.EncodedDate, AgeGate.DateCode;
    hide BoundProvesAge, DatedWithinADay;
    PolicyAcceptsIff(cfg, now, sig);
    if sig.nullifier == 0 { return Some(BadProof); }
    if sig.root !in cfg.roots { return Some(UnknownRoot); }
    if !(0xFF < sig.citizenship <= 0xFF_FFFF) { return Some(BadProof); }
    if sig.citizenship in cfg.blocked { return Some(CountryBlocked); }
    var yesterday, today, tomorrow :=
      AgeGate.EncodedDate(now, -1), AgeGate.EncodedDate(now, 0), AgeGate.EncodedDate(now, 1);
    if sig.currentDate !in [yesterday, today, tomorrow] { return Some(StaleProof); }
    var decoded := AgeGate.FillDigits(sig.birthDateUpper);
    if decoded.None? { return Some(BadProof); }
    var bounded := AgeGate.BirthBoundOk(sig.birthDateUpper, sig.currentDate, now, cfg.minAge);
    if !bounded { return Some(AgeBoundTooLax); }
    e := None;
  }

  class Program {
    const verify: Verifier
    var configs: map<Pubkey, Pubkey>
    var entries: map<(Pubkey, Pubkey), bool>
    var kyc: Option<KycConfig>
    var policies: set<Pubkey>
    var attestations: map<Pubkey, Attestation>
    var nullifiers: map<Word, Pubkey>
    ghost var log: seq<Note>
    /** Every instruction handled so far, failed ones included. */
    ghost var trace: seq<Instruction>

    ghost function Accounts(): State
      reads this
    {
      State(configs, entries, kyc, policies, attestations, nullifiers, log)
    }

    /** The accounts are where the instructions lead. */
    ghost predicate Valid()
      reads this
    {
      Accounts() == Run(verify, trace)
    }

    constructor (verify: Verifier)
      ensures Valid() && Accounts() == EMPTY && trace == [] && this.verify == verify
    {
      this.verify := verify;
      configs, entries, kyc, policies, attestations, nullifiers := map[], map[], None, {}, map[], map[];
      log, trace := [], [];
    }

    /** `ix` was handled with result `r`: the accounts are those of its step, and a failure is the
        step's error and changed nothing. */
    twostate predicate Handled(ix: Instruction, new r: Result<(), Error>)
      reads this
    {
      && Valid() && trace == old(trace) + [ix]
      && Follows(r, old(Accounts()), Accounts(), Handle(verify, old(Accounts()), ix))
    }

    ghost method Record(before: State, ix: Instruction)
      requires before == Run(verify, trace) && Accounts() == Step(verify, before, ix)
      modifies this`trace
      ensures Valid() && trace == old(trace) + [ix]
    {
      assert (trace + [ix])[..|trace|] == trace;
      trace := trace + [ix];
    }

    method Initialize(authority: Pubkey, mint: Pubkey, admin: Pubkey) returns (r: Result<(), Error>)
      requires Valid()
      modifies this
      ensures Handled(DoInitialize(authority, mint, admin), r)
    {
      hide Run;
      ghost var before := Accounts();
      if authority != FS_AUTHORITY {
        r := Err(Unauthorized);
      } else if mint in configs {
        r := Err(AlreadyInitialized);
      } else {
        configs := configs[mint := admin];
        log := log + [AdminIs(mint, admin)];
        r := Ok(());
      }
      Record(before, DoInitialize(authority, mint, admin));
    }

    method AddAllow(admin: Pubkey, mint: Pubkey, wallet: Pubkey) returns (r: Result<(), Error>)
      requires Valid()
      modifies this
      ensures Handled(DoAddAllow(admin, mint, wallet), r)
    {
      hide Run;
      ghost var before := Accounts();
      if mint !in configs {
        r := Err(MissingAccount);
      } else if configs[mint] != admin {
        r := Err(Unauthorized);
      } else {
        entries := entries[(mint, wallet) := true];
        log := log + [Activated(mint, wallet, ByAdmin(admin))];
        r := Ok(());
      }
      Record(before, DoAddAllow(admin, mint, wallet));
    }

    method RemoveAllow(admin: Pubkey, mint: Pubkey, wallet: Pubkey) returns (r: Result<(), Error>)
      requires Valid()
      modifies this
      ensures Handled(DoRemoveAllow(admin, mint, wallet), r)
    {
      hide Run;
      ghost var before := Accounts();
      if mint !in configs || (mint, wallet) !in entries {
        r := Err(MissingAccount);
      } else if configs[mint] != admin {
        r := Err(Unauthorized);
      } else {
        entries := entries[(mint, wallet) := false];
        log := log + [Deactivated(mint, wallet)];
        r := Ok(());
      }
      Record(before, DoRemoveAllow(admin, mint, wallet));
    }

    method SetAdmin(admin: Pubkey, mint: Pubkey, newAdmin: Pubkey) returns (r: Result<(), Error>)
      requires Valid()
      modifies this
      ensures Handled(DoSetAdmin(admin, mint, newAdmin), r)
    {
      hide Run;
      ghost var before := Accounts();
      if mint !in configs {
        r := Err(MissingAccount);
      } else if configs[mint] != admin {
        r := Err(Unauthorized);
      } else {
        configs := configs[mint := newAdmin];
        log := log + [AdminIs(mint, newAdmin)];
        r := Ok(());
      }
      Record(before, DoSetAdmin(admin, mint, newAdmin));
    }

    method InitKycConfig(authority: Pubkey, admin: Pubkey, eventId: Word, minAge: nat, ttlSecs: int, blocked: seq<nat>)
      returns (r: Result<(), Error>)
      requires Valid()
      modifies this
      ensures Handled(DoInitKyc(authority, admin, eventId, minAge, ttlSecs, blocked), r)
    {
      hide Run;
      ghost var before := Accounts();
      if authority != FS_AUTHORITY {
        r := Err(Unauthorized);
      } else if kyc.Some? {
        r := Err(AlreadyInitialized);
      } else if |blocked| > MAX_BLOCKED {
        r := Err(TooMany);
      } else if ttlSecs <= 0 {
        r := Err(BadPolicy);
      } else {
        kyc := Some(KycConfig(admin, eventId, minAge, ttlSecs, blocked, []));
        r := Ok(());
      }
      Record(before, DoInitKyc(authority, admin, eventId, minAge, ttlSecs, blocked));
    }

    method SetKycPolicy(admin: Pubkey, minAge: nat, ttlSecs: int, blocked: seq<nat>) returns (r: Result<(), Error>)
      requires Valid()
      modifies this
      ensures Handled(DoSetPolicy(admin, minAge, ttlSecs, blocked), r)
    {
      hide Run;
      ghost var before := Accounts();
      if kyc.None? {
        r := Err(MissingAccount);
      } else if kyc.value.admin != admin {
        r := Err(Unauthorized);
      } else if |blocked| > MAX_BLOCKED {
        r := Err(TooMany);
      } else if ttlSecs <= 0 {
        r := Err(BadPolicy);
      } else {
        kyc := Some(kyc.value.(minAge := minAge, ttlSecs := ttlSecs, blocked := blocked));
        r := Ok(());
      }
      Record(before, DoSetPolicy(admin, minAge, ttlSecs, blocked));
    }

    method PushKycRoot(admin: Pubkey, root: Word) returns (r: Result<(), Error>)
      requires Valid()
      modifies this
      ensures Handled(DoPushRoot(admin, root), r)
    {
      hide Run;
      ghost var before := Accounts();
      if kyc.None? {
        r := Err(MissingAccount);
      } else if kyc.value.admin != admin {
        r := Err(Unauthorized);
      } else {
        var roots := kyc.value.roots;
        if root !in roots {
          if |roots| == MAX_ROOTS {
            roots := roots[1..];
          }
          roots := roots + [root];
          kyc := Some(kyc.value.(roots := roots));
          log := log + [RootAccepted(root)];
        }
        r := Ok(());
      }
      Record(before, DoPushRoot(admin, root));
    }

    method EnableKyc(admin: Pubkey, mint: Pubkey) returns (r: Result<(), Error>)
      requires Valid()
      modifies this
      ensures Handled(DoEnableKyc(admin, mint), r)
    {
      hide Run;
      ghost var before := Accounts();
      if mint !in configs {
        r := Err(MissingAccount);
      } else if configs[mint] != admin {
        r := Err(Unauthorized);
      } else {
        policies := policies + {mint};
        r := Ok(());
      }
      Record(before, DoEnableKyc(admin, mint));
    }

    /** The checks of `submit_kyc_proof`, before anything is written. */
    method CheckSubmission(now: int, proof: Word, sig: Signals) returns (e: Option<Error>)
      ensures e == match Allowlist.SubmitKycProof(verify, Accounts(), now, proof, sig)
        case Ok(_) => None
        case Err(error) => Some(error)
    {
      hide PolicyError;
      if kyc.None? { return Some(MissingAccount); }
      var cfg := kyc.value;
      var public := sig.(eventId := cfg.eventId);
      e := CheckPolicy(cfg, now, public);
      if e.Some? { return; }
      if !verify(proof, public) { return Some(InvalidProof); }
      var bound := if sig.nullifier in nullifiers then nullifiers[sig.nullifier] else DEFAULT_KEY;
      if bound != DEFAULT_KEY && bound != sig.wallet { return Some(NullifierUsed); }
      if now + cfg.ttlSecs > I64_MAX { return Some(BadPolicy); }
      e := None;
    }

    method SubmitKycProof(now: int, proof: Word, sig: Signals) returns (r: Result<(), Error>)
      requires Valid()
      modifies this
      ensures Handled(DoSubmit(now, proof, sig), r)
    {
      hide Run, PolicyError;
      ghost var before := Accounts();
      var e := CheckSubmission(now, proof, sig);
      if e.Some? {
        r := Err(e.value);
      } else {
        var cfg := kyc.value;
        nullifiers := nullifiers[sig.nullifier := sig.wallet];
        var a := Attestation(sig.nullifier, sig.citizenship, now, now + cfg.ttlSecs);
        attestations := attestations[sig.wallet := a];
        log := log + [Attested(sig.wallet, a, cfg, sig.(eventId := cfg.eventId), proof)];
        r := Ok(());
      }
      Record(before, DoSubmit(now, proof, sig));
    }

    method AddAllowKyc(now: int, wallet: Pubkey, mint: Pubkey) returns (r: Result<(), Error>)
      requires Valid()
      modifies this
      ensures Handled(DoAddAllowKyc(now, wallet, mint), r)
    {
      hide Run;
      ghost var before := Accounts();
      if kyc.None? || mint !in policies || wallet !in attestations {
        r := Err(MissingAccount);
      } else if !(attestations[wallet].expiresAt > now) {
        r := Err(AttestationExpired);
      } else if attestations[wallet].citizenship in kyc.value.blocked {
        r := Err(CountryBlocked);
      } else {
        entries := entries[(mint, wallet) := true];
        log := log + [Activated(mint, wallet, ByAttestation(attestations[wallet], kyc.value.blocked, now))];
        r := Ok(());
      }
      Record(before, DoAddAllowKyc(now, wallet, mint));
    }

    method RevokeKycAllow(now: int, wallet: Pubkey, mint: Pubkey) returns (r: Result<(), Error>)
      requires Valid()
      modifies this
      ensures Handled(DoRevoke(now, wallet, mint), r)
    {
      hide Run;
      ghost var before := Accounts();
      if kyc.None? || mint !in policies || wallet !in attestations || (mint, wallet) !in entries {
        r := Err(MissingAccount);
      } else {
        var expired := attestations[wallet].expiresAt <= now;
        var blocked := attestations[wallet].citizenship in kyc.value.blocked;
        if expired || blocked {
          entries := entries[(mint, wallet) := false];
          log := log + [Deactivated(mint, wallet)];
          r := Ok(());
        } else {
          r := Err(StillValid);
        }
      }
      Record(before, DoRevoke(now, wallet, mint));
    }

    /** Nobody has signed with the default key. */
    ghost predicate Genuine()
      reads this
    {
      forall i :: 0 <= i < |trace| ==> Signable(trace[i])
    }

    /** The hook. A transfer passes exactly when the last thing that happened to the destination's
        entry was an activation; and then the admin of that moment made it, or an attestation still
        valid whose holder had proved their age, and nothing deactivated it since. */
    method Execute(transferring: bool, mint: Pubkey, destination: Pubkey) returns (r: Result<(), Error>)
      requires Valid()
      ensures !transferring ==> r == Err(NotTransferring)
      ensures transferring && Genuine() ==>
        (r.Ok? <==> LastNote(log, mint, destination).Some? && LastNote(log, mint, destination).value.Activated?)
      ensures r.Ok? && Genuine() ==>
        exists i: nat :: ActivatedAt(verify, log, i, mint, destination) && AdminOrProvenAge(verify, log, i)
    {
      hide Run, ActivatedAt, AdminOrProvenAge;
      if Genuine() { RunKeepsInv(verify, trace); }
      if !transferring { return Err(NotTransferring); }
      if (mint, destination) !in entries { return Err(NotEligible); }
      if !entries[(mint, destination)] { return Err(NotEligible); }
      if Genuine() { HookMeansAdminOrProvenAge(verify, trace, mint, destination); }
      r := Ok(());
    }
  }

  /** After any instructions, in any order: no two wallets hold the same nullifier, and the accepted
      roots are the newest eight, none twice. */
  lemma ProgramIsSafe(program: Program)
    requires program.Valid() && program.Genuine()
    ensures Inv(program.verify, program.Accounts())
    ensures forall v, w | v in program.attestations && w in program.attestations ::
      program.attestations[v].nullifier == program.attestations[w].nullifier ==> v == w
    ensures program.kyc.Some? ==>
      NoDup(program.kyc.value.roots) && program.kyc.value.roots == Newest(AcceptedRoots(program.log))
  {
    hide Run, Inv;
    RunKeepsInv(program.verify, program.trace);
    RootsAreNewest(program.verify, program.trace);
    forall v, w | v in program.attestations && w in program.attestations
      && program.attestations[v].nullifier == program.attestations[w].nullifier
      ensures v == w
    {
      OneWalletPerNullifier(program.verify, program.trace, v, w);
    }
  }
}
