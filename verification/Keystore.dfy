/** Per-account key envelopes (`keystore.rs`) with the real primitives, over symbolic boxes. */
module Keystore {
  import opened Octets
  import opened Text
  import opened SealedBox

  type AccountId = a: Bytes | |a| == 16 witness seq(16, i => 1)
  type KeyId = k: nat | k < 0x1_0000

  const FORMAT_VERSION: nat := 1
  const ARGON2_ID: nat := 1

  /** `b"teleforge-keystore-verifier-v1"` */
  const VERIFIER: Bytes := [
    116, 101, 108, 101, 102, 111, 114, 103, 101,
    45, 107, 101, 121, 115, 116, 111, 114, 101, 45, 118, 101, 114, 105, 102, 105, 101, 114, 45, 118, 49]

  const PURPOSE_DEK: byte := 100
  const PURPOSE_VERIFIER: byte := 118
  const PURPOSE_RECOVERY: byte := 114

  datatype Envelope = Envelope(
    formatVersion: nat, accountId: AccountId, kdfId: nat, cost: Cost, salt: Salt, keyId: KeyId,
    wrappedDek: Box, verifier: Box, wrappedDekRecovery: Option<Box>)

  datatype Unlocked = Unlocked(accountId: AccountId, keyId: nat, dek: Bytes)

  type Files = map<AccountId, Envelope>

  function AadFor(account: AccountId, keyId: KeyId, purpose: byte): Bytes {
    account + BigEndian16(keyId) + [purpose]
  }

  /** The associated data determines account, key version and purpose, byte for byte. */
  lemma AadInjective(a: AccountId, k: KeyId, p: byte, a': AccountId, k': KeyId, p': byte)
    requires AadFor(a, k, p) == AadFor(a', k', p')
    ensures a == a' && k == k' && p == p'
  {
    var l, r := AadFor(a, k, p), AadFor(a', k', p');
    assert a == l[..16] == r[..16] == a';
    assert BigEndian16(k) == l[16..18] == r[16..18] == BigEndian16(k');
    BigEndian16Injective(k, k');
    assert l[18] == p && r[18] == p';
  }

  /** What the associated data holds, and where. */
  lemma AadReads(account: AccountId, keyId: KeyId, purpose: byte)
    ensures var aad := AadFor(account, keyId, purpose);
      |aad| == 19 && aad[..16] == account && aad[16] as int * 256 + aad[17] == keyId && aad[18] == purpose
  {
    BigEndian16Reads(keyId);
    var aad := AadFor(account, keyId, purpose);
    assert aad[16..18] == BigEndian16(keyId);
    assert aad[16] == aad[16..18][0] && aad[17] == aad[16..18][1];
  }

  // ----- operations

  function UnlockWith(account: AccountId, passphrase: Bytes, e: Envelope): Result<Unlocked> {
    if e.formatVersion != FORMAT_VERSION then Err(Invalid)
    else if e.accountId != account then Err(Auth)
    else
      match Derive(passphrase, e.salt, e.cost)
      case Err(error) => Err(error)
      case Ok(kek) =>
        match Open(kek, AadFor(e.accountId, e.keyId, PURPOSE_VERIFIER), e.verifier)
        case None => Err(Auth)
        case Some(plain) =>
          if plain != VERIFIER then Err(Auth)
          else
            match Open(kek, AadFor(e.accountId, e.keyId, PURPOSE_DEK), e.wrappedDek)
            case None => Err(Crypto)
            case Some(dek) =>
              if |dek| != KEY_LEN then Err(Crypto) else Ok(Unlocked(e.accountId, e.keyId, dek))
  }

  function UnlockWithRecovery(account: AccountId, code: Bytes, e: Envelope): Result<Unlocked> {
    if e.formatVersion != FORMAT_VERSION then Err(Invalid)
    else if e.accountId != account then Err(Auth)
    else if e.wrappedDekRecovery.None? then Err(Auth)
    else if |code| < RECOVERY_CODE_LEN then Err(Auth)
    else
      match DeriveRecovery(code, e.salt, e.cost)
      case Err(error) => Err(error)
      case Ok(kek) =>
        match Open(kek, AadFor(e.accountId, e.keyId, PURPOSE_RECOVERY), e.wrappedDekRecovery.value)
        case None => Err(Auth)
        case Some(dek) =>
          if |dek| != KEY_LEN then Err(Crypto) else Ok(Unlocked(e.accountId, e.keyId, dek))
  }

  /** One sealed version of an account's key. */
  datatype Generation = Generation(
    account: AccountId, keyId: KeyId, salt: Salt, cost: Cost, passphrase: Bytes, dek: Dek, code: Option<Bytes>)

  function DekBox(g: Generation): Box {
    Seal(PassphraseKek(g.passphrase, g.salt, g.cost), AadFor(g.account, g.keyId, PURPOSE_DEK), g.dek)
  }

  function VerifierBox(g: Generation): Box {
    Seal(PassphraseKek(g.passphrase, g.salt, g.cost), AadFor(g.account, g.keyId, PURPOSE_VERIFIER), VERIFIER)
  }

  function RecoveryBox(g: Generation): Option<Box> {
    match g.code
    case None => None
    case Some(code) => Some(Seal(RecoveryKek(code, g.salt, g.cost), AadFor(g.account, g.keyId, PURPOSE_RECOVERY), g.dek))
  }

  function EnvelopeOf(g: Generation): Envelope {
    Envelope(FORMAT_VERSION, g.account, ARGON2_ID, g.cost, g.salt, g.keyId, DekBox(g), VerifierBox(g), RecoveryBox(g))
  }

  function CreateCheck(files: Files, account: AccountId, passphrase: Bytes, cost: Cost): Option<Error> {
    if !ValidPassphrase(passphrase) then Some(Invalid)
    else if !cost.Valid() then Some(Crypto)
    else if account in files then Some(Invalid)
    else None
  }

  /** Ok is the envelope to write. */
  function RotateEnvelope(files: Files, account: AccountId, current: Bytes, next: Bytes, salt: Salt): Result<Envelope> {
    if account !in files then Err(Io)
    else
      var e := files[account];
      if e.wrappedDekRecovery.Some? then Err(Unsupported)
      else if e.kdfId != ARGON2_ID then Err(Unsupported)
      else
        match UnlockWith(account, current, e)
        case Err(error) => Err(error)
        case Ok(unlocked) =>
          if !ValidPassphrase(next) then Err(Invalid)
          else
            match Derive(next, salt, e.cost)
            case Err(error) => Err(error)
            case Ok(kek) =>
              if e.keyId + 1 >= 0x1_0000 then Err(Crypto)
              else
                var keyId: KeyId := e.keyId + 1;
                Ok(e.(salt := salt, keyId := keyId,
                      wrappedDek := Seal(kek, AadFor(account, keyId, PURPOSE_DEK), unlocked.dek),
                      verifier := Seal(kek, AadFor(account, keyId, PURPOSE_VERIFIER), VERIFIER)))
  }

  /** The envelope directory; a file is the envelope it parses to. */
  class SecretStore {
    var files: Files

    constructor ()
      ensures files == map[]
    {
      files := map[];
    }

    /** `create_inner`; the random source supplies `salt`, `dek` and `code`. */
    method Create(account: AccountId, passphrase: Bytes, cost: Cost, withRecovery: bool, salt: Salt, dek: Dek,
                  code: Bytes)
      returns (r: Result<(Envelope, Unlocked, Option<Bytes>)>)
      requires |code| == RECOVERY_CODE_LEN
      modifies this
      ensures var recovery := if withRecovery then Some(code) else None;
              var g := Generation(account, 1, salt, cost, passphrase, dek, recovery);
              match CreateCheck(old(files), account, passphrase, cost)
              case Some(error) => r == Err(error) && files == old(files)
              case None =>
                && r == Ok((EnvelopeOf(g), Unlocked(account, 1, dek), recovery))
                && files == old(files)[account := EnvelopeOf(g)]
    {
      if !ValidPassphrase(passphrase) { return Err(Invalid); }
      if !cost.Valid() { return Err(Crypto); }
      if account in files { return Err(Invalid); }
      var kek := PassphraseKek(passphrase, salt, cost);
      var keyId: KeyId := 1;
      var wrappedDek := Seal(kek, AadFor(account, keyId, PURPOSE_DEK), dek);
      var verifier := Seal(kek, AadFor(account, keyId, PURPOSE_VERIFIER), VERIFIER);
      var wrapped, recoveryCode := None, None;
      if withRecovery {
        var recoveryKek := RecoveryKek(code, salt, cost);
        wrapped := Some(Seal(recoveryKek, AadFor(account, keyId, PURPOSE_RECOVERY), dek));
        recoveryCode := Some(code);
      }
      var e := Envelope(FORMAT_VERSION, account, ARGON2_ID, cost, salt, keyId, wrappedDek, verifier, wrapped);
      files := files[account := e];
      return Ok((e, Unlocked(account, keyId, dek), recoveryCode));
    }

    /** `rotate_with`: every refusal comes before the first assignment. */
    method Rotate(account: AccountId, oldPassphrase: Bytes, newPassphrase: Bytes, newSalt: Salt)
      returns (r: Result<Envelope>)
      modifies this
      ensures r == RotateEnvelope(old(files), account, oldPassphrase, newPassphrase, newSalt)
      ensures files == if r.Ok? then old(files)[account := r.value] else old(files)
    {
      if account !in files { return Err(Io); }
      var e := files[account];
      if e.wrappedDekRecovery.Some? { return Err(Unsupported); }
      if e.kdfId != ARGON2_ID { return Err(Unsupported); }
      var unlocked := UnlockWith(account, oldPassphrase, e);
      if unlocked.Err? { return Err(unlocked.error); }
      if !ValidPassphrase(newPassphrase) { return Err(Invalid); }
      var kek := Derive(newPassphrase, newSalt, e.cost);
      if kek.Err? { return Err(kek.error); }
      if e.keyId + 1 >= 0x1_0000 { return Err(Crypto); }
      var keyId: KeyId := e.keyId + 1;
      var dekAad := AadFor(account, keyId, PURPOSE_DEK);
      var verifierAad := AadFor(account, keyId, PURPOSE_VERIFIER);
      e := e.(salt := newSalt);
      e := e.(keyId := keyId);
      e := e.(wrappedDek := Seal(kek.value, dekAad, unlocked.value.dek));
      e := e.(verifier := Seal(kek.value, verifierAad, VERIFIER));
      files := files[account := e];
      return Ok(e);
    }

    method Remove(account: AccountId)
      modifies this
      ensures files == old(files) - {account}
    {
      files := files - {account};
    }

    /** `unlock`; the stored envelope names the KDF. */
    method Unlock(account: AccountId, passphrase: Bytes) returns (r: Result<Unlocked>)
      ensures r == UnlockStored(files, account, passphrase)
    {
      if account !in files { return Err(Io); }
      var e := files[account];
      if e.kdfId != ARGON2_ID { return Err(Unsupported); }
      return UnlockWith(account, passphrase, e);
    }
  }

  function UnlockStored(files: Files, account: AccountId, passphrase: Bytes): Result<Unlocked> {
    if account !in files then Err(Io)
    else if files[account].kdfId != ARGON2_ID then Err(Unsupported)
    else UnlockWith(account, passphrase, files[account])
  }

  function RecoverStored(files: Files, account: AccountId, code: Bytes): Result<Unlocked> {
    if account !in files then Err(Io) else UnlockWithRecovery(account, code, files[account])
  }

  // ----- runs over any number of accounts

  datatype Event =
    | Create(account: AccountId, passphrase: Bytes, cost: Cost, newSalt: Salt, dek: Dek, code: Option<Bytes>)
    | Rotate(account: AccountId, current: Bytes, next: Bytes, newSalt: Salt)
    | Remove(account: AccountId)
    | Unlock(account: AccountId, passphrase: Bytes)
    | Recover(account: AccountId, attempt: Bytes)

  datatype Response =
    | Refused(error: Error)
    | Created(dek: Bytes, code: Option<Bytes>)
    | Rotated(keyId: nat)
    | Removed
    | Opened(keyId: nat, dek: Bytes)

  /** The stored envelopes, and every generation ever sealed. */
  datatype World = World(files: Files, history: seq<Generation>)

  function Answer(r: Result<Unlocked>): Response {
    match r
    case Err(error) => Refused(error)
    case Ok(u) => Opened(u.keyId, u.dek)
  }

  /** The generation an accepted rotation seals. */
  function NextGeneration(w: World, account: AccountId, current: Bytes, next: Bytes, salt: Salt): Generation
    requires RotateEnvelope(w.files, account, current, next, salt).Ok?
  {
    var e := w.files[account];
    Generation(account, e.keyId + 1, salt, e.cost, next, UnlockWith(account, current, e).value.dek, None)
  }

  function Step(w: World, ev: Event): (World, Response) {
    match ev
    case Create(account, passphrase, cost, salt, dek, code) =>
      (match CreateCheck(w.files, account, passphrase, cost)
       case Some(error) => (w, Refused(error))
       case None =>
         var g := Generation(account, 1, salt, cost, passphrase, dek, code);
         (World(w.files[account := EnvelopeOf(g)], w.history + [g]), Created(dek, code)))
    case Rotate(account, current, next, salt) =>
      (match RotateEnvelope(w.files, account, current, next, salt)
       case Err(error) => (w, Refused(error))
       case Ok(e) =>
         (World(w.files[account := e], w.history + [NextGeneration(w, account, current, next, salt)]), Rotated(e.keyId)))
    case Remove(account) => (w.(files := w.files - {account}), Removed)
    case Unlock(account, passphrase) => (w, Answer(UnlockStored(w.files, account, passphrase)))
    case Recover(account, attempt) => (w, Answer(RecoverStored(w.files, account, attempt)))
  }

  // ----- the ideal store: no salts, no ciphertext

  /** What an account is supposed to be: a key behind its current passphrase and, maybe, a code. */
  datatype Locked = Locked(dek: Bytes, passphrase: Bytes, code: Option<Bytes>, rotations: nat)

  type Ideal = map<AccountId, Locked>

  function IdealUnlock(ideal: Ideal, account: AccountId, passphrase: Bytes): Response {
    if account !in ideal then Refused(Io)
    else if passphrase == [] then Refused(Invalid)
    else if passphrase != ideal[account].passphrase then Refused(Auth)
    else Opened(1 + ideal[account].rotations, ideal[account].dek)
  }

  function IdealStep(ideal: Ideal, ev: Event): (Ideal, Response) {
    match ev
    case Create(account, passphrase, cost, _, dek, code) =>
      if |passphrase| < 12 then (ideal, Refused(Invalid))
      else if cost.mCostKib < 32768 || cost.tCost < 2 || cost.pCost < 1 then (ideal, Refused(Crypto))
      else if account in ideal then (ideal, Refused(Invalid))
      else (ideal[account := Locked(dek, passphrase, code, 0)], Created(dek, code))
    case Rotate(account, current, next, _) =>
      if account !in ideal then (ideal, Refused(Io))
      else
        var l := ideal[account];
        if l.code.Some? then (ideal, Refused(Unsupported))
        else if IdealUnlock(ideal, account, current).Refused? then (ideal, IdealUnlock(ideal, account, current))
        else if |next| < 12 then (ideal, Refused(Invalid))
        else if l.rotations == 0xFFFE then (ideal, Refused(Crypto))
        else (ideal[account := l.(passphrase := next, rotations := l.rotations + 1)], Rotated(l.rotations + 2))
    case Remove(account) => (ideal - {account}, Removed)
    case Unlock(account, passphrase) => (ideal, IdealUnlock(ideal, account, passphrase))
    case Recover(account, attempt) =>
      if account !in ideal then (ideal, Refused(Io))
      else if ideal[account].code != Some(attempt) then (ideal, Refused(Auth))
      else (ideal, Opened(1 + ideal[account].rotations, ideal[account].dek))
  }

  /** The recovery codes a run mints have the generated length. */
  predicate CodesMinted(evs: seq<Event>) {
    forall i :: 0 <= i < |evs| && evs[i].Create? && evs[i].code.Some? ==> |evs[i].code.value| == RECOVERY_CODE_LEN
  }

  function Run(evs: seq<Event>, k: nat): World
    requires k <= |evs|
  {
    if k == 0 then World(map[], []) else Step(Run(evs, k - 1), evs[k - 1]).0
  }

  function IdealRun(evs: seq<Event>, k: nat): Ideal
    requires k <= |evs|
  {
    if k == 0 then map[] else IdealStep(IdealRun(evs, k - 1), evs[k - 1]).0
  }

  /** The envelope seals exactly what the ideal account holds. */
  ghost predicate Seals(account: AccountId, e: Envelope, l: Locked) {
    && |l.dek| == KEY_LEN && ValidPassphrase(l.passphrase) && l.rotations < 0xFFFF
    && (l.code.Some? ==> |l.code.value| == RECOVERY_CODE_LEN)
    && e.cost.Valid()
    && e == EnvelopeOf(Generation(account, 1 + l.rotations, e.salt, e.cost, l.passphrase, l.dek, l.code))
  }

  ghost predicate Refines(files: Files, ideal: Ideal) {
    && files.Keys == ideal.Keys
    && forall a :: a in files ==> Seals(a, files[a], ideal[a])
  }

  lemma UnlockSealed(account: AccountId, passphrase: Bytes, e: Envelope, l: Locked)
    requires Seals(account, e, l)
    ensures e.kdfId == ARGON2_ID
    ensures UnlockWith(account, passphrase, e) ==
      if passphrase == [] then Err(Invalid)
      else if passphrase != l.passphrase then Err(Auth)
      else Ok(Unlocked(account, 1 + l.rotations, l.dek))
  {
  }

  lemma CreateSealed(account: AccountId, passphrase: Bytes, cost: Cost, salt: Salt, dek: Dek, code: Option<Bytes>)
    requires ValidPassphrase(passphrase) && cost.Valid() && (code.Some? ==> |code.value| == RECOVERY_CODE_LEN)
    ensures Seals(account, EnvelopeOf(Generation(account, 1, salt, cost, passphrase, dek, code)),
                  Locked(dek, passphrase, code, 0))
  {
  }

  lemma RecoverSealed(account: AccountId, attempt: Bytes, e: Envelope, l: Locked)
    requires Seals(account, e, l)
    ensures UnlockWithRecovery(account, attempt, e) ==
      if l.code != Some(attempt) then Err(Auth) else Ok(Unlocked(account, 1 + l.rotations, l.dek))
  {
  }

  lemma RotateSealed(files: Files, account: AccountId, current: Bytes, next: Bytes, salt: Salt, ideal: Ideal)
    requires Refines(files, ideal)
    ensures var r := RotateEnvelope(files, account, current, next, salt);
      var (ideal', response) := IdealStep(ideal, Rotate(account, current, next, salt));
      && (r.Err? ==> response == Refused(r.error) && ideal' == ideal)
      && (r.Ok? ==> response == Rotated(r.value.keyId) && Seals(account, r.value, ideal'[account])
                    && ideal' == ideal[account := ideal'[account]])
  {
    if account in files {
      UnlockSealed(account, current, files[account], ideal[account]);
    }
  }

  /** One step: same answer, and the envelopes still seal the ideal accounts. */
  lemma StepRefines(w: World, ideal: Ideal, ev: Event)
    requires Refines(w.files, ideal)
    requires ev.Create? && ev.code.Some? ==> |ev.code.value| == RECOVERY_CODE_LEN
    ensures Step(w, ev).1 == IdealStep(ideal, ev).1
    ensures Refines(Step(w, ev).0.files, IdealStep(ideal, ev).0)
  {
    hide UnlockWith, UnlockWithRecovery, RotateEnvelope, EnvelopeOf;
    match ev
    case Create(account, passphrase, cost, salt, dek, code) =>
      if CreateCheck(w.files, account, passphrase, cost).None? {
        CreateSealed(account, passphrase, cost, salt, dek, code);
      }
    case Rotate(account, current, next, salt) =>
      RotateSealed(w.files, account, current, next, salt, ideal);
    case Remove(account) =>
    case Unlock(account, passphrase) =>
      if account in w.files { UnlockSealed(account, passphrase, w.files[account], ideal[account]); }
    case Recover(account, attempt) =>
      if account in w.files { RecoverSealed(account, attempt, w.files[account], ideal[account]); }
  }

  /** Over every run the store answers exactly like the ideal one. */
  lemma {:induction false} StoreRefinesIdeal(evs: seq<Event>, k: nat)
    requires CodesMinted(evs) && k <= |evs|
    ensures Refines(Run(evs, k).files, IdealRun(evs, k))
    ensures k < |evs| ==> Step(Run(evs, k), evs[k]).1 == IdealStep(IdealRun(evs, k), evs[k]).1
  {
    hide Step, IdealStep;
    if k > 0 {
      StoreRefinesIdeal(evs, k - 1);
      StepRefines(Run(evs, k - 1), IdealRun(evs, k - 1), evs[k - 1]);
    }
    if k < |evs| {
      StepRefines(Run(evs, k), IdealRun(evs, k), evs[k]);
    }
  }

  // ----- what the ideal store promises

  /** The passphrase of the last accepted rotation after the create at `from`, or of the create itself. */
  function CurrentPassphrase(evs: seq<Event>, from: nat, k: nat): Bytes
    requires from < k <= |evs| && evs[from].Create?
  {
    if k == from + 1 then evs[from].passphrase
    else if Accepted(evs, k - 1, evs[from].account) then evs[k - 1].next
    else CurrentPassphrase(evs, from, k - 1)
  }

  function AcceptedRotations(evs: seq<Event>, from: nat, k: nat): nat
    requires from < k <= |evs| && evs[from].Create?
  {
    if k == from + 1 then 0
    else AcceptedRotations(evs, from, k - 1) + if Accepted(evs, k - 1, evs[from].account) then 1 else 0
  }

  /** Event i is a rotation of `account` that the store accepted. */
  predicate Accepted(evs: seq<Event>, i: nat, account: AccountId)
    ensures Accepted(evs, i, account) ==> i < |evs| && evs[i].Rotate?
  {
    i < |evs| && evs[i].Rotate? && evs[i].account == account && Step(Run(evs, i), evs[i]).1.Rotated?
  }

  ghost predicate AliveSince(evs: seq<Event>, from: nat, k: nat) {
    && from < k <= |evs| && evs[from].Create? && Step(Run(evs, from), evs[from]).1.Created?
    && forall i :: from < i < k ==> evs[i] != Remove(evs[from].account)
  }

  lemma {:induction false} IdealHolds(evs: seq<Event>, from: nat, k: nat)
    requires CodesMinted(evs) && AliveSince(evs, from, k)
    ensures var c := evs[from]; var ideal := IdealRun(evs, k);
      && c.account in ideal
      && ideal[c.account] == Locked(c.dek, CurrentPassphrase(evs, from, k), c.code, AcceptedRotations(evs, from, k))
  {
    hide Step, IdealStep, CodesMinted;
    StoreRefinesIdeal(evs, k - 1);
    if k > from + 1 {
      IdealHolds(evs, from, k - 1);
      IdealKeeps(IdealRun(evs, k - 1), evs[k - 1], evs[from].account);
    } else {
      IdealCreates(IdealRun(evs, from), evs[from]);
    }
  }

  lemma IdealCreates(ideal: Ideal, ev: Event)
    requires ev.Create? && IdealStep(ideal, ev).1.Created?
    ensures IdealStep(ideal, ev).0 == ideal[ev.account := Locked(ev.dek, ev.passphrase, ev.code, 0)]
  {
  }

  lemma IdealKeeps(ideal: Ideal, ev: Event, account: AccountId)
    requires account in ideal && ev != Remove(account)
    ensures var (ideal', response) := IdealStep(ideal, ev);
      && account in ideal'
      && ideal'[account] ==
           if ev.Rotate? && ev.account == account && response.Rotated?
           then ideal[account].(passphrase := ev.next, rotations := ideal[account].rotations + 1)
           else ideal[account]
  {
  }

  /** The account of an accepted create answers every unlock attempt by the last accepted passphrase
      alone, with the minted key. */
  lemma UnlockAfterRun(evs: seq<Event>, from: nat, k: nat, attempt: Bytes)
    requires CodesMinted(evs) && AliveSince(evs, from, k)
    ensures var c := evs[from];
      UnlockStored(Run(evs, k).files, c.account, attempt) ==
        if attempt == [] then Err(Invalid)
        else if attempt != CurrentPassphrase(evs, from, k) then Err(Auth)
        else Ok(Unlocked(c.account, 1 + AcceptedRotations(evs, from, k), c.dek))
  {
    hide Step, IdealStep, UnlockWith;
    IdealHolds(evs, from, k);
    StoreRefinesIdeal(evs, k);
    var a := evs[from].account;
    UnlockSealed(a, attempt, Run(evs, k).files[a], IdealRun(evs, k)[a]);
  }

  /** A minted recovery code opens the minted key for as long as the account lives, and nothing else does. */
  lemma RecoverAfterRun(evs: seq<Event>, from: nat, k: nat, attempt: Bytes)
    requires CodesMinted(evs) && AliveSince(evs, from, k)
    ensures var c := evs[from];
      RecoverStored(Run(evs, k).files, c.account, attempt) ==
        if c.code != Some(attempt) then Err(Auth)
        else Ok(Unlocked(c.account, 1 + AcceptedRotations(evs, from, k), c.dek))
  {
    hide Step, IdealStep, UnlockWithRecovery;
    IdealHolds(evs, from, k);
    StoreRefinesIdeal(evs, k);
    var a := evs[from].account;
    RecoverSealed(a, attempt, Run(evs, k).files[a], IdealRun(evs, k)[a]);
  }

  // ----- envelopes put together from genuine pieces

  /** Some generation of the history sealed this box. */
  ghost predicate Genuine(history: seq<Generation>, box: Box) {
    exists i :: 0 <= i < |history| && SealedBy(history[i], box)
  }

  ghost predicate SealedBy(g: Generation, box: Box) {
    box == DekBox(g) || box == VerifierBox(g) || Some(box) == RecoveryBox(g)
  }

  ghost predicate Assembled(history: seq<Generation>, e: Envelope) {
    && Genuine(history, e.wrappedDek) && Genuine(history, e.verifier)
    && (e.wrappedDekRecovery.Some? ==> Genuine(history, e.wrappedDekRecovery.value))
  }

  /** Fresh salts: no two generations share one. */
  ghost predicate SaltsDistinct(history: seq<Generation>) {
    forall i, j :: 0 <= i < j < |history| ==> history[i].salt != history[j].salt
  }

  predicate MintsSalt(ev: Event) { ev.Create? || ev.Rotate? }

  /** The random source never repeats a salt. */
  ghost predicate FreshSalts(evs: seq<Event>) {
    forall i, j :: 0 <= i < j < |evs| && MintsSalt(evs[i]) && MintsSalt(evs[j]) ==> evs[i].newSalt != evs[j].newSalt
  }

  ghost predicate SaltUsed(evs: seq<Event>, k: nat, salt: Salt)
    requires k <= |evs|
  {
    exists i :: 0 <= i < k && MintsSalt(evs[i]) && evs[i].newSalt == salt
  }

  /** A run over fresh salts never seals two generations under one salt. */
  lemma {:induction false} RunSaltsDistinct(evs: seq<Event>, k: nat)
    requires FreshSalts(evs) && k <= |evs|
    ensures SaltsDistinct(Run(evs, k).history)
    ensures forall h :: 0 <= h < |Run(evs, k).history| ==> SaltUsed(evs, k, Run(evs, k).history[h].salt)
  {
    hide Step;
    if k > 0 {
      RunSaltsDistinct(evs, k - 1);
      var before, after := Run(evs, k - 1).history, Run(evs, k).history;
      StepSeals(Run(evs, k - 1), evs[k - 1]);
      forall h | 0 <= h < |after| ensures SaltUsed(evs, k, after[h].salt) {
        if h < |before| { assert SaltUsed(evs, k - 1, before[h].salt); }
      }
    }
  }

  lemma StepSeals(w: World, ev: Event)
    ensures var w' := Step(w, ev).0;
      || w'.history == w.history
      || (MintsSalt(ev) && |w'.history| == |w.history| + 1 && w'.history[..|w.history|] == w.history
          && w'.history[|w.history|].salt == ev.newSalt)
  {
    hide RotateEnvelope, UnlockWith, UnlockWithRecovery;
  }

  lemma DekSlotOnlyTakesDekBoxes(g: Generation, key: Kek, account: AccountId, keyId: KeyId, box: Box)
    requires SealedBy(g, box) && Open(key, AadFor(account, keyId, PURPOSE_DEK), box).Some?
    ensures box == DekBox(g) && g.account == account && g.keyId == keyId
    ensures key == PassphraseKek(g.passphrase, g.salt, g.cost)
  {
    hide AadFor;
    var purpose :=
      if box == DekBox(g) then PURPOSE_DEK
      else if box == VerifierBox(g) then PURPOSE_VERIFIER
      else PURPOSE_RECOVERY;
    AadInjective(account, keyId, PURPOSE_DEK, g.account, g.keyId, purpose);
  }

  lemma RecoverySlotOnlyTakesRecoveryBoxes(g: Generation, key: Kek, account: AccountId, keyId: KeyId, box: Box)
    requires SealedBy(g, box) && Open(key, AadFor(account, keyId, PURPOSE_RECOVERY), box).Some?
    ensures Some(box) == RecoveryBox(g) && g.account == account && g.keyId == keyId
    ensures key == RecoveryKek(g.code.value, g.salt, g.cost)
  {
    hide AadFor;
    var purpose :=
      if box == DekBox(g) then PURPOSE_DEK
      else if box == VerifierBox(g) then PURPOSE_VERIFIER
      else PURPOSE_RECOVERY;
    AadInjective(account, keyId, PURPOSE_RECOVERY, g.account, g.keyId, purpose);
  }

  /** Any envelope whose boxes were sealed at some time for some account, in any slots, under any salt,
      cost and version: if a passphrase unlocks it, the generation whose salt it carries was sealed for
      that account and version under that passphrase and cost, and the result is that generation's key. */
  lemma AssembledUnlock(history: seq<Generation>, e: Envelope, account: AccountId, passphrase: Bytes)
    requires SaltsDistinct(history) && Assembled(history, e)
    requires UnlockWith(account, passphrase, e).Ok?
    ensures exists i :: 0 <= i < |history| && history[i].salt == e.salt
    ensures forall i :: 0 <= i < |history| && history[i].salt == e.salt ==>
      && UnlockWith(account, passphrase, e).value == Unlocked(history[i].account, history[i].keyId, history[i].dek)
      && history[i].account == account && history[i].passphrase == passphrase && history[i].cost == e.cost
  {
    hide AadFor;
    var kek := PassphraseKek(passphrase, e.salt, e.cost);
    var i :| 0 <= i < |history| && SealedBy(history[i], e.wrappedDek);
    DekSlotOnlyTakesDekBoxes(history[i], kek, account, e.keyId, e.wrappedDek);
  }

  lemma AssembledRecovery(history: seq<Generation>, e: Envelope, account: AccountId, code: Bytes)
    requires SaltsDistinct(history) && Assembled(history, e)
    requires UnlockWithRecovery(account, code, e).Ok?
    ensures exists i :: 0 <= i < |history| && history[i].salt == e.salt
    ensures forall i :: 0 <= i < |history| && history[i].salt == e.salt ==>
      && UnlockWithRecovery(account, code, e).value == Unlocked(history[i].account, history[i].keyId, history[i].dek)
      && history[i].account == account && history[i].code == Some(code) && history[i].cost == e.cost
  {
    hide AadFor;
    var kek := RecoveryKek(code, e.salt, e.cost);
    var i :| 0 <= i < |history| && SealedBy(history[i], e.wrappedDekRecovery.value);
    RecoverySlotOnlyTakesRecoveryBoxes(history[i], kek, account, e.keyId, e.wrappedDekRecovery.value);
  }

  /** Every stored envelope is genuine: the history of a run records all that was ever sealed. */
  lemma {:induction false} StoredIsGenuine(evs: seq<Event>, k: nat, account: AccountId)
    requires k <= |evs| && account in Run(evs, k).files && CodesMinted(evs)
    ensures exists i :: 0 <= i < |Run(evs, k).history| && Run(evs, k).files[account] == EnvelopeOf(Run(evs, k).history[i])
  {
    hide Step, CodesMinted, EnvelopeOf;
    if k > 0 {
      var w, ev := Run(evs, k - 1), evs[k - 1];
      StoreRefinesIdeal(evs, k - 1);
      StepRecords(w, IdealRun(evs, k - 1), ev);
      if account in w.files && Step(w, ev).0.files[account] == w.files[account] {
        StoredIsGenuine(evs, k - 1, account);
        var i :| 0 <= i < |w.history| && w.files[account] == EnvelopeOf(w.history[i]);
        assert Run(evs, k).history[i] == w.history[i];
      } else {
        assert Run(evs, k).files[account] == EnvelopeOf(Run(evs, k).history[|w.history|]);
      }
    }
  }

  lemma StepRecords(w: World, ideal: Ideal, ev: Event)
    requires Refines(w.files, ideal)
    ensures var w' := Step(w, ev).0;
      && w.history <= w'.history
      && forall a :: a in w'.files ==>
           || (a in w.files && w'.files[a] == w.files[a])
           || (|w'.history| == |w.history| + 1 && w'.files[a] == EnvelopeOf(w'.history[|w.history|]))
  {
    if ev.Rotate? && ev.account in w.files {
      UnlockSealed(ev.account, ev.current, w.files[ev.account], ideal[ev.account]);
    }
  }

  /** For any files: a passphrase yields a key exactly when key and verifier are sealed under it. */
  lemma StoredUnlocksIff(files: Files, account: AccountId, passphrase: Bytes, u: Unlocked)
    ensures UnlockStored(files, account, passphrase) == Ok(u) <==>
      && account in files
      && var e := files[account];
         var kek := PassphraseKek(passphrase, e.salt, e.cost);
         && e.formatVersion == 1 && e.kdfId == 1 && e.accountId == account && e.cost.Valid() && passphrase != []
         && u.accountId == account && u.keyId == e.keyId && |u.dek| == 32
         && e.verifier == Box(kek, AadFor(account, e.keyId, PURPOSE_VERIFIER), VERIFIER)
         && e.wrappedDek == Box(kek, AadFor(account, e.keyId, PURPOSE_DEK), u.dek)
  {
    hide AadFor;
  }

  /** And a code exactly when the key is sealed under that, whatever key derivation the file names. */
  lemma StoredRecoversIff(files: Files, account: AccountId, code: Bytes, u: Unlocked)
    ensures RecoverStored(files, account, code) == Ok(u) <==>
      && account in files
      && var e := files[account];
         && e.formatVersion == 1 && e.accountId == account && e.cost.Valid() && |code| >= 16
         && u.accountId == account && u.keyId == e.keyId && |u.dek| == 32
         && e.wrappedDekRecovery
              == Some(Box(RecoveryKek(code, e.salt, e.cost), AadFor(account, e.keyId, PURPOSE_RECOVERY), u.dek))
  {
    hide AadFor;
  }
}
