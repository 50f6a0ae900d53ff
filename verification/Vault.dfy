/** Tenant metadata and passphrase changes (`vault.rs`), over symbolic boxes. */
module Vault {
  import opened Text
  import opened SealedBox

  type TenantId = t: Bytes | |t| == 16 witness seq(16, i => 1)
  type KeyId = k: nat | k < 0x1_0000

  const FORMAT_VERSION: nat := 1
  const VAULT_CODE_LEN: nat := 24
  /** `b"teleforge-agent-unlock-verifier-v1"` */
  const VERIFIER: Bytes := [
    116, 101, 108, 101, 102, 111, 114, 103, 101, 45, 97, 103, 101, 110, 116,
    45, 117, 110, 108, 111, 99, 107, 45, 118, 101, 114, 105, 102, 105, 101, 114, 45, 118, 49]
  /** `b"tf/agent/wrap\0"` */
  const WRAP_LABEL: Bytes := [116, 102, 47, 97, 103, 101, 110, 116, 47, 119, 114, 97, 112, 0]

  datatype Meta = Meta(
    formatVersion: nat, tenantId: TenantId, cost: Cost, salt: Salt, keyId: KeyId,
    wrappedDek: Box, wrappedDekRecovery: Option<Box>, verifier: Box, lastUnlockAt: Option<nat>)

  datatype Unlocked = Unlocked(tenantId: TenantId, keyId: KeyId, dek: Bytes)

  function WrapAad(tenant: TenantId, keyId: KeyId): Bytes {
    WRAP_LABEL + tenant + BigEndian16(keyId)
  }

  lemma WrapAadInjective(t: TenantId, a: KeyId, u: TenantId, b: KeyId)
    requires WrapAad(t, a) == WrapAad(u, b)
    ensures t == u && a == b
  {
    var n := |WRAP_LABEL|;
    var l, r := WrapAad(t, a), WrapAad(u, b);
    assert t == l[n..n + 16] == r[n..n + 16] == u;
    assert BigEndian16(a) == l[n + 16..] == r[n + 16..] == BigEndian16(b);
    BigEndian16Injective(a, b);
  }

  /** What the associated data holds, and where. */
  lemma WrapAadReads(tenant: TenantId, keyId: KeyId)
    ensures var aad := WrapAad(tenant, keyId);
      && |aad| == 32 && aad[..14] == WRAP_LABEL && aad[14..30] == tenant
      && aad[30] as int * 256 + aad[31] == keyId
  {
    BigEndian16Reads(keyId);
    var aad := WrapAad(tenant, keyId);
    assert aad[30..32] == BigEndian16(keyId);
    assert aad[30] == aad[30..32][0] && aad[31] == aad[30..32][1];
  }

  /** `derive_kek` */
  function DeriveKek(p: Bytes, salt: Salt, cost: Cost): Result<Kek> {
    if !cost.Valid() then Err(Crypto)
    else if !ValidPassphrase(p) then Err(Invalid)
    else Ok(PassphraseKek(p, salt, cost))
  }

  function CreateTenant(tenant: TenantId, passphrase: Bytes, cost: Cost, salt: Salt, dek: Dek,
                        code: Option<Bytes>): Result<Meta> {
    if !ValidPassphrase(passphrase) then Err(Invalid)
    else if !cost.Valid() then Err(Crypto)
    else
      var kek := PassphraseKek(passphrase, salt, cost);
      var aad := WrapAad(tenant, 1);
      Ok(Meta(FORMAT_VERSION, tenant, cost, salt, 1, Seal(kek, aad, dek),
              if code.None? then None else Some(Seal(RecoveryKek(code.value, salt, cost), aad, dek)),
              Seal(kek, aad, VERIFIER), None))
  }

  function Unlock(m: Meta, passphrase: Bytes): Result<Unlocked> {
    if m.formatVersion != FORMAT_VERSION then Err(Invalid)
    else
      match DeriveKek(passphrase, m.salt, m.cost)
      case Err(error) => Err(error)
      case Ok(kek) =>
        var aad := WrapAad(m.tenantId, m.keyId);
        match Open(kek, aad, m.verifier)
        case None => Err(Auth)
        case Some(plain) =>
          if plain != VERIFIER then Err(Auth)
          else
            match Open(kek, aad, m.wrappedDek)
            case None => Err(Crypto)
            case Some(dek) =>
              if |dek| != KEY_LEN then Err(Crypto) else Ok(Unlocked(m.tenantId, m.keyId, dek))
  }

  function UnlockWithRecovery(m: Meta, code: Bytes): Result<Unlocked> {
    if m.wrappedDekRecovery.None? then Err(Auth)
    else
      match DeriveRecovery(code, m.salt, m.cost)
      case Err(error) => Err(error)
      case Ok(kek) =>
        match Open(kek, WrapAad(m.tenantId, m.keyId), m.wrappedDekRecovery.value)
        case None => Err(Auth)
        case Some(dek) => Ok(Unlocked(m.tenantId, m.keyId, dek))
  }

  /** One request to change the passphrase; the random source supplies the salt. */
  datatype Change = Change(passphrase: Bytes, newSalt: Salt, now: nat)

  /** None is `Ok(())`. The two wraps are replaced before a recovery envelope is refused. */
  function Changed(m: Meta, dek: Bytes, c: Change): (Meta, Option<Error>) {
    if !ValidPassphrase(c.passphrase) then (m, Some(Invalid))
    else if !m.cost.Valid() then (m, Some(Crypto))
    else if m.keyId + 1 >= 0x1_0000 then (m, Some(Crypto))
    else
      var kek := PassphraseKek(c.passphrase, c.newSalt, m.cost);
      var aad := WrapAad(m.tenantId, m.keyId + 1);
      var m' := m.(wrappedDek := Seal(kek, aad, dek), verifier := Seal(kek, aad, VERIFIER));
      if m.wrappedDekRecovery.Some? then (m', Some(Unsupported))
      else (m'.(salt := c.newSalt, keyId := m.keyId + 1, lastUnlockAt := Some(c.now)), None)
  }

  class TenantMeta {
    var formatVersion: nat
    var tenantId: TenantId
    var cost: Cost
    var salt: Salt
    var keyId: KeyId
    var wrappedDek: Box
    var wrappedDekRecovery: Option<Box>
    var verifier: Box
    var lastUnlockAt: Option<nat>

    function State(): Meta reads this {
      Meta(formatVersion, tenantId, cost, salt, keyId, wrappedDek, wrappedDekRecovery, verifier, lastUnlockAt)
    }

    constructor (m: Meta)
      ensures State() == m
    {
      formatVersion, tenantId, cost, salt, keyId := m.formatVersion, m.tenantId, m.cost, m.salt, m.keyId;
      wrappedDek, wrappedDekRecovery, verifier := m.wrappedDek, m.wrappedDekRecovery, m.verifier;
      lastUnlockAt := m.lastUnlockAt;
    }

    /** `change_passphrase`, assignment by assignment. */
    method ChangePassphrase(dek: Bytes, c: Change) returns (error: Option<Error>)
      modifies this
      ensures (State(), error) == Changed(old(State()), dek, c)
    {
      if !ValidPassphrase(c.passphrase) { return Some(Invalid); }
      var kek := DeriveKek(c.passphrase, c.newSalt, cost);
      if kek.Err? { return Some(kek.error); }
      if keyId + 1 >= 0x1_0000 { return Some(Crypto); }
      var nextId: KeyId := keyId + 1;
      var aad := WrapAad(tenantId, nextId);
      wrappedDek := Seal(kek.value, aad, dek);
      verifier := Seal(kek.value, aad, VERIFIER);
      if wrappedDekRecovery.Some? {
        return Some(Unsupported);
      }
      salt := c.newSalt;
      keyId := nextId;
      lastUnlockAt := Some(c.now);
      return None;
    }
  }

  // ----- every meta reachable by changes made with the tenant's own key

  function After(m: Meta, dek: Bytes, cs: seq<Change>, k: nat): Meta
    requires k <= |cs|
  {
    if k == 0 then m else Changed(After(m, dek, cs, k - 1), dek, cs[k - 1]).0
  }

  predicate Accepts(m: Meta, dek: Bytes, cs: seq<Change>, i: nat)
    requires i < |cs|
  {
    Changed(After(m, dek, cs, i), dek, cs[i]).1.None?
  }

  /** The last accepted passphrase among the first k changes, or the one of `create_tenant`. */
  function CurrentPassphrase(m: Meta, dek: Bytes, first: Bytes, cs: seq<Change>, k: nat): Bytes
    requires k <= |cs|
  {
    if k == 0 then first
    else if Accepts(m, dek, cs, k - 1) then cs[k - 1].passphrase
    else CurrentPassphrase(m, dek, first, cs, k - 1)
  }

  function AcceptedChanges(m: Meta, dek: Bytes, cs: seq<Change>, k: nat): nat
    requires k <= |cs|
  {
    if k == 0 then 0 else AcceptedChanges(m, dek, cs, k - 1) + if Accepts(m, dek, cs, k - 1) then 1 else 0
  }

  /** The two wraps are under `passphrase` for key version `keyId` and this salt. */
  ghost predicate WrapsUnder(m: Meta, passphrase: Bytes, salt: Salt, keyId: KeyId, dek: Bytes) {
    var kek := PassphraseKek(passphrase, salt, m.cost);
    && m.wrappedDek == Seal(kek, WrapAad(m.tenantId, keyId), dek)
    && m.verifier == Seal(kek, WrapAad(m.tenantId, keyId), VERIFIER)
  }

  /** A tenant without a recovery code: the last accepted passphrase opens the key, nothing else does,
      and the key version counts the accepted changes. */
  lemma {:induction false} WithoutRecovery(
      tenant: TenantId, first: Bytes, cost: Cost, salt: Salt, dek: Dek, cs: seq<Change>, k: nat, attempt: Bytes)
    requires k <= |cs| && CreateTenant(tenant, first, cost, salt, dek, None).Ok?
    ensures var m := CreateTenant(tenant, first, cost, salt, dek, None).value;
      var now := After(m, dek, cs, k);
      && now.keyId == 1 + AcceptedChanges(m, dek, cs, k)
      && Unlock(now, attempt) ==
           if |attempt| < 12 then Err(Invalid)
           else if attempt != CurrentPassphrase(m, dek, first, cs, k) then Err(Auth)
           else Ok(Unlocked(tenant, now.keyId, dek))
  {
    var m := CreateTenant(tenant, first, cost, salt, dek, None).value;
    WithoutRecoveryState(m, first, dek, cs, k);
  }

  lemma {:induction false} WithoutRecoveryState(m: Meta, first: Bytes, dek: Dek, cs: seq<Change>, k: nat)
    requires k <= |cs| && m.wrappedDekRecovery.None? && m.keyId == 1
    requires WrapsUnder(m, first, m.salt, 1, dek)
    ensures var now := After(m, dek, cs, k);
      && now.formatVersion == m.formatVersion && now.tenantId == m.tenantId && now.cost == m.cost
      && now.wrappedDekRecovery.None? && now.keyId == 1 + AcceptedChanges(m, dek, cs, k)
      && WrapsUnder(now, CurrentPassphrase(m, dek, first, cs, k), now.salt, now.keyId, dek)
  {
    hide WrapAad;
    if k > 0 { WithoutRecoveryState(m, first, dek, cs, k - 1); }
  }

  /** Without a recovery code a change is accepted exactly when the passphrase is long enough and the
      key version does not overflow. */
  lemma AcceptedIff(tenant: TenantId, first: Bytes, cost: Cost, salt: Salt, dek: Dek, cs: seq<Change>, i: nat)
    requires i < |cs| && CreateTenant(tenant, first, cost, salt, dek, None).Ok?
    ensures var m := CreateTenant(tenant, first, cost, salt, dek, None).value;
      Accepts(m, dek, cs, i) <==> |cs[i].passphrase| >= 12 && AcceptedChanges(m, dek, cs, i) < 0xFFFE
  {
    var m := CreateTenant(tenant, first, cost, salt, dek, None).value;
    WithoutRecoveryState(m, first, dek, cs, i);
  }

  /** Why a change of any meta is refused. */
  lemma RefusedIff(m: Meta, dek: Bytes, c: Change)
    ensures var error := Changed(m, dek, c).1;
      && (error == Some(Invalid) <==> |c.passphrase| < 12)
      && (error == Some(Unsupported) <==>
            |c.passphrase| >= 12 && m.cost.Valid() && m.keyId < 0xFFFF && m.wrappedDekRecovery.Some?)
      && (error == Some(Crypto) <==> |c.passphrase| >= 12 && (!m.cost.Valid() || m.keyId == 0xFFFF))
      && (error.None? <==> Changed(m, dek, c).0.keyId == m.keyId + 1)
  {
  }

  /** The time kept is that of the last accepted change. */
  lemma {:induction false} LastChangeIs(m: Meta, dek: Bytes, cs: seq<Change>, k: nat)
    requires k <= |cs|
    ensures forall i :: 0 <= i < k && Accepts(m, dek, cs, i) && NoneAccepted(m, dek, cs, i + 1, k) ==>
      After(m, dek, cs, k).lastUnlockAt == Some(cs[i].now)
    ensures NoneAccepted(m, dek, cs, 0, k) ==> After(m, dek, cs, k).lastUnlockAt == m.lastUnlockAt
  {
    hide Changed;
    if k > 0 {
      LastChangeIs(m, dek, cs, k - 1);
      ChangeTime(After(m, dek, cs, k - 1), dek, cs[k - 1]);
      forall i | 0 <= i < k && Accepts(m, dek, cs, i) && NoneAccepted(m, dek, cs, i + 1, k)
        ensures After(m, dek, cs, k).lastUnlockAt == Some(cs[i].now) {
        if i < k - 1 {
          assert NoneAccepted(m, dek, cs, i + 1, k - 1) && !Accepts(m, dek, cs, k - 1);
        }
      }
    }
  }

  lemma ChangeTime(m: Meta, dek: Bytes, c: Change)
    ensures var (now, error) := Changed(m, dek, c);
      now.lastUnlockAt == if error.None? then Some(c.now) else m.lastUnlockAt
  {
    hide WrapAad;
  }

  predicate NoneAccepted(m: Meta, dek: Bytes, cs: seq<Change>, from: nat, to: nat)
    requires from <= to <= |cs|
  {
    forall i :: from <= i < to ==> !Accepts(m, dek, cs, i)
  }

  /** A tenant begins with a passphrase and a cost that are enough, under key version 1. */
  lemma CreatedIff(tenant: TenantId, first: Bytes, cost: Cost, salt: Salt, dek: Dek, code: Option<Bytes>)
    ensures var r := CreateTenant(tenant, first, cost, salt, dek, code);
      && (r.Ok? <==> |first| >= 12 && cost.mCostKib >= 32768 && cost.tCost >= 2 && cost.pCost >= 1)
      && (r.Err? ==> r.error == if |first| < 12 then Invalid else Crypto)
      && (r.Ok? ==> r.value.tenantId == tenant && r.value.salt == salt && r.value.cost == cost && r.value.keyId == 1
                    && r.value.lastUnlockAt == None && (r.value.wrappedDekRecovery.Some? <==> code.Some?))
  {
  }

  /** For any meta: a code yields a key exactly when the meta has that key sealed under that code, whatever its length. */
  lemma RecoversIff(m: Meta, code: Bytes, u: Unlocked)
    ensures UnlockWithRecovery(m, code) == Ok(u) <==>
      && m.cost.Valid() && |code| >= 16 && u.tenantId == m.tenantId && u.keyId == m.keyId
      && m.wrappedDekRecovery == Some(Box(RecoveryKek(code, m.salt, m.cost), WrapAad(m.tenantId, m.keyId), u.dek))
  {
  }

  /** For any meta: a passphrase yields a key exactly when key and verifier are sealed under it. */
  lemma UnlocksIff(m: Meta, passphrase: Bytes, u: Unlocked)
    ensures var kek, aad := PassphraseKek(passphrase, m.salt, m.cost), WrapAad(m.tenantId, m.keyId);
      Unlock(m, passphrase) == Ok(u) <==>
      && m.formatVersion == 1 && m.cost.Valid() && |passphrase| >= 12 && u.tenantId == m.tenantId && u.keyId == m.keyId
      && m.verifier == Box(kek, aad, VERIFIER) && m.wrappedDek == Box(kek, aad, u.dek) && |u.dek| == 32
  {
  }

  /** Some change among the first k got past the length check. */
  ghost predicate Attempted(cs: seq<Change>, k: nat)
    requires k <= |cs|
  {
    exists i :: 0 <= i < k && |cs[i].passphrase| >= 12
  }

  /** A tenant with a recovery code: every change is refused and the code keeps opening the key, but the
      first long-enough change already took the passphrase away, and no passphrase opens the meta again. */
  lemma WithRecovery(tenant: TenantId, first: Bytes, cost: Cost, salt: Salt, dek: Dek, code: Bytes,
                     cs: seq<Change>, k: nat, attempt: Bytes)
    requires k <= |cs| && |code| == VAULT_CODE_LEN && CreateTenant(tenant, first, cost, salt, dek, Some(code)).Ok?
    ensures var m := CreateTenant(tenant, first, cost, salt, dek, Some(code)).value;
      var now := After(m, dek, cs, k);
      && (forall i :: 0 <= i < k ==> !Accepts(m, dek, cs, i))
      && UnlockWithRecovery(now, code) == Ok(Unlocked(tenant, 1, dek))
      && Unlock(now, attempt) ==
           if |attempt| < 12 then Err(Invalid)
           else if Attempted(cs, k) || attempt != first then Err(Auth)
           else Ok(Unlocked(tenant, 1, dek))
  {
    var m := CreateTenant(tenant, first, cost, salt, dek, Some(code)).value;
    WithRecoveryState(m, first, dek, cs, k);
    if Attempted(cs, k) && WrapAad(tenant, 1) == WrapAad(tenant, 2) {
      WrapAadInjective(tenant, 1, tenant, 2);
    }
  }

  lemma {:induction false} WithRecoveryState(m: Meta, first: Bytes, dek: Dek, cs: seq<Change>, k: nat)
    requires k <= |cs| && m.wrappedDekRecovery.Some? && m.cost.Valid() && m.keyId == 1
    requires WrapsUnder(m, first, m.salt, 1, dek)
    ensures var now := After(m, dek, cs, k);
      && now == m.(wrappedDek := now.wrappedDek, verifier := now.verifier)
      && (forall i :: 0 <= i < k ==> !Accepts(m, dek, cs, i))
      && (!Attempted(cs, k) ==> now == m)
      && (Attempted(cs, k) ==> exists p: Bytes, s: Salt :: WrapsUnder(now, p, s, 2, dek))
  {
    hide WrapAad;
    if k > 0 {
      WithRecoveryState(m, first, dek, cs, k - 1);
      var c := cs[k - 1];
      if ValidPassphrase(c.passphrase) {
        assert WrapsUnder(After(m, dek, cs, k), c.passphrase, c.newSalt, 2, dek);
      }
      assert Attempted(cs, k) <==> Attempted(cs, k - 1) || ValidPassphrase(c.passphrase);
    }
  }

  // ----- metas put together from genuine boxes

  /** One wrapping of a tenant's key, by a create or by a change, refused or not. */
  datatype Generation = Generation(
    tenantId: TenantId, keyId: KeyId, salt: Salt, cost: Cost, passphrase: Bytes, dek: Dek, code: Option<Bytes>)

  function DekBox(g: Generation): Box {
    Seal(PassphraseKek(g.passphrase, g.salt, g.cost), WrapAad(g.tenantId, g.keyId), g.dek)
  }

  function VerifierBox(g: Generation): Box {
    Seal(PassphraseKek(g.passphrase, g.salt, g.cost), WrapAad(g.tenantId, g.keyId), VERIFIER)
  }

  function RecoveryBox(g: Generation): Option<Box> {
    match g.code
    case None => None
    case Some(code) => Some(Seal(RecoveryKek(code, g.salt, g.cost), WrapAad(g.tenantId, g.keyId), g.dek))
  }

  ghost predicate SealedBy(g: Generation, box: Box) {
    box == DekBox(g) || box == VerifierBox(g) || Some(box) == RecoveryBox(g)
  }

  ghost predicate Genuine(history: seq<Generation>, box: Box) {
    exists i :: 0 <= i < |history| && SealedBy(history[i], box)
  }

  ghost predicate Assembled(history: seq<Generation>, m: Meta) {
    && Genuine(history, m.wrappedDek) && Genuine(history, m.verifier)
    && (m.wrappedDekRecovery.Some? ==> Genuine(history, m.wrappedDekRecovery.value))
  }

  /** Fresh salts: no two generations share one. */
  ghost predicate SaltsDistinct(history: seq<Generation>) {
    forall i, j :: 0 <= i < j < |history| ==> history[i].salt != history[j].salt
  }

  /** The wrapped key and the verifier are sealed alike, so it is the length of the plain text that tells them apart. */
  lemma OpensToKey(g: Generation, passphrase: Bytes, salt: Salt, cost: Cost, tenant: TenantId, keyId: KeyId, box: Box)
    requires SealedBy(g, box)
    requires var plain := Open(PassphraseKek(passphrase, salt, cost), WrapAad(tenant, keyId), box);
      plain.Some? && |plain.value| == KEY_LEN
    ensures box == DekBox(g) && g.tenantId == tenant && g.keyId == keyId
    ensures g.passphrase == passphrase && g.salt == salt && g.cost == cost
  {
    hide WrapAad;
    WrapAadInjective(tenant, keyId, g.tenantId, g.keyId);
  }

  lemma OpensToCode(g: Generation, code: Bytes, salt: Salt, cost: Cost, tenant: TenantId, keyId: KeyId, box: Box)
    requires SealedBy(g, box) && Open(RecoveryKek(code, salt, cost), WrapAad(tenant, keyId), box).Some?
    ensures Some(box) == RecoveryBox(g) && g.tenantId == tenant && g.keyId == keyId
    ensures g.code == Some(code) && g.salt == salt && g.cost == cost
  {
    hide WrapAad;
    WrapAadInjective(tenant, keyId, g.tenantId, g.keyId);
  }

  /** Any meta whose boxes were sealed at some time for some tenant, in any slots, under any salt, cost and version:
      if a passphrase opens it, the generation whose salt it carries was sealed for that tenant and version under
      that passphrase and cost, and the result is that generation's key. */
  lemma AssembledUnlock(history: seq<Generation>, m: Meta, passphrase: Bytes)
    requires SaltsDistinct(history) && Assembled(history, m) && Unlock(m, passphrase).Ok?
    ensures exists i :: 0 <= i < |history| && history[i].salt == m.salt
    ensures forall i :: 0 <= i < |history| && history[i].salt == m.salt ==>
      && Unlock(m, passphrase).value == Unlocked(history[i].tenantId, history[i].keyId, history[i].dek)
      && history[i].tenantId == m.tenantId && history[i].passphrase == passphrase && history[i].cost == m.cost
  {
    hide WrapAad;
    var i :| 0 <= i < |history| && SealedBy(history[i], m.wrappedDek);
    OpensToKey(history[i], passphrase, m.salt, m.cost, m.tenantId, m.keyId, m.wrappedDek);
  }

  lemma AssembledRecovery(history: seq<Generation>, m: Meta, code: Bytes)
    requires SaltsDistinct(history) && Assembled(history, m) && UnlockWithRecovery(m, code).Ok?
    ensures exists i :: 0 <= i < |history| && history[i].salt == m.salt
    ensures forall i :: 0 <= i < |history| && history[i].salt == m.salt ==>
      && UnlockWithRecovery(m, code).value == Unlocked(history[i].tenantId, history[i].keyId, history[i].dek)
      && history[i].tenantId == m.tenantId && history[i].code == Some(code) && history[i].cost == m.cost
  {
    hide WrapAad;
    var i :| 0 <= i < |history| && SealedBy(history[i], m.wrappedDekRecovery.value);
    OpensToCode(history[i], code, m.salt, m.cost, m.tenantId, m.keyId, m.wrappedDekRecovery.value);
  }

  /** What is sealed by a meta's own first wrapping and its first `k` changes. */
  function Sealings(m: Meta, first: Generation, dek: Dek, cs: seq<Change>, k: nat): seq<Generation>
    requires k <= |cs|
  {
    if k == 0 then [first]
    else
      var before, c := After(m, dek, cs, k - 1), cs[k - 1];
      Sealings(m, first, dek, cs, k - 1)
      + if ValidPassphrase(c.passphrase) && before.cost.Valid() && before.keyId + 1 < 0x1_0000
        then [Generation(before.tenantId, before.keyId + 1, c.newSalt, before.cost, c.passphrase, dek, None)]
        else []
  }

  lemma MoreIsGenuine(history: seq<Generation>, more: seq<Generation>, box: Box)
    requires Genuine(history, box)
    ensures Genuine(history + more, box)
  {
    hide SealedBy;
    var i :| 0 <= i < |history| && SealedBy(history[i], box);
    assert SealedBy((history + more)[i], box);
  }

  /** Every meta that changes lead to, accepted or refused, is put together from what they sealed. */
  lemma {:induction false} ChangesAreAssembled(m: Meta, first: Generation, dek: Dek, cs: seq<Change>, k: nat)
    requires k <= |cs| && m.wrappedDek == DekBox(first) && m.verifier == VerifierBox(first)
    requires m.wrappedDekRecovery == RecoveryBox(first)
    ensures After(m, dek, cs, k).wrappedDekRecovery == m.wrappedDekRecovery
    ensures Assembled(Sealings(m, first, dek, cs, k), After(m, dek, cs, k))
  {
    hide WrapAad, Genuine;
    if k == 0 {
      assert [] + [first] == [first];
      LastIsGenuine([], first, m.wrappedDek);
      LastIsGenuine([], first, m.verifier);
      if m.wrappedDekRecovery.Some? { LastIsGenuine([], first, m.wrappedDekRecovery.value); }
    } else {
      ChangesAreAssembled(m, first, dek, cs, k - 1);
      var before, t := After(m, dek, cs, k - 1), After(m, dek, cs, k);
      var history, all := Sealings(m, first, dek, cs, k - 1), Sealings(m, first, dek, cs, k);
      var more := all[|history|..];
      assert all == history + more;
      MoreIsGenuine(history, more, before.wrappedDek);
      MoreIsGenuine(history, more, before.verifier);
      if m.wrappedDekRecovery.Some? { MoreIsGenuine(history, more, m.wrappedDekRecovery.value); }
      if more != [] {
        LastIsGenuine(history, more[0], t.wrappedDek);
        LastIsGenuine(history, more[0], t.verifier);
      }
    }
  }

  lemma LastIsGenuine(history: seq<Generation>, g: Generation, box: Box)
    requires SealedBy(g, box)
    ensures Genuine(history + [g], box)
  {
    hide SealedBy;
    assert SealedBy((history + [g])[|history|], box);
  }

  /** The verifier in the place of the wrapped key opens, and is refused for its length alone; the wrapped key in the
      place of the verifier opens, and is not the verifier's text. */
  lemma SwappedWrapsRefused(m: Meta, g: Generation)
    requires m.formatVersion == FORMAT_VERSION && m.cost.Valid() && ValidPassphrase(g.passphrase)
    requires m.tenantId == g.tenantId && m.keyId == g.keyId && m.salt == g.salt && m.cost == g.cost
    ensures Unlock(m.(wrappedDek := DekBox(g), verifier := VerifierBox(g)), g.passphrase)
      == Ok(Unlocked(g.tenantId, g.keyId, g.dek))
    ensures Unlock(m.(wrappedDek := VerifierBox(g), verifier := VerifierBox(g)), g.passphrase) == Err(Crypto)
    ensures Unlock(m.(wrappedDek := DekBox(g), verifier := DekBox(g)), g.passphrase) == Err(Auth)
  {
    hide WrapAad;
    assert |VERIFIER| == 34;
  }
}
