/** Symbolic key derivation and authenticated encryption: a KEK is a free constructor, and a
    sealed box opens only under the key and the associated data it was sealed with. */
module SealedBox {
  import opened Octets
  import opened Text

  type Bytes = seq<byte>

  const KEY_LEN: nat := 32
  const SALT_LEN: nat := 32
  const RECOVERY_CODE_LEN: nat := 16
  const MIN_PASSPHRASE_BYTES: nat := 12

  /** What the random source mints. */
  type Salt = s: Bytes | |s| == SALT_LEN witness seq(SALT_LEN, i => 0)
  type Dek = d: Bytes | |d| == KEY_LEN witness seq(KEY_LEN, i => 0)

  datatype Cost = Cost(mCostKib: nat, tCost: nat, pCost: nat) {
    predicate Valid() { mCostKib >= 32768 && tCost >= 2 && pCost >= 1 }
  }

  datatype Kek =
    | PassphraseKek(passphrase: Bytes, salt: Salt, cost: Cost)
    | RecoveryKek(code: Bytes, salt: Salt, cost: Cost)

  datatype Box = Box(key: Kek, aad: Bytes, plain: Bytes)

  datatype Error = Invalid | Auth | Crypto | Unsupported | Io
  datatype Result<+T> = Ok(value: T) | Err(error: Error)

  function Seal(key: Kek, aad: Bytes, plain: Bytes): Box { Box(key, aad, plain) }

  function Open(key: Kek, aad: Bytes, box: Box): Option<Bytes> {
    if box.key == key && box.aad == aad then Some(box.plain) else None
  }

  predicate ValidPassphrase(p: Bytes) { |p| >= MIN_PASSPHRASE_BYTES }

  /** `derive_kek_with` */
  function Derive(p: Bytes, salt: Salt, cost: Cost): Result<Kek> {
    if !cost.Valid() then Err(Crypto)
    else if p == [] then Err(Invalid)
    else Ok(PassphraseKek(p, salt, cost))
  }

  /** `derive_recovery_kek` */
  function DeriveRecovery(code: Bytes, salt: Salt, cost: Cost): Result<Kek> {
    if !cost.Valid() then Err(Crypto)
    else if |code| < 16 then Err(Invalid)
    else Ok(RecoveryKek(code, salt, cost))
  }

  /** `u16::to_be_bytes` */
  function BigEndian16(n: nat): Bytes
    requires n < 0x1_0000
  {
    [n / 256, n % 256]
  }

  lemma BigEndian16Reads(n: nat)
    requires n < 0x1_0000
    ensures var b := BigEndian16(n);
      |b| == 2 && b[0] as int * 256 + b[1] == n
  {
  }

  lemma BigEndian16Injective(a: nat, b: nat)
    requires a < 0x1_0000 && b < 0x1_0000 && BigEndian16(a) == BigEndian16(b)
    ensures a == b
  {
    assert BigEndian16(a)[0] == BigEndian16(b)[0] && BigEndian16(a)[1] == BigEndian16(b)[1];
  }
}
