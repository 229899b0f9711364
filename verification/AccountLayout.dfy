/** The byte images of the program's accounts and the API's decoders, which read them at fixed offsets. */
module AccountLayout {
  import opened Basics
  import opened ProgramState

  type Bytes = seq<u8>

  // ----- Little-endian integers -----

  function LittleEndian(n: nat, width: nat): (b: Bytes)
    ensures |b| == width
  {
    if width == 0 then [] else [n % 256] + LittleEndian(n / 256, width - 1)
  }

  function FromLittleEndian(b: Bytes): nat {
    if b == [] then 0 else b[0] + 256 * FromLittleEndian(b[1..])
  }

  function Pow256(n: nat): (p: nat)
    ensures p > 0
  {
    if n == 0 then 1 else 256 * Pow256(n - 1)
  }

  lemma {:induction false} ReadsBack(n: nat, width: nat)
    requires n < Pow256(width)
    ensures FromLittleEndian(LittleEndian(n, width)) == n
  {
    if width > 0 {
      assert n / 256 < Pow256(width - 1);
      ReadsBack(n / 256, width - 1);
      assert LittleEndian(n, width)[1..] == LittleEndian(n / 256, width - 1);
    }
  }

  lemma {:induction false} WritesBack(b: Bytes)
    ensures FromLittleEndian(b) < Pow256(|b|)
    ensures LittleEndian(FromLittleEndian(b), |b|) == b
  {
    if b != [] {
      WritesBack(b[1..]);
      var rest := FromLittleEndian(b[1..]);
      assert (b[0] + 256 * rest) % 256 == b[0] && (b[0] + 256 * rest) / 256 == rest;
      assert [b[0]] + b[1..] == b;
    }
  }

  lemma Pow256Of8()
    ensures Pow256(8) == 0x1_0000_0000_0000_0000
  {
  }

  // ----- Records as a row of fields -----

  function Concat(fields: seq<Bytes>): Bytes {
    if fields == [] then [] else Concat(fields[..|fields| - 1]) + fields[|fields| - 1]
  }

  /** Where the k-th field starts. */
  function Offset(fields: seq<Bytes>, k: nat): nat
    requires k <= |fields|
  {
    if k == 0 then 0 else Offset(fields, k - 1) + |fields[k - 1]|
  }

  lemma {:induction false} OffsetOfPrefix(fields: seq<Bytes>, n: nat, k: nat)
    requires k <= n <= |fields|
    ensures Offset(fields[..n], k) == Offset(fields, k)
  {
    if k > 0 {
      OffsetOfPrefix(fields, n, k - 1);
    }
  }

  lemma {:induction false} ConcatLength(fields: seq<Bytes>)
    ensures |Concat(fields)| == Offset(fields, |fields|)
  {
    if fields != [] {
      var n := |fields| - 1;
      ConcatLength(fields[..n]);
      OffsetOfPrefix(fields, n, n);
    }
  }

  /** Cutting a record at a field's offset gives that field back. */
  lemma {:induction false} FieldAt(fields: seq<Bytes>, k: nat)
    requires k < |fields|
    ensures Offset(fields, k) + |fields[k]| <= |Concat(fields)|
    ensures Concat(fields)[Offset(fields, k)..Offset(fields, k) + |fields[k]|] == fields[k]
    decreases |fields|
  {
    var n := |fields| - 1;
    ConcatLength(fields[..n]);
    if k < n {
      FieldAt(fields[..n], k);
      OffsetOfPrefix(fields, n, k);
    } else {
      OffsetOfPrefix(fields, n, n);
    }
  }

  // ----- Images -----

  type Discriminator = b: Bytes | |b| == 8 witness [0, 0, 0, 0, 0, 0, 0, 0]

  function FlagByte(b: bool): u8 {
    if b then 1 else 0
  }

  function WagerFields(tag: Discriminator, w: Wager): seq<Bytes> {
    [tag, LittleEndian(w.wagerId, 8), w.maker.bytes, w.challenger.bytes, w.opponent.bytes,
     LittleEndian(w.amount, 8), w.tokenMint.bytes, w.winner.bytes, [w.status], [w.payoutMode],
     LittleEndian(w.incrementValue, 8), LittleEndian(w.makerRemaining, 8), LittleEndian(w.opponentRemaining, 8),
     LittleEndian(w.makerScore, 4), LittleEndian(w.opponentScore, 4), [w.bump]]
  }

  function StakeFields(tag: Discriminator, s: UserStake, bump: u8): seq<Bytes> {
    [tag, s.owner.bytes, LittleEndian(s.amount, 8), LittleEndian(s.activeWagers, 4), [FlagByte(s.banned)], [bump]]
  }

  function ConfigFields(tag: Discriminator, c: Config, bump: u8): seq<Bytes> {
    [tag, c.authority.bytes, c.chainAuthority.bytes, c.tokenMint.bytes, c.usdcMint.bytes,
     LittleEndian(c.requiredStake, 8), [FlagByte(c.stakingEnabled)], [bump]]
  }

  // ----- Decoders -----

  datatype DecodedWager = DecodedWager(
    maker: Pubkey,
    challenger: Pubkey,
    opponent: Pubkey,
    amount: nat,
    tokenMint: Pubkey,
    status: u8,
    payoutMode: u8,
    makerRemaining: nat,
    opponentRemaining: nat)

  datatype DecodedConfig = DecodedConfig(tokenMint: Pubkey, usdcMint: Pubkey, requiredStake: nat, stakingEnabled: bool)

  datatype DecodedStake = DecodedStake(amount: nat, banned: bool)

  function KeyAt(data: Bytes, offset: nat): Pubkey
    requires offset + 32 <= |data|
  {
    Pubkey(data[offset..offset + 32])
  }

  /** Buffer.readBigUInt64LE. */
  function ReadU64(data: Bytes, offset: nat): nat
    requires offset + 8 <= |data|
  {
    FromLittleEndian(data[offset..offset + 8])
  }

  /** decodeWagerAccount; None where it throws. */
  function DecodeWager(data: Bytes): Option<DecodedWager> {
    if |data| < 210 then None
    else Some(DecodedWager(KeyAt(data, 16), KeyAt(data, 48), KeyAt(data, 80), ReadU64(data, 112), KeyAt(data, 120),
                           data[184], data[185], ReadU64(data, 194), ReadU64(data, 202)))
  }

  /** decodeConfigAccount; None where it throws. */
  function DecodeConfig(data: Bytes): Option<DecodedConfig> {
    if |data| < 146 then None
    else Some(DecodedConfig(KeyAt(data, 72), KeyAt(data, 104), ReadU64(data, 136), data[144] == 1))
  }

  /** The part of getAccess that reads the stake account; None where it is taken to be missing. */
  function DecodeStake(data: Bytes): Option<DecodedStake> {
    if |data| < 54 then None else Some(DecodedStake(ReadU64(data, 40), data[52] == 1))
  }

  // ----- Round trips -----

  /** A buffer that holds a record's image, possibly with more bytes behind it. */
  predicate Holds(data: Bytes, fields: seq<Bytes>) {
    Concat(fields) <= data
  }

  lemma FieldIn(data: Bytes, fields: seq<Bytes>, k: nat, offset: nat)
    requires Holds(data, fields) && k < |fields| && Offset(fields, k) == offset
    ensures offset + |fields[k]| <= |data| && data[offset..offset + |fields[k]|] == fields[k]
  {
    FieldAt(fields, k);
    assert data[..|Concat(fields)|] == Concat(fields);
  }

  lemma KeyIn(data: Bytes, fields: seq<Bytes>, k: nat, offset: nat, key: Pubkey)
    requires Holds(data, fields) && k < |fields| && Offset(fields, k) == offset && fields[k] == key.bytes
    ensures offset + 32 <= |data| && KeyAt(data, offset) == key
  {
    FieldIn(data, fields, k, offset);
  }

  lemma NumberIn(data: Bytes, fields: seq<Bytes>, k: nat, offset: nat, n: u64)
    requires Holds(data, fields) && k < |fields| && Offset(fields, k) == offset && fields[k] == LittleEndian(n, 8)
    ensures offset + 8 <= |data| && ReadU64(data, offset) == n
  {
    FieldIn(data, fields, k, offset);
    Pow256Of8();
    ReadsBack(n, 8);
  }

  lemma ByteIn(data: Bytes, fields: seq<Bytes>, k: nat, offset: nat, b: u8)
    requires Holds(data, fields) && k < |fields| && Offset(fields, k) == offset && fields[k] == [b]
    ensures offset < |data| && data[offset] == b
  {
    FieldIn(data, fields, k, offset);
    assert data[offset..offset + 1][0] == b;
  }

  lemma WagerOffsets(tag: Discriminator, w: Wager)
    ensures var f := WagerFields(tag, w);
            && Offset(f, 2) == 16 && Offset(f, 3) == 48 && Offset(f, 4) == 80 && Offset(f, 5) == 112
            && Offset(f, 6) == 120 && Offset(f, 8) == 184 && Offset(f, 9) == 185 && Offset(f, 11) == 194
            && Offset(f, 12) == 202 && Offset(f, 16) == 219
  {
    var f := WagerFields(tag, w);
    assert Offset(f, 1) == 8;
    assert Offset(f, 2) == 16;
    assert Offset(f, 3) == 48;
    assert Offset(f, 4) == 80;
    assert Offset(f, 5) == 112;
    assert Offset(f, 6) == 120;
    assert Offset(f, 7) == 152;
    assert Offset(f, 8) == 184;
    assert Offset(f, 9) == 185;
    assert Offset(f, 10) == 186;
    assert Offset(f, 11) == 194;
    assert Offset(f, 12) == 202;
    assert Offset(f, 13) == 210;
    assert Offset(f, 14) == 214;
    assert Offset(f, 15) == 218;
  }

  /** The image of a wager is 219 bytes long, and decoding any buffer that holds it gives the record's own
    * participants, amount, mint, status, mode and reserves.
    */
  lemma WagerDecodes(tag: Discriminator, w: Wager, data: Bytes)
    requires Holds(data, WagerFields(tag, w))
    ensures |Concat(WagerFields(tag, w))| == 219
    ensures DecodeWager(data) == Some(DecodedWager(w.maker, w.challenger, w.opponent, w.amount, w.tokenMint, w.status,
                                                   w.payoutMode, w.makerRemaining, w.opponentRemaining))
  {
    var f := WagerFields(tag, w);
    WagerOffsets(tag, w);
    ConcatLength(f);
    KeyIn(data, f, 2, 16, w.maker);
    KeyIn(data, f, 3, 48, w.challenger);
    KeyIn(data, f, 4, 80, w.opponent);
    NumberIn(data, f, 5, 112, w.amount);
    KeyIn(data, f, 6, 120, w.tokenMint);
    ByteIn(data, f, 8, 184, w.status);
    ByteIn(data, f, 9, 185, w.payoutMode);
    NumberIn(data, f, 11, 194, w.makerRemaining);
    NumberIn(data, f, 12, 202, w.opponentRemaining);
  }

  lemma ConfigDecodes(tag: Discriminator, c: Config, bump: u8, data: Bytes)
    requires Holds(data, ConfigFields(tag, c, bump))
    ensures |Concat(ConfigFields(tag, c, bump))| == 146
    ensures DecodeConfig(data) == Some(DecodedConfig(c.tokenMint, c.usdcMint, c.requiredStake, c.stakingEnabled))
  {
    var f := ConfigFields(tag, c, bump);
    assert Offset(f, 1) == 8;
    assert Offset(f, 2) == 40;
    assert Offset(f, 3) == 72;
    assert Offset(f, 4) == 104;
    assert Offset(f, 5) == 136;
    assert Offset(f, 6) == 144;
    assert Offset(f, 7) == 145;
    assert Offset(f, 8) == 146;
    ConcatLength(f);
    KeyIn(data, f, 3, 72, c.tokenMint);
    KeyIn(data, f, 4, 104, c.usdcMint);
    NumberIn(data, f, 5, 136, c.requiredStake);
    ByteIn(data, f, 6, 144, FlagByte(c.stakingEnabled));
  }

  lemma StakeDecodes(tag: Discriminator, s: UserStake, bump: u8, data: Bytes)
    requires Holds(data, StakeFields(tag, s, bump))
    ensures |Concat(StakeFields(tag, s, bump))| == 54
    ensures DecodeStake(data) == Some(DecodedStake(s.amount, s.banned))
  {
    var f := StakeFields(tag, s, bump);
    assert Offset(f, 1) == 8;
    assert Offset(f, 2) == 40;
    assert Offset(f, 3) == 48;
    assert Offset(f, 4) == 52;
    assert Offset(f, 5) == 53;
    assert Offset(f, 6) == 54;
    ConcatLength(f);
    NumberIn(data, f, 2, 40, s.amount);
    ByteIn(data, f, 4, 52, FlagByte(s.banned));
  }
}
