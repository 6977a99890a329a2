/** The PIN hash: nested in-place XOR loops, proved to compute PBKDF2 of section 5.2 of RFC 8018. */
module Pbkdf2 {

  newtype byte = x: int | 0 <= x < 256

  type Bytes = seq<byte>

  function XorByte(a: byte, b: byte): byte {
    ((a as bv8) ^ (b as bv8)) as byte
  }

  /** HMAC-SHA256 is a foreign call; all that is used of it is that it gives 32 bytes. */
  type Prf = (Bytes, Bytes) -> Bytes

  const HASH_LEN: nat := 32

  ghost predicate IsPrf(prf: Prf) {
    forall key, data :: |prf(key, data)| == HASH_LEN
  }

  // ---- the standard's definition --------------------------------------------------------------------

  /** INT(i): four octets, most significant first. */
  function Int32(i: nat): (r: Bytes)
    ensures |r| == 4
  {
    [(i / 0x100_0000 % 256) as byte, (i / 0x1_0000 % 256) as byte, (i / 0x100 % 256) as byte, (i % 256) as byte]
  }

  /** U_c of block i. */
  function U(prf: Prf, password: Bytes, salt: Bytes, i: nat, c: nat): Bytes
    requires c >= 1
  {
    if c == 1 then prf(password, salt + Int32(i)) else prf(password, U(prf, password, salt, i, c - 1))
  }

  function Xor(a: Bytes, b: Bytes): (r: Bytes)
    requires |a| == |b|
    ensures |r| == |a|
  {
    seq(|a|, j requires 0 <= j < |a| => XorByte(a[j], b[j]))
  }

  /** F(P, S, c, i) = U_1 xor ... xor U_c. */
  ghost function F(prf: Prf, password: Bytes, salt: Bytes, c: nat, i: nat): (r: Bytes)
    requires c >= 1 && IsPrf(prf)
    ensures |r| == HASH_LEN
  {
    if c == 1 then U(prf, password, salt, i, 1)
    else
      assert |U(prf, password, salt, i, c)| == HASH_LEN;
      Xor(F(prf, password, salt, c - 1, i), U(prf, password, salt, i, c))
  }

  /** T_1 || ... || T_n. */
  ghost function Blocks(prf: Prf, password: Bytes, salt: Bytes, c: nat, n: nat): (r: Bytes)
    requires c >= 1 && IsPrf(prf)
    ensures |r| == n * HASH_LEN
  {
    if n == 0 then [] else Blocks(prf, password, salt, c, n - 1) + F(prf, password, salt, c, n)
  }

  function BlockCount(keyLen: nat): (n: nat)
    ensures (keyLen == 0 && n == 0) || (n >= 1 && (n - 1) * HASH_LEN < keyLen)
    ensures keyLen <= n * HASH_LEN
  {
    (keyLen + HASH_LEN - 1) / HASH_LEN
  }

  ghost function DerivedKey(prf: Prf, password: Bytes, salt: Bytes, c: nat, keyLen: nat): (dk: Bytes)
    requires c >= 1 && IsPrf(prf)
    ensures |dk| == keyLen
  {
    Blocks(prf, password, salt, c, BlockCount(keyLen))[..keyLen]
  }

  // ---- the loops ---------------------------------------------------------------------------------------

  /** hmac.New(sha256.New, key), Write(data), Sum. */
  method Hash(prf: Prf, key: Bytes, data: Bytes) returns (mac: Bytes)
    requires IsPrf(prf)
    ensures mac == prf(key, data) && |mac| == HASH_LEN
  {
    mac := prf(key, data);
  }

  /** t[j] ^= u[j] for every j. */
  method XorInto(t: array<byte>, u: Bytes)
    requires t.Length == |u|
    modifies t
    ensures t[..] == Xor(old(t[..]), u)
  {
    hide XorByte;
    for j := 0 to t.Length
      invariant forall k | 0 <= k < j :: t[k] == XorByte(old(t[k]), u[k])
      invariant forall k | j <= k < t.Length :: t[k] == old(t[k])
    {
      t[j] := XorByte(t[j], u[j]);
    }
  }

  method Pbkdf2Sha256(prf: Prf, password: Bytes, salt: Bytes, iterations: int, keyLen: nat) returns (key: Bytes)
    requires IsPrf(prf)
    ensures key == DerivedKey(prf, password, salt, if iterations < 1 then 1 else iterations, keyLen)
  {
    hide Int32, Xor, IsPrf;
    ghost var c: nat := if iterations < 1 then 1 else iterations;
    var blocks := BlockCount(keyLen);
    var out: Bytes := [];
    var block := 1;
    while block <= blocks
      invariant 1 <= block <= blocks + 1
      invariant out == Blocks(prf, password, salt, c, block - 1)
    {
      var u := Hash(prf, password, salt + Int32(block));
      var t := new byte[|u|](j requires 0 <= j < |u| => u[j]);
      assert t[..] == u;
      var i := 1;
      while i < iterations
        invariant 1 <= i <= c
        invariant u == U(prf, password, salt, block, i) && |u| == HASH_LEN
        invariant t[..] == F(prf, password, salt, i, block)
      {
        u := Hash(prf, password, u);
        XorInto(t, u);
        i := i + 1;
      }
      out := out + t[..];
      block := block + 1;
    }
    key := out[..keyLen];
  }

  // ---- what the construction gives ----------------------------------------------------------------------

  function Value(b: Bytes): nat
    requires |b| == 4
  {
    b[0] as nat * 0x100_0000 + b[1] as nat * 0x1_0000 + b[2] as nat * 0x100 + b[3] as nat
  }

  /** Every block number of the standard's range is hashed under a salt of its own. */
  lemma BlockNumbersDiffer(i: nat, j: nat)
    requires i < 0x1_0000_0000 && j < 0x1_0000_0000 && Int32(i) == Int32(j)
    ensures i == j
  {
    Int32Value(i);
    Int32Value(j);
  }

  lemma Int32Value(i: nat)
    requires i < 0x1_0000_0000
    ensures Value(Int32(i)) == i
  {
    Octets(i);
  }

  lemma Octets(i: nat)
    requires i < 0x1_0000_0000
    ensures i == i / 0x100_0000 % 256 * 0x100_0000 + i / 0x1_0000 % 256 * 0x1_0000 + i / 0x100 % 256 * 0x100 + i % 256
  {
    var x3, x2, x1 := i / 0x100_0000, i / 0x1_0000, i / 0x100;
    assert x1 / 256 == x2 && x2 / 256 == x3 && i / 256 == x1;
    assert x3 % 256 == x3;
  }

  lemma {:induction false} BlocksExtend(prf: Prf, password: Bytes, salt: Bytes, c: nat, m: nat, n: nat)
    requires c >= 1 && IsPrf(prf) && m <= n
    ensures Blocks(prf, password, salt, c, m) <= Blocks(prf, password, salt, c, n)
  {
    if m < n {
      BlocksExtend(prf, password, salt, c, m, n - 1);
    }
  }

  /** A shorter key is a prefix of a longer one, across block boundaries. */
  lemma KeysArePrefixes(prf: Prf, password: Bytes, salt: Bytes, c: nat, short: nat, long: nat)
    requires c >= 1 && IsPrf(prf) && short <= long
    ensures DerivedKey(prf, password, salt, c, short) <= DerivedKey(prf, password, salt, c, long)
  {
    assert BlockCount(short) <= BlockCount(long);
    BlocksExtend(prf, password, salt, c, BlockCount(short), BlockCount(long));
  }
}
