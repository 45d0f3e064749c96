/** The fixed-width part of the SCALE codec that the argument tuples use:
    unsigned integers as little-endian bytes, an account id as its 32 raw
    bytes, and a tuple as the concatenation of its fields in order. */
module Scale {
  import opened Wrappers

  type u8 = x: int | 0 <= x < 0x100
  type u16 = x: int | 0 <= x < 0x1_0000
  type u32 = x: int | 0 <= x < 0x1_0000_0000
  type u128 = x: int | 0 <= x < 0x1_0000_0000_0000_0000_0000_0000_0000_0000

  /** `AccountId32`: a fixed-width opaque identity, encoded as its bytes. */
  type AccountId = s: seq<u8> | |s| == 32 witness seq(32, i => 0)

  /** The one decoding failure a fixed-width layout can hit. */
  datatype Error = NotEnoughData

  /** Argument tuple shapes of the protocol. */
  type TransferArgs = (u32, AccountId, AccountId, u128)
  type ApprovalArgs = (u32, AccountId, AccountId)
  type DelegatedArgs = (u32, AccountId, AccountId, AccountId, u128)

  const TRANSFER_ARGS_LEN: nat := 4 + 32 + 32 + 16
  const APPROVAL_ARGS_LEN: nat := 4 + 32 + 32
  const DELEGATED_ARGS_LEN: nat := 4 + 32 + 32 + 32 + 16

  function Pow256(n: nat): (p: nat)
    ensures 0 < p
  {
    if n == 0 then 1 else 256 * Pow256(n - 1)
  }

  /** `x` written as `n` little-endian bytes. */
  function EncodeLE(x: nat, n: nat): (s: seq<u8>)
    requires x < Pow256(n)
    ensures |s| == n
  {
    if n == 0 then [] else [x % 256] + EncodeLE(x / 256, n - 1)
  }

  /** The number that the little-endian bytes `s` stand for. */
  function DecodeLE(s: seq<u8>): (x: nat)
    ensures x < Pow256(|s|)
  {
    if s == [] then 0
    else
      var rest := DecodeLE(s[1..]);
      assert s[0] + 256 * rest <= 255 + 256 * (Pow256(|s| - 1) - 1);
      s[0] + 256 * rest
  }

  lemma {:induction false} DecodeEncodeLE(x: nat, n: nat)
    requires x < Pow256(n)
    ensures DecodeLE(EncodeLE(x, n)) == x
  {
    if n > 0 {
      DecodeEncodeLE(x / 256, n - 1);
      var s := EncodeLE(x, n);
      assert s[1..] == EncodeLE(x / 256, n - 1);
    }
  }

  lemma {:induction false} EncodeDecodeLE(s: seq<u8>)
    ensures EncodeLE(DecodeLE(s), |s|) == s
  {
    if s != [] {
      EncodeDecodeLE(s[1..]);
      var x := DecodeLE(s);
      assert x % 256 == s[0] && x / 256 == DecodeLE(s[1..]);
    }
  }

  lemma Pow256Widths()
    ensures Pow256(4) == 0x1_0000_0000
    ensures Pow256(16) == 0x1_0000_0000_0000_0000_0000_0000_0000_0000
  {
  }

  function EncodeU32(x: u32): (s: seq<u8>)
    ensures |s| == 4 && DecodeLE(s) == x
  {
    Pow256Widths();
    DecodeEncodeLE(x, 4);
    EncodeLE(x, 4)
  }

  function EncodeU128(x: u128): (s: seq<u8>)
    ensures |s| == 16 && DecodeLE(s) == x
  {
    Pow256Widths();
    DecodeEncodeLE(x, 16);
    EncodeLE(x, 16)
  }

  /** Reads a `u32` from the front of `s`; gives back what follows it. */
  function DecodeU32(s: seq<u8>): (r: Result<(u32, seq<u8>), Error>)
    ensures r.Ok? <==> |s| >= 4
    ensures r.Ok? ==> EncodeU32(r.value.0) + r.value.1 == s
  {
    if |s| < 4 then Err(NotEnoughData)
    else
      Pow256Widths();
      EncodeDecodeLE(s[..4]);
      Ok((DecodeLE(s[..4]), s[4..]))
  }

  function DecodeU128(s: seq<u8>): (r: Result<(u128, seq<u8>), Error>)
    ensures r.Ok? <==> |s| >= 16
    ensures r.Ok? ==> EncodeU128(r.value.0) + r.value.1 == s
  {
    if |s| < 16 then Err(NotEnoughData)
    else
      Pow256Widths();
      EncodeDecodeLE(s[..16]);
      Ok((DecodeLE(s[..16]), s[16..]))
  }

  function DecodeAccount(s: seq<u8>): (r: Result<(AccountId, seq<u8>), Error>)
    ensures r.Ok? <==> |s| >= 32
    ensures r.Ok? ==> r.value.0 + r.value.1 == s
  {
    if |s| < 32 then Err(NotEnoughData) else Ok((s[..32], s[32..]))
  }

  /** A tuple is its fields' encodings, concatenated in declaration order. */
  function EncodeTransferArgs(t: TransferArgs): (s: seq<u8>)
    ensures |s| == TRANSFER_ARGS_LEN
  {
    EncodeU32(t.0) + t.1 + t.2 + EncodeU128(t.3)
  }

  function EncodeApprovalArgs(t: ApprovalArgs): (s: seq<u8>)
    ensures |s| == APPROVAL_ARGS_LEN
  {
    EncodeU32(t.0) + t.1 + t.2
  }

  function EncodeDelegatedArgs(t: DelegatedArgs): (s: seq<u8>)
    ensures |s| == DELEGATED_ARGS_LEN
  {
    EncodeU32(t.0) + t.1 + t.2 + t.3 + EncodeU128(t.4)
  }

  /** Decodes a `(u32, AccountId, AccountId, u128)` from the front of `s`. */
  function DecodeTransferArgs(s: seq<u8>): (r: Result<(TransferArgs, seq<u8>), Error>)
    ensures r.Ok? <==> |s| >= TRANSFER_ARGS_LEN
    ensures r.Ok? ==> EncodeTransferArgs(r.value.0) + r.value.1 == s
  {
    var (asset, s1) :- DecodeU32(s);
    var (first, s2) :- DecodeAccount(s1);
    var (second, s3) :- DecodeAccount(s2);
    var (amount, rest) :- DecodeU128(s3);
    Ok(((asset, first, second, amount), rest))
  }

  function DecodeApprovalArgs(s: seq<u8>): (r: Result<(ApprovalArgs, seq<u8>), Error>)
    ensures r.Ok? <==> |s| >= APPROVAL_ARGS_LEN
    ensures r.Ok? ==> EncodeApprovalArgs(r.value.0) + r.value.1 == s
  {
    var (asset, s1) :- DecodeU32(s);
    var (first, s2) :- DecodeAccount(s1);
    var (second, rest) :- DecodeAccount(s2);
    Ok(((asset, first, second), rest))
  }

  function DecodeDelegatedArgs(s: seq<u8>): (r: Result<(DelegatedArgs, seq<u8>), Error>)
    ensures r.Ok? <==> |s| >= DELEGATED_ARGS_LEN
    ensures r.Ok? ==> EncodeDelegatedArgs(r.value.0) + r.value.1 == s
  {
    var (asset, s1) :- DecodeU32(s);
    var (first, s2) :- DecodeAccount(s1);
    var (second, s3) :- DecodeAccount(s2);
    var (third, s4) :- DecodeAccount(s3);
    var (amount, rest) :- DecodeU128(s4);
    Ok(((asset, first, second, third, amount), rest))
  }

  lemma DecodeEncodeU32(x: u32, rest: seq<u8>)
    ensures DecodeU32(EncodeU32(x) + rest) == Ok((x, rest))
  {
    var s := EncodeU32(x) + rest;
    assert s[..4] == EncodeU32(x) && s[4..] == rest;
  }

  lemma DecodeEncodeU128(x: u128, rest: seq<u8>)
    ensures DecodeU128(EncodeU128(x) + rest) == Ok((x, rest))
  {
    var s := EncodeU128(x) + rest;
    assert s[..16] == EncodeU128(x) && s[16..] == rest;
  }

  lemma DecodeEncodeAccount(a: AccountId, rest: seq<u8>)
    ensures DecodeAccount(a + rest) == Ok((a, rest))
  {
    assert (a + rest)[..32] == a && (a + rest)[32..] == rest;
  }

  /** Round trip of the four-field transfer tuple; whatever follows it is left unread. */
  lemma DecodeEncodeTransferArgs(t: TransferArgs, rest: seq<u8>)
    ensures DecodeTransferArgs(EncodeTransferArgs(t) + rest) == Ok((t, rest))
  {
    var (asset, first, second, amount) := t;
    var tail3 := EncodeU128(amount) + rest;
    var tail2 := second + tail3;
    var tail1 := first + tail2;
    assert EncodeTransferArgs(t) + rest == EncodeU32(asset) + tail1;
    DecodeEncodeU32(asset, tail1);
    DecodeEncodeAccount(first, tail2);
    DecodeEncodeAccount(second, tail3);
    DecodeEncodeU128(amount, rest);
  }

  lemma DecodeEncodeApprovalArgs(t: ApprovalArgs, rest: seq<u8>)
    ensures DecodeApprovalArgs(EncodeApprovalArgs(t) + rest) == Ok((t, rest))
  {
    var (asset, first, second) := t;
    var tail2 := second + rest;
    var tail1 := first + tail2;
    assert EncodeApprovalArgs(t) + rest == EncodeU32(asset) + tail1;
    DecodeEncodeU32(asset, tail1);
    DecodeEncodeAccount(first, tail2);
    DecodeEncodeAccount(second, rest);
  }

  lemma DecodeEncodeDelegatedArgs(t: DelegatedArgs, rest: seq<u8>)
    ensures DecodeDelegatedArgs(EncodeDelegatedArgs(t) + rest) == Ok((t, rest))
  {
    var (asset, first, second, third, amount) := t;
    var tail4 := EncodeU128(amount) + rest;
    var tail3 := third + tail4;
    var tail2 := second + tail3;
    var tail1 := first + tail2;
    assert EncodeDelegatedArgs(t) + rest == EncodeU32(asset) + tail1;
    DecodeEncodeU32(asset, tail1);
    DecodeEncodeAccount(first, tail2);
    DecodeEncodeAccount(second, tail3);
    DecodeEncodeAccount(third, tail4);
    DecodeEncodeU128(amount, rest);
  }
}
