/**
  The byte-level readers and writers that the message codec is built on. `lib0` var-ints hold
  seven bits a byte, least significant first, and the high bit says that more follows; a buffer
  is its length as a var-int and then its bytes. A reader that runs out of bytes reports
  `EndOfBuffer`, which a `MessageReader` takes for the end of the stream; anything else it cannot
  use is `Invalid`.
 */
module WireFormat {
  import opened Integers
  import opened Sequences

  type Byte = b: int | 0 <= b < 256

  type Bytes = seq<Byte>

  datatype Parsed<+T> = Ok(value: T, rest: Bytes) | EndOfBuffer | Invalid

  // Var-ints -------------------------------------------------------------------------------------

  function WriteVar(n: nat): (s: Bytes)
    ensures s != []
  {
    if n < 128 then [n] else [128 + n % 128] + WriteVar(n / 128)
  }

  function ReadVarRaw(s: Bytes): (r: Parsed<nat>)
    ensures r.Ok? ==> |r.rest| < |s|
  {
    if s == [] then EndOfBuffer
    else if s[0] < 128 then Ok(s[0], s[1..])
    else
      match ReadVarRaw(s[1..])
      case Ok(high, rest) => Ok(s[0] - 128 + 128 * high, rest)
      case EndOfBuffer => EndOfBuffer
      case Invalid => Invalid
  }

  /** `read_var` for an unsigned type with values below `limit`. */
  function ReadVar(s: Bytes, limit: nat): (r: Parsed<nat>)
    ensures r.Ok? ==> |r.rest| < |s| && r.value < limit
  {
    var r := ReadVarRaw(s);
    if r.Ok? && r.value >= limit then Invalid else r
  }

  lemma {:induction false} VarRawRoundTrip(n: nat, rest: Bytes)
    ensures ReadVarRaw(WriteVar(n) + rest) == Ok(n, rest)
  {
    var s := WriteVar(n) + rest;
    if n < 128 {
      assert s[1..] == rest;
    } else {
      VarRawRoundTrip(n / 128, rest);
      assert s[1..] == WriteVar(n / 128) + rest;
    }
  }

  lemma VarRoundTrip(n: nat, limit: nat, rest: Bytes)
    requires n < limit
    ensures ReadVar(WriteVar(n) + rest, limit) == Ok(n, rest)
  {
    VarRawRoundTrip(n, rest);
  }

  lemma {:induction false} VarTruncated(n: nat, limit: nat, k: nat)
    requires k < |WriteVar(n)|
    ensures ReadVarRaw(WriteVar(n)[..k]).EndOfBuffer? && ReadVar(WriteVar(n)[..k], limit).EndOfBuffer?
  {
    if k > 0 {
      VarTruncated(n / 128, limit, k - 1);
      assert WriteVar(n)[..k][1..] == WriteVar(n / 128)[..k - 1];
    }
  }

  lemma SmallVar(n: nat)
    requires n < 128
    ensures WriteVar(n) == [n]
  {
  }

  // Buffers --------------------------------------------------------------------------------------

  function WriteBuf(b: Bytes): Bytes {
    WriteVar(|b|) + b
  }

  function ReadBuf(s: Bytes): (r: Parsed<Bytes>)
    ensures r.Ok? ==> |r.rest| < |s|
  {
    match ReadVar(s, U32_LIMIT)
    case Ok(n, rest) => if n <= |rest| then Ok(rest[..n], rest[n..]) else EndOfBuffer
    case EndOfBuffer => EndOfBuffer
    case Invalid => Invalid
  }

  lemma BufRoundTrip(b: Bytes, rest: Bytes)
    requires |b| < U32_LIMIT
    ensures ReadBuf(WriteBuf(b) + rest) == Ok(b, rest)
  {
    VarRoundTrip(|b|, U32_LIMIT, b + rest);
    Associates(WriteVar(|b|), b, rest);
    SplitSum(b, rest);
  }

  lemma BufTruncated(b: Bytes, k: nat)
    requires |b| < U32_LIMIT && k < |WriteBuf(b)|
    ensures ReadBuf(WriteBuf(b)[..k]).EndOfBuffer?
  {
    var head := WriteVar(|b|);
    CutOfSum(head, b, k);
    if k < |head| {
      VarTruncated(|b|, U32_LIMIT, k);
    } else {
      VarRoundTrip(|b|, U32_LIMIT, b[..k - |head|]);
    }
  }

  // Little-endian integers, as bincode writes them ---------------------------------------------------

  function Pow256(k: nat): (p: nat)
    ensures p > 0
  {
    if k == 0 then 1 else 256 * Pow256(k - 1)
  }

  function WriteLE(n: nat, k: nat): (s: Bytes)
    ensures |s| == k
  {
    if k == 0 then [] else [n % 256] + WriteLE(n / 256, k - 1)
  }

  function ReadLE(s: Bytes): nat {
    if s == [] then 0 else s[0] + 256 * ReadLE(s[1..])
  }

  lemma {:induction false} LERoundTrip(n: nat, k: nat)
    requires n < Pow256(k)
    ensures ReadLE(WriteLE(n, k)) == n
  {
    if k > 0 {
      assert n / 256 < Pow256(k - 1);
      LERoundTrip(n / 256, k - 1);
      assert WriteLE(n, k)[1..] == WriteLE(n / 256, k - 1);
    }
  }
}
