/** ASN.1 DER `ECDSA-Sig-Value` from a fixed-width signature, and a strict DER reader
    (X.690 sections 8.1.3.4 and 8.3) that gives back the two numbers.

    The printer writes every length as one byte; that is a DER length only below 128. */
module Der {
  import opened Wrappers

  /** What a run of bytes says, most significant first. */
  function Value(bytes: seq<byte>): nat {
    if bytes == [] then 0 else Value(bytes[..|bytes| - 1]) * 256 + bytes[|bytes| - 1]
  }

  // ---- printing --------------------------------------------------------------------------

  function SkipZeros(bytes: seq<byte>): seq<byte> {
    if bytes != [] && bytes[0] == 0 then SkipZeros(bytes[1..]) else bytes
  }

  /** The contents of an INTEGER: no needless zero in front, and never negative. */
  function Contents(bytes: seq<byte>): (r: seq<byte>)
    ensures r != []
  {
    var v := SkipZeros(bytes);
    if v == [] || v[0] >= 128 then [0] + v else v
  }

  /** A length cut to one byte. */
  function Octet(n: nat): byte {
    n % 256
  }

  function DerInt(bytes: seq<byte>): seq<byte> {
    var v := Contents(bytes);
    [2, Octet(|v|)] + v
  }

  function DerFromFixed(sig: seq<byte>): seq<byte> {
    var body := DerInt(sig[..|sig| / 2]) + DerInt(sig[|sig| / 2..]);
    [0x30, Octet(|body|)] + body
  }

  method PushInt(bytes: seq<byte>) returns (out: seq<byte>)
    ensures out == DerInt(bytes)
  {
    var i := 0;
    while i < |bytes| && bytes[i] == 0
      invariant 0 <= i <= |bytes| && SkipZeros(bytes[i..]) == SkipZeros(bytes)
    {
      assert bytes[i..][1..] == bytes[i + 1..];
      i := i + 1;
    }
    var v := bytes[i..];
    if v == [] || v[0] >= 128 {
      v := [0] + v;
    }
    out := [2, Octet(|v|)];
    out := out + v;
  }

  method Print(sig: seq<byte>) returns (out: seq<byte>)
    ensures out == DerFromFixed(sig)
  {
    var body := PushInt(sig[..|sig| / 2]);
    var s := PushInt(sig[|sig| / 2..]);
    body := body + s;
    out := [0x30, Octet(|body|)];
    out := out + body;
  }

  // ---- reading ---------------------------------------------------------------------------

  /** One element with a short-form length: its contents and what follows it. */
  function ReadShort(tag: byte, t: seq<byte>): Option<(seq<byte>, seq<byte>)> {
    if |t| < 2 || t[0] != tag || t[1] >= 128 || |t| < 2 + t[1] then None
    else Some((t[2..2 + t[1]], t[2 + t[1]..]))
  }

  /** Contents that are a number in its shortest form. */
  predicate Minimal(v: seq<byte>) {
    v != [] && v[0] < 128 && (|v| > 1 && v[0] == 0 ==> v[1] >= 128)
  }

  function ReadDer(t: seq<byte>): Option<(nat, nat)> {
    match ReadShort(0x30, t)
    case None => None
    case Some((body, rest)) =>
      if rest != [] then None
      else
        match ReadShort(2, body)
        case None => None
        case Some((r, tail)) =>
          match ReadShort(2, tail)
          case None => None
          case Some((s, end)) =>
            if end == [] && Minimal(r) && Minimal(s) then Some((Value(r), Value(s))) else None
  }

  // ---- the reader inverts the printer ---------------------------------------------------------

  lemma {:induction false} ValueZeroFront(v: seq<byte>)
    ensures Value([0] + v) == Value(v)
  {
    if v == [] {
      assert [0] + v == [0];
      assert Value([0]) == Value([]) * 256 + 0;
    } else {
      var w := [0] + v;
      assert w[..|w| - 1] == [0] + v[..|v| - 1];
      ValueZeroFront(v[..|v| - 1]);
    }
  }

  lemma {:induction false} SkipZerosValue(bytes: seq<byte>)
    ensures Value(SkipZeros(bytes)) == Value(bytes) && |SkipZeros(bytes)| <= |bytes|
    ensures SkipZeros(bytes) != [] ==> SkipZeros(bytes)[0] != 0
  {
    if bytes != [] && bytes[0] == 0 {
      assert bytes == [0] + bytes[1..];
      ValueZeroFront(bytes[1..]);
      SkipZerosValue(bytes[1..]);
    }
  }

  lemma ContentsMean(bytes: seq<byte>)
    ensures Value(Contents(bytes)) == Value(bytes) && Minimal(Contents(bytes)) && |Contents(bytes)| <= |bytes| + 1
  {
    SkipZerosValue(bytes);
    ValueZeroFront(SkipZeros(bytes));
  }

  lemma ReadShortBack(tag: byte, v: seq<byte>, rest: seq<byte>)
    ensures |v| < 128 ==> ReadShort(tag, [tag, Octet(|v|)] + v + rest) == Some((v, rest))
  {
    var t := [tag, Octet(|v|)] + v + rest;
    if |v| < 128 {
      assert t[2..2 + |v|] == v && t[2 + |v|..] == rest;
    }
  }

  /** The number of bytes the printer puts between the outer braces. */
  function BodyLength(sig: seq<byte>): nat {
    4 + |Contents(sig[..|sig| / 2])| + |Contents(sig[|sig| / 2..])|
  }

  /** A reader finds exactly the two halves' numbers, if and only if the body is short
      enough for a one-byte length. */
  lemma DerReadsBack(sig: seq<byte>)
    ensures ReadDer(DerFromFixed(sig)) == Some((Value(sig[..|sig| / 2]), Value(sig[|sig| / 2..])))
      <==> BodyLength(sig) < 128
  {
    var r, s := Contents(sig[..|sig| / 2]), Contents(sig[|sig| / 2..]);
    var body := DerInt(sig[..|sig| / 2]) + DerInt(sig[|sig| / 2..]);
    assert |body| == BodyLength(sig);
    var t := DerFromFixed(sig);
    if |body| < 128 {
      ReadShortBack(0x30, body, []);
      assert [0x30, Octet(|body|)] + body + [] == t;
      ReadShortBack(2, r, DerInt(sig[|sig| / 2..]));
      assert [2, Octet(|r|)] + r + DerInt(sig[|sig| / 2..]) == body;
      ReadShortBack(2, s, []);
      assert [2, Octet(|s|)] + s + [] == DerInt(sig[|sig| / 2..]);
      ContentsMean(sig[..|sig| / 2]);
      ContentsMean(sig[|sig| / 2..]);
    } else if t[1] < 128 {
      // the length was cut: bytes are left over behind what it covers
      assert t[1] < |body|;
      assert t[2 + t[1]..] != [];
    }
  }

  /** P-256 signatures (64 bytes) are always short enough. */
  lemma FitsP256(sig: seq<byte>)
    requires |sig| <= 120
    ensures ReadDer(DerFromFixed(sig)) == Some((Value(sig[..|sig| / 2]), Value(sig[|sig| / 2..])))
  {
    ContentsMean(sig[..|sig| / 2]);
    ContentsMean(sig[|sig| / 2..]);
    DerReadsBack(sig);
  }
}
