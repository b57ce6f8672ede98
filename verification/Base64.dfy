/** The pattern published for base64 content, and the encoding it describes: RFC 4648
    section 4, with padding required and no stray bits (section 3.5). */
module Base64 {
  import opened Wrappers

  // ---- regular expressions ---------------------------------------------------------------

  datatype Re =
    | Epsilon
    | OneOf(chars: set<char>)
    | Cat(first: Re, second: Re)
    | Alt(left: Re, right: Re)
    | Star(body: Re)

  /** The whole of `s` matches. */
  predicate Matches(r: Re, s: string)
    decreases r, |s|
  {
    match r
    case Epsilon => s == ""
    case OneOf(chars) => |s| == 1 && s[0] in chars
    case Cat(a, b) => exists i | 0 <= i <= |s| :: Matches(a, s[..i]) && Matches(b, s[i..])
    case Alt(a, b) => Matches(a, s) || Matches(b, s)
    case Star(a) => s == "" || exists i | 0 < i <= |s| :: Matches(a, s[..i]) && Matches(r, s[i..])
  }

  function Times(r: Re, n: nat): Re {
    if n == 0 then Epsilon else Cat(r, Times(r, n - 1))
  }

  const ALPHABET: set<char> :=
    set c: char | 'A' <= c <= 'Z' || 'a' <= c <= 'z' || '0' <= c <= '9' || c == '+' || c == '/'

  const SYMBOL := OneOf(ALPHABET)
  const PAD := OneOf({'='})
  const FOUR_BITS_FREE: set<char> := {'A', 'Q', 'g', 'w'}
  const TWO_BITS_FREE: set<char> :=
    {'A', 'E', 'I', 'M', 'Q', 'U', 'Y', 'c', 'g', 'k', 'o', 's', 'w', '0', '4', '8'}

  /** `X[AQgw]==` */
  const ONE_BYTE := Cat(SYMBOL, Cat(OneOf(FOUR_BITS_FREE), Cat(PAD, PAD)))

  /** `X{2}[AEIMQUYcgkosw048]=` */
  const TWO_BYTES := Cat(SYMBOL, Cat(SYMBOL, Cat(OneOf(TWO_BITS_FREE), PAD)))

  const LAST_GROUP := Alt(Epsilon, Alt(ONE_BYTE, TWO_BYTES))

  const PATTERN := Cat(Star(Times(SYMBOL, 4)), LAST_GROUP)

  // ---- RFC 4648 ---------------------------------------------------------------------------

  function Symbol(n: nat): (c: char)
    requires n < 64
  {
    if n < 26 then 'A' + n as char
    else if n < 52 then 'a' + (n - 26) as char
    else if n < 62 then '0' + (n - 52) as char
    else if n == 62 then '+'
    else '/'
  }

  /** The alphabet of RFC 4648, table 1: capitals, small letters, digits, plus and slash. */
  lemma SymbolIs(n: nat)
    requires n < 63
    ensures Symbol(0) == 'A' && Symbol(26) == 'a' && Symbol(52) == '0' && Symbol(62) == '+' && Symbol(63) == '/'
    ensures n !in {25, 51, 61, 62} ==> Symbol(n + 1) as nat == Symbol(n) as nat + 1
  {
  }

  function Value(c: char): (r: Option<nat>)
    ensures r.Some? ==> r.value < 64
  {
    if 'A' <= c <= 'Z' then Some(c as nat - 'A' as nat)
    else if 'a' <= c <= 'z' then Some(c as nat - 'a' as nat + 26)
    else if '0' <= c <= '9' then Some(c as nat - '0' as nat + 52)
    else if c == '+' then Some(62)
    else if c == '/' then Some(63)
    else None
  }

  function Encode(b: seq<byte>): string {
    if b == [] then ""
    else if |b| == 1 then [Symbol(b[0] / 4), Symbol(b[0] % 4 * 16), '=', '=']
    else if |b| == 2 then [Symbol(b[0] / 4), Symbol(b[0] % 4 * 16 + b[1] / 16), Symbol(b[1] % 16 * 4), '=']
    else
      [Symbol(b[0] / 4), Symbol(b[0] % 4 * 16 + b[1] / 16), Symbol(b[1] % 16 * 4 + b[2] / 64), Symbol(b[2] % 64)]
      + Encode(b[3..])
  }

  function First(p: char, q: char): byte
    requires Value(p).Some? && Value(q).Some?
  {
    Value(p).value * 4 + Value(q).value / 16
  }

  function Second(q: char, r: char): byte
    requires Value(q).Some? && Value(r).Some?
  {
    Value(q).value % 16 * 16 + Value(r).value / 4
  }

  function Third(r: char, t: char): byte
    requires Value(r).Some? && Value(t).Some?
  {
    Value(r).value % 4 * 64 + Value(t).value
  }

  /** A strict decoder: nothing but whole groups, padding only at the end, and the bits a
      padded group does not use are zero. */
  function Decode(s: string): Option<seq<byte>> {
    if s == "" then Some([])
    else if |s| < 4 || Value(s[0]).None? || Value(s[1]).None? then None
    else if s[2] == '=' then
      if |s| == 4 && s[3] == '=' && Value(s[1]).value % 16 == 0 then Some([First(s[0], s[1])]) else None
    else if Value(s[2]).None? then None
    else if s[3] == '=' then
      if |s| == 4 && Value(s[2]).value % 4 == 0 then Some([First(s[0], s[1]), Second(s[1], s[2])]) else None
    else if Value(s[3]).None? then None
    else
      match Decode(s[4..])
      case None => None
      case Some(rest) => Some([First(s[0], s[1]), Second(s[1], s[2]), Third(s[2], s[3])] + rest)
  }

  // ---- the encoder's image is the decoder's domain -------------------------------------------

  lemma SymbolValue(n: nat)
    requires n < 64
    ensures Value(Symbol(n)) == Some(n) && Symbol(n) != '='
  {
  }

  lemma ValueSymbol(c: char)
    requires Value(c).Some?
    ensures Symbol(Value(c).value) == c && c != '='
  {
  }

  /** The four symbols' bits, cut into bytes and put together again. */
  lemma Bits(a: nat, b: nat, c: nat, d: nat)
    requires a < 64 && b < 64 && c < 64 && d < 64
    ensures var x, y, z := a * 4 + b / 16, b % 16 * 16 + c / 4, c % 4 * 64 + d;
      x / 4 == a && x % 4 * 16 + y / 16 == b && y % 16 * 4 + z / 64 == c && z % 64 == d
  {
  }

  lemma Bytes(x: byte, y: byte, z: byte)
    ensures var a, b, c, d := x / 4, x % 4 * 16 + y / 16, y % 16 * 4 + z / 64, z % 64;
      a * 4 + b / 16 == x && b % 16 * 16 + c / 4 == y && c % 4 * 64 + d == z
  {
  }

  lemma DecodeOne(a: nat, b: nat)
    requires a < 64 && b < 64 && b % 16 == 0
    ensures Decode([Symbol(a), Symbol(b), '=', '=']) == Some([a * 4 + b / 16])
  {
    SymbolValue(a);
    SymbolValue(b);
  }

  lemma DecodeTwo(a: nat, b: nat, c: nat)
    requires a < 64 && b < 64 && c < 64 && c % 4 == 0
    ensures Decode([Symbol(a), Symbol(b), Symbol(c), '=']) == Some([a * 4 + b / 16, b % 16 * 16 + c / 4])
  {
    SymbolValue(a);
    SymbolValue(b);
    SymbolValue(c);
  }

  /** What three bytes are written as gives back the bytes. */
  lemma Ungroup(x: byte, y: byte, z: byte)
    ensures
      var p, q, r, t := Symbol(x / 4), Symbol(x % 4 * 16 + y / 16), Symbol(y % 16 * 4 + z / 64), Symbol(z % 64);
      && Value(p).Some? && Value(q).Some? && Value(r).Some? && Value(t).Some? && r != '=' && t != '='
      && First(p, q) == x && Second(q, r) == y && Third(r, t) == z
  {
    SymbolValue(x / 4);
    SymbolValue(x % 4 * 16 + y / 16);
    SymbolValue(y % 16 * 4 + z / 64);
    SymbolValue(z % 64);
    Bytes(x, y, z);
  }

  lemma OneBack(x: byte)
    ensures Decode(Encode([x])) == Some([x])
  {
    Bytes(x, 0, 0);
    DecodeOne(x / 4, x % 4 * 16);
  }

  lemma TwoBack(x: byte, y: byte)
    ensures Decode(Encode([x, y])) == Some([x, y])
  {
    var a, b, c := x / 4, x % 4 * 16 + y / 16, y % 16 * 4;
    assert a * 4 + b / 16 == x && b % 16 * 16 + c / 4 == y by {
      Bytes(x, y, 0);
    }
    EncodeTwo(x, y);
    DecodeTwo(a, b, c);
  }

  lemma EncodeThree(x: byte, y: byte, z: byte, rest: seq<byte>)
    ensures Encode([x, y, z] + rest)
      == [Symbol(x / 4), Symbol(x % 4 * 16 + y / 16), Symbol(y % 16 * 4 + z / 64), Symbol(z % 64)] + Encode(rest)
  {
    assert ([x, y, z] + rest)[3..] == rest;
  }

  lemma DecodeFour(p: char, q: char, r: char, t: char, tail: string)
    requires Value(p).Some? && Value(q).Some? && Value(r).Some? && Value(t).Some? && r != '=' && t != '='
    requires Decode(tail).Some?
    ensures Decode([p, q, r, t] + tail) == Some([First(p, q), Second(q, r), Third(r, t)] + Decode(tail).value)
  {
    assert ([p, q, r, t] + tail)[4..] == tail;
  }

  lemma ThreeBack(x: byte, y: byte, z: byte, rest: seq<byte>)
    requires Decode(Encode(rest)) == Some(rest)
    ensures Decode(Encode([x, y, z] + rest)) == Some([x, y, z] + rest)
  {
    EncodeThree(x, y, z, rest);
    Ungroup(x, y, z);
    DecodeFour(Symbol(x / 4), Symbol(x % 4 * 16 + y / 16), Symbol(y % 16 * 4 + z / 64), Symbol(z % 64), Encode(rest));
  }

  lemma {:induction false} DecodeEncode(b: seq<byte>)
    ensures Decode(Encode(b)) == Some(b)
  {
    if |b| == 1 {
      OneBack(b[0]);
      assert b == [b[0]];
    } else if |b| == 2 {
      TwoBack(b[0], b[1]);
      assert b == [b[0], b[1]];
    } else if |b| > 2 {
      DecodeEncode(b[3..]);
      ThreeBack(b[0], b[1], b[2], b[3..]);
      assert b == [b[0], b[1], b[2]] + b[3..];
    }
  }

  /** Four symbols are what their three bytes are written as. */
  lemma Group(p: char, q: char, r: char, t: char)
    requires Value(p).Some? && Value(q).Some? && Value(r).Some? && Value(t).Some?
    ensures
      var x, y, z := First(p, q), Second(q, r), Third(r, t);
      && p == Symbol(x / 4) && q == Symbol(x % 4 * 16 + y / 16)
      && r == Symbol(y % 16 * 4 + z / 64) && t == Symbol(z % 64)
  {
    ValueSymbol(p);
    ValueSymbol(q);
    ValueSymbol(r);
    ValueSymbol(t);
    Bits(Value(p).value, Value(q).value, Value(r).value, Value(t).value);
  }

  lemma OneWayBack(s: string)
    requires |s| == 4 && s[2] == '=' && Decode(s).Some?
    ensures Encode(Decode(s).value) == s
  {
    OneDecode(s);
    Group(s[0], s[1], 'A', 'A');
    EncodeOne(First(s[0], s[1]));
    assert s == [s[0], s[1], '=', '='];
  }

  lemma OneDecode(s: string)
    requires |s| == 4 && s[2] == '=' && Decode(s).Some?
    ensures s[3] == '=' && Value(s[0]).Some? && Value(s[1]).Some?
    ensures Decode(s) == Some([First(s[0], s[1])]) && Second(s[1], 'A') == 0
  {
  }

  lemma EncodeOne(x: byte)
    ensures Encode([x]) == [Symbol(x / 4), Symbol(x % 4 * 16), '=', '=']
  {
  }

  lemma TwoDecode(s: string)
    requires |s| == 4 && s[2] != '=' && s[3] == '=' && Decode(s).Some?
    ensures Value(s[0]).Some? && Value(s[1]).Some? && Value(s[2]).Some?
    ensures Decode(s) == Some([First(s[0], s[1]), Second(s[1], s[2])]) && Third(s[2], 'A') == 0
  {
  }

  lemma TwoWayBack(s: string)
    requires |s| == 4 && s[2] != '=' && s[3] == '=' && Decode(s).Some?
    ensures Encode(Decode(s).value) == s
  {
    TwoDecode(s);
    Group(s[0], s[1], s[2], 'A');
    EncodeTwo(First(s[0], s[1]), Second(s[1], s[2]));
    assert s == [s[0], s[1], s[2], '='];
  }

  lemma EncodeTwo(x: byte, y: byte)
    ensures Encode([x, y]) == [Symbol(x / 4), Symbol(x % 4 * 16 + y / 16), Symbol(y % 16 * 4), '=']
  {
  }

  lemma WholeDecodes(s: string)
    requires Decode(s).Some? && |s| >= 4 && s[2] != '=' && s[3] != '='
    ensures Value(s[0]).Some? && Value(s[1]).Some? && Value(s[2]).Some? && Value(s[3]).Some? && Decode(s[4..]).Some?
    ensures Decode(s).value == [First(s[0], s[1]), Second(s[1], s[2]), Third(s[2], s[3])] + Decode(s[4..]).value
  {
  }

  lemma WrittenThree(s: string, x: byte, y: byte, z: byte, rest: seq<byte>)
    requires |s| >= 4 && Encode(rest) == s[4..]
    requires s[0] == Symbol(x / 4) && s[1] == Symbol(x % 4 * 16 + y / 16)
    requires s[2] == Symbol(y % 16 * 4 + z / 64) && s[3] == Symbol(z % 64)
    ensures Encode([x, y, z] + rest) == s
  {
    EncodeThree(x, y, z, rest);
    assert s == [s[0], s[1], s[2], s[3]] + s[4..];
  }

  lemma WholeWayBack(s: string)
    requires Decode(s).Some? && |s| >= 4 && s[2] != '=' && s[3] != '='
    requires Decode(s[4..]).Some? ==> Encode(Decode(s[4..]).value) == s[4..]
    ensures Encode(Decode(s).value) == s
  {
    WholeDecodes(s);
    Group(s[0], s[1], s[2], s[3]);
    WrittenThree(s, First(s[0], s[1]), Second(s[1], s[2]), Third(s[2], s[3]), Decode(s[4..]).value);
  }

  lemma {:induction false} EncodeDecode(s: string)
    requires Decode(s).Some?
    ensures Encode(Decode(s).value) == s
  {
    if s != "" {
      if s[2] == '=' {
        OneWayBack(s);
      } else if s[3] == '=' {
        TwoWayBack(s);
      } else {
        if Decode(s[4..]).Some? {
          EncodeDecode(s[4..]);
        }
        WholeWayBack(s);
      }
    }
  }

  // ---- the pattern is the decoder's domain -----------------------------------------------------

  predicate AllSymbols(s: string) {
    forall i | 0 <= i < |s| :: s[i] in ALPHABET
  }

  lemma InAlphabet(c: char)
    ensures c in ALPHABET <==> Value(c).Some?
  {
  }

  lemma CatMatches(a: Re, b: Re, s: string, i: nat)
    requires i <= |s| && Matches(a, s[..i]) && Matches(b, s[i..])
    ensures Matches(Cat(a, b), s)
  {
  }

  /** One character in front. */
  lemma OneThen(chars: set<char>, r: Re, s: string)
    ensures Matches(Cat(OneOf(chars), r), s) <==> s != "" && s[0] in chars && Matches(r, s[1..])
  {
    if s != "" && s[0] in chars && Matches(r, s[1..]) {
      CatMatches(OneOf(chars), r, s, 1);
    }
  }

  lemma {:induction false} TimesSymbol(n: nat, s: string)
    ensures Matches(Times(SYMBOL, n), s) <==> |s| == n && AllSymbols(s)
    decreases n
  {
    if n > 0 {
      OneThen(ALPHABET, Times(SYMBOL, n - 1), s);
      if s != "" {
        TimesSymbol(n - 1, s[1..]);
        assert s == [s[0]] + s[1..];
      }
    }
  }

  /** How many low bits of the last symbol a padded group leaves unused. */
  lemma UnusedBits(c: char)
    ensures c in FOUR_BITS_FREE <==> Value(c).Some? && Value(c).value % 16 == 0
    ensures c in TWO_BITS_FREE <==> Value(c).Some? && Value(c).value % 4 == 0
  {
  }

  lemma PadShape(s: string)
    ensures Matches(PAD, s) <==> |s| == 1 && s[0] == '='
  {
  }

  lemma OneByteShape(s: string)
    ensures Matches(ONE_BYTE, s) <==>
      |s| == 4 && s[0] in ALPHABET && s[1] in FOUR_BITS_FREE && s[2] == '=' && s[3] == '='
  {
    OneThen(ALPHABET, ONE_BYTE.second, s);
    if s != "" {
      OneThen(FOUR_BITS_FREE, Cat(PAD, PAD), s[1..]);
      if |s| > 1 {
        assert s[1..][1..] == s[2..];
        OneThen({'='}, PAD, s[2..]);
        if |s| > 2 {
          assert s[2..][1..] == s[3..];
          PadShape(s[3..]);
        }
      }
    }
  }

  lemma TwoBytesShape(s: string)
    ensures Matches(TWO_BYTES, s) <==>
      |s| == 4 && s[0] in ALPHABET && s[1] in ALPHABET && s[2] in TWO_BITS_FREE && s[3] == '='
  {
    OneThen(ALPHABET, TWO_BYTES.second, s);
    if s != "" {
      OneThen(ALPHABET, Cat(OneOf(TWO_BITS_FREE), PAD), s[1..]);
      if |s| > 1 {
        assert s[1..][1..] == s[2..];
        OneThen(TWO_BITS_FREE, PAD, s[2..]);
        if |s| > 2 {
          assert s[2..][1..] == s[3..];
          PadShape(s[3..]);
        }
      }
    }
  }

  lemma OneByteDecodes(s: string)
    ensures Matches(ONE_BYTE, s) <==> |s| == 4 && s[2] == '=' && Decode(s).Some?
  {
    OneByteShape(s);
    if |s| == 4 && s[2] == '=' {
      InAlphabet(s[0]);
      UnusedBits(s[1]);
    }
  }

  lemma TwoBytesDecode(s: string)
    ensures Matches(TWO_BYTES, s) <==> |s| == 4 && s[2] != '=' && s[3] == '=' && Decode(s).Some?
  {
    TwoBytesShape(s);
    if |s| == 4 && s[3] == '=' {
      InAlphabet(s[0]);
      InAlphabet(s[1]);
      UnusedBits(s[2]);
    }
  }

  lemma LastGroupDecodes(s: string)
    ensures Matches(LAST_GROUP, s) <==> s == "" || (|s| == 4 && s[3] == '=' && Decode(s).Some?)
  {
    OneByteDecodes(s);
    TwoBytesDecode(s);
  }

  lemma FirstFour(s: string)
    requires |s| >= 4
    ensures AllSymbols(s[..4]) <==>
      Value(s[0]).Some? && Value(s[1]).Some? && Value(s[2]).Some? && Value(s[3]).Some?
  {
    var t := s[..4];
    assert t[0] == s[0] && t[1] == s[1] && t[2] == s[2] && t[3] == s[3];
    forall i | 0 <= i < 4 ensures t[i] in ALPHABET <==> Value(s[i]).Some? {
      InAlphabet(t[i]);
    }
  }

  lemma WholeGroup(s: string)
    requires |s| >= 4
    ensures AllSymbols(s[..4]) ==> (Decode(s).Some? <==> Decode(s[4..]).Some?)
    ensures Decode(s).Some? && !AllSymbols(s[..4]) ==> |s| == 4 && s[3] == '='
  {
    FirstFour(s);
    if Value(s[2]).Some? {
      ValueSymbol(s[2]);
    }
    if Value(s[3]).Some? {
      ValueSymbol(s[3]);
    }
  }

  lemma {:induction false} GroupsDecode(s: string, i: nat)
    requires i <= |s| && Matches(Star(Times(SYMBOL, 4)), s[..i]) && Matches(LAST_GROUP, s[i..])
    ensures Decode(s).Some?
    decreases |s|
  {
    var group := Times(SYMBOL, 4);
    if i == 0 {
      assert s[i..] == s;
      LastGroupDecodes(s);
    } else {
      var j :| 0 < j <= i && Matches(group, s[..i][..j]) && Matches(Star(group), s[..i][j..]);
      TimesSymbol(4, s[..i][..j]);
      assert s[..i][..j] == s[..4];
      assert s[..i][j..] == s[4..][..i - 4];
      assert s[i..] == s[4..][i - 4..];
      GroupsDecode(s[4..], i - 4);
      WholeGroup(s);
    }
  }

  lemma {:induction false} DecodableMatches(s: string)
    requires Decode(s).Some?
    ensures exists i | 0 <= i <= |s| :: Matches(Star(Times(SYMBOL, 4)), s[..i]) && Matches(LAST_GROUP, s[i..])
    decreases |s|
  {
    var group := Times(SYMBOL, 4);
    if s == "" || !AllSymbols(s[..4]) {
      if s != "" {
        WholeGroup(s);
      }
      LastGroupDecodes(s);
      assert s[..0] == "" && s[0..] == s;
    } else {
      WholeGroup(s);
      DecodableMatches(s[4..]);
      var i :| 0 <= i <= |s[4..]| && Matches(Star(group), s[4..][..i]) && Matches(LAST_GROUP, s[4..][i..]);
      var t := s[..i + 4];
      TimesSymbol(4, s[..4]);
      assert t[..4] == s[..4] && t[4..] == s[4..][..i];
      assert Matches(Star(group), t);
      assert s[i + 4..] == s[4..][i..];
    }
  }

  /** A text matches the pattern exactly when it decodes, exactly when it is the encoding of
      some bytes; and then of one run of bytes only. */
  lemma PatternIsDecodable(s: string)
    ensures Matches(PATTERN, s) <==> Decode(s).Some?
    ensures Decode(s).Some? <==> exists b :: Encode(b) == s
    ensures forall b | Encode(b) == s :: Decode(s) == Some(b)
  {
    if Matches(PATTERN, s) {
      var i :| 0 <= i <= |s| && Matches(Star(Times(SYMBOL, 4)), s[..i]) && Matches(LAST_GROUP, s[i..]);
      GroupsDecode(s, i);
    }
    if Decode(s).Some? {
      DecodableMatches(s);
      EncodeDecode(s);
    }
    forall b | Encode(b) == s ensures Decode(s) == Some(b) {
      DecodeEncode(b);
    }
  }
}
