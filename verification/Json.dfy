/** Canonical JSON (RFC 8259): compact, keys sorted at every depth, escaped in the shortest way. */
module Json {
  import opened Wrappers

  // A Doc is a value as the Rust side holds it, object members in insertion order; a Json is what it means,
  // objects being maps. Numbers are integers.

  datatype Json =
    | Null
    | Bool(b: bool)
    | Num(n: int)
    | Str(s: string)
    | Arr(items: seq<Json>)
    | Obj(members: map<string, Json>)

  // ---- the order of keys ------------------------------------------------------------

  /** Character by character, a proper prefix first. */
  predicate Less(a: string, b: string) {
    if |b| == 0 then false
    else if |a| == 0 then true
    else a[0] < b[0] || (a[0] == b[0] && Less(a[1..], b[1..]))
  }

  lemma LessTotal(a: string, b: string)
    ensures Less(a, b) || a == b || Less(b, a)
  {
    if |a| > 0 && |b| > 0 && a[0] == b[0] {
      LessTotal(a[1..], b[1..]);
      assert a == [a[0]] + a[1..] && b == [b[0]] + b[1..];
    }
  }

  lemma LessStrict(a: string, b: string)
    requires Less(a, b)
    ensures a != b && !Less(b, a)
  {
    if |a| > 0 && |b| > 0 && a[0] == b[0] {
      LessStrict(a[1..], b[1..]);
    }
  }

  lemma LessTransitive(a: string, b: string, c: string)
    requires Less(a, b) && Less(b, c)
    ensures Less(a, c)
  {
    if |a| > 0 && a[0] == b[0] == c[0] {
      LessTransitive(a[1..], b[1..], c[1..]);
    }
  }

  predicate DiffersAt(a: string, b: string, i: nat) {
    i < |a| && i < |b| && a[..i] == b[..i] && a[i] < b[i]
  }

  /** Texts are ordered by their first difference: a text before any it begins, and otherwise by the
      characters in which they differ. */
  lemma {:induction false} LessIff(a: string, b: string)
    ensures Less(a, b) <==> a < b || exists i: nat :: DiffersAt(a, b, i)
  {
    if a != [] && b != [] {
      LessIff(a[1..], b[1..]);
      LessAfter(a, b);
    }
  }

  lemma LessAfter(a: string, b: string)
    requires a != [] && b != []
    ensures a < b <==> a[0] == b[0] && a[1..] < b[1..]
    ensures (exists i: nat :: DiffersAt(a, b, i)) <==>
      a[0] < b[0] || (a[0] == b[0] && exists i: nat :: DiffersAt(a[1..], b[1..], i))
  {
    assert a == [a[0]] + a[1..] && b == [b[0]] + b[1..];
    if i: nat :| DiffersAt(a, b, i) {
      if i > 0 {
        assert a[..i][0] == a[0] && b[..i][0] == b[0];
        assert a[1..][..i - 1] == a[..i][1..] && b[1..][..i - 1] == b[..i][1..];
        assert DiffersAt(a[1..], b[1..], i - 1);
      }
    }
    if a[0] < b[0] {
      assert a[..0] == b[..0] && DiffersAt(a, b, 0);
    }
    if i: nat :| a[0] == b[0] && DiffersAt(a[1..], b[1..], i) {
      assert a[..i + 1] == [a[0]] + a[1..][..i] && b[..i + 1] == [b[0]] + b[1..][..i];
      assert DiffersAt(a, b, i + 1);
    }
  }

  predicate Ascending(ks: seq<string>) {
    forall i, j | 0 <= i < j < |ks| :: Less(ks[i], ks[j])
  }

  predicate Lists(ks: seq<string>, keys: set<string>) {
    && (forall k <- keys :: k in ks)
    && (forall i | 0 <= i < |ks| :: ks[i] in keys)
  }

  /** `k` put where it belongs. */
  function InsertKey(k: string, ks: seq<string>): (r: seq<string>)
    ensures multiset(r) == multiset(ks) + multiset{k}
  {
    if ks == [] || Less(k, ks[0]) then [k] + ks
    else
      assert ks == [ks[0]] + ks[1..];
      [ks[0]] + InsertKey(k, ks[1..])
  }

  function SortKeys(ks: seq<string>): (r: seq<string>)
    ensures multiset(r) == multiset(ks)
  {
    if ks == [] then []
    else
      assert ks == [ks[0]] + ks[1..];
      InsertKey(ks[0], SortKeys(ks[1..]))
  }

  lemma {:induction false} InsertAscending(k: string, ks: seq<string>)
    requires Ascending(ks) && k !in ks
    ensures Ascending(InsertKey(k, ks))
  {
    var r := InsertKey(k, ks);
    if ks == [] {
    } else if Less(k, ks[0]) {
      forall j | 0 < j < |r| ensures Less(k, r[j]) {
        if j > 1 {
          LessTransitive(k, ks[0], r[j]);
        }
      }
    } else {
      LessTotal(k, ks[0]);
      var rest := InsertKey(k, ks[1..]);
      InsertAscending(k, ks[1..]);
      forall j | 0 < j < |r| ensures Less(ks[0], r[j]) {
        assert r[j] == rest[j - 1] && rest[j - 1] in multiset(rest);
        assert r[j] == k || r[j] in multiset(ks[1..]);
      }
    }
  }

  lemma {:induction false} SortAscending(ks: seq<string>)
    requires forall i, j | 0 <= i < j < |ks| :: ks[i] != ks[j]
    ensures Ascending(SortKeys(ks))
  {
    if ks != [] {
      SortAscending(ks[1..]);
      assert ks[0] !in multiset(SortKeys(ks[1..]));
      InsertAscending(ks[0], SortKeys(ks[1..]));
    }
  }

  lemma KeysExist(keys: set<string>)
    ensures exists ks :: Ascending(ks) && Lists(ks, keys)
  {
    if keys == {} {
      assert Ascending([]) && Lists([], keys);
    } else {
      var k :| k in keys;
      KeysExist(keys - {k});
      var ks :| Ascending(ks) && Lists(ks, keys - {k});
      InsertAscending(k, ks);
      ListsInsert(k, ks, keys - {k});
    }
  }

  lemma ListsInsert(k: string, ks: seq<string>, keys: set<string>)
    requires Lists(ks, keys)
    ensures Lists(InsertKey(k, ks), keys + {k})
  {
    var r := InsertKey(k, ks);
    forall x <- keys + {k} ensures x in r {
      assert x in multiset(r);
    }
    forall i | 0 <= i < |r| ensures r[i] in keys + {k} {
      assert r[i] in multiset(r);
    }
  }

  /** The keys of an object in canonical order. */
  ghost function KeyList(keys: set<string>): (ks: seq<string>)
    ensures Ascending(ks) && Lists(ks, keys)
  {
    KeysExist(keys);
    var ks :| Ascending(ks) && Lists(ks, keys);
    ks
  }

  /** There is only one canonical order. */
  lemma {:induction false} KeyListUnique(a: seq<string>, b: seq<string>, keys: set<string>)
    requires Ascending(a) && Ascending(b) && Lists(a, keys) && Lists(b, keys)
    ensures a == b
    decreases |a|
  {
    assert a != [] ==> a[0] in keys;
    assert b != [] ==> b[0] in keys;
    if a != [] && b != [] {
      if a[0] != b[0] {
        var i :| 0 <= i < |b| && b[i] == a[0];
        var j :| 0 <= j < |a| && a[j] == b[0];
        LessStrict(a[0], a[j]);
        assert false;
      }
      TailLists(a, keys);
      TailLists(b, keys);
      KeyListUnique(a[1..], b[1..], keys - {a[0]});
    }
  }

  lemma TailLists(a: seq<string>, keys: set<string>)
    requires a != [] && Ascending(a) && Lists(a, keys)
    ensures Ascending(a[1..]) && Lists(a[1..], keys - {a[0]})
  {
    forall i | 1 <= i < |a| ensures a[i] != a[0] {
      LessStrict(a[0], a[i]);
    }
    forall k <- keys - {a[0]} ensures k in a[1..] {
      var i :| 0 <= i < |a| && a[i] == k;
      assert a[1..][i - 1] == k;
    }
  }

  // ---- printing -------------------------------------------------------------------------

  const HEX: string := "0123456789abcdef"

  const BACKSPACE := '\U{8}'
  const FORM_FEED := '\U{c}'

  /** Control characters, the quote and the backslash are escaped; nothing else is. */
  function Escape(c: char): string {
    if c == '"' then "\\\""
    else if c == '\\' then "\\\\"
    else if c == BACKSPACE then "\\b"
    else if c == FORM_FEED then "\\f"
    else if c == '\n' then "\\n"
    else if c == '\r' then "\\r"
    else if c == '\t' then "\\t"
    else if c < ' ' then "\\u00" + [HEX[c as int / 16], HEX[c as int % 16]]
    else [c]
  }

  /** The seven short escapes, as RFC 8259 section 7 has them. */
  const SHORT: map<char, char> :=
    map['"' := '"', '\\' := '\\', '\U{8}' := 'b', '\U{c}' := 'f', '\n' := 'n', '\r' := 'r', '\t' := 't']

  /** A character stands for itself, or is escaped in the shortest way there is: with one letter,
      or, for the other control characters, with its number in four digits, letters small. */
  lemma EscapeIs(c: char)
    ensures c !in SHORT && c >= ' ' ==> Escape(c) == [c]
    ensures c in SHORT ==> Escape(c) == ['\\', SHORT[c]]
    ensures c !in SHORT && c < ' ' ==>
      exists high: nat, low: nat ::
        && high < 16 && low < 16 && high * 16 + low == c as nat
        && Escape(c) == ['\\', 'u', '0', '0', "0123456789abcdef"[high], "0123456789abcdef"[low]]
  {
    if c !in SHORT && c < ' ' {
      var high, low := c as nat / 16, c as nat % 16;
      assert high * 16 + low == c as nat;
      assert Escape(c) == ['\\', 'u', '0', '0', "0123456789abcdef"[high], "0123456789abcdef"[low]];
    }
  }

  function EscapeAll(s: string): string {
    if s == "" then "" else Escape(s[0]) + EscapeAll(s[1..])
  }

  function Quote(s: string): string {
    "\"" + EscapeAll(s) + "\""
  }

  predicate AllDigits(t: string) {
    forall i | 0 <= i < |t| :: '0' <= t[i] <= '9'
  }

  function Digits(n: nat): (r: string)
    ensures r != "" && AllDigits(r)
  {
    if n < 10 then [HEX[n]] else Digits(n / 10) + [HEX[n % 10]]
  }

  function Decimal(n: int): string {
    if n < 0 then "-" + Digits(-n) else Digits(n)
  }

  function Keyword(b: bool): string {
    if b then "true" else "false"
  }

  /** The canonical form of a value. */
  ghost function Canon(v: Json): string
    decreases v, 1, 0
  {
    match v
    case Null => "null"
    case Bool(b) => Keyword(b)
    case Num(n) => Decimal(n)
    case Str(s) => Quote(s)
    case Arr(items) => "[" + CanonItems(v, 0) + "]"
    case Obj(members) => "{" + CanonMembers(v, KeyList(members.Keys)) + "}"
  }

  /** The items from the `i`th on, separated by commas. */
  ghost function CanonItems(v: Json, i: nat): string
    requires v.Arr? && i <= |v.items|
    decreases v, 0, |v.items| - i
  {
    if i == |v.items| then ""
    else Canon(v.items[i]) + (if i + 1 < |v.items| then "," + CanonItems(v, i + 1) else "")
  }

  ghost function CanonMembers(v: Json, ks: seq<string>): string
    requires v.Obj? && forall i | 0 <= i < |ks| :: ks[i] in v.members
    decreases v, 0, |ks|
  {
    if ks == [] then ""
    else Quote(ks[0]) + ":" + Canon(v.members[ks[0]]) + (if |ks| > 1 then "," + CanonMembers(v, ks[1..]) else "")
  }

  // ---- reading back ---------------------------------------------------------------------

  /** What was read, and what is left of the text. */
  datatype Read<+T> = Nothing | Got(value: T, rest: string)

  function HexValue(c: char): Option<int> {
    if '0' <= c <= '9' then Some(c as int - '0' as int)
    else if 'a' <= c <= 'f' then Some(c as int - 'a' as int + 10)
    else None
  }

  /** One escape, from behind its backslash. */
  function ReadEscape(t: string): (r: Read<char>)
    ensures r.Got? ==> |r.rest| < |t|
  {
    if t == "" then Nothing
    else if t[0] == '"' then Got('"', t[1..])
    else if t[0] == '\\' then Got('\\', t[1..])
    else if t[0] == 'b' then Got(BACKSPACE, t[1..])
    else if t[0] == 'f' then Got(FORM_FEED, t[1..])
    else if t[0] == 'n' then Got('\n', t[1..])
    else if t[0] == 'r' then Got('\r', t[1..])
    else if t[0] == 't' then Got('\t', t[1..])
    else if |t| >= 5 && t[0] == 'u' && t[1] == '0' && t[2] == '0' && HexValue(t[3]).Some? && HexValue(t[4]).Some?
    then Got((HexValue(t[3]).value * 16 + HexValue(t[4]).value) as char, t[5..])
    else Nothing
  }

  /** The text of a string, from behind its opening quote. */
  function ReadText(t: string): (r: Read<string>)
    ensures r.Got? ==> |r.rest| < |t|
    decreases |t|
  {
    if t == "" || t[0] < ' ' then Nothing
    else if t[0] == '"' then Got("", t[1..])
    else if t[0] == '\\' then
      match ReadEscape(t[1..])
      case Nothing => Nothing
      case Got(c, rest) =>
        (match ReadText(rest)
         case Nothing => Nothing
         case Got(s, rest') => Got([c] + s, rest'))
    else
      match ReadText(t[1..])
      case Nothing => Nothing
      case Got(s, rest) => Got([t[0]] + s, rest)
  }

  predicate StartsWithDigit(t: string) {
    t != "" && '0' <= t[0] <= '9'
  }

  /** All the digits at the front, `n` being what the digits before them say. */
  function ReadDigits(t: string, n: int): (r: Read<int>)
    ensures r.Got? && |r.rest| <= |t| && (StartsWithDigit(t) ==> |r.rest| < |t|)
    decreases |t|
  {
    if StartsWithDigit(t) then ReadDigits(t[1..], n * 10 + (t[0] as int - '0' as int)) else Got(n, t)
  }

  function ReadNumber(t: string): (r: Read<int>)
    ensures r.Got? ==> |r.rest| < |t|
  {
    if StartsWithDigit(t) then
      var d := ReadDigits(t, 0);
      Got(d.value, d.rest)
    else if t != "" && t[0] == '-' && StartsWithDigit(t[1..]) then
      var d := ReadDigits(t[1..], 0);
      Got(-d.value, d.rest)
    else Nothing
  }

  function Expect(t: string, word: string, v: Json): (r: Read<Json>)
    ensures r.Got? && word != "" ==> |r.rest| < |t|
  {
    if word <= t then Got(v, t[|word|..]) else Nothing
  }

  /** A reader of compact JSON: the independent inverse of the printer. */
  function ReadValue(t: string): (r: Read<Json>)
    ensures r.Got? ==> |r.rest| < |t|
    decreases |t|, 2
  {
    if t == "" then Nothing
    else if t[0] == 'n' then Expect(t, "null", Null)
    else if t[0] == 't' then Expect(t, "true", Bool(true))
    else if t[0] == 'f' then Expect(t, "false", Bool(false))
    else if t[0] == '"' then
      match ReadText(t[1..])
      case Nothing => Nothing
      case Got(s, rest) => Got(Str(s), rest)
    else if t[0] == '[' then
      if |t| > 1 && t[1] == ']' then Got(Arr([]), t[2..]) else ReadItems(t[1..], [])
    else if t[0] == '{' then
      if |t| > 1 && t[1] == '}' then Got(Obj(map[]), t[2..]) else ReadMembers(t[1..], map[])
    else
      match ReadNumber(t)
      case Nothing => Nothing
      case Got(n, rest) => Got(Num(n), rest)
  }

  function ReadItems(t: string, before: seq<Json>): (r: Read<Json>)
    ensures r.Got? ==> |r.rest| < |t|
    decreases |t|, 3
  {
    match ReadValue(t)
    case Nothing => Nothing
    case Got(v, rest) =>
      if rest == "" then Nothing
      else if rest[0] == ',' then ReadItems(rest[1..], before + [v])
      else if rest[0] == ']' then Got(Arr(before + [v]), rest[1..])
      else Nothing
  }

  function ReadMembers(t: string, before: map<string, Json>): (r: Read<Json>)
    ensures r.Got? ==> |r.rest| < |t|
    decreases |t|, 3
  {
    if t == "" || t[0] != '"' then Nothing
    else
      match ReadText(t[1..])
      case Nothing => Nothing
      case Got(k, rest) =>
        if rest == "" || rest[0] != ':' then Nothing
        else
          match ReadValue(rest[1..])
          case Nothing => Nothing
          case Got(v, rest') =>
            if rest' == "" then Nothing
            else if rest'[0] == ',' then ReadMembers(rest'[1..], before[k := v])
            else if rest'[0] == '}' then Got(Obj(before[k := v]), rest'[1..])
            else Nothing
  }

  /** A whole line. */
  function Parse(t: string): Option<Json> {
    match ReadValue(t)
    case Got(v, "") => Some(v)
    case _ => None
  }

  // ---- the reader inverts the printer -----------------------------------------------------

  lemma EscapeBack(c: char, tail: string)
    ensures var t := Escape(c) + tail;
      if Escape(c) == [c] then c >= ' ' && c != '"' && c != '\\'
      else t[0] == '\\' && t[1..] == Escape(c)[1..] + tail && ReadEscape(t[1..]) == Got(c, tail)
  {
    if c < ' ' {
      assert HexValue(HEX[c as int / 16]).value * 16 + HexValue(HEX[c as int % 16]).value == c as int;
    }
  }

  lemma {:induction false} ReadTextBack(s: string, rest: string)
    ensures ReadText(EscapeAll(s) + "\"" + rest) == Got(s, rest)
  {
    if s == "" {
      assert EscapeAll(s) + "\"" + rest == "\"" + rest;
    } else {
      var c, tail := s[0], EscapeAll(s[1..]) + "\"" + rest;
      assert EscapeAll(s) + "\"" + rest == Escape(c) + tail;
      ReadTextBack(s[1..], rest);
      ReadTextOne(c, s[1..], rest, tail);
      assert s == [c] + s[1..];
    }
  }

  /** One character in front of what reads back. */
  lemma ReadTextOne(c: char, s: string, rest: string, tail: string)
    requires ReadText(tail) == Got(s, rest)
    ensures ReadText(Escape(c) + tail) == Got([c] + s, rest)
  {
    EscapeBack(c, tail);
    if Escape(c) == [c] {
      assert (Escape(c) + tail)[1..] == tail;
    }
  }

  lemma QuoteFront(body: string, rest: string)
    ensures ("\"" + body + "\"" + rest)[0] == '"' && ("\"" + body + "\"" + rest)[1..] == body + "\"" + rest
  {
  }

  lemma ReadQuoteBack(s: string, rest: string)
    ensures var t := Quote(s) + rest;
      t[0] == '"' && t[1..] == EscapeAll(s) + "\"" + rest && ReadText(t[1..]) == Got(s, rest)
  {
    QuoteFront(EscapeAll(s), rest);
    ReadTextBack(s, rest);
  }

  /** What a run of digits says after a number `n`. */
  function Said(ds: string, n: int): int {
    if ds == "" then n else Said(ds[1..], n * 10 + (ds[0] as int - '0' as int))
  }

  lemma {:induction false} SaidLast(ds: string, c: char, n: int)
    ensures Said(ds + [c], n) == Said(ds, n) * 10 + (c as int - '0' as int)
  {
    if ds == "" {
      assert ds + [c] == [c];
      assert Said([c], n) == Said("", n * 10 + (c as int - '0' as int));
    } else {
      assert (ds + [c])[1..] == ds[1..] + [c];
      SaidLast(ds[1..], c, n * 10 + (ds[0] as int - '0' as int));
    }
  }

  lemma {:induction false} DigitsSay(n: nat)
    ensures Said(Digits(n), 0) == n
  {
    if n < 10 {
      assert Said(Digits(n), 0) == Said("", n);
    } else {
      DigitsSay(n / 10);
      SaidLast(Digits(n / 10), HEX[n % 10], 0);
    }
  }

  lemma {:induction false} ReadDigitsBack(ds: string, rest: string, n: int)
    requires AllDigits(ds) && !StartsWithDigit(rest)
    ensures ReadDigits(ds + rest, n) == Got(Said(ds, n), rest)
    decreases |ds|
  {
    if ds == "" {
      assert ds + rest == rest;
    } else {
      assert (ds + rest)[1..] == ds[1..] + rest;
      ReadDigitsBack(ds[1..], rest, n * 10 + (ds[0] as int - '0' as int));
    }
  }

  lemma ReadSigned(ds: string, rest: string, m: int)
    requires ds != "" && AllDigits(ds) && !StartsWithDigit(rest) && Said(ds, 0) == m
    ensures ReadNumber(ds + rest) == Got(m, rest) && ReadNumber("-" + ds + rest) == Got(-m, rest)
  {
    ReadDigitsBack(ds, rest, 0);
    assert (ds + rest)[0] == ds[0];
    assert ("-" + ds + rest)[1..] == ds + rest;
  }

  lemma ReadNumberBack(n: int, rest: string)
    requires !StartsWithDigit(rest)
    ensures Decimal(n) != "" && (Decimal(n)[0] == '-' || '0' <= Decimal(n)[0] <= '9')
    ensures ReadNumber(Decimal(n) + rest) == Got(n, rest)
  {
    var m := if n < 0 then -n else n;
    DigitsSay(m);
    ReadSigned(Digits(m), rest, m);
  }

  /** How a value starts tells what it is, and it never starts like what ends a list. */
  lemma CanonStarts(v: Json)
    ensures Canon(v) != "" && Canon(v)[0] !in {']', '}', ','}
  {
    if v.Num? {
      ReadNumberBack(v.n, "");
    }
  }

  lemma ExpectBack(word: string, rest: string, v: Json)
    ensures Expect(word + rest, word, v) == Got(v, rest)
  {
  }

  lemma ReadTextValueBack(s: string, rest: string)
    ensures ReadValue(Quote(s) + rest) == Got(Str(s), rest)
  {
    ReadQuoteBack(s, rest);
  }

  lemma ReadNumberValueBack(n: int, rest: string)
    requires !StartsWithDigit(rest)
    ensures ReadValue(Decimal(n) + rest) == Got(Num(n), rest)
  {
    ReadNumberBack(n, rest);
  }

  lemma {:induction false} ReadBack(v: Json, rest: string)
    requires !StartsWithDigit(rest)
    ensures ReadValue(Canon(v) + rest) == Got(v, rest)
    decreases v, 1, 0
  {
    match v
    case Null => ExpectBack("null", rest, v);
    case Bool(b) => ExpectBack(Keyword(b), rest, v);
    case Num(n) => ReadNumberValueBack(n, rest);
    case Str(s) => ReadTextValueBack(s, rest);
    case Arr(items) => ReadArrBack(v, rest);
    case Obj(members) => ReadObjBack(v, rest);
  }

  lemma {:induction false} ReadArrBack(v: Json, rest: string)
    requires v.Arr?
    ensures ReadValue(Canon(v) + rest) == Got(v, rest)
    decreases v, 0, |v.items| + 1
  {
    var mid := CanonItems(v, 0);
    Bracketed('[', mid, ']', rest);
    if v.items != [] {
      ReadItemsBack(v, 0, rest);
      assert v.items[..0] == [];
      CanonStarts(v.items[0]);
      assert mid != "" && mid[0] == Canon(v.items[0])[0];
    }
  }

  lemma {:induction false} ReadObjBack(v: Json, rest: string)
    requires v.Obj?
    ensures ReadValue(Canon(v) + rest) == Got(v, rest)
    decreases v, 0, |KeyList(v.members.Keys)| + 1
  {
    var ks := KeyList(v.members.Keys);
    var mid := CanonMembers(v, ks);
    Bracketed('{', mid, '}', rest);
    if ks == [] {
      assert v.members == map[];
    } else {
      ReadMembersBack(v, ks, map[], rest);
      assert mid != "" && mid[0] == '"';
    }
  }

  /** What a reader sees of a bracketed list. */
  lemma Bracketed(open: char, mid: string, close: char, rest: string)
    requires (open == '[' && close == ']') || (open == '{' && close == '}')
    ensures ReadValue([open] + mid + [close] + rest) ==
      if mid == "" then Got(if open == '[' then Arr([]) else Obj(map[]), rest)
      else if mid[0] == close then Got(if open == '[' then Arr([]) else Obj(map[]), (mid + [close] + rest)[1..])
      else if open == '[' then ReadItems(mid + [close] + rest, [])
      else ReadMembers(mid + [close] + rest, map[])
  {
    var t := [open] + mid + [close] + rest;
    assert t[1..] == mid + [close] + rest;
    if mid == "" {
      assert t[2..] == rest;
    } else {
      assert t[1] == mid[0] && t[2..] == (mid + [close] + rest)[1..];
    }
  }

  lemma RegroupItem(c: string, more: string, rest: string)
    ensures c + ("," + more) + "]" + rest == c + ([','] + (more + "]" + rest))
  {
  }

  lemma RegroupLastItem(c: string, rest: string)
    ensures c + "" + "]" + rest == c + ([']'] + rest)
  {
  }

  /** One item and the character behind it. */
  lemma ReadItemBack(w: Json, end: char, rest: string, before: seq<Json>)
    requires end in {',', ']'} && ReadValue(Canon(w) + ([end] + rest)) == Got(w, [end] + rest)
    ensures ReadItems(Canon(w) + ([end] + rest), before) ==
      if end == ',' then ReadItems(rest, before + [w]) else Got(Arr(before + [w]), rest)
  {
    assert ([end] + rest)[1..] == rest;
  }

  lemma {:induction false} ReadItemsBack(v: Json, i: nat, rest: string)
    requires v.Arr? && i < |v.items|
    ensures ReadItems(CanonItems(v, i) + "]" + rest, v.items[..i]) == Got(v, rest)
    decreases v, 0, |v.items| - i
  {
    var w, before := v.items[i], v.items[..i];
    assert before + [w] == v.items[..i + 1];
    if i + 1 < |v.items| {
      var more := CanonItems(v, i + 1);
      RegroupItem(Canon(w), more, rest);
      ReadBack(w, [','] + (more + "]" + rest));
      ReadItemBack(w, ',', more + "]" + rest, before);
      ReadItemsBack(v, i + 1, rest);
    } else {
      assert CanonItems(v, i) == Canon(w) + "";
      RegroupLastItem(Canon(w), rest);
      ReadBack(w, [']'] + rest);
      ReadItemBack(w, ']', rest, before);
      assert v.items[..i + 1] == v.items;
    }
  }

  /** What has been read, and what is still to come, agree with the members. */
  predicate HalfRead(v: Json, ks: seq<string>, before: map<string, Json>)
    requires v.Obj?
  {
    && (forall i | 0 <= i < |ks| :: ks[i] in v.members)
    && (forall k <- before :: k in v.members && before[k] == v.members[k])
    && (forall k <- v.members :: k in before || k in ks)
  }

  lemma HalfReadNext(v: Json, ks: seq<string>, before: map<string, Json>)
    requires v.Obj? && HalfRead(v, ks, before) && ks != []
    ensures HalfRead(v, ks[1..], before[ks[0] := v.members[ks[0]]])
    ensures |ks| == 1 ==> before[ks[0] := v.members[ks[0]]] == v.members
  {
    assert ks == [ks[0]] + ks[1..];
  }

  lemma {:induction false} ReadMembersBack(v: Json, ks: seq<string>, before: map<string, Json>, rest: string)
    requires v.Obj? && ks != [] && HalfRead(v, ks, before)
    ensures ReadMembers(CanonMembers(v, ks) + "}" + rest, before) == Got(v, rest)
    decreases v, 0, |ks|
  {
    var w := v.members[ks[0]];
    HalfReadNext(v, ks, before);
    if |ks| > 1 {
      var more := CanonMembers(v, ks[1..]) + "}" + rest;
      ReadBack(w, [','] + more);
      MoreMembers(v, ks, before, rest);
      ReadMembersBack(v, ks[1..], before[ks[0] := w], rest);
    } else {
      ReadBack(w, ['}'] + rest);
      LastMember(v, ks, before, rest);
    }
  }

  lemma MoreMembers(v: Json, ks: seq<string>, before: map<string, Json>, rest: string)
    requires v.Obj? && |ks| > 1 && forall i | 0 <= i < |ks| :: ks[i] in v.members
    requires
      var w, more := v.members[ks[0]], CanonMembers(v, ks[1..]) + "}" + rest;
      ReadValue(Canon(w) + ([','] + more)) == Got(w, [','] + more)
    ensures ReadMembers(CanonMembers(v, ks) + "}" + rest, before) ==
      ReadMembers(CanonMembers(v, ks[1..]) + "}" + rest, before[ks[0] := v.members[ks[0]]])
  {
    var w, more := v.members[ks[0]], CanonMembers(v, ks[1..]);
    MembersText(Quote(ks[0]), Canon(w), "," + more, rest, ',', more + "}" + rest);
    ReadMemberBack(ks[0], w, ',', more + "}" + rest, before);
  }

  lemma LastMember(v: Json, ks: seq<string>, before: map<string, Json>, rest: string)
    requires v.Obj? && |ks| == 1 && ks[0] in v.members
    requires
      var w := v.members[ks[0]];
      ReadValue(Canon(w) + (['}'] + rest)) == Got(w, ['}'] + rest)
    ensures ReadMembers(CanonMembers(v, ks) + "}" + rest, before) ==
      Got(Obj(before[ks[0] := v.members[ks[0]]]), rest)
  {
    var w := v.members[ks[0]];
    MembersText(Quote(ks[0]), Canon(w), "", rest, '}', rest);
    ReadMemberBack(ks[0], w, '}', rest, before);
  }

  /** The same text, cut behind the first member. */
  lemma MembersText(q: string, c: string, more: string, rest: string, end: char, behind: string)
    requires more + "}" + rest == [end] + behind
    ensures q + ":" + c + more + "}" + rest == q + (":" + (c + ([end] + behind)))
  {
    assert q + ":" + c + more + "}" + rest == q + (":" + (c + (more + "}" + rest)));
  }

  /** One member and the character behind it. */
  lemma ReadMemberBack(k: string, w: Json, end: char, rest: string, before: map<string, Json>)
    requires end in {',', '}'} && ReadValue(Canon(w) + ([end] + rest)) == Got(w, [end] + rest)
    ensures ReadMembers(Quote(k) + (":" + (Canon(w) + ([end] + rest))), before) ==
      if end == ',' then ReadMembers(rest, before[k := w]) else Got(Obj(before[k := w]), rest)
  {
    var after := ":" + (Canon(w) + ([end] + rest));
    ReadQuoteBack(k, after);
    assert after[1..] == Canon(w) + ([end] + rest);
    assert ([end] + rest)[1..] == rest;
  }

  /** Reading a canonical text gives back exactly the value it was printed from. */
  lemma ParseCanon(v: Json)
    ensures Parse(Canon(v)) == Some(v)
  {
    ReadBack(v, "");
    assert Canon(v) + "" == Canon(v);
  }

  /** No two values have the same canonical text. */
  lemma CanonInjective(v: Json, w: Json)
    ensures Canon(v) == Canon(w) <==> v == w
  {
    ParseCanon(v);
    ParseCanon(w);
  }

  // ---- one line ------------------------------------------------------------------------------

  predicate Printable(t: string) {
    forall i | 0 <= i < |t| :: t[i] >= ' '
  }

  lemma {:induction false} EscapePrintable(s: string)
    ensures Printable(EscapeAll(s))
  {
    if s != "" {
      EscapePrintable(s[1..]);
      assert Printable(Escape(s[0]));
    }
  }

  /** A canonical text has no line break, nor any other raw control character. */
  lemma {:induction false} CanonPrintable(v: Json)
    ensures Printable(Canon(v))
    decreases v, 1, 0
  {
    match v
    case Null =>
    case Bool(b) =>
    case Num(n) =>
    case Str(s) => EscapePrintable(s);
    case Arr(items) => ItemsPrintable(v, 0);
    case Obj(members) => MembersPrintable(v, KeyList(members.Keys));
  }

  lemma {:induction false} ItemsPrintable(v: Json, i: nat)
    requires v.Arr? && i <= |v.items|
    ensures Printable(CanonItems(v, i))
    decreases v, 0, |v.items| - i
  {
    if i < |v.items| {
      CanonPrintable(v.items[i]);
      ItemsPrintable(v, i + 1);
    }
  }

  lemma {:induction false} MembersPrintable(v: Json, ks: seq<string>)
    requires v.Obj? && forall i | 0 <= i < |ks| :: ks[i] in v.members
    ensures Printable(CanonMembers(v, ks))
    decreases v, 0, |ks|
  {
    if ks != [] {
      EscapePrintable(ks[0]);
      CanonPrintable(v.members[ks[0]]);
      MembersPrintable(v, ks[1..]);
    }
  }

  // ---- insertion order ------------------------------------------------------------------------

  /** A value as it is built: an object's members in the order they were inserted. */
  datatype Doc =
    | DNull
    | DBool(b: bool)
    | DNum(n: int)
    | DStr(s: string)
    | DArr(items: seq<Doc>)
    | DObj(members: seq<(string, Doc)>)

  predicate Distinct(ms: seq<(string, Doc)>) {
    forall i, j | 0 <= i < j < |ms| :: ms[i].0 != ms[j].0
  }

  /** No object holds a key twice, as the map type of the source guarantees. */
  predicate WellFormed(d: Doc) {
    match d
    case DArr(items) => forall i | 0 <= i < |items| :: WellFormed(items[i])
    case DObj(ms) => Distinct(ms) && forall i | 0 <= i < |ms| :: WellFormed(ms[i].1)
    case _ => true
  }

  function Keys(ms: seq<(string, Doc)>): seq<string> {
    seq(|ms|, i requires 0 <= i < |ms| => ms[i].0)
  }

  function Find(ms: seq<(string, Doc)>, k: string): (i: nat)
    requires k in Keys(ms)
    ensures i < |ms| && ms[i].0 == k
  {
    if ms[0].0 == k then 0
    else
      assert Keys(ms)[1..] == Keys(ms[1..]);
      1 + Find(ms[1..], k)
  }

  /** What a Doc means: insertion order forgotten. */
  function Meaning(d: Doc): Json {
    match d
    case DNull => Null
    case DBool(b) => Bool(b)
    case DNum(n) => Num(n)
    case DStr(s) => Str(s)
    case DArr(items) => Arr(seq(|items|, i requires 0 <= i < |items| => Meaning(items[i])))
    case DObj(ms) => Obj(map k | k in Keys(ms) :: Meaning(ms[Find(ms, k)].1))
  }

  /** `canonical_json`: the keys are collected and sorted, each member looked up. */
  function CanonicalJson(d: Doc): string
    decreases d, 1, 0
  {
    match d
    case DNull => "null"
    case DBool(b) => Keyword(b)
    case DNum(n) => Decimal(n)
    case DStr(s) => Quote(s)
    case DArr(items) => "[" + JoinItems(d, 0) + "]"
    case DObj(ms) =>
      var ks := SortKeys(Keys(ms));
      assert forall i | 0 <= i < |ks| :: ks[i] in multiset(ks);
      "{" + JoinMembers(d, ks) + "}"
  }

  function JoinItems(d: Doc, i: nat): string
    requires d.DArr? && i <= |d.items|
    decreases d, 0, |d.items| - i
  {
    if i == |d.items| then ""
    else CanonicalJson(d.items[i]) + (if i + 1 < |d.items| then "," + JoinItems(d, i + 1) else "")
  }

  function JoinMembers(d: Doc, ks: seq<string>): string
    requires d.DObj? && forall i | 0 <= i < |ks| :: ks[i] in Keys(d.members)
    decreases d, 0, |ks|
  {
    if ks == [] then ""
    else
      var i := Find(d.members, ks[0]);
      Quote(ks[0]) + ":" + CanonicalJson(d.members[i].1) + (if |ks| > 1 then "," + JoinMembers(d, ks[1..]) else "")
  }

  lemma {:induction false} CanonicalIsCanon(d: Doc)
    requires WellFormed(d)
    ensures CanonicalJson(d) == Canon(Meaning(d))
    decreases d, 2, 0
  {
    match d
    case DArr(items) => ArrayIsCanon(d);
    case DObj(ms) => ObjectIsCanon(d);
    case _ =>
  }

  lemma {:induction false} ArrayIsCanon(d: Doc)
    requires d.DArr? && WellFormed(d)
    ensures CanonicalJson(d) == Canon(Meaning(d))
    decreases d, 1, 0
  {
    JoinItemsIsCanon(d, 0);
  }

  lemma {:induction false} ObjectIsCanon(d: Doc)
    requires d.DObj? && WellFormed(d)
    ensures CanonicalJson(d) == Canon(Meaning(d))
    decreases d, 1, 0
  {
    var ks := SortKeys(Keys(d.members));
    SortsToKeyList(d.members);
    assert forall i | 0 <= i < |ks| :: ks[i] in Keys(d.members);
    var text := JoinMembers(d, ks);
    assert CanonicalJson(d) == "{" + text + "}";
    assert text == CanonMembers(Meaning(d), ks) by {
      JoinMembersIsCanon(d, ks);
    }
    CanonOfObject(Meaning(d), ks, text);
  }

  lemma CanonOfObject(v: Json, ks: seq<string>, text: string)
    requires v.Obj? && ks == KeyList(v.members.Keys) && text == CanonMembers(v, ks)
    ensures Canon(v) == "{" + text + "}"
  {
  }

  lemma SortsToKeyList(ms: seq<(string, Doc)>)
    requires Distinct(ms)
    ensures forall i | 0 <= i < |SortKeys(Keys(ms))| :: SortKeys(Keys(ms))[i] in Keys(ms)
    ensures SortKeys(Keys(ms)) == KeyList(Meaning(DObj(ms)).members.Keys)
  {
    var names, keys := Keys(ms), Meaning(DObj(ms)).members.Keys;
    var ks := SortKeys(names);
    SortAscending(names);
    forall k <- keys ensures k in ks {
      assert k in multiset(names);
    }
    forall i | 0 <= i < |ks| ensures ks[i] in keys {
      assert ks[i] in multiset(ks);
    }
    KeyListUnique(ks, KeyList(keys), keys);
  }

  lemma {:induction false} JoinItemsIsCanon(d: Doc, i: nat)
    requires d.DArr? && WellFormed(d) && i <= |d.items|
    ensures JoinItems(d, i) == CanonItems(Meaning(d), i)
    decreases d, 0, |d.items| - i
  {
    if i < |d.items| {
      CanonicalIsCanon(d.items[i]);
      JoinItemsIsCanon(d, i + 1);
    }
  }

  lemma {:induction false} JoinMembersIsCanon(d: Doc, ks: seq<string>)
    requires d.DObj? && WellFormed(d) && forall i | 0 <= i < |ks| :: ks[i] in Keys(d.members)
    ensures JoinMembers(d, ks) == CanonMembers(Meaning(d), ks)
    decreases d, 0, |ks|
  {
    if ks != [] {
      CanonicalIsCanon(d.members[Find(d.members, ks[0])].1);
      JoinMembersIsCanon(d, ks[1..]);
    }
  }

  /** Two values have the same canonical text exactly when they mean the same: the text
      tells values apart and does not depend on the order keys were inserted in. */
  lemma CanonicalSameIff(d: Doc, e: Doc)
    requires WellFormed(d) && WellFormed(e)
    ensures CanonicalJson(d) == CanonicalJson(e) <==> Meaning(d) == Meaning(e)
  {
    CanonicalIsCanon(d);
    CanonicalIsCanon(e);
    CanonInjective(Meaning(d), Meaning(e));
  }
}
