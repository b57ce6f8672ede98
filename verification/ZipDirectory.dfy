/** The zip reader that lists an archive's central directory, against a writer of PKWARE APPNOTE 4.3. */
module ZipDirectory {
  import opened Wrappers

  // Directory headers are those of section 4.3.12, the end record that of 4.3.16.

  const END_SIGNATURE: seq<byte> := [0x50, 0x4b, 5, 6]
  const HEADER_SIGNATURE: seq<byte> := [0x50, 0x4b, 1, 2]

  const END_LENGTH := 22
  const HEADER_LENGTH := 46

  datatype ZipEntry = ZipEntry(name: seq<byte>, compressed: nat, uncompressed: nat)

  datatype ZipError = NoEnd | TruncatedEnd | BadHeader | TruncatedHeader | TruncatedName

  // ---- reading ---------------------------------------------------------------------------

  /** The bytes from `from` on, if there are that many. */
  function Get(data: seq<byte>, from: nat, n: nat): (r: Option<seq<byte>>)
    ensures r.Some? ==> |r.value| == n
  {
    if from + n <= |data| then Some(data[from..from + n]) else None
  }

  function Le16(b: seq<byte>): nat
    requires |b| == 2
  {
    var low: nat, high: nat := b[0], b[1];
    low + 256 * high
  }

  function Le32(b: seq<byte>): nat
    requires |b| == 4
  {
    Le16(b[..2]) + 65536 * Le16(b[2..])
  }

  function U16At(data: seq<byte>, from: nat): Option<nat> {
    match Get(data, from, 2)
    case None => None
    case Some(b) => Some(Le16(b))
  }

  function U32At(data: seq<byte>, from: nat): Option<nat> {
    match Get(data, from, 4)
    case None => None
    case Some(b) => Some(Le32(b))
  }

  predicate EndAt(data: seq<byte>, i: nat) {
    Get(data, i, 4) == Some(END_SIGNATURE)
  }

  /** Where the search for the end record begins and ends, both included. */
  function FirstEnd(data: seq<byte>): nat {
    if |data| < END_LENGTH + 65535 then 0 else |data| - (END_LENGTH + 65535)
  }

  function LastEnd(data: seq<byte>): nat {
    if |data| < END_LENGTH then 0 else |data| - END_LENGTH
  }

  /** The last place of a signature within the window. */
  predicate IsEnd(data: seq<byte>, e: nat) {
    FirstEnd(data) <= e <= LastEnd(data) && EndAt(data, e) && forall i | e < i <= LastEnd(data) :: !EndAt(data, i)
  }

  /** One directory header: its entry, and where the next one starts. */
  function HeaderAt(data: seq<byte>, off: nat): Result<(ZipEntry, nat), ZipError> {
    if Get(data, off, 4) != Some(HEADER_SIGNATURE) then Failure(BadHeader)
    else
      var compressed, uncompressed := U32At(data, off + 20), U32At(data, off + 24);
      var nlen, xlen, clen := U16At(data, off + 28), U16At(data, off + 30), U16At(data, off + 32);
      if compressed.None? || uncompressed.None? || nlen.None? || xlen.None? || clen.None? then Failure(TruncatedHeader)
      else
        match Get(data, off + HEADER_LENGTH, nlen.value)
        case None => Failure(TruncatedName)
        case Some(name) =>
          Success((ZipEntry(name, compressed.value, uncompressed.value),
                   off + HEADER_LENGTH + nlen.value + xlen.value + clen.value))
  }

  function Entries(data: seq<byte>, off: nat, total: nat): Result<seq<ZipEntry>, ZipError>
    decreases total
  {
    if total == 0 then Success([])
    else
      match HeaderAt(data, off)
      case Failure(e) => Failure(e)
      case Success((entry, next)) =>
        match Entries(data, next, total - 1)
        case Failure(e) => Failure(e)
        case Success(rest) => Success([entry] + rest)
  }

  /** What the end record at `e` leads to. */
  function Listing(data: seq<byte>, e: nat): Result<seq<ZipEntry>, ZipError> {
    var total, off := U16At(data, e + 10), U32At(data, e + 16);
    if total.None? || off.None? then Failure(TruncatedEnd) else Entries(data, off.value, total.value)
  }

  /** What is listed of any bytes. */
  ghost function Listed(data: seq<byte>): (r: Result<seq<ZipEntry>, ZipError>)
    ensures forall e | IsEnd(data, e) :: r == Listing(data, e)
    ensures (forall e: nat :: !IsEnd(data, e)) ==> r == Failure(NoEnd)
  {
    if e: nat :| IsEnd(data, e) then Listing(data, e) else Failure(NoEnd)
  }

  /** `list_zip`. */
  method ListZip(data: seq<byte>) returns (r: Result<seq<ZipEntry>, ZipError>)
    ensures r == Listed(data)
    ensures r == Failure(NoEnd) <==> forall i | FirstEnd(data) <= i <= LastEnd(data) :: !EndAt(data, i)
    ensures forall e | IsEnd(data, e) :: r == Listing(data, e)
  {
    var eocd: int := LastEnd(data);
    while eocd >= FirstEnd(data) && !EndAt(data, eocd)
      invariant FirstEnd(data) - 1 <= eocd <= LastEnd(data)
      invariant forall i | eocd < i <= LastEnd(data) :: !EndAt(data, i)
    {
      eocd := eocd - 1;
    }
    if eocd < FirstEnd(data) {
      return Failure(NoEnd);
    }
    ghost var e: nat := eocd;
    assert IsEnd(data, e) && forall i | IsEnd(data, i) :: i == e;
    var total := U16At(data, eocd + 10);
    if total.None? {
      return Failure(TruncatedEnd);
    }
    var start := U32At(data, eocd + 16);
    if start.None? {
      return Failure(TruncatedEnd);
    }
    r := ListEntries(data, start.value, total.value);
    EntriesFail(data, start.value, total.value);
  }

  lemma {:induction false} EntriesFail(data: seq<byte>, off: nat, total: nat)
    ensures Entries(data, off, total) != Failure(NoEnd)
    decreases total
  {
    if total > 0 && HeaderAt(data, off).Success? {
      EntriesFail(data, HeaderAt(data, off).value.1, total - 1);
    }
  }

  /** A listing under way, with `out` before what is still to come. */
  function Continued(out: seq<ZipEntry>, r: Result<seq<ZipEntry>, ZipError>): Result<seq<ZipEntry>, ZipError> {
    match r
    case Failure(e) => Failure(e)
    case Success(rest) => Success(out + rest)
  }

  lemma Unstarted(r: Result<seq<ZipEntry>, ZipError>)
    ensures Continued([], r) == r
  {
    if r.Success? {
      assert [] + r.value == r.value;
    }
  }

  method ListEntries(data: seq<byte>, start: nat, total: nat) returns (r: Result<seq<ZipEntry>, ZipError>)
    ensures r == Entries(data, start, total)
  {
    var off: nat, out := start, [];
    assert Continued([], Entries(data, start, total)) == Entries(data, start, total) by {
      Unstarted(Entries(data, start, total));
    }
    for i := 0 to total
      invariant Continued(out, Entries(data, off, total - i)) == Entries(data, start, total)
    {
      if Get(data, off, 4) != Some(HEADER_SIGNATURE) {
        return Failure(BadHeader);
      }
      var compressed := U32At(data, off + 20);
      if compressed.None? {
        return Failure(TruncatedHeader);
      }
      var uncompressed := U32At(data, off + 24);
      if uncompressed.None? {
        return Failure(TruncatedHeader);
      }
      var nlen, xlen, clen := U16At(data, off + 28), U16At(data, off + 30), U16At(data, off + 32);
      if nlen.None? || xlen.None? || clen.None? {
        return Failure(TruncatedHeader);
      }
      var name := Get(data, off + HEADER_LENGTH, nlen.value);
      if name.None? {
        return Failure(TruncatedName);
      }
      var entry := ZipEntry(name.value, compressed.value, uncompressed.value);
      Continues(out, entry, data, off, total - i);
      out := out + [entry];
      off := off + HEADER_LENGTH + nlen.value + xlen.value + clen.value;
    }
    assert out + [] == out;
    r := Success(out);
  }

  lemma Continues(out: seq<ZipEntry>, entry: ZipEntry, data: seq<byte>, off: nat, left: nat)
    requires left > 0 && HeaderAt(data, off).Success? && HeaderAt(data, off).value.0 == entry
    ensures Continued(out, Entries(data, off, left))
      == Continued(out + [entry], Entries(data, HeaderAt(data, off).value.1, left - 1))
  {
    var rest := Entries(data, HeaderAt(data, off).value.1, left - 1);
    if rest.Success? {
      assert out + ([entry] + rest.value) == out + [entry] + rest.value;
    }
  }

  // ---- what a listing says of the bytes ------------------------------------------------------

  function Number16(data: seq<byte>, i: nat): nat
    requires i + 2 <= |data|
  {
    var a: nat, b: nat := data[i], data[i + 1];
    a + 256 * b
  }

  function Number32(data: seq<byte>, i: nat): nat
    requires i + 4 <= |data|
  {
    var a: nat, b: nat, c: nat, d: nat := data[i], data[i + 1], data[i + 2], data[i + 3];
    a + 256 * b + 65536 * c + 16777216 * d
  }

  predicate SignedAt(data: seq<byte>, off: nat) {
    off + 4 <= |data| && data[off] == 0x50 && data[off + 1] == 0x4b && data[off + 2] == 1 && data[off + 3] == 2
  }

  predicate EndSignedAt(data: seq<byte>, e: nat) {
    e + 4 <= |data| && data[e] == 0x50 && data[e + 1] == 0x4b && data[e + 2] == 5 && data[e + 3] == 6
  }

  /** An end record may begin there: 22 bytes and a comment of at most 65535 before the data ends;
      data shorter than that is only looked at from its start. */
  predicate InWindow(data: seq<byte>, e: nat) {
    if |data| < 22 then e == 0 else e + 22 <= |data| <= e + 22 + 65535
  }

  /** The end is the last signature in the window. */
  lemma EndIff(data: seq<byte>, e: nat)
    ensures IsEnd(data, e) <==>
      && InWindow(data, e) && EndSignedAt(data, e)
      && forall i: nat | e < i && InWindow(data, i) :: !EndSignedAt(data, i)
  {
    forall i: nat ensures EndAt(data, i) <==> EndSignedAt(data, i) {
      EndSignature(data, i);
    }
    forall i: nat ensures FirstEnd(data) <= i <= LastEnd(data) <==> InWindow(data, i) {
    }
  }

  lemma EndSignature(data: seq<byte>, e: nat)
    ensures EndAt(data, e) <==> EndSignedAt(data, e)
  {
    if e + 4 <= |data| {
      var four := data[e..e + 4];
      assert four == END_SIGNATURE <==> four[0] == 0x50 && four[1] == 0x4b && four[2] == 5 && four[3] == 6;
    }
  }

  /** A directory header of that entry stands at `off`, and the next one is to stand at `next`. */
  predicate HeaderStands(data: seq<byte>, off: nat, entry: ZipEntry, next: nat) {
    && SignedAt(data, off) && off + 46 + |entry.name| <= |data|
    && entry.compressed == Number32(data, off + 20) && entry.uncompressed == Number32(data, off + 24)
    && |entry.name| == Number16(data, off + 28) && data[off + 46..off + 46 + |entry.name|] == entry.name
    && next == off + 46 + |entry.name| + Number16(data, off + 30) + Number16(data, off + 32)
  }

  /** What is wrong at `off`: no signature, the data ends within the fixed fields, or within the name. */
  predicate HeaderFails(data: seq<byte>, off: nat, why: ZipError) {
    match why
    case BadHeader => !SignedAt(data, off)
    case TruncatedHeader => SignedAt(data, off) && |data| < off + 34
    case TruncatedName => SignedAt(data, off) && off + 34 <= |data| < off + 46 + Number16(data, off + 28)
    case _ => false
  }

  lemma NumbersAt(data: seq<byte>, i: nat)
    ensures U16At(data, i) == if i + 2 <= |data| then Some(Number16(data, i)) else None
    ensures U32At(data, i) == if i + 4 <= |data| then Some(Number32(data, i)) else None
  {
  }

  lemma SignatureAt(data: seq<byte>, off: nat)
    ensures Get(data, off, 4) == Some(HEADER_SIGNATURE) <==> SignedAt(data, off)
  {
    if off + 4 <= |data| {
      var four := data[off..off + 4];
      assert four == HEADER_SIGNATURE <==> four[0] == 0x50 && four[1] == 0x4b && four[2] == 1 && four[3] == 2;
    }
  }

  lemma HeaderIff(data: seq<byte>, off: nat, entry: ZipEntry, next: nat, why: ZipError)
    ensures HeaderAt(data, off) == Success((entry, next)) <==> HeaderStands(data, off, entry, next)
    ensures HeaderAt(data, off) == Failure(why) <==> HeaderFails(data, off, why)
  {
    SignatureAt(data, off);
    NumbersAt(data, off + 20);
    NumbersAt(data, off + 24);
    NumbersAt(data, off + 28);
    NumbersAt(data, off + 30);
    NumbersAt(data, off + 32);
  }

  /** The entries' headers stand one behind the other from `off` on, at the places `at`. */
  predicate HeadersStand(data: seq<byte>, off: nat, es: seq<ZipEntry>, at: seq<nat>) {
    && |at| == |es| + 1 && at[0] == off
    && forall k | 0 <= k < |es| :: HeaderStands(data, at[k], es[k], at[k + 1])
  }

  ghost predicate Lists(data: seq<byte>, off: nat, total: nat, es: seq<ZipEntry>) {
    |es| == total && exists at :: HeadersStand(data, off, es, at)
  }

  /** Some headers stand, and behind them, before there are `total`, something is wrong. */
  ghost predicate ListFails(data: seq<byte>, off: nat, total: nat, why: ZipError) {
    exists es, at :: |es| < total && HeadersStand(data, off, es, at) && HeaderFails(data, at[|es|], why)
  }

  lemma StandsFirst(data: seq<byte>, off: nat, entry: ZipEntry, next: nat, es: seq<ZipEntry>, at: seq<nat>)
    requires HeaderStands(data, off, entry, next) && HeadersStand(data, next, es, at)
    ensures HeadersStand(data, off, [entry] + es, [off] + at)
  {
    var all, places := [entry] + es, [off] + at;
    forall k | 0 <= k < |all| ensures HeaderStands(data, places[k], all[k], places[k + 1]) {
      if k > 0 {
        assert places[k] == at[k - 1] && all[k] == es[k - 1] && places[k + 1] == at[k];
        assert HeaderStands(data, at[k - 1], es[k - 1], at[k - 1 + 1]);
      }
    }
  }

  lemma StandsRest(data: seq<byte>, off: nat, es: seq<ZipEntry>, at: seq<nat>)
    requires es != [] && HeadersStand(data, off, es, at)
    ensures HeaderStands(data, off, es[0], at[1]) && HeadersStand(data, at[1], es[1..], at[1..])
  {
    forall k | 0 <= k < |es| - 1 ensures HeaderStands(data, at[1..][k], es[1..][k], at[1..][k + 1]) {
      assert HeaderStands(data, at[k + 1], es[k + 1], at[k + 1 + 1]);
    }
  }

  /** What was listed stands there. */
  lemma {:induction false} ListedStands(data: seq<byte>, off: nat, total: nat)
    requires Entries(data, off, total).Success?
    ensures Lists(data, off, total, Entries(data, off, total).value)
    decreases total
  {
    if total == 0 {
      assert HeadersStand(data, off, [], [off]);
    } else {
      var (entry, next) := HeaderAt(data, off).value;
      var rest := Entries(data, next, total - 1).value;
      HeaderIff(data, off, entry, next, NoEnd);
      ListedStands(data, next, total - 1);
      var at :| HeadersStand(data, next, rest, at);
      StandsFirst(data, off, entry, next, rest, at);
    }
  }

  /** What stands there is listed. */
  lemma {:induction false} StandsListed(data: seq<byte>, off: nat, es: seq<ZipEntry>, at: seq<nat>)
    requires HeadersStand(data, off, es, at)
    ensures Entries(data, off, |es|) == Success(es)
    decreases |es|
  {
    if es != [] {
      StandsRest(data, off, es, at);
      HeaderIff(data, off, es[0], at[1], NoEnd);
      StandsListed(data, at[1], es[1..], at[1..]);
      EntryBefore(data, off, es[0], at[1], |es| - 1, es[1..]);
      assert es == [es[0]] + es[1..];
    }
  }

  lemma EntryBefore(data: seq<byte>, off: nat, entry: ZipEntry, next: nat, left: nat, rest: seq<ZipEntry>)
    requires HeaderAt(data, off) == Success((entry, next)) && Entries(data, next, left) == Success(rest)
    ensures Entries(data, off, left + 1) == Success([entry] + rest)
  {
  }

  /** What a listing failed for is wrong behind the headers that stand. */
  lemma {:induction false} FailedStands(data: seq<byte>, off: nat, total: nat)
    requires Entries(data, off, total).Failure?
    ensures ListFails(data, off, total, Entries(data, off, total).error)
    decreases total
  {
    var why := Entries(data, off, total).error;
    if HeaderAt(data, off).Failure? {
      HeaderIff(data, off, ZipEntry([], 0, 0), 0, why);
      assert HeadersStand(data, off, [], [off]);
    } else {
      var (entry, next) := HeaderAt(data, off).value;
      HeaderIff(data, off, entry, next, why);
      FailedStands(data, next, total - 1);
      FailsBehind(data, off, entry, next, total, why);
    }
  }

  lemma FailsBehind(data: seq<byte>, off: nat, entry: ZipEntry, next: nat, total: nat, why: ZipError)
    requires total > 0 && HeaderStands(data, off, entry, next) && ListFails(data, next, total - 1, why)
    ensures ListFails(data, off, total, why)
  {
    var es, at :| |es| < total - 1 && HeadersStand(data, next, es, at) && HeaderFails(data, at[|es|], why);
    StandsFirst(data, off, entry, next, es, at);
    assert ([off] + at)[|[entry] + es|] == at[|es|];
  }

  /** And what is wrong behind the headers that stand is what a listing fails for. */
  lemma {:induction false} StandsFailed(data: seq<byte>, off: nat, total: nat, es: seq<ZipEntry>, at: seq<nat>,
                                        why: ZipError)
    requires |es| < total && HeadersStand(data, off, es, at) && HeaderFails(data, at[|es|], why)
    ensures Entries(data, off, total) == Failure(why)
    decreases total
  {
    if es == [] {
      HeaderIff(data, off, ZipEntry([], 0, 0), 0, why);
    } else {
      StandsRest(data, off, es, at);
      HeaderIff(data, off, es[0], at[1], why);
      assert at[1..][|es[1..]|] == at[|es|];
      StandsFailed(data, at[1], total - 1, es[1..], at[1..], why);
    }
  }

  /** The loop over the headers succeeds with just the entries whose headers stand there, and
      fails for just what is wrong behind those that do. */
  lemma EntriesIff(data: seq<byte>, off: nat, total: nat, es: seq<ZipEntry>, why: ZipError)
    ensures Entries(data, off, total) == Success(es) <==> Lists(data, off, total, es)
    ensures Entries(data, off, total) == Failure(why) <==> ListFails(data, off, total, why)
  {
    if Entries(data, off, total).Success? {
      ListedStands(data, off, total);
    } else {
      FailedStands(data, off, total);
    }
    if Lists(data, off, total, es) {
      var at :| HeadersStand(data, off, es, at);
      StandsListed(data, off, es, at);
    }
    if ListFails(data, off, total, why) {
      var fs, at :| |fs| < total && HeadersStand(data, off, fs, at) && HeaderFails(data, at[|fs|], why);
      StandsFailed(data, off, total, fs, at, why);
    }
  }

  /** The end record at `e`, as far as the reader looks, tells of `total` headers from `off` on. */
  predicate EndTells(data: seq<byte>, e: nat, off: nat, total: nat) {
    e + 20 <= |data| && total == Number16(data, e + 10) && off == Number32(data, e + 16)
  }

  /** For any bytes: a listing succeeds if and only if the window holds an end signature and as
      many headers as the last one's record tells stand one behind the other from where it tells;
      it fails for lack of a signature, for a record cut short, or for what is wrong behind the
      headers that do stand. */
  lemma ListedIff(data: seq<byte>, es: seq<ZipEntry>, why: ZipError)
    ensures Listed(data) == Success(es) <==>
      exists e: nat, off, total :: IsEnd(data, e) && EndTells(data, e, off, total) && Lists(data, off, total, es)
    ensures Listed(data) == Failure(why) <==>
      || (why == NoEnd && forall e: nat :: !IsEnd(data, e))
      || (why == TruncatedEnd && exists e: nat :: IsEnd(data, e) && |data| < e + 20)
      || (exists e: nat, off, total ::
            IsEnd(data, e) && EndTells(data, e, off, total) && ListFails(data, off, total, why))
  {
    if e: nat :| IsEnd(data, e) {
      forall i: nat | IsEnd(data, i) ensures i == e {
      }
      ListingIff(data, e, es, why);
    }
  }

  lemma ListingIff(data: seq<byte>, e: nat, es: seq<ZipEntry>, why: ZipError)
    ensures Listing(data, e) == Success(es) <==>
      exists off, total :: EndTells(data, e, off, total) && Lists(data, off, total, es)
    ensures Listing(data, e) == Failure(why) <==>
      || (why == TruncatedEnd && |data| < e + 20)
      || (exists off, total :: EndTells(data, e, off, total) && ListFails(data, off, total, why))
  {
    NumbersAt(data, e + 10);
    NumbersAt(data, e + 16);
    if e + 20 <= |data| {
      var off, total := Number32(data, e + 16), Number16(data, e + 10);
      assert EndTells(data, e, off, total);
      EntriesIff(data, off, total, es, why);
    }
  }

  // ---- writing -----------------------------------------------------------------------------

  function Bytes16(n: nat): seq<byte>
    requires n < 0x1_0000
  {
    [n % 256, n / 256]
  }

  function Bytes32(n: nat): seq<byte>
    requires n < 0x1_0000_0000
  {
    Bytes16(n % 65536) + Bytes16(n / 65536)
  }

  /** A directory header: what the reader looks at, and what it does not (the 16 bytes
      before the sizes, the 12 before the name, the extra field and the comment). */
  datatype Member = Member(entry: ZipEntry, front: seq<byte>, back: seq<byte>, extra: seq<byte>, comment: seq<byte>)

  predicate Fits(m: Member) {
    && |m.front| == 16 && |m.back| == 12
    && |m.entry.name| < 0x1_0000 && |m.extra| < 0x1_0000 && |m.comment| < 0x1_0000
    && m.entry.compressed < 0x1_0000_0000 && m.entry.uncompressed < 0x1_0000_0000
  }

  function Head(m: Member): (r: seq<byte>)
    requires Fits(m)
    ensures |r| == 28
  {
    HEADER_SIGNATURE + m.front + Bytes32(m.entry.compressed) + Bytes32(m.entry.uncompressed)
  }

  function Lengths(m: Member): (r: seq<byte>)
    requires Fits(m)
    ensures |r| == 6
  {
    Bytes16(|m.entry.name|) + Bytes16(|m.extra|) + Bytes16(|m.comment|)
  }

  function Tail(m: Member): seq<byte> {
    m.back + (m.entry.name + (m.extra + m.comment))
  }

  function Header(m: Member): seq<byte>
    requires Fits(m)
  {
    Head(m) + Lengths(m) + Tail(m)
  }

  predicate AllFit(ms: seq<Member>) {
    forall i | 0 <= i < |ms| :: Fits(ms[i])
  }

  function Directory(ms: seq<Member>): seq<byte>
    requires AllFit(ms)
  {
    if ms == [] then [] else Header(ms[0]) + Directory(ms[1..])
  }

  /** The end record: the disk numbers and the directory's size are not looked at. */
  datatype End = End(front: seq<byte>, total: nat, size: seq<byte>, offset: nat, comment: seq<byte>)

  predicate EndFits(e: End) {
    |e.front| == 6 && |e.size| == 4 && e.total < 0x1_0000 && e.offset < 0x1_0000_0000 && |e.comment| < 0x1_0000
  }

  /** The end record up to its comment. */
  function EndHead(e: End): (r: seq<byte>)
    requires EndFits(e)
    ensures |r| == END_LENGTH
  {
    END_SIGNATURE + e.front + Bytes16(e.total) + e.size + Bytes32(e.offset) + Bytes16(|e.comment|)
  }

  function EndRecord(e: End): seq<byte>
    requires EndFits(e)
  {
    EndHead(e) + e.comment
  }

  datatype Archive = Archive(prefix: seq<byte>, members: seq<Member>, front: seq<byte>, size: seq<byte>,
                             comment: seq<byte>)

  predicate ArchiveFits(a: Archive) {
    && |a.prefix| < 0x1_0000_0000 && |a.members| < 0x1_0000 && AllFit(a.members)
    && EndFits(EndOf(a))
  }

  function EndOf(a: Archive): End {
    End(a.front, |a.members|, a.size, |a.prefix|, a.comment)
  }

  function Written(a: Archive): seq<byte>
    requires ArchiveFits(a)
  {
    a.prefix + Directory(a.members) + EndRecord(EndOf(a))
  }

  function EntriesOf(ms: seq<Member>): seq<ZipEntry> {
    seq(|ms|, i requires 0 <= i < |ms| => ms[i].entry)
  }

  // ---- the reader inverts the writer -----------------------------------------------------------

  lemma Le16Back(n: nat)
    requires n < 0x1_0000
    ensures |Bytes16(n)| == 2 && Le16(Bytes16(n)) == n
  {
  }

  lemma Le32Back(n: nat)
    requires n < 0x1_0000_0000
    ensures |Bytes32(n)| == 4 && Le32(Bytes32(n)) == n
  {
    assert Bytes32(n)[..2] == Bytes16(n % 65536) && Bytes32(n)[2..] == Bytes16(n / 65536);
    Le16Back(n % 65536);
    Le16Back(n / 65536);
  }

  /** `part` stands at `off`. */
  predicate At(data: seq<byte>, off: nat, part: seq<byte>) {
    Get(data, off, |part|) == Some(part)
  }

  lemma AtParts(data: seq<byte>, off: nat, a: seq<byte>, b: seq<byte>)
    requires At(data, off, a + b)
    ensures At(data, off, a) && At(data, off + |a|, b)
  {
    var whole := data[off..off + |a + b|];
    assert whole == a + b;
    assert data[off..off + |a|] == whole[..|a|] == a;
    assert data[off + |a|..off + |a| + |b|] == whole[|a|..] == b;
  }

  lemma AtWithin(data: seq<byte>, off: nat, part: seq<byte>, from: nat, n: nat)
    requires At(data, off, part) && from + n <= |part|
    ensures Get(data, off + from, n) == Get(part, from, n)
  {
    var whole, inner, outer := data[off..off + |part|], part[from..from + n], data[off + from..off + from + n];
    assert whole == part;
    forall i | 0 <= i < n ensures outer[i] == inner[i] {
      assert outer[i] == whole[from + i];
    }
    assert outer == inner;
  }

  lemma AtBetween(before: seq<byte>, part: seq<byte>, after: seq<byte>)
    ensures At(before + part + after, |before|, part)
  {
    assert (before + part + after)[|before|..|before| + |part|] == part;
  }

  lemma HeadFields(m: Member)
    requires Fits(m)
    ensures Get(Head(m), 0, 4) == Some(HEADER_SIGNATURE)
    ensures Get(Head(m), 20, 4) == Some(Bytes32(m.entry.compressed))
    ensures Get(Head(m), 24, 4) == Some(Bytes32(m.entry.uncompressed))
  {
    assert Head(m)[0..4] == HEADER_SIGNATURE;
    assert Head(m)[20..24] == Bytes32(m.entry.compressed);
    assert Head(m)[24..28] == Bytes32(m.entry.uncompressed);
  }

  lemma LengthFields(m: Member)
    requires Fits(m)
    ensures Get(Lengths(m), 0, 2) == Some(Bytes16(|m.entry.name|))
    ensures Get(Lengths(m), 2, 2) == Some(Bytes16(|m.extra|))
    ensures Get(Lengths(m), 4, 2) == Some(Bytes16(|m.comment|))
  {
    assert Lengths(m)[0..2] == Bytes16(|m.entry.name|);
    assert Lengths(m)[2..4] == Bytes16(|m.extra|);
    assert Lengths(m)[4..6] == Bytes16(|m.comment|);
  }

  lemma SizesAt(data: seq<byte>, off: nat, m: Member)
    requires Fits(m) && At(data, off, Head(m))
    ensures Get(data, off, 4) == Some(HEADER_SIGNATURE)
    ensures U32At(data, off + 20) == Some(m.entry.compressed) && U32At(data, off + 24) == Some(m.entry.uncompressed)
  {
    HeadFields(m);
    AtWithin(data, off, Head(m), 0, 4);
    AtWithin(data, off, Head(m), 20, 4);
    AtWithin(data, off, Head(m), 24, 4);
    Le32Back(m.entry.compressed);
    Le32Back(m.entry.uncompressed);
  }

  lemma LengthsAt(data: seq<byte>, off: nat, m: Member)
    requires Fits(m) && At(data, off, Lengths(m))
    ensures U16At(data, off) == Some(|m.entry.name|)
    ensures U16At(data, off + 2) == Some(|m.extra|) && U16At(data, off + 4) == Some(|m.comment|)
  {
    LengthFields(m);
    AtWithin(data, off, Lengths(m), 0, 2);
    AtWithin(data, off, Lengths(m), 2, 2);
    AtWithin(data, off, Lengths(m), 4, 2);
    Le16Back(|m.entry.name|);
    Le16Back(|m.extra|);
    Le16Back(|m.comment|);
  }

  lemma HeaderParts(data: seq<byte>, off: nat, m: Member)
    requires Fits(m) && At(data, off, Header(m))
    ensures At(data, off, Head(m)) && At(data, off + 28, Lengths(m))
    ensures Get(data, off + HEADER_LENGTH, |m.entry.name|) == Some(m.entry.name)
    ensures |Header(m)| == HEADER_LENGTH + |m.entry.name| + |m.extra| + |m.comment|
  {
    AtParts(data, off, Head(m) + Lengths(m), Tail(m));
    AtParts(data, off, Head(m), Lengths(m));
    AtParts(data, off + 34, m.back, m.entry.name + (m.extra + m.comment));
    AtParts(data, off + 46, m.entry.name, m.extra + m.comment);
  }

  lemma HeaderBack(data: seq<byte>, off: nat, m: Member)
    requires Fits(m) && At(data, off, Header(m))
    ensures HeaderAt(data, off) == Success((m.entry, off + |Header(m)|))
  {
    HeaderParts(data, off, m);
    SizesAt(data, off, m);
    LengthsAt(data, off + 28, m);
  }

  lemma FirstEntry(ms: seq<Member>)
    requires ms != []
    ensures EntriesOf(ms) == [ms[0].entry] + EntriesOf(ms[1..])
  {
  }

  lemma OneMoreEntry(data: seq<byte>, off: nat, m: Member, left: nat, rest: seq<ZipEntry>)
    requires Fits(m) && At(data, off, Header(m)) && Entries(data, off + |Header(m)|, left) == Success(rest)
    ensures Entries(data, off, left + 1) == Success([m.entry] + rest)
  {
    HeaderBack(data, off, m);
    EntryBefore(data, off, m.entry, off + |Header(m)|, left, rest);
  }

  lemma {:induction false} DirectoryBack(data: seq<byte>, off: nat, ms: seq<Member>)
    requires AllFit(ms) && At(data, off, Directory(ms))
    ensures Entries(data, off, |ms|) == Success(EntriesOf(ms))
    decreases |ms|
  {
    if ms == [] {
      assert EntriesOf(ms) == [];
    } else {
      var next := off + |Header(ms[0])|;
      AtParts(data, off, Header(ms[0]), Directory(ms[1..]));
      DirectoryBack(data, next, ms[1..]);
      OneMoreEntry(data, off, ms[0], |ms| - 1, EntriesOf(ms[1..]));
      FirstEntry(ms);
    }
  }

  lemma EndHeadFields(e: End)
    requires EndFits(e)
    ensures Get(EndHead(e), 0, 4) == Some(END_SIGNATURE)
    ensures Get(EndHead(e), 10, 2) == Some(Bytes16(e.total)) && Get(EndHead(e), 16, 4) == Some(Bytes32(e.offset))
  {
    assert EndHead(e)[0..4] == END_SIGNATURE;
    assert EndHead(e)[10..12] == Bytes16(e.total);
    assert EndHead(e)[16..20] == Bytes32(e.offset);
  }

  lemma EndFields(data: seq<byte>, off: nat, e: End)
    requires EndFits(e) && At(data, off, EndHead(e))
    ensures EndAt(data, off) && U16At(data, off + 10) == Some(e.total) && U32At(data, off + 16) == Some(e.offset)
  {
    EndHeadFields(e);
    AtWithin(data, off, EndHead(e), 0, 4);
    AtWithin(data, off, EndHead(e), 10, 2);
    AtWithin(data, off, EndHead(e), 16, 4);
    Le16Back(e.total);
    Le32Back(e.offset);
  }

  function EndPlace(a: Archive): nat
    requires ArchiveFits(a)
  {
    |a.prefix| + |Directory(a.members)|
  }

  /** Where the parts of an archive stand. */
  lemma ArchiveParts(a: Archive)
    requires ArchiveFits(a)
    ensures At(Written(a), |a.prefix|, Directory(a.members)) && At(Written(a), EndPlace(a), EndHead(EndOf(a)))
    ensures At(Written(a), EndPlace(a) + END_LENGTH, a.comment)
    ensures |Written(a)| == EndPlace(a) + END_LENGTH + |a.comment|
  {
    var body, r := a.prefix + Directory(a.members), EndRecord(EndOf(a));
    AtBetween(a.prefix, Directory(a.members), r);
    AtBetween(body, r, []);
    assert body + r + [] == Written(a);
    AtParts(Written(a), |body|, EndHead(EndOf(a)), a.comment);
  }

  lemma EndInPlace(a: Archive)
    requires ArchiveFits(a)
    ensures var data, e := Written(a), EndPlace(a);
      && |data| == e + END_LENGTH + |a.comment| && FirstEnd(data) <= e <= LastEnd(data) && EndAt(data, e)
      && U16At(data, e + 10) == Some(|a.members|) && U32At(data, e + 16) == Some(|a.prefix|)
  {
    ArchiveParts(a);
    EndFields(Written(a), EndPlace(a), EndOf(a));
  }

  lemma ListingBack(a: Archive)
    requires ArchiveFits(a)
    ensures Listing(Written(a), EndPlace(a)) == Success(EntriesOf(a.members))
  {
    EndInPlace(a);
    ArchiveParts(a);
    DirectoryBack(Written(a), |a.prefix|, a.members);
  }

  /** No signature behind the end record's own. */
  predicate NoLaterEnd(a: Archive)
    requires ArchiveFits(a)
  {
    forall i | EndPlace(a) < i <= LastEnd(Written(a)) :: !EndAt(Written(a), i)
  }

  /** The reader takes the written end record for the end exactly when no signature follows
      it, and then lists exactly the written names and sizes, in their order. */
  lemma ListsWhatWasWritten(a: Archive)
    requires ArchiveFits(a)
    ensures IsEnd(Written(a), EndPlace(a)) <==> NoLaterEnd(a)
    ensures NoLaterEnd(a) ==> Listed(Written(a)) == Success(EntriesOf(a.members))
  {
    EndInPlace(a);
    ListingBack(a);
  }

  /** Without a comment nothing can follow. */
  lemma NoCommentNoLaterEnd(a: Archive)
    requires ArchiveFits(a) && a.comment == []
    ensures NoLaterEnd(a)
  {
    EndInPlace(a);
  }

  const EMPTY_END := End([0, 0, 0, 0, 0, 0], 0, [0, 0, 0, 0], 0, [])

  lemma LastPlaceFound(data: seq<byte>, place: nat)
    requires FirstEnd(data) <= place == LastEnd(data) && EndAt(data, place)
    ensures Listed(data) == Listing(data, place)
  {
  }

  lemma EmptyEndRead(data: seq<byte>, place: nat)
    requires place + END_LENGTH == |data| && At(data, place, EndHead(EMPTY_END))
    ensures Listed(data) == Success([])
  {
    assert EndAt(data, place) && U16At(data, place + 10) == Some(0) && U32At(data, place + 16).Some? by {
      EndFields(data, place, EMPTY_END);
    }
    LastPlaceFound(data, place);
    NothingListed(data, place);
  }

  lemma NothingListed(data: seq<byte>, e: nat)
    requires U16At(data, e + 10) == Some(0) && U32At(data, e + 16).Some?
    ensures Listing(data, e) == Success([])
  {
  }

  /** A comment that is itself an end record is taken for the archive's: of whatever was
      written, nothing is listed. */
  lemma CommentTakenForEnd(a: Archive)
    requires ArchiveFits(a) && a.comment == EndRecord(EMPTY_END)
    ensures Listed(Written(a)) == Success([])
  {
    ArchiveParts(a);
    assert EndRecord(EMPTY_END) == EndHead(EMPTY_END);
    EmptyEndRead(Written(a), EndPlace(a) + END_LENGTH);
  }
}
