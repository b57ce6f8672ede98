/** What an uploaded archive must look like before it is kept: `check_archive`, over the
    directory the zip reader lists. */
module ArchiveCheck {
  import opened Wrappers
  import opened ZipDirectory

  const MAX_RATIO := 100
  const U64_MAX := 0xFFFF_FFFF_FFFF_FFFF

  const SLASH: byte := 0x2f
  const BACKSLASH: byte := 0x5c
  const DOT: byte := 0x2e
  const UP: seq<byte> := [DOT, DOT]
  const ZIP_SUFFIX: seq<byte> := [0x2e, 0x7a, 0x69, 0x70]

  datatype Refusal =
    | Unreadable(why: ZipError)
    | EscapesRoot(name: seq<byte>)
    | NestedArchive(name: seq<byte>)
    | DeclaresTooMuch(declared: nat)
    | EntryType(name: seq<byte>)

  /** The limits that apply, and the type each file name stands for. */
  datatype Rules = Rules(plainZip: bool, blobMaxBytes: nat, accepted: seq<string>, mimeOf: seq<byte> -> Option<string>)

  // ---- names ------------------------------------------------------------------------------

  function Slashed(name: seq<byte>): seq<byte> {
    seq(|name|, i requires 0 <= i < |name| => if name[i] == BACKSLASH then SLASH else name[i])
  }

  /** The pieces between slashes; there is always one. */
  function Pieces(n: seq<byte>): (r: seq<seq<byte>>)
    ensures r != []
  {
    if n == [] then [[]]
    else
      var r := Pieces(n[1..]);
      if n[0] == SLASH then [[]] + r else [[n[0]] + r[0]] + r[1..]
  }

  predicate Escapes(name: seq<byte>) {
    var n := Slashed(name);
    (n != [] && n[0] == SLASH) || UP in Pieces(n)
  }

  function Lower(b: byte): byte {
    if 65 <= b <= 90 then b + 32 else b
  }

  predicate Nested(name: seq<byte>) {
    var n := |name|;
    n >= 4 && [Lower(name[n - 4]), Lower(name[n - 3]), Lower(name[n - 2]), Lower(name[n - 1])] == ZIP_SUFFIX
  }

  predicate IsFile(e: ZipEntry) {
    e.name == [] || e.name[|e.name| - 1] != SLASH
  }

  predicate TypeOk(rules: Rules, e: ZipEntry) {
    rules.plainZip && IsFile(e) ==>
      var mime := rules.mimeOf(e.name);
      mime.Some? && mime.value in rules.accepted
  }

  function Files(es: seq<ZipEntry>): nat {
    if es == [] then 0 else Files(es[..|es| - 1]) + if IsFile(es[|es| - 1]) then 1 else 0
  }

  function Declared(es: seq<ZipEntry>): nat {
    if es == [] then 0 else Declared(es[..|es| - 1]) + es[|es| - 1].uncompressed
  }

  function SaturatingAdd(a: nat, b: nat): nat {
    if a + b > U64_MAX then U64_MAX else a + b
  }

  function SaturatingMul(a: nat, b: nat): nat {
    if a * b > U64_MAX then U64_MAX else a * b
  }

  // ---- the check ----------------------------------------------------------------------------

  predicate FitsLimits(size: nat, es: seq<ZipEntry>, rules: Rules) {
    Declared(es) <= size * MAX_RATIO && Declared(es) <= rules.blobMaxBytes
  }

  predicate Admissible(size: nat, es: seq<ZipEntry>, rules: Rules) {
    && (forall i | 0 <= i < |es| :: !Escapes(es[i].name) && !Nested(es[i].name) && TypeOk(rules, es[i]))
    && FitsLimits(size, es, rules)
  }

  /** The sizes the directory can hold never saturate a 64-bit sum. */
  lemma {:induction false} DeclaredBound(es: seq<ZipEntry>)
    requires forall i | 0 <= i < |es| :: es[i].uncompressed < 0x1_0000_0000
    ensures Declared(es) <= |es| * 0xFFFF_FFFF
  {
    if es != [] {
      DeclaredBound(es[..|es| - 1]);
    }
  }

  lemma U32Bound(data: seq<byte>, from: nat)
    ensures U32At(data, from).Some? ==> U32At(data, from).value < 0x1_0000_0000
    ensures U16At(data, from).Some? ==> U16At(data, from).value < 0x1_0000
  {
  }

  lemma {:induction false} ListedBounds(data: seq<byte>, off: nat, total: nat)
    requires Entries(data, off, total).Success?
    ensures |Entries(data, off, total).value| == total
    ensures forall i | 0 <= i < total :: Entries(data, off, total).value[i].uncompressed < 0x1_0000_0000
    decreases total
  {
    if total > 0 {
      U32Bound(data, off + 24);
      ListedBounds(data, HeaderAt(data, off).value.1, total - 1);
    }
  }

  lemma ListingBounds(data: seq<byte>)
    requires Listed(data).Success?
    ensures var es := Listed(data).value;
      |es| < 0x1_0000 && (forall i | 0 <= i < |es| :: es[i].uncompressed < 0x1_0000_0000) && Declared(es) <= U64_MAX
  {
    var e: nat :| IsEnd(data, e);
    U32Bound(data, e + 10);
    ListedBounds(data, U32At(data, e + 16).value, U16At(data, e + 10).value);
    DeclaredBound(Listed(data).value);
  }

  /** The first entry that leaves the root, or the sizes declared by all of them. */
  method CheckPaths(es: seq<ZipEntry>) returns (bad: nat, declared: nat)
    requires Declared(es) <= U64_MAX
    ensures bad <= |es| && forall j | 0 <= j < bad :: !Escapes(es[j].name)
    ensures bad < |es| ==> Escapes(es[bad].name)
    ensures bad == |es| ==> declared == Declared(es)
  {
    declared := 0;
    for i := 0 to |es|
      invariant forall j | 0 <= j < i :: !Escapes(es[j].name)
      invariant declared == Declared(es[..i])
    {
      var n := Slashed(es[i].name);
      if (n != [] && n[0] == SLASH) || UP in Pieces(n) {
        return i, declared;
      }
      DeclaredGrows(es, i);
      declared := SaturatingAdd(declared, es[i].uncompressed);
    }
    assert es[..|es|] == es;
    bad := |es|;
  }

  method CheckNesting(es: seq<ZipEntry>) returns (bad: nat)
    ensures bad <= |es| && forall j | 0 <= j < bad :: !Nested(es[j].name)
    ensures bad < |es| ==> Nested(es[bad].name)
  {
    bad := 0;
    while bad < |es| && !Nested(es[bad].name)
      invariant bad <= |es| && forall j | 0 <= j < bad :: !Nested(es[j].name)
    {
      bad := bad + 1;
    }
  }

  method CheckTypes(es: seq<ZipEntry>, rules: Rules) returns (bad: nat)
    ensures bad <= |es| && forall j | 0 <= j < bad :: TypeOk(rules, es[j])
    ensures bad < |es| ==> !TypeOk(rules, es[bad])
  {
    bad := 0;
    if !rules.plainZip {
      return |es|;
    }
    while bad < |es|
      invariant bad <= |es| && forall j | 0 <= j < bad :: TypeOk(rules, es[j])
    {
      if IsFile(es[bad]) {
        var mime := rules.mimeOf(es[bad].name);
        if mime.None? || mime.value !in rules.accepted {
          return;
        }
      }
      bad := bad + 1;
    }
  }

  method CountFiles(es: seq<ZipEntry>) returns (files: nat)
    ensures files == Files(es)
  {
    files := 0;
    for i := 0 to |es|
      invariant files == Files(es[..i])
    {
      assert es[..i + 1][..i] == es[..i];
      files := files + if IsFile(es[i]) then 1 else 0;
    }
    assert es[..|es|] == es;
  }

  datatype Fault = Leaves | IsArchive | WrongType

  predicate HasFault(rules: Rules, e: ZipEntry, fault: Fault) {
    match fault
    case Leaves => Escapes(e.name)
    case IsArchive => Nested(e.name)
    case WrongType => !TypeOk(rules, e)
  }

  /** Entry `i` is the first with the fault. */
  predicate IsFirst(rules: Rules, es: seq<ZipEntry>, i: nat, name: seq<byte>, fault: Fault) {
    && i < |es| && es[i].name == name && HasFault(rules, es[i], fault)
    && forall j | 0 <= j < i :: !HasFault(rules, es[j], fault)
  }

  predicate Free(rules: Rules, es: seq<ZipEntry>, fault: Fault) {
    forall i | 0 <= i < |es| :: !HasFault(rules, es[i], fault)
  }

  /** Which refusals are right for these entries, each naming the first entry at fault: paths
      come before nesting, nesting before sizes, sizes before types. */
  ghost predicate Justified(size: nat, es: seq<ZipEntry>, rules: Rules, why: Refusal) {
    match why
    case Unreadable(_) => false
    case EscapesRoot(name) => exists i: nat :: IsFirst(rules, es, i, name, Leaves)
    case NestedArchive(name) => Free(rules, es, Leaves) && exists i: nat :: IsFirst(rules, es, i, name, IsArchive)
    case DeclaresTooMuch(declared) =>
      Free(rules, es, Leaves) && Free(rules, es, IsArchive) && declared == Declared(es) && !FitsLimits(size, es, rules)
    case EntryType(name) =>
      && Free(rules, es, Leaves) && Free(rules, es, IsArchive) && FitsLimits(size, es, rules)
      && exists i: nat :: IsFirst(rules, es, i, name, WrongType)
  }

  method CheckEntries(size: nat, es: seq<ZipEntry>, rules: Rules) returns (r: Result<nat, Refusal>)
    requires Declared(es) <= U64_MAX
    ensures r.Success? <==> Admissible(size, es, rules)
    ensures r.Success? ==> r.value == Files(es)
    ensures r.Failure? ==> Justified(size, es, rules, r.error)
  {
    var bad, declared := CheckPaths(es);
    if bad < |es| {
      assert IsFirst(rules, es, bad, es[bad].name, Leaves);
      return Failure(EscapesRoot(es[bad].name));
    }
    bad := CheckNesting(es);
    if bad < |es| {
      assert IsFirst(rules, es, bad, es[bad].name, IsArchive);
      return Failure(NestedArchive(es[bad].name));
    }
    var limit := SaturatingMul(size, MAX_RATIO);
    if declared > limit || declared > rules.blobMaxBytes {
      return Failure(DeclaresTooMuch(declared));
    }
    bad := CheckTypes(es, rules);
    if bad < |es| {
      assert IsFirst(rules, es, bad, es[bad].name, WrongType);
      return Failure(EntryType(es[bad].name));
    }
    var files := CountFiles(es);
    r := Success(files);
  }

  /** An archive passes exactly when its directory can be read, no entry leaves the root, none
      is an archive, the sizes declared stay within the ratio and the ceiling, and (in a plain
      zip) every file is of an accepted type. A refusal names the first entry at fault. */
  method CheckArchive(data: seq<byte>, rules: Rules) returns (r: Result<nat, Refusal>)
    ensures r.Success? <==> Listed(data).Success? && Admissible(|data|, Listed(data).value, rules)
    ensures r.Success? ==> r.value == Files(Listed(data).value)
    ensures r.Failure? ==>
      if Listed(data).Failure? then r.error == Unreadable(Listed(data).error)
      else Justified(|data|, Listed(data).value, rules, r.error)
  {
    var listing := ListZip(data);
    if listing.Failure? {
      return Failure(Unreadable(listing.error));
    }
    ListingBounds(data);
    r := CheckEntries(|data|, listing.value, rules);
  }

  lemma DeclaredGrows(es: seq<ZipEntry>, i: nat)
    requires i < |es|
    ensures Declared(es[..i + 1]) == Declared(es[..i]) + es[i].uncompressed
    ensures Declared(es[..i + 1]) <= Declared(es)
  {
    assert es[..i + 1][..i] == es[..i];
    DeclaredPrefix(es, i + 1);
  }

  lemma {:induction false} DeclaredPrefix(es: seq<ZipEntry>, i: nat)
    requires i <= |es|
    ensures Declared(es[..i]) <= Declared(es)
  {
    if i < |es| {
      DeclaredPrefix(es[..|es| - 1], i);
      assert es[..|es| - 1][..i] == es[..i];
    } else {
      assert es[..i] == es;
    }
  }

  // ---- what the entries must be ----------------------------------------------------------------------

  /** An entry is a directory if its name ends in a slash, and a file otherwise. */
  predicate EndsInSlash(name: seq<byte>) {
    name != [] && name[|name| - 1] == 0x2f
  }

  /** Entries pass if and only if no path leaves the root, none is an archive, what they declare is
      at most a hundred times the archive and at most the ceiling, and in a plain zip every file has
      a known type that is accepted. */
  lemma AdmissibleIff(size: nat, es: seq<ZipEntry>, rules: Rules)
    ensures Admissible(size, es, rules) <==>
      && (forall e | e in es :: !Escapes(e.name) && !Nested(e.name))
      && Declared(es) <= 100 * size && Declared(es) <= rules.blobMaxBytes
      && (rules.plainZip ==> forall e | e in es && !EndsInSlash(e.name) ::
            exists mime :: rules.mimeOf(e.name) == Some(mime) && mime in rules.accepted)
  {
    forall i | 0 <= i < |es| ensures es[i] in es {
    }
  }

  /** Where the entries stand that are no directories. */
  function FilePlaces(es: seq<ZipEntry>): set<nat> {
    set i: nat | i < |es| && !EndsInSlash(es[i].name)
  }

  /** As many files are counted as there are such entries. */
  lemma {:induction false} FilesIs(es: seq<ZipEntry>)
    ensures Files(es) == |FilePlaces(es)|
  {
    if es != [] {
      var n := |es| - 1;
      FilesIs(es[..n]);
      assert FilePlaces(es) == FilePlaces(es[..n]) + if EndsInSlash(es[n].name) then {} else {n};
    }
  }

  /** What is declared is the sum of what each entry declares. */
  lemma {:induction false} DeclaredIs(first: ZipEntry, rest: seq<ZipEntry>)
    ensures Declared([]) == 0 && Declared([first] + rest) == first.uncompressed + Declared(rest)
  {
    var all := [first] + rest;
    if rest == [] {
      assert all[..|all| - 1] == [];
    } else {
      assert all[..|all| - 1] == [first] + rest[..|rest| - 1];
      DeclaredIs(first, rest[..|rest| - 1]);
    }
  }

  // ---- what the names say ---------------------------------------------------------------------------

  predicate IsSlash(b: byte) {
    b == 0x2f || b == 0x5c
  }

  /** Two dots stand alone at `i`, between slashes of either kind or the ends of the name. */
  predicate UpAt(name: seq<byte>, i: nat) {
    && i + 2 <= |name| && name[i] == 0x2e && name[i + 1] == 0x2e
    && (i == 0 || IsSlash(name[i - 1]))
    && (i + 2 == |name| || IsSlash(name[i + 2]))
  }

  /** Up to the first slash. */
  predicate StartsUp(n: seq<byte>) {
    UP <= n && (|n| == 2 || n[2] == SLASH)
  }

  /** Two dots stand alone behind some slash. */
  predicate UpBehind(n: seq<byte>) {
    exists i :: 0 < i <= |n| && n[i - 1] == SLASH && StartsUp(n[i..])
  }

  lemma {:induction false} FirstPiece(n: seq<byte>)
    ensures Pieces(n)[0] == UP <==> StartsUp(n)
    ensures Pieces(n)[0] == [] <==> n == [] || n[0] == SLASH
    ensures |Pieces(n)[0]| == 1 && Pieces(n)[0][0] == DOT <==> n != [] && n[0] == DOT && (|n| == 1 || n[1] == SLASH)
  {
    if n != [] && n[0] != SLASH {
      FirstPiece(n[1..]);
      assert Pieces(n)[0] == [n[0]] + Pieces(n[1..])[0];
      if |n| > 1 {
        assert n[1..][0] == n[1];
      }
    }
  }

  lemma {:induction false} LaterPiece(n: seq<byte>)
    ensures UP in Pieces(n)[1..] <==> UpBehind(n)
  {
    if n != [] {
      LaterPiece(n[1..]);
      FirstPiece(n[1..]);
      var r := Pieces(n[1..]);
      assert UP in r <==> r[0] == UP || UP in r[1..];
      assert Pieces(n)[1..] == if n[0] == SLASH then r else r[1..];
      BehindFirst(n);
    }
  }

  lemma BehindFirst(n: seq<byte>)
    requires n != []
    ensures UpBehind(n) <==> (n[0] == SLASH && StartsUp(n[1..])) || UpBehind(n[1..])
  {
    if i :| 0 < i <= |n| && n[i - 1] == SLASH && StartsUp(n[i..]) {
      if i > 1 {
        assert n[1..][i - 2] == n[i - 1] && n[1..][i - 1..] == n[i..];
      }
    }
    if i :| 0 < i <= |n[1..]| && n[1..][i - 1] == SLASH && StartsUp(n[1..][i..]) {
      assert n[i] == SLASH && n[i + 1..] == n[1..][i..];
    }
  }

  /** A path leaves the root if and only if it starts with a slash of either kind, or two dots
      stand alone somewhere in it. */
  lemma EscapesIff(name: seq<byte>)
    ensures Escapes(name) <==> (name != [] && IsSlash(name[0])) || exists i: nat :: UpAt(name, i)
  {
    var n := Slashed(name);
    FirstPiece(n);
    LaterPiece(n);
    assert UP in Pieces(n) <==> Pieces(n)[0] == UP || UP in Pieces(n)[1..];
    if StartsUp(n) {
      assert n[0] == DOT && n[1] == DOT && UpAt(name, 0);
    }
    if i :| 0 < i <= |n| && n[i - 1] == SLASH && StartsUp(n[i..]) {
      assert n[i..][0] == n[i] && n[i..][1] == n[i + 1] && UpAt(name, i);
    }
    if i: nat :| UpAt(name, i) {
      assert n[i] == DOT && n[i + 1] == DOT;
      assert n[i..][..2] == UP;
      assert StartsUp(n[i..]);
      if i == 0 {
        assert n[0..] == n;
      }
    }
  }

  /** An archive is told by the last four bytes of its name, ".zip" in letters of either size. */
  lemma NestedIff(name: seq<byte>)
    ensures Nested(name) <==>
      && |name| >= 4
      && var end := name[|name| - 4..];
      && end[0] == 0x2e && (end[1] == 0x7a || end[1] == 0x5a) && (end[2] == 0x69 || end[2] == 0x49)
      && (end[3] == 0x70 || end[3] == 0x50)
  {
    if |name| >= 4 {
      var n := |name|;
      var low := [Lower(name[n - 4]), Lower(name[n - 3]), Lower(name[n - 2]), Lower(name[n - 1])];
      assert low == ZIP_SUFFIX <==> low[0] == 0x2e && low[1] == 0x7a && low[2] == 0x69 && low[3] == 0x70;
    }
  }

  // ---- what the path rule is for -----------------------------------------------------------------

  /** Where the pieces of a path lead from a directory: ".." goes up, "." and nothing stay. */
  function Resolve(dir: seq<seq<byte>>, pieces: seq<seq<byte>>): seq<seq<byte>>
    decreases |pieces|
  {
    if pieces == [] then dir
    else if pieces[0] == UP then Resolve(if dir == [] then [] else dir[..|dir| - 1], pieces[1..])
    else if pieces[0] == [] || pieces[0] == [DOT] then Resolve(dir, pieces[1..])
    else Resolve(dir + [pieces[0]], pieces[1..])
  }

  /** The pieces that name something. */
  function Names(pieces: seq<seq<byte>>): seq<seq<byte>> {
    if pieces == [] then []
    else (if pieces[0] == UP || pieces[0] == [] || pieces[0] == [DOT] then [] else [pieces[0]]) + Names(pieces[1..])
  }

  function Joined(pieces: seq<seq<byte>>): seq<byte>
    requires pieces != []
  {
    if |pieces| == 1 then pieces[0] else pieces[0] + [SLASH] + Joined(pieces[1..])
  }

  /** Cutting at slashes loses nothing. */
  lemma {:induction false} PiecesJoined(n: seq<byte>)
    ensures Joined(Pieces(n)) == n && forall p | p in Pieces(n) :: SLASH !in p
  {
    if n != [] {
      PiecesJoined(n[1..]);
      var r := Pieces(n[1..]);
      if n[0] == SLASH {
        assert ([[]] + r)[1..] == r;
        assert [] + [SLASH] + n[1..] == n;
      } else {
        var all := [[n[0]] + r[0]] + r[1..];
        assert all[1..] == r[1..];
        assert Joined(all) == [n[0]] + Joined(r);
        assert [n[0]] + n[1..] == n;
        forall p | p in all ensures SLASH !in p {
          assert p == [n[0]] + r[0] || p in r[1..];
          assert r[0] in r;
        }
      }
    }
  }

  lemma {:induction false} ResolveBelow(dir: seq<seq<byte>>, pieces: seq<seq<byte>>)
    requires UP !in pieces
    ensures Resolve(dir, pieces) == dir + Names(pieces)
    decreases |pieces|
  {
    if pieces != [] {
      if pieces[0] == [] || pieces[0] == [DOT] {
        ResolveBelow(dir, pieces[1..]);
        assert [] + Names(pieces[1..]) == Names(pieces[1..]);
      } else {
        ResolveBelow(dir + [pieces[0]], pieces[1..]);
        assert dir + [pieces[0]] + Names(pieces[1..]) == dir + ([pieces[0]] + Names(pieces[1..]));
      }
    } else {
      assert dir + [] == dir;
    }
  }

  /** Wherever an archive that passed is unpacked, each entry lands at its own names below that
      place, with either kind of slash. */
  lemma PassedLandsBelow(size: nat, es: seq<ZipEntry>, rules: Rules, i: nat, dir: seq<seq<byte>>)
    requires Admissible(size, es, rules) && i < |es|
    ensures var n := Slashed(es[i].name);
      Resolve(dir, Pieces(n)) == dir + Names(Pieces(n)) && Joined(Pieces(n)) == n && (n == [] || n[0] != SLASH)
  {
    ResolveBelow(dir, Pieces(Slashed(es[i].name)));
    PiecesJoined(Slashed(es[i].name));
  }

  /** And a path that climbs from some place above it is refused. */
  lemma ClimbingRefused(name: seq<byte>, dir: seq<seq<byte>>)
    requires !(dir <= Resolve(dir, Pieces(Slashed(name))))
    ensures Escapes(name)
  {
    if UP !in Pieces(Slashed(name)) {
      ResolveBelow(dir, Pieces(Slashed(name)));
    }
  }
}
