/** The signed audit export: rows chained by hash, and the verifier anyone can run over the text. */
module AuditChain {
  import opened Wrappers
  import opened Json

  // The digest is a parameter: any function to 64 characters. Nothing assumes it free of collisions; tamper
  // evidence is stated as "the same rows, or here is one".

  const DIGEST_LENGTH := 64

  const GENESIS: string := "0000000000000000000000000000000000000000000000000000000000000000"

  datatype RawRow = RawRow(ts: int, table: string, id: int, subject: string, action: string, detail: Doc)

  datatype AuditLine = AuditLine(row: RawRow, prev: string, hash: string)

  // ---- the host's side ----------------------------------------------------------------

  const BODY_FIELDS: seq<string> := ["ts", "table", "id", "subject", "action", "detail", "prev"]

  const LINE_FIELDS: seq<string> := BODY_FIELDS + ["hash"]

  function FieldDoc(line: AuditLine, name: string): Doc {
    if name == "hash" then DStr(line.hash)
    else if name == "ts" then DNum(line.row.ts)
    else if name == "table" then DStr(line.row.table)
    else if name == "id" then DNum(line.row.id)
    else if name == "subject" then DStr(line.row.subject)
    else if name == "action" then DStr(line.row.action)
    else if name == "detail" then line.row.detail
    else DStr(line.prev)
  }

  /** The fields inserted one by one in the order given. */
  function ObjectOf(fields: seq<string>, value: string -> Doc): Doc {
    DObj(seq(|fields|, i requires 0 <= i < |fields| => (fields[i], value(fields[i]))))
  }

  function Inserted(line: AuditLine, fields: seq<string>): Doc {
    ObjectOf(fields, name => FieldDoc(line, name))
  }

  /** One line without its hash. */
  function BodyOf(row: RawRow, prev: string): Doc {
    Inserted(AuditLine(row, prev, ""), BODY_FIELDS)
  }

  function LineDoc(line: AuditLine): Doc {
    Inserted(line, LINE_FIELDS)
  }

  function Chained(rows: seq<RawRow>, prev: string, canon: Doc -> string, sha: string -> string): seq<AuditLine> {
    if rows == [] then []
    else
      var hash := sha(prev + canon(BodyOf(rows[0], prev)));
      [AuditLine(rows[0], prev, hash)] + Chained(rows[1..], hash, canon, sha)
  }

  method ChainWith(rows: seq<RawRow>, canon: Doc -> string, sha: string -> string) returns (out: seq<AuditLine>)
    ensures out == Chained(rows, GENESIS, canon, sha)
  {
    var prev := GENESIS;
    out := [];
    for i := 0 to |rows|
      invariant out + Chained(rows[i..], prev, canon, sha) == Chained(rows, GENESIS, canon, sha)
    {
      var hash := sha(prev + canon(BodyOf(rows[i], prev)));
      assert rows[i..][1..] == rows[i + 1..];
      out := out + [AuditLine(rows[i], prev, hash)];
      prev := hash;
    }
  }

  function RootOf(lines: seq<AuditLine>): string {
    if lines == [] then GENESIS else lines[|lines| - 1].hash
  }

  function JsonLines(docs: seq<Doc>): string {
    if docs == [] then "" else CanonicalJson(docs[0]) + "\n" + JsonLines(docs[1..])
  }

  /** The exported text: header, lines, trailer, each on a line of its own. */
  function LineDocs(lines: seq<AuditLine>): seq<Doc> {
    seq(|lines|, i requires 0 <= i < |lines| => LineDoc(lines[i]))
  }

  lemma NextLine(text: string, docs: seq<Doc>, i: nat)
    requires i < |docs|
    ensures text + JsonLines(docs[i..]) == text + (CanonicalJson(docs[i]) + "\n") + JsonLines(docs[i + 1..])
  {
    assert docs[i..][1..] == docs[i + 1..];
  }

  method RenderDocs(docs: seq<Doc>) returns (text: string)
    ensures text == JsonLines(docs)
  {
    text := "";
    assert docs[0..] == docs;
    for i := 0 to |docs|
      invariant text + JsonLines(docs[i..]) == JsonLines(docs)
    {
      NextLine(text, docs, i);
      text := text + (CanonicalJson(docs[i]) + "\n");
    }
    assert docs[|docs|..] == [];
  }

  method RenderJsonl(header: Doc, lines: seq<AuditLine>, trailer: Doc) returns (text: string)
    ensures text == JsonLines([header] + LineDocs(lines) + [trailer])
  {
    text := RenderDocs([header] + LineDocs(lines) + [trailer]);
  }

  // ---- the verifier's side --------------------------------------------------------------

  /** Splits at every line feed; there is always at least one piece. */
  function Split(text: string): (r: seq<string>)
    ensures r != []
  {
    if text == "" then [""]
    else
      var r := Split(text[1..]);
      if text[0] == '\n' then [""] + r else [[text[0]] + r[0]] + r[1..]
  }

  /** The physical lines: a final line feed starts no further one. */
  function LinesOf(text: string): seq<string> {
    var r := Split(text);
    if r[|r| - 1] == "" then r[..|r| - 1] else r
  }

  /** The place of a line in the order, as it stands in the line: any three values. */
  datatype Key = Key(ts: Json, table: Json, id: Json)

  /** The keys of the host's own lines. */
  predicate RowKey(k: Key) {
    k.ts.Num? && k.table.Str? && k.id.Num?
  }

  predicate KeyLess(a: Key, b: Key)
    requires RowKey(a) && RowKey(b)
  {
    || a.ts.n < b.ts.n
    || (a.ts == b.ts && (Less(a.table.s, b.table.s) || (a.table == b.table && a.id.n < b.id.n)))
  }

  /** What the verifier takes from one line. */
  datatype Fields = Fields(body: Json, claimed: Json, prev: Json, key: Key)

  function FieldsOf(v: Json): Option<Fields> {
    if v.Obj? && "hash" in v.members && "prev" in v.members && "ts" in v.members && "table" in v.members
      && "id" in v.members
    then
      Some(Fields(Obj(v.members - {"hash"}), v.members["hash"], v.members["prev"],
                  Key(v.members["ts"], v.members["table"], v.members["id"])))
    else None
  }

  datatype Verdict =
    | Ok(rows: nat, root: string)
    | FailLine(line: nat)
    | FailSignature
    | Crashed                       // the header or the trailer is no object

  /** The verifier's environment: its JSON library, its digest, its order of keys (None where
      comparing raises an error), its equality of values and its signature check. */
  datatype Tools = Tools(
    loads: string -> Option<Json>,
    canonical: Json -> string,
    sha: string -> string,
    less: (Key, Key) -> Option<bool>,
    same: (Json, Json) -> bool,
    signatureOk: (Json, string, int, Json) -> bool)

  /** The library reads back whatever is canonical, prints canonically, the digest has its
      fixed length, numbers and texts are compared as such, and a value equals itself. */
  ghost predicate Sound(t: Tools) {
    && (forall v :: t.loads(Canon(v)) == Some(v))
    && (forall v :: t.canonical(v) == Canon(v))
    && (forall s :: |t.sha(s)| == DIGEST_LENGTH)
    && (forall a, b | RowKey(a) && RowKey(b) :: t.less(a, b) == Some(KeyLess(a, b)))
    && (forall v :: t.same(v, v))
  }

  /** There are such tools: the reader and the printer of this project, with any digest, and
      with any comparison of the keys no host writes. */
  lemma SoundToolsExist(sha: string -> string, other: (Key, Key) -> Option<bool>, same: (Json, Json) -> bool,
                        signatureOk: (Json, string, int, Json) -> bool)
    requires (forall s :: |sha(s)| == DIGEST_LENGTH) && forall v :: same(v, v)
    ensures exists t: Tools ::
      && Sound(t) && t.sha == sha && t.same == same && t.signatureOk == signatureOk
      && forall a, b | !RowKey(a) || !RowKey(b) :: t.less(a, b) == other(a, b)
  {
    var less := (a: Key, b: Key) => if RowKey(a) && RowKey(b) then Some(KeyLess(a, b)) else other(a, b);
    var t := Tools(Parse, v => Canon(v), sha, less, same, signatureOk);
    forall v ensures t.loads(Canon(v)) == Some(v) {
      ParseCanon(v);
    }
    assert Sound(t);
  }

  /** Not before the key of the line above, as far as the verifier can compare them. */
  predicate InOrder(t: Tools, key: Key, last: Option<Key>) {
    last.Some? ==> t.less(key, last.value) == Some(false)
  }

  /** Whether one line continues a chain at `prev`. */
  predicate LineOk(t: Tools, f: Fields, prev: string, last: Option<Key>) {
    && f.prev == Str(prev)
    && Str(t.sha(prev + t.canonical(f.body))) == f.claimed
    && InOrder(t, f.key, last)
  }

  /** The chain's last hash, or the first line that breaks it (`n` is the number of the
      first of `lines`). */
  function Walk(t: Tools, lines: seq<string>, n: nat, prev: string, last: Option<Key>): Result<string, nat>
  {
    if lines == [] then Success(prev)
    else
      var v := t.loads(lines[0]);
      if v.None? then Failure(n)
      else
        var f := FieldsOf(v.value);
        if f.None? || !LineOk(t, f.value, prev, last) then Failure(n)
        else Walk(t, lines[1..], n + 1, f.value.claimed.s, Some(f.value.key))
  }

  /** A member, or what stands for an absent one. */
  function Get(v: Json, k: string, absent: Json): Json
    requires v.Obj?
  {
    if k in v.members then v.members[k] else absent
  }

  /** The trailer tells the root and the number of rows. */
  predicate TrailerOk(t: Tools, trailer: Json, root: string, rows: nat)
    requires trailer.Obj?
  {
    Get(trailer, "root_hash", Null) == Str(root) && t.same(Get(trailer, "rows", Null), Num(rows))
  }

  /** Header and trailer name one key, and the signature is that key's. */
  predicate SignatureOk(t: Tools, header: Json, trailer: Json, root: string, rows: nat)
    requires header.Obj? && trailer.Obj?
  {
    var kid := Get(trailer, "kid", Null);
    t.same(Get(header, "kid", Null), kid) && t.signatureOk(kid, root, rows, Get(trailer, "signature", Str("")))
  }

  /** The verdict on the first line, those between and the last. */
  function Judge(t: Tools, first: string, inner: seq<string>, last: string): Verdict {
    var n := |inner| + 2;
    var header, trailer := t.loads(first), t.loads(last);
    if header.None? || trailer.None? then FailLine(if "{" <= first then n else 1)
    else
      match Walk(t, inner, 2, GENESIS, None)
      case Failure(line) => FailLine(line)
      case Success(root) =>
        if !trailer.value.Obj? then Crashed
        else if !TrailerOk(t, trailer.value, root, n - 2) then FailLine(n)
        else if !header.value.Obj? then Crashed
        else if !SignatureOk(t, header.value, trailer.value, root, n - 2) then FailSignature
        else Ok(n - 2, root)
  }

  function Verification(t: Tools, text: string): Verdict {
    var lines := LinesOf(text);
    var n := |lines|;
    if n < 2 then FailLine(1) else Judge(t, lines[0], lines[1..n - 1], lines[n - 1])
  }

  method Verify(t: Tools, text: string) returns (verdict: Verdict)
    ensures verdict == Verification(t, text)
  {
    var lines := LinesOf(text);
    var n := |lines|;
    if n < 2 {
      return FailLine(1);
    }
    var header, trailer := t.loads(lines[0]), t.loads(lines[n - 1]);
    if header.None? || trailer.None? {
      return FailLine(if "{" <= lines[0] then n else 1);
    }
    var inner := lines[1..n - 1];
    var prev, last := GENESIS, None;
    for i := 0 to |inner|
      invariant Walk(t, inner[i..], i + 2, prev, last) == Walk(t, inner, 2, GENESIS, None)
    {
      var v := t.loads(inner[i]);
      if v.None? {
        return FailLine(i + 2);
      }
      var f := FieldsOf(v.value);
      if f.None? || f.value.prev != Str(prev) || Str(t.sha(prev + t.canonical(f.value.body))) != f.value.claimed
        || (last.Some? && t.less(f.value.key, last.value) != Some(false))
      {
        return FailLine(i + 2);
      }
      assert inner[i..][1..] == inner[i + 1..];
      prev, last := f.value.claimed.s, Some(f.value.key);
    }
    if !trailer.value.Obj? {
      return Crashed;
    }
    if Get(trailer.value, "root_hash", Null) != Str(prev) || !t.same(Get(trailer.value, "rows", Null), Num(n - 2)) {
      return FailLine(n);
    }
    if !header.value.Obj? {
      return Crashed;
    }
    var kid := Get(trailer.value, "kid", Null);
    if !t.same(Get(header.value, "kid", Null), kid)
      || !t.signatureOk(kid, prev, n - 2, Get(trailer.value, "signature", Str("")))
    {
      return FailSignature;
    }
    verdict := Ok(n - 2, prev);
  }

  // ---- text and lines ---------------------------------------------------------------------

  predicate OneLine(line: string) {
    forall i | 0 <= i < |line| :: line[i] != '\n'
  }

  lemma {:induction false} SplitOffLine(line: string, rest: string)
    requires OneLine(line)
    ensures Split(line + "\n" + rest) == [line] + Split(rest)
  {
    var text := line + "\n" + rest;
    if line == "" {
      assert text[1..] == rest;
    } else {
      assert text[1..] == line[1..] + "\n" + rest;
      SplitOffLine(line[1..], rest);
      assert [line[0]] + line[1..] == line;
    }
  }

  function Texts(docs: seq<Doc>): seq<string> {
    seq(|docs|, i requires 0 <= i < |docs| => CanonicalJson(docs[i]))
  }

  lemma CanonicalOneLine(d: Doc)
    requires WellFormed(d)
    ensures OneLine(CanonicalJson(d))
  {
    CanonicalIsCanon(d);
    CanonPrintable(Meaning(d));
  }

  lemma TextsFirst(docs: seq<Doc>)
    requires docs != []
    ensures Texts(docs) == [CanonicalJson(docs[0])] + Texts(docs[1..])
  {
  }

  lemma {:induction false} SplitJsonLines(docs: seq<Doc>)
    requires forall i | 0 <= i < |docs| :: WellFormed(docs[i])
    ensures Split(JsonLines(docs)) == Texts(docs) + [""]
  {
    if docs != [] {
      var text := CanonicalJson(docs[0]);
      assert OneLine(text) by {
        CanonicalOneLine(docs[0]);
      }
      SplitOffLine(text, JsonLines(docs[1..]));
      SplitJsonLines(docs[1..]);
      TextsFirst(docs);
    }
  }

  /** The lines, each ended by a line feed. */
  function Ended(lines: seq<string>): string {
    if lines == [] then "" else lines[0] + "\n" + Ended(lines[1..])
  }

  lemma {:induction false} SplitEnded(lines: seq<string>, last: string)
    requires OneLine(last) && forall i | 0 <= i < |lines| :: OneLine(lines[i])
    ensures Split(Ended(lines) + last) == lines + [last]
  {
    if lines == [] {
      SplitLine(last);
      assert Ended([]) + last == last;
    } else {
      assert Ended(lines) + last == lines[0] + "\n" + (Ended(lines[1..]) + last);
      SplitOffLine(lines[0], Ended(lines[1..]) + last);
      SplitEnded(lines[1..], last);
    }
  }

  lemma {:induction false} SplitLine(line: string)
    requires OneLine(line)
    ensures Split(line) == [line]
  {
    if line != "" {
      SplitLine(line[1..]);
      assert [line[0]] + line[1..] == line;
    }
  }

  /** A text is cut into its lines whether or not the last one is ended. */
  lemma LinesAre(lines: seq<string>, last: string)
    requires OneLine(last) && forall i | 0 <= i < |lines| :: OneLine(lines[i])
    ensures LinesOf(Ended(lines) + last) == if last == "" then lines else lines + [last]
  {
    SplitEnded(lines, last);
    assert (lines + [last])[..|lines|] == lines;
  }

  /** The order of the host's keys: by time, then by table, then by id, and strict. */
  lemma KeyOrder(a: Key, b: Key)
    requires RowKey(a) && RowKey(b)
    ensures a.ts.n < b.ts.n ==> KeyLess(a, b) && !KeyLess(b, a)
    ensures a.ts == b.ts && a.table != b.table ==>
      (KeyLess(a, b) <==> Less(a.table.s, b.table.s)) && (KeyLess(b, a) <==> !KeyLess(a, b))
    ensures a.ts == b.ts && a.table == b.table ==> (KeyLess(a, b) <==> a.id.n < b.id.n)
  {
    LessTotal(a.table.s, b.table.s);
    if Less(a.table.s, b.table.s) {
      LessStrict(a.table.s, b.table.s);
    }
  }

  // ---- the verifier accepts what the host exports -------------------------------------------

  predicate DistinctFields(fields: seq<string>) {
    forall i, j | 0 <= i < j < |fields| :: fields[i] != fields[j]
  }

  function MeaningsOf(fields: seq<string>, value: string -> Doc): map<string, Json> {
    map k | k in fields :: Meaning(value(k))
  }

  lemma ObjectMeans(fields: seq<string>, value: string -> Doc)
    requires DistinctFields(fields) && forall k | k in fields :: WellFormed(value(k))
    ensures WellFormed(ObjectOf(fields, value))
    ensures Meaning(ObjectOf(fields, value)) == Obj(MeaningsOf(fields, value))
  {
    var ms := ObjectOf(fields, value).members;
    assert Keys(ms) == fields;
    assert Meaning(DObj(ms)).members == MeaningsOf(fields, value);
  }

  lemma FieldsDistinct()
    ensures DistinctFields(LINE_FIELDS) && DistinctFields(BODY_FIELDS)
    ensures forall k :: k in LINE_FIELDS <==> k in BODY_FIELDS || k == "hash"
    ensures "hash" !in BODY_FIELDS
    ensures "ts" in BODY_FIELDS && "table" in BODY_FIELDS && "id" in BODY_FIELDS && "prev" in BODY_FIELDS
    ensures "subject" in BODY_FIELDS && "action" in BODY_FIELDS && "detail" in BODY_FIELDS
  {
    assert BODY_FIELDS[0] == "ts" && BODY_FIELDS[1] == "table" && BODY_FIELDS[2] == "id";
    assert BODY_FIELDS[3] == "subject" && BODY_FIELDS[4] == "action" && BODY_FIELDS[5] == "detail";
    assert BODY_FIELDS[6] == "prev" && |BODY_FIELDS| == 7;
  }

  predicate FieldsDoc(value: string -> Doc, key: Key, prev: string, hash: string) {
    && RowKey(key)
    && value("ts") == DNum(key.ts.n) && value("table") == DStr(key.table.s) && value("id") == DNum(key.id.n)
    && value("prev") == DStr(prev) && value("hash") == DStr(hash)
  }

  lemma FieldsOfObject(body: seq<string>, fields: seq<string>, value: string -> Doc, key: Key,
        prev: string, hash: string)
    requires "hash" !in body && forall k :: k in fields <==> k in body || k == "hash"
    requires "ts" in body && "table" in body && "id" in body && "prev" in body
    requires FieldsDoc(value, key, prev, hash)
    ensures FieldsOf(Obj(MeaningsOf(fields, value)))
      == Some(Fields(Obj(MeaningsOf(body, value)), Str(hash), Str(prev), key))
  {
    var m := MeaningsOf(fields, value);
    assert m["ts"] == key.ts && m["table"] == key.table && m["id"] == key.id;
    assert m["prev"] == Str(prev) && m["hash"] == Str(hash);
    assert m - {"hash"} == MeaningsOf(body, value);
  }

  lemma LineFieldsDoc(line: AuditLine)
    ensures FieldsDoc(name => FieldDoc(line, name), KeyOf(line.row), line.prev, line.hash)
  {
  }

  /** No field of the body depends on the hash. */
  lemma BodyWithoutHash(line: AuditLine, body: seq<string>)
    requires "hash" !in body
    ensures Inserted(line.(hash := ""), body) == Inserted(line, body)
  {
    forall k | k in body ensures FieldDoc(line, k) == FieldDoc(line.(hash := ""), k) {
    }
    assert Inserted(line.(hash := ""), body).members == Inserted(line, body).members;
  }

  lemma InsertedFields(line: AuditLine, body: seq<string>, fields: seq<string>)
    requires WellFormed(line.row.detail) && DistinctFields(body) && DistinctFields(fields)
    requires "hash" !in body && forall k :: k in fields <==> k in body || k == "hash"
    requires "ts" in body && "table" in body && "id" in body && "prev" in body
    ensures WellFormed(Inserted(line, body)) && WellFormed(Inserted(line, fields))
    ensures FieldsOf(Meaning(Inserted(line, fields))) ==
      Some(Fields(Meaning(Inserted(line, body)), Str(line.hash), Str(line.prev), KeyOf(line.row)))
  {
    var value := name => FieldDoc(line, name);
    ValuesWellFormed(line, value);
    assert Inserted(line, fields) == ObjectOf(fields, value);
    assert Inserted(line, body) == ObjectOf(body, value);
    ObjectMeans(fields, value);
    ObjectMeans(body, value);
    LineFieldsDoc(line);
    FieldsOfObject(body, fields, value, KeyOf(line.row), line.prev, line.hash);
  }

  lemma ValuesWellFormed(line: AuditLine, value: string -> Doc)
    requires WellFormed(line.row.detail) && forall k :: value(k) == FieldDoc(line, k)
    ensures forall k :: WellFormed(value(k))
  {
  }

  lemma LineMeans(line: AuditLine)
    requires WellFormed(line.row.detail)
    ensures WellFormed(BodyOf(line.row, line.prev)) && WellFormed(LineDoc(line))
    ensures FieldsOf(Meaning(LineDoc(line))) ==
      Some(Fields(Meaning(BodyOf(line.row, line.prev)), Str(line.hash), Str(line.prev), KeyOf(line.row)))
  {
    FieldsDistinct();
    BodyWithoutHash(line, BODY_FIELDS);
    InsertedFields(line, BODY_FIELDS, LINE_FIELDS);
  }

  function KeyOf(row: RawRow): (k: Key)
    ensures RowKey(k)
  {
    Key(Num(row.ts), Str(row.table), Num(row.id))
  }

  /** Rows in the order the export query sorts them. */
  predicate Sorted(rows: seq<RawRow>) {
    forall i | 0 < i < |rows| :: !KeyLess(KeyOf(rows[i]), KeyOf(rows[i - 1]))
  }

  predicate DetailsWellFormed(rows: seq<RawRow>) {
    forall i | 0 <= i < |rows| :: WellFormed(rows[i].detail)
  }

  /** One line the host wrote is one the verifier takes, and leads to the line's hash. */
  lemma LineAccepted(t: Tools, row: RawRow, prev: string, hash: string, last: Option<Key>)
    requires Sound(t) && WellFormed(row.detail) && hash == t.sha(prev + CanonicalJson(BodyOf(row, prev)))
    requires InOrder(t, KeyOf(row), last)
    ensures
      var v := t.loads(CanonicalJson(LineDoc(AuditLine(row, prev, hash))));
      && v.Some? && FieldsOf(v.value).Some?
      && var f := FieldsOf(v.value).value;
      && LineOk(t, f, prev, last) && f.claimed == Str(hash) && f.key == KeyOf(row)
  {
    var line := AuditLine(row, prev, hash);
    LineMeans(line);
    CanonicalIsCanon(LineDoc(line));
    CanonicalIsCanon(BodyOf(row, prev));
  }

  /** The walk over texts whose first line is accepted. */
  lemma {:induction false} WalkStep(t: Tools, text: string, more: seq<string>, n: nat, prev: string,
                                    last: Option<Key>, hash: string, key: Key)
    requires t.loads(text).Some? && FieldsOf(t.loads(text).value).Some?
    requires
      var f := FieldsOf(t.loads(text).value).value;
      LineOk(t, f, prev, last) && f.claimed == Str(hash) && f.key == key
    ensures Walk(t, [text] + more, n, prev, last) == Walk(t, more, n + 1, hash, Some(key))
  {
    assert ([text] + more)[1..] == more;
  }

  lemma LineTextsFirst(line: AuditLine, rest: seq<AuditLine>)
    ensures Texts(LineDocs([line] + rest)) == [CanonicalJson(LineDoc(line))] + Texts(LineDocs(rest))
  {
    var docs := LineDocs([line] + rest);
    TextsFirst(docs);
    assert docs[0] == LineDoc(line) && docs[1..] == LineDocs(rest);
  }

  lemma {:induction false} WalkChained(t: Tools, rows: seq<RawRow>, n: nat, prev: string, last: Option<Key>)
    requires Sound(t) && DetailsWellFormed(rows) && Sorted(rows)
    requires rows != [] ==> InOrder(t, KeyOf(rows[0]), last)
    ensures
      var lines := Chained(rows, prev, CanonicalJson, t.sha);
      Walk(t, Texts(LineDocs(lines)), n, prev, last)
      == Success(if lines == [] then prev else lines[|lines| - 1].hash)
  {
    if rows != [] {
      var row := rows[0];
      var hash := t.sha(prev + CanonicalJson(BodyOf(row, prev)));
      var rest := Chained(rows[1..], hash, CanonicalJson, t.sha);
      var text, more := CanonicalJson(LineDoc(AuditLine(row, prev, hash))), Texts(LineDocs(rest));
      LineTextsFirst(AuditLine(row, prev, hash), rest);
      LineAccepted(t, row, prev, hash, last);
      WalkStep(t, text, more, n, prev, last, hash, KeyOf(row));
      WalkChained(t, rows[1..], n + 1, hash, Some(KeyOf(row)));
    }
  }

  function TrailerDoc(root: string, rows: nat, signature: string, kid: string): Doc {
    DObj([("root_hash", DStr(root)), ("rows", DNum(rows)), ("signature", DStr(signature)), ("kid", DStr(kid))])
  }

  lemma TrailerWellFormed(root: string, rows: nat, signature: string, kid: string)
    ensures WellFormed(TrailerDoc(root, rows, signature, kid))
  {
    var ms := TrailerDoc(root, rows, signature, kid).members;
    assert ms[0].0 == "root_hash" && ms[1].0 == "rows" && ms[2].0 == "signature" && ms[3].0 == "kid";
  }

  lemma TrailerMeans(root: string, rows: nat, signature: string, kid: string)
    ensures var d := TrailerDoc(root, rows, signature, kid);
      && WellFormed(d)
      && Get(Meaning(d), "root_hash", Null) == Str(root) && Get(Meaning(d), "rows", Null) == Num(rows)
      && Get(Meaning(d), "signature", Str("")) == Str(signature) && Get(Meaning(d), "kid", Null) == Str(kid)
  {
    var ms := TrailerDoc(root, rows, signature, kid).members;
    assert ms[0].0 == "root_hash" && ms[1].0 == "rows" && ms[2].0 == "signature" && ms[3].0 == "kid";
    TrailerWellFormed(root, rows, signature, kid);
    MemberMeans(ms, 0, "root_hash", DStr(root));
    MemberMeans(ms, 1, "rows", DNum(rows));
    MemberMeans(ms, 2, "signature", DStr(signature));
    MemberMeans(ms, 3, "kid", DStr(kid));
  }

  lemma MemberMeans(ms: seq<(string, Doc)>, i: nat, k: string, d: Doc)
    requires Distinct(ms) && i < |ms| && ms[i] == (k, d)
    ensures k in Meaning(DObj(ms)).members && Meaning(DObj(ms)).members[k] == Meaning(d)
  {
    assert Keys(ms)[i] == k;
    assert Find(ms, k) == i;
  }

  lemma DropLast(text: string, lines: seq<string>)
    requires Split(text) == lines + [""]
    ensures LinesOf(text) == lines
  {
    assert (lines + [""])[..|lines|] == lines;
  }

  lemma TextsConcat(a: seq<Doc>, b: seq<Doc>)
    ensures Texts(a + b) == Texts(a) + Texts(b)
  {
  }

  lemma {:induction false} TextsParts(header: Doc, docs: seq<Doc>, trailer: Doc)
    ensures Texts([header] + docs + [trailer]) == [CanonicalJson(header)] + Texts(docs) + [CanonicalJson(trailer)]
  {
    TextsConcat([header] + docs, [trailer]);
    TextsConcat([header], docs);
  }

  lemma ExportedLines(header: Doc, docs: seq<Doc>, trailer: Doc)
    requires WellFormed(header) && WellFormed(trailer) && forall i | 0 <= i < |docs| :: WellFormed(docs[i])
    ensures LinesOf(JsonLines([header] + docs + [trailer]))
      == [CanonicalJson(header)] + Texts(docs) + [CanonicalJson(trailer)]
  {
    var all := [header] + docs + [trailer];
    SplitJsonLines(all);
    DropLast(JsonLines(all), Texts(all));
    TextsParts(header, docs, trailer);
  }

  /** When the verification succeeds, read off the lines. */
  lemma {:induction false} LinesVerify(t: Tools, text: string, first: string, inner: seq<string>, last: string,
                                       header: Json, trailer: Json, root: string)
    requires LinesOf(text) == [first] + inner + [last]
    requires t.loads(first) == Some(header) && t.loads(last) == Some(trailer) && header.Obj? && trailer.Obj?
    requires Walk(t, inner, 2, GENESIS, None) == Success(root)
    requires TrailerOk(t, trailer, root, |inner|) && SignatureOk(t, header, trailer, root, |inner|)
    ensures Verification(t, text) == Ok(|inner|, root)
  {
    var lines := LinesOf(text);
    assert lines[0] == first && lines[|lines| - 1] == last && lines[1..|lines| - 1] == inner;
  }

  /** What the host exports for some rows. */
  function Exported(t: Tools, rows: seq<RawRow>, header: Doc, kid: string, signature: string): string {
    var lines := Chained(rows, GENESIS, CanonicalJson, t.sha);
    JsonLines([header] + LineDocs(lines) + [TrailerDoc(RootOf(lines), |rows|, signature, kid)])
  }

  /** Whatever rows the host exports in their order, with a signature that checks, the
      verifier accepts the text and reports their number and root. */
  lemma {:induction false} VerifierAcceptsExport(t: Tools, rows: seq<RawRow>, header: Doc, kid: string,
        signature: string)
    requires Sound(t) && DetailsWellFormed(rows) && Sorted(rows)
    requires header.DObj? && WellFormed(header) && Get(Meaning(header), "kid", Null) == Str(kid)
    requires t.signatureOk(Str(kid), RootOf(Chained(rows, GENESIS, CanonicalJson, t.sha)), |rows|, Str(signature))
    ensures Verification(t, Exported(t, rows, header, kid, signature))
      == Ok(|rows|, RootOf(Chained(rows, GENESIS, CanonicalJson, t.sha)))
  {
    var lines := Chained(rows, GENESIS, CanonicalJson, t.sha);
    var root := RootOf(lines);
    var trailer := TrailerDoc(root, |rows|, signature, kid);
    ChainedLength(rows, GENESIS, CanonicalJson, t.sha);
    TrailerMeans(root, |rows|, signature, kid);
    forall i | 0 <= i < |lines| ensures WellFormed(LineDocs(lines)[i]) {
      LineMeans(lines[i]);
    }
    ExportedLines(header, LineDocs(lines), trailer);
    WalkChained(t, rows, 2, GENESIS, None);
    CanonicalIsCanon(header);
    CanonicalIsCanon(trailer);
    LinesVerify(t, Exported(t, rows, header, kid, signature), CanonicalJson(header), Texts(LineDocs(lines)),
                CanonicalJson(trailer), Meaning(header), Meaning(trailer), root);
  }

  lemma {:induction false} ChainedLength(rows: seq<RawRow>, prev: string, canon: Doc -> string, sha: string -> string)
    ensures var lines := Chained(rows, prev, canon, sha);
      |lines| == |rows| && forall i | 0 <= i < |rows| :: lines[i].row == rows[i]
  {
    if rows != [] {
      ChainedLength(rows[1..], sha(prev + canon(BodyOf(rows[0], prev))), canon, sha);
    }
  }

  // ---- tamper evidence -------------------------------------------------------------------------

  /** A body with the hash claimed for it. */
  datatype Link = Link(body: Json, hash: string)

  predicate Linked(t: Tools, links: seq<Link>, prev: string) {
    links == [] ||
    (links[0].hash == t.sha(prev + t.canonical(links[0].body)) && Linked(t, links[1..], links[0].hash))
  }

  function End(links: seq<Link>, prev: string): string {
    if links == [] then prev else links[|links| - 1].hash
  }

  function Before(links: seq<Link>, prev: string, i: nat): string
    requires i < |links|
  {
    if i == 0 then prev else links[i - 1].hash
  }

  function BodiesOf(links: seq<Link>): seq<Json> {
    seq(|links|, i requires 0 <= i < |links| => links[i].body)
  }

  /** The texts hashed for the `i`th lines differ, and their digests do not. */
  predicate CollideAt(t: Tools, a: seq<Link>, p: string, b: seq<Link>, q: string, i: nat)
    requires i < |a| && i < |b|
  {
    var x, y := Before(a, p, i) + t.canonical(a[i].body), Before(b, q, i) + t.canonical(b[i].body);
    x != y && t.sha(x) == t.sha(y)
  }

  /** Two chains of one length that end in one hash hold the same bodies, unless two of
      the texts hashed on the way, at the same place, collide. */
  lemma {:induction false} SameEndSameBodies(t: Tools, a: seq<Link>, p: string, b: seq<Link>, q: string)
    requires Sound(t) && |p| == |q| == DIGEST_LENGTH
    requires Linked(t, a, p) && Linked(t, b, q) && |a| == |b| && End(a, p) == End(b, q)
    ensures (BodiesOf(a) == BodiesOf(b) && p == q) || exists i | 0 <= i < |a| :: CollideAt(t, a, p, b, q, i)
    decreases |a|
  {
    if a != [] {
      SameEndSameBodies(t, a[1..], a[0].hash, b[1..], b[0].hash);
      if i :| 0 <= i < |a| - 1 && CollideAt(t, a[1..], a[0].hash, b[1..], b[0].hash, i) {
        assert CollideAt(t, a, p, b, q, i + 1);
      } else {
        var x, y := p + t.canonical(a[0].body), q + t.canonical(b[0].body);
        if x != y {
          assert CollideAt(t, a, p, b, q, 0);
        } else {
          assert x[..DIGEST_LENGTH] == p && y[..DIGEST_LENGTH] == q;
          assert x[DIGEST_LENGTH..] == Canon(a[0].body) && y[DIGEST_LENGTH..] == Canon(b[0].body);
          CanonInjective(a[0].body, b[0].body);
          assert BodiesOf(a) == [a[0].body] + BodiesOf(a[1..]);
          assert BodiesOf(b) == [b[0].body] + BodiesOf(b[1..]);
        }
      }
    }
  }

  /** The links the verifier reads off a list of lines. */
  function LinksOf(t: Tools, lines: seq<string>): seq<Link> {
    seq(|lines|, i requires 0 <= i < |lines| => LinkOf(t, lines[i]))
  }

  function LinkOf(t: Tools, line: string): Link {
    match t.loads(line)
    case None => Link(Null, "")
    case Some(v) =>
      match FieldsOf(v)
      case None => Link(Null, "")
      case Some(f) => Link(f.body, if f.claimed.Str? then f.claimed.s else "")
  }

  lemma {:induction false} WalkLinks(t: Tools, lines: seq<string>, n: nat, prev: string, last: Option<Key>)
    requires Walk(t, lines, n, prev, last).Success?
    ensures Linked(t, LinksOf(t, lines), prev)
    ensures Walk(t, lines, n, prev, last).value == End(LinksOf(t, lines), prev)
  {
    if lines != [] {
      var f := FieldsOf(t.loads(lines[0]).value).value;
      WalkLinks(t, lines[1..], n + 1, f.claimed.s, Some(f.key));
      assert LinksOf(t, lines)[1..] == LinksOf(t, lines[1..]);
    }
  }

  /** The rows of a text, as the verifier read them. */
  function RowLinks(t: Tools, text: string): seq<Link> {
    var lines := LinesOf(text);
    if |lines| < 2 then [] else LinksOf(t, lines[1..|lines| - 1])
  }

  /** The place in the order of each line, as the verifier read it. */
  function KeyRead(t: Tools, line: string): Option<Key> {
    match t.loads(line)
    case None => None
    case Some(v) =>
      match FieldsOf(v)
      case None => None
      case Some(f) => Some(f.key)
  }

  predicate NotBefore(t: Tools, key: Option<Key>, last: Option<Key>) {
    key.Some? && InOrder(t, key.value, last)
  }

  lemma {:induction false} WalkOrdered(t: Tools, lines: seq<string>, n: nat, prev: string, last: Option<Key>)
    requires Walk(t, lines, n, prev, last).Success?
    ensures forall i | 0 <= i < |lines| ::
      NotBefore(t, KeyRead(t, lines[i]), if i == 0 then last else KeyRead(t, lines[i - 1]))
  {
    if lines != [] {
      var f := FieldsOf(t.loads(lines[0]).value).value;
      var rest := lines[1..];
      WalkOrdered(t, rest, n + 1, f.claimed.s, Some(f.key));
      forall i | 0 <= i < |lines|
        ensures NotBefore(t, KeyRead(t, lines[i]), if i == 0 then last else KeyRead(t, lines[i - 1]))
      {
        if i > 0 {
          assert lines[i] == rest[i - 1];
          assert i > 1 ==> lines[i - 1] == rest[i - 2];
        }
      }
    }
  }

  function RowLines(text: string): seq<string> {
    var lines := LinesOf(text);
    if |lines| < 2 then [] else lines[1..|lines| - 1]
  }

  /** Whatever text is accepted: its rows are as many as reported, in order, and chained
      from the genesis to the reported root. */
  lemma {:induction false} AcceptedIsChained(t: Tools, text: string, n: nat, root: string)
    requires Verification(t, text) == Ok(n, root)
    ensures |RowLines(text)| == |RowLinks(t, text)| == n
    ensures Linked(t, RowLinks(t, text), GENESIS) && End(RowLinks(t, text), GENESIS) == root
    ensures forall i | 0 < i < n :: NotBefore(t, KeyRead(t, RowLines(text)[i]), KeyRead(t, RowLines(text)[i - 1]))
  {
    WalkLinks(t, RowLines(text), 2, GENESIS, None);
    WalkOrdered(t, RowLines(text), 2, GENESIS, None);
  }

  /** Two accepted texts with the same root and number of rows hold the same rows, field
      for field and in the same order, unless the lines at some place are a collision. */
  lemma TamperEvident(t: Tools, text: string, other: string, n: nat, root: string)
    requires Sound(t)
    requires Verification(t, text) == Ok(n, root) && Verification(t, other) == Ok(n, root)
    ensures |RowLinks(t, text)| == |RowLinks(t, other)| == n
    ensures BodiesOf(RowLinks(t, text)) == BodiesOf(RowLinks(t, other))
      || exists i | 0 <= i < n :: CollideAt(t, RowLinks(t, text), GENESIS, RowLinks(t, other), GENESIS, i)
  {
    AcceptedIsChained(t, text, n, root);
    AcceptedIsChained(t, other, n, root);
    SameEndSameBodies(t, RowLinks(t, text), GENESIS, RowLinks(t, other), GENESIS);
  }

  // ---- every verdict, read off the lines -----------------------------------------------------------

  /** The hash a line claims, when it claims one. */
  function HashRead(t: Tools, line: string): string {
    match t.loads(line)
    case Some(Obj(m)) => if "hash" in m && m["hash"].Str? then m["hash"].s else ""
    case _ => ""
  }

  /** What the line above ends in. */
  function HashAbove(t: Tools, rows: seq<string>, i: nat): string
    requires i <= |rows|
  {
    if i == 0 then GENESIS else HashRead(t, rows[i - 1])
  }

  /** The three values a line is ordered by. */
  function PlaceRead(t: Tools, line: string): Key {
    match t.loads(line)
    case Some(Obj(m)) =>
      if "ts" in m && "table" in m && "id" in m then Key(m["ts"], m["table"], m["id"]) else Key(Null, Null, Null)
    case _ => Key(Null, Null, Null)
  }

  /** Line `i` continues the chain: an object with all it needs, that names the hash above,
      claims the digest of that hash and of all its other members, and is not out of order. */
  predicate Continues(t: Tools, rows: seq<string>, i: nat)
    requires i < |rows|
  {
    match t.loads(rows[i])
    case Some(Obj(m)) =>
      && "hash" in m && "prev" in m && "ts" in m && "table" in m && "id" in m
      && m["prev"] == Str(HashAbove(t, rows, i))
      && m["hash"] == Str(t.sha(HashAbove(t, rows, i) + t.canonical(Obj(m - {"hash"}))))
      && (i > 0 ==> t.less(PlaceRead(t, rows[i]), PlaceRead(t, rows[i - 1])) == Some(false))
    case _ => false
  }

  predicate ChainedTo(t: Tools, rows: seq<string>, root: string) {
    (forall i | 0 <= i < |rows| :: Continues(t, rows, i)) && HashAbove(t, rows, |rows|) == root
  }

  /** Line `k` is the first that does not continue the chain. */
  predicate BreaksAt(t: Tools, rows: seq<string>, k: int) {
    0 <= k < |rows| && !Continues(t, rows, k) && forall j | 0 <= j < k :: Continues(t, rows, j)
  }

  predicate Loads(t: Tools, line: string) {
    t.loads(line).Some?
  }

  predicate IsObject(t: Tools, line: string) {
    t.loads(line).Some? && t.loads(line).value.Obj?
  }

  /** A member of the object a line holds. */
  function Member(t: Tools, line: string, k: string, absent: Json): Json {
    match t.loads(line)
    case Some(Obj(m)) => if k in m then m[k] else absent
    case _ => absent
  }

  predicate Tells(t: Tools, last: string, root: string, n: nat) {
    Member(t, last, "root_hash", Null) == Str(root) && t.same(Member(t, last, "rows", Null), Num(n))
  }

  /** Both ends name one key, and the signature over root and number is that key's. */
  predicate Signed(t: Tools, first: string, last: string, root: string, n: nat) {
    && t.same(Member(t, first, "kid", Null), Member(t, last, "kid", Null))
    && t.signatureOk(Member(t, last, "kid", Null), root, n, Member(t, last, "signature", Str("")))
  }

  /** When each verdict is the right one for a first line, the rows behind it and a last line. */
  predicate Right(t: Tools, first: string, rows: seq<string>, last: string, verdict: Verdict) {
    var root := HashAbove(t, rows, |rows|);
    match verdict
    case Ok(k, r) =>
      && IsObject(t, first) && IsObject(t, last) && k == |rows| && ChainedTo(t, rows, r)
      && Tells(t, last, r, k) && Signed(t, first, last, r, k)
    case FailSignature =>
      && IsObject(t, first) && IsObject(t, last) && ChainedTo(t, rows, root)
      && Tells(t, last, root, |rows|) && !Signed(t, first, last, root, |rows|)
    case Crashed =>
      && Loads(t, first) && Loads(t, last) && ChainedTo(t, rows, root)
      && (!IsObject(t, last) || (Tells(t, last, root, |rows|) && !IsObject(t, first)))
    case FailLine(k) =>
      if !Loads(t, first) || !Loads(t, last) then k == if "{" <= first then |rows| + 2 else 1
      else if ChainedTo(t, rows, root) then k == |rows| + 2 && IsObject(t, last) && !Tells(t, last, root, |rows|)
      else BreaksAt(t, rows, k - 2)
  }

  /** A text with fewer than two lines fails at the first. */
  predicate RightFor(t: Tools, lines: seq<string>, verdict: Verdict) {
    var n := |lines|;
    if n < 2 then verdict == FailLine(1) else Right(t, lines[0], lines[1..n - 1], lines[n - 1], verdict)
  }

  lemma LineContinues(t: Tools, rows: seq<string>, i: nat)
    requires i < |rows| && (i > 0 ==> Continues(t, rows, i - 1))
    ensures
      var above, last := HashAbove(t, rows, i), if i == 0 then None else Some(PlaceRead(t, rows[i - 1]));
      Continues(t, rows, i) <==>
        t.loads(rows[i]).Some? && FieldsOf(t.loads(rows[i]).value).Some?
        && LineOk(t, FieldsOf(t.loads(rows[i]).value).value, above, last)
    ensures Continues(t, rows, i) ==>
      FieldsOf(t.loads(rows[i]).value).value.claimed == Str(HashRead(t, rows[i]))
      && FieldsOf(t.loads(rows[i]).value).value.key == PlaceRead(t, rows[i])
  {
  }

  /** The walk from line `i` on. */
  function WalkFrom(t: Tools, rows: seq<string>, i: nat): Result<string, nat>
    requires i <= |rows|
  {
    Walk(t, rows[i..], i + 2, HashAbove(t, rows, i), if i == 0 then None else Some(PlaceRead(t, rows[i - 1])))
  }

  lemma {:induction false} WalkOne(t: Tools, rows: seq<string>, i: nat)
    requires i < |rows| && (i > 0 ==> Continues(t, rows, i - 1))
    ensures WalkFrom(t, rows, i) == if Continues(t, rows, i) then WalkFrom(t, rows, i + 1) else Failure(i + 2)
  {
    LineContinues(t, rows, i);
    assert rows[i..][0] == rows[i] && rows[i..][1..] == rows[i + 1..];
  }

  /** The walk over the lines from `i` on, those above having continued the chain. */
  lemma {:induction false} WalkReads(t: Tools, rows: seq<string>, i: nat)
    requires i <= |rows| && forall j | 0 <= j < i :: Continues(t, rows, j)
    ensures
      match WalkFrom(t, rows, i)
      case Success(root) => ChainedTo(t, rows, root)
      case Failure(k) => BreaksAt(t, rows, k - 2)
    decreases |rows| - i
  {
    if i < |rows| {
      WalkOne(t, rows, i);
      if Continues(t, rows, i) {
        WalkReads(t, rows, i + 1);
      }
    }
  }

  lemma EndsRead(t: Tools, first: string, last: string, root: string, n: nat)
    requires IsObject(t, last)
    ensures TrailerOk(t, t.loads(last).value, root, n) <==> Tells(t, last, root, n)
    ensures IsObject(t, first) ==>
      (SignatureOk(t, t.loads(first).value, t.loads(last).value, root, n) <==> Signed(t, first, last, root, n))
  {
  }

  lemma {:induction false} RowsRead(t: Tools, rows: seq<string>)
    ensures
      match Walk(t, rows, 2, GENESIS, None)
      case Success(root) => ChainedTo(t, rows, root)
      case Failure(k) => BreaksAt(t, rows, k - 2)
  {
    assert rows[0..] == rows;
    WalkReads(t, rows, 0);
  }

  lemma {:induction false} JudgeIsRight(t: Tools, first: string, rows: seq<string>, last: string)
    ensures Right(t, first, rows, last, Judge(t, first, rows, last))
  {
    if Loads(t, first) && Loads(t, last) {
      RowsRead(t, rows);
      if IsObject(t, last) {
        EndsRead(t, first, last, HashAbove(t, rows, |rows|), |rows|);
      }
    }
  }

  lemma OneIsRight(t: Tools, first: string, rows: seq<string>, last: string, a: Verdict, b: Verdict)
    requires Right(t, first, rows, last, a) && Right(t, first, rows, last, b)
    ensures a == b
  {
  }

  lemma {:induction false} JudgeIff(t: Tools, first: string, rows: seq<string>, last: string, verdict: Verdict)
    ensures Judge(t, first, rows, last) == verdict <==> Right(t, first, rows, last, verdict)
  {
    JudgeIsRight(t, first, rows, last);
    if Right(t, first, rows, last, verdict) {
      OneIsRight(t, first, rows, last, verdict, Judge(t, first, rows, last));
    }
  }

  /** Of any text, each verdict holds if and only if the lines are as it says. */
  lemma {:induction false} VerdictIff(t: Tools, text: string, verdict: Verdict)
    ensures Verification(t, text) == verdict <==> RightFor(t, LinesOf(text), verdict)
  {
    var lines := LinesOf(text);
    var n := |lines|;
    if n >= 2 {
      JudgeIff(t, lines[0], lines[1..n - 1], lines[n - 1], verdict);
    }
  }

  /** A text is accepted with `n` rows and a root if and only if its first and last lines are
      objects, the `n` lines between are chained from the genesis to the root in order, the
      last line tells that root and that number, and the key both ends name has signed them. */
  lemma {:induction false} AcceptedIff(t: Tools, text: string, n: nat, root: string)
    ensures Verification(t, text) == Ok(n, root) <==>
      var lines := LinesOf(text);
      && |lines| == n + 2
      && var first, rows, last := lines[0], lines[1..n + 1], lines[n + 1];
      && IsObject(t, first) && IsObject(t, last)
      && ChainedTo(t, rows, root)
      && Member(t, last, "root_hash", Null) == Str(root) && t.same(Member(t, last, "rows", Null), Num(n))
      && t.same(Member(t, first, "kid", Null), Member(t, last, "kid", Null))
      && t.signatureOk(Member(t, last, "kid", Null), root, n, Member(t, last, "signature", Str("")))
  {
    VerdictIff(t, text, Ok(n, root));
  }

  // ---- the host's own check ----------------------------------------------------------------------

  /** The same row, the detail up to the order of its members. */
  predicate SameRow(r: RawRow, s: RawRow) {
    r.(detail := DNull) == s.(detail := DNull) && Meaning(r.detail) == Meaning(s.detail)
  }

  /** The links of a chain the host built itself. */
  function HostLinks(lines: seq<AuditLine>): seq<Link> {
    seq(|lines|, i requires 0 <= i < |lines| => Link(Meaning(BodyOf(lines[i].row, lines[i].prev)), lines[i].hash))
  }

  lemma HostLinksFirst(line: AuditLine, rest: seq<AuditLine>)
    ensures HostLinks([line] + rest) == [Link(Meaning(BodyOf(line.row, line.prev)), line.hash)] + HostLinks(rest)
  {
  }

  lemma BodyHashed(t: Tools, row: RawRow, prev: string)
    requires Sound(t) && WellFormed(row.detail)
    ensures t.sha(prev + CanonicalJson(BodyOf(row, prev))) == t.sha(prev + t.canonical(Meaning(BodyOf(row, prev))))
  {
    LineMeans(AuditLine(row, prev, ""));
    CanonicalIsCanon(BodyOf(row, prev));
  }

  lemma {:induction false} LinkedFirst(t: Tools, first: Link, rest: seq<Link>, prev: string)
    requires first.hash == t.sha(prev + t.canonical(first.body)) && Linked(t, rest, first.hash)
    ensures Linked(t, [first] + rest, prev)
  {
    assert ([first] + rest)[1..] == rest;
  }

  lemma {:induction false} ChainedLinked(t: Tools, rows: seq<RawRow>, prev: string)
    requires Sound(t) && DetailsWellFormed(rows)
    ensures var lines := Chained(rows, prev, CanonicalJson, t.sha);
      Linked(t, HostLinks(lines), prev) && |lines| == |rows|
  {
    if rows != [] {
      var hash := t.sha(prev + CanonicalJson(BodyOf(rows[0], prev)));
      var rest := Chained(rows[1..], hash, CanonicalJson, t.sha);
      ChainedLinked(t, rows[1..], hash);
      HostLinksFirst(AuditLine(rows[0], prev, hash), rest);
      BodyHashed(t, rows[0], prev);
      LinkedFirst(t, Link(Meaning(BodyOf(rows[0], prev)), hash), HostLinks(rest), prev);
    }
  }

  lemma SameBodySameRow(r: RawRow, p: string, s: RawRow, q: string)
    requires WellFormed(r.detail) && WellFormed(s.detail)
    requires Meaning(BodyOf(r, p)) == Meaning(BodyOf(s, q))
    ensures SameRow(r, s)
  {
    var a, b := AuditLine(r, p, ""), AuditLine(s, q, "");
    var f, g := name => FieldDoc(a, name), name => FieldDoc(b, name);
    FieldsDistinct();
    ValuesWellFormed(a, f);
    ValuesWellFormed(b, g);
    ObjectMeans(BODY_FIELDS, f);
    ObjectMeans(BODY_FIELDS, g);
    assert MeaningsOf(BODY_FIELDS, f) == MeaningsOf(BODY_FIELDS, g);
    forall k | k in BODY_FIELDS ensures Meaning(f(k)) == Meaning(g(k)) {
      assert MeaningsOf(BODY_FIELDS, f)[k] == Meaning(f(k));
    }
    FieldsSayRow(a, b, f, g);
  }

  lemma FieldMeanings(a: AuditLine, f: string -> Doc)
    requires forall k :: f(k) == FieldDoc(a, k)
    ensures Meaning(f("ts")) == Num(a.row.ts) && Meaning(f("table")) == Str(a.row.table)
    ensures Meaning(f("id")) == Num(a.row.id) && Meaning(f("subject")) == Str(a.row.subject)
    ensures Meaning(f("action")) == Str(a.row.action) && Meaning(f("detail")) == Meaning(a.row.detail)
  {
  }

  lemma FieldsSayRow(a: AuditLine, b: AuditLine, f: string -> Doc, g: string -> Doc)
    requires forall k :: f(k) == FieldDoc(a, k) && g(k) == FieldDoc(b, k)
    requires forall k | k in BODY_FIELDS :: Meaning(f(k)) == Meaning(g(k))
    ensures SameRow(a.row, b.row)
  {
    FieldsDistinct();
    FieldMeanings(a, f);
    FieldMeanings(b, g);
  }

  lemma SameBodiesSameRow(x: seq<AuditLine>, y: seq<AuditLine>, i: nat)
    requires BodiesOf(HostLinks(x)) == BodiesOf(HostLinks(y)) && i < |x| && i < |y|
    requires WellFormed(x[i].row.detail) && WellFormed(y[i].row.detail)
    ensures SameRow(x[i].row, y[i].row)
  {
    assert BodiesOf(HostLinks(x))[i] == BodiesOf(HostLinks(y))[i];
    SameBodySameRow(x[i].row, x[i].prev, y[i].row, y[i].prev);
  }

  lemma HostEnd(lines: seq<AuditLine>)
    ensures End(HostLinks(lines), GENESIS) == RootOf(lines)
  {
  }

  /** `verify_root`: a window recomputed later has the stored root and row count only if
      it holds the same rows, or two lines collide. */
  lemma {:induction false} RootPinsRows(t: Tools, rows: seq<RawRow>, later: seq<RawRow>)
    requires Sound(t) && DetailsWellFormed(rows) && DetailsWellFormed(later) && |rows| == |later|
    requires RootOf(Chained(rows, GENESIS, CanonicalJson, t.sha))
        == RootOf(Chained(later, GENESIS, CanonicalJson, t.sha))
    ensures
      var a, b := HostLinks(Chained(rows, GENESIS, CanonicalJson, t.sha)),
          HostLinks(Chained(later, GENESIS, CanonicalJson, t.sha));
      && |a| == |b| == |rows|
      && ((forall i | 0 <= i < |rows| :: SameRow(rows[i], later[i]))
          || exists i | 0 <= i < |rows| :: CollideAt(t, a, GENESIS, b, GENESIS, i))
  {
    var x, y := Chained(rows, GENESIS, CanonicalJson, t.sha), Chained(later, GENESIS, CanonicalJson, t.sha);
    ChainedLinked(t, rows, GENESIS);
    ChainedLinked(t, later, GENESIS);
    ChainedLength(rows, GENESIS, CanonicalJson, t.sha);
    ChainedLength(later, GENESIS, CanonicalJson, t.sha);
    assert End(HostLinks(x), GENESIS) == RootOf(x) == RootOf(y) == End(HostLinks(y), GENESIS) by {
      HostEnd(x);
      HostEnd(y);
    }
    SameEndSameBodies(t, HostLinks(x), GENESIS, HostLinks(y), GENESIS);
    if BodiesOf(HostLinks(x)) == BodiesOf(HostLinks(y)) {
      forall i | 0 <= i < |rows| ensures SameRow(rows[i], later[i]) {
        SameBodiesSameRow(x, y, i);
      }
    }
  }
}
