/** A tenant's stored files and the three ceilings of its plan, over whole runs. */
module BlobQuota {
  import opened Wrappers

  datatype Row = Row(id: string, name: string, version: int, mime: string, bytes: nat, sha: string,
                     expiresAt: Option<int>)

  /** A superseded version that is kept. */
  datatype Kept = Kept(id: string, version: int, bytes: nat, expiresAt: Option<int>, expired: bool)

  datatype Store = Store(rows: seq<Row>, versions: seq<Kept>)

  datatype Plan = Plan(blobsMax: nat, bytesMax: nat, blobMaxBytes: nat)

  datatype Policy = Policy(defaultTtl: Option<int>, keepVersions: Option<int>)

  datatype Content = Content(mime: string, bytes: nat, sha: string)

  datatype Reply =
    | Stored(row: Row)
    | TooLarge(limit: int, used: int)
    | TooManyBlobs(limit: int, used: int)
    | TooManyBytes(limit: int, used: int)
    | DiskFloor
    | Touched(id: string, expiresAt: int)
    | Deleted(id: string)
    | NotFound

  predicate Unlapsed(expiresAt: Option<int>, now: int) {
    expiresAt.None? || expiresAt.value > now
  }

  predicate Live(row: Row, now: int) {
    Unlapsed(row.expiresAt, now)
  }

  // ---- usage ------------------------------------------------------------------------------

  function CountLive(rows: seq<Row>, now: int): nat {
    if rows == [] then 0 else (if Live(rows[0], now) then 1 else 0) + CountLive(rows[1..], now)
  }

  function SumLive(rows: seq<Row>, now: int): nat {
    if rows == [] then 0 else (if Live(rows[0], now) then rows[0].bytes else 0) + SumLive(rows[1..], now)
  }

  function KeptSize(k: Kept, now: int): nat {
    if !k.expired && Unlapsed(k.expiresAt, now) then k.bytes else 0
  }

  function SumKept(versions: seq<Kept>, now: int): nat {
    if versions == [] then 0 else KeptSize(versions[0], now) + SumKept(versions[1..], now)
  }

  function FindName(rows: seq<Row>, name: string): (i: nat)
    ensures i <= |rows| && (i < |rows| ==> rows[i].name == name)
    ensures forall j | 0 <= j < i :: rows[j].name != name
  {
    if rows == [] || rows[0].name == name then 0 else 1 + FindName(rows[1..], name)
  }

  function FindId(rows: seq<Row>, id: string): (i: nat)
    ensures i <= |rows| && (i < |rows| ==> rows[i].id == id)
    ensures forall j | 0 <= j < i :: rows[j].id != id
  {
    if rows == [] || rows[0].id == id then 0 else 1 + FindId(rows[1..], id)
  }

  // ---- what each operation does --------------------------------------------------------------

  /** The version being replaced set aside, and those now too old marked. */
  function Archived(versions: seq<Kept>, was: Row, keep: int, now: int): seq<Kept> {
    Aged(Without(versions, was.id, was.version) + [Kept(was.id, was.version, was.bytes, was.expiresAt, false)],
         was.id, was.version + 1 - keep, now)
  }

  function Without(versions: seq<Kept>, id: string, version: int): seq<Kept> {
    if versions == [] then [] else
      (if versions[0].id == id && versions[0].version == version then [] else [versions[0]])
      + Without(versions[1..], id, version)
  }

  function Aged(versions: seq<Kept>, id: string, through: int, now: int): seq<Kept> {
    seq(|versions|, i requires 0 <= i < |versions| =>
      var k := versions[i];
      if k.id == id && !k.expired && k.version <= through then k.(expired := true, expiresAt := Some(now)) else k)
  }

  /** The row of `name` written, replacing what it held. */
  function Upsert(s: Store, newId: string, name: string, c: Content, expiresAt: Option<int>, keep: Option<int>,
                  now: int)
    : Store
  {
    var i := FindName(s.rows, name);
    if i == |s.rows| then s.(rows := s.rows + [Row(newId, name, 1, c.mime, c.bytes, c.sha, expiresAt)])
    else
      var was := s.rows[i];
      var row := Row(was.id, name, was.version + 1, c.mime, c.bytes, c.sha, expiresAt);
      Store(s.rows[i := row],
            if keep.Some? && keep.value >= 2 then Archived(s.versions, was, keep.value, now) else s.versions)
  }

  function Expiry(policy: Policy, ttl: Option<int>, now: int): Option<int> {
    if ttl.Some? then Some(now + ttl.value)
    else if policy.defaultTtl.Some? then Some(now + policy.defaultTtl.value)
    else None
  }

  predicate Repeats(s: Store, i: nat, c: Content, now: int) {
    i < |s.rows| && Live(s.rows[i], now) && s.rows[i].sha == c.sha && s.rows[i].mime == c.mime
  }

  /** What the ceilings say to `c` at row `i`, or at a new one. */
  function Refusal(s: Store, plan: Plan, i: nat, c: Content, now: int): Option<Reply> {
    var live := i < |s.rows| && Live(s.rows[i], now);
    var used := SumLive(s.rows, now) + SumKept(s.versions, now);
    if c.bytes > plan.blobMaxBytes then Some(TooLarge(plan.blobMaxBytes, c.bytes))
    else if !live && CountLive(s.rows, now) >= plan.blobsMax
    then Some(TooManyBlobs(plan.blobsMax, CountLive(s.rows, now)))
    else if used - (if live then s.rows[i].bytes else 0) + c.bytes > plan.bytesMax
    then Some(TooManyBytes(plan.bytesMax, used))
    else None
  }

  function Put(s: Store, plan: Plan, policy: Policy, name: string, ttl: Option<int>, c: Content, newId: string,
               diskOk: bool, now: int): (Store, Reply)
  {
    var expiresAt := Expiry(policy, ttl, now);
    var i := FindName(s.rows, name);
    if Repeats(s, i, c, now) then
      if expiresAt.Some? && expiresAt != s.rows[i].expiresAt then
        (s.(rows := s.rows[i := s.rows[i].(expiresAt := expiresAt)]), Stored(s.rows[i].(expiresAt := expiresAt)))
      else (s, Stored(s.rows[i]))
    else if Refusal(s, plan, i, c, now).Some? then (s, Refusal(s, plan, i, c, now).value)
    else if !diskOk then (s, DiskFloor)
    else
      var t := Upsert(s, newId, name, c, expiresAt, policy.keepVersions, now);
      assert i < |t.rows|;
      (t, Stored(t.rows[i]))
  }

  function Touch(s: Store, id: string, ttl: int, now: int): (Store, Reply) {
    var i := FindId(s.rows, id);
    if i == |s.rows| then (s, NotFound)
    else (s.(rows := s.rows[i := s.rows[i].(expiresAt := Some(now + ttl))]), Touched(id, now + ttl))
  }

  function VersionsOfOthers(versions: seq<Kept>, id: string): seq<Kept> {
    if versions == [] then [] else
      (if versions[0].id == id then [] else [versions[0]]) + VersionsOfOthers(versions[1..], id)
  }

  function Delete(s: Store, id: string): (Store, Reply) {
    var i := FindId(s.rows, id);
    if i == |s.rows| then (s, NotFound)
    else (Store(s.rows[..i] + s.rows[i + 1..], VersionsOfOthers(s.versions, id)), Deleted(id))
  }

  function Swept(row: Row, cutoff: int): seq<Row> {
    if Live(row, cutoff) then [row] else []
  }

  function Unpurged(rows: seq<Row>, cutoff: int): seq<Row> {
    if rows == [] then [] else Swept(rows[0], cutoff) + Unpurged(rows[1..], cutoff)
  }

  predicate RowLapsed(rows: seq<Row>, id: string, cutoff: int) {
    exists i :: 0 <= i < |rows| && rows[i].id == id && !Live(rows[i], cutoff)
  }

  function UnpurgedVersions(versions: seq<Kept>, rows: seq<Row>, cutoff: int): seq<Kept> {
    if versions == [] then [] else
      (if RowLapsed(rows, versions[0].id, cutoff) || !Unlapsed(versions[0].expiresAt, cutoff)
       then [] else [versions[0]])
      + UnpurgedVersions(versions[1..], rows, cutoff)
  }

  /** The nightly prune, or a tenant's own collection. */
  function Purge(s: Store, cutoff: int): Store {
    Store(Unpurged(s.rows, cutoff), UnpurgedVersions(s.versions, s.rows, cutoff))
  }

  method SweepRows(rows: seq<Row>, cutoff: int) returns (kept: seq<Row>)
    ensures kept == Unpurged(rows, cutoff)
  {
    kept := [];
    for i := 0 to |rows|
      invariant kept + Unpurged(rows[i..], cutoff) == Unpurged(rows, cutoff)
    {
      assert rows[i..][1..] == rows[i + 1..];
      Associates(kept, Swept(rows[i], cutoff), Unpurged(rows[i + 1..], cutoff));
      kept := kept + Swept(rows[i], cutoff);
    }
    assert kept + [] == kept;
  }

  method SweepVersions(versions: seq<Kept>, rows: seq<Row>, cutoff: int) returns (left: seq<Kept>)
    ensures left == UnpurgedVersions(versions, rows, cutoff)
  {
    left := [];
    for i := 0 to |versions|
      invariant left + UnpurgedVersions(versions[i..], rows, cutoff) == UnpurgedVersions(versions, rows, cutoff)
    {
      assert versions[i..][1..] == versions[i + 1..];
      var keep := if RowLapsed(rows, versions[i].id, cutoff) || !Unlapsed(versions[i].expiresAt, cutoff)
        then [] else [versions[i]];
      Associates(left, keep, UnpurgedVersions(versions[i + 1..], rows, cutoff));
      left := left + keep;
    }
    assert left + [] == left;
  }

  // ---- the handlers, step by step ---------------------------------------------------------------

  class BlobStore {
    var rows: seq<Row>
    var versions: seq<Kept>

    ghost function State(): Store
      reads this
    {
      Store(rows, versions)
    }

    constructor ()
      ensures State() == Store([], [])
    {
      rows, versions := [], [];
    }

    method SetExpiry(id: string, expiresAt: Option<int>) returns (found: bool)
      modifies this`rows
      ensures var i := FindId(old(rows), id);
        && found == (i < |old(rows)|)
        && rows == if found then old(rows)[i := old(rows)[i].(expiresAt := expiresAt)] else old(rows)
    {
      var i := FindId(rows, id);
      found := i < |rows|;
      if found {
        rows := rows[i := rows[i].(expiresAt := expiresAt)];
      }
    }

    method UpsertRow(newId: string, name: string, c: Content, expiresAt: Option<int>, keep: Option<int>, now: int)
      modifies this
      ensures State() == Upsert(old(State()), newId, name, c, expiresAt, keep, now)
    {
      var i := FindName(rows, name);
      if i == |rows| {
        rows := rows + [Row(newId, name, 1, c.mime, c.bytes, c.sha, expiresAt)];
      } else {
        var was := rows[i];
        if keep.Some? && keep.value >= 2 {
          versions := Without(versions, was.id, was.version);
          versions := versions + [Kept(was.id, was.version, was.bytes, was.expiresAt, false)];
          versions := Aged(versions, was.id, was.version + 1 - keep.value, now);
        }
        rows := rows[i := Row(was.id, name, was.version + 1, c.mime, c.bytes, c.sha, expiresAt)];
      }
    }

    /** `store_blob` */
    method PutBlob(plan: Plan, policy: Policy, name: string, ttl: Option<int>, c: Content, newId: string, diskOk: bool,
                   now: int)
      returns (reply: Reply)
      requires forall i, j | 0 <= i < j < |rows| :: rows[i].id != rows[j].id
      modifies this
      ensures (State(), reply) == Put(old(State()), plan, policy, name, ttl, c, newId, diskOk, now)
    {
      var expiresAt := if ttl.Some? then Some(now + ttl.value) else None;
      if expiresAt.None? && policy.defaultTtl.Some? {
        expiresAt := Some(now + policy.defaultTtl.value);
      }
      var i := FindName(rows, name);
      var live := i < |rows| && Live(rows[i], now);
      if live && rows[i].sha == c.sha && rows[i].mime == c.mime {
        if expiresAt.Some? && expiresAt != rows[i].expiresAt {
          var row := rows[i];
          var found := SetExpiry(row.id, expiresAt);
          return Stored(row.(expiresAt := expiresAt));
        }
        return Stored(rows[i]);
      }
      if c.bytes > plan.blobMaxBytes {
        return TooLarge(plan.blobMaxBytes, c.bytes);
      }
      var usedBlobs, usedBytes := CountLive(rows, now), SumLive(rows, now) + SumKept(versions, now);
      if !live && usedBlobs >= plan.blobsMax {
        return TooManyBlobs(plan.blobsMax, usedBlobs);
      }
      var replaced := if live then rows[i].bytes else 0;
      if usedBytes - replaced + c.bytes > plan.bytesMax {
        return TooManyBytes(plan.bytesMax, usedBytes);
      }
      if !diskOk {
        return DiskFloor;
      }
      UpsertRow(newId, name, c, expiresAt, policy.keepVersions, now);
      reply := Stored(rows[i]);
    }

    /** `blob_touch` */
    method TouchBlob(id: string, ttl: int, now: int) returns (reply: Reply)
      modifies this`rows
      ensures (State(), reply) == Touch(old(State()), id, ttl, now)
    {
      if FindId(rows, id) == |rows| {
        return NotFound;
      }
      var found := SetExpiry(id, Some(now + ttl));
      reply := Touched(id, now + ttl);
    }

    /** `blob_delete` */
    method DeleteBlob(id: string) returns (reply: Reply)
      modifies this
      ensures (State(), reply) == Delete(old(State()), id)
    {
      var i := FindId(rows, id);
      if i == |rows| {
        return NotFound;
      }
      rows := rows[..i] + rows[i + 1..];
      versions := VersionsOfOthers(versions, id);
      reply := Deleted(id);
    }

    /** `purge_expired_blobs`: a lapsed row goes with all its versions, then every version
        that aged out. */
    method PurgeLapsed(cutoff: int)
      modifies this
      ensures State() == Purge(old(State()), cutoff)
    {
      var left := SweepVersions(versions, rows, cutoff);
      rows := SweepRows(rows, cutoff);
      versions := left;
    }
  }

  // ---- the ceilings --------------------------------------------------------------------------------

  /** The current files that have not lapsed are within all three ceilings. */
  predicate Within(plan: Plan, rows: seq<Row>, now: int) {
    && CountLive(rows, now) <= plan.blobsMax
    && SumLive(rows, now) <= plan.bytesMax
    && forall i | 0 <= i < |rows| && Live(rows[i], now) :: rows[i].bytes <= plan.blobMaxBytes
  }

  function One(row: Row, now: int): nat {
    if Live(row, now) then 1 else 0
  }

  function Size(row: Row, now: int): nat {
    if Live(row, now) then row.bytes else 0
  }

  lemma {:induction false} Replacing(rows: seq<Row>, i: nat, row: Row, now: int)
    requires i < |rows|
    ensures CountLive(rows[i := row], now) == CountLive(rows, now) - One(rows[i], now) + One(row, now)
    ensures SumLive(rows[i := row], now) == SumLive(rows, now) - Size(rows[i], now) + Size(row, now)
  {
    var after := rows[i := row];
    if i == 0 {
      assert after[1..] == rows[1..];
    } else {
      assert after[1..] == rows[1..][i - 1 := row];
      Replacing(rows[1..], i - 1, row, now);
    }
  }

  lemma {:induction false} Appending(rows: seq<Row>, row: Row, now: int)
    ensures CountLive(rows + [row], now) == CountLive(rows, now) + One(row, now)
    ensures SumLive(rows + [row], now) == SumLive(rows, now) + Size(row, now)
  {
    var after := rows + [row];
    if rows == [] {
      assert after == [row] && after[1..] == [];
    } else {
      assert after[1..] == rows[1..] + [row];
      Appending(rows[1..], row, now);
    }
  }

  lemma {:induction false} Removing(rows: seq<Row>, i: nat, now: int)
    requires i < |rows|
    ensures var after := rows[..i] + rows[i + 1..];
      CountLive(after, now) <= CountLive(rows, now) && SumLive(after, now) <= SumLive(rows, now)
  {
    var after := rows[..i] + rows[i + 1..];
    if i == 0 {
      assert after == rows[1..];
    } else {
      assert after[1..] == rows[1..][..i - 1] + rows[1..][i..];
      Removing(rows[1..], i - 1, now);
    }
  }

  lemma {:induction false} Lapsing(rows: seq<Row>, now: int, later: int)
    requires now <= later
    ensures CountLive(rows, later) <= CountLive(rows, now) && SumLive(rows, later) <= SumLive(rows, now)
  {
    if rows != [] {
      Lapsing(rows[1..], now, later);
    }
  }

  lemma {:induction false} Purging(rows: seq<Row>, cutoff: int, now: int)
    ensures var after := Unpurged(rows, cutoff);
      && CountLive(after, now) <= CountLive(rows, now) && SumLive(after, now) <= SumLive(rows, now)
      && forall i | 0 <= i < |after| :: after[i] in rows
  {
    if rows != [] {
      var rest := Unpurged(rows[1..], cutoff);
      Purging(rows[1..], cutoff, now);
      var after := Unpurged(rows, cutoff);
      if Live(rows[0], cutoff) {
        assert after == [rows[0]] + rest && after[1..] == rest;
      } else {
        assert after == [] + rest == rest;
      }
      forall i | 0 <= i < |after| ensures after[i] in rows {
        assert after[i] == rows[0] || after[i] in rest;
      }
    }
  }

  lemma RowCounts(rows: seq<Row>, i: nat, now: int)
    requires i < |rows|
    ensures One(rows[i], now) <= CountLive(rows, now) && Size(rows[i], now) <= SumLive(rows, now)
  {
    if i > 0 {
      RowCounts(rows[1..], i - 1, now);
    }
  }

  // ---- runs ------------------------------------------------------------------------------------------

  datatype Op =
    | PutOp(policy: Policy, name: string, ttl: Option<int>, content: Content, newId: string, diskOk: bool)
    | TouchOp(id: string, lease: int)
    | DeleteOp(id: string)
    | PurgeOp(cutoff: int)
    | WaitOp(seconds: nat)

  datatype World = World(store: Store, now: int)

  function Do(w: World, plan: Plan, op: Op): World {
    match op
    case PutOp(policy, name, ttl, c, newId, diskOk) =>
      w.(store := Put(w.store, plan, policy, name, ttl, c, newId, diskOk, w.now).0)
    case TouchOp(id, ttl) => w.(store := Touch(w.store, id, ttl, w.now).0)
    case DeleteOp(id) => w.(store := Delete(w.store, id).0)
    case PurgeOp(cutoff) => w.(store := Purge(w.store, cutoff))
    case WaitOp(seconds) => w.(now := w.now + seconds)
  }

  function Run(w: World, plan: Plan, ops: seq<Op>): World
    decreases ops
  {
    if ops == [] then w else Run(Do(w, plan, ops[0]), plan, ops[1..])
  }

  predicate Good(w: World, plan: Plan) {
    Within(plan, w.store.rows, w.now)
  }

  lemma PutKeeps(s: Store, plan: Plan, policy: Policy, name: string, ttl: Option<int>, c: Content, newId: string,
                 diskOk: bool, now: int)
    requires Within(plan, s.rows, now)
    ensures Within(plan, Put(s, plan, policy, name, ttl, c, newId, diskOk, now).0.rows, now)
  {
    var i := FindName(s.rows, name);
    var expiresAt := Expiry(policy, ttl, now);
    if Repeats(s, i, c, now) {
      Replacing(s.rows, i, s.rows[i].(expiresAt := expiresAt), now);
    } else if Refusal(s, plan, i, c, now).None? && diskOk {
      if i == |s.rows| {
        Appending(s.rows, Row(newId, name, 1, c.mime, c.bytes, c.sha, expiresAt), now);
      } else {
        Replacing(s.rows, i, Row(s.rows[i].id, name, s.rows[i].version + 1, c.mime, c.bytes, c.sha, expiresAt), now);
      }
    }
  }

  /** Touching keeps the ceilings exactly when the file had not lapsed, or there is room
      for it to come back. */
  lemma TouchKeepsIff(s: Store, plan: Plan, id: string, ttl: int, now: int)
    requires Within(plan, s.rows, now) && ttl > 0
    ensures var i := FindId(s.rows, id);
      Within(plan, Touch(s, id, ttl, now).0.rows, now) <==>
        i < |s.rows| && !Live(s.rows[i], now) ==>
          && CountLive(s.rows, now) < plan.blobsMax
          && SumLive(s.rows, now) + s.rows[i].bytes <= plan.bytesMax
          && s.rows[i].bytes <= plan.blobMaxBytes
  {
    var i := FindId(s.rows, id);
    if i < |s.rows| {
      var row := s.rows[i].(expiresAt := Some(now + ttl));
      var after := s.rows[i := row];
      Replacing(s.rows, i, row, now);
      assert after[i] == row && Live(row, now);
      assert forall j | 0 <= j < |after| && j != i :: after[j] == s.rows[j];
    }
  }

  lemma DeleteKeeps(s: Store, plan: Plan, id: string, now: int)
    requires Within(plan, s.rows, now)
    ensures Within(plan, Delete(s, id).0.rows, now)
  {
    var i := FindId(s.rows, id);
    if i < |s.rows| {
      Removing(s.rows, i, now);
    }
  }

  /** A touch either finds its file live, or there is room for the file to come back. */
  predicate RoomToTouch(w: World, plan: Plan, op: Op) {
    op.TouchOp? ==>
      var rows, i := w.store.rows, FindId(w.store.rows, op.id);
      i < |rows| && !Live(rows[i], w.now) ==>
        && CountLive(rows, w.now) < plan.blobsMax
        && SumLive(rows, w.now) + rows[i].bytes <= plan.bytesMax
        && rows[i].bytes <= plan.blobMaxBytes
  }

  /** Every lifetime asked for is positive, as the handlers check. */
  predicate Timed(op: Op) {
    match op
    case PutOp(policy, _, ttl, _, _, _) =>
      (ttl.Some? ==> ttl.value > 0) && (policy.defaultTtl.Some? ==> policy.defaultTtl.value > 0)
    case TouchOp(_, lease) => lease > 0
    case _ => true
  }

  predicate AllTimed(ops: seq<Op>) {
    forall i | 0 <= i < |ops| :: Timed(ops[i])
  }

  lemma StepKeepsIff(w: World, plan: Plan, op: Op)
    requires Good(w, plan) && Timed(op)
    ensures Good(Do(w, plan, op), plan) <==> RoomToTouch(w, plan, op)
  {
    match op
    case PutOp(policy, name, ttl, c, newId, diskOk) =>
      PutKeeps(w.store, plan, policy, name, ttl, c, newId, diskOk, w.now);
    case TouchOp(id, ttl) => TouchKeepsIff(w.store, plan, id, ttl, w.now);
    case DeleteOp(id) => DeleteKeeps(w.store, plan, id, w.now);
    case PurgeOp(cutoff) => Purging(w.store.rows, cutoff, w.now);
    case WaitOp(seconds) => Lapsing(w.store.rows, w.now, w.now + seconds);
  }

  predicate GoodThroughout(w: World, plan: Plan, ops: seq<Op>)
    decreases ops
  {
    Good(w, plan) && (ops != [] ==> GoodThroughout(Do(w, plan, ops[0]), plan, ops[1..]))
  }

  predicate RoomThroughout(w: World, plan: Plan, ops: seq<Op>)
    decreases ops
  {
    ops != [] ==> RoomToTouch(w, plan, ops[0]) && RoomThroughout(Do(w, plan, ops[0]), plan, ops[1..])
  }

  /** A run stays within the ceilings throughout if and only if every touch in it finds its
      file live, or room for the file to come back. */
  lemma {:induction false} CeilingsHoldIff(w: World, plan: Plan, ops: seq<Op>)
    requires Good(w, plan) && AllTimed(ops)
    ensures GoodThroughout(w, plan, ops) <==> RoomThroughout(w, plan, ops)
    ensures RoomThroughout(w, plan, ops) ==> Good(Run(w, plan, ops), plan)
    decreases ops
  {
    if ops != [] {
      StepKeepsIff(w, plan, ops[0]);
      if RoomToTouch(w, plan, ops[0]) {
        CeilingsHoldIff(Do(w, plan, ops[0]), plan, ops[1..]);
      }
    }
  }

  // ---- names and ids stay unique -------------------------------------------------------------------

  predicate Unique(rows: seq<Row>) {
    forall i, j | 0 <= i < j < |rows| :: rows[i].name != rows[j].name && rows[i].id != rows[j].id
  }

  predicate NewIdsFresh(w: World, plan: Plan, ops: seq<Op>)
    decreases ops
  {
    ops != [] ==>
      && (ops[0].PutOp? ==> forall i | 0 <= i < |w.store.rows| :: w.store.rows[i].id != ops[0].newId)
      && NewIdsFresh(Do(w, plan, ops[0]), plan, ops[1..])
  }

  lemma {:induction false} UnpurgedUnique(rows: seq<Row>, cutoff: int)
    requires Unique(rows)
    ensures Unique(Unpurged(rows, cutoff))
  {
    if rows != [] {
      UnpurgedUnique(rows[1..], cutoff);
      Purging(rows[1..], cutoff, cutoff);
      var rest, after := Unpurged(rows[1..], cutoff), Unpurged(rows, cutoff);
      if Live(rows[0], cutoff) {
        assert after == [rows[0]] + rest;
        forall j | 0 < j < |after| ensures rows[0].name != after[j].name && rows[0].id != after[j].id {
          assert after[j] == rest[j - 1] && rest[j - 1] in rows[1..];
        }
      } else {
        assert after == rest;
      }
    }
  }

  lemma ReplacedUnique(rows: seq<Row>, i: nat, row: Row)
    requires Unique(rows) && i < |rows| && row.name == rows[i].name && row.id == rows[i].id
    ensures Unique(rows[i := row])
  {
  }

  lemma UpsertUnique(s: Store, newId: string, name: string, c: Content, expiresAt: Option<int>, keep: Option<int>,
                     now: int)
    requires Unique(s.rows) && forall i | 0 <= i < |s.rows| :: s.rows[i].id != newId
    ensures Unique(Upsert(s, newId, name, c, expiresAt, keep, now).rows)
  {
    var i := FindName(s.rows, name);
    if i < |s.rows| {
      ReplacedUnique(s.rows, i, Row(s.rows[i].id, name, s.rows[i].version + 1, c.mime, c.bytes, c.sha, expiresAt));
    }
  }

  lemma StepUnique(w: World, plan: Plan, op: Op)
    requires Unique(w.store.rows)
    requires op.PutOp? ==> forall i | 0 <= i < |w.store.rows| :: w.store.rows[i].id != op.newId
    ensures Unique(Do(w, plan, op).store.rows)
  {
    match op
    case PutOp(policy, name, ttl, c, newId, diskOk) =>
      UpsertUnique(w.store, newId, name, c, Expiry(policy, ttl, w.now), policy.keepVersions, w.now);
      var i := FindName(w.store.rows, name);
      if i < |w.store.rows| {
        ReplacedUnique(w.store.rows, i, w.store.rows[i].(expiresAt := Expiry(policy, ttl, w.now)));
      }
    case TouchOp(id, lease) =>
      var i := FindId(w.store.rows, id);
      if i < |w.store.rows| {
        ReplacedUnique(w.store.rows, i, w.store.rows[i].(expiresAt := Some(w.now + lease)));
      }
    case DeleteOp(id) =>
    case PurgeOp(cutoff) => UnpurgedUnique(w.store.rows, cutoff);
    case WaitOp(seconds) =>
  }

  /** A name holds one file, and an id stands for one file, in every run. */
  lemma {:induction false} NamesStayUnique(w: World, plan: Plan, ops: seq<Op>)
    requires Unique(w.store.rows) && NewIdsFresh(w, plan, ops)
    ensures Unique(Run(w, plan, ops).store.rows)
    decreases ops
  {
    if ops != [] {
      StepUnique(w, plan, ops[0]);
      NamesStayUnique(Do(w, plan, ops[0]), plan, ops[1..]);
    }
  }

  // ---- what an operation leaves --------------------------------------------------------------------

  /** What is stored is there under its name, and no other file has changed. */
  lemma PutStores(s: Store, plan: Plan, policy: Policy, name: string, ttl: Option<int>, c: Content, newId: string,
                  diskOk: bool, now: int)
    ensures var (t, reply) := Put(s, plan, policy, name, ttl, c, newId, diskOk, now);
      var i := FindName(t.rows, name);
      && (!reply.Stored? ==> t == s)
      && (reply.Stored? ==>
            && i < |t.rows| && t.rows[i] == reply.row && reply.row.name == name
            && reply.row.sha == c.sha && reply.row.mime == c.mime
            && (Expiry(policy, ttl, now).Some? ==> reply.row.expiresAt == Expiry(policy, ttl, now))
            && |s.rows| <= |t.rows| && forall j | 0 <= j < |s.rows| && j != i :: t.rows[j] == s.rows[j])
  {
    var i := FindName(s.rows, name);
    var t := Put(s, plan, policy, name, ttl, c, newId, diskOk, now).0;
    if i == |s.rows| {
      if |t.rows| > |s.rows| {
        assert forall j | 0 <= j < |s.rows| :: t.rows[j].name != name;
        assert t.rows[i].name == name;
        FoundAt(t.rows, name, i);
      }
    } else {
      assert forall j | 0 <= j < i :: t.rows[j].name != name;
      FoundAt(t.rows, name, i);
    }
  }

  lemma FoundAt(rows: seq<Row>, name: string, i: nat)
    requires i < |rows| && rows[i].name == name && forall j | 0 <= j < i :: rows[j].name != name
    ensures FindName(rows, name) == i
  {
  }

  predicate IsKept(versions: seq<Kept>, id: string, version: int) {
    exists i :: 0 <= i < |versions| && versions[i].id == id && versions[i].version == version && !versions[i].expired
  }

  lemma {:induction false} WithoutOnlyThat(versions: seq<Kept>, id: string, version: int)
    ensures var r := Without(versions, id, version);
      && (forall k: Kept :: k in r <==> k in versions && !(k.id == id && k.version == version))
  {
    if versions != [] {
      WithoutOnlyThat(versions[1..], id, version);
    }
  }

  /** Replacing a file under a policy that keeps `keep` versions keeps the replaced one, and
      of that file none older than the newest `keep`; other files' versions stay as they were. */
  lemma KeepsNewest(versions: seq<Kept>, was: Row, keep: int, now: int)
    requires keep >= 2
    ensures var after := Archived(versions, was, keep, now);
      && IsKept(after, was.id, was.version)
      && (forall k: Kept | k in after && k.id == was.id && !k.expired :: was.version + 1 - keep < k.version)
      && (forall k: Kept | k.id != was.id :: k in after <==> k in versions)
      && (forall k: Kept | k.id == was.id && k.version != was.version && k.version > was.version + 1 - keep ::
            k in after <==> k in versions)
  {
    var rest := Without(versions, was.id, was.version);
    var last := Kept(was.id, was.version, was.bytes, was.expiresAt, false);
    var all := rest + [last];
    var after := Archived(versions, was, keep, now);
    WithoutOnlyThat(versions, was.id, was.version);
    assert |after| == |all| && all[|rest|] == last && after[|rest|] == last;
    forall k: Kept | k.id != was.id ensures k in after <==> k in versions {
      AgedElsewhere(all, was.id, was.version + 1 - keep, now, k);
    }
    forall k: Kept | k.id == was.id && k.version != was.version && k.version > was.version + 1 - keep
      ensures k in after <==> k in versions
    {
      AgedElsewhere(all, was.id, was.version + 1 - keep, now, k);
    }
  }

  lemma AgedElsewhere(versions: seq<Kept>, id: string, through: int, now: int, k: Kept)
    requires k.id != id || k.version > through
    ensures k in Aged(versions, id, through, now) <==> k in versions
  {
    var after := Aged(versions, id, through, now);
    if k in versions {
      var i :| 0 <= i < |versions| && versions[i] == k;
      assert after[i] == k;
    }
    if k in after {
      var i :| 0 <= i < |after| && after[i] == k;
      assert versions[i] == k;
    }
  }

  /** Everything but one version of one file. */
  function NotThat(id: string, version: int): Kept -> bool {
    (k: Kept) => k.id != id || k.version != version
  }

  lemma {:induction false} WithoutPicked(versions: seq<Kept>, id: string, version: int)
    ensures Picked(versions, NotThat(id, version), Without(versions, id, version))
  {
    if versions == [] {
      PickedNone(NotThat(id, version));
    } else {
      WithoutPicked(versions[1..], id, version);
      PickedFirst(versions, NotThat(id, version), Without(versions[1..], id, version));
    }
  }

  /** What becomes of one kept version: of that file, not yet marked and too old, it is marked, and
      its time is now. */
  predicate Marked(k: Kept, after: Kept, id: string, through: int, now: int) {
    after == if k.id == id && k.version <= through && !k.expired then Kept(k.id, k.version, k.bytes, Some(now), true)
      else k
  }

  /** The versions once `was` is set aside: those there were but one in its own place, in order, and
      it, each marked if it is too old. */
  lemma ArchivedIs(versions: seq<Kept>, was: Row, keep: int, now: int)
    ensures
      var after := Archived(versions, was, keep, now);
      exists rest ::
        && Picked(versions, NotThat(was.id, was.version), rest) && |after| == |rest| + 1
        && var all := rest + [Kept(was.id, was.version, was.bytes, was.expiresAt, false)];
        && forall i | 0 <= i < |all| :: Marked(all[i], after[i], was.id, was.version + 1 - keep, now)
  {
    WithoutPicked(versions, was.id, was.version);
    var rest, after := Without(versions, was.id, was.version), Archived(versions, was, keep, now);
    var all := rest + [Kept(was.id, was.version, was.bytes, was.expiresAt, false)];
    assert |after| == |all|;
    assert forall i | 0 <= i < |all| :: Marked(all[i], after[i], was.id, was.version + 1 - keep, now);
  }

  /** Purging what had lapsed by `cutoff` takes no file that is live then or later. */
  lemma {:induction false} PurgeSparesLive(rows: seq<Row>, cutoff: int, now: int)
    requires cutoff <= now
    ensures var after := Unpurged(rows, cutoff);
      && CountLive(after, now) == CountLive(rows, now) && SumLive(after, now) == SumLive(rows, now)
      && forall row :: row in after <==> row in rows && Live(row, cutoff)
  {
    if rows != [] {
      var rest := Unpurged(rows[1..], cutoff);
      PurgeSparesLive(rows[1..], cutoff, now);
      if Live(rows[0], cutoff) {
        assert [rows[0]] + rest == Unpurged(rows, cutoff) && ([rows[0]] + rest)[1..] == rest;
      } else {
        assert [] + rest == rest;
      }
    }
  }

  // ---- what one operation does ----------------------------------------------------------------------

  /** Somebody else's rows and versions, by id. */
  function OtherRow(id: string): Row -> bool {
    (row: Row) => row.id != id
  }

  function OtherVersion(id: string): Kept -> bool {
    (k: Kept) => k.id != id
  }

  predicate Known(rows: seq<Row>, id: string) {
    exists i :: 0 <= i < |rows| && rows[i].id == id
  }

  lemma RemovedPicked(rows: seq<Row>, i: nat, keeps: Row -> bool)
    requires i < |rows| && !keeps(rows[i]) && forall j | 0 <= j < |rows| && j != i :: keeps(rows[j])
    ensures Picked(rows, keeps, rows[..i] + rows[i + 1..])
  {
    var at := seq(|rows| - 1, k requires 0 <= k < |rows| - 1 => if k < i then k else k + 1);
    forall j | 0 <= j < |rows| && keeps(rows[j]) ensures j in at {
      assert at[if j < i then j else j - 1] == j;
    }
    assert PickedAt(rows, keeps, rows[..i] + rows[i + 1..], at);
  }

  lemma {:induction false} VersionsPicked(versions: seq<Kept>, id: string)
    ensures Picked(versions, OtherVersion(id), VersionsOfOthers(versions, id))
  {
    if versions == [] {
      PickedNone(OtherVersion(id));
    } else {
      VersionsPicked(versions[1..], id);
      PickedFirst(versions, OtherVersion(id), VersionsOfOthers(versions[1..], id));
    }
  }

  /** A file is deleted if and only if there is one of that id: its row and all its versions are
      gone, and every other row and version is there as it was, in order. */
  lemma DeleteIff(s: Store, id: string)
    requires Unique(s.rows)
    ensures
      var (t, reply) := Delete(s, id);
      if Known(s.rows, id) then
        reply == Deleted(id)
        && Picked(s.rows, OtherRow(id), t.rows) && Picked(s.versions, OtherVersion(id), t.versions)
      else reply == NotFound && t == s
  {
    var i := FindId(s.rows, id);
    if i < |s.rows| {
      RemovedPicked(s.rows, i, OtherRow(id));
      VersionsPicked(s.versions, id);
    }
  }

  /** A touch finds its file if and only if there is one of that id, and moves its expiry only. */
  lemma TouchIff(s: Store, id: string, ttl: int, now: int)
    requires Unique(s.rows)
    ensures
      var (t, reply) := Touch(s, id, ttl, now);
      && t.versions == s.versions && |t.rows| == |s.rows|
      && reply == (if Known(s.rows, id) then Touched(id, now + ttl) else NotFound)
      && forall i | 0 <= i < |s.rows| ::
           t.rows[i] == if s.rows[i].id == id then s.rows[i].(expiresAt := Some(now + ttl)) else s.rows[i]
  {
  }

  predicate LapsedBy(expiresAt: Option<int>, cutoff: int) {
    expiresAt.Some? && expiresAt.value <= cutoff
  }

  function StaysRow(cutoff: int): Row -> bool {
    (row: Row) => !LapsedBy(row.expiresAt, cutoff)
  }

  /** A version stays unless its own time has come or that of the file it is a version of. */
  function StaysVersion(rows: seq<Row>, cutoff: int): Kept -> bool {
    (k: Kept) =>
      && !LapsedBy(k.expiresAt, cutoff)
      && forall i | 0 <= i < |rows| && rows[i].id == k.id :: !LapsedBy(rows[i].expiresAt, cutoff)
  }

  lemma {:induction false} RowsSwept(rows: seq<Row>, cutoff: int)
    ensures Picked(rows, StaysRow(cutoff), Unpurged(rows, cutoff))
  {
    if rows == [] {
      PickedNone(StaysRow(cutoff));
    } else {
      RowsSwept(rows[1..], cutoff);
      PickedFirst(rows, StaysRow(cutoff), Unpurged(rows[1..], cutoff));
    }
  }

  lemma {:induction false} VersionsSwept(versions: seq<Kept>, rows: seq<Row>, cutoff: int)
    ensures Picked(versions, StaysVersion(rows, cutoff), UnpurgedVersions(versions, rows, cutoff))
  {
    if versions == [] {
      PickedNone(StaysVersion(rows, cutoff));
    } else {
      VersionsSwept(versions[1..], rows, cutoff);
      PickedFirst(versions, StaysVersion(rows, cutoff), UnpurgedVersions(versions[1..], rows, cutoff));
    }
  }

  /** Purging leaves, in order, exactly the files whose time has not come and the versions whose
      own has not, of no file whose has. */
  lemma PurgeIs(s: Store, cutoff: int)
    ensures Picked(s.rows, StaysRow(cutoff), Purge(s, cutoff).rows)
    ensures Picked(s.versions, StaysVersion(s.rows, cutoff), Purge(s, cutoff).versions)
  {
    RowsSwept(s.rows, cutoff);
    VersionsSwept(s.versions, s.rows, cutoff);
  }

  /** What a file's expiry is to be: the one asked for, or the policy's, or none. */
  predicate ExpiresAs(policy: Policy, ttl: Option<int>, now: int, expiresAt: Option<int>) {
    match (ttl, policy.defaultTtl)
    case (Some(seconds), _) => expiresAt == Some(now + seconds)
    case (None, Some(seconds)) => expiresAt == Some(now + seconds)
    case (None, None) => expiresAt == None
  }

  /** The live bytes of the row at `i`, if there is one. */
  function HeldAt(rows: seq<Row>, i: nat, now: int): nat {
    if i < |rows| && Live(rows[i], now) then rows[i].bytes else 0
  }

  /** What each refusal of `c` for the row at `i`, or for a new one, says is in the way. */
  predicate PutFault(s: Store, plan: Plan, i: nat, c: Content, diskOk: bool, now: int, why: Reply) {
    match why
    case TooLarge(limit, used) => c.bytes > plan.blobMaxBytes && limit == plan.blobMaxBytes && used == c.bytes
    case TooManyBlobs(limit, used) =>
      && !(i < |s.rows| && Live(s.rows[i], now)) && used == CountLive(s.rows, now)
      && limit == plan.blobsMax && limit <= used
    case TooManyBytes(limit, used) =>
      && limit == plan.bytesMax && used == SumLive(s.rows, now) + SumKept(s.versions, now)
      && limit < used - HeldAt(s.rows, i, now) + c.bytes
    case DiskFloor => !diskOk
    case _ => false
  }

  function PutRank(why: Reply): nat {
    match why
    case TooLarge(_, _) => 0
    case TooManyBlobs(_, _) => 1
    case TooManyBytes(_, _) => 2
    case DiskFloor => 3
    case _ => 4
  }

  /** The first thing in the way, in the order file, count, bytes, disk. */
  predicate PutRefusedFor(s: Store, plan: Plan, i: nat, c: Content, diskOk: bool, now: int, why: Reply) {
    && PutFault(s, plan, i, c, diskOk, now, why)
    && (c.bytes > plan.blobMaxBytes ==> why.TooLarge?)
    && (PutRank(why) > 1 ==> (i < |s.rows| && Live(s.rows[i], now)) || CountLive(s.rows, now) < plan.blobsMax)
    && (PutRank(why) > 2 ==>
          SumLive(s.rows, now) + SumKept(s.versions, now) - HeldAt(s.rows, i, now) + c.bytes <= plan.bytesMax)
  }

  /** New bytes under a name nobody has: a new row at the end, or the first thing in the way. */
  lemma PutNewIff(s: Store, plan: Plan, policy: Policy, name: string, ttl: Option<int>, c: Content, newId: string,
                  diskOk: bool, now: int)
    requires forall i | 0 <= i < |s.rows| :: s.rows[i].name != name
    ensures
      var (t, reply) := Put(s, plan, policy, name, ttl, c, newId, diskOk, now);
      && t.versions == s.versions
      && (reply.Stored? ==>
            && reply.row == Row(newId, name, 1, c.mime, c.bytes, c.sha, reply.row.expiresAt)
            && ExpiresAs(policy, ttl, now, reply.row.expiresAt) && t.rows == s.rows + [reply.row])
      && (!reply.Stored? ==> t == s && PutRefusedFor(s, plan, |s.rows|, c, diskOk, now, reply))
      && (reply.Stored? <==> forall why :: !PutFault(s, plan, |s.rows|, c, diskOk, now, why))
  {
    PutAtIff(s, plan, policy, name, ttl, c, newId, diskOk, now);
  }

  /** New bytes under a name there is, at `i`: the very same bytes while they live only move the
      expiry when one is asked for; others take the row over, under its id and the next version,
      or meet the first thing in the way. */
  lemma PutOverIff(s: Store, plan: Plan, policy: Policy, name: string, ttl: Option<int>, c: Content, newId: string,
                   diskOk: bool, now: int, i: nat)
    requires Unique(s.rows) && i < |s.rows| && s.rows[i].name == name
    ensures
      var (t, reply) := Put(s, plan, policy, name, ttl, c, newId, diskOk, now);
      var was := s.rows[i];
      if !LapsedBy(was.expiresAt, now) && was.sha == c.sha && was.mime == c.mime then
        && reply.Stored? && t == s.(rows := s.rows[i := reply.row])
        && reply.row == was.(expiresAt := reply.row.expiresAt)
        && ((ttl.None? && policy.defaultTtl.None? && reply.row == was) ||
            ((ttl.Some? || policy.defaultTtl.Some?) && ExpiresAs(policy, ttl, now, reply.row.expiresAt)))
      else
        && (reply.Stored? ==>
              && reply.row == Row(was.id, name, was.version + 1, c.mime, c.bytes, c.sha, reply.row.expiresAt)
              && ExpiresAs(policy, ttl, now, reply.row.expiresAt) && t.rows == s.rows[i := reply.row]
              && (policy.keepVersions.None? || policy.keepVersions.value < 2 ==> t.versions == s.versions)
              && (policy.keepVersions.Some? && policy.keepVersions.value >= 2 ==>
                    t.versions == Archived(s.versions, was, policy.keepVersions.value, now)))
        && (!reply.Stored? ==> t == s && PutRefusedFor(s, plan, i, c, diskOk, now, reply))
        && (reply.Stored? <==> forall why :: !PutFault(s, plan, i, c, diskOk, now, why))
  {
    PutAtIff(s, plan, policy, name, ttl, c, newId, diskOk, now);
  }

  lemma PutAtIff(s: Store, plan: Plan, policy: Policy, name: string, ttl: Option<int>, c: Content, newId: string,
                 diskOk: bool, now: int)
    ensures
      var i, reply := FindName(s.rows, name), Put(s, plan, policy, name, ttl, c, newId, diskOk, now).1;
      !Repeats(s, i, c, now) ==>
        && (!reply.Stored? ==> PutRefusedFor(s, plan, i, c, diskOk, now, reply))
        && (reply.Stored? <==> forall why :: !PutFault(s, plan, i, c, diskOk, now, why))
  {
    var i := FindName(s.rows, name);
    var used := SumLive(s.rows, now) + SumKept(s.versions, now);
    if Refusal(s, plan, i, c, now).Some? {
      assert PutFault(s, plan, i, c, diskOk, now, Refusal(s, plan, i, c, now).value);
    } else if !diskOk {
      assert PutFault(s, plan, i, c, diskOk, now, DiskFloor);
    }
  }

  // ---- where the ceilings give way ---------------------------------------------------------------------

  const FREE := Policy(None, None)

  /** Touching a lapsed file can put a tenant over its ceiling: store one file, let it
      lapse, store another, revive the first. */
  lemma RevivalOverruns()
    ensures
      var plan := Plan(1, 100, 100);
      var ops := [PutOp(FREE, "a", Some(1), Content("m", 60, "s"), "A", true), WaitOp(1),
                  PutOp(FREE, "b", None, Content("m", 60, "t"), "B", true), TouchOp("A", 5)];
      Good(World(Store([], []), 0), plan) && !Good(Run(World(Store([], []), 0), plan, ops), plan)
  {
    var plan := Plan(1, 100, 100);
    var a, b := Row("A", "a", 1, "m", 60, "s", Some(1)), Row("B", "b", 1, "m", 60, "t", None);
    var w0 := World(Store([], []), 0);
    var putA := PutOp(FREE, "a", Some(1), Content("m", 60, "s"), "A", true);
    var putB := PutOp(FREE, "b", None, Content("m", 60, "t"), "B", true);
    var w1 := World(Store([a], []), 0);
    assert Do(w0, plan, putA) == w1;
    var w2 := World(Store([a], []), 1);
    assert Do(w1, plan, WaitOp(1)) == w2;
    assert "a" != "b" && FindName([a], "b") == 1;
    assert CountLive([a], 1) == 0 && SumLive([a], 1) == 0;
    var w3 := World(Store([a] + [b], []), 1);
    assert Do(w2, plan, putB) == w3;
    var revived := a.(expiresAt := Some(6));
    assert FindId([a] + [b], "A") == 0;
    var w4 := World(Store([revived] + [b], []), 1);
    assert Do(w3, plan, TouchOp("A", 5)) == w4 by {
      assert (w3.store.rows)[0 := revived] == w4.store.rows;
    }
    var ops := [putA, WaitOp(1), putB, TouchOp("A", 5)];
    assert ops[1..] == [WaitOp(1), putB, TouchOp("A", 5)];
    assert Run(w3, plan, [TouchOp("A", 5)]) == w4 by {
      assert [TouchOp("A", 5)][1..] == [];
    }
    assert Run(w2, plan, [putB, TouchOp("A", 5)]) == w4 by {
      assert [putB, TouchOp("A", 5)][1..] == [TouchOp("A", 5)];
    }
    assert Run(w1, plan, [WaitOp(1), putB, TouchOp("A", 5)]) == w4 by {
      assert [WaitOp(1), putB, TouchOp("A", 5)][1..] == [putB, TouchOp("A", 5)];
    }
    assert Run(w0, plan, ops) == w4;
    Appending([revived], b, 1);
    assert CountLive([revived], 1) == 1 + CountLive([], 1);
  }

  // ---- files and kept versions together ---------------------------------------------------------------

  /** All the bytes a put is checked against: the live files and the kept versions. */
  function Total(s: Store, now: int): nat {
    SumLive(s.rows, now) + SumKept(s.versions, now)
  }

  /** A kept version that goes when `was` is set aside: one `keep` or more behind the new
      version, or one in the place `was` takes. */
  predicate Goes(k: Kept, was: Row, keep: int) {
    k.id == was.id && (k.version == was.version || k.version <= was.version + 1 - keep)
  }

  /** The bytes of kept versions that setting `was` aside frees. */
  function Freed(versions: seq<Kept>, was: Row, keep: int, now: int): nat {
    if versions == [] then 0
    else (if Goes(versions[0], was, keep) then KeptSize(versions[0], now) else 0) + Freed(versions[1..], was, keep, now)
  }

  lemma {:induction false} SumKeptJoined(a: seq<Kept>, b: seq<Kept>, now: int)
    ensures SumKept(a + b, now) == SumKept(a, now) + SumKept(b, now)
  {
    if a == [] {
      assert a + b == b;
    } else {
      assert (a + b)[0] == a[0] && (a + b)[1..] == a[1..] + b;
      SumKeptJoined(a[1..], b, now);
    }
  }

  lemma AgedJoined(a: seq<Kept>, b: seq<Kept>, id: string, through: int, now: int)
    ensures Aged(a + b, id, through, now) == Aged(a, id, through, now) + Aged(b, id, through, now)
  {
  }

  lemma AgedOne(k: Kept, id: string, through: int, now: int)
    ensures SumKept(Aged([k], id, through, now), now)
      == if k.id == id && k.version <= through then 0 else KeptSize(k, now)
  {
    var r := Aged([k], id, through, now);
    assert r[1..] == [] && SumKept(r, now) == KeptSize(r[0], now);
  }

  /** What is left of the versions there were. */
  lemma {:induction false} AgedSum(versions: seq<Kept>, was: Row, keep: int, now: int)
    ensures SumKept(Aged(Without(versions, was.id, was.version), was.id, was.version + 1 - keep, now), now)
      == SumKept(versions, now) - Freed(versions, was, keep, now)
  {
    if versions != [] {
      var k, rest, through := versions[0], Without(versions[1..], was.id, was.version), was.version + 1 - keep;
      AgedSum(versions[1..], was, keep, now);
      assert versions == [k] + versions[1..];
      if k.id == was.id && k.version == was.version {
        assert [] + rest == rest;
      } else {
        AgedJoined([k], rest, was.id, through, now);
        SumKeptJoined(Aged([k], was.id, through, now), Aged(rest, was.id, through, now), now);
        AgedOne(k, was.id, through, now);
      }
    }
  }

  /** Setting a version aside adds its bytes while it is live, and frees those that go. */
  lemma ArchivedSum(versions: seq<Kept>, was: Row, keep: int, now: int)
    requires keep >= 2
    ensures SumKept(Archived(versions, was, keep, now), now)
      == SumKept(versions, now) - Freed(versions, was, keep, now) + Size(was, now)
  {
    var through := was.version + 1 - keep;
    var rest, last := Without(versions, was.id, was.version),
        Kept(was.id, was.version, was.bytes, was.expiresAt, false);
    AgedSum(versions, was, keep, now);
    AgedJoined(rest, [last], was.id, through, now);
    SumKeptJoined(Aged(rest, was.id, through, now), Aged([last], was.id, through, now), now);
    AgedOne(last, was.id, through, now);
  }

  /** The put lands: it is no repetition, no ceiling refuses it and the disk has room. */
  predicate Lands(s: Store, plan: Plan, name: string, c: Content, diskOk: bool, now: int) {
    var i := FindName(s.rows, name);
    !Repeats(s, i, c, now) && Refusal(s, plan, i, c, now).None? && diskOk
  }

  /** A landed put under a policy that keeps versions, of a name there already is, leaves the
      total within the ceiling only if the new bytes fit beside everything but what it frees. */
  predicate RoomToKeep(s: Store, plan: Plan, policy: Policy, name: string, c: Content, now: int) {
    var i, keep := FindName(s.rows, name), policy.keepVersions;
    i < |s.rows| && keep.Some? && keep.value >= 2 ==>
      Total(s, now) + c.bytes <= plan.bytesMax + Freed(s.versions, s.rows[i], keep.value, now)
  }

  /** How a landed put changes the total. */
  lemma PutTotal(s: Store, plan: Plan, policy: Policy, name: string, ttl: Option<int>, c: Content, newId: string,
                 now: int)
    requires Lands(s, plan, name, c, true, now) && Timed(PutOp(policy, name, ttl, c, newId, true))
    ensures
      var i, keep := FindName(s.rows, name), policy.keepVersions;
      Total(Put(s, plan, policy, name, ttl, c, newId, true, now).0, now) ==
        if i == |s.rows| then Total(s, now) + c.bytes
        else if keep.Some? && keep.value >= 2
        then Total(s, now) + c.bytes - Freed(s.versions, s.rows[i], keep.value, now)
        else Total(s, now) - Size(s.rows[i], now) + c.bytes
  {
    var i, expiresAt := FindName(s.rows, name), Expiry(policy, ttl, now);
    if i == |s.rows| {
      Appending(s.rows, Row(newId, name, 1, c.mime, c.bytes, c.sha, expiresAt), now);
    } else {
      var was := s.rows[i];
      Replacing(s.rows, i, Row(was.id, name, was.version + 1, c.mime, c.bytes, c.sha, expiresAt), now);
      if policy.keepVersions.Some? && policy.keepVersions.value >= 2 {
        ArchivedSum(s.versions, was, policy.keepVersions.value, now);
      }
    }
  }

  /** Under every policy: a landed put leaves files and kept versions together within the byte
      ceiling if and only if it replaces nothing, keeps nothing, or has room for both. */
  lemma PutWithinTotalIff(s: Store, plan: Plan, policy: Policy, name: string, ttl: Option<int>, c: Content,
                          newId: string, now: int)
    requires Lands(s, plan, name, c, true, now) && Timed(PutOp(policy, name, ttl, c, newId, true))
    ensures Total(Put(s, plan, policy, name, ttl, c, newId, true, now).0, now) <= plan.bytesMax
      <==> RoomToKeep(s, plan, policy, name, c, now)
  {
    PutTotal(s, plan, policy, name, ttl, c, newId, now);
  }

  // ---- the total over runs ---------------------------------------------------------------------------------

  lemma {:induction false} KeptLapsing(versions: seq<Kept>, now: int, later: int)
    requires now <= later
    ensures SumKept(versions, later) <= SumKept(versions, now)
  {
    if versions != [] {
      KeptLapsing(versions[1..], now, later);
    }
  }

  lemma {:induction false} OthersSum(versions: seq<Kept>, id: string, now: int)
    ensures SumKept(VersionsOfOthers(versions, id), now) <= SumKept(versions, now)
  {
    if versions != [] {
      OthersSum(versions[1..], id, now);
      SumKeptJoined(if versions[0].id == id then [] else [versions[0]], VersionsOfOthers(versions[1..], id), now);
      assert SumKept([versions[0]], now) == KeptSize(versions[0], now) + SumKept([versions[0]][1..], now);
    }
  }

  lemma {:induction false} UnpurgedSum(versions: seq<Kept>, rows: seq<Row>, cutoff: int, now: int)
    ensures SumKept(UnpurgedVersions(versions, rows, cutoff), now) <= SumKept(versions, now)
  {
    if versions != [] {
      var goes := RowLapsed(rows, versions[0].id, cutoff) || !Unlapsed(versions[0].expiresAt, cutoff);
      UnpurgedSum(versions[1..], rows, cutoff, now);
      SumKeptJoined(if goes then [] else [versions[0]], UnpurgedVersions(versions[1..], rows, cutoff), now);
      assert SumKept([versions[0]], now) == KeptSize(versions[0], now) + SumKept([versions[0]][1..], now);
    }
  }

  /** The operation has room for the bytes it brings in or brings back. */
  predicate RoomInTotal(w: World, plan: Plan, op: Op) {
    match op
    case PutOp(policy, name, ttl, c, newId, diskOk) =>
      Lands(w.store, plan, name, c, diskOk, w.now) ==> RoomToKeep(w.store, plan, policy, name, c, w.now)
    case TouchOp(id, lease) =>
      var rows, i := w.store.rows, FindId(w.store.rows, id);
      i < |rows| && !Live(rows[i], w.now) ==> Total(w.store, w.now) + rows[i].bytes <= plan.bytesMax
    case _ => true
  }

  lemma StepTotalIff(w: World, plan: Plan, op: Op)
    requires Total(w.store, w.now) <= plan.bytesMax && Timed(op)
    ensures var v := Do(w, plan, op); Total(v.store, v.now) <= plan.bytesMax <==> RoomInTotal(w, plan, op)
  {
    match op
    case PutOp(policy, name, ttl, c, newId, diskOk) => PutStepTotal(w, plan, policy, name, ttl, c, newId, diskOk);
    case TouchOp(id, lease) =>
      var rows, i := w.store.rows, FindId(w.store.rows, id);
      if i < |rows| {
        Replacing(rows, i, rows[i].(expiresAt := Some(w.now + lease)), w.now);
      }
    case DeleteOp(id) =>
      var i := FindId(w.store.rows, id);
      if i < |w.store.rows| {
        Removing(w.store.rows, i, w.now);
        OthersSum(w.store.versions, id, w.now);
      }
    case PurgeOp(cutoff) =>
      Purging(w.store.rows, cutoff, w.now);
      UnpurgedSum(w.store.versions, w.store.rows, cutoff, w.now);
    case WaitOp(seconds) =>
      Lapsing(w.store.rows, w.now, w.now + seconds);
      KeptLapsing(w.store.versions, w.now, w.now + seconds);
  }

  lemma PutStepTotal(w: World, plan: Plan, policy: Policy, name: string, ttl: Option<int>, c: Content, newId: string,
                     diskOk: bool)
    requires Total(w.store, w.now) <= plan.bytesMax && Timed(PutOp(policy, name, ttl, c, newId, diskOk))
    ensures Total(Put(w.store, plan, policy, name, ttl, c, newId, diskOk, w.now).0, w.now) <= plan.bytesMax
      <==> RoomInTotal(w, plan, PutOp(policy, name, ttl, c, newId, diskOk))
  {
    var i := FindName(w.store.rows, name);
    if Lands(w.store, plan, name, c, diskOk, w.now) {
      PutWithinTotalIff(w.store, plan, policy, name, ttl, c, newId, w.now);
    } else if Repeats(w.store, i, c, w.now) {
      Replacing(w.store.rows, i, w.store.rows[i].(expiresAt := Expiry(policy, ttl, w.now)), w.now);
    }
  }

  predicate TotalThroughout(w: World, plan: Plan, ops: seq<Op>)
    decreases ops
  {
    Total(w.store, w.now) <= plan.bytesMax && (ops != [] ==> TotalThroughout(Do(w, plan, ops[0]), plan, ops[1..]))
  }

  predicate RoomInTotalThroughout(w: World, plan: Plan, ops: seq<Op>)
    decreases ops
  {
    ops != [] ==> RoomInTotal(w, plan, ops[0]) && RoomInTotalThroughout(Do(w, plan, ops[0]), plan, ops[1..])
  }

  /** A run keeps files and kept versions together within the byte ceiling throughout if and
      only if every put that keeps what it replaces and every revival in it has room. */
  lemma {:induction false} TotalHoldsIff(w: World, plan: Plan, ops: seq<Op>)
    requires Total(w.store, w.now) <= plan.bytesMax && AllTimed(ops)
    ensures TotalThroughout(w, plan, ops) <==> RoomInTotalThroughout(w, plan, ops)
    decreases ops
  {
    if ops != [] {
      StepTotalIff(w, plan, ops[0]);
      if RoomInTotal(w, plan, ops[0]) {
        TotalHoldsIff(Do(w, plan, ops[0]), plan, ops[1..]);
      }
    }
  }

  /** Replacing a live file under a policy that keeps it can put the total over the ceiling. */
  lemma KeptVersionOverruns()
    ensures
      var plan, policy := Plan(1, 100, 100), Policy(None, Some(2));
      var s := Store([Row("A", "a", 1, "m", 60, "s", None)], []);
      var (t, reply) := Put(s, plan, policy, "a", None, Content("m", 60, "t"), "B", true, 0);
      Total(s, 0) <= plan.bytesMax && reply.Stored? && Total(t, 0) > plan.bytesMax
  {
    var plan, policy := Plan(1, 100, 100), Policy(None, Some(2));
    var was := Row("A", "a", 1, "m", 60, "s", None);
    var s, c := Store([was], []), Content("m", 60, "t");
    assert FindName(s.rows, "a") == 0 && "s" != "t";
    assert SumLive([was], 0) == 60 + SumLive([], 0) && CountLive([was], 0) == 1 + CountLive([], 0);
    assert Lands(s, plan, "a", c, true, 0) && !RoomToKeep(s, plan, policy, "a", c, 0);
    PutWithinTotalIff(s, plan, policy, "a", None, c, "B", 0);
  }
}
