/** Alerts: raises collapsed into rows, quota trips counted over a sliding window, and the
    contention latch. */
module AlertWindows {
  import opened Wrappers
  import opened Json

  // ---- raising --------------------------------------------------------------------------

  datatype Row = Row(key: string, title: string, body: Json, raisedAt: int, repeats: nat)

  datatype Raising = Raising(key: string, title: string, body: Json, now: int)

  const CARRIED := "previous_repeat_count"

  /** The most recent row of a key; the number of rows when there is none. */
  function Recent(rows: seq<Row>, key: string): (i: nat)
    ensures i <= |rows|
    ensures i < |rows| ==> rows[i].key == key && forall j | i < j < |rows| :: rows[j].key != key
    ensures i == |rows| ==> forall j | 0 <= j < |rows| :: rows[j].key != key
  {
    if rows == [] then 0
    else
      var n := |rows| - 1;
      if rows[n].key == key then n
      else
        var i := Recent(rows[..n], key);
        if i == n then n + 1 else i
  }

  function WithCarried(body: Json, repeats: nat): Json {
    if body.Obj? then Obj(body.members[CARRIED := Num(repeats)]) else body
  }

  /** A raise within the cooldown of its key's last row repeats that row; any other makes a
      new one, its body telling how often the last was repeated. */
  function Raised(rows: seq<Row>, r: Raising, cooldown: int): seq<Row> {
    var i := Recent(rows, r.key);
    if i < |rows| && r.now - rows[i].raisedAt < cooldown then rows[i := rows[i].(repeats := rows[i].repeats + 1)]
    else rows + [Row(r.key, r.title, if i < |rows| then WithCarried(r.body, rows[i].repeats) else r.body, r.now, 0)]
  }

  class AlertLog {
    var rows: seq<Row>

    constructor ()
      ensures rows == []
    {
      rows := [];
    }

    method Raise(r: Raising, cooldown: int) returns (id: nat, delivered: bool)
      modifies this
      ensures rows == Raised(old(rows), r, cooldown)
      ensures id < |rows| && rows[id].key == r.key && id == Recent(rows, r.key)
      ensures delivered <==> |rows| == |old(rows)| + 1
    {
      var recent := Recent(rows, r.key);
      if recent < |rows| && r.now - rows[recent].raisedAt < cooldown {
        rows := rows[recent := rows[recent].(repeats := rows[recent].repeats + 1)];
        return recent, false;
      }
      var body := r.body;
      if recent < |rows| && body.Obj? {
        body := Obj(body.members[CARRIED := Num(rows[recent].repeats)]);
      }
      id, delivered := |rows|, true;
      rows := rows + [Row(r.key, r.title, body, r.now, 0)];
    }
  }

  function Run(rows: seq<Row>, rs: seq<Raising>, cooldown: int): seq<Row>
    decreases rs
  {
    if rs == [] then rows else Run(Raised(rows, rs[0], cooldown), rs[1..], cooldown)
  }

  /** How many raises the rows of a key stand for. */
  function Total(rows: seq<Row>, key: string): nat {
    if rows == [] then 0 else (if rows[0].key == key then 1 + rows[0].repeats else 0) + Total(rows[1..], key)
  }

  function RaisesOf(rs: seq<Raising>, key: string): nat {
    if rs == [] then 0 else (if rs[0].key == key then 1 else 0) + RaisesOf(rs[1..], key)
  }

  function Weight(row: Row, key: string): nat {
    if row.key == key then 1 + row.repeats else 0
  }

  lemma {:induction false} TotalReplaced(rows: seq<Row>, i: nat, row: Row, key: string)
    requires i < |rows|
    ensures Total(rows[i := row], key) == Total(rows, key) - Weight(rows[i], key) + Weight(row, key)
  {
    var after := rows[i := row];
    if i == 0 {
      assert after[1..] == rows[1..];
    } else {
      assert after[1..] == rows[1..][i - 1 := row];
      TotalReplaced(rows[1..], i - 1, row, key);
    }
  }

  lemma {:induction false} TotalAppended(rows: seq<Row>, row: Row, key: string)
    ensures Total(rows + [row], key) == Total(rows, key) + Weight(row, key)
  {
    if rows == [] {
      assert rows + [row] == [row] && [row][1..] == [];
    } else {
      assert (rows + [row])[1..] == rows[1..] + [row];
      TotalAppended(rows[1..], row, key);
    }
  }

  lemma RaiseCounts(rows: seq<Row>, r: Raising, cooldown: int, key: string)
    ensures Total(Raised(rows, r, cooldown), key) == Total(rows, key) + if r.key == key then 1 else 0
  {
    var i := Recent(rows, r.key);
    if i < |rows| && r.now - rows[i].raisedAt < cooldown {
      TotalReplaced(rows, i, rows[i].(repeats := rows[i].repeats + 1), key);
    } else {
      var body := if i < |rows| then WithCarried(r.body, rows[i].repeats) else r.body;
      TotalAppended(rows, Row(r.key, r.title, body, r.now, 0), key);
    }
  }

  /** No raise is lost and none counted twice: a key's rows stand for exactly its raises. */
  lemma {:induction false} RaisesConserved(rows: seq<Row>, rs: seq<Raising>, cooldown: int, key: string)
    ensures Total(Run(rows, rs, cooldown), key) == Total(rows, key) + RaisesOf(rs, key)
    decreases rs
  {
    if rs != [] {
      RaiseCounts(rows, rs[0], cooldown, key);
      RaisesConserved(Raised(rows, rs[0], cooldown), rs[1..], cooldown, key);
    }
  }

  /** Row `j` is the next of row `i`'s key. */
  predicate Follows(rows: seq<Row>, i: nat, j: nat) {
    i < j < |rows| && rows[i].key == rows[j].key && forall k | i < k < j :: rows[k].key != rows[i].key
  }

  /** Consecutive rows of a key are a cooldown apart, and the later tells of the earlier. */
  ghost predicate Chained(rows: seq<Row>, cooldown: int) {
    forall i: nat, j: nat | Follows(rows, i, j) ::
      && rows[j].raisedAt - rows[i].raisedAt >= cooldown
      && (rows[j].body.Obj? ==>
            CARRIED in rows[j].body.members && rows[j].body.members[CARRIED] == Num(rows[i].repeats))
  }

  lemma RaiseChains(rows: seq<Row>, r: Raising, cooldown: int)
    requires Chained(rows, cooldown)
    ensures Chained(Raised(rows, r, cooldown), cooldown)
  {
    var after, n := Raised(rows, r, cooldown), Recent(rows, r.key);
    forall i: nat, j: nat | Follows(after, i, j)
      ensures after[j].raisedAt - after[i].raisedAt >= cooldown
      ensures after[j].body.Obj? ==>
        CARRIED in after[j].body.members && after[j].body.members[CARRIED] == Num(after[i].repeats)
    {
      if j < |rows| {
        assert forall k: nat | k < |rows| :: after[k].key == rows[k].key;
        assert Follows(rows, i, j);
        assert i != n;
      } else {
        assert after[i] == rows[i] && rows[i].key == r.key;
        assert forall k: nat | i < k < |rows| :: after[k] == rows[k] && rows[k].key != r.key;
        assert i == n;
      }
    }
  }

  lemma {:induction false} RowsChained(rows: seq<Row>, rs: seq<Raising>, cooldown: int)
    requires Chained(rows, cooldown)
    ensures Chained(Run(rows, rs, cooldown), cooldown)
    decreases rs
  {
    if rs != [] {
      RaiseChains(rows, rs[0], cooldown);
      RowsChained(Raised(rows, rs[0], cooldown), rs[1..], cooldown);
    }
  }

  /** No raise is kept quiet past its cooldown: the row it lands on is younger than that,
      and it is the key's last. */
  lemma NeverSilenced(rows: seq<Row>, r: Raising, cooldown: int)
    requires cooldown > 0
    ensures var after := Raised(rows, r, cooldown);
      var i := Recent(after, r.key);
      && i < |after| && r.now - after[i].raisedAt < cooldown
      && (i < |rows| ==> after[i] == rows[i].(repeats := rows[i].repeats + 1))
      && (i == |rows| ==> after[i].raisedAt == r.now && after[i].title == r.title && after[i].repeats == 0)
  {
    var after, n := Raised(rows, r, cooldown), Recent(rows, r.key);
    if |after| == |rows| {
      assert forall k | 0 <= k < |rows| :: after[k].key == rows[k].key;
      assert Recent(after, r.key) == n;
    }
  }

  /** What the body of a new row is, its key's last row having been repeated that often: the body
      raised, with the count among its members if it has members. */
  predicate Carries(body: Json, raised: Json, repeats: nat) {
    if raised.Obj? then
      && body.Obj? && body.members.Keys == raised.members.Keys + {"previous_repeat_count"}
      && body.members["previous_repeat_count"] == Num(repeats)
      && forall k <- raised.members | k != "previous_repeat_count" :: body.members[k] == raised.members[k]
    else body == raised
  }

  predicate IsLastOf(rows: seq<Row>, key: string, i: nat) {
    i < |rows| && rows[i].key == key && forall j | i < j < |rows| :: rows[j].key != key
  }

  /** The first raise of a key is a row that says just what was raised. */
  lemma FirstRaiseIs(rows: seq<Row>, r: Raising, cooldown: int)
    requires forall i | 0 <= i < |rows| :: rows[i].key != r.key
    ensures Raised(rows, r, cooldown) == rows + [Row(r.key, r.title, r.body, r.now, 0)]
  {
  }

  /** A later one counts on the key's last row while that is younger than the cooldown, and is
      otherwise a row that says what was raised, and how often the last was repeated. */
  lemma LaterRaiseIs(rows: seq<Row>, r: Raising, cooldown: int, i: nat)
    requires IsLastOf(rows, r.key, i)
    ensures
      var after := Raised(rows, r, cooldown);
      if r.now < rows[i].raisedAt + cooldown then after == rows[i := rows[i].(repeats := rows[i].repeats + 1)]
      else
        && |after| == |rows| + 1 && after[..|rows|] == rows
        && after[|rows|] == Row(r.key, r.title, after[|rows|].body, r.now, 0)
        && Carries(after[|rows|].body, r.body, rows[i].repeats)
  {
    assert Recent(rows, r.key) == i;
  }

  /** A row that is no longer its key's last is final. */
  lemma {:induction false} EarlierRowsFinal(rows: seq<Row>, rs: seq<Raising>, cooldown: int, i: nat)
    requires i < |rows| && i != Recent(rows, rows[i].key)
    ensures i < |Run(rows, rs, cooldown)| && Run(rows, rs, cooldown)[i] == rows[i]
    decreases rs
  {
    if rs != [] {
      var after := Raised(rows, rs[0], cooldown);
      assert after[i] == rows[i];
      var n := Recent(rows, rows[i].key);
      assert i < n && after[n].key == rows[i].key;
      EarlierRowsFinal(after, rs[1..], cooldown, i);
    }
  }

  // ---- quota trips --------------------------------------------------------------------------

  const TRIP_WINDOW := 300

  type Pair = (int, string)

  datatype Trip = Trip(pair: Pair, at: int)

  /** The front dropped for as long as it is out of the window. */
  function Trimmed(window: seq<int>, now: int): seq<int> {
    if window != [] && now - window[0] >= TRIP_WINDOW then Trimmed(window[1..], now) else window
  }

  function WindowOf(windows: map<Pair, seq<int>>, p: Pair): seq<int> {
    if p in windows then windows[p] else []
  }

  class QuotaTripTracker {
    var windows: map<Pair, seq<int>>

    constructor ()
      ensures windows == map[]
    {
      windows := map[];
    }

    method Record(trip: Trip) returns (n: nat)
      modifies this
      ensures windows == old(windows)[trip.pair := Trimmed(WindowOf(old(windows), trip.pair) + [trip.at], trip.at)]
      ensures n == |windows[trip.pair]|
    {
      var window := if trip.pair in windows then windows[trip.pair] else [];
      window := window + [trip.at];
      ghost var pushed := window;
      while window != [] && trip.at - window[0] >= TRIP_WINDOW
        invariant Trimmed(window, trip.at) == Trimmed(pushed, trip.at)
        decreases |window|
      {
        window := window[1..];
      }
      windows := windows[trip.pair := window];
      n := |window|;
    }
  }

  /** The tracker's windows after some trips. */
  function Windows(trips: seq<Trip>): map<Pair, seq<int>> {
    if trips == [] then map[]
    else
      var n := |trips| - 1;
      var before, t := Windows(trips[..n]), trips[n];
      before[t.pair := Trimmed(WindowOf(before, t.pair) + [t.at], t.at)]
  }

  /** Every trip of a pair, ever. */
  function TripsOf(trips: seq<Trip>, p: Pair): seq<int> {
    if trips == [] then []
    else
      var n := |trips| - 1;
      TripsOf(trips[..n], p) + if trips[n].pair == p then [trips[n].at] else []
  }

  /** Those within the last 300 seconds. */
  function Within(ts: seq<int>, now: int): seq<int> {
    if ts == [] then [] else (if now - ts[0] < 300 then [ts[0]] else []) + Within(ts[1..], now)
  }

  predicate Ordered(ts: seq<int>) {
    forall i, j | 0 <= i < j < |ts| :: ts[i] <= ts[j]
  }

  predicate InTime(trips: seq<Trip>) {
    forall i, j | 0 <= i < j < |trips| :: trips[i].at <= trips[j].at
  }

  lemma {:induction false} WithinAll(ts: seq<int>, now: int)
    requires forall i | 0 <= i < |ts| :: now - ts[i] < TRIP_WINDOW
    ensures Within(ts, now) == ts
  {
    if ts != [] {
      WithinAll(ts[1..], now);
    }
  }

  /** On an ordered history, trimming the front keeps exactly what is in the window. */
  lemma {:induction false} TrimIsWithin(ts: seq<int>, now: int)
    requires Ordered(ts)
    ensures Trimmed(ts, now) == Within(ts, now)
  {
    if ts != [] {
      if now - ts[0] >= TRIP_WINDOW {
        TrimIsWithin(ts[1..], now);
      } else {
        WithinAll(ts, now);
      }
    }
  }

  /** Trimming what an earlier trim left is trimming the whole. */
  lemma {:induction false} TrimAgain(ts: seq<int>, earlier: int, now: int, more: seq<int>)
    requires Ordered(ts) && earlier <= now
    ensures Trimmed(Trimmed(ts, earlier) + more, now) == Trimmed(ts + more, now)
  {
    if ts != [] && earlier - ts[0] >= TRIP_WINDOW {
      TrimAgain(ts[1..], earlier, now, more);
      assert (ts + more)[1..] == ts[1..] + more;
    }
  }

  lemma {:induction false} TripsOrdered(trips: seq<Trip>, p: Pair)
    requires InTime(trips)
    ensures Ordered(TripsOf(trips, p))
    ensures forall i | 0 <= i < |TripsOf(trips, p)| :: trips != [] && TripsOf(trips, p)[i] <= trips[|trips| - 1].at
  {
    if trips != [] {
      TripsOrdered(trips[..|trips| - 1], p);
    }
  }

  function Last(ts: seq<int>): int
    requires ts != []
  {
    ts[|ts| - 1]
  }

  lemma {:induction false} WindowsAreTrims(trips: seq<Trip>, p: Pair)
    requires InTime(trips)
    ensures p in Windows(trips) <==> TripsOf(trips, p) != []
    ensures p in Windows(trips) ==> Windows(trips)[p] == Trimmed(TripsOf(trips, p), Last(TripsOf(trips, p)))
  {
    if trips != [] {
      var n := |trips| - 1;
      var before, t := trips[..n], trips[n];
      var earlier := TripsOf(before, p);
      WindowsAreTrims(before, p);
      TripsOrdered(before, p);
      if t.pair == p {
        if earlier == [] {
          assert TripsOf(trips, p) == [t.at] && [] + [t.at] == [t.at];
        } else {
          assert before != [] && Last(earlier) <= before[n - 1].at <= t.at;
          TrimAgain(earlier, Last(earlier), t.at, [t.at]);
          assert Last(earlier + [t.at]) == t.at;
        }
      } else {
        assert TripsOf(trips, p) == earlier;
      }
    }
  }

  /** What recording a trip returns is how many trips of its pair, of all there ever were,
      lie within the window. */
  lemma TrackerCountsHistory(trips: seq<Trip>)
    requires InTime(trips) && trips != []
    ensures var t := trips[|trips| - 1];
      t.pair in Windows(trips) && |Windows(trips)[t.pair]| == |Within(TripsOf(trips, t.pair), t.at)|
  {
    var t := trips[|trips| - 1];
    WindowsAreTrims(trips, t.pair);
    TripsOrdered(trips, t.pair);
    TrimIsWithin(TripsOf(trips, t.pair), t.at);
    assert Last(TripsOf(trips, t.pair)) == t.at;
  }

  // ---- contention -----------------------------------------------------------------------------

  const RISE_WINDOW := 300
  const RISE_THRESHOLD := 10

  datatype Sample = Sample(at: int, busy: nat)

  datatype Latch = Latch(samples: seq<Sample>, active: bool)

  function Dropped(samples: seq<Sample>, now: int): (r: seq<Sample>)
    ensures samples != [] && now - samples[|samples| - 1].at <= RISE_WINDOW ==> r != []
  {
    if samples != [] && now - samples[0].at > RISE_WINDOW then Dropped(samples[1..], now) else samples
  }

  function Rise(oldest: nat, now: nat): nat {
    if now >= oldest then now - oldest else 0
  }

  /** One tick: the latch after it, and the rise it reports, if any. */
  function Ticked(l: Latch, s: Sample): (Latch, Option<nat>) {
    var samples := Dropped(l.samples + [s], s.at);
    var rise := Rise(samples[0].busy, s.busy);
    if rise >= RISE_THRESHOLD then (Latch(samples, true), if l.active then None else Some(rise))
    else (Latch(samples, false), None)
  }

  class ContentionTracker {
    var samples: seq<Sample>
    var active: bool

    constructor ()
      ensures samples == [] && !active
    {
      samples, active := [], false;
    }

    method Tick(s: Sample) returns (fired: Option<nat>)
      modifies this
      ensures (Latch(samples, active), fired) == Ticked(Latch(old(samples), old(active)), s)
    {
      samples := samples + [s];
      ghost var pushed := samples;
      while samples != [] && s.at - samples[0].at > RISE_WINDOW
        invariant Dropped(samples, s.at) == Dropped(pushed, s.at)
        invariant active == old(active)
        decreases |samples|
      {
        samples := samples[1..];
      }
      var oldest := if samples != [] then samples[0].busy else s.busy;
      var rise := if s.busy >= oldest then s.busy - oldest else 0;
      if rise >= RISE_THRESHOLD {
        fired := if active then None else Some(rise);
        active := true;
      } else {
        active := false;
        fired := None;
      }
    }
  }

  function LatchAfter(ticks: seq<Sample>): Latch {
    if ticks == [] then Latch([], false) else Ticked(LatchAfter(ticks[..|ticks| - 1]), ticks[|ticks| - 1]).0
  }

  /** What the last of some ticks reports. */
  function Report(ticks: seq<Sample>): Option<nat>
    requires ticks != []
  {
    Ticked(LatchAfter(ticks[..|ticks| - 1]), ticks[|ticks| - 1]).1
  }

  predicate TicksInTime(ticks: seq<Sample>) {
    forall i, j | 0 <= i < j < |ticks| :: ticks[i].at <= ticks[j].at
  }

  /** The oldest tick of all that is no more than 300 seconds before the last. */
  predicate IsOldest(ticks: seq<Sample>, i: nat) {
    var n := |ticks| - 1;
    && i < |ticks| && ticks[n].at - ticks[i].at <= 300
    && forall j | 0 <= j < i :: ticks[n].at - ticks[j].at > 300
  }

  ghost predicate Elevated(ticks: seq<Sample>) {
    exists i: nat :: IsOldest(ticks, i) && ticks[|ticks| - 1].busy >= ticks[i].busy + 10
  }

  lemma {:induction false} DroppedIsSuffix(samples: seq<Sample>, now: int) returns (k: nat)
    ensures k <= |samples| && Dropped(samples, now) == samples[k..]
    ensures forall j | 0 <= j < k :: now - samples[j].at > RISE_WINDOW
    ensures k < |samples| ==> now - samples[k].at <= RISE_WINDOW
  {
    if samples != [] && now - samples[0].at > RISE_WINDOW {
      k := DroppedIsSuffix(samples[1..], now);
      k := k + 1;
    } else {
      k := 0;
    }
  }

  lemma ElevatedIff(ticks: seq<Sample>, i: nat)
    requires IsOldest(ticks, i)
    ensures Elevated(ticks) <==> ticks[|ticks| - 1].busy >= ticks[i].busy + RISE_THRESHOLD
  {
    if m: nat :| IsOldest(ticks, m) && ticks[|ticks| - 1].busy >= ticks[m].busy + RISE_THRESHOLD {
      assert m == i;
    }
  }

  lemma SuffixOfSuffix(ticks: seq<Sample>, h: nat, k: nat)
    requires h + k < |ticks|
    ensures ticks[h..][k..] == ticks[h + k..] && ticks[h..][k] == ticks[h + k]
  {
  }

  lemma SuffixGrows(ticks: seq<Sample>, h: nat)
    requires h < |ticks|
    ensures ticks[..|ticks| - 1][h..] + [ticks[|ticks| - 1]] == ticks[h..]
  {
  }

  /** What was outside the window a tick before still is. */
  lemma OutsideBefore(ticks: seq<Sample>, h: nat, j: nat)
    requires TicksInTime(ticks) && j < h && |ticks| > 1 && IsOldest(ticks[..|ticks| - 1], h)
    ensures ticks[|ticks| - 1].at - ticks[j].at > RISE_WINDOW
  {
    var before := ticks[..|ticks| - 1];
    assert before[j] == ticks[j] && before[|before| - 1] == ticks[|ticks| - 2];
  }

  /** Dropping from a suffix that starts at the oldest tick of a moment before. */
  lemma OldestAdvances(ticks: seq<Sample>, h: nat) returns (i: nat)
    requires TicksInTime(ticks) && h < |ticks|
    requires |ticks| > 1 ==> IsOldest(ticks[..|ticks| - 1], h)
    requires |ticks| == 1 ==> h == 0
    ensures IsOldest(ticks, i) && Dropped(ticks[h..], ticks[|ticks| - 1].at) == ticks[i..]
  {
    var s := ticks[|ticks| - 1];
    var k := DroppedIsSuffix(ticks[h..], s.at);
    assert ticks[h..][|ticks| - 1 - h] == s;
    i := h + k;
    SuffixOfSuffix(ticks, h, k);
    forall j | 0 <= j < i ensures s.at - ticks[j].at > RISE_WINDOW {
      if j >= h {
        assert ticks[h..][j - h] == ticks[j];
      } else {
        OutsideBefore(ticks, h, j);
      }
    }
  }

  lemma TickedAt(l: Latch, s: Sample, first: Sample)
    requires Dropped(l.samples + [s], s.at)[0] == first
    ensures Ticked(l, s).0.samples == Dropped(l.samples + [s], s.at)
    ensures Ticked(l, s).0.active <==> s.busy >= first.busy + RISE_THRESHOLD
    ensures Ticked(l, s).1
      == if s.busy >= first.busy + RISE_THRESHOLD && !l.active then Some(s.busy - first.busy) else None
  {
  }

  /** The samples kept are the ticks from the oldest one in the window on. */
  lemma {:induction false} SamplesAreSuffix(ticks: seq<Sample>) returns (i: nat)
    requires TicksInTime(ticks) && ticks != []
    ensures IsOldest(ticks, i) && LatchAfter(ticks).samples == ticks[i..]
    ensures Dropped(LatchAfter(ticks[..|ticks| - 1]).samples + [ticks[|ticks| - 1]], ticks[|ticks| - 1].at)
      == ticks[i..]
  {
    var n := |ticks| - 1;
    var before := ticks[..n];
    var h := 0;
    if before != [] {
      h := SamplesAreSuffix(before);
    }
    assert LatchAfter(before).samples == before[h..] by {
      assert before == [] ==> LatchAfter(before).samples == [];
    }
    SuffixGrows(ticks, h);
    i := OldestAdvances(ticks, h);
    LastTick(ticks, ticks[i..]);
  }

  lemma LastTick(ticks: seq<Sample>, kept: seq<Sample>)
    requires ticks != []
    requires
      var n := |ticks| - 1;
      Dropped(LatchAfter(ticks[..n]).samples + [ticks[n]], ticks[n].at) == kept
    ensures LatchAfter(ticks).samples == kept
  {
  }

  /** The latch remembers whether the last tick was elevated; the report is the rise over
      the oldest tick in the window, when the latch was off. */
  lemma LatchIsHistory(ticks: seq<Sample>) returns (i: nat)
    requires TicksInTime(ticks) && ticks != []
    ensures IsOldest(ticks, i)
    ensures LatchAfter(ticks).active <==> Elevated(ticks)
    ensures Report(ticks) ==
      if Elevated(ticks) && !LatchAfter(ticks[..|ticks| - 1]).active
      then Some(ticks[|ticks| - 1].busy - ticks[i].busy) else None
  {
    i := SamplesAreSuffix(ticks);
    assert ticks[i..][0] == ticks[i];
    TickedAt(LatchAfter(ticks[..|ticks| - 1]), ticks[|ticks| - 1], ticks[i]);
    ElevatedIff(ticks, i);
  }

  /** A tick reports exactly when it is elevated over the oldest tick in the window and the
      tick before it was not: once for each unbroken run of elevated ticks. */
  lemma FiresOncePerRun(ticks: seq<Sample>)
    requires TicksInTime(ticks) && ticks != []
    ensures Report(ticks).Some? <==>
      Elevated(ticks) && (|ticks| == 1 || !Elevated(ticks[..|ticks| - 1]))
    ensures Report(ticks).Some? ==>
      exists i: nat :: IsOldest(ticks, i) && Report(ticks).value == ticks[|ticks| - 1].busy - ticks[i].busy
  {
    var i := LatchIsHistory(ticks);
    if |ticks| > 1 {
      var h := LatchIsHistory(ticks[..|ticks| - 1]);
    }
  }
}
