/** The rows of an ask and its event log: pending, then answered or expired, once. */
module AskStore {
  import opened Wrappers

  // AskStore is the database with its operations; each is proved to do to the two tables what a function of the
  // tables says. What holds over whole runs is then proved about those functions.

  const RETENTION_DAYS := 30
  const SECONDS_A_DAY := 86_400
  const TTL_MAX_S := 7 * 24 * 3600

  type AskId = string

  datatype Status = Pending | Answered | Expired

  datatype Channel = Link | Client

  datatype Ask = Ask(
    tenant: int,
    options: seq<string>,
    status: Status,
    choice: Option<string>,
    created: int,
    expires: int,
    answered: Option<int>,
    channel: Channel)

  datatype Kind = CreatedEvent | AnsweredEvent | ExpiredEvent

  datatype Event = Event(kind: Kind, at: int, detail: Option<string>)

  /** `asks` by id, and the rows of `ask_events` of each ask in insertion order. */
  datatype Tables = Tables(asks: map<AskId, Ask>, events: map<AskId, seq<Event>>)

  datatype Reply =
    | Recorded(choice: string, at: int)
    | Already(choice: string, at: int)
    | Gone

  // ---- what each operation does to the tables -------------------------------------

  predicate Due(a: Ask, now: int) {
    a.status == Pending && a.expires <= now
  }

  /** Every due ask is expired, with its event stamped at the moment it lapsed. */
  function Lapse(t: Tables, now: int): Tables {
    Tables(
      map id | id in t.asks ::
        if Due(t.asks[id], now) then t.asks[id].(status := Expired) else t.asks[id],
      map id | id in t.events ::
        if id in t.asks && Due(t.asks[id], now)
        then t.events[id] + [Event(ExpiredEvent, t.asks[id].expires, None)]
        else t.events[id])
  }

  /** The tables once the asks in `done` have been expired. */
  function Expiring(t: Tables, done: set<AskId>): Tables {
    Tables(
      map id | id in t.asks ::
        if id in done then t.asks[id].(status := Expired) else t.asks[id],
      map id | id in t.events ::
        if id in done && id in t.asks
        then t.events[id] + [Event(ExpiredEvent, t.asks[id].expires, None)]
        else t.events[id])
  }

  lemma ExpiringOne(t: Tables, done: set<AskId>, id: AskId)
    requires id in t.asks && t.asks.Keys == t.events.Keys && id !in done
    ensures
      var u := Expiring(t, done);
      Expiring(t, done + {id}) ==
        Insert(u, id, u.asks[id].(status := Expired),
               u.events[id] + [Event(ExpiredEvent, u.asks[id].expires, None)])
  {
    var u, v := Expiring(t, done), Expiring(t, done + {id});
    var r := Insert(u, id, u.asks[id].(status := Expired),
                    u.events[id] + [Event(ExpiredEvent, u.asks[id].expires, None)]);
    assert v.asks == r.asks;
    assert v.events == r.events;
  }

  /** What is due and not yet expired is still pending, and expiring it is the next step. */
  lemma ExpiringDue(t: Tables, done: set<AskId>, id: AskId, now: int)
    requires id in t.asks && t.asks.Keys == t.events.Keys && id !in done && Due(t.asks[id], now)
    ensures
      var u := Expiring(t, done);
      && id in u.asks && id in u.events && u.asks[id].status == Pending
      && Expiring(t, done + {id}) ==
        Insert(u, id, u.asks[id].(status := Expired),
               u.events[id] + [Event(ExpiredEvent, u.asks[id].expires, None)])
  {
    ExpiringOne(t, done, id);
  }

  lemma ExpiringAllDue(t: Tables, now: int)
    requires t.asks.Keys == t.events.Keys
    ensures Lapse(t, now) == Expiring(t, set id | id in t.asks && Due(t.asks[id], now))
  {
  }

  lemma ExpiringNone(t: Tables, all: set<AskId>)
    ensures Expiring(t, all - all) == t
  {
  }

  lemma OneLess(all: set<AskId>, due: set<AskId>, id: AskId)
    requires id in due && due <= all
    ensures all - (due - {id}) == (all - due) + {id}
  {
  }

  predicate PastRetention(a: Ask, now: int) {
    a.expires < now - RETENTION_DAYS * SECONDS_A_DAY
  }

  function Prune(t: Tables, now: int): Tables {
    Tables(
      map id | id in t.asks && !PastRetention(t.asks[id], now) :: t.asks[id],
      map id | id in t.events && !(id in t.asks && PastRetention(t.asks[id], now)) :: t.events[id])
  }

  function OpenAsks(t: Tables, tenant: int): set<AskId> {
    set id | id in t.asks && t.asks[id].tenant == tenant && t.asks[id].status == Pending
  }

  function Tidy(t: Tables, now: int): Tables {
    Prune(Lapse(t, now), now)
  }

  function Insert(t: Tables, id: AskId, a: Ask, log: seq<Event>): Tables {
    Tables(t.asks[id := a], t.events[id := log])
  }

  /** A new pending ask, unless the tenant already has `openMax` of them. */
  function Created(t: Tables, tenant: int, id: AskId, options: seq<string>, ttl: int, now: int, openMax: int)
    : Tables
  {
    if |OpenAsks(Tidy(t, now), tenant)| >= openMax then Tidy(t, now)
    else
      Insert(Tidy(t, now), id,
             Ask(tenant, options, Pending, None, now, now + ttl, None, Link),
             [Event(CreatedEvent, now, None)])
  }

  function Elicited(t: Tables, tenant: int, id: AskId, choice: string, now: int): Tables {
    Insert(t, id,
           Ask(tenant, [], Answered, Some(choice), now, now, Some(now), Client),
           [Event(CreatedEvent, now, None), Event(AnsweredEvent, now, Some(choice))])
  }

  predicate Answerable(t: Tables, id: AskId, now: int) {
    id in t.asks && t.asks[id].status == Pending && t.asks[id].expires > now
  }

  function Answer(t: Tables, id: AskId, choice: string, now: int): (Tables, Reply) {
    var u := Lapse(t, now);
    if Answerable(u, id, now) && id in u.events then
      (Insert(u, id,
              u.asks[id].(status := Answered, choice := Some(choice), answered := Some(now)),
              u.events[id] + [Event(AnsweredEvent, now, Some(choice))]),
       Recorded(choice, now))
    else if id in u.asks && u.asks[id].status == Answered
      && u.asks[id].choice.Some? && u.asks[id].answered.Some? then
      (u, Already(u.asks[id].choice.value, u.asks[id].answered.value))
    else
      (u, Gone)
  }

  // ---- the store --------------------------------------------------------------------

  class AskStore {
    var asks: map<AskId, Ask>
    var events: map<AskId, seq<Event>>

    function Contents(): Tables
      reads this
    {
      Tables(asks, events)
    }

    /** Every ask has its events, and no event lacks its ask. */
    predicate Valid()
      reads this
    {
      asks.Keys == events.Keys
    }

    constructor ()
      ensures Valid() && Contents() == Tables(map[], map[])
    {
      asks, events := map[], map[];
    }

    /** The guarded update: it fires only on a row that is still pending. */
    method ExpireOne(id: AskId)
      requires Valid() && id in asks
      modifies this
      ensures Valid()
      ensures Contents() ==
        var t := old(Contents());
        if t.asks[id].status != Pending then t
        else Insert(t, id, t.asks[id].(status := Expired),
                    t.events[id] + [Event(ExpiredEvent, t.asks[id].expires, None)])
    {
      if asks[id].status == Pending {
        asks := asks[id := asks[id].(status := Expired)];
        events := events[id := events[id] + [Event(ExpiredEvent, asks[id].expires, None)]];
      }
    }

    method ExpireDue(now: int)
      requires Valid()
      modifies this
      ensures Valid() && Contents() == Lapse(old(Contents()), now)
    {
      var due := set id | id in asks && Due(asks[id], now);
      ghost var start, all := Contents(), due;
      ExpiringAllDue(start, now);
      ExpiringNone(start, all);
      while due != {}
        invariant Valid() && due <= all
        invariant Contents() == Expiring(start, all - due)
      {
        var id :| id in due;
        OneLess(all, due, id);
        ExpiringDue(start, all - due, id, now);
        ExpireOne(id);
        due := due - {id};
      }
      assert all - due == all;
    }

    method PruneOld(now: int)
      requires Valid()
      modifies this
      ensures Valid() && Contents() == Prune(old(Contents()), now)
    {
      var gone := set id | id in asks && PastRetention(asks[id], now);
      events := events - gone;
      asks := asks - gone;
    }

    method Create(tenant: int, id: AskId, options: seq<string>, ttl: int, now: int, openMax: int)
      returns (accepted: bool)
      requires Valid() && id !in asks && 1 <= ttl <= TTL_MAX_S
      modifies this
      ensures Valid() && Contents() == Created(old(Contents()), tenant, id, options, ttl, now, openMax)
      ensures accepted <==> |OpenAsks(Tidy(old(Contents()), now), tenant)| < openMax
    {
      ExpireDue(now);
      PruneOld(now);
      var open := set i | i in asks && asks[i].tenant == tenant && asks[i].status == Pending;
      assert open == OpenAsks(Contents(), tenant);
      accepted := |open| < openMax;
      if accepted {
        asks := asks[id := Ask(tenant, options, Pending, None, now, now + ttl, None, Link)];
        events := events[id := [Event(CreatedEvent, now, None)]];
      }
    }

    method RecordClientElicit(tenant: int, id: AskId, choice: string, now: int)
      requires Valid() && id !in asks
      modifies this
      ensures Valid() && Contents() == Elicited(old(Contents()), tenant, id, choice, now)
    {
      asks := asks[id := Ask(tenant, [], Answered, Some(choice), now, now, Some(now), Client)];
      events := events[id := [Event(CreatedEvent, now, None)]];
      events := events[id := events[id] + [Event(AnsweredEvent, now, Some(choice))]];
      assert events[id] == [Event(CreatedEvent, now, None), Event(AnsweredEvent, now, Some(choice))];
    }

    method Find(id: AskId, now: int) returns (row: Option<Ask>)
      requires Valid()
      modifies this
      ensures Valid() && Contents() == Lapse(old(Contents()), now)
      ensures row == if id in asks then Some(asks[id]) else None
    {
      ExpireDue(now);
      row := if id in asks then Some(asks[id]) else None;
    }

    method RecordAnswer(id: AskId, choice: string, now: int) returns (reply: Reply)
      requires Valid()
      modifies this
      ensures Valid() && (Contents(), reply) == Answer(old(Contents()), id, choice, now)
    {
      ExpireDue(now);
      if id in asks && asks[id].status == Pending && asks[id].expires > now {
        asks := asks[id := asks[id].(status := Answered, choice := Some(choice), answered := Some(now))];
        events := events[id := events[id] + [Event(AnsweredEvent, now, Some(choice))]];
        return Recorded(choice, now);
      }
      if id in asks {
        var row := asks[id];
        if row.status == Answered && row.choice.Some? && row.answered.Some? {
          return Already(row.choice.value, row.answered.value);
        }
      }
      reply := Gone;
    }
  }

  // ---- runs ---------------------------------------------------------------------------

  /** One handler call, with the clock readings it makes. An answer is two database
      calls: the link is resolved and the choice checked, then the choice recorded. */
  datatype Op =
    | DoCreate(tenant: int, id: AskId, options: seq<string>, ttl: int, now: int)
    | DoElicit(tenant: int, id: AskId, choice: string, now: int)
    | DoRead(now: int)
    | DoList(now: int)
    | DoResolve(id: AskId, choice: string, now: int)
    | DoAnswer(id: AskId, choice: string, now: int)

  /** The tables, the answers whose link check has passed, every id ever used, and the
      replies given so far, oldest first. */
  datatype World = World(
    t: Tables,
    offered: set<(AskId, string)>,
    used: set<AskId>,
    replies: seq<(AskId, Reply)>)

  const START := World(Tables(map[], map[]), {}, {}, [])

  /** Ids are ULIDs, never used twice; a ttl has passed the argument check. */
  predicate CanDo(w: World, op: Op) {
    match op
    case DoCreate(_, id, _, ttl, _) => id !in w.used && 1 <= ttl <= TTL_MAX_S
    case DoElicit(_, id, _, _) => id !in w.used
    case DoAnswer(id, choice, _) => (id, choice) in w.offered
    case _ => true
  }

  /** The link is live and the choice is one of the ask's options. */
  predicate Resolves(t: Tables, id: AskId, choice: string, now: int) {
    id in t.asks && now < t.asks[id].expires && t.asks[id].status != Expired && choice in t.asks[id].options
  }

  function Do(w: World, op: Op, plan: int -> int): World
    requires CanDo(w, op)
  {
    match op
    case DoCreate(tenant, id, options, ttl, now) =>
      w.(t := Created(w.t, tenant, id, options, ttl, now, plan(tenant)), used := w.used + {id})
    case DoElicit(tenant, id, choice, now) =>
      w.(t := Elicited(w.t, tenant, id, choice, now), used := w.used + {id})
    case DoRead(now) => w.(t := Lapse(w.t, now))
    case DoList(now) => w.(t := Tidy(w.t, now))
    case DoResolve(id, choice, now) =>
      var t := Lapse(w.t, now);
      w.(t := t, offered := if Resolves(t, id, choice, now) then w.offered + {(id, choice)} else w.offered)
    case DoAnswer(id, choice, now) =>
      var (t, reply) := Answer(w.t, id, choice, now);
      w.(t := t, replies := w.replies + [(id, reply)])
  }

  predicate Run(w: World, ops: seq<Op>, plan: int -> int, v: World)
    decreases |ops|
  {
    if ops == [] then w == v
    else CanDo(w, ops[0]) && Run(Do(w, ops[0], plan), ops[1..], plan, v)
  }

  // ---- what every operation keeps -----------------------------------------------------

  /** An ask's log is one created event and, once it is decided, one terminal event
      that says the same as the row. */
  predicate LogTells(a: Ask, log: seq<Event>) {
    |log| >= 1 && log[0] == Event(CreatedEvent, a.created, None) &&
    match a.status
    case Pending =>
      |log| == 1 && a.channel == Link && a.choice == None && a.answered == None
    case Answered =>
      && |log| == 2 && a.choice.Some? && a.answered.Some?
      && log[1] == Event(AnsweredEvent, a.answered.value, a.choice)
      && (a.channel == Link ==> a.answered.value < a.expires && a.choice.value in a.options)
      && (a.channel == Client ==> a.answered.value == a.created == a.expires)
    case Expired =>
      && |log| == 2 && a.channel == Link && a.choice == None && a.answered == None
      && log[1] == Event(ExpiredEvent, a.expires, None)
  }

  predicate LogsTell(t: Tables) {
    && t.asks.Keys == t.events.Keys
    && forall id <- t.asks :: LogTells(t.asks[id], t.events[id])
  }

  ghost predicate WithinPlan(t: Tables, plan: int -> int) {
    forall tenant {:trigger OpenAsks(t, tenant)} ::
      |OpenAsks(t, tenant)| <= if plan(tenant) > 0 then plan(tenant) else 0
  }

  predicate OfferedIsOption(w: World) {
    forall o <- w.offered :: o.0 in w.used && (o.0 in w.t.asks ==> o.1 in w.t.asks[o.0].options)
  }

  /** A reply that names a choice names the recorded one. */
  predicate ReplyTrue(w: World, k: nat)
    requires k < |w.replies|
  {
    w.replies[k].1 == Gone ||
    var (id, r) := w.replies[k];
    && id in w.used
    && (id in w.t.asks ==>
          && w.t.asks[id].status == Answered
          && w.t.asks[id].choice == Some(r.choice) && w.t.asks[id].answered == Some(r.at))
  }

  predicate RepliesAgree(w: World) {
    forall j, k | 0 <= j < k < |w.replies| && w.replies[j].0 == w.replies[k].0
      && w.replies[j].1 != Gone && w.replies[k].1 != Gone ::
      && w.replies[k].1 == Already(w.replies[j].1.choice, w.replies[j].1.at)
  }

  ghost predicate Inv(w: World, plan: int -> int) {
    && LogsTell(w.t)
    && WithinPlan(w.t, plan)
    && w.t.asks.Keys <= w.used
    && OfferedIsOption(w)
    && (forall k | 0 <= k < |w.replies| :: ReplyTrue(w, k))
    && RepliesAgree(w)
  }

  /** Rows may go and pending rows may be decided, but a decided row stays as it is. */
  predicate OnlyDecides(t: Tables, u: Tables) {
    && u.asks.Keys <= t.asks.Keys
    && forall id <- u.asks ::
         && (t.asks[id].status != Pending ==> u.asks[id] == t.asks[id])
         && u.asks[id].tenant == t.asks[id].tenant && u.asks[id].options == t.asks[id].options
         && (u.asks[id].status == Pending ==> t.asks[id].status == Pending)
  }

  lemma LapseKeeps(t: Tables, now: int)
    requires LogsTell(t)
    ensures LogsTell(Lapse(t, now)) && OnlyDecides(t, Lapse(t, now))
  {
  }

  lemma PruneKeeps(t: Tables, now: int)
    requires LogsTell(t)
    ensures LogsTell(Prune(t, now)) && OnlyDecides(t, Prune(t, now))
  {
  }

  lemma AnswerKeeps(t: Tables, id: AskId, choice: string, now: int)
    requires LogsTell(t)
    requires id in t.asks ==> choice in t.asks[id].options
    ensures LogsTell(Answer(t, id, choice, now).0) && OnlyDecides(t, Answer(t, id, choice, now).0)
  {
    LapseKeeps(t, now);
    var u, v := Lapse(t, now), Answer(t, id, choice, now).0;
    if Answerable(u, id, now) {
      assert LogTells(u.asks[id], u.events[id]);
      assert LogTells(v.asks[id], v.events[id]);
      forall i <- v.asks | i != id ensures LogTells(v.asks[i], v.events[i]) {
        assert LogTells(u.asks[i], u.events[i]);
      }
    }
  }

  lemma OnlyDecidesWithinPlan(t: Tables, u: Tables, plan: int -> int)
    requires OnlyDecides(t, u) && WithinPlan(t, plan)
    ensures WithinPlan(u, plan)
  {
    forall tenant ensures |OpenAsks(u, tenant)| <= |OpenAsks(t, tenant)| {
      SubsetSize(OpenAsks(u, tenant), OpenAsks(t, tenant));
    }
  }

  /** Deciding rows, with no reply given, keeps everything. */
  lemma DecideInv(w: World, u: Tables, plan: int -> int)
    requires Inv(w, plan) && LogsTell(u) && OnlyDecides(w.t, u)
    ensures Inv(w.(t := u), plan)
  {
    OnlyDecidesWithinPlan(w.t, u, plan);
    var v := w.(t := u);
    forall k | 0 <= k < |v.replies| ensures ReplyTrue(v, k) {
      assert ReplyTrue(w, k);
    }
  }

  lemma InsertTells(t: Tables, id: AskId, a: Ask, log: seq<Event>)
    requires LogsTell(t) && id !in t.asks && LogTells(a, log)
    ensures LogsTell(Insert(t, id, a, log))
  {
    var u := Insert(t, id, a, log);
    forall i <- u.asks ensures LogTells(u.asks[i], u.events[i]) {
      assert i != id ==> LogTells(t.asks[i], t.events[i]);
    }
  }

  lemma InsertFits(t: Tables, id: AskId, a: Ask, log: seq<Event>, tenant: int)
    requires id !in t.asks
    ensures |OpenAsks(Insert(t, id, a, log), tenant)| ==
      |OpenAsks(t, tenant)| + if a.status == Pending && a.tenant == tenant then 1 else 0
  {
    var added := if a.status == Pending && a.tenant == tenant then {id} else {};
    assert OpenAsks(Insert(t, id, a, log), tenant) == OpenAsks(t, tenant) + added;
  }

  lemma InsertInv(w: World, id: AskId, a: Ask, log: seq<Event>, plan: int -> int)
    requires Inv(w, plan) && id !in w.used && LogTells(a, log)
    requires a.status == Pending ==> |OpenAsks(w.t, a.tenant)| < plan(a.tenant)
    ensures Inv(w.(t := Insert(w.t, id, a, log), used := w.used + {id}), plan)
  {
    var v := w.(t := Insert(w.t, id, a, log), used := w.used + {id});
    InsertTells(w.t, id, a, log);
    forall tenant ensures |OpenAsks(v.t, tenant)| <= if plan(tenant) > 0 then plan(tenant) else 0 {
      InsertFits(w.t, id, a, log, tenant);
    }
    forall k | 0 <= k < |v.replies| ensures ReplyTrue(v, k) {
      assert ReplyTrue(w, k);
    }
  }

  lemma ReplyInv(w: World, id: AskId, choice: string, now: int, plan: int -> int)
    requires Inv(w, plan) && CanDo(w, DoAnswer(id, choice, now))
    ensures Inv(Do(w, DoAnswer(id, choice, now), plan), plan)
  {
    var (t, reply) := Answer(w.t, id, choice, now);
    AnswerKeeps(w.t, id, choice, now);
    DecideInv(w, t, plan);
    var v := Do(w, DoAnswer(id, choice, now), plan);
    var n := |w.replies|;
    forall k | 0 <= k < |v.replies| ensures ReplyTrue(v, k) {
      if k < n {
        assert ReplyTrue(w.(t := t), k);
      }
    }
    forall j, k | 0 <= j < k < |v.replies| && v.replies[j].0 == v.replies[k].0
      && v.replies[j].1 != Gone && v.replies[k].1 != Gone
      ensures v.replies[k].1 == Already(v.replies[j].1.choice, v.replies[j].1.at)
    {
      if k == n {
        assert ReplyTrue(w, j);
      }
    }
  }

  lemma CreateInv(
    w: World, tenant: int, id: AskId, options: seq<string>, ttl: int, now: int, plan: int -> int)
    requires Inv(w, plan) && id !in w.used
    ensures Inv(w.(t := Created(w.t, tenant, id, options, ttl, now, plan(tenant)), used := w.used + {id}), plan)
  {
    TidyInv(w, now, plan);
    var v := w.(t := Tidy(w.t, now));
    if |OpenAsks(v.t, tenant)| < plan(tenant) {
      InsertInv(v, id, Ask(tenant, options, Pending, None, now, now + ttl, None, Link),
                [Event(CreatedEvent, now, None)], plan);
    } else {
      UseId(v, id, plan);
    }
  }

  lemma StepInv(w: World, op: Op, plan: int -> int)
    requires Inv(w, plan) && CanDo(w, op)
    ensures Inv(Do(w, op, plan), plan)
  {
    match op
    case DoCreate(tenant, id, options, ttl, now) =>
      CreateInv(w, tenant, id, options, ttl, now, plan);
    case DoElicit(tenant, id, choice, now) =>
      InsertInv(w, id, Ask(tenant, [], Answered, Some(choice), now, now, Some(now), Client),
                [Event(CreatedEvent, now, None), Event(AnsweredEvent, now, Some(choice))], plan);
    case DoRead(now) =>
      LapseKeeps(w.t, now);
      DecideInv(w, Lapse(w.t, now), plan);
    case DoList(now) =>
      TidyInv(w, now, plan);
    case DoResolve(id, choice, now) =>
      LapseKeeps(w.t, now);
      DecideInv(w, Lapse(w.t, now), plan);
      var v := w.(t := Lapse(w.t, now));
      if Resolves(v.t, id, choice, now) {
        OfferInv(v, id, choice, plan);
      }
    case DoAnswer(id, choice, now) =>
      ReplyInv(w, id, choice, now, plan);
  }

  lemma TidyInv(w: World, now: int, plan: int -> int)
    requires Inv(w, plan)
    ensures Inv(w.(t := Tidy(w.t, now)), plan)
  {
    LapseKeeps(w.t, now);
    DecideInv(w, Lapse(w.t, now), plan);
    PruneKeeps(Lapse(w.t, now), now);
    DecideInv(w.(t := Lapse(w.t, now)), Tidy(w.t, now), plan);
  }

  lemma UseId(w: World, id: AskId, plan: int -> int)
    requires Inv(w, plan)
    ensures Inv(w.(used := w.used + {id}), plan)
  {
    var v := w.(used := w.used + {id});
    forall k | 0 <= k < |v.replies| ensures ReplyTrue(v, k) {
      assert ReplyTrue(w, k);
    }
  }

  lemma OfferInv(w: World, id: AskId, choice: string, plan: int -> int)
    requires Inv(w, plan) && id in w.t.asks && choice in w.t.asks[id].options
    ensures Inv(w.(offered := w.offered + {(id, choice)}), plan)
  {
    var v := w.(offered := w.offered + {(id, choice)});
    forall k | 0 <= k < |v.replies| ensures ReplyTrue(v, k) {
      assert ReplyTrue(w, k);
    }
  }

  lemma {:induction false} RunInv(w: World, ops: seq<Op>, plan: int -> int, v: World)
    requires Inv(w, plan) && Run(w, ops, plan, v)
    ensures Inv(v, plan)
    decreases |ops|
  {
    if ops != [] {
      StepInv(w, ops[0], plan);
      RunInv(Do(w, ops[0], plan), ops[1..], plan, v);
    }
  }

  lemma StartInv(plan: int -> int)
    ensures Inv(START, plan)
  {
    forall tenant ensures OpenAsks(START.t, tenant) == {} {
    }
  }

  // ---- whole runs -----------------------------------------------------------------------

  /** Of all the replies ever given for an ask that name a choice, only the first is
      "recorded", and all name the same choice at the same moment. */
  lemma FirstAnswerWins(ops: seq<Op>, plan: int -> int, v: World)
    requires Run(START, ops, plan, v)
    ensures forall j, k | 0 <= j < k < |v.replies| && v.replies[j].0 == v.replies[k].0
      && v.replies[j].1 != Gone && v.replies[k].1 != Gone ::
      v.replies[k].1 == Already(v.replies[j].1.choice, v.replies[j].1.at)
  {
    StartInv(plan);
    RunInv(START, ops, plan, v);
  }

  /** Every row there is has the log its status calls for, and every event its row. */
  lemma LogsMatchRows(ops: seq<Op>, plan: int -> int, v: World)
    requires Run(START, ops, plan, v)
    ensures v.t.events.Keys == v.t.asks.Keys
    ensures forall id <- v.t.asks :: LogTells(v.t.asks[id], v.t.events[id])
  {
    StartInv(plan);
    RunInv(START, ops, plan, v);
  }

  /** No tenant ever has more pending asks than its plan allows. */
  lemma OpenCeilingHolds(ops: seq<Op>, plan: int -> int, v: World, tenant: int)
    requires Run(START, ops, plan, v)
    ensures |OpenAsks(v.t, tenant)| <= if plan(tenant) > 0 then plan(tenant) else 0
  {
    StartInv(plan);
    RunInv(START, ops, plan, v);
  }

  // ---- what one call does -----------------------------------------------------------------

  /** What the passing of time alone does to an ask and its log: a pending one whose moment
      has come is expired, stamped at that moment; any other stays. */
  predicate Settled(t: Tables, u: Tables, now: int, id: AskId) {
    && id in t.asks && id in t.events && id in u.asks && id in u.events
    && var row := t.asks[id];
       if row.status == Pending && row.expires <= now then
         && u.asks[id] == row.(status := Expired)
         && u.events[id] == t.events[id] + [Event(ExpiredEvent, row.expires, None)]
       else u.asks[id] == row && u.events[id] == t.events[id]
  }

  lemma LapseSettles(t: Tables, now: int, id: AskId)
    requires t.asks.Keys == t.events.Keys && id in t.asks
    ensures Settled(t, Lapse(t, now), now, id)
  {
  }

  /** Reading settles every ask and removes none. */
  lemma ReadsSettled(ops: seq<Op>, plan: int -> int, v: World, now: int)
    requires Run(START, ops, plan, v)
    ensures Lapse(v.t, now).asks.Keys == v.t.asks.Keys
    ensures forall id <- v.t.asks :: Settled(v.t, Lapse(v.t, now), now, id)
  {
    LogsMatchRows(ops, plan, v);
    forall id <- v.t.asks ensures Settled(v.t, Lapse(v.t, now), now, id) {
      LapseSettles(v.t, now, id);
    }
  }

  /** The ask can still be answered. */
  predicate Open(t: Tables, id: AskId, now: int) {
    id in t.asks && t.asks[id].status == Pending && now < t.asks[id].expires
  }

  predicate WasAnswered(t: Tables, id: AskId) {
    id in t.asks && t.asks[id].status == Answered
  }

  /** Nothing has happened to the asks but the passing of time, save to `id`. */
  predicate SettledBut(t: Tables, u: Tables, now: int, id: AskId) {
    u.asks.Keys == t.asks.Keys && forall k <- t.asks | k != id :: Settled(t, u, now, k)
  }

  /** After any run, an answer is recorded if and only if the ask is there, pending and not yet
      due: then its row holds the choice and the moment, and its log has gained just that event.
      An ask answered before gets its own choice and moment, any other is gone. */
  lemma AnswerIff(ops: seq<Op>, plan: int -> int, v: World, id: AskId, choice: string, now: int)
    requires Run(START, ops, plan, v)
    ensures WasAnswered(v.t, id) ==> v.t.asks[id].choice.Some? && v.t.asks[id].answered.Some?
    ensures Answer(v.t, id, choice, now).1 ==
      if Open(v.t, id, now) then Recorded(choice, now)
      else if WasAnswered(v.t, id) then Already(v.t.asks[id].choice.value, v.t.asks[id].answered.value)
      else Gone
    ensures
      var u := Answer(v.t, id, choice, now).0;
      && SettledBut(v.t, u, now, id) && u.events.Keys == v.t.asks.Keys
      && (id in v.t.asks && !Open(v.t, id, now) ==> Settled(v.t, u, now, id))
      && (Open(v.t, id, now) ==>
            && u.asks[id] == v.t.asks[id].(status := Answered, choice := Some(choice), answered := Some(now))
            && u.events[id] == v.t.events[id] + [Event(AnsweredEvent, now, Some(choice))])
  {
    LogsMatchRows(ops, plan, v);
    if id in v.t.asks {
      assert LogTells(v.t.asks[id], v.t.events[id]);
    }
    AnswerHere(v.t, id, choice, now);
    forall k <- v.t.asks | k != id || !Open(v.t, id, now)
      ensures Settled(v.t, Answer(v.t, id, choice, now).0, now, k)
    {
      AnswerSettles(v.t, id, choice, now, k);
    }
  }

  lemma AnswerHere(t: Tables, id: AskId, choice: string, now: int)
    requires t.asks.Keys == t.events.Keys
    requires WasAnswered(t, id) ==> t.asks[id].choice.Some? && t.asks[id].answered.Some?
    ensures Answer(t, id, choice, now).1 ==
      if Open(t, id, now) then Recorded(choice, now)
      else if WasAnswered(t, id) then Already(t.asks[id].choice.value, t.asks[id].answered.value)
      else Gone
    ensures Answer(t, id, choice, now).0.asks.Keys == Answer(t, id, choice, now).0.events.Keys == t.asks.Keys
    ensures Open(t, id, now) ==>
      var u := Answer(t, id, choice, now).0;
      && u.asks[id] == t.asks[id].(status := Answered, choice := Some(choice), answered := Some(now))
      && u.events[id] == t.events[id] + [Event(AnsweredEvent, now, Some(choice))]
  {
  }

  lemma AnswerSettles(t: Tables, id: AskId, choice: string, now: int, k: AskId)
    requires t.asks.Keys == t.events.Keys && k in t.asks
    requires k != id || !Open(t, id, now)
    ensures Settled(t, Answer(t, id, choice, now).0, now, k)
  {
    LapseSettles(t, now, k);
  }

  /** The asks of a tenant that are still waiting. */
  function Waiting(t: Tables, tenant: int, now: int): set<AskId> {
    set i | i in t.asks && t.asks[i].tenant == tenant && t.asks[i].status == Pending && now < t.asks[i].expires
  }

  /** After any run, a new ask is taken if and only if fewer than `openMax` of its tenant's are
      waiting; then it is there, pending, with its one event. The other asks are settled, and
      those of more than thirty days ago are gone. */
  lemma CreateIff(ops: seq<Op>, plan: int -> int, v: World, tenant: int, id: AskId, options: seq<string>, ttl: int,
                  now: int, openMax: int)
    requires Run(START, ops, plan, v) && id !in v.t.asks
    ensures
      var u := Created(v.t, tenant, id, options, ttl, now, openMax);
      && u.asks.Keys == u.events.Keys && u.asks.Keys <= v.t.asks.Keys + {id}
      && (id in u.asks <==> |Waiting(v.t, tenant, now)| < openMax)
      && (id in u.asks ==>
            && u.asks[id] == Ask(tenant, options, Pending, None, now, now + ttl, None, Link)
            && u.events[id] == [Event(CreatedEvent, now, None)])
      && forall k <- v.t.asks ::
           if v.t.asks[k].expires < now - 2_592_000 then k !in u.asks else Settled(v.t, u, now, k)
  {
    ReadsSettled(ops, plan, v, now);
    LogsMatchRows(ops, plan, v);
    assert OpenAsks(Tidy(v.t, now), tenant) == Waiting(v.t, tenant, now) by {
      OpenIsWaiting(v.t, tenant, now);
    }
    var u := Created(v.t, tenant, id, options, ttl, now, openMax);
    forall k <- v.t.asks
      ensures if v.t.asks[k].expires < now - 2_592_000 then k !in u.asks else Settled(v.t, u, now, k)
    {
      assert Settled(v.t, Lapse(v.t, now), now, k);
    }
  }

  lemma OpenIsWaiting(t: Tables, tenant: int, now: int)
    ensures OpenAsks(Tidy(t, now), tenant) == Waiting(t, tenant, now)
  {
  }

  /** A question the client answered itself is there, decided, with both its events; every other
      ask is as it was. */
  lemma ElicitIs(t: Tables, tenant: int, id: AskId, choice: string, now: int)
    requires id !in t.asks && t.asks.Keys == t.events.Keys
    ensures
      var u := Elicited(t, tenant, id, choice, now);
      && u.asks.Keys == u.events.Keys == t.asks.Keys + {id}
      && u.asks[id] == Ask(tenant, [], Answered, Some(choice), now, now, Some(now), Client)
      && u.events[id] == [Event(CreatedEvent, now, None), Event(AnsweredEvent, now, Some(choice))]
      && forall k <- t.asks :: u.asks[k] == t.asks[k] && u.events[k] == t.events[k]
  {
  }

  /** `id` is taken, and its ask decided if it is still there. */
  predicate Decided(w: World, id: AskId) {
    && id in w.used
    && w.t.asks.Keys == w.t.events.Keys
    && (id in w.t.asks ==> w.t.asks[id].status != Pending)
  }

  lemma DecidedStep(w: World, op: Op, plan: int -> int, id: AskId)
    requires Decided(w, id) && CanDo(w, op)
    ensures Decided(Do(w, op, plan), id)
    ensures id in Do(w, op, plan).t.asks ==>
      && id in w.t.asks
      && Do(w, op, plan).t.asks[id] == w.t.asks[id]
      && Do(w, op, plan).t.events[id] == w.t.events[id]
  {
  }

  /** A decided ask keeps its row and its log for as long as it is there, and an id
      that is gone never comes back. */
  lemma {:induction false} DecidedForGood(w: World, ops: seq<Op>, plan: int -> int, v: World, id: AskId)
    requires Decided(w, id) && Run(w, ops, plan, v)
    ensures Decided(v, id)
    ensures id in v.t.asks ==>
      id in w.t.asks && v.t.asks[id] == w.t.asks[id] && v.t.events[id] == w.t.events[id]
    decreases |ops|
  {
    if ops != [] {
      DecidedStep(w, ops[0], plan, id);
      DecidedForGood(Do(w, ops[0], plan), ops[1..], plan, v, id);
    }
  }

  /** Pruning, run as the handlers run it, takes no ask that is still pending: what an
      operation removes was decided, or had lapsed at least the retention time ago. */
  lemma PruneSparesPending(t: Tables, now: int, id: AskId)
    requires id in t.asks
    ensures id in Lapse(t, now).asks && Lapse(t, now).asks[id].status == Pending ==>
      id in Tidy(t, now).asks && Tidy(t, now).asks[id] == t.asks[id]
    ensures id !in Tidy(t, now).asks <==> t.asks[id].expires < now - RETENTION_DAYS * SECONDS_A_DAY
    ensures id !in Tidy(t, now).asks ==> Lapse(t, now).asks[id].status != Pending
  {
  }
}
