/** The wake-up protocol of `host.ask.wait`: waiters, the map of notifiers, and the answering handlers. */
module AskWake {
  import opened Wrappers

  // Every lock-protected section, database call and await point is one step, so a run is one interleaving. The
  // map of notifiers is the class Registry; the whole process is the state machine State with its steps.

  type AskId = string

  /** A notifier is named by its position in the list of all notifiers ever made;
      `made[n]` is the ask it was made for. */
  type Notifier = nat

  // ---- the map of notifiers ---------------------------------------------------

  datatype Table = Table(entries: map<AskId, Notifier>, made: seq<AskId>)

  /** The entry of `id`, made on the spot when there is none. */
  function Hook(t: Table, id: AskId): (r: (Table, Notifier))
    ensures id in r.0.entries && r.0.entries[id] == r.1
    ensures id in t.entries ==> r.0 == t
    ensures id !in t.entries ==> r.1 == |t.made| && r.0.made == t.made + [id]
  {
    if id in t.entries then (t, t.entries[id])
    else (Table(t.entries[id := |t.made|], t.made + [id]), |t.made|)
  }

  function Forget(t: Table, id: AskId): Table {
    t.(entries := t.entries - {id})
  }

  function Entry(t: Table, id: AskId): Option<Notifier> {
    if id in t.entries then Some(t.entries[id]) else None
  }

  /** The shared map itself. Its three operations are the lock-protected sections
      of the protocol, and each does to the table exactly what its step does. */
  class Registry {
    var entries: map<AskId, Notifier>
    var made: seq<AskId>

    function Contents(): Table
      reads this
    {
      Table(entries, made)
    }

    constructor ()
      ensures Contents() == Table(map[], [])
    {
      entries, made := map[], [];
    }

    method Obtain(id: AskId) returns (n: Notifier)
      modifies this
      ensures (Contents(), n) == Hook(old(Contents()), id)
    {
      if id !in entries {
        entries := entries[id := |made|];
        made := made + [id];
      }
      n := entries[id];
    }

    method Unhook(id: AskId) returns (removed: Option<Notifier>)
      modifies this
      ensures removed == Entry(old(Contents()), id)
      ensures Contents() == Forget(old(Contents()), id)
    {
      removed := if id in entries then Some(entries[id]) else None;
      entries := entries - {id};
    }

    /** `count` is how many references to the caller's notifier exist: the map's
        copy, every waiter's, and a handler's that is about to notify. */
    method Release(id: AskId, count: nat)
      modifies this
      ensures Contents() == if count <= 2 then Forget(old(Contents()), id) else old(Contents())
    {
      if count <= 2 {
        entries := entries - {id};
      }
    }
  }

  // ---- the process --------------------------------------------------------------

  datatype Status = Pending | Answered(handler: nat) | AnsweredElsewhere | Expired

  /** Where a waiter stands. `woken` is the permit of the armed future. */
  datatype WaitPc =
    | Looping                   // holds its notifier, about to arm
    | Armed(woken: bool)        // armed, about to read the row
    | Unanswered(woken: bool)   // the row read pending, the deadline is next
    | Asleep(woken: bool)       // blocked until woken or the nap ends
    | Leaving                   // out of the loop, about to release
    | Dropping                  // the map's lock let go, the reference not yet
    | Returned

  datatype Waiter = Waiter(ask: AskId, mine: Notifier, pc: WaitPc)

  datatype AnswerPc =
    | Submitting
    | Committed                          // this handler's choice is recorded
    | Unhooked(held: Option<Notifier>)   // entry taken out, not yet notified
    | Replied(recorded: bool)

  datatype Handler = Handler(ask: AskId, pc: AnswerPc)

  datatype State = State(
    rows: map<AskId, Status>,
    table: Table,
    waiters: map<nat, Waiter>,
    handlers: map<nat, Handler>)

  function Holders(s: State, n: Notifier): set<nat> {
    set w | w in s.waiters && s.waiters[w].pc != Returned && s.waiters[w].mine == n
  }

  function HandlerHolders(s: State, n: Notifier): set<nat> {
    set h | h in s.handlers && s.handlers[h].pc == Unhooked(Some(n))
  }

  /** The reference count of a notifier. */
  function StrongCount(s: State, n: Notifier): nat {
    |Holders(s, n)| + |HandlerHolders(s, n)| + (if n in s.table.entries.Values then 1 else 0)
  }

  datatype Step =
    | CreateAsk(id: AskId)
    | ExpireAsk(id: AskId)
    | AnswerOutside(id: AskId)          // another process records the answer
    | StartWait(w: nat, id: AskId)
    | Arm(w: nat)
    | ReadRow(w: nat)
    | PastDeadline(w: nat)
    | Nap(w: nat)
    | Wake(w: nat)
    | NapOver(w: nat)
    | Release(w: nat)
    | DropRef(w: nat)
    | Cancel(w: nat)                    // the request goes away at an await point
    | Submit(h: nat, id: AskId)
    | Commit(h: nat)
    | TakeEntry(h: nat)
    | NotifyAll(h: nat)

  predicate CanDo(s: State, step: Step) {
    match step
    case CreateAsk(id) => id !in s.rows
    case ExpireAsk(id) => id in s.rows && s.rows[id] == Pending
    case AnswerOutside(id) => id in s.rows && s.rows[id] == Pending
    case StartWait(w, id) => w !in s.waiters
    case Arm(w) => w in s.waiters && s.waiters[w].pc == Looping
    case ReadRow(w) => w in s.waiters && s.waiters[w].pc.Armed?
    case PastDeadline(w) => w in s.waiters && s.waiters[w].pc.Unanswered?
    case Nap(w) => w in s.waiters && s.waiters[w].pc.Unanswered?
    case Wake(w) => w in s.waiters && s.waiters[w].pc == Asleep(true)
    case NapOver(w) => w in s.waiters && s.waiters[w].pc.Asleep?
    case Release(w) => w in s.waiters && s.waiters[w].pc == Leaving
    case DropRef(w) => w in s.waiters && s.waiters[w].pc == Dropping
    case Cancel(w) => w in s.waiters && (s.waiters[w].pc.Armed? || s.waiters[w].pc.Asleep?)
    case Submit(h, id) => h !in s.handlers
    case Commit(h) => h in s.handlers && s.handlers[h].pc == Submitting
    case TakeEntry(h) => h in s.handlers && s.handlers[h].pc == Committed
    case NotifyAll(h) => h in s.handlers && s.handlers[h].pc.Unhooked?
  }

  function Move(s: State, w: nat, pc: WaitPc): State
    requires w in s.waiters
  {
    s.(waiters := s.waiters[w := s.waiters[w].(pc := pc)])
  }

  function MoveHandler(s: State, h: nat, pc: AnswerPc): State
    requires h in s.handlers
  {
    s.(handlers := s.handlers[h := s.handlers[h].(pc := pc)])
  }

  /** What `notify_waiters` does to one waiter: every armed future gets its permit. */
  function Notified(pc: WaitPc): WaitPc {
    match pc
    case Armed(_) => Armed(true)
    case Unanswered(_) => Unanswered(true)
    case Asleep(_) => Asleep(true)
    case _ => pc
  }

  function NotifyOn(waiters: map<nat, Waiter>, held: Option<Notifier>): map<nat, Waiter> {
    map w | w in waiters ::
      if held == Some(waiters[w].mine) then waiters[w].(pc := Notified(waiters[w].pc)) else waiters[w]
  }

  function Do(s: State, step: Step): State
    requires CanDo(s, step)
  {
    match step
    case CreateAsk(id) => s.(rows := s.rows[id := Pending])
    case ExpireAsk(id) => s.(rows := s.rows[id := Expired])
    case AnswerOutside(id) => s.(rows := s.rows[id := AnsweredElsewhere])
    case StartWait(w, id) =>
      var (t, n) := Hook(s.table, id);
      s.(table := t, waiters := s.waiters[w := Waiter(id, n, Looping)])
    case Arm(w) => Move(s, w, Armed(false))
    case ReadRow(w) =>
      var id := s.waiters[w].ask;
      if id in s.rows && s.rows[id] == Pending
      then Move(s, w, Unanswered(s.waiters[w].pc.woken))
      else Move(s, w, Leaving)
    case PastDeadline(w) => Move(s, w, Leaving)
    case Nap(w) => Move(s, w, Asleep(s.waiters[w].pc.woken))
    case Wake(w) => Move(s, w, Looping)
    case NapOver(w) => Move(s, w, Looping)
    case Release(w) =>
      var s' := Move(s, w, Dropping);
      if StrongCount(s, s.waiters[w].mine) <= 2
      then s'.(table := Forget(s.table, s.waiters[w].ask))
      else s'
    case DropRef(w) => Move(s, w, Returned)
    case Cancel(w) => Move(s, w, Returned)
    case Submit(h, id) => s.(handlers := s.handlers[h := Handler(id, Submitting)])
    case Commit(h) =>
      var id := s.handlers[h].ask;
      if id in s.rows && s.rows[id] == Pending
      then MoveHandler(s, h, Committed).(rows := s.rows[id := Answered(h)])
      else MoveHandler(s, h, Replied(false))
    case TakeEntry(h) =>
      var id := s.handlers[h].ask;
      MoveHandler(s, h, Unhooked(Entry(s.table, id))).(table := Forget(s.table, id))
    case NotifyAll(h) =>
      MoveHandler(s, h, Replied(true)).(waiters := NotifyOn(s.waiters, s.handlers[h].pc.held))
  }

  /** A process that has just started: rows may be left from an earlier one. */
  predicate Init(s: State) {
    && s.table == Table(map[], [])
    && s.waiters == map[]
    && s.handlers == map[]
    && forall id <- s.rows :: !s.rows[id].Answered?
  }

  predicate Run(s: State, steps: seq<Step>, t: State)
    decreases |steps|
  {
    if steps == [] then s == t
    else CanDo(s, steps[0]) && Run(Do(s, steps[0]), steps[1..], t)
  }

  // ---- what every step keeps -----------------------------------------------------

  predicate InLoop(pc: WaitPc) {
    pc.Looping? || pc.Armed? || pc.Unanswered? || pc.Asleep?
  }

  /** A handler of this process recorded the answer and took the entry out. */
  predicate TakenOut(s: State, id: AskId) {
    && id in s.rows && s.rows[id].Answered?
    && s.rows[id].handler in s.handlers
    && var pc := s.handlers[s.rows[id].handler].pc;
       pc.Unhooked? || pc.Replied?
  }

  /** Has read the row pending and may sleep on a permit nobody has given. */
  predicate Stranded(w: Waiter) {
    w.pc == Unanswered(false) || w.pc == Asleep(false)
  }

  predicate TableFits(s: State) {
    && (forall id <- s.table.entries ::
          s.table.entries[id] < |s.table.made| && s.table.made[s.table.entries[id]] == id)
    && (forall w <- s.waiters ::
          s.waiters[w].mine < |s.table.made| && s.table.made[s.waiters[w].mine] == s.waiters[w].ask)
    && (forall h <- s.handlers | s.handlers[h].pc.Unhooked? && s.handlers[h].pc.held.Some? ::
          var n := s.handlers[h].pc.held.value;
          n < |s.table.made| && s.table.made[n] == s.handlers[h].ask)
  }

  /** Until a handler takes it out, the entry is every waiter's own notifier, from
      obtaining it to the moment of releasing it. */
  predicate HoldsEntry(s: State) {
    forall w <- s.waiters |
      (InLoop(s.waiters[w].pc) || s.waiters[w].pc == Leaving) && !TakenOut(s, s.waiters[w].ask) ::
      Entry(s.table, s.waiters[w].ask) == Some(s.waiters[w].mine)
  }

  /** Whoever could be stranded is still within reach of the recording handler,
      and nobody is once that handler has replied. */
  predicate WithinReach(s: State, h: nat)
    requires h in s.handlers
  {
    forall w <- s.waiters | s.waiters[w].ask == s.handlers[h].ask && Stranded(s.waiters[w]) ::
      match s.handlers[h].pc
      case Unhooked(held) => held == Some(s.waiters[w].mine)
      case Replied(recorded) => !recorded
      case _ => true
  }

  predicate Recorder(s: State, h: nat)
    requires h in s.handlers
  {
    s.handlers[h].pc == Committed || s.handlers[h].pc.Unhooked? || s.handlers[h].pc == Replied(true)
  }

  predicate RecorderNamed(s: State) {
    && (forall h <- s.handlers | Recorder(s, h) ::
          s.handlers[h].ask in s.rows && s.rows[s.handlers[h].ask] == Answered(h))
    && (forall id <- s.rows | s.rows[id].Answered? ::
          && s.rows[id].handler in s.handlers && Recorder(s, s.rows[id].handler)
          && s.handlers[s.rows[id].handler].ask == id)
  }

  predicate Inv(s: State) {
    && TableFits(s)
    && HoldsEntry(s)
    && RecorderNamed(s)
    && forall h <- s.handlers :: WithinReach(s, h)
  }

  lemma InitInv(s: State)
    requires Init(s)
    ensures Inv(s)
  {
  }

  /** Two different holders and the map's copy make three references. */
  lemma SharedEntryCounts(s: State, w: nat, v: nat)
    requires w in s.waiters && v in s.waiters && w != v
    requires s.waiters[w].pc != Returned && s.waiters[v].pc != Returned
    requires s.waiters[w].mine == s.waiters[v].mine
    requires Entry(s.table, s.waiters[w].ask) == Some(s.waiters[w].mine)
    ensures StrongCount(s, s.waiters[w].mine) >= 3
  {
    var n := s.waiters[w].mine;
    assert {w, v} <= Holders(s, n);
    SubsetSize({w, v}, Holders(s, n));
    assert s.table.entries[s.waiters[w].ask] in s.table.entries.Values;
  }

  lemma StepInv(s: State, step: Step)
    requires Inv(s) && CanDo(s, step)
    ensures Inv(Do(s, step))
  {
    match step
    case CreateAsk(id) => RowInv(s, id, Pending);
    case ExpireAsk(id) => RowInv(s, id, Expired);
    case AnswerOutside(id) => RowInv(s, id, AnsweredElsewhere);
    case StartWait(w, id) => StartWaitInv(s, w, id);
    case Arm(w) => MoveInv(s, w, Armed(false));
    case ReadRow(w) => ReadRowInv(s, w);
    case PastDeadline(w) => MoveInv(s, w, Leaving);
    case Nap(w) => MoveInv(s, w, Asleep(s.waiters[w].pc.woken));
    case Wake(w) => MoveInv(s, w, Looping);
    case NapOver(w) => MoveInv(s, w, Looping);
    case Release(w) => ReleaseInv(s, w);
    case DropRef(w) => MoveInv(s, w, Returned);
    case Cancel(w) => MoveInv(s, w, Returned);
    case Submit(h, id) => SubmitInv(s, h, id);
    case Commit(h) => CommitInv(s, h);
    case TakeEntry(h) => TakeEntryInv(s, h);
    case NotifyAll(h) => NotifyAllInv(s, h);
  }

  /** What the rest of the world does to a row changes nothing else. */
  lemma RowSteps(s: State, id: AskId)
    ensures id !in s.rows ==> Do(s, CreateAsk(id)) == s.(rows := s.rows[id := Pending])
    ensures id in s.rows && s.rows[id] == Pending ==>
      && Do(s, ExpireAsk(id)) == s.(rows := s.rows[id := Expired])
      && Do(s, AnswerOutside(id)) == s.(rows := s.rows[id := AnsweredElsewhere])
  {
  }

  lemma RowInv(s: State, id: AskId, status: Status)
    requires Inv(s) && !status.Answered?
    requires id in s.rows ==> s.rows[id] == Pending
    ensures Inv(s.(rows := s.rows[id := status]))
  {
    var s' := s.(rows := s.rows[id := status]);
    forall i ensures TakenOut(s', i) == TakenOut(s, i) {
    }
    forall h <- s'.handlers ensures WithinReach(s', h) {
      assert WithinReach(s, h);
    }
  }

  lemma StartWaitInv(s: State, w: nat, id: AskId)
    requires Inv(s) && CanDo(s, StartWait(w, id))
    ensures Inv(Do(s, StartWait(w, id)))
  {
    var s' := Do(s, StartWait(w, id));
    assert TableFits(s');
    forall i ensures TakenOut(s', i) == TakenOut(s, i) {
    }
    forall h <- s'.handlers ensures WithinReach(s', h) {
      assert WithinReach(s, h);
    }
  }

  /** Moving one waiter keeps the invariant when it enters neither the loop nor, without
      a permit, a state it can be stranded in. */
  lemma MoveInv(s: State, w: nat, pc: WaitPc)
    requires Inv(s) && w in s.waiters
    requires InLoop(pc) || pc == Leaving ==> InLoop(s.waiters[w].pc) || s.waiters[w].pc == Leaving
    requires Stranded(s.waiters[w].(pc := pc)) ==>
      Stranded(s.waiters[w]) || (s.waiters[w].ask in s.rows && s.rows[s.waiters[w].ask] == Pending)
    ensures Inv(Move(s, w, pc))
  {
    var s' := Move(s, w, pc);
    forall i ensures TakenOut(s', i) == TakenOut(s, i) {
    }
    assert HoldsEntry(s');
    forall h <- s'.handlers ensures WithinReach(s', h) {
      assert WithinReach(s, h);
      assert Recorder(s, h) ==> s.rows[s.handlers[h].ask] == Answered(h);
    }
  }

  lemma ReadRowInv(s: State, w: nat)
    requires Inv(s) && CanDo(s, ReadRow(w))
    ensures Inv(Do(s, ReadRow(w)))
  {
    MoveInv(s, w, Leaving);
    if s.waiters[w].ask in s.rows && s.rows[s.waiters[w].ask] == Pending {
      MoveInv(s, w, Unanswered(s.waiters[w].pc.woken));
    }
  }

  lemma ReleaseInv(s: State, w: nat)
    requires Inv(s) && CanDo(s, Release(w))
    ensures Inv(Do(s, Release(w)))
  {
    MoveInv(s, w, Dropping);
    var id := s.waiters[w].ask;
    if StrongCount(s, s.waiters[w].mine) <= 2 {
      var s1 := Move(s, w, Dropping);
      forall v <- s1.waiters |
        s1.waiters[v].ask == id && (InLoop(s1.waiters[v].pc) || s1.waiters[v].pc == Leaving)
        ensures TakenOut(s1, id)
      {
        if !TakenOut(s, id) {
          SharedEntryCounts(s, w, v);
        }
      }
      ForgetInv(s1, id);
    }
  }

  /** An entry may go when no waiter that still counts on it is left. */
  lemma ForgetInv(s: State, id: AskId)
    requires Inv(s)
    requires forall v <- s.waiters |
      s.waiters[v].ask == id && (InLoop(s.waiters[v].pc) || s.waiters[v].pc == Leaving) :: TakenOut(s, id)
    ensures Inv(s.(table := Forget(s.table, id)))
  {
    var s' := s.(table := Forget(s.table, id));
    forall i ensures TakenOut(s', i) == TakenOut(s, i) {
    }
    forall h <- s'.handlers ensures WithinReach(s', h) {
      assert WithinReach(s, h);
    }
  }

  lemma SubmitInv(s: State, h: nat, id: AskId)
    requires Inv(s) && CanDo(s, Submit(h, id))
    ensures Inv(Do(s, Submit(h, id)))
  {
    var s' := Do(s, Submit(h, id));
    forall i ensures TakenOut(s', i) == TakenOut(s, i) {
    }
    forall k <- s'.handlers ensures WithinReach(s', k) {
      assert k != h ==> WithinReach(s, k);
    }
  }

  lemma CommitInv(s: State, h: nat)
    requires Inv(s) && CanDo(s, Commit(h))
    ensures Inv(Do(s, Commit(h)))
  {
    var s' := Do(s, Commit(h));
    forall i ensures TakenOut(s', i) == TakenOut(s, i) {
      CommitTakes(s, h, i);
    }
    CommitNames(s, h);
    forall k <- s'.handlers ensures WithinReach(s', k) {
      CommitReach(s, h, k);
    }
    assert TableFits(s') && HoldsEntry(s');
  }

  lemma CommitReach(s: State, h: nat, k: nat)
    requires CanDo(s, Commit(h)) && k in s.handlers && WithinReach(s, k)
    ensures WithinReach(Do(s, Commit(h)), k)
  {
  }

  lemma CommitTakes(s: State, h: nat, id: AskId)
    requires RecorderNamed(s) && CanDo(s, Commit(h))
    ensures TakenOut(Do(s, Commit(h)), id) == TakenOut(s, id)
  {
  }

  lemma CommitNames(s: State, h: nat)
    requires RecorderNamed(s) && CanDo(s, Commit(h))
    ensures RecorderNamed(Do(s, Commit(h)))
  {
    var s' := Do(s, Commit(h));
    forall k <- s'.handlers | k != h ensures Recorder(s', k) == Recorder(s, k) {
    }
  }

  lemma TakeEntryInv(s: State, h: nat)
    requires Inv(s) && CanDo(s, TakeEntry(h))
    ensures Inv(Do(s, TakeEntry(h)))
  {
    var s' := Do(s, TakeEntry(h));
    var id := s.handlers[h].ask;
    assert Recorder(s, h);
    assert !TakenOut(s, id) && TakenOut(s', id);
    forall i | i != id ensures TakenOut(s', i) == TakenOut(s, i) {
    }
    assert RecorderNamed(s');
    forall k <- s'.handlers ensures WithinReach(s', k) {
      assert WithinReach(s, k);
    }
  }

  lemma NotifyAllInv(s: State, h: nat)
    requires Inv(s) && CanDo(s, NotifyAll(h))
    ensures Inv(Do(s, NotifyAll(h)))
  {
    var s' := Do(s, NotifyAll(h));
    assert Recorder(s, h) && Recorder(s', h);
    forall i ensures TakenOut(s', i) == TakenOut(s, i) {
    }
    assert RecorderNamed(s');
    forall k <- s'.handlers ensures WithinReach(s', k) {
      NotifyAllReach(s, h, k);
    }
  }

  /** Notifying gives a permit to every waiter of the notifier that has armed its future, and
      touches nobody else. */
  lemma NotifyReaches(s: State, h: nat, w: nat)
    requires CanDo(s, NotifyAll(h)) && w in s.waiters
    ensures
      var t := Do(s, NotifyAll(h));
      && t.waiters.Keys == s.waiters.Keys && t.rows == s.rows && t.table == s.table
      && t.waiters[w].ask == s.waiters[w].ask && t.waiters[w].mine == s.waiters[w].mine
      && var was, now := s.waiters[w].pc, t.waiters[w].pc;
         if s.handlers[h].pc.held == Some(s.waiters[w].mine) && (was.Armed? || was.Unanswered? || was.Asleep?) then
           (was.Armed? ==> now == Armed(true)) && (was.Unanswered? ==> now == Unanswered(true))
           && (was.Asleep? ==> now == Asleep(true))
         else now == was
  {
  }

  lemma NotifyAllReach(s: State, h: nat, k: nat)
    requires CanDo(s, NotifyAll(h)) && k in s.handlers && WithinReach(s, k)
    ensures WithinReach(Do(s, NotifyAll(h)), k)
  {
  }

  lemma {:induction false} RunInv(s: State, steps: seq<Step>, t: State)
    requires Inv(s) && Run(s, steps, t)
    ensures Inv(t)
    decreases |steps|
  {
    if steps != [] {
      StepInv(s, steps[0]);
      RunInv(Do(s, steps[0]), steps[1..], t);
    }
  }

  // ---- no wake-up is lost ----------------------------------------------------------

  /** In every interleaving: a waiter in the loop of a still unanswered ask holds the
      notifier the answering handler will find, and once a recording handler has
      replied no waiter of its ask is asleep, or bound to sleep, without its permit. */
  lemma NoLostWakeUp(s: State, steps: seq<Step>, t: State)
    requires Init(s) && Run(s, steps, t)
    ensures forall w <- t.waiters | InLoop(t.waiters[w].pc) ::
      (t.waiters[w].ask in t.rows ==> t.rows[t.waiters[w].ask] == Pending)
      ==> Entry(t.table, t.waiters[w].ask) == Some(t.waiters[w].mine)
    ensures forall h <- t.handlers, w <- t.waiters |
      t.handlers[h].pc == Replied(true) && t.waiters[w].ask == t.handlers[h].ask ::
      t.waiters[w].pc != Asleep(false) && t.waiters[w].pc != Unanswered(false)
  {
    InitInv(s);
    RunInv(s, steps, t);
    forall h <- t.handlers, w <- t.waiters |
      t.handlers[h].pc == Replied(true) && t.waiters[w].ask == t.handlers[h].ask
      ensures !Stranded(t.waiters[w])
    {
      assert WithinReach(t, h);
    }
  }

  /** How many steps of its own a waiter of an answered ask still needs. */
  function StepsLeft(pc: WaitPc): nat {
    match pc
    case Unanswered(_) => 6
    case Asleep(_) => 5
    case Looping => 4
    case Armed(_) => 3
    case Leaving => 2
    case Dropping => 1
    case Returned => 0
  }

  predicate Own(step: Step, w: nat) {
    step in {Arm(w), ReadRow(w), PastDeadline(w), Nap(w), Wake(w), NapOver(w), Release(w), DropRef(w), Cancel(w)}
  }

  function OwnSteps(steps: seq<Step>, w: nat): nat {
    if steps == [] then 0 else (if Own(steps[0], w) then 1 else 0) + OwnSteps(steps[1..], w)
  }

  /** The ask is answered by a handler that has replied. */
  predicate Woken(s: State, id: AskId) {
    exists h <- s.handlers :: s.handlers[h] == Handler(id, Replied(true))
  }

  /** The waiter's next step that waits for no clock and no other party. */
  function NextStep(pc: WaitPc, w: nat): Step {
    match pc
    case Looping => Arm(w)
    case Armed(_) => ReadRow(w)
    case Unanswered(_) => Nap(w)
    case Asleep(_) => Wake(w)
    case Leaving => Release(w)
    case _ => DropRef(w)
  }

  /** A step that is not the waiter's own leaves it where it is, permit aside. */
  lemma OthersStep(s: State, step: Step, w: nat)
    requires CanDo(s, step) && w in s.waiters && !Own(step, w)
    ensures w in Do(s, step).waiters
    ensures var v := Do(s, step).waiters[w];
      v == s.waiters[w] || v == s.waiters[w].(pc := Notified(s.waiters[w].pc))
  {
  }

  lemma OwnStep(s: State, step: Step, w: nat)
    requires CanDo(s, step) && w in s.waiters && Own(step, w)
    requires s.waiters[w].ask in s.rows && s.rows[s.waiters[w].ask] != Pending
    ensures w in Do(s, step).waiters && Do(s, step).waiters[w].ask == s.waiters[w].ask
    ensures StepsLeft(Do(s, step).waiters[w].pc) < StepsLeft(s.waiters[w].pc)
  {
  }

  lemma RepliedStays(s: State, step: Step, h: nat, id: AskId)
    requires CanDo(s, step)
    requires h in s.handlers && s.handlers[h] == Handler(id, Replied(true))
    ensures h in Do(s, step).handlers && Do(s, step).handlers[h] == Handler(id, Replied(true))
    ensures Woken(Do(s, step), id)
  {
  }

  lemma WokenFacts(s: State, w: nat)
    requires Inv(s) && w in s.waiters && Woken(s, s.waiters[w].ask)
    ensures s.waiters[w].ask in s.rows && s.rows[s.waiters[w].ask] != Pending
    ensures !Stranded(s.waiters[w])
  {
    var h :| h in s.handlers && s.handlers[h] == Handler(s.waiters[w].ask, Replied(true));
    assert Recorder(s, h) && WithinReach(s, h);
  }

  lemma WokenStep(s: State, step: Step, w: nat)
    requires Inv(s) && CanDo(s, step)
    requires w in s.waiters && Woken(s, s.waiters[w].ask)
    ensures w in Do(s, step).waiters && Woken(Do(s, step), Do(s, step).waiters[w].ask)
    ensures StepsLeft(Do(s, step).waiters[w].pc) + (if Own(step, w) then 1 else 0) <= StepsLeft(s.waiters[w].pc)
  {
    WokenFacts(s, w);
    var h :| h in s.handlers && s.handlers[h] == Handler(s.waiters[w].ask, Replied(true));
    RepliedStays(s, step, h, s.waiters[w].ask);
    if Own(step, w) {
      OwnStep(s, step, w);
    } else {
      OthersStep(s, step, w);
    }
  }

  lemma {:induction false} WokenRun(s: State, steps: seq<Step>, t: State, w: nat)
    requires Inv(s) && Run(s, steps, t)
    requires w in s.waiters && Woken(s, s.waiters[w].ask)
    ensures Inv(t) && w in t.waiters && Woken(t, t.waiters[w].ask)
    ensures OwnSteps(steps, w) + StepsLeft(t.waiters[w].pc) <= StepsLeft(s.waiters[w].pc)
    decreases |steps|
  {
    if steps != [] {
      var s1, rest := Do(s, steps[0]), steps[1..];
      assert Run(s1, rest, t);
      assert Inv(s1) by {
        StepInv(s, steps[0]);
      }
      WokenStep(s, steps[0], w);
      WokenRun(s1, rest, t, w);
    }
  }

  /** From the moment the recording handler has replied, a waiter of that ask is never
      stuck: it always has a step that needs neither the timer nor anyone else, and it
      returns within six steps of its own, however the others are interleaved. */
  lemma WokenWaiterReturns(s: State, steps: seq<Step>, t: State, w: nat)
    requires Inv(s) && Run(s, steps, t)
    requires w in s.waiters && Woken(s, s.waiters[w].ask)
    ensures w in t.waiters
    ensures OwnSteps(steps, w) + StepsLeft(t.waiters[w].pc) <= StepsLeft(s.waiters[w].pc) <= 6
    ensures t.waiters[w].pc == Returned || CanDo(t, NextStep(t.waiters[w].pc, w))
  {
    WokenRun(s, steps, t, w);
    WokenFacts(t, w);
    NextStepEnabled(t, w);
  }

  lemma NextStepEnabled(s: State, w: nat)
    requires w in s.waiters && !Stranded(s.waiters[w])
    ensures StepsLeft(s.waiters[w].pc) <= 6
    ensures s.waiters[w].pc == Returned || CanDo(s, NextStep(s.waiters[w].pc, w))
  {
  }

  // ---- when a release forgets the entry ---------------------------------------------

  lemma NoHandlerHolds(s: State, id: AskId, n: Notifier)
    requires Inv(s) && !TakenOut(s, id) && n < |s.table.made| && s.table.made[n] == id
    ensures HandlerHolders(s, n) == {}
  {
    forall h <- s.handlers ensures s.handlers[h].pc != Unhooked(Some(n)) {
      assert Recorder(s, h) ==> s.rows[s.handlers[h].ask] == Answered(h);
    }
  }

  /** Until a handler has taken the entry out, releasing forgets it exactly when nobody
      else still holds it. */
  lemma ReleaseForgetsIff(s: State, w: nat)
    requires Inv(s) && CanDo(s, Release(w)) && !TakenOut(s, s.waiters[w].ask)
    ensures s.waiters[w].ask !in Do(s, Release(w)).table.entries
      <==> Holders(s, s.waiters[w].mine) == {w}
  {
    var n := s.waiters[w].mine;
    NoHandlerHolds(s, s.waiters[w].ask, n);
    assert w in Holders(s, n);
    assert s.table.entries[s.waiters[w].ask] in s.table.entries.Values;
    if |Holders(s, n)| <= 1 {
      assert |Holders(s, n) - {w}| == 0;
    }
  }

  /** A notifier that is not the map's is counted by who holds it: the waiters that have not dropped
      it, and the handlers about to notify on it. */
  lemma UnmappedCount(s: State, w: nat)
    requires Inv(s) && w in s.waiters && Entry(s.table, s.waiters[w].ask) != Some(s.waiters[w].mine)
    ensures var n := s.waiters[w].mine; StrongCount(s, n) == |Holders(s, n)| + |HandlerHolders(s, n)|
  {
    forall id <- s.table.entries ensures s.table.entries[id] != s.waiters[w].mine {
    }
  }

  /** Releasing forgets an entry that another waiter holds exactly when two or fewer still hold the
      leaving one's own, older notifier, and that happens only once the ask is answered. */
  lemma StaleReleaseIff(s: State, w: nat, v: nat)
    requires Inv(s) && CanDo(s, Release(w)) && v != w && v in s.waiters && s.waiters[v].pc != Returned
    requires s.waiters[v].ask == s.waiters[w].ask && Entry(s.table, s.waiters[v].ask) == Some(s.waiters[v].mine)
    ensures
      var n := s.waiters[w].mine;
      s.waiters[w].ask !in Do(s, Release(w)).table.entries <==>
        && n != s.waiters[v].mine
        && |Holders(s, n)| + |HandlerHolders(s, n)| <= 2
    ensures s.waiters[w].ask !in Do(s, Release(w)).table.entries ==> TakenOut(s, s.waiters[w].ask)
  {
    if s.waiters[w].mine == s.waiters[v].mine {
      SharedEntryCounts(s, w, v);
    } else {
      UnmappedCount(s, w);
    }
  }

  // ---- entries that outlive their holders ---------------------------------------------

  /** The states of a run from a process that has just started, one after each step. */
  predicate Trace(ss: seq<State>, steps: seq<Step>) {
    && |ss| == |steps| + 1 && Init(ss[0])
    && forall i | 0 <= i < |steps| :: CanDo(ss[i], steps[i]) && ss[i + 1] == Do(ss[i], steps[i])
  }

  /** Every run has its trace. */
  lemma RunHasTrace(s: State, steps: seq<Step>, t: State) returns (ss: seq<State>)
    requires Init(s) && Run(s, steps, t)
    ensures Trace(ss, steps) && ss[0] == s && ss[|steps|] == t
  {
    ss := [s];
    var u, rest := s, steps;
    for i := 0 to |steps|
      invariant |ss| == i + 1 && ss[0] == s && ss[i] == u && rest == steps[i..] && Run(u, rest, t)
      invariant forall j | 0 <= j < i :: CanDo(ss[j], steps[j]) && ss[j + 1] == Do(ss[j], steps[j])
    {
      assert rest[0] == steps[i];
      u, rest := Do(u, rest[0]), rest[1..];
      ss := ss + [u];
    }
  }

  lemma {:induction false} TraceInv(ss: seq<State>, steps: seq<Step>, k: nat)
    requires Trace(ss, steps) && k <= |steps|
    ensures Inv(ss[k])
  {
    if k == 0 {
      InitInv(ss[0]);
    } else {
      TraceInv(ss, steps, k - 1);
      StepInv(ss[k - 1], steps[k - 1]);
    }
  }

  /** The map has an entry for `id` and no waiter holds it. */
  predicate LeftBehind(s: State, id: AskId) {
    id in s.table.entries && Holders(s, s.table.entries[id]) == {}
  }

  /** The last holder of the entry lets go, with the entry in place. */
  predicate LastLetsGo(s: State, step: Step, w: nat, id: AskId) {
    id in s.table.entries && Holders(s, s.table.entries[id]) == {w} && (step == Cancel(w) || step == DropRef(w))
  }

  /** The step takes the entry out of the map, or obtains it anew. */
  predicate Disturbs(s: State, step: Step, id: AskId)
    requires CanDo(s, step)
  {
    match step
    case StartWait(_, ask) => ask == id
    case TakeEntry(h) => s.handlers[h].ask == id
    case Release(w) => s.waiters[w].ask == id && StrongCount(s, s.waiters[w].mine) <= 2
    case _ => false
  }

  lemma HoldersMove(s: State, w: nat, pc: WaitPc, n: Notifier)
    requires w in s.waiters && s.waiters[w].pc != Returned
    ensures Holders(Move(s, w, pc), n) == if pc == Returned then Holders(s, n) - {w} else Holders(s, n)
  {
  }

  lemma StartWaitLeaves(s: State, w: nat, ask: AskId, id: AskId)
    requires TableFits(s) && CanDo(s, StartWait(w, ask))
    ensures LeftBehind(Do(s, StartWait(w, ask)), id) <==> LeftBehind(s, id) && ask != id
  {
    var t := Do(s, StartWait(w, ask));
    var n := t.table.entries[ask];
    assert w in Holders(t, n);
    if id != ask && id in s.table.entries {
      var m := s.table.entries[id];
      assert m != n;
      assert Holders(t, m) == Holders(s, m);
    }
  }

  /** What one step does to entries nobody holds. */
  lemma LeftBehindStep(s: State, step: Step, id: AskId)
    requires TableFits(s) && CanDo(s, step)
    ensures LeftBehind(Do(s, step), id) <==>
      (LeftBehind(s, id) && !Disturbs(s, step, id)) || exists w :: LastLetsGo(s, step, w, id)
  {
    if step.DropRef? || step.Cancel? {
      LetsGoLeaves(s, step, step.w, id);
      assert forall w | LastLetsGo(s, step, w, id) :: w == step.w;
    } else {
      assert forall w :: !LastLetsGo(s, step, w, id);
      KeepsGrip(s, step, id);
    }
  }

  lemma KeepsGrip(s: State, step: Step, id: AskId)
    requires TableFits(s) && CanDo(s, step) && !step.DropRef? && !step.Cancel?
    ensures LeftBehind(Do(s, step), id) <==> LeftBehind(s, id) && !Disturbs(s, step, id)
  {
    match step
    case StartWait(w, ask) => StartWaitLeaves(s, w, ask, id);
    case Release(w) => ReleaseLeaves(s, w, id);
    case _ => OtherLeaves(s, step, id);
  }

  lemma ReleaseLeaves(s: State, w: nat, id: AskId)
    requires CanDo(s, Release(w))
    ensures LeftBehind(Do(s, Release(w)), id) <==> LeftBehind(s, id) && !Disturbs(s, Release(w), id)
  {
    if id in s.table.entries {
      HoldersMove(s, w, Dropping, s.table.entries[id]);
      assert Do(s, Release(w)).waiters == Move(s, w, Dropping).waiters;
      assert Holders(Do(s, Release(w)), s.table.entries[id]) == Holders(Move(s, w, Dropping), s.table.entries[id]);
    }
  }

  predicate LeavesHolders(step: Step) {
    !step.StartWait? && !step.DropRef? && !step.Cancel? && !step.Release?
  }

  lemma OtherHolders(s: State, step: Step, n: Notifier)
    requires CanDo(s, step) && LeavesHolders(step)
    ensures Holders(Do(s, step), n) == Holders(s, n)
  {
  }

  lemma OtherLeaves(s: State, step: Step, id: AskId)
    requires CanDo(s, step) && LeavesHolders(step)
    ensures LeftBehind(Do(s, step), id) <==> LeftBehind(s, id) && !Disturbs(s, step, id)
  {
    if id in s.table.entries {
      OtherHolders(s, step, s.table.entries[id]);
    }
  }

  lemma LetsGoLeaves(s: State, step: Step, w: nat, id: AskId)
    requires CanDo(s, step) && (step == DropRef(w) || step == Cancel(w))
    ensures LeftBehind(Do(s, step), id) <==> LeftBehind(s, id) || LastLetsGo(s, step, w, id)
  {
    if id in s.table.entries {
      var n := s.table.entries[id];
      HoldersMove(s, w, Returned, n);
      assert Holders(s, n) - {w} == {} <==> Holders(s, n) == {} || Holders(s, n) == {w};
    }
  }

  /** The release that `w` came by still counted a reference besides its own and the map's. */
  predicate ReleasedShared(ss: seq<State>, steps: seq<Step>, k: nat, w: nat)
    requires Trace(ss, steps) && k <= |steps|
  {
    exists r :: 0 <= r < k && steps[r] == Release(w) && StrongCount(ss[r], ss[r].waiters[w].mine) > 2
  }

  /** The only way to be dropping a notifier that is still in the map. */
  lemma KeptByShare(s: State, w: nat)
    requires CanDo(s, Release(w)) && s.waiters[w].ask in Do(s, Release(w)).table.entries
    ensures StrongCount(s, s.waiters[w].mine) > 2
  {
  }

  lemma {:induction false} DroppingWasShared(ss: seq<State>, steps: seq<Step>, k: nat, w: nat)
    requires Trace(ss, steps) && k <= |steps|
    requires w in ss[k].waiters && ss[k].waiters[w].pc == Dropping
    requires Entry(ss[k].table, ss[k].waiters[w].ask) == Some(ss[k].waiters[w].mine)
    ensures ReleasedShared(ss, steps, k, w)
  {
    if k > 0 {
      var s, step := ss[k - 1], steps[k - 1];
      if step == Release(w) {
        assert StrongCount(s, s.waiters[w].mine) > 2 by {
          KeptByShare(s, w);
        }
      } else {
        assert Inv(s) by {
          TraceInv(ss, steps, k - 1);
        }
        StillDropping(s, step, w);
        DroppingWasShared(ss, steps, k - 1, w);
      }
    }
  }

  lemma StillDropping(s: State, step: Step, w: nat)
    requires TableFits(s) && CanDo(s, step) && step != Release(w)
    requires w in Do(s, step).waiters && Do(s, step).waiters[w].pc == Dropping
    requires Entry(Do(s, step).table, Do(s, step).waiters[w].ask) == Some(Do(s, step).waiters[w].mine)
    ensures w in s.waiters && s.waiters[w] == Do(s, step).waiters[w]
    ensures Entry(s.table, s.waiters[w].ask) == Some(s.waiters[w].mine)
  {
    DroppingUnmoved(s, step, w);
    EntryNotNew(s, step, w);
  }

  lemma DroppingUnmoved(s: State, step: Step, w: nat)
    requires CanDo(s, step) && step != Release(w)
    requires w in Do(s, step).waiters && Do(s, step).waiters[w].pc == Dropping
    ensures w in s.waiters && s.waiters[w] == Do(s, step).waiters[w]
  {
  }

  lemma EntryNotNew(s: State, step: Step, w: nat)
    requires TableFits(s) && CanDo(s, step) && w in s.waiters
    requires Entry(Do(s, step).table, s.waiters[w].ask) == Some(s.waiters[w].mine)
    ensures Entry(s.table, s.waiters[w].ask) == Some(s.waiters[w].mine)
  {
    if !step.StartWait? {
      EntriesOnlyGo(s, step);
    }
  }

  lemma EntriesOnlyGo(s: State, step: Step)
    requires CanDo(s, step) && !step.StartWait?
    ensures forall id <- Do(s, step).table.entries ::
      id in s.table.entries && s.table.entries[id] == Do(s, step).table.entries[id]
  {
  }

  /** The last holder left at step `j`: its request went away, or its release had counted
      another reference. */
  predicate LeftAt(ss: seq<State>, steps: seq<Step>, j: nat, w: nat, id: AskId)
    requires Trace(ss, steps) && j < |steps|
  {
    && LastLetsGo(ss[j], steps[j], w, id)
    && (steps[j] == Cancel(w) || ReleasedShared(ss, steps, j, w))
  }

  predicate Undisturbed(ss: seq<State>, steps: seq<Step>, j: nat, k: nat, id: AskId)
    requires Trace(ss, steps) && k <= |steps|
  {
    forall i | j < i < k :: !Disturbs(ss[i], steps[i], id)
  }

  lemma LeavingHow(ss: seq<State>, steps: seq<Step>, j: nat, w: nat, id: AskId)
    requires Trace(ss, steps) && j < |steps| && LastLetsGo(ss[j], steps[j], w, id)
    ensures LeftAt(ss, steps, j, w, id)
  {
    if steps[j] == DropRef(w) {
      TraceInv(ss, steps, j);
      assert w in Holders(ss[j], ss[j].table.entries[id]);
      DroppingWasShared(ss, steps, j, w);
    }
  }

  /** The last holder left at step `j`, and what it left has stayed until state `k`. */
  ghost predicate LeftSince(ss: seq<State>, steps: seq<Step>, j: nat, k: nat, id: AskId)
    requires Trace(ss, steps) && k <= |steps|
  {
    j < k && Undisturbed(ss, steps, j, k, id) && exists w: nat :: LeftAt(ss, steps, j, w, id)
  }

  /** The last step of a run, as `LeftBehindStep` sees it. */
  lemma LeftBehindOnce(ss: seq<State>, steps: seq<Step>, j: nat, k: nat, id: AskId)
    requires Trace(ss, steps) && j + 1 == k <= |steps|
    ensures LeftBehind(ss[k], id) <==>
      (LeftBehind(ss[j], id) && !Disturbs(ss[j], steps[j], id)) || LeftSince(ss, steps, j, k, id)
  {
    assert Inv(ss[j]) by {
      TraceInv(ss, steps, j);
    }
    LeftBehindStep(ss[j], steps[j], id);
    if w: nat :| LastLetsGo(ss[j], steps[j], w, id) {
      LeavingHow(ss, steps, j, w, id);
    }
  }

  lemma LeftSinceOnce(ss: seq<State>, steps: seq<Step>, i: nat, j: nat, k: nat, id: AskId)
    requires Trace(ss, steps) && i < j && j + 1 == k <= |steps|
    ensures LeftSince(ss, steps, i, k, id) <==> LeftSince(ss, steps, i, j, id) && !Disturbs(ss[j], steps[j], id)
  {
  }

  /** In every run, an entry whose holders are gone is there if and only if its last holder
      left by its request going away, or after a release that still counted another
      reference, and nothing has taken the entry out or obtained it since. */
  lemma {:induction false} LeftBehindIff(ss: seq<State>, steps: seq<Step>, k: nat, id: AskId)
    requires Trace(ss, steps) && k <= |steps|
    ensures LeftBehind(ss[k], id) <==> exists i: nat :: LeftSince(ss, steps, i, k, id)
  {
    if k > 0 {
      var j := k - 1;
      LeftBehindIff(ss, steps, j, id);
      LeftBehindOnce(ss, steps, j, k, id);
      if i: nat :| LeftSince(ss, steps, i, j, id) {
        LeftSinceOnce(ss, steps, i, j, k, id);
      }
      if i: nat :| LeftSince(ss, steps, i, k, id) && i < j {
        LeftSinceOnce(ss, steps, i, j, k, id);
      }
    }
  }

  // ---- runs that leave one behind --------------------------------------------------------

  lemma RunFirst(s: State, step: Step, rest: seq<Step>, t: State)
    requires CanDo(s, step) && Run(Do(s, step), rest, t)
    ensures Run(s, [step] + rest, t)
  {
    assert ([step] + rest)[1..] == rest;
  }

  lemma {:induction false} RunJoined(s: State, a: seq<Step>, t: State, b: seq<Step>, u: State)
    requires Run(s, a, t) && Run(t, b, u)
    ensures Run(s, a + b, u)
    decreases |a|
  {
    if a == [] {
      assert a + b == b;
    } else {
      RunJoined(Do(s, a[0]), a[1..], t, b, u);
      assert (a + b)[1..] == a[1..] + b;
    }
  }

  /** A waiter whose request goes away while it reads or sleeps never releases. */
  lemma CancelLeavesEntry(s: State, w: nat, id: AskId) returns (t: State)
    requires Init(s)
    ensures Run(s, [StartWait(w, id), Arm(w), Cancel(w)], t) && LeftBehind(t, id)
  {
    var s1 := Do(s, StartWait(w, id));
    var s2 := Do(s1, Arm(w));
    t := Do(s2, Cancel(w));
    assert Run(t, [], t);
    RunFirst(s2, Cancel(w), [], t);
    RunFirst(s1, Arm(w), [Cancel(w)], t);
    RunFirst(s, StartWait(w, id), [Arm(w), Cancel(w)], t);
    assert [StartWait(w, id)] + ([Arm(w)] + ([Cancel(w)] + [])) == [StartWait(w, id), Arm(w), Cancel(w)];
  }

  /** The process with two waiters of one ask and nothing else. */
  function TwoAt(s: State, w: nat, v: nat, id: AskId, p: WaitPc, q: WaitPc): State {
    s.(table := Table(map[id := 0], [id]), waiters := map[w := Waiter(id, 0, p), v := Waiter(id, 0, q)])
  }

  /** Two waiters of a pending ask reach their deadlines. */
  function TwoDeadlines(w: nat, v: nat, id: AskId): seq<Step> {
    TwoArmSteps(w, v, id) + TwoLeaveSteps(w, v)
  }

  function TwoArmSteps(w: nat, v: nat, id: AskId): seq<Step> {
    [StartWait(w, id), StartWait(v, id), Arm(w), Arm(v)]
  }

  function TwoLeaveSteps(w: nat, v: nat): seq<Step> {
    [ReadRow(w), ReadRow(v), PastDeadline(w), PastDeadline(v)]
  }

  lemma TwoDeadlinesRun(s: State, w: nat, v: nat, id: AskId)
    requires Init(s) && w != v && id in s.rows && s.rows[id] == Pending
    ensures Run(s, TwoDeadlines(w, v, id), TwoAt(s, w, v, id, Leaving, Leaving))
  {
    var armed, left := TwoAt(s, w, v, id, Armed(false), Armed(false)), TwoAt(s, w, v, id, Leaving, Leaving);
    TwoArm(s, w, v, id);
    TwoLeave(s, w, v, id);
    RunJoined(s, TwoArmSteps(w, v, id), armed, TwoLeaveSteps(w, v), left);
  }

  lemma TwoArm(s: State, w: nat, v: nat, id: AskId)
    requires Init(s) && w != v
    ensures Run(s, TwoArmSteps(w, v, id), TwoAt(s, w, v, id, Armed(false), Armed(false)))
  {
    var s1 := s.(table := Table(map[id := 0], [id]), waiters := map[w := Waiter(id, 0, Looping)]);
    var s2, s3 := TwoAt(s, w, v, id, Looping, Looping), TwoAt(s, w, v, id, Armed(false), Looping);
    assert Do(s, StartWait(w, id)) == s1 && Do(s1, StartWait(v, id)) == s2;
    assert Do(s2, Arm(w)) == s3 && Do(s3, Arm(v)) == TwoAt(s, w, v, id, Armed(false), Armed(false));
    FourSteps(s, TwoArmSteps(w, v, id), s1, s2, s3, TwoAt(s, w, v, id, Armed(false), Armed(false)));
  }

  lemma TwoLeave(s: State, w: nat, v: nat, id: AskId)
    requires w != v && id in s.rows && s.rows[id] == Pending
    ensures Run(TwoAt(s, w, v, id, Armed(false), Armed(false)), TwoLeaveSteps(w, v),
                TwoAt(s, w, v, id, Leaving, Leaving))
  {
    var s4, s5 := TwoAt(s, w, v, id, Armed(false), Armed(false)), TwoAt(s, w, v, id, Unanswered(false), Armed(false));
    var s6 := TwoAt(s, w, v, id, Unanswered(false), Unanswered(false));
    var s7, s8 := TwoAt(s, w, v, id, Leaving, Unanswered(false)), TwoAt(s, w, v, id, Leaving, Leaving);
    FirstMoves(s, w, v, id, Armed(false), Armed(false), Unanswered(false));
    SecondMoves(s, w, v, id, Unanswered(false), Armed(false), Unanswered(false));
    FirstMoves(s, w, v, id, Unanswered(false), Unanswered(false), Leaving);
    SecondMoves(s, w, v, id, Leaving, Unanswered(false), Leaving);
    FourSteps(s4, TwoLeaveSteps(w, v), s5, s6, s7, s8);
  }

  lemma FirstMoves(s: State, w: nat, v: nat, id: AskId, p: WaitPc, q: WaitPc, now: WaitPc)
    requires w != v
    ensures Move(TwoAt(s, w, v, id, p, q), w, now) == TwoAt(s, w, v, id, now, q)
  {
  }

  lemma SecondMoves(s: State, w: nat, v: nat, id: AskId, p: WaitPc, q: WaitPc, now: WaitPc)
    requires w != v
    ensures Move(TwoAt(s, w, v, id, p, q), v, now) == TwoAt(s, w, v, id, p, now)
  {
  }

  /** Such a run from the start of the process: two waiters reach their deadlines, and each
      releases before either drops its reference. */
  lemma DeadlinesLeaveEntry(s: State, w: nat, v: nat, id: AskId) returns (t: State)
    requires Init(s) && w != v && id in s.rows && s.rows[id] == Pending
    ensures Run(s, TwoDeadlines(w, v, id) + [Release(w), Release(v), DropRef(w), DropRef(v)], t) && LeftBehind(t, id)
  {
    var m := TwoAt(s, w, v, id, Leaving, Leaving);
    TwoDeadlinesRun(s, w, v, id);
    assert Holders(m, 0) == {w, v};
    t := BothKeep(m, w, v, id, 0);
    RunJoined(s, TwoDeadlines(w, v, id), m, [Release(w), Release(v), DropRef(w), DropRef(v)], t);
  }

  /** The process with one waiter, the notifier it was given, and the answering handler. */
  function AnsweredAt(s: State, w: nat, h: nat, id: AskId, entries: map<AskId, Notifier>, p: WaitPc,
                      q: AnswerPc): State {
    s.(rows := s.rows[id := if q == Submitting then Pending else Answered(h)], table := Table(entries, [id]),
       waiters := map[w := Waiter(id, 0, p)], handlers := map[h := Handler(id, q)])
  }

  function AnswerSteps(w: nat, h: nat, id: AskId): seq<Step> {
    [StartWait(w, id), Submit(h, id), Commit(h), TakeEntry(h)]
  }

  lemma AnswerCommitted(s: State, w: nat, h: nat, id: AskId)
    ensures var s2 := AnsweredAt(s, w, h, id, map[id := 0], Looping, Submitting);
      CanDo(s2, Commit(h)) && Do(s2, Commit(h)) == AnsweredAt(s, w, h, id, map[id := 0], Looping, Committed)
  {
    assert s.rows[id := Pending][id := Answered(h)] == s.rows[id := Answered(h)];
  }

  lemma AnswerTaken(s: State, w: nat, h: nat, id: AskId)
    ensures var s3 := AnsweredAt(s, w, h, id, map[id := 0], Looping, Committed);
      CanDo(s3, TakeEntry(h)) && Do(s3, TakeEntry(h)) == AnsweredAt(s, w, h, id, map[], Looping, Unhooked(Some(0)))
  {
    assert (map[id := 0] - {id}) == map[];
  }

  lemma AnswerRun(s: State, w: nat, h: nat, id: AskId)
    requires Init(s) && id in s.rows && s.rows[id] == Pending
    ensures Run(s, AnswerSteps(w, h, id), AnsweredAt(s, w, h, id, map[], Looping, Unhooked(Some(0))))
  {
    var s1 := s.(table := Table(map[id := 0], [id]), waiters := map[w := Waiter(id, 0, Looping)]);
    var s2 := AnsweredAt(s, w, h, id, map[id := 0], Looping, Submitting);
    var s3 := AnsweredAt(s, w, h, id, map[id := 0], Looping, Committed);
    var s4 := AnsweredAt(s, w, h, id, map[], Looping, Unhooked(Some(0)));
    assert Do(s, StartWait(w, id)) == s1;
    assert s2.rows == s.rows && Do(s1, Submit(h, id)) == s2;
    AnswerCommitted(s, w, h, id);
    AnswerTaken(s, w, h, id);
    FourSteps(s, AnswerSteps(w, h, id), s1, s2, s3, s4);
  }

  function LateSteps(w: nat, v: nat, h: nat, id: AskId): seq<Step> {
    [NotifyAll(h), Arm(w), ReadRow(w), StartWait(v, id)]
  }

  /** The process with a leaving waiter of the old notifier and a new one of the next. */
  function StaleAt(s: State, w: nat, v: nat, h: nat, id: AskId): State {
    s.(rows := s.rows[id := Answered(h)], table := Table(map[id := 1], [id, id]),
       waiters := map[w := Waiter(id, 0, Leaving), v := Waiter(id, 1, Looping)],
       handlers := map[h := Handler(id, Replied(true))])
  }

  lemma LateNotified(s: State, w: nat, h: nat, id: AskId)
    ensures var s4 := AnsweredAt(s, w, h, id, map[], Looping, Unhooked(Some(0)));
      CanDo(s4, NotifyAll(h)) && Do(s4, NotifyAll(h)) == AnsweredAt(s, w, h, id, map[], Looping, Replied(true))
  {
    var s4 := AnsweredAt(s, w, h, id, map[], Looping, Unhooked(Some(0)));
    assert NotifyOn(s4.waiters, Some(0)) == s4.waiters;
  }

  lemma LateLeaves(s: State, w: nat, h: nat, id: AskId)
    ensures
      var s5 := AnsweredAt(s, w, h, id, map[], Looping, Replied(true));
      var s6 := AnsweredAt(s, w, h, id, map[], Armed(false), Replied(true));
      && CanDo(s5, Arm(w)) && Do(s5, Arm(w)) == s6
      && CanDo(s6, ReadRow(w)) && Do(s6, ReadRow(w)) == AnsweredAt(s, w, h, id, map[], Leaving, Replied(true))
  {
  }

  lemma LateStarted(s: State, w: nat, v: nat, h: nat, id: AskId)
    requires w != v
    ensures var s7 := AnsweredAt(s, w, h, id, map[], Leaving, Replied(true));
      CanDo(s7, StartWait(v, id)) && Do(s7, StartWait(v, id)) == StaleAt(s, w, v, h, id)
  {
    assert [id] + [id] == [id, id];
  }

  lemma LateRun(s: State, w: nat, v: nat, h: nat, id: AskId)
    requires w != v
    ensures Run(AnsweredAt(s, w, h, id, map[], Looping, Unhooked(Some(0))), LateSteps(w, v, h, id),
                StaleAt(s, w, v, h, id))
  {
    var s4 := AnsweredAt(s, w, h, id, map[], Looping, Unhooked(Some(0)));
    var s5 := AnsweredAt(s, w, h, id, map[], Looping, Replied(true));
    var s6 := AnsweredAt(s, w, h, id, map[], Armed(false), Replied(true));
    var s7 := AnsweredAt(s, w, h, id, map[], Leaving, Replied(true));
    var s8 := StaleAt(s, w, v, h, id);
    LateNotified(s, w, h, id);
    LateLeaves(s, w, h, id);
    LateStarted(s, w, v, h, id);
    FourSteps(s4, LateSteps(w, v, h, id), s5, s6, s7, s8);
  }

  lemma StaleReleases(s: State, w: nat, v: nat, h: nat, id: AskId) returns (t: State)
    requires w != v
    ensures Run(StaleAt(s, w, v, h, id), [Release(w)], t) && Leaves(t, v, id, 1, Looping) && id !in t.table.entries
  {
    var s8 := StaleAt(s, w, v, h, id);
    assert Holders(s8, 0) == {w} && HandlerHolders(s8, 0) == {};
    assert StrongCount(s8, 0) <= 2;
    t := Do(s8, Release(w));
    assert Run(t, [], t);
    RunFirst(s8, Release(w), [], t);
    assert [Release(w)] + [] == [Release(w)];
  }

  /** A waiter of the old notifier, leaving after the answer, takes away the entry that a new
      waiter has just made. */
  lemma StaleReleaseRun(s: State, w: nat, v: nat, h: nat, id: AskId) returns (t: State)
    requires Init(s) && w != v && id in s.rows && s.rows[id] == Pending
    ensures Run(s, AnswerSteps(w, h, id) + LateSteps(w, v, h, id) + [Release(w)], t)
    ensures Leaves(t, v, id, 1, Looping) && id !in t.table.entries
  {
    var s4 := AnsweredAt(s, w, h, id, map[], Looping, Unhooked(Some(0)));
    var s8 := StaleAt(s, w, v, h, id);
    AnswerRun(s, w, h, id);
    LateRun(s, w, v, h, id);
    RunJoined(s, AnswerSteps(w, h, id), s4, LateSteps(w, v, h, id), s8);
    t := StaleReleases(s, w, v, h, id);
    RunJoined(s, AnswerSteps(w, h, id) + LateSteps(w, v, h, id), s8, [Release(w)], t);
  }

  /** Two waiters that leave together. The reference is dropped only after the lock is
      let go, so the second release may still count the first one's: then both keep the
      entry, and it outlives every holder. */
  lemma LateDropKeepsEntry(s: State, w: nat, v: nat) returns (t: State)
    requires Inv(s) && w != v
    requires CanDo(s, Release(w)) && CanDo(s, Release(v))
    requires s.waiters[w].ask == s.waiters[v].ask && !TakenOut(s, s.waiters[w].ask)
    requires Holders(s, s.waiters[w].mine) == {w, v}
    ensures Run(s, [Release(w), Release(v), DropRef(w), DropRef(v)], t)
    ensures s.waiters[w].ask in t.table.entries
    ensures Holders(t, t.table.entries[s.waiters[w].ask]) == {}
  {
    var id, n := s.waiters[w].ask, s.waiters[w].mine;
    assert v in Holders(s, n) && Entry(s.table, id) == Some(n);
    t := BothKeep(s, w, v, id, n);
  }

  /** With the first reference dropped before the second release, it is forgotten. */
  lemma EarlyDropForgetsEntry(s: State, w: nat, v: nat) returns (t: State)
    requires Inv(s) && w != v
    requires CanDo(s, Release(w)) && CanDo(s, Release(v))
    requires s.waiters[w].ask == s.waiters[v].ask && !TakenOut(s, s.waiters[w].ask)
    requires Holders(s, s.waiters[w].mine) == {w, v}
    ensures Run(s, [Release(w), DropRef(w), Release(v), DropRef(v)], t)
    ensures s.waiters[w].ask !in t.table.entries
  {
    var id, n := s.waiters[w].ask, s.waiters[w].mine;
    assert v in Holders(s, n) && Entry(s.table, id) == Some(n);
    NoHandlerHolds(s, id, n);
    t := OneKeeps(s, w, v, id, n);
  }

  predicate Leaves(s: State, w: nat, id: AskId, n: Notifier, pc: WaitPc) {
    w in s.waiters && s.waiters[w] == Waiter(id, n, pc)
  }

  lemma BothKeep(s: State, w: nat, v: nat, id: AskId, n: Notifier) returns (t: State)
    requires w != v && Leaves(s, w, id, n, Leaving) && Leaves(s, v, id, n, Leaving)
    requires Holders(s, n) == {w, v} && Entry(s.table, id) == Some(n)
    ensures Run(s, [Release(w), Release(v), DropRef(w), DropRef(v)], t)
    ensures Entry(t.table, id) == Some(n) && Holders(t, n) == {}
  {
    var s1 := SharedRelease(s, w, v, id, n);
    var s2 := SharedRelease(s1, v, w, id, n);
    var s3 := LetGo(s2, w, id, n);
    t := LetGo(s3, v, id, n);
    FourSteps(s, [Release(w), Release(v), DropRef(w), DropRef(v)], s1, s2, s3, t);
  }

  lemma OneKeeps(s: State, w: nat, v: nat, id: AskId, n: Notifier) returns (t: State)
    requires w != v && Leaves(s, w, id, n, Leaving) && Leaves(s, v, id, n, Leaving)
    requires Holders(s, n) == {w, v} && HandlerHolders(s, n) == {} && Entry(s.table, id) == Some(n)
    ensures Run(s, [Release(w), DropRef(w), Release(v), DropRef(v)], t)
    ensures Entry(t.table, id) == None
  {
    var s1 := SharedRelease(s, w, v, id, n);
    var s2 := LetGo(s1, w, id, n);
    assert StrongCount(s2, n) <= 2 by {
      assert Holders(s2, n) == {v} && HandlerHolders(s2, n) == HandlerHolders(s, n);
    }
    var s3 := Do(s2, Release(v));
    t := Move(s3, v, Returned);
    FourSteps(s, [Release(w), DropRef(w), Release(v), DropRef(v)], s1, s2, s3, t);
  }

  /** Releasing while another one still holds the notifier. */
  lemma SharedRelease(s: State, w: nat, v: nat, id: AskId, n: Notifier) returns (t: State)
    requires w != v && Leaves(s, w, id, n, Leaving) && v in s.waiters
    requires Holders(s, n) == {w, v} && Entry(s.table, id) == Some(n)
    ensures CanDo(s, Release(w)) && t == Do(s, Release(w)) == Move(s, w, Dropping)
    ensures Holders(t, n) == {w, v}
  {
    t := Move(s, w, Dropping);
    assert s.table.entries[id] in s.table.entries.Values;
    assert |{w, v}| == 2;
    assert Holders(t, n) == Holders(s, n);
  }

  lemma LetGo(s: State, w: nat, id: AskId, n: Notifier) returns (t: State)
    requires Leaves(s, w, id, n, Dropping)
    ensures CanDo(s, DropRef(w)) && t == Do(s, DropRef(w)) == Move(s, w, Returned)
    ensures Holders(t, n) == Holders(s, n) - {w}
  {
    t := Move(s, w, Returned);
  }

  lemma FourSteps(s: State, steps: seq<Step>, s1: State, s2: State, s3: State, t: State)
    requires |steps| == 4
    requires CanDo(s, steps[0]) && s1 == Do(s, steps[0])
    requires CanDo(s1, steps[1]) && s2 == Do(s1, steps[1])
    requires CanDo(s2, steps[2]) && s3 == Do(s2, steps[2])
    requires CanDo(s3, steps[3]) && t == Do(s3, steps[3])
    ensures Run(s, steps, t)
  {
    assert steps[1..][1..][1..][1..] == [];
    assert Run(s3, steps[1..][1..][1..], t);
    assert Run(s2, steps[1..][1..], t);
    assert Run(s1, steps[1..], t);
  }
}
