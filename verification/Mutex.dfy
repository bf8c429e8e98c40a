/**
 * packages/persistence/src/index.ts: AsyncMutex. Every call of runExclusive
 * takes the promise in `tail`, leaves its own there, waits for the one it took,
 * and resolves its own when its operation has returned or thrown. The event loop
 * may run the pieces of different calls in any order those waits allow.
 */
module Mutex {
  import opened Prelude

  datatype Status = Waiting | Running | Returned | Threw

  /** A promise is known by a number; 0 is the one that was resolved from the start. */
  datatype Waiter = Waiter(previous: nat, own: nat, status: Status)

  /** `log` records which call performed each update of the shared data. */
  datatype Machine<U> = Machine(tail: nat, resolved: set<nat>, calls: seq<Waiter>, log: seq<(nat, U)>)

  datatype Event<U> = Arrive | Start(call: nat) | Act(call: nat, update: U) | Finish(call: nat, threw: bool)

  predicate Enabled<U>(m: Machine<U>, e: Event<U>) {
    match e
    case Arrive => true
    case Start(i) => i < |m.calls| && m.calls[i].status == Waiting && m.calls[i].previous in m.resolved
    case Act(i, _) => i < |m.calls| && m.calls[i].status == Running
    case Finish(i, _) => i < |m.calls| && m.calls[i].status == Running
  }

  function Next<U>(m: Machine<U>, e: Event<U>): Machine<U>
    requires Enabled(m, e)
  {
    match e
    case Arrive =>
      var own := |m.calls| + 1;
      m.(tail := own, calls := m.calls + [Waiter(m.tail, own, Waiting)])
    case Start(i) => m.(calls := m.calls[i := m.calls[i].(status := Running)])
    case Act(i, u) => m.(log := m.log + [(i, u)])
    case Finish(i, threw) =>
      m.(calls := m.calls[i := m.calls[i].(status := if threw then Threw else Returned)],
        resolved := m.resolved + {m.calls[i].own})
  }

  function Idle<U>(): Machine<U> {
    Machine(0, {0}, [], [])
  }

  predicate Over(s: Status) { s.Returned? || s.Threw? }

  /** The promises form one chain in call order, and those resolved are the ones of the calls that are over. */
  ghost predicate Chained<U>(m: Machine<U>) {
    && m.tail == |m.calls| && 0 in m.resolved && (forall p :: p in m.resolved ==> p <= |m.calls|)
    && (forall i :: 0 <= i < |m.calls| ==> m.calls[i].previous == i && m.calls[i].own == i + 1)
    && (forall i :: 0 <= i < |m.calls| ==> (i + 1 in m.resolved <==> Over(m.calls[i].status)))
  }

  ghost predicate OneByOne<U>(m: Machine<U>) {
    forall i, j :: 0 <= i < j < |m.calls| && !m.calls[j].status.Waiting? ==> Over(m.calls[i].status)
  }

  predicate InCallOrder<U>(log: seq<(nat, U)>) {
    forall a, b :: 0 <= a < b < |log| ==> log[a].0 <= log[b].0
  }

  ghost predicate Logged<U>(m: Machine<U>) {
    && (forall k :: 0 <= k < |m.log| ==> m.log[k].0 < |m.calls| && !m.calls[m.log[k].0].status.Waiting?)
    && InCallOrder(m.log)
  }

  ghost predicate Inv<U>(m: Machine<U>) {
    Chained(m) && OneByOne(m) && Logged(m)
  }

  lemma ChainedKept<U>(m: Machine<U>, e: Event<U>)
    requires Chained(m) && Enabled(m, e)
    ensures Chained(Next(m, e))
  {
  }

  lemma OneByOneKept<U>(m: Machine<U>, e: Event<U>)
    requires Chained(m) && OneByOne(m) && Enabled(m, e)
    ensures OneByOne(Next(m, e))
  {
    if e.Start? && e.call > 0 {
      assert Over(m.calls[e.call - 1].status);
    }
  }

  lemma LoggedKept<U>(m: Machine<U>, e: Event<U>)
    requires OneByOne(m) && Logged(m) && Enabled(m, e)
    ensures Logged(Next(m, e))
  {
    if e.Act? {
      forall k | 0 <= k < |m.log| ensures m.log[k].0 <= e.call {
      }
    }
  }

  lemma NextKeepsInv<U>(m: Machine<U>, e: Event<U>)
    requires Inv(m) && Enabled(m, e)
    ensures Inv(Next(m, e))
  {
    hide Next, Chained, OneByOne, Logged;
    ChainedKept(m, e);
    OneByOneKept(m, e);
    LoggedKept(m, e);
  }

  ghost predicate Reaches<U>(m: Machine<U>, events: seq<Event<U>>, n: Machine<U>)
    decreases |events|
  {
    if events == [] then n == m
    else Enabled(m, events[0]) && Reaches(Next(m, events[0]), events[1..], n)
  }

  lemma {:induction false} ReachesKeepsInv<U>(m: Machine<U>, events: seq<Event<U>>, n: Machine<U>)
    requires Inv(m) && Reaches(m, events, n)
    ensures Inv(n)
    decreases |events|
  {
    if events == [] {
    } else {
      NextKeepsInv(m, events[0]);
      ReachesKeepsInv(Next(m, events[0]), events[1..], n);
    }
  }

  /** Whatever the schedule: one operation at a time, in call order, and its updates are not mixed with another's. */
  lemma AtMostOneRuns<U>(events: seq<Event<U>>, n: Machine<U>, i: nat, j: nat)
    requires Reaches(Idle(), events, n) && i < j < |n.calls|
    ensures !(n.calls[i].status.Running? && n.calls[j].status.Running?)
    ensures !n.calls[j].status.Waiting? ==> Over(n.calls[i].status)
    ensures InCallOrder(n.log)
  {
    ReachesKeepsInv(Idle(), events, n);
  }

  /** No deadlock: the first call that is not over is running or may start, also when those before it threw. */
  lemma AlwaysProgress<U>(events: seq<Event<U>>, n: Machine<U>, i: nat)
    requires Reaches(Idle(), events, n) && i < |n.calls| && !Over(n.calls[i].status)
    requires forall j :: 0 <= j < i ==> Over(n.calls[j].status)
    ensures n.calls[i].status.Running? || Enabled(n, Start(i))
  {
    ReachesKeepsInv(Idle(), events, n);
    if i > 0 {
      assert Over(n.calls[i - 1].status);
    }
  }
}

/**
 * The in-memory ledger behind the mutex. `reserveBudget`, `transitionReservation`
 * and `getBudgetUsage` run inside `runExclusive`; the four lookups do not take
 * the mutex at all and answer from the Maps as they are.
 */
module MutexLedger {
  import opened Prelude
  import opened Mutex
  import Ledger
  import LedgerHistory
  import MemoryLedger

  type Log = seq<(nat, Ledger.Call)>

  predicate TakesMutex(c: Ledger.Call) {
    c.Reserve? || c.Transition? || c.GetUsage?
  }

  /** A lookup: how much had been logged, which calls were over, and what it answered. */
  datatype Lookup = Lookup(call: Ledger.Call, seen: nat, finished: set<nat>, response: Result<Ledger.Response>)

  datatype Moment = Moment(machine: Machine<Ledger.Call>, lookups: seq<Lookup>)

  datatype LedgerEvent = Enters | Begins(call: nat) | Works(call: nat) | Ends(call: nat,
    threw: bool) | LooksUp(lookup: Ledger.Call)

  ghost predicate HasWorked(m: Machine<Ledger.Call>, i: nat) {
    exists k :: 0 <= k < |m.log| && m.log[k].0 == i
  }

  /** `calls` are the calls that take the mutex, in the order in which they were made; each works on the Maps once. */
  ghost predicate CanHappen(calls: seq<Ledger.Call>, w: Moment, e: LedgerEvent) {
    var m := w.machine;
    match e
    case Enters => |m.calls| < |calls| && TakesMutex(calls[|m.calls|])
    case Begins(i) => Enabled(m, Start(i))
    case Works(i) => i < |calls| && Enabled(m, Act(i, calls[i])) && !HasWorked(m, i)
    case Ends(i, threw) => Enabled(m, Finish(i, threw)) && HasWorked(m, i)
    case LooksUp(c) => !TakesMutex(c)
  }

  /** The Maps after what has been logged. */
  ghost function Apply(s: MemoryLedger.State, log: Log): MemoryLedger.State {
    if log == [] then s else MemoryLedger.Step(Apply(s, log[..|log| - 1]), log[|log| - 1].1).1
  }

  function Finished(m: Machine<Ledger.Call>): set<nat> {
    set i | 0 <= i < |m.calls| && Over(m.calls[i].status)
  }

  ghost function After(s: MemoryLedger.State, calls: seq<Ledger.Call>, w: Moment, e: LedgerEvent): Moment
    requires CanHappen(calls, w, e)
  {
    var m := w.machine;
    match e
    case Enters => w.(machine := Next(m, Arrive))
    case Begins(i) => w.(machine := Next(m, Start(i)))
    case Works(i) => w.(machine := Next(m, Act(i, calls[i])))
    case Ends(i, threw) => w.(machine := Next(m, Finish(i, threw)))
    case LooksUp(c) =>
      w.(lookups := w.lookups + [Lookup(c, |m.log|, Finished(m), MemoryLedger.Step(Apply(s, m.log), c).0)])
  }

  ghost predicate Leads(s: MemoryLedger.State, calls: seq<Ledger.Call>, w: Moment, events: seq<LedgerEvent>, z: Moment)
    decreases |events|
  {
    if events == [] then z == w
    else CanHappen(calls, w, events[0]) && Leads(s, calls, After(s, calls, w, events[0]), events[1..], z)
  }

  const START: Moment := Moment(Machine(0, {0}, [], []), [])

  // The invariant.

  /** Each operation works on the Maps by its own ledger call, once, before it is over. */
  ghost predicate OneCallEach(m: Machine<Ledger.Call>, calls: seq<Ledger.Call>) {
    && |m.calls| <= |calls|
    && (forall k :: 0 <= k < |m.log| ==> m.log[k].0 < |m.calls| && m.log[k].1 == calls[m.log[k].0])
    && (forall a, b :: 0 <= a < b < |m.log| ==> m.log[a].0 != m.log[b].0)
    && (forall i :: 0 <= i < |m.calls| && Over(m.calls[i].status) ==> HasWorked(m, i))
  }

  ghost predicate LookupOk(s: MemoryLedger.State, m: Machine<Ledger.Call>, l: Lookup) {
    && l.seen <= |m.log|
    && l.response == MemoryLedger.Step(Apply(s, m.log[..l.seen]), l.call).0
    && forall i :: i in l.finished ==> exists k :: 0 <= k < l.seen && m.log[k].0 == i
  }

  ghost predicate Orderly(s: MemoryLedger.State, calls: seq<Ledger.Call>, w: Moment) {
    && Inv(w.machine) && OneCallEach(w.machine, calls)
    && (forall n :: 0 <= n < |w.lookups| ==> LookupOk(s, w.machine, w.lookups[n]))
    && (forall a, b :: 0 <= a < b < |w.lookups| ==> w.lookups[a].seen <= w.lookups[b].seen)
  }

  lemma OneCallKept(calls: seq<Ledger.Call>, w: Moment, s: MemoryLedger.State, e: LedgerEvent)
    requires OneCallEach(w.machine, calls) && CanHappen(calls, w, e)
    ensures OneCallEach(After(s, calls, w, e).machine, calls)
  {
    hide MemoryLedger.Step, Apply;
    var m, n := w.machine, After(s, calls, w, e).machine;
    forall i | 0 <= i < |n.calls| && Over(n.calls[i].status) ensures HasWorked(n, i) {
      if e.Ends? && e.call == i {
      } else {
        assert HasWorked(m, i);
      }
      var k :| 0 <= k < |m.log| && m.log[k].0 == i;
      assert n.log[k].0 == i;
    }
  }

  lemma InvKept(calls: seq<Ledger.Call>, w: Moment, s: MemoryLedger.State, e: LedgerEvent)
    requires Inv(w.machine) && CanHappen(calls, w, e)
    ensures Inv(After(s, calls, w, e).machine)
    ensures w.machine.log <= After(s, calls, w, e).machine.log
  {
    hide Inv, MemoryLedger.Step, Apply, HasWorked;
    match e
    case Enters => NextKeepsInv(w.machine, Arrive);
    case Begins(i) => NextKeepsInv(w.machine, Start(i));
    case Works(i) => NextKeepsInv(w.machine, Act(i, calls[i]));
    case Ends(i, threw) => NextKeepsInv(w.machine, Finish(i, threw));
    case LooksUp(_) =>
  }

  lemma LookupKept(s: MemoryLedger.State, m: Machine<Ledger.Call>, n: Machine<Ledger.Call>, l: Lookup)
    requires LookupOk(s, m, l) && m.log <= n.log
    ensures LookupOk(s, n, l)
  {
    hide MemoryLedger.Step, Apply;
    assert n.log[..l.seen] == m.log[..l.seen];
    forall i | i in l.finished ensures exists k :: 0 <= k < l.seen && n.log[k].0 == i {
      var k :| 0 <= k < l.seen && m.log[k].0 == i;
      assert n.log[k].0 == i;
    }
  }

  lemma NewLookupOk(s: MemoryLedger.State, m: Machine<Ledger.Call>, calls: seq<Ledger.Call>, c: Ledger.Call)
    requires OneCallEach(m, calls)
    ensures LookupOk(s, m, Lookup(c, |m.log|, Finished(m), MemoryLedger.Step(Apply(s, m.log), c).0))
  {
    hide MemoryLedger.Step, Apply;
    assert m.log[..|m.log|] == m.log;
    forall i | i in Finished(m) ensures exists k :: 0 <= k < |m.log| && m.log[k].0 == i {
      assert HasWorked(m, i);
    }
  }

  lemma SeenWithin(s: MemoryLedger.State, m: Machine<Ledger.Call>, l: Lookup)
    requires LookupOk(s, m, l)
    ensures l.seen <= |m.log|
  {
    hide MemoryLedger.Step, Apply;
  }

  lemma OrderlyKept(s: MemoryLedger.State, calls: seq<Ledger.Call>, w: Moment, e: LedgerEvent)
    requires Orderly(s, calls, w) && CanHappen(calls, w, e)
    ensures Orderly(s, calls, After(s, calls, w, e))
  {
    hide Inv, OneCallEach, LookupOk, HasWorked, MemoryLedger.Step, Apply, Finished, Next;
    var z := After(s, calls, w, e);
    InvKept(calls, w, s, e);
    OneCallKept(calls, w, s, e);
    if e.LooksUp? {
      NewLookupOk(s, w.machine, calls, e.lookup);
    }
    forall n | 0 <= n < |z.lookups| ensures LookupOk(s, z.machine, z.lookups[n]) {
      if n < |w.lookups| {
        LookupKept(s, w.machine, z.machine, w.lookups[n]);
      }
    }
    forall n | 0 <= n < |w.lookups| ensures w.lookups[n].seen <= |w.machine.log| {
      SeenWithin(s, w.machine, w.lookups[n]);
    }
  }

  lemma {:induction false} AlwaysOrderly(s: MemoryLedger.State, calls: seq<Ledger.Call>, w: Moment,
      events: seq<LedgerEvent>, z: Moment)
    requires Orderly(s, calls, w) && Leads(s, calls, w, events, z)
    ensures Orderly(s, calls, z)
    decreases |events|
  {
    hide Orderly, CanHappen, After;
    if events == [] {
    } else {
      OrderlyKept(s, calls, w, events[0]);
      AlwaysOrderly(s, calls, After(s, calls, w, events[0]), events[1..], z);
    }
  }

  lemma StartOrderly(s: MemoryLedger.State, calls: seq<Ledger.Call>)
    ensures Orderly(s, calls, START)
  {
  }

  // The order of the log is the order of the calls.

  lemma {:induction false} NoCallIsSkipped(m: Machine<Ledger.Call>, calls: seq<Ledger.Call>, k: nat)
    requires Inv(m) && OneCallEach(m, calls) && k < |m.log|
    ensures m.log[k].0 == k
    decreases k
  {
    forall j | 0 <= j < k ensures m.log[j].0 == j {
      NoCallIsSkipped(m, calls, j);
    }
    var i := m.log[k].0;
    hide Inv;
    if i > k {
      EarlierIsOver(m, k, k);
      assert false;
    }
    if k == 0 {
    } else {
      NotBefore(m, k - 1, k);
    }
  }

  lemma EarlierIsOver(m: Machine<Ledger.Call>, i: nat, k: nat)
    requires Inv(m) && k < |m.log| && i < m.log[k].0
    ensures i < |m.calls| && Over(m.calls[i].status)
  {
    assert !m.calls[m.log[k].0].status.Waiting?;
  }

  lemma NotBefore(m: Machine<Ledger.Call>, j: nat, k: nat)
    requires Inv(m) && j < k < |m.log|
    ensures m.log[j].0 <= m.log[k].0
  {
    assert InCallOrder(m.log);
  }

  lemma LogIsPrefix(m: Machine<Ledger.Call>, calls: seq<Ledger.Call>)
    requires Inv(m) && OneCallEach(m, calls)
    ensures |m.log| <= |calls| && forall k :: 0 <= k < |m.log| ==> m.log[k] == (k, calls[k])
  {
    forall k | 0 <= k < |m.log| ensures k < |calls| && m.log[k] == (k, calls[k]) {
      NoCallIsSkipped(m, calls, k);
    }
    if |m.log| > 0 {
      NoCallIsSkipped(m, calls, |m.log| - 1);
    }
  }

  lemma {:induction false} RunOneMore(s: MemoryLedger.State, calls: seq<Ledger.Call>, c: Ledger.Call)
    ensures LedgerHistory.Run(s, calls + [c]).1 == MemoryLedger.Step(LedgerHistory.Run(s, calls).1, c).1
    decreases |calls|
  {
    hide MemoryLedger.Step;
    if calls == [] {
      assert calls + [c] == [c] && [c][1..] == [];
    } else {
      RunOneMore(MemoryLedger.Step(s, calls[0]).1, calls[1..], c);
      assert (calls + [c])[1..] == calls[1..] + [c];
    }
  }

  lemma {:induction false} ApplyIsRun(s: MemoryLedger.State, log: Log, calls: seq<Ledger.Call>)
    requires |log| <= |calls| && forall k :: 0 <= k < |log| ==> log[k] == (k, calls[k])
    ensures Apply(s, log) == LedgerHistory.Run(s, calls[..|log|]).1
    decreases |log|
  {
    hide MemoryLedger.Step, LedgerHistory.Run;
    if log == [] {
      RunNothing(s);
      assert calls[..0] == [];
    } else {
      var n := |log| - 1;
      ApplyIsRun(s, log[..n], calls);
      RunOneMore(s, calls[..n], calls[n]);
      assert calls[..n] + [calls[n]] == calls[..n + 1];
    }
  }

  lemma RunNothing(s: MemoryLedger.State)
    ensures LedgerHistory.Run(s, []).1 == s && LedgerHistory.Run(s, []).0 == []
  {
  }

  lemma {:induction false} ResponseAt(s: MemoryLedger.State, calls: seq<Ledger.Call>, k: nat)
    requires k < |calls|
    ensures |LedgerHistory.Run(s, calls).0| == |calls|
    ensures LedgerHistory.Run(s, calls).0[k] == MemoryLedger.Step(LedgerHistory.Run(s, calls[..k]).1, calls[k]).0
    decreases |calls|
  {
    hide MemoryLedger.Step;
    var rest := calls[1..];
    var t := MemoryLedger.Step(s, calls[0]).1;
    if k > 0 {
      ResponseAt(t, rest, k - 1);
      assert calls[..k][1..] == rest[..k - 1] && calls[..k][0] == calls[0];
    } else if rest != [] {
      ResponseAt(t, rest, 0);
    }
  }

  // What every schedule keeps.

  /**
   * At every moment of every schedule the Maps are those of the sequential run
   * of the mutex-taking calls so far, in the order in which they were made, and
   * each such call gets the response of that run.
   */
  lemma ConcurrentIsSequential(s: MemoryLedger.State, calls: seq<Ledger.Call>, events: seq<LedgerEvent>, w: Moment)
    requires Leads(s, calls, START, events, w)
    ensures var log := w.machine.log;
      && |log| <= |calls| && |LedgerHistory.Run(s, calls).0| == |calls|
      && Apply(s, log) == LedgerHistory.Run(s, calls[..|log|]).1
      && forall k :: 0 <= k < |log| ==>
        log[k].0 == k && MemoryLedger.Step(Apply(s, log[..k]), log[k].1).0 == LedgerHistory.Run(s, calls).0[k]
  {
    hide MemoryLedger.Step, LedgerHistory.Run, Apply, Inv, OneCallEach, LookupOk, Leads;
    StartOrderly(s, calls);
    AlwaysOrderly(s, calls, START, events, w);
    var log := w.machine.log;
    LogIsPrefix(w.machine, calls);
    ApplyIsRun(s, log, calls);
    if |calls| > 0 {
      ResponseAt(s, calls, 0);
    } else {
      RunNothing(s);
    }
    forall k | 0 <= k < |log|
      ensures MemoryLedger.Step(Apply(s, log[..k]), log[k].1).0 == LedgerHistory.Run(s, calls).0[k]
    {
      ApplyIsRun(s, log[..k], calls);
      ResponseAt(s, calls, k);
    }
  }

  /**
   * A lookup takes no mutex: it answers from the sequential run of some prefix
   * of the calls, which contains every call that was over when it ran, and
   * later lookups see no shorter prefix.
   */
  lemma LookupsSeeAPrefix(s: MemoryLedger.State, calls: seq<Ledger.Call>, events: seq<LedgerEvent>, w: Moment, n: nat)
    requires Leads(s, calls, START, events, w) && n < |w.lookups|
    ensures var l := w.lookups[n];
      && l.seen <= |calls|
      && l.response == MemoryLedger.Step(LedgerHistory.Run(s, calls[..l.seen]).1, l.call).0
      && (forall i :: i in l.finished ==> i < l.seen)
      && forall k :: n <= k < |w.lookups| ==> l.seen <= w.lookups[k].seen
  {
    hide MemoryLedger.Step, LedgerHistory.Run, Apply, Inv, OneCallEach, Leads;
    StartOrderly(s, calls);
    AlwaysOrderly(s, calls, START, events, w);
    var l := w.lookups[n];
    assert LookupOk(s, w.machine, l);
    LogIsPrefix(w.machine, calls);
    ApplyIsRun(s, w.machine.log[..l.seen], calls);
  }

  /** A lookup made after a reserve that was not awaited may miss it. */
  lemma UnawaitedReserveIsMissed(q: Ledger.ReserveRequest)
    ensures
      var l := Lookup(Ledger.Get(q.reservationId), 0, {}, Ok(Ledger.LookupResponse(None)));
      exists w: Moment :: w.lookups == [l]
        && Leads(MemoryLedger.EMPTY, [Ledger.Reserve(q)], START, [Enters, LooksUp(Ledger.Get(q.reservationId))], w)
  {
    var s, calls, get := MemoryLedger.EMPTY, [Ledger.Reserve(q)], Ledger.Get(q.reservationId);
    var w1 := After(s, calls, START, Enters);
    var w2 := After(s, calls, w1, LooksUp(get));
    assert Finished(w1.machine) == {};
    assert Apply(s, []) == s;
    assert MemoryLedger.Step(s, get).0 == Ok(Ledger.LookupResponse(None));
    hide MemoryLedger.Step, CanHappen, After;
    assert [Enters, LooksUp(get)][1..] == [LooksUp(get)] && [LooksUp(get)][1..] == [];
    assert Leads(s, calls, w2, [], w2);
    assert CanHappen(calls, START, Enters) && CanHappen(calls, w1, LooksUp(get));
    assert Leads(s, calls, w1, [LooksUp(get)], w2);
    assert Leads(s, calls, START, [Enters, LooksUp(get)], w2);
  }
}
