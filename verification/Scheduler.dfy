/**
Priority admission to the one local model: a single lease, handed to the least eligible waiter.

Every method of the scheduler runs without an await, so a run is a sequence of its calls, interleaved with the
waiters' tasks resuming or being interrupted and with cancel events being set.
*/
module Scheduler {
  import opened Wrappers

  datatype Workload = AssistantTurn | InnerOs | Maintenance | Summary

  function DefaultPriority(w: Workload): int {
    match w
    case AssistantTurn => 0
    case InnerOs => 10
    case Maintenance => 50
    case Summary => 100
  }

  type Event = nat

  datatype Waiter = Waiter(priority: int, sequence: nat, workload: Workload, cancelEvent: Option<Event>)

  /** Granted: admitted, but its coroutine has not resumed yet. Lost: interrupted after its admission. */
  datatype Lease = NoLease | Granted(to: nat) | Held(holder: Option<nat>) | Lost(who: nat)

  /** leases, releases, log and gone record the run: log the waiters admitted, gone those withdrawn or refused. */
  datatype State = State(
    waiters: seq<Waiter>,
    active: Option<Workload>,
    paused: bool,
    closed: bool,
    next: nat,
    fired: set<Event>,
    lease: Lease,
    leases: nat,
    releases: nat,
    log: seq<Waiter>,
    gone: set<nat>)

  datatype Step =
    | Acquire(workload: Workload, priority: Option<int>, cancelEvent: Option<Event>)
    | Resume(sequence: nat)
    | Interrupt(sequence: nat)
    | TryAcquire(workload: Workload)
    | Release
    | Pause
    | Unpause
    | Fire(event: Event)
    | Close

  // ---------- admission ----------

  predicate Before(v: Waiter, w: Waiter) {
    v.priority < w.priority || (v.priority == w.priority && v.sequence < w.sequence)
  }

  predicate IsEligible(s: State, w: Waiter) {
    && !(w.cancelEvent.Some? && w.cancelEvent.value in s.fired)
    && !(s.paused && w.workload == Summary)
  }

  function Eligible(s: State, ws: seq<Waiter>): (e: seq<Waiter>)
    ensures forall w :: w in e <==> w in ws && IsEligible(s, w)
  {
    if ws == [] then []
    else
      var init, last := Eligible(s, ws[..|ws| - 1]), ws[|ws| - 1];
      assert ws == ws[..|ws| - 1] + [last];
      if IsEligible(s, last) then init + [last] else init
  }

  /** The least waiter; the first of equals. */
  function Least(ws: seq<Waiter>): (w: Waiter)
    requires ws != []
    ensures w in ws && forall v :: v in ws ==> !Before(v, w)
  {
    if |ws| == 1 then ws[0]
    else
      var best, last := Least(ws[..|ws| - 1]), ws[|ws| - 1];
      assert ws == ws[..|ws| - 1] + [last];
      if Before(last, best) then last else best
  }

  function Without(ws: seq<Waiter>, sequence: nat): (r: seq<Waiter>)
    ensures forall w :: w in r <==> w in ws && w.sequence != sequence
    ensures |r| <= |ws|
  {
    if ws == [] then []
    else
      var init, last := Without(ws[..|ws| - 1], sequence), ws[|ws| - 1];
      assert ws == ws[..|ws| - 1] + [last];
      if last.sequence == sequence then init else init + [last]
  }

  function Granting(s: State, w: Waiter): State {
    s.(waiters := Without(s.waiters, w.sequence), active := Some(w.workload),
       lease := Granted(w.sequence), leases := s.leases + 1, log := s.log + [w])
  }

  function Admit(s: State): State {
    if s.active.Some? || s.closed || Eligible(s, s.waiters) == [] then s
    else Granting(s, Least(Eligible(s, s.waiters)))
  }

  // ---------- steps ----------

  predicate Queued(s: State, sequence: nat) {
    exists w :: w in s.waiters && w.sequence == sequence
  }

  predicate Admitted(s: State, sequence: nat) {
    exists w :: w in s.log && w.sequence == sequence
  }

  predicate Enabled(s: State, step: Step) {
    match step
    case Resume(q) => s.lease == Granted(q)
    case Interrupt(q) => q < s.next
    case _ => true
  }

  function Enqueued(s: State, workload: Workload, priority: Option<int>, cancelEvent: Option<Event>): State {
    var w := Waiter(if priority.Some? then priority.value else DefaultPriority(workload), s.next, workload, cancelEvent);
    s.(waiters := s.waiters + [w], next := s.next + 1)
  }

  function Sequences(ws: seq<Waiter>): set<nat> {
    set w | w in ws :: w.sequence
  }

  function TryTaken(s: State, workload: Workload): State {
    if s.closed || s.active.Some? || s.waiters != [] || (s.paused && workload == Summary) then s
    else s.(active := Some(workload), lease := Held(None), leases := s.leases + 1)
  }

  /** What a step does itself. */
  function Prepared(s: State, step: Step): State {
    match step
    case Acquire(workload, priority, cancelEvent) =>
      if s.closed then s else Enqueued(s, workload, priority, cancelEvent)
    case Resume(q) => s.(lease := Held(Some(q)))
    case Interrupt(q) =>
      if s.lease == Granted(q) then s.(lease := Lost(q))
      else if Queued(s, q) then s.(waiters := Without(s.waiters, q), gone := s.gone + {q})
      else s
    case TryAcquire(workload) => TryTaken(s, workload)
    case Release =>
      if s.active.None? then s else s.(active := None, lease := NoLease, releases := s.releases + 1)
    case Pause => s.(paused := true)
    case Unpause => s.(paused := false)
    case Fire(e) => s.(fired := s.fired + {e})
    case Close => s.(closed := true, waiters := [], gone := s.gone + Sequences(s.waiters))
  }

  /** Whether it then admits whoever has become admissible. */
  predicate Admits(s: State, step: Step) {
    match step
    case Acquire(_, _, _) => !s.closed
    case Interrupt(q) => s.lease != Granted(q) && Queued(s, q)
    case Release => s.active.Some?
    case Unpause => true
    case _ => false
  }

  function Next(s: State, step: Step): State
    requires Enabled(s, step)
  {
    if Admits(s, step) then Admit(Prepared(s, step)) else Prepared(s, step)
  }

  // ---------- what every step keeps ----------

  /** A free, open scheduler has nobody it could admit. */
  predicate WorkConserving(s: State) {
    s.active.None? && !s.closed ==> forall w :: w in s.waiters ==> !IsEligible(s, w)
  }

  /** One lease at a time: as many have been given back as were handed out, but for the one that is out. */
  predicate OneLease(s: State) {
    && s.leases == s.releases + (if s.active.Some? then 1 else 0)
    && (s.active.None? <==> s.lease == NoLease)
  }

  /** Every call that queued is waiting, admitted or gone, and only one of these. */
  ghost predicate Accounted(s: State) {
    && (forall q: nat :: q < s.next <==> Queued(s, q) || Admitted(s, q) || q in s.gone)
    && (forall q: nat :: Admitted(s, q) ==> q !in s.gone && !Queued(s, q))
    && (forall q: nat :: q in s.gone ==> !Queued(s, q))
    && (forall v, w :: v in s.waiters && w in s.waiters && v.sequence == w.sequence ==> v == w)
    && (s.closed ==> s.waiters == [])
  }

  /** The lease an admission handed out is on the log. */
  predicate LeaseIsLogged(s: State) {
    && (s.lease.Granted? ==> Admitted(s, s.lease.to))
    && (s.lease.Lost? ==> Admitted(s, s.lease.who))
  }

  ghost predicate Inv(s: State) {
    WorkConserving(s) && OneLease(s) && LeaseIsLogged(s) && Accounted(s)
  }

  predicate Initial(s: State) {
    s == State([], None, false, false, 0, {}, NoLease, 0, 0, [], {})
  }

  lemma AdmitConserves(s: State)
    requires OneLease(s)
    ensures WorkConserving(Admit(s)) && OneLease(Admit(s))
  {
    assert forall w :: w in s.waiters && IsEligible(s, w) ==> w in Eligible(s, s.waiters);
  }

  lemma AdmissionIsLogged(s: State)
    requires LeaseIsLogged(s)
    ensures LeaseIsLogged(Admit(s))
  {
    var t := Admit(s);
    if t != s {
      assert t.log[|s.log|] in t.log;
    }
  }

  lemma AdmitAccounts(s: State)
    requires Accounted(s)
    ensures Accounted(Admit(s))
  {
    var t := Admit(s);
    if t != s {
      var w := Least(Eligible(s, s.waiters));
      assert w in s.waiters && Queued(s, w.sequence);
      forall q: nat ensures Queued(t, q) <==> Queued(s, q) && q != w.sequence {
        if Queued(s, q) && q != w.sequence {
          var v :| v in s.waiters && v.sequence == q;
          assert v in t.waiters;
        }
      }
      forall q: nat ensures Admitted(t, q) <==> Admitted(s, q) || q == w.sequence {
        if Admitted(s, q) {
          var v :| v in s.log && v.sequence == q;
          assert v in t.log;
        }
        assert t.log[|s.log|] == w && w in t.log;
        if Admitted(t, q) {
          var v :| v in t.log && v.sequence == q;
          assert v in s.log || v == w;
        }
      }
    }
  }

  /** Accounting looks at the queue, the log and the calls gone only. */
  lemma UntouchedQueueAccounts(s: State, t: State)
    requires Accounted(s) && t.waiters == s.waiters && t.log == s.log && t.gone == s.gone && t.next == s.next
    requires t.closed == s.closed
    ensures Accounted(t) && (Fifo(s) && t.fired >= s.fired ==> Fifo(t))
  {
    assert forall q: nat :: (Queued(t, q) <==> Queued(s, q)) && (Admitted(t, q) <==> Admitted(s, q));
    assert t.fired >= s.fired ==> forall w :: Unset(t, w) ==> Unset(s, w);
  }

  lemma RemovalAccounts(s: State, q: nat)
    requires Accounted(s) && Queued(s, q)
    ensures Accounted(s.(waiters := Without(s.waiters, q), gone := s.gone + {q}))
  {
    var t := s.(waiters := Without(s.waiters, q), gone := s.gone + {q});
    forall r: nat ensures Queued(t, r) <==> Queued(s, r) && r != q {}
    assert forall r: nat :: Admitted(t, r) <==> Admitted(s, r);
  }

  lemma EnqueueAccounts(s: State, workload: Workload, priority: Option<int>, cancelEvent: Option<Event>)
    requires Accounted(s) && !s.closed
    ensures Accounted(Enqueued(s, workload, priority, cancelEvent))
  {
    var t := Enqueued(s, workload, priority, cancelEvent);
    var w := t.waiters[|s.waiters|];
    assert forall v :: v in t.waiters <==> v in s.waiters || v == w;
    assert forall r: nat :: Admitted(t, r) <==> Admitted(s, r);
    forall v | v in s.waiters ensures v.sequence < s.next { assert Queued(s, v.sequence); }
    forall q: nat ensures Queued(t, q) <==> Queued(s, q) || q == s.next {
      if Queued(s, q) {
        var v :| v in s.waiters && v.sequence == q;
        assert v in t.waiters;
      }
    }
  }

  lemma CloseAccounts(s: State)
    requires Accounted(s)
    ensures Accounted(Prepared(s, Close))
  {
    var t := Prepared(s, Close);
    forall q: nat ensures q in Sequences(s.waiters) <==> Queued(s, q) {}
    assert forall q: nat :: Admitted(t, q) <==> Admitted(s, q);
  }

  lemma PreparationAccounts(s: State, step: Step)
    requires Accounted(s) && Enabled(s, step)
    ensures Accounted(Prepared(s, step))
  {
    match step
    case Acquire(workload, priority, cancelEvent) =>
      if !s.closed { EnqueueAccounts(s, workload, priority, cancelEvent); }
    case Interrupt(q) =>
      if s.lease == Granted(q) {
        UntouchedQueueAccounts(s, s.(lease := Lost(q)));
      } else if Queued(s, q) {
        RemovalAccounts(s, q);
      }
    case Close => CloseAccounts(s);
    case _ => UntouchedQueueAccounts(s, Prepared(s, step));
  }

  lemma StepKeepsInv(s: State, step: Step)
    requires Inv(s) && Enabled(s, step)
    ensures Inv(Next(s, step))
  {
    PreparationAccounts(s, step);
    if Admits(s, step) {
      AdmitConserves(Prepared(s, step));
      AdmitAccounts(Prepared(s, step));
      AdmissionIsLogged(Prepared(s, step));
    }
  }

  // ---------- order of admission ----------

  /** Same workload and same priority. */
  predicate SameClass(v: Waiter, w: Waiter) {
    v.workload == w.workload && v.priority == w.priority
  }

  predicate Unset(s: State, w: Waiter) {
    w.cancelEvent.Some? ==> w.cancelEvent.value !in s.fired
  }

  /** Admissions of one class are in the order of their calls, and ahead of every such call still waiting. */
  ghost predicate Fifo(s: State) {
    && (forall m, n :: 0 <= m < n < |s.log| && SameClass(s.log[m], s.log[n]) ==> s.log[m].sequence < s.log[n].sequence)
    && (forall m, v :: 0 <= m < |s.log| && v in s.waiters && Unset(s, v) && SameClass(s.log[m], v) ==>
          s.log[m].sequence < v.sequence)
  }

  /** What a step that hands out a lease does. */
  ghost predicate GrantsFairly(s: State, t: State) {
    && (t.log == s.log || (|t.log| == |s.log| + 1 && t.log[..|s.log|] == s.log))
    && (t.leases == s.leases || t.leases == s.leases + 1)
    && (t.log != s.log ==>
          var w := t.log[|s.log|];
          && t.leases == s.leases + 1 && t.active == Some(w.workload) && t.lease == Granted(w.sequence)
          && IsEligible(t, w)
          && forall v :: v in t.waiters && IsEligible(t, v) ==> Before(w, v))
    && (t.log == s.log && t.leases > s.leases ==> s.waiters == [] && t.waiters == [] && t.lease == Held(None))
    && (t.leases > s.leases ==> !(t.paused && t.active == Some(Summary)))
  }

  lemma AdmitIsFair(s: State)
    requires Accounted(s)
    ensures GrantsFairly(s, Admit(s))
    ensures Fifo(s) ==> Fifo(Admit(s))
  {
    var t := Admit(s);
    if t != s {
      var w := Least(Eligible(s, s.waiters));
      assert w in Eligible(s, s.waiters);
      forall v | v in t.waiters && IsEligible(t, v) ensures Before(w, v) {
        assert IsEligible(s, v) && v in s.waiters;
        assert v in Eligible(s, s.waiters) && v.sequence != w.sequence;
      }
      if Fifo(s) {
        forall m, v | 0 <= m < |t.log| && v in t.waiters && Unset(t, v) && SameClass(t.log[m], v)
          ensures t.log[m].sequence < v.sequence
        {
          if m == |s.log| {
            assert IsEligible(t, v);
          } else {
            assert v in s.waiters;
          }
        }
      }
    }
  }

  lemma EnqueueKeepsFifo(s: State, workload: Workload, priority: Option<int>, cancelEvent: Option<Event>)
    requires Accounted(s) && Fifo(s)
    ensures Fifo(Enqueued(s, workload, priority, cancelEvent))
  {
    forall m | 0 <= m < |s.log| ensures s.log[m].sequence < s.next {
      assert s.log[m] in s.log;
      assert Admitted(s, s.log[m].sequence);
    }
  }

  lemma PreparationKeepsFifo(s: State, step: Step)
    requires Accounted(s) && Fifo(s) && Enabled(s, step)
    ensures Fifo(Prepared(s, step))
  {
    match step
    case Acquire(workload, priority, cancelEvent) =>
      if !s.closed { EnqueueKeepsFifo(s, workload, priority, cancelEvent); }
    case Fire(e) => UntouchedQueueAccounts(s, Prepared(s, step));
    case _ =>
  }

  lemma StepIsFair(s: State, step: Step)
    requires Inv(s) && Fifo(s) && Enabled(s, step)
    ensures GrantsFairly(s, Next(s, step)) && Fifo(Next(s, step))
  {
    PreparationKeepsFifo(s, step);
    if Admits(s, step) {
      PreparationAccounts(s, step);
      AdmitIsFair(Prepared(s, step));
    }
  }

  // ---------- runs ----------

  ghost predicate IsRun(states: seq<State>, steps: seq<Step>) {
    && |states| == |steps| + 1
    && Initial(states[0])
    && forall i :: 0 <= i < |steps| ==> Enabled(states[i], steps[i]) && states[i + 1] == Next(states[i], steps[i])
  }

  /** In every reachable state nobody eligible waits at a free scheduler, one lease is out at most, and no call is lost. */
  lemma {:induction false} RunKeepsInv(states: seq<State>, steps: seq<Step>, n: nat)
    requires IsRun(states, steps) && n <= |steps|
    ensures Inv(states[n]) && Fifo(states[n])
  {
    if n > 0 {
      RunKeepsInv(states, steps, n - 1);
      StepKeepsInv(states[n - 1], steps[n - 1]);
      StepIsFair(states[n - 1], steps[n - 1]);
    }
  }

  ghost predicate Monotone(states: seq<State>, steps: seq<Step>) {
    && |states| == |steps| + 1
    && forall k :: 0 <= k < |steps| ==>
         GrantsFairly(states[k], states[k + 1]) && states[k].next <= states[k + 1].next
         && (states[k + 1].releases > states[k].releases ==> steps[k] == Release && states[k].active.Some?)
         && (forall w :: w in states[k + 1].waiters && w !in states[k].waiters ==> w.sequence >= states[k].next)
  }

  lemma OnlyReleaseReleases(s: State, step: Step)
    requires Enabled(s, step)
    ensures s.next <= Next(s, step).next
    ensures Next(s, step).releases > s.releases ==> step == Release && s.active.Some?
  {
  }

  lemma NewWaitersComeLast(s: State, step: Step, w: Waiter)
    requires Enabled(s, step) && w in Next(s, step).waiters && w !in s.waiters
    ensures w.sequence == s.next
  {
  }

  lemma RunsAreMonotone(states: seq<State>, steps: seq<Step>)
    requires IsRun(states, steps)
    ensures Monotone(states, steps)
  {
    forall k | 0 <= k < |steps|
      ensures && GrantsFairly(states[k], states[k + 1]) && states[k].next <= states[k + 1].next
              && (states[k + 1].releases > states[k].releases ==> steps[k] == Release && states[k].active.Some?)
              && (forall w :: w in states[k + 1].waiters && w !in states[k].waiters ==> w.sequence >= states[k].next)
    {
      RunKeepsInv(states, steps, k);
      StepIsFair(states[k], steps[k]);
      OnlyReleaseReleases(states[k], steps[k]);
      forall w | w in states[k + 1].waiters && w !in states[k].waiters ensures w.sequence >= states[k].next {
        NewWaitersComeLast(states[k], steps[k], w);
      }
    }
  }

  lemma {:induction false} WaitersStay(states: seq<State>, steps: seq<Step>, v: Waiter, i: nat, j: nat)
    requires Monotone(states, steps) && i <= j <= |steps|
    requires v.sequence < states[i].next && v in states[j].waiters
    ensures v in states[i].waiters && states[i].next <= states[j].next
    decreases j
  {
    if i < j {
      NextGrows(states, steps, i, j - 1);
      assert GrantsFairly(states[j - 1], states[j]);
      WaitersStay(states, steps, v, i, j - 1);
    }
  }

  lemma {:induction false} NextGrows(states: seq<State>, steps: seq<Step>, i: nat, j: nat)
    requires Monotone(states, steps) && i <= j <= |steps|
    ensures states[i].next <= states[j].next && |states[i].log| <= |states[j].log|
    ensures states[j].log[..|states[i].log|] == states[i].log
    decreases j
  {
    if i < j {
      NextGrows(states, steps, i, j - 1);
      assert GrantsFairly(states[j - 1], states[j]);
      assert states[j - 1].next <= states[j].next;
    }
  }

  lemma {:induction false} OnlyEarlierAdmitted(states: seq<State>, steps: seq<Step>, v: Waiter, i: nat, j: nat)
    requires Monotone(states, steps) && i <= j <= |steps|
    requires v.sequence < states[i].next && v in states[j].waiters
    requires forall k :: i < k <= j ==> IsEligible(states[k], v)
    ensures forall n :: |states[i].log| <= n < |states[j].log| ==> Before(states[j].log[n], v)
    decreases j
  {
    if i < j {
      NextGrows(states, steps, i, j - 1);
      WaitersStay(states, steps, v, j - 1, j);
      OnlyEarlierAdmitted(states, steps, v, i, j - 1);
      assert GrantsFairly(states[j - 1], states[j]);
    }
  }

  /** While a call waits and could be admitted, only calls before it, in priority or in order, are admitted. */
  lemma NobodyOvertakes(states: seq<State>, steps: seq<Step>, v: Waiter, i: nat, j: nat)
    requires IsRun(states, steps) && i <= j <= |steps|
    requires v in states[i].waiters && v in states[j].waiters
    requires forall k :: i < k <= j ==> IsEligible(states[k], v)
    ensures |states[i].log| <= |states[j].log| && states[j].log[..|states[i].log|] == states[i].log
    ensures forall n :: |states[i].log| <= n < |states[j].log| ==> Before(states[j].log[n], v)
  {
    RunKeepsInv(states, steps, i);
    assert Queued(states[i], v.sequence);
    RunsAreMonotone(states, steps);
    NextGrows(states, steps, i, j);
    OnlyEarlierAdmitted(states, steps, v, i, j);
  }

  lemma {:induction false} ReleasesNeedRelease(states: seq<State>, steps: seq<Step>, i: nat, j: nat) returns (k: nat)
    requires Monotone(states, steps) && i <= j <= |steps| && states[i].releases < states[j].releases
    ensures i <= k < j && steps[k] == Release && states[k].active.Some?
    decreases j
  {
    if states[j - 1].releases < states[j].releases {
      k := j - 1;
    } else {
      k := ReleasesNeedRelease(states, steps, i, j - 1);
    }
  }

  /** Between two grants, whoever they go to, the first lease has been released. */
  lemma LeasesAreSerial(states: seq<State>, steps: seq<Step>, i: nat, j: nat)
    requires IsRun(states, steps) && i < j < |steps|
    requires states[i + 1].leases > states[i].leases && states[j + 1].leases > states[j].leases
    ensures exists k :: i < k <= j && steps[k] == Release && states[k].active.Some?
  {
    RunsAreMonotone(states, steps);
    RunKeepsInv(states, steps, i + 1);
    RunKeepsInv(states, steps, j + 1);
    LeasesGrow(states, steps, i + 1, j);
    var k := ReleasesNeedRelease(states, steps, i + 1, j + 1);
  }

  lemma {:induction false} LeasesGrow(states: seq<State>, steps: seq<Step>, i: nat, j: nat)
    requires Monotone(states, steps) && i <= j <= |steps|
    ensures states[i].leases <= states[j].leases
    decreases j
  {
    if i < j {
      LeasesGrow(states, steps, i, j - 1);
      assert GrantsFairly(states[j - 1], states[j]);
    }
  }

  /** A lease is lost exactly when its task is interrupted between its admission and its resumption. */
  lemma LostExactlyWhenInterrupted(s: State, step: Step)
    requires Enabled(s, step) && !s.lease.Lost?
    ensures Next(s, step).lease.Lost? <==> exists q :: step == Interrupt(q) && s.lease == Granted(q)
  {
  }

  /** A lost lease is never given back by a holder, so nobody is admitted any more. */
  lemma {:induction false} LostLeaseBlocks(states: seq<State>, steps: seq<Step>, i: nat, j: nat)
    requires IsRun(states, steps) && i <= j <= |steps| && states[i].lease.Lost?
    requires forall k :: i <= k < j && steps[k] == Release ==> states[k].lease.Held?
    ensures states[j].lease == states[i].lease && states[j].active.Some? && states[j].log == states[i].log
    ensures states[j].leases == states[i].leases
    decreases j
  {
    RunKeepsInv(states, steps, j);
    if i < j {
      LostLeaseBlocks(states, steps, i, j - 1);
    }
  }

  lemma FirstIsAdmitted(workload: Workload, priority: Option<int>, cancelEvent: Option<Event>)
    ensures var s := Next(State([], None, false, false, 0, {}, NoLease, 0, 0, [], {}),
                          Acquire(workload, priority, cancelEvent));
            s.lease == Granted(0) && s.active == Some(workload) && s.waiters == [] && s.next == 1
  {
    var s := Enqueued(State([], None, false, false, 0, {}, NoLease, 0, 0, [], {}), workload, priority, cancelEvent);
    var w := Waiter(if priority.Some? then priority.value else DefaultPriority(workload), 0, workload, cancelEvent);
    assert s.waiters == [w] && [w][..0] == [];
    assert Eligible(s, []) == [] && Eligible(s, s.waiters) == [w];
    assert Without([], 0) == [] && Without(s.waiters, 0) == [];
  }

  /**
  It happens at the very first call: it is admitted at once and interrupted before its task resumes. By LostLeaseBlocks
  nobody is admitted after it, in any run that goes on from there.
  */
  lemma LeaseCanBeLost(workload: Workload, priority: Option<int>, cancelEvent: Option<Event>)
    returns (states: seq<State>, steps: seq<Step>)
    ensures steps == [Acquire(workload, priority, cancelEvent), Interrupt(0)] && IsRun(states, steps)
    ensures states[2].lease == Lost(0) && states[2].active == Some(workload)
  {
    var start := State([], None, false, false, 0, {}, NoLease, 0, 0, [], {});
    var acquire := Acquire(workload, priority, cancelEvent);
    FirstIsAdmitted(workload, priority, cancelEvent);
    var admitted := Next(start, acquire);
    steps := [acquire, Interrupt(0)];
    states := [start, admitted, Next(admitted, Interrupt(0))];
    forall i | 0 <= i < |steps| ensures Enabled(states[i], steps[i]) && states[i + 1] == Next(states[i], steps[i]) {
      assert i == 0 || i == 1;
    }
  }

  // ---------- the scheduler ----------

  lemma {:induction false} WithoutAbsent(ws: seq<Waiter>, sequence: nat)
    requires forall w :: w in ws ==> w.sequence != sequence
    ensures Without(ws, sequence) == ws
  {
    if ws != [] {
      WithoutAbsent(ws[..|ws| - 1], sequence);
    }
  }

  lemma NobodyToAdmit(s: State)
    requires WorkConserving(s)
    ensures Admit(s) == s
  {
    if Eligible(s, s.waiters) != [] {
      assert Eligible(s, s.waiters)[0] in Eligible(s, s.waiters);
    }
  }

  class LocalInferenceScheduler {
    var waiters: seq<Waiter>
    var active: bool
    var activeWorkload: Option<Workload>
    var backgroundPaused: bool
    var closed: bool
    var nextSequence: nat
    var setEvents: set<Event>
    ghost var lease: Lease
    ghost var leases: nat
    ghost var releases: nat
    ghost var log: seq<Waiter>
    ghost var gone: set<nat>

    predicate Valid()
      reads this
    {
      active <==> activeWorkload.Some?
    }

    ghost function View(): State
      reads this
    {
      State(waiters, activeWorkload, backgroundPaused, closed, nextSequence, setEvents, lease, leases, releases, log, gone)
    }

    constructor ()
      ensures Valid() && Initial(View()) && Inv(View())
    {
      waiters, active, activeWorkload := [], false, None;
      backgroundPaused, closed, nextSequence, setEvents := false, false, 0, {};
      lease, leases, releases, log, gone := NoLease, 0, 0, [], {};
    }

    method RemoveWaiter(w: Waiter)
      modifies this`waiters
      ensures waiters == Without(old(waiters), w.sequence)
    {
      var kept := [];
      for i := 0 to |waiters|
        invariant kept == Without(waiters[..i], w.sequence)
      {
        assert waiters[..i + 1][..i] == waiters[..i];
        if waiters[i].sequence != w.sequence {
          kept := kept + [waiters[i]];
        }
      }
      assert waiters[..|waiters|] == waiters;
      waiters := kept;
    }

    method EligibleWaiters() returns (eligible: seq<Waiter>)
      ensures eligible == Eligible(View(), waiters)
    {
      eligible := [];
      for i := 0 to |waiters|
        invariant eligible == Eligible(View(), waiters[..i])
      {
        assert waiters[..i + 1][..i] == waiters[..i];
        var w := waiters[i];
        if !(w.cancelEvent.Some? && w.cancelEvent.value in setEvents) && !(backgroundPaused && w.workload == Summary) {
          eligible := eligible + [w];
        }
      }
      assert waiters[..|waiters|] == waiters;
    }

    method Minimum(eligible: seq<Waiter>) returns (best: Waiter)
      requires eligible != []
      ensures best == Least(eligible)
    {
      best := eligible[0];
      for i := 1 to |eligible|
        invariant best == Least(eligible[..i])
      {
        assert eligible[..i + 1][..i] == eligible[..i];
        if Before(eligible[i], best) {
          best := eligible[i];
        }
      }
      assert eligible[..|eligible|] == eligible;
    }

    /** Hand the lease to the waiter. */
    method Grant(w: Waiter)
      requires Valid()
      modifies this
      ensures Valid() && View() == Granting(old(View()), w)
    {
      ghost var before := View();
      RemoveWaiter(w);
      active := true;
      activeWorkload := Some(w.workload);
      lease, leases, log := Granted(w.sequence), leases + 1, log + [w];
      assert View() == Granting(before, w);
    }

    method AdmitNext()
      requires Valid()
      modifies this
      ensures Valid() && View() == Admit(old(View()))
    {
      if active || closed {
        return;
      }
      var eligible := EligibleWaiters();
      if eligible == [] {
        return;
      }
      var w := Minimum(eligible);
      Grant(w);
    }

    method PushWaiter(workload: Workload, priority: Option<int>, cancelEvent: Option<Event>)
      modifies this`waiters, this`nextSequence
      ensures View() == Enqueued(old(View()), workload, priority, cancelEvent)
    {
      var p := if priority.Some? then priority.value else DefaultPriority(workload);
      waiters := waiters + [Waiter(p, nextSequence, workload, cancelEvent)];
      nextSequence := nextSequence + 1;
    }

    /** The first part of an acquire: queue, and be admitted at once where possible; None where the scheduler is closed. */
    method Enqueue(
        workload: Workload, priority: Option<int>, cancelEvent: Option<Event>)
      returns (sequence: Option<nat>)
      requires Valid()
      modifies this
      ensures Valid() && View() == Next(old(View()), Acquire(workload, priority, cancelEvent))
      ensures sequence == if old(closed) then None else Some(old(nextSequence))
    {
      if closed {
        return None;
      }
      sequence := Some(nextSequence);
      PushWaiter(workload, priority, cancelEvent);
      AdmitNext();
    }

    /**
    An acquire that waits no longer: timed out, its event set, its task cancelled, or refused by a close. admitted is
    the flag of its waiter; removing one that has left the queue is harmless, and so is admitting after it.
    */
    method Withdraw(w: Waiter, admitted: bool)
      requires Valid() && Inv(View()) && w.sequence < nextSequence
      requires admitted <==> Admitted(View(), w.sequence)
      requires Queued(View(), w.sequence) ==> w in waiters
      modifies this
      ensures Valid() && View() == Next(old(View()), Interrupt(w.sequence))
    {
      ghost var before := View();
      if admitted {
        lease := if lease == Granted(w.sequence) then Lost(w.sequence) else lease;
      } else {
        if Queued(before, w.sequence) {
          gone := gone + {w.sequence};
        } else {
          WithoutAbsent(waiters, w.sequence);
          NobodyToAdmit(before);
        }
        RemoveWaiter(w);
        assert View() == Prepared(before, Interrupt(w.sequence));
        AdmitNext();
      }
    }

    method TryAcquire(workload: Workload) returns (ok: bool)
      requires Valid()
      modifies this
      ensures Valid() && View() == Next(old(View()), Step.TryAcquire(workload))
      ensures ok <==> old(waiters == [] && !active && !closed && !(backgroundPaused && workload == Summary))
    {
      if closed || active || waiters != [] {
        return false;
      }
      if backgroundPaused && workload == Summary {
        return false;
      }
      active := true;
      activeWorkload := Some(workload);
      lease, leases := Held(None), leases + 1;
      ok := true;
    }

    /** false where there is no active lease to give back. */
    method GiveBack() returns (ok: bool)
      requires Valid()
      modifies this
      ensures Valid() && View() == Next(old(View()), Release) && ok == old(active)
    {
      if !active {
        return false;
      }
      active := false;
      activeWorkload := None;
      lease, releases := NoLease, releases + 1;
      assert View() == Prepared(old(View()), Release);
      AdmitNext();
      ok := true;
    }

    method PauseBackground()
      modifies this`backgroundPaused
      ensures View() == Next(old(View()), Pause) && backgroundPaused
    {
      backgroundPaused := true;
    }

    method ResumeBackground()
      requires Valid()
      modifies this
      ensures Valid() && View() == Next(old(View()), Unpause) && !backgroundPaused
    {
      backgroundPaused := false;
      AdmitNext();
    }

    /** Every queued call is refused. */
    method Shutdown() returns (refused: seq<Waiter>)
      modifies this`closed, this`gone, this`waiters
      ensures View() == Next(old(View()), Close) && refused == old(waiters) && closed && waiters == []
    {
      closed := true;
      refused := waiters;
      gone := gone + Sequences(waiters);
      waiters := [];
    }
  }

  /** A waiter still queued has not been admitted, so its flag tells the two kinds of interruption apart. */
  lemma QueuedIsNotAdmitted(s: State, w: Waiter)
    requires Inv(s) && w in s.waiters
    ensures s.lease != Granted(w.sequence) && s.lease != Lost(w.sequence) && !Admitted(s, w.sequence)
  {
    assert Queued(s, w.sequence);
  }
}
