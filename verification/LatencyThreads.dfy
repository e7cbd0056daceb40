/** The latency ring under any number of goroutines, one memory access at a time, behind its mutex. */
module LatencyThreads {
  import opened Common
  import opened Decimal
  import opened Latency

  type Thread = nat

  /** Where a goroutine stands.  was and from only record what the last writes replaced. */
  datatype Local =
    | Idle
    | AddCalled(d: int)
    | AddLocked(d: int)
    | AddWritten(d: int, was: int)
    | AddAdvanced(d: int, from: int, was: int)
    | AddFlagged(d: int)
    | AvgCalled
    | AvgLocked
    | AvgSumming(n: nat, i: nat, total: int)
    | AvgReady(ms: int)

  datatype Event = Added(d: int) | Averaged(ms: int)

  /** log orders the finished calls by their unlock, which lies within each call. */
  datatype State = State(lock: Option<Thread>, buf: seq<int>, idx: int, full: bool, threads: map<Thread, Local>,
                         log: seq<Event>)

  datatype Step = CallAdd(t: Thread, d: int) | CallAvg(t: Thread) | Go(t: Thread)

  ghost predicate IsInit(s: State) {
    s.lock.None? && |s.buf| == CAPACITY && s.idx == 0 && !s.full && s.log == []
    && forall t :: t in s.threads ==> s.threads[t].Idle?
  }

  predicate Enabled(s: State, step: Step) {
    step.t in s.threads && |s.buf| == CAPACITY && 0 <= s.idx < CAPACITY
    && match step
       case CallAdd(t, _) => s.threads[t].Idle?
       case CallAvg(t) => s.threads[t].Idle?
       case Go(t) =>
         match s.threads[t]
         case Idle => false
         case AddCalled(_) => s.lock.None?
         case AvgCalled => s.lock.None?
         case AvgSumming(n, _, _) => 0 < n <= CAPACITY
         case _ => true
  }

  function To(s: State, t: Thread, l: Local): State {
    s.(threads := s.threads[t := l])
  }

  /** The next access of a running call. */
  function Advance(s: State, t: Thread): State
    requires Enabled(s, Go(t))
  {
    match s.threads[t]
    case AddCalled(d) => To(s, t, AddLocked(d)).(lock := Some(t))
    case AddLocked(d) => To(s, t, AddWritten(d, s.buf[s.idx])).(buf := s.buf[s.idx := d])
    case AddWritten(d, was) => To(s, t, AddAdvanced(d, s.idx, was)).(idx := (s.idx + 1) % CAPACITY)
    case AddAdvanced(d, _, _) => To(s, t, AddFlagged(d)).(full := s.full || s.idx == 0)
    case AddFlagged(d) => To(s, t, Idle).(lock := None, log := s.log + [Added(d)])
    case AvgCalled => To(s, t, AvgLocked).(lock := Some(t))
    case AvgLocked =>
      var n := if s.full then CAPACITY else s.idx;
      To(s, t, if n == 0 then AvgReady(0) else AvgSumming(n, 0, 0))
    case AvgSumming(n, i, total) =>
      To(s, t, if i < n then AvgSumming(n, i + 1, Wrap64(total + s.buf[i]))
        else AvgReady(Quo(Quo(total, n), MILLISECOND)))
    case AvgReady(ms) => To(s, t, Idle).(lock := None, log := s.log + [Averaged(ms)])
  }

  function Apply(s: State, step: Step): State
    requires Enabled(s, step)
  {
    match step
    case CallAdd(t, d) => To(s, t, AddCalled(d))
    case CallAvg(t) => To(s, t, AvgCalled)
    case Go(t) => Advance(s, t)
  }

  predicate Trace(s: State, steps: seq<Step>, t: State)
    decreases |steps|
  {
    if steps == [] then s == t else Enabled(s, steps[0]) && Trace(Apply(s, steps[0]), steps[1..], t)
  }

  // ---------------------------------------------------------------- the serial order

  function Adds(log: seq<Event>): seq<int> {
    if log == [] then []
    else
      var last := log[|log| - 1];
      Adds(log[..|log| - 1]) + if last.Added? then [last.d] else []
  }

  /** Run one after the other in this order, the calls would return just this. */
  ghost predicate Serial(log: seq<Event>) {
    forall k :: 0 <= k < |log| && log[k].Averaged? ==> log[k].ms == Average(Window(Adds(log[..k])))
  }

  predicate Holds(l: Local) {
    !l.Idle? && !l.AddCalled? && !l.AvgCalled?
  }

  /** What the holder's progress makes of the shared memory. */
  ghost predicate HolderInv(l: Local, buf: seq<int>, idx: int, full: bool, seen: seq<int>) {
    match l
    case AddWritten(d, was) =>
      |buf| == CAPACITY && 0 <= idx < CAPACITY && buf[idx] == d && Ring(buf[idx := was], idx, full, seen)
    case AddAdvanced(d, from, was) =>
      |buf| == CAPACITY && 0 <= from < CAPACITY && buf[from] == d && idx == (from + 1) % CAPACITY
      && Ring(buf[from := was], from, full, seen)
    case AddFlagged(d) => Ring(buf, idx, full, seen + [d])
    case AvgSumming(n, i, total) =>
      Ring(buf, idx, full, seen) && n == (if full then CAPACITY else idx) && 0 < n && i <= n
        && total == Wrap64(Sum(buf[..i]))
    case AvgReady(ms) => Ring(buf, idx, full, seen) && ms == Average(Window(seen))
    case _ => Ring(buf, idx, full, seen)
  }

  ghost predicate Inv(s: State) {
    && Serial(s.log)
    && (s.lock.Some? ==> s.lock.value in s.threads)
    && (forall t :: t in s.threads ==> (Holds(s.threads[t]) <==> s.lock == Some(t)))
    && HolderInv(if s.lock.Some? then s.threads[s.lock.value] else Idle, s.buf, s.idx, s.full, Adds(s.log))
  }

  lemma SerialAdd(log: seq<Event>, d: int)
    requires Serial(log)
    ensures Serial(log + [Added(d)]) && Adds(log + [Added(d)]) == Adds(log) + [d]
  {
    assert forall k :: 0 <= k <= |log| ==> (log + [Added(d)])[..k] == log[..k];
    assert log[..|log|] == log;
  }

  lemma SerialAvg(log: seq<Event>, ms: int)
    requires Serial(log) && ms == Average(Window(Adds(log)))
    ensures Serial(log + [Averaged(ms)]) && Adds(log + [Averaged(ms)]) == Adds(log)
  {
    assert forall k :: 0 <= k <= |log| ==> (log + [Averaged(ms)])[..k] == log[..k];
    assert log[..|log|] == log;
  }

  lemma WriteThenAdvance(buf: seq<int>, idx: int, full: bool, seen: seq<int>, d: int, was: int)
    requires |buf| == CAPACITY && 0 <= idx < CAPACITY && buf[idx] == d && Ring(buf[idx := was], idx, full, seen)
    ensures var next := (idx + 1) % CAPACITY; Ring(buf, next, full || next == 0, seen + [d])
  {
    RingAdd(buf[idx := was], idx, full, seen, d);
    assert buf[idx := was][idx := d] == buf;
  }

  lemma SumStep(buf: seq<int>, i: nat)
    requires i < |buf|
    ensures Wrap64(Wrap64(Sum(buf[..i])) + buf[i]) == Wrap64(Sum(buf[..i + 1]))
  {
    assert buf[..i + 1][..i] == buf[..i];
    WrapAdds(Sum(buf[..i]), buf[i]);
  }

  lemma SumDone(buf: seq<int>, idx: int, full: bool, seen: seq<int>)
    requires Ring(buf, idx, full, seen)
    ensures var n := if full then CAPACITY else idx;
            Average(Window(seen)) == if n == 0 then 0 else Quo(Quo(Wrap64(Sum(buf[..n])), n), MILLISECOND)
  {
    RingSum(buf, idx, full, seen);
  }

  lemma AvgKept(s: State, t: Thread, seen: seq<int>)
    requires Enabled(s, Go(t)) && (s.threads[t].AvgLocked? || s.threads[t].AvgSumming?)
    requires HolderInv(s.threads[t], s.buf, s.idx, s.full, seen)
    ensures var u := Advance(s, t); HolderInv(u.threads[t], u.buf, u.idx, u.full, seen)
  {
    hide Ring;
    hide Average;
    hide Quo;
    hide Sum;
    hide Wrap64;
    if s.threads[t].AvgLocked? {
      SumDone(s.buf, s.idx, s.full, seen);
      SumNone(s.buf);
    } else if s.threads[t].i < s.threads[t].n {
      SumStep(s.buf, s.threads[t].i);
    } else {
      SumDone(s.buf, s.idx, s.full, seen);
    }
  }

  lemma SumNone(buf: seq<int>)
    ensures Wrap64(Sum(buf[..0])) == 0
  {
    assert buf[..0] == [];
  }

  lemma AddKept(s: State, t: Thread, seen: seq<int>)
    requires Enabled(s, Go(t)) && (s.threads[t].AddLocked? || s.threads[t].AddWritten? || s.threads[t].AddAdvanced?)
    requires HolderInv(s.threads[t], s.buf, s.idx, s.full, seen)
    ensures var u := Advance(s, t); HolderInv(u.threads[t], u.buf, u.idx, u.full, seen)
  {
    hide Ring;
    hide Average;
    match s.threads[t]
    case AddLocked(d) => assert s.buf[s.idx := d][s.idx := s.buf[s.idx]] == s.buf;
    case AddWritten(d, was) =>
    case AddAdvanced(d, from, was) => WriteThenAdvance(s.buf, from, s.full, seen, d, was);
  }

  lemma HolderKept(s: State, t: Thread)
    requires Inv(s) && Enabled(s, Go(t)) && Holds(s.threads[t]) && !s.threads[t].AddFlagged? && !s.threads[t].AvgReady?
    ensures var u := Advance(s, t); HolderInv(u.threads[t], u.buf, u.idx, u.full, Adds(s.log))
  {
    hide HolderInv;
    hide Advance;
    hide Serial;
    hide Adds;
    if s.threads[t].AvgLocked? || s.threads[t].AvgSumming? {
      AvgKept(s, t, Adds(s.log));
    } else {
      AddKept(s, t, Adds(s.log));
    }
  }

  lemma StepKeepsInv(s: State, step: Step)
    requires Inv(s) && Enabled(s, step)
    ensures Inv(Apply(s, step))
  {
    hide Serial;
    hide Adds;
    hide Ring;
    hide Average;
    if step.Go? {
      var l := s.threads[step.t];
      if l.AddFlagged? {
        SerialAdd(s.log, l.d);
      } else if l.AvgReady? {
        SerialAvg(s.log, l.ms);
      } else if Holds(l) {
        HolderKept(s, step.t);
        hide HolderInv;
      }
    }
  }

  lemma StartIsEmpty(s: State)
    requires IsInit(s)
    ensures Inv(s)
  {
  }

  lemma {:induction false} RunKeepsInv(s: State, steps: seq<Step>, t: State)
    requires Inv(s) && Trace(s, steps, t)
    ensures Inv(t)
    decreases |steps|
  {
    if steps != [] {
      StepKeepsInv(s, steps[0]);
      RunKeepsInv(Apply(s, steps[0]), steps[1..], t);
    }
  }

  /** Every access is in bounds and every division is by a count: no call waits for anything but the lock. */
  lemma WaitsForTheLockOnly(s: State, t: Thread)
    requires Inv(s) && t in s.threads && !s.threads[t].Idle?
    ensures |s.buf| == CAPACITY && 0 <= s.idx < CAPACITY
    ensures Enabled(s, Go(t)) <==> (s.threads[t].AddCalled? || s.threads[t].AvgCalled? ==> s.lock.None?)
  {
    hide Serial;
    hide Adds;
  }

  /** So while a call is running some call can go on. */
  lemma NeverStuck(s: State, t: Thread) returns (u: Thread)
    requires Inv(s) && t in s.threads && !s.threads[t].Idle?
    ensures Enabled(s, Go(u))
  {
    hide Serial;
    hide HolderInv;
    hide Enabled;
    u := if s.lock.Some? then s.lock.value else t;
    WaitsForTheLockOnly(s, u);
  }

  /** And a call may begin whenever its goroutine is in none. */
  lemma IdleCanCall(s: State, t: Thread, d: int)
    requires Inv(s) && t in s.threads && s.threads[t].Idle?
    ensures Enabled(s, CallAdd(t, d)) && Enabled(s, CallAvg(t))
  {
    hide Serial;
    hide Adds;
    if s.lock.Some? { WaitsForTheLockOnly(s, s.lock.value); }
  }

  /**
   For every interleaving the finished calls have a serial order, each within its own call, in which every
   Avg returns the average of the adds before it; and an Avg that holds the lock never finds the index back at
   zero without the full flag, unless nothing was added yet.
   */
  lemma CallsAreSerial(s: State, steps: seq<Step>, t: State)
    requires IsInit(s) && Trace(s, steps, t)
    ensures Serial(t.log)
    ensures forall a :: a in t.threads && t.threads[a].AvgLocked? && t.idx == 0 && !t.full ==> Adds(t.log) == []
    ensures forall a :: a in t.threads && t.threads[a].AvgReady? ==> t.threads[a].ms == Average(Window(Adds(t.log)))
  {
    StartIsEmpty(s);
    RunKeepsInv(s, steps, t);
  }

  /** Between its two writes the 256th add shows exactly that state: it is the lock that hides it. */
  lemma MidwayLooksEmpty(s: State, t: Thread)
    requires Inv(s) && t in s.threads && s.threads[t].AddAdvanced? && |Adds(s.log)| == CAPACITY - 1
    ensures s.idx == 0 && !s.full
  {
  }

  // ---------------------------------------------------------------- every call is there, once

  /** What a goroutine can call. */
  datatype Call = AddOf(d: int) | AvgOf

  predicate Begins(step: Step, c: Call) {
    match step
    case CallAdd(_, d) => c == AddOf(d)
    case CallAvg(_) => c == AvgOf
    case Go(_) => false
  }

  predicate Runs(l: Local, c: Call) {
    match l
    case Idle => false
    case AddCalled(d) => c == AddOf(d)
    case AddLocked(d) => c == AddOf(d)
    case AddWritten(d, _) => c == AddOf(d)
    case AddAdvanced(d, _, _) => c == AddOf(d)
    case AddFlagged(d) => c == AddOf(d)
    case _ => c == AvgOf
  }

  predicate Ends(e: Event, c: Call) {
    match e
    case Added(d) => c == AddOf(d)
    case Averaged(_) => c == AvgOf
  }

  function Running(threads: map<Thread, Local>, c: Call): set<Thread> {
    set t | t in threads && Runs(threads[t], c)
  }

  function Ended(log: seq<Event>, c: Call): nat {
    if log == [] then 0 else Ended(log[..|log| - 1], c) + if Ends(log[|log| - 1], c) then 1 else 0
  }

  function Begun(steps: seq<Step>, c: Call): nat
    decreases |steps|
  {
    if steps == [] then 0 else (if Begins(steps[0], c) then 1 else 0) + Begun(steps[1..], c)
  }

  lemma RunningAfter(threads: map<Thread, Local>, t: Thread, l: Local, c: Call)
    requires t in threads
    ensures |Running(threads[t := l], c)| ==
            |Running(threads, c)| - (if Runs(threads[t], c) then 1 else 0) + (if Runs(l, c) then 1 else 0)
  {
    var others := Running(threads, c) - {t};
    assert Running(threads, c) == if Runs(threads[t], c) then others + {t} else others;
    assert Running(threads[t := l], c) == if Runs(l, c) then others + {t} else others;
  }

  lemma EndedMore(log: seq<Event>, e: Event, c: Call)
    ensures Ended(log + [e], c) == Ended(log, c) + if Ends(e, c) then 1 else 0
  {
    assert (log + [e])[..|log + [e]| - 1] == log;
  }

  /** A step begins a call, ends one in the log, or leaves all of them as they are. */
  lemma StepShape(s: State, step: Step, c: Call) returns (e: Option<Event>)
    requires Enabled(s, step)
    ensures step.t in s.threads && step.t in Apply(s, step).threads
    ensures var u := Apply(s, step); var before, after := s.threads[step.t], u.threads[step.t];
            && u.threads == s.threads[step.t := after]
            && match e
               case None => u.log == s.log && !(Runs(before, c) && Begins(step, c))
                            && (Runs(after, c) <==> Runs(before, c) || Begins(step, c))
               case Some(ev) => u.log == s.log + [ev] && !Runs(after, c) && !Begins(step, c)
                                && (Ends(ev, c) <==> Runs(before, c))
  {
    var l := s.threads[step.t];
    e := if step.Go? && l.AddFlagged? then Some(Added(l.d))
         else if step.Go? && l.AvgReady? then Some(Averaged(l.ms)) else None;
  }

  lemma StepLogs(s: State, step: Step, c: Call)
    requires Enabled(s, step)
    ensures var u := Apply(s, step);
            Ended(u.log, c) + |Running(u.threads, c)| ==
            Ended(s.log, c) + |Running(s.threads, c)| + if Begins(step, c) then 1 else 0
  {
    var e := StepShape(s, step, c);
    hide *;
    var u := Apply(s, step);
    RunningAfter(s.threads, step.t, u.threads[step.t], c);
    if e.Some? { EndedMore(s.log, e.value, c); }
  }

  /**
   Calls are never lost, doubled or mixed up: in every run those begun are those ended in the log and those
   running.
   */
  lemma {:induction false} CallsAreLogged(s: State, steps: seq<Step>, t: State, c: Call)
    requires Trace(s, steps, t)
    ensures Ended(t.log, c) + |Running(t.threads, c)| ==
            Ended(s.log, c) + |Running(s.threads, c)| + Begun(steps, c)
    decreases |steps|
  {
    hide Enabled;
    hide Apply;
    hide Running;
    hide Ended;
    hide Begins;
    if steps != [] {
      StepLogs(s, steps[0], c);
      CallsAreLogged(Apply(s, steps[0]), steps[1..], t, c);
    }
  }

  /** The accesses a call has yet to make. */
  function ToGo(l: Local): nat {
    match l
    case Idle => 0
    case AddCalled(_) => 5
    case AddLocked(_) => 4
    case AddWritten(_, _) => 3
    case AddAdvanced(_, _, _) => 2
    case AddFlagged(_) => 1
    case AvgCalled => 260
    case AvgLocked => 259
    case AvgSumming(n, i, _) => if i <= n then n - i + 2 else 2
    case AvgReady(_) => 1
  }

  /** Every access brings its call nearer the end and leaves the others where they are: none takes more than 260. */
  lemma GoesOn(s: State, t: Thread, u: Thread)
    requires Inv(s) && Enabled(s, Go(t)) && u in s.threads
    ensures ToGo(s.threads[t]) <= 260
    ensures var after := Advance(s, t).threads;
            && after.Keys == s.threads.Keys && ToGo(after[t]) < ToGo(s.threads[t])
            && (u != t ==> after[u] == s.threads[u])
    ensures ToGo(s.threads[u]) == 0 <==> s.threads[u].Idle?
  {
    hide Serial;
    hide Adds;
  }
}
