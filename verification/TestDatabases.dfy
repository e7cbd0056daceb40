/**
 The sweep of leftover test databases, run by many processes at once: names, one sweep, and the steps of any
 number of processes listing, checking, dropping, creating, connecting and exiting.
 */
module TestDatabases {
  import opened Common
  import Decimal

  type Pid = int
  type Name = string

  const PREFIX: string := "ogen_test_"

  // ---------------------------------------------------------------- names

  function NameOf(pid: Pid, n: int): Name {
    PREFIX + Decimal.Format(pid) + "_" + Decimal.Format(n)
  }

  /** The pid a name carries, None when the name does not parse or the pid is not positive. */
  function CreatorOf(name: Name): Option<Pid> {
    if !(PREFIX <= name) then None
    else
      match Decimal.Cut(name[|PREFIX|..], '_')
      case None => None
      case Some((pid, _)) =>
        match Decimal.ParseInt(pid)
        case Some(n) => if n > 0 then Some(n) else None
        case None => None
  }

  lemma NameParts(pid: Pid, n: int)
    ensures PREFIX <= NameOf(pid, n)
    ensures Decimal.Cut(NameOf(pid, n)[|PREFIX|..], '_') == Some((Decimal.Format(pid), Decimal.Format(n)))
  {
    hide Decimal.Format;
    hide Decimal.Cut;
    var rest := Decimal.Format(pid) + "_" + Decimal.Format(n);
    assert NameOf(pid, n) == PREFIX + rest;
    assert NameOf(pid, n)[|PREFIX|..] == rest;
    Decimal.ParseFormat(pid);
    Decimal.CutFirst(Decimal.Format(pid), '_', Decimal.Format(n));
  }

  /** Printing a name and parsing it back gives its pid. */
  lemma NameRoundTrip(pid: Pid, n: int)
    requires 0 < pid <= Decimal.MAX_INT64
    ensures CreatorOf(NameOf(pid, n)) == Some(pid) && PREFIX <= NameOf(pid, n)
  {
    Decimal.ParseFormat(pid);
    NameParts(pid, n);
  }

  /** Different pids or sequence numbers give different names. */
  lemma NamesDiffer(p: Pid, m: int, q: Pid, n: int)
    requires NameOf(p, m) == NameOf(q, n)
    ensures p == q && m == n
  {
    NameParts(p, m);
    NameParts(q, n);
    hide *;
    Decimal.FormatInjective(p, q);
    Decimal.FormatInjective(m, n);
  }

  // ---------------------------------------------------------------- one sweep

  /** creatorAlive, run by process self on a host where these pids run. */
  predicate CreatorAlive(name: Name, self: Pid, running: set<Pid>) {
    match CreatorOf(name)
    case None => false
    case Some(pid) => pid == self || pid in running
  }

  class Server {
    var connections: map<Name, nat>

    constructor ()
      ensures connections == map[]
    {
      connections := map[];
    }

    /** names is the listing; the drop of a database in use errors out and is skipped. */
    method SweepStale(names: seq<Name>, self: Pid, running: set<Pid>)
      modifies this
      ensures connections == map n | n in old(connections)
                                     && !(n in names && !CreatorAlive(n, self, running) && old(connections)[n] == 0)
                               :: old(connections)[n]
    {
      ghost var before := connections;
      for k := 0 to |names|
        invariant connections == map n | n in before
                                         && !(n in names[..k] && !CreatorAlive(n, self, running) && before[n] == 0)
                                   :: before[n]
      {
        var n := names[k];
        assert names[..k + 1] == names[..k] + [n];
        if !CreatorAlive(n, self, running) && n in connections && connections[n] == 0 {
          connections := connections - {n};
        }
      }
      assert names[..|names|] == names;
    }
  }

  /** The name is the prefix, a positive 64-bit number for the pid, an underscore and something. */
  predicate Names(name: Name, digits: string, pid: Pid, rest: string) {
    name == PREFIX + digits + "_" + rest && '_' !in digits && Decimal.ParseInt(digits) == Some(pid) && pid > 0
  }

  lemma CreatorIff(name: Name, pid: Pid)
    ensures CreatorOf(name) == Some(pid) <==> exists digits, rest :: Names(name, digits, pid, rest)
  {
    hide Decimal.ParseInt;
    if CreatorOf(name) == Some(pid) {
      Decimal.CutParts(name[|PREFIX|..], '_');
      hide Decimal.Cut;
      var (digits, rest) := Decimal.Cut(name[|PREFIX|..], '_').value;
      assert name == PREFIX + name[|PREFIX|..];
      assert Names(name, digits, pid, rest);
    }
    forall digits, rest | Names(name, digits, pid, rest) ensures CreatorOf(name) == Some(pid) {
      assert PREFIX + digits + "_" + rest == PREFIX + (digits + "_" + rest);
      assert name[|PREFIX|..] == digits + "_" + rest;
      Decimal.CutFirst(digits, '_', rest);
    }
  }

  /** A database survives the check exactly when its name carries the sweeping process's pid or a running one's. */
  lemma AliveIff(name: Name, self: Pid, running: set<Pid>)
    ensures CreatorAlive(name, self, running) <==>
            exists digits, pid, rest :: Names(name, digits, pid, rest) && (pid == self || pid in running)
  {
    hide Names;
    if CreatorOf(name).Some? { CreatorIff(name, CreatorOf(name).value); }
    forall digits, pid, rest | Names(name, digits, pid, rest) ensures CreatorOf(name) == Some(pid) {
      CreatorIff(name, pid);
    }
    hide CreatorOf;
  }

  // ---------------------------------------------------------------- many processes

  type Host = nat
  datatype Process = Process(host: Host, pid: Pid)

  /** Before its first database a process sweeps once: dropping is the name it is about to drop. */
  datatype Phase = Fresh | Sweeping(todo: seq<Name>, dropping: Option<Name>) | Ready(created: nat)

  datatype Database = Database(creator: Option<Process>, connections: nat)

  datatype State = State(phases: map<Process, Phase>, used: set<Pid>, dbs: map<Name, Database>)

  datatype Step =
    | Spawn(p: Process)
    | List(p: Process, names: seq<Name>)
    | Check(p: Process)
    | Drop(p: Process)
    | EndSweep(p: Process)
    | Create(p: Process)
    | Connect(name: Name)
    | Disconnect(name: Name)
    | Exit(p: Process)

  /** Which hosts the processes run on, and whether the system hands out a pid again. */
  datatype World = World(hosts: set<Host>, reuse: bool)

  function PidsOn(phases: map<Process, Phase>, host: Host): set<Pid> {
    set p | p in phases && p.host == host :: p.pid
  }

  ghost predicate IsInit(s: State) {
    && s.phases == map[]
    && forall n :: n in s.dbs ==> s.dbs[n].creator.None? && (CreatorOf(n).Some? ==> CreatorOf(n).value in s.used)
  }

  predicate IsDropping(s: State, p: Process) {
    p in s.phases && s.phases[p].Sweeping? && s.phases[p].dropping.Some?
  }

  predicate HasNext(s: State, p: Process) {
    p in s.phases && s.phases[p].Sweeping? && s.phases[p].dropping.None? && s.phases[p].todo != []
  }

  predicate Enabled(w: World, s: State, step: Step) {
    match step
    case Spawn(p) => p.host in w.hosts && p !in s.phases && 0 < p.pid <= Decimal.MAX_INT64
      && (w.reuse || p.pid !in s.used)
    case List(p, names) => p in s.phases && s.phases[p].Fresh? && (forall n :: n in names ==> n in s.dbs)
                           && forall n :: n in s.dbs && PREFIX <= n ==> n in names
    case Check(p) => HasNext(s, p)
    case Drop(p) => IsDropping(s, p)
    case EndSweep(p) => p in s.phases && s.phases[p] == Sweeping([], None)
    case Create(p) => p in s.phases && s.phases[p].Ready? && NameOf(p.pid, s.phases[p].created + 1) !in s.dbs
    case Connect(n) => n in s.dbs
    case Disconnect(n) => n in s.dbs && s.dbs[n].connections > 0
    case Exit(p) => p in s.phases
  }

  function DoCheck(s: State, p: Process): State
    requires HasNext(s, p)
  {
    var n, rest := s.phases[p].todo[0], s.phases[p].todo[1..];
    var drop := if CreatorAlive(n, p.pid, PidsOn(s.phases, p.host)) then None else Some(n);
    s.(phases := s.phases[p := Sweeping(rest, drop)])
  }

  function DoDrop(s: State, p: Process): State
    requires IsDropping(s, p)
  {
    var n := s.phases[p].dropping.value;
    s.(phases := s.phases[p := Sweeping(s.phases[p].todo, None)],
       dbs := if n in s.dbs && s.dbs[n].connections == 0 then s.dbs - {n} else s.dbs)
  }

  function DoCreate(s: State, p: Process): State
    requires p in s.phases && s.phases[p].Ready?
  {
    var k := s.phases[p].created + 1;
    s.(phases := s.phases[p := Ready(k)], dbs := s.dbs[NameOf(p.pid, k) := Database(Some(p), 0)])
  }

  function Apply(w: World, s: State, step: Step): State
    requires Enabled(w, s, step)
  {
    match step
    case Spawn(p) => s.(phases := s.phases[p := Fresh], used := s.used + {p.pid})
    case List(p, names) => s.(phases := s.phases[p := Sweeping(names, None)])
    case Check(p) => DoCheck(s, p)
    case Drop(p) => DoDrop(s, p)
    case EndSweep(p) => s.(phases := s.phases[p := Ready(0)])
    case Create(p) => DoCreate(s, p)
    case Connect(n) => s.(dbs := s.dbs[n := s.dbs[n].(connections := s.dbs[n].connections + 1)])
    case Disconnect(n) => s.(dbs := s.dbs[n := s.dbs[n].(connections := s.dbs[n].connections - 1)])
    case Exit(p) => s.(phases := s.phases - {p})
  }

  predicate Trace(w: World, s: State, steps: seq<Step>, t: State)
    decreases |steps|
  {
    if steps == [] then s == t
    else Enabled(w, s, steps[0]) && Trace(w, Apply(w, s, steps[0]), steps[1..], t)
  }

  /** The step drops a database whose creator is still running. */
  predicate Harms(s: State, step: Step) {
    step.Drop? && IsDropping(s, step.p)
    && var n := s.phases[step.p].dropping.value;
       n in s.dbs && s.dbs[n].connections == 0 && s.dbs[n].creator.Some? && s.dbs[n].creator.value in s.phases
  }

  // ---------------------------------------------------------------- safety

  predicate Known(n: Name, used: set<Pid>) {
    CreatorOf(n).Some? ==> CreatorOf(n).value in used
  }

  /** The pid in the name belongs to no running process, and being used up never will. */
  ghost predicate Dead(n: Name, phases: map<Process, Phase>, used: set<Pid>) {
    Known(n, used) && forall p :: p in phases ==> CreatorOf(n) != Some(p.pid)
  }

  ghost predicate DbsInv(dbs: map<Name, Database>, used: set<Pid>) {
    forall n :: n in dbs ==> Known(n, used) && (dbs[n].creator.Some? ==> CreatorOf(n) == Some(dbs[n].creator.value.pid))
  }

  ghost predicate PhaseInv(ph: Phase, phases: map<Process, Phase>, used: set<Pid>) {
    ph.Sweeping? ==>
      && (forall n :: n in ph.todo ==> Known(n, used))
      && (ph.dropping.Some? ==> Dead(ph.dropping.value, phases, used))
  }

  ghost predicate Inv(w: World, s: State) {
    && DbsInv(s.dbs, s.used)
    && (forall p :: p in s.phases ==> PhaseInv(s.phases[p], s.phases, s.used))
    && (forall p :: p in s.phases ==> p.host in w.hosts && p.pid in s.used && 0 < p.pid <= Decimal.MAX_INT64)
  }

  ghost predicate Calm(w: World) {
    !w.reuse && forall a, b :: a in w.hosts && b in w.hosts ==> a == b
  }

  lemma CheckedIsDead(w: World, s: State, p: Process)
    requires Calm(w) && Inv(w, s) && HasNext(s, p)
    requires !CreatorAlive(s.phases[p].todo[0], p.pid, PidsOn(s.phases, p.host))
    ensures Dead(s.phases[p].todo[0], s.phases, s.used)
  {
    var n := s.phases[p].todo[0];
    assert n in s.phases[p].todo;
    forall q | q in s.phases ensures CreatorOf(n) != Some(q.pid) {
      assert q.pid in PidsOn(s.phases, p.host);
    }
  }

  /** Phases only the steps' own process changes; the others' invariants look at the running pids alone. */
  lemma PhaseKept(ph: Phase, phases: map<Process, Phase>, phases': map<Process, Phase>, used: set<Pid>, used': set<Pid>)
    requires PhaseInv(ph, phases, used) && used <= used'
    requires forall p :: p in phases' ==> p in phases || p.pid !in used
    ensures PhaseInv(ph, phases', used')
  {
  }

  lemma StepKeepsInv(w: World, s: State, step: Step)
    requires Calm(w) && Inv(w, s) && Enabled(w, s, step)
    ensures Inv(w, Apply(w, s, step)) && !Harms(s, step)
  {
    var t := Apply(w, s, step);
    if step.Check? && !CreatorAlive(s.phases[step.p].todo[0], step.p.pid, PidsOn(s.phases, step.p.host)) {
      CheckedIsDead(w, s, step.p);
    }
    if step.Create? { NameRoundTrip(step.p.pid, s.phases[step.p].created + 1); }
    hide CreatorOf;
    hide NameOf;
    hide CreatorAlive;
    forall p | p in t.phases ensures PhaseInv(t.phases[p], t.phases, t.used) {
      if p in s.phases { PhaseKept(s.phases[p], s.phases, t.phases, s.used, t.used); }
    }
  }

  lemma {:induction false} RunKeepsInv(w: World, s: State, steps: seq<Step>, t: State)
    requires Calm(w) && Inv(w, s) && Trace(w, s, steps, t)
    ensures Inv(w, t)
    decreases |steps|
  {
    if steps != [] {
      StepKeepsInv(w, s, steps[0]);
      RunKeepsInv(w, Apply(w, s, steps[0]), steps[1..], t);
    }
  }

  /**
   However the processes interleave, no sweep drops a database whose creator still runs, not even one idle
   between its CREATE and its first connect: provided pids are not reused and all run on one host.
   */
  lemma SweepIsSafe(w: World, s: State, steps: seq<Step>, t: State, step: Step)
    requires Calm(w) && IsInit(s) && Trace(w, s, steps, t) && Enabled(w, t, step)
    ensures !Harms(t, step)
  {
    RunKeepsInv(w, s, steps, t);
    StepKeepsInv(w, t, step);
  }

  // ---------------------------------------------------------------- both assumptions are needed

  lemma OneStep(w: World, s: State, steps: seq<Step>, t: State, step: Step)
    requires Trace(w, s, steps, t) && Enabled(w, t, step)
    ensures Trace(w, s, steps + [step], Apply(w, t, step))
    decreases |steps|
  {
    if steps == [] {
      assert Trace(w, Apply(w, t, step), [], Apply(w, t, step));
    } else {
      assert (steps + [step])[1..] == steps[1..] + [step];
      OneStep(w, Apply(w, s, steps[0]), steps[1..], t, step);
    }
  }

  /** A process starts, finds nothing to sweep and creates its first database. */
  lemma CreatesFirst(w: World, phases: map<Process, Phase>, used: set<Pid>, p: Process)
    returns (steps: seq<Step>, t: State)
    requires Enabled(w, State(phases, used, map[]), Spawn(p))
    ensures Trace(w, State(phases, used, map[]), steps, t)
    ensures t == State(phases[p := Ready(1)], used + {p.pid}, map[NameOf(p.pid, 1) := Database(Some(p), 0)])
  {
    hide NameOf;
    var s := State(phases, used, map[]);
    var all := used + {p.pid};
    var s1 := State(phases[p := Fresh], all, map[]);
    var s2 := State(phases[p := Sweeping([], None)], all, map[]);
    var s3 := State(phases[p := Ready(0)], all, map[]);
    assert Apply(w, s, Spawn(p)) == s1 && Apply(w, s1, List(p, [])) == s2 && Apply(w, s2, EndSweep(p)) == s3;
    OneStep(w, s, [], s, Spawn(p));
    OneStep(w, s, [] + [Spawn(p)], s1, List(p, []));
    OneStep(w, s, [] + [Spawn(p)] + [List(p, [])], s2, EndSweep(p));
    OneStep(w, s, [] + [Spawn(p)] + [List(p, [])] + [EndSweep(p)], s3, Create(p));
    steps := [] + [Spawn(p)] + [List(p, [])] + [EndSweep(p)] + [Create(p)];
    t := Apply(w, s3, Create(p));
    assert t.phases == phases[p := Ready(1)];
  }

  /** A process q lists the one idle database there is, finds no process of its pid and is about to drop it. */
  lemma TakesAim(w: World, s: State, steps: seq<Step>, t: State, pid: Pid, db: Database, q: Process)
    returns (more: seq<Step>, u: State)
    requires Trace(w, s, steps, t) && pid != q.pid && 0 < pid <= Decimal.MAX_INT64
    requires t.dbs == map[NameOf(pid, 1) := db]
    requires Enabled(w, t, Spawn(q)) && pid !in PidsOn(t.phases, q.host)
    ensures Trace(w, s, more, u)
    ensures u == State(t.phases[q := Sweeping([], Some(NameOf(pid, 1)))], t.used + {q.pid}, t.dbs)
  {
    var n := NameOf(pid, 1);
    NameRoundTrip(pid, 1);
    hide CreatorOf;
    hide NameOf;
    OneStep(w, s, steps, t, Spawn(q));
    var t1 := Apply(w, t, Spawn(q));
    OneStep(w, s, steps + [Spawn(q)], t1, List(q, [n]));
    var t2 := Apply(w, t1, List(q, [n]));
    assert PidsOn(t2.phases, q.host) == PidsOn(t.phases, q.host) + {q.pid};
    assert [n][1..] == [];
    OneStep(w, s, steps + [Spawn(q)] + [List(q, [n])], t2, Check(q));
    more := steps + [Spawn(q)] + [List(q, [n])] + [Check(q)];
    u := Apply(w, t2, Check(q));
    assert u.phases == t.phases[q := Sweeping([], Some(n))];
  }

  /** Some run from a database server with leftovers at most ends in a step that harms. */
  ghost predicate CanHarm(w: World) {
    exists s, steps, t, step :: HarmfulRun(w, s, steps, t, step)
  }

  ghost predicate HarmfulRun(w: World, s: State, steps: seq<Step>, t: State, step: Step) {
    IsInit(s) && Trace(w, s, steps, t) && Enabled(w, t, step) && Harms(t, step)
  }

  /** With two hosts on one server, a sweep on one cannot see a creator on the other and drops its database. */
  lemma TwoHostsHarm(w: World, a: Host, b: Host)
    requires a in w.hosts && b in w.hosts && a != b
    ensures CanHarm(w)
  {
    var p, q := Process(a, 7), Process(b, 8);
    var s := State(map[], {}, map[]);
    var first, u := CreatesFirst(w, map[], {}, p);
    hide NameOf;
    hide CreatorOf;
    assert PidsOn(u.phases, b) == {};
    var steps, t := TakesAim(w, s, first, u, 7, Database(Some(p), 0), q);
    assert HarmfulRun(w, s, steps, t, Drop(q));
  }

  /** q is about to drop a dead process's leftover, and r, which saw the same, has just dropped it. */
  lemma LeftoverDroppedOnce(w: World, h: Host) returns (s: State, steps: seq<Step>, t: State)
    requires h in w.hosts
    ensures IsInit(s) && Trace(w, s, steps, t)
    ensures t == State(map[Process(h, 8) := Sweeping([], Some(NameOf(7, 1))), Process(h, 9) := Sweeping([], None)],
            {7, 8, 9}, map[])
  {
    var n := NameOf(7, 1);
    var db := Database(None, 0);
    NameRoundTrip(7, 1);
    hide NameOf;
    hide CreatorOf;
    var q, r := Process(h, 8), Process(h, 9);
    s := State(map[], {7}, map[n := db]);
    assert Trace(w, s, [], s);
    var aimed, u := TakesAim(w, s, [], s, 7, db, q);
    var both, v := TakesAim(w, s, aimed, u, 7, db, r);
    OneStep(w, s, both, v, Drop(r));
    steps := both + [Drop(r)];
    t := Apply(w, v, Drop(r));
    assert t.phases == map[q := Sweeping([], Some(n)), r := Sweeping([], None)];
    assert t.used == {7, 8, 9};
  }

  lemma {:induction false} Joined(w: World, s: State, a: seq<Step>, t: State, b: seq<Step>, u: State)
    requires Trace(w, s, a, t) && Trace(w, t, b, u)
    ensures Trace(w, s, a + b, u)
    decreases |a|
  {
    hide Apply;
    hide Enabled;
    if a == [] {
      assert a + b == b;
    } else {
      assert (a + b)[1..] == a[1..] + b;
      Joined(w, Apply(w, s, a[0]), a[1..], t, b, u);
    }
  }

  /** With pids handed out again, a check made before the new process started is out of date at the drop. */
  lemma ReusedPidHarms(w: World, h: Host)
    requires h in w.hosts && w.reuse
    ensures CanHarm(w)
  {
    var p, q, n := Process(h, 7), Process(h, 8), NameOf(7, 1);
    hide NameOf;
    hide CreatorOf;
    var s, first, t := LeftoverDroppedOnce(w, h);
    var again, u := CreatesFirst(w, t.phases, t.used, p);
    Joined(w, s, first, t, again, u);
    assert u.phases[q] == Sweeping([], Some(n)) && u.dbs[n] == Database(Some(p), 0);
    assert HarmfulRun(w, s, first + again, u, Drop(q));
  }

  /** The sweep never harms exactly when pids are not reused and all processes share one host. */
  lemma SafeIff(w: World)
    requires w.hosts != {}
    ensures !CanHarm(w) <==> Calm(w)
  {
    if Calm(w) {
      forall s, steps, t, step | HarmfulRun(w, s, steps, t, step) ensures false {
        SweepIsSafe(w, s, steps, t, step);
      }
    } else if w.reuse {
      var h :| h in w.hosts;
      ReusedPidHarms(w, h);
    } else {
      var a, b :| a in w.hosts && b in w.hosts && a != b;
      TwoHostsHarm(w, a, b);
    }
  }

  /**
   The surroundings are free: a process may exit and a connection come or go at any time.  And no process waits
   for another: short of a name it would create being taken, each can go on.
   */
  lemma NothingWaits(w: World, s: State, p: Process, n: Name, names: seq<Name>)
    ensures n in s.dbs ==>
              Enabled(w, s, Connect(n))
              && Apply(w, s, Connect(n)).dbs == s.dbs[n := s.dbs[n].(connections := s.dbs[n].connections + 1)]
    ensures n in s.dbs && s.dbs[n].connections > 0 ==>
              Enabled(w, s, Disconnect(n))
              && Apply(w, s, Disconnect(n)).dbs == s.dbs[n := s.dbs[n].(connections := s.dbs[n].connections - 1)]
    ensures Enabled(w, s, Spawn(p)) <==>
              p !in s.phases && p.host in w.hosts && 0 < p.pid < 0x8000_0000_0000_0000 && (w.reuse || p.pid !in s.used)
    ensures p in s.phases ==> Enabled(w, s, Exit(p)) && Apply(w, s, Exit(p)) == s.(phases := s.phases - {p})
    ensures Enabled(w, s, List(p, names)) <==>
              && p in s.phases && s.phases[p].Fresh?
              && (forall m :: m in names ==> m in s.dbs) && forall m :: m in s.dbs && PREFIX <= m ==> m in names
    ensures p in s.phases && s.phases[p].Sweeping? ==>
              && (Enabled(w, s, Drop(p)) <==> s.phases[p].dropping.Some?)
              && (Enabled(w, s, Check(p)) <==> s.phases[p].dropping.None? && s.phases[p].todo != [])
              && (Enabled(w, s, EndSweep(p)) <==> s.phases[p].dropping.None? && s.phases[p].todo == [])
    ensures Enabled(w, s, Create(p)) <==>
              p in s.phases && s.phases[p].Ready? && NameOf(p.pid, s.phases[p].created + 1) !in s.dbs
    ensures Enabled(w, s, Create(p)) ==>
              Apply(w, s, Create(p)) ==
              State(s.phases[p := Ready(s.phases[p].created + 1)], s.used,
                    s.dbs[NameOf(p.pid, s.phases[p].created + 1) := Database(Some(p), 0)])
  {
    hide NameOf;
  }

  // ---------------------------------------------------------------- a sweep reclaims what it can

  /** What a sweep by p leaves when nothing else happens meanwhile. */
  function SweptBy(s: State, p: Process, names: seq<Name>): map<Name, Database> {
    map n | n in s.dbs
            && !(n in names && !CreatorAlive(n, p.pid, PidsOn(s.phases, p.host)) && s.dbs[n].connections == 0)
      :: s.dbs[n]
  }

  lemma StepFirst(w: World, s: State, step: Step, rest: seq<Step>, t: State)
    requires Enabled(w, s, step) && Trace(w, Apply(w, s, step), rest, t)
    ensures Trace(w, s, [step] + rest, t)
  {
    hide Enabled;
    hide Apply;
    assert ([step] + rest)[1..] == rest;
  }

  lemma SamePids(phases: map<Process, Phase>, p: Process, ph: Phase, host: Host)
    requires p in phases
    ensures PidsOn(phases[p := ph], host) == PidsOn(phases, host)
  {
    assert forall q :: q in phases <==> q in phases[p := ph];
  }

  lemma SweptOneMore(s: State, p: Process, names: seq<Name>, t: State)
    requires names != [] && PidsOn(t.phases, p.host) == PidsOn(s.phases, p.host)
    requires t.dbs == SweptBy(s, p, [names[0]])
    ensures SweptBy(t, p, names[1..]) == SweptBy(s, p, names)
  {
    hide CreatorAlive;
    hide PidsOn;
    assert forall n :: n in names <==> n == names[0] || n in names[1..];
  }

  lemma {:induction false} SweepsThrough(w: World, s: State, p: Process) returns (steps: seq<Step>, t: State)
    requires p in s.phases && s.phases[p].Sweeping? && s.phases[p].dropping.None?
    ensures Trace(w, s, steps, t)
    ensures t == State(s.phases[p := Ready(0)], s.used, SweptBy(s, p, s.phases[p].todo))
    decreases |s.phases[p].todo|
  {
    hide CreatorOf;
    hide CreatorAlive;
    hide PidsOn;
    var todo := s.phases[p].todo;
    if todo == [] {
      t := Apply(w, s, EndSweep(p));
      assert Trace(w, t, [], t);
      StepFirst(w, s, EndSweep(p), [], t);
      assert SweptBy(s, p, todo) == s.dbs;
      steps := [EndSweep(p)] + [];
    } else {
      var checked := Apply(w, s, Check(p));
      var drops := !CreatorAlive(todo[0], p.pid, PidsOn(s.phases, p.host));
      var next := if drops then Apply(w, checked, Drop(p)) else checked;
      assert next.phases == s.phases[p := Sweeping(todo[1..], None)];
      assert next.dbs == SweptBy(s, p, [todo[0]]);
      SamePids(s.phases, p, Sweeping(todo[1..], None), p.host);
      var rest;
      rest, t := SweepsThrough(w, next, p);
      SweptOneMore(s, p, todo, next);
      if drops {
        StepFirst(w, checked, Drop(p), rest, t);
        rest := [Drop(p)] + rest;
      }
      StepFirst(w, s, Check(p), rest, t);
      steps := [Check(p)] + rest;
    }
  }

  /** A listing of every database there is. */
  lemma {:induction false} AllNames(names: set<Name>) returns (list: seq<Name>)
    ensures forall n :: n in list <==> n in names
    decreases |names|
  {
    if names == {} { return []; }
    var n :| n in names;
    list := AllNames(names - {n});
    list := [n] + list;
  }

  /**
   The sweep does reclaim: a process that starts on a host can always sweep to the end, and left alone it drops
   every unused database with the prefix but those that carry the pid of a process running on its host.
   */
  lemma SweepReclaims(w: World, s: State, p: Process) returns (steps: seq<Step>, t: State)
    requires p in s.phases && s.phases[p].Fresh?
    ensures Trace(w, s, steps, t) && t.phases == s.phases[p := Ready(0)] && t.used == s.used
    ensures forall n :: n in t.dbs ==> n in s.dbs && t.dbs[n] == s.dbs[n]
    ensures forall n :: n in s.dbs && PREFIX <= n ==>
              (n in t.dbs <==>
                 s.dbs[n].connections > 0
                 || exists digits, pid, rest ::
                      Names(n, digits, pid, rest) && Process(p.host, pid) in s.phases)
  {
    var names := AllNames(s.dbs.Keys);
    assert Enabled(w, s, List(p, names));
    var listed := Apply(w, s, List(p, names));
    var rest;
    rest, t := SweepsThrough(w, listed, p);
    StepFirst(w, s, List(p, names), rest, t);
    steps := [List(p, names)] + rest;
    SamePids(s.phases, p, Sweeping(names, None), p.host);
    forall n | n in s.dbs ensures n in t.dbs <==>
      s.dbs[n].connections > 0 || CreatorAlive(n, p.pid, PidsOn(s.phases, p.host)) {}
    hide CreatorOf;
    hide CreatorAlive;
    hide Names;
    hide Enabled;
    hide Apply;
    hide SweptBy;
    forall n, digits, pid, rest' | n in s.dbs && Names(n, digits, pid, rest')
      ensures (pid == p.pid || pid in PidsOn(s.phases, p.host)) <==> Process(p.host, pid) in s.phases
    {
      if pid in PidsOn(s.phases, p.host) {
        var q :| q in s.phases && q.host == p.host && q.pid == pid;
        assert q == Process(p.host, pid);
      }
      assert p == Process(p.host, p.pid);
    }
    forall n | n in s.dbs ensures CreatorAlive(n, p.pid, PidsOn(s.phases, p.host)) <==>
      exists digits, pid, rest' :: Names(n, digits, pid, rest') && Process(p.host, pid) in s.phases
    {
      AliveIff(n, p.pid, PidsOn(s.phases, p.host));
    }
  }
}
