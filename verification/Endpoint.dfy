/**
 The provider endpoint: per-Run connection limits, operation budgets and latched rejections. Each function
 is one mutex-held region; connections run concurrently and stop between any two of them.
 */
module Endpoint {
  import opened GoTypes

  const MAX_CONNECTIONS := 16
  const MAX_CONCURRENT := 4

  datatype Operation = Refresh | Catalog | Inference | Settings

  function Bound(op: Operation): nat { if op == Refresh then 1 else if op == Catalog then 2 else MAX_CONNECTIONS }

  /** A reason of zero is no rejection, as in the map the source reads with a zero default. */
  datatype Fields = Fields(
    isOpen: bool, closed: bool, cancelled: bool, accepted: nat, active: set<nat>,
    counts: map<Operation, nat>, rejected: map<Operation, nat>)

  const FRESH := Fields(false, false, false, 0, {}, map[], map[])

  function Get(m: map<Operation, nat>, op: Operation): nat { if op in m then m[op] else 0 }

  // ---- Regions ----

  function Open(e: Fields): Option<Fields> {
    if e.closed || e.isOpen || e.cancelled then None else Some(e.(isOpen := true))
  }

  function Stop(e: Fields): Fields { if e.closed then e else e.(closed := true, cancelled := true) }

  predicate Admits(e: Fields) { !e.closed && e.isOpen && |e.active| != MAX_CONCURRENT }

  /** One pass of the accept loop. */
  function Accept(e: Fields, conn: nat): Fields {
    e.(accepted := e.accepted + 1, active := if Admits(e) then e.active + {conn} else e.active)
  }

  predicate Chargeable(e: Fields, op: Operation) {
    e.isOpen && !e.closed && !e.cancelled && Get(e.counts, op) + 1 <= Bound(op)
  }

  /** The operation budget: a refused call still spends its slot. */
  function Charge(e: Fields, op: Operation): Fields {
    if e.isOpen && !e.closed && !e.cancelled then e.(counts := e.counts[op := Get(e.counts, op) + 1]) else e
  }

  predicate Authorizes(e: Fields, op: Operation, alive: bool) {
    e.isOpen && !e.closed && alive && Get(e.rejected, op) == 0
  }

  function Reject(e: Fields, op: Operation, reason: nat): Fields {
    if reason == 0 || Get(e.rejected, op) != 0 then e else e.(rejected := e.rejected[op := reason])
  }

  function Release(e: Fields, conn: nat): Fields { e.(active := e.active - {conn}) }

  // ---- Every interleaving of connections ----

  datatype Exchange = Reading | AtAdmission(op: Operation) | Upstream(op: Operation) | Leaving

  datatype Event = Authorized(op: Operation) | Rejected(op: Operation)

  datatype System = System(e: Fields, conns: map<nat, Exchange>, log: seq<Event>)

  const START := System(FRESH, map[], [])

  datatype Step =
    | OpenCalled
    | StopCalled
    | ParentCancels
    | Connect(conn: nat)
    | ChargeBudget(conn: nat, op: Operation)
    | Admission(conn: nat, alive: bool)
    | Refuse(conn: nat, reason: nat)
    | Finish(conn: nat)

  function Gone(s: System, n: nat): System {
    s.(e := Release(s.e, n), conns := map m | m in s.conns && m != n :: s.conns[m])
  }

  function Do(s: System, step: Step): System {
    match step
    case OpenCalled => if Open(s.e).Some? then s.(e := Open(s.e).value) else s
    case StopCalled => s.(e := Stop(s.e))
    case ParentCancels => s.(e := s.e.(cancelled := true))
    case Connect(n) =>
      if s.e.accepted >= MAX_CONNECTIONS || n in s.conns then s
      else s.(e := Accept(s.e, n), conns := if Admits(s.e) then s.conns[n := Reading] else s.conns)
    case ChargeBudget(n, op) =>
      if n !in s.conns || !s.conns[n].Reading? then s
      else s.(e := Charge(s.e, op), conns := s.conns[n := if Chargeable(s.e, op) && op != Settings then AtAdmission(op) else Leaving])
    case Admission(n, alive) =>
      if n !in s.conns || !s.conns[n].AtAdmission? then s
      else if Authorizes(s.e, s.conns[n].op, alive) then
        s.(conns := s.conns[n := Upstream(s.conns[n].op)], log := s.log + [Authorized(s.conns[n].op)])
      else s.(conns := s.conns[n := Leaving])
    case Refuse(n, reason) =>
      if n !in s.conns || !s.conns[n].Upstream? || reason == 0 then s
      else s.(e := Reject(s.e, s.conns[n].op, reason), log := s.log + [Rejected(s.conns[n].op)])
    case Finish(n) => if n !in s.conns then s else Gone(s, n)
  }

  function Reached(steps: seq<Step>): System
    decreases |steps|
  {
    if |steps| == 0 then START else Do(Reached(steps[..|steps| - 1]), steps[|steps| - 1])
  }

  function Count(log: seq<Event>, e: Event): (n: nat)
    decreases |log|
  {
    if |log| == 0 then 0 else Count(log[..|log| - 1], e) + if log[|log| - 1] == e then 1 else 0
  }

  function Waiting(conns: map<nat, Exchange>, op: Operation): set<nat> {
    set n | n in conns && conns[n] == AtAdmission(op)
  }

  /** Calls authorized for an operation, and those past its budget but not yet authorized, fit the budget. */
  ghost predicate Budgeted(s: System, op: Operation) {
    Count(s.log, Authorized(op)) + |Waiting(s.conns, op)| <= Get(s.e.counts, op)
    && Count(s.log, Authorized(op)) + |Waiting(s.conns, op)| <= Bound(op)
  }

  ghost predicate Latched(s: System, op: Operation) {
    && (Rejected(op) in s.log ==> Get(s.e.rejected, op) != 0)
    && (forall i, j :: 0 <= i < j < |s.log| && s.log[i] == Rejected(op) ==> s.log[j] != Authorized(op))
  }

  ghost predicate SystemInv(s: System) {
    Connected(s) && forall op :: Budgeted(s, op) && Latched(s, op)
  }

  lemma CountGrows(log: seq<Event>, e: Event, other: Event)
    ensures Count(log + [e], other) == Count(log, other) + if e == other then 1 else 0
  {
    assert (log + [e])[..|log|] == log;
  }

  /** One connection changes place, or goes. */
  lemma WaitingMoves(conns: map<nat, Exchange>, n: nat, x: Exchange, op: Operation)
    requires n in conns
    ensures Waiting(conns[n := x], op) == (Waiting(conns, op) - {n}) + if x == AtAdmission(op) then {n} else {}
    ensures Waiting(map m | m in conns && m != n :: conns[m], op) == Waiting(conns, op) - {n}
    ensures n in Waiting(conns, op) <==> conns[n] == AtAdmission(op)
  {
  }

  /** A connection that leaves frees no budget. */
  lemma GoneKeepsBudget(s: System, n: nat, op: Operation)
    requires Budgeted(s, op) && n in s.conns
    ensures Budgeted(Gone(s, n), op)
  {
    WaitingMoves(s.conns, n, Reading, op);
  }

  lemma LeavingKeepsBudget(s: System, e: Fields, n: nat, op: Operation)
    requires Budgeted(s, op) && n in s.conns && Get(e.counts, op) >= Get(s.e.counts, op)
    ensures Budgeted(s.(e := e, conns := s.conns[n := Leaving]), op)
  {
    WaitingMoves(s.conns, n, Leaving, op);
  }

  lemma ChargeKeepsBudget(s: System, n: nat, o: Operation, op: Operation)
    requires Budgeted(s, op) && n in s.conns && s.conns[n].Reading? && Chargeable(s.e, o)
    ensures Budgeted(s.(e := Charge(s.e, o), conns := s.conns[n := AtAdmission(o)]), op)
  {
    WaitingMoves(s.conns, n, AtAdmission(o), op);
  }

  lemma AdmissionKeepsBudget(s: System, n: nat, op: Operation)
    requires Budgeted(s, op) && n in s.conns && s.conns[n].AtAdmission?
    ensures var o := s.conns[n].op; Budgeted(s.(conns := s.conns[n := Upstream(o)], log := s.log + [Authorized(o)]), op)
  {
    WaitingMoves(s.conns, n, Upstream(s.conns[n].op), op);
    CountGrows(s.log, Authorized(s.conns[n].op), Authorized(op));
  }

  lemma ConnectKeepsBudget(s: System, n: nat, op: Operation)
    requires Budgeted(s, op) && n !in s.conns
    ensures Budgeted(s.(e := Accept(s.e, n), conns := s.conns[n := Reading]), op)
  {
    assert Waiting(s.conns[n := Reading], op) == Waiting(s.conns, op);
  }

  lemma RefuseKeepsBudget(s: System, n: nat, reason: nat, op: Operation)
    requires Budgeted(s, op) && n in s.conns && s.conns[n].Upstream?
    ensures var o := s.conns[n].op; Budgeted(s.(e := Reject(s.e, o, reason), log := s.log + [Rejected(o)]), op)
  {
    CountGrows(s.log, Rejected(s.conns[n].op), Authorized(op));
  }

  lemma StepKeepsBudget(s: System, step: Step, op: Operation)
    requires Budgeted(s, op)
    ensures Budgeted(Do(s, step), op)
  {
    match step
    case Connect(n) => if n !in s.conns { ConnectKeepsBudget(s, n, op); }
    case ChargeBudget(n, o) =>
      if n in s.conns && s.conns[n].Reading? {
        if Chargeable(s.e, o) { ChargeKeepsBudget(s, n, o, op); }
        LeavingKeepsBudget(s, Charge(s.e, o), n, op);
      }
    case Admission(n, alive) =>
      if n in s.conns && s.conns[n].AtAdmission? {
        AdmissionKeepsBudget(s, n, op);
        LeavingKeepsBudget(s, s.e, n, op);
      }
    case Refuse(n, reason) =>
      if n in s.conns && s.conns[n].Upstream? { RefuseKeepsBudget(s, n, reason, op); }
    case Finish(n) => if n in s.conns { GoneKeepsBudget(s, n, op); }
    case _ =>
  }

  lemma StepKeepsLatch(s: System, step: Step, op: Operation)
    requires Latched(s, op)
    ensures Latched(Do(s, step), op)
  {
  }

  lemma StepKeepsInv(s: System, step: Step)
    requires SystemInv(s)
    ensures SystemInv(Do(s, step))
  {
    forall op ensures Budgeted(Do(s, step), op) && Latched(Do(s, step), op) {
      StepKeepsBudget(s, step, op);
      StepKeepsLatch(s, step, op);
    }
    StepKeepsConnections(s, step);
  }

  ghost predicate Connected(s: System) {
    s.e.accepted <= MAX_CONNECTIONS && s.e.active == s.conns.Keys && |s.e.active| <= MAX_CONCURRENT
  }

  lemma GoneKeepsConnections(s: System, n: nat)
    requires Connected(s) && n in s.conns
    ensures Connected(Gone(s, n))
  {
    assert Gone(s, n).conns.Keys == s.conns.Keys - {n};
  }

  lemma UpdateKeepsConnections(s: System, e: Fields, n: nat, x: Exchange, log: seq<Event>)
    requires Connected(s) && e.accepted == s.e.accepted && e.active == s.e.active && n in s.conns
    ensures Connected(s.(e := e, conns := s.conns[n := x], log := log))
  {
    assert s.conns[n := x].Keys == s.conns.Keys;
  }

  lemma ConnectKeepsConnections(s: System, n: nat)
    requires Connected(s) && s.e.accepted < MAX_CONNECTIONS && n !in s.conns
    ensures Connected(s.(e := Accept(s.e, n), conns := if Admits(s.e) then s.conns[n := Reading] else s.conns))
  {
    if Admits(s.e) {
      assert s.conns[n := Reading].Keys == s.conns.Keys + {n};
      assert |s.e.active + {n}| == |s.e.active| + 1;
    }
  }

  lemma StepKeepsConnections(s: System, step: Step)
    requires Connected(s)
    ensures Connected(Do(s, step))
  {
    match step
    case Connect(n) => if s.e.accepted < MAX_CONNECTIONS && n !in s.conns { ConnectKeepsConnections(s, n); }
    case ChargeBudget(n, op) =>
      if n in s.conns {
        UpdateKeepsConnections(s, Charge(s.e, op), n, Leaving, s.log);
        UpdateKeepsConnections(s, Charge(s.e, op), n, AtAdmission(op), s.log);
      }
    case Admission(n, alive) =>
      if n in s.conns && s.conns[n].AtAdmission? {
        UpdateKeepsConnections(s, s.e, n, Leaving, s.log);
        UpdateKeepsConnections(s, s.e, n, Upstream(s.conns[n].op), s.log + [Authorized(s.conns[n].op)]);
      }
    case Finish(n) => if n in s.conns { GoneKeepsConnections(s, n); }
    case _ =>
  }

  lemma {:induction false} EveryInterleavingIsSound(steps: seq<Step>)
    ensures SystemInv(Reached(steps))
    decreases |steps|
  {
    if |steps| == 0 {
      forall op ensures Budgeted(START, op) && Latched(START, op) { assert Waiting(START.conns, op) == {}; }
    } else {
      EveryInterleavingIsSound(steps[..|steps| - 1]);
      StepKeepsInv(Reached(steps[..|steps| - 1]), steps[|steps| - 1]);
    }
  }

  /** Over every interleaving, upstream calls never exceed 1 refresh, 2 catalog and 16 inference, and settings never go upstream. */
  lemma UpstreamCallsAreBounded(steps: seq<Step>)
    ensures var log := Reached(steps).log;
      && Count(log, Authorized(Refresh)) <= 1 && Count(log, Authorized(Catalog)) <= 2 && Count(log, Authorized(Inference)) <= 16
      && Authorized(Settings) !in log
    ensures Reached(steps).e.accepted <= MAX_CONNECTIONS && |Reached(steps).e.active| <= MAX_CONCURRENT
  {
    EveryInterleavingIsSound(steps);
    assert Budgeted(Reached(steps), Refresh) && Budgeted(Reached(steps), Catalog) && Budgeted(Reached(steps), Inference);
    SettingsStayLocal(steps);
  }

  /** No connection carries a settings request toward the upstream. */
  ghost predicate SettingsAreLocal(s: System) {
    Authorized(Settings) !in s.log && forall n :: n in s.conns ==> s.conns[n] != AtAdmission(Settings)
  }

  lemma StepKeepsSettings(s: System, step: Step)
    requires SettingsAreLocal(s)
    ensures SettingsAreLocal(Do(s, step))
  {
  }

  lemma {:induction false} SettingsStayLocal(steps: seq<Step>)
    ensures SettingsAreLocal(Reached(steps))
    decreases |steps|
  {
    if |steps| > 0 {
      SettingsStayLocal(steps[..|steps| - 1]);
      StepKeepsSettings(Reached(steps[..|steps| - 1]), steps[|steps| - 1]);
    }
  }

  /** After an operation's first recorded rejection no call for it is authorized again. */
  lemma RejectionLatches(steps: seq<Step>, i: nat, j: nat, op: Operation)
    requires i < j < |Reached(steps).log| && Reached(steps).log[i] == Rejected(op)
    ensures Reached(steps).log[j] != Authorized(op)
  {
    EveryInterleavingIsSound(steps);
    assert Latched(Reached(steps), op);
  }

  /** A remaining refresh budget means that no refresh was ever authorized, or is about to be. */
  lemma RefreshBudgetIsUnspent(steps: seq<Step>)
    requires Get(Reached(steps).e.counts, Refresh) == 0
    ensures Count(Reached(steps).log, Authorized(Refresh)) == 0 && Waiting(Reached(steps).conns, Refresh) == {}
  {
    EveryInterleavingIsSound(steps);
    assert Budgeted(Reached(steps), Refresh);
  }

  lemma ReachedOneMore(steps: seq<Step>, step: Step, all: seq<Step>)
    requires all == steps + [step]
    ensures Reached(all) == Do(Reached(steps), step)
  {
    assert all[..|all| - 1] == steps;
  }

  // ---- The object ----

  /** The calls for an operation that were authorized, and those that still may be, fit its budget. */
  ghost predicate WithinBudget(s: System, op: Operation) {
    Count(s.log, Authorized(op)) + |Waiting(s.conns, op)| <= Bound(op)
  }

  /**
   The endpoint as it runs, with a ghost record of all its connections' steps. Each method is one mutex-held
   region; connection n is the caller's.
   */
  class Server {
    var isOpen: bool
    var closed: bool
    var cancelled: bool
    var accepted: nat
    var active: set<nat>
    var counts: map<Operation, nat>
    var rejected: map<Operation, nat>
    ghost var steps: seq<Step>

    function State(): Fields
      reads this
    {
      Fields(isOpen, closed, cancelled, accepted, active, counts, rejected)
    }

    ghost function Now(): System
      reads this
    {
      Reached(steps)
    }

    ghost predicate Valid()
      reads this
    {
      State() == Now().e
    }

    ghost predicate At(n: nat, place: Exchange)
      reads this
    {
      n in Now().conns && Now().conns[n] == place
    }

    constructor ()
      ensures Valid() && steps == []
    {
      isOpen, closed, cancelled, accepted, active, counts, rejected := false, false, false, 0, {}, map[], map[];
      steps := [];
    }

    /** Records a step; the invariant of every interleaving holds before and after it. */
    ghost method Take(step: Step)
      modifies this`steps
      ensures steps == old(steps) + [step] && Now() == Do(old(Now()), step) && SystemInv(old(Now())) && SystemInv(Now())
    {
      EveryInterleavingIsSound(steps);
      ReachedOneMore(steps, step, steps + [step]);
      EveryInterleavingIsSound(steps + [step]);
      steps := steps + [step];
    }

    /** Opens at most once, and never after it was stopped. */
    method OpenServer() returns (ok: bool)
      requires Valid()
      modifies this
      ensures Valid() && steps == old(steps) + [OpenCalled]
      ensures ok <==> old(!closed && !isOpen && !cancelled)
      ensures ok ==> State() == old(State()).(isOpen := true)
      ensures !ok ==> State() == old(State())
    {
      Take(OpenCalled);
      if closed || isOpen || cancelled { return false; }
      isOpen := true;
      return true;
    }

    /** After it, no operation is charged and none is authorized, whatever comes. */
    method StopServer()
      requires Valid()
      modifies this
      ensures Valid() && steps == old(steps) + [StopCalled] && closed
      ensures forall op :: !Chargeable(State(), op)
      ensures forall op, alive :: !Authorizes(State(), op, alive)
      ensures old(closed) ==> State() == old(State())
    {
      Take(StopCalled);
      if closed { return; }
      closed := true;
      cancelled := true;
    }

    /** At most 16 connections are ever accepted and at most 4 are served at a time. */
    method AcceptConnection(n: nat) returns (admitted: bool)
      requires Valid() && accepted < MAX_CONNECTIONS && n !in Now().conns
      modifies this
      ensures Valid() && steps == old(steps) + [Connect(n)]
      ensures accepted == old(accepted) + 1 <= MAX_CONNECTIONS && |active| <= MAX_CONCURRENT && active == Now().conns.Keys
      ensures admitted <==> old(isOpen && !closed && |active| != MAX_CONCURRENT)
      ensures if admitted then At(n, Reading) && isOpen && !closed else Now().conns == old(Now()).conns
      ensures State() == old(State()).(accepted := accepted, active := active)
    {
      Take(Connect(n));
      accepted := accepted + 1;
      if closed || !isOpen || |active| == MAX_CONCURRENT { return false; }
      active := active + {n};
      return true;
    }

    /** A charge that is allowed leaves the operation within its budget, this call included; a refused one spends its slot. */
    method ChargeOperation(ghost n: nat, op: Operation) returns (allowed: bool)
      requires Valid() && At(n, Reading)
      modifies this
      ensures Valid() && steps == old(steps) + [ChargeBudget(n, op)]
      ensures allowed && op != Settings ==> At(n, AtAdmission(op)) && n in Waiting(Now().conns, op) && WithinBudget(Now(), op)
      ensures allowed <==> Chargeable(old(State()), op)
      ensures !allowed || op == Settings ==> At(n, Leaving)
      ensures isOpen && !closed && !cancelled ==> Get(counts, op) == old(Get(counts, op)) + 1
    {
      Take(ChargeBudget(n, op));
      assert Budgeted(Now(), op);
      allowed := isOpen && !closed && !cancelled;
      if allowed {
        counts := counts[op := Get(counts, op) + 1];
        var bound := MAX_CONNECTIONS;
        if op == Refresh { bound := 1; }
        if op == Catalog { bound := 2; }
        allowed := counts[op] <= bound;
      }
    }

    /** An authorized call is within its operation's budget, and no call for the operation was rejected before. */
    method AuthorizeUpstream(ghost n: nat, op: Operation, alive: bool) returns (ok: bool, reason: nat)
      requires Valid() && At(n, AtAdmission(op))
      modifies this`steps
      ensures Valid() && steps == old(steps) + [Admission(n, alive)]
      ensures ok ==> At(n, Upstream(op)) && WithinBudget(Now(), op) && Rejected(op) !in old(Now()).log && isOpen && !closed
      ensures !ok ==> At(n, Leaving) && Now().log == old(Now()).log
      ensures ok <==> isOpen && !closed && alive && Get(rejected, op) == 0
      ensures reason == if isOpen && !closed && alive then Get(rejected, op) else 0
    {
      Take(Admission(n, alive));
      assert Budgeted(Now(), op) && Latched(old(Now()), op);
      if !isOpen || closed || !alive { return false, 0; }
      reason := Get(rejected, op);
      return reason == 0, reason;
    }

    /** A rejection latches: the operation keeps its first reason, and no call for it is authorized from now on. */
    method RejectOperation(ghost n: nat, op: Operation, reason: nat)
      requires Valid() && At(n, Upstream(op))
      modifies this
      ensures Valid() && steps == old(steps) + [Refuse(n, reason)]
      ensures reason != 0 ==> Rejected(op) in Now().log && forall alive :: !Authorizes(State(), op, alive)
      ensures reason != 0 ==> Get(rejected, op) == if old(Get(rejected, op)) != 0 then old(Get(rejected, op)) else reason
      ensures forall other :: other != op ==> Get(rejected, other) == old(Get(rejected, other))
    {
      Take(Refuse(n, reason));
      if reason == 0 { return; }
      if Get(rejected, op) == 0 { rejected := rejected[op := reason]; }
    }

    /** A remaining refresh budget means that no refresh was authorized and none is on its way to be. */
    method HasRefreshBudget() returns (ok: bool)
      requires Valid()
      ensures ok ==> Count(Now().log, Authorized(Refresh)) == 0 && Waiting(Now().conns, Refresh) == {}
      ensures ok <==> Get(counts, Refresh) == 0
    {
      if Get(counts, Refresh) == 0 { RefreshBudgetIsUnspent(steps); }
      return Get(counts, Refresh) == 0;
    }

    /** The connection goes, and its place is free. */
    method FinishConnection(n: nat)
      requires Valid() && n in Now().conns
      modifies this
      ensures Valid() && steps == old(steps) + [Finish(n)]
      ensures n !in Now().conns && active == Now().conns.Keys && |active| < MAX_CONCURRENT
    {
      Take(Finish(n));
      assert n in active && active == active - {n} + {n};
      active := active - {n};
    }
  }
}
