/** Every interleaving of calls into the isolated provider: any number of them, each stopped between any two regions. */
module ProviderRuns {
  import opened GoTypes
  import opened Provider

  // ---- Calls in flight ----

  /** Where a begun call stands; it holds the mutex in none of these places. */
  datatype Call =
    | PrepareCall
    | PrepareResolving
    | PrepareLeaving(resolved: Option<OwnerAuth>)
    | OpenCall
    | Respond(request: Request)
    | Refreshing(token: Str)
    | AwaitingRecovery(token: Str)
    | Sending(auth: Option<OwnerAuth>, version: nat)
    | Blocking
    | Got401(version: nat)
    | ForcedResolving
    | RecoverLeaving(resolved: Option<OwnerAuth>)
    | Ending

  /** What an observer of the provider's effects would have seen. */
  datatype Event =
    | OwnerResolve(force: bool, given: Option<OwnerAuth>)
    | Authorized(version: nat, access: Str, account: Str, auth: Option<OwnerAuth>)
    | Fenced
    | LocalRefresh(local: LocalAuth)

  datatype System = System(p: Fields, calls: map<nat, Call>, log: seq<Event>)

  function Start(local: LocalAuth): System { System(Made(local), map[], []) }

  /** The outside answers one step may need. */
  datatype Answers = Answers(
    alive: bool, endpointOpens: bool, budget: bool, resolved: Option<OwnerAuth>, refreshed: bool, verified401: bool,
    minted: Option<LocalAuth>)

  datatype Step =
    | SeedFile
    | ParentCancels
    | CloseCalled
    | Enter(caller: nat, call: Call, alive: bool)
    | Go(caller: nat, answers: Answers)

  predicate Entry(c: Call) { c.PrepareCall? || c.OpenCall? || c.Respond? }

  /** What one region or one I/O of a call does: the fields it leaves, where the call goes, what was observed. */
  datatype Move = Move(p: Fields, next: Call, seen: Option<Event>)

  function Quiet(p: Fields, next: Call): Move { Move(p, next, None) }

  function RespondMove(p: Fields, request: Request, a: Answers): Move {
    match request
    case Refresh(wellFormed, token) => Quiet(p, if wellFormed then Refreshing(token) else Ending)
    case Forward(access, account) =>
      var permit := Authorize(p, access, account, a.alive);
      if permit.Send? then Move(p, Sending(permit.auth, permit.version), Some(Authorized(permit.version, access, account, permit.auth)))
      else Quiet(p, Ending)
    case Unsupported => Quiet(p, Ending)
  }

  function RefreshMove(p: Fields, token: Str, a: Answers): Move {
    var after := RefreshFields(p, token, a.alive, a.minted);
    match RefreshOutcome(p, token, a.alive, a.minted)
    case RefreshWait => Quiet(after, AwaitingRecovery(token))
    case Issued(local) => Move(after, Ending, Some(LocalRefresh(local)))
    case _ => Quiet(after, Ending)
  }

  function FenceMove(p: Fields, version: nat, a: Answers): Move {
    var fence := FenceResult(p, version, a.alive, a.budget);
    if fence.Recover? then Move(FenceFields(p, fence), ForcedResolving, Some(Fenced)) else Quiet(FenceFields(p, fence), Ending)
  }

  function MoveOf(p: Fields, c: Call, a: Answers): Move {
    match c
    case PrepareCall =>
      if EnterPrepare(p).Some? then Quiet(EnterPrepare(p).value, PrepareResolving) else Quiet(p, Ending)
    case PrepareResolving => Move(p, PrepareLeaving(a.resolved), Some(OwnerResolve(false, a.resolved)))
    case PrepareLeaving(resolved) => Quiet(LeavePrepare(p, resolved, a.alive), Ending)
    case OpenCall => Quiet(if Open(p, a.endpointOpens).Some? then Open(p, a.endpointOpens).value else p, Ending)
    case Respond(request) => RespondMove(p, request, a)
    case Refreshing(token) => RefreshMove(p, token, a)
    case AwaitingRecovery(token) => Quiet(p, if p.recoveryDone then Refreshing(token) else if !a.alive then Ending else c)
    case Sending(auth, version) =>
      Quiet(p, if !Usable(auth) then Blocking else if a.verified401 then Got401(version) else Ending)
    case Blocking => Quiet(Block(p), Ending)
    case Got401(version) => FenceMove(p, version, a)
    case ForcedResolving =>
      var given := if a.refreshed && Usable(a.resolved) then a.resolved else None;
      Move(p, RecoverLeaving(given), Some(OwnerResolve(true, given)))
    case RecoverLeaving(resolved) => Quiet(LeaveRecovery(p, resolved, a.alive), Ending)
    case Ending => Quiet(End(p), Ending)
  }

  /** The next region or I/O of one call; a call that ends is gone. */
  function Advance(s: System, n: nat, a: Answers): System
    requires n in s.calls
  {
    var move := MoveOf(s.p, s.calls[n], a);
    System(move.p,
           if s.calls[n].Ending? then map m | m in s.calls && m != n :: s.calls[m] else s.calls[n := move.next],
           if move.seen.Some? then s.log + [move.seen.value] else s.log)
  }

  function Do(s: System, step: Step): System {
    match step
    case SeedFile => if Seed(s.p).Some? then s.(p := Seed(s.p).value) else s
    case ParentCancels => s.(p := s.p.(cancelled := true))
    case CloseCalled => s.(p := Close(s.p))
    case Enter(n, call, alive) =>
      if n !in s.calls && Entry(call) && Begin(s.p, alive).Some? then s.(p := Begin(s.p, alive).value, calls := s.calls[n := call])
      else s
    case Go(n, answers) => if n in s.calls then Advance(s, n, answers) else s
  }

  function Reached(local: LocalAuth, steps: seq<Step>): System
    decreases |steps|
  {
    if |steps| == 0 then Start(local) else Do(Reached(local, steps[..|steps| - 1]), steps[|steps| - 1])
  }

  // ---- Reading the log ----

  function Resolves(log: seq<Event>, force: bool): (n: nat)
    decreases |log|
  {
    if |log| == 0 then 0
    else Resolves(log[..|log| - 1], force) + if log[|log| - 1].OwnerResolve? && log[|log| - 1].force == force then 1 else 0
  }

  function Refreshes(log: seq<Event>): (n: nat)
    decreases |log|
  {
    if |log| == 0 then 0 else Refreshes(log[..|log| - 1]) + if log[|log| - 1].LocalRefresh? then 1 else 0
  }

  /** A fence has been raised and no local refresh has come since. */
  predicate FenceUp(log: seq<Event>)
    decreases |log|
  {
    if |log| == 0 then false
    else log[|log| - 1].Fenced? || (!log[|log| - 1].LocalRefresh? && FenceUp(log[..|log| - 1]))
  }

  /** Every authorization came with the fence down, and at version 1 under the token of an earlier local refresh. */
  predicate Orderly(log: seq<Event>)
    decreases |log|
  {
    |log| == 0
    || (Orderly(log[..|log| - 1])
        && (log[|log| - 1].Authorized? ==>
              !FenceUp(log[..|log| - 1])
              && (log[|log| - 1].version == 1 ==> WasIssued(log[..|log| - 1], log[|log| - 1].access))))
  }

  predicate WasIssued(log: seq<Event>, access: Str) { exists i :: 0 <= i < |log| && log[i].LocalRefresh? && log[i].local.access == access }

  // ---- The invariant ----

  predicate InPrepare(c: Call) { c.PrepareResolving? || c.PrepareLeaving? }

  predicate InRecovery(c: Call) { c.ForcedResolving? || c.RecoverLeaving? }

  /** What the fields say about each other. */
  ghost predicate FieldsOk(p: Fields) {
    && p.ownerVersion <= 1
    && (p.phase in {New, Opening} ==> !p.recoveryStarted && !p.localUsed)
    && (p.phase == Recovering ==> p.recoveryStarted && !p.localUsed && p.ownerVersion == 0)
    && (p.phase == AwaitRefresh ==> p.recoveryStarted && !p.localUsed && p.ownerVersion == 1)
    && (p.ownerVersion == 1 ==> p.recoveryStarted)
    && (p.phase == Ready && p.ownerVersion == 1 ==> p.localUsed)
    && (p.phase == Ready && p.recoveryStarted ==> p.ownerVersion == 1)
    && (p.phase in {Prepared, Ready, Recovering, AwaitRefresh} && !p.closed ==> Usable(p.auth))
    && (p.phase == Prepared ==> !p.recoveryStarted)
  }

  /** What a call's place says about the fields. */
  ghost predicate Fits(p: Fields, c: Call) {
    && (InPrepare(c) ==> p.phase == Opening) && (InRecovery(c) ==> p.phase == Recovering)
    && (c.Sending? ==> Usable(c.auth)) && !c.Blocking?
  }

  /** A call inside Prepare or inside a recovery is the only one there, and the phase waits for it. */
  ghost predicate CallsOk(p: Fields, calls: map<nat, Call>) {
    && (forall n :: n in calls ==> Fits(p, calls[n]))
    && (forall m, n :: m in calls && n in calls && InPrepare(calls[m]) && InPrepare(calls[n]) ==> m == n)
    && (forall m, n :: m in calls && n in calls && InRecovery(calls[m]) && InRecovery(calls[n]) ==> m == n)
  }

  ghost predicate Resolving(calls: map<nat, Call>, force: bool) {
    exists n :: n in calls && (if force then calls[n].ForcedResolving? else calls[n].PrepareResolving?)
  }

  ghost predicate LogOk(p: Fields, calls: map<nat, Call>, log: seq<Event>) {
    && Resolves(log, false) <= 1 && Resolves(log, true) <= 1 && Refreshes(log) <= 1
    && (p.phase == New || Resolving(calls, false) ==> Resolves(log, false) == 0)
    && (!p.recoveryStarted || Resolving(calls, true) ==> Resolves(log, true) == 0)
    && (!p.localUsed ==> Refreshes(log) == 0)
    && (p.localUsed ==> WasIssued(log, p.local.access))
    && (FenceUp(log) ==> p.phase in {Recovering, AwaitRefresh, Blocked})
    && Orderly(log)
  }

  ghost predicate DrainOk(p: Fields, calls: map<nat, Call>) {
    p.calls == |calls| && p.drained == if p.closed && |calls| == 0 then 1 else 0
  }

  ghost predicate SystemInv(s: System) {
    FieldsOk(s.p) && CallsOk(s.p, s.calls) && LogOk(s.p, s.calls, s.log) && DrainOk(s.p, s.calls)
  }

  // ---- Preservation ----

  /** The fields and the call's place still fit after a move. */
  ghost predicate FitsAfter(move: Move) { FieldsOk(move.p) && Fits(move.p, move.next) }

  lemma RespondKeepsFields(p: Fields, request: Request, a: Answers)
    requires FieldsOk(p)
    ensures FitsAfter(RespondMove(p, request, a))
  {
  }

  lemma RefreshKeepsFields(p: Fields, token: Str, a: Answers)
    requires FieldsOk(p)
    ensures FitsAfter(RefreshMove(p, token, a))
  {
  }

  lemma FenceKeepsFields(p: Fields, version: nat, a: Answers)
    requires FieldsOk(p)
    ensures FitsAfter(FenceMove(p, version, a))
  {
  }

  lemma MoveKeepsFields(p: Fields, c: Call, a: Answers)
    requires FieldsOk(p) && Fits(p, c)
    ensures FitsAfter(MoveOf(p, c, a))
  {
    match c
    case Respond(request) => RespondKeepsFields(p, request, a);
    case Refreshing(token) => RefreshKeepsFields(p, token, a);
    case Got401(version) => FenceKeepsFields(p, version, a);
    case _ =>
  }

  /** Only the call inside Prepare ends Opening, only the call inside a recovery ends Recovering, and both start alone. */
  lemma MovePhases(p: Fields, c: Call, a: Answers)
    requires FieldsOk(p) && Fits(p, c)
    ensures var move := MoveOf(p, c, a);
      && (p.phase == Opening && move.p.phase != Opening ==> InPrepare(c))
      && (p.phase == Recovering && move.p.phase != Recovering ==> InRecovery(c))
      && (InPrepare(move.next) && !InPrepare(c) ==> p.phase == New)
      && (InRecovery(move.next) && !InRecovery(c) ==> p.phase == Ready)
      && (p.phase == Blocked ==> move.p.phase == Blocked)
  {
  }

  lemma AdvanceKeepsCalls(s: System, n: nat, a: Answers)
    requires FieldsOk(s.p) && CallsOk(s.p, s.calls) && n in s.calls
    ensures FieldsOk(Advance(s, n, a).p) && CallsOk(Advance(s, n, a).p, Advance(s, n, a).calls)
  {
    MoveKeepsFields(s.p, s.calls[n], a);
    MovePhases(s.p, s.calls[n], a);
    OthersFit(s.p, s.calls, n, MoveOf(s.p, s.calls[n], a), Advance(s, n, a).calls);
  }

  lemma OthersFit(p: Fields, calls: map<nat, Call>, n: nat, move: Move, after: map<nat, Call>)
    requires CallsOk(p, calls) && n in calls && Fits(move.p, move.next)
    requires p.phase == Opening && move.p.phase != Opening ==> InPrepare(calls[n])
    requires p.phase == Recovering && move.p.phase != Recovering ==> InRecovery(calls[n])
    requires InPrepare(move.next) && !InPrepare(calls[n]) ==> p.phase == New
    requires InRecovery(move.next) && !InRecovery(calls[n]) ==> p.phase == Ready
    requires forall m :: m in after ==> m in calls && after[m] == if m == n then move.next else calls[m]
    ensures CallsOk(move.p, after)
  {
  }

  /** One event more on the log. */
  lemma LogGrows(log: seq<Event>, e: Event, force: bool)
    ensures Resolves(log + [e], force) == Resolves(log, force) + if e.OwnerResolve? && e.force == force then 1 else 0
    ensures Refreshes(log + [e]) == Refreshes(log) + if e.LocalRefresh? then 1 else 0
    ensures FenceUp(log + [e]) <==> e.Fenced? || (!e.LocalRefresh? && FenceUp(log))
    ensures Orderly(log + [e]) <==> Orderly(log) && (e.Authorized? ==> !FenceUp(log) && (e.version == 1 ==> WasIssued(log, e.access)))
    ensures forall access :: WasIssued(log, access) ==> WasIssued(log + [e], access)
    ensures e.LocalRefresh? ==> WasIssued(log + [e], e.local.access)
  {
    assert (log + [e])[..|log|] == log && (log + [e])[|log|] == e;
    forall access | WasIssued(log, access) ensures WasIssued(log + [e], access) {
      var i :| 0 <= i < |log| && log[i].LocalRefresh? && log[i].local.access == access;
      assert (log + [e])[i] == log[i];
    }
  }

  /** An event tells of the fields it happened under and of those it left. */
  ghost predicate Tells(p: Fields, c: Call, move: Move) {
    match move.seen
    case None => move.p.local == p.local && move.p.localUsed == p.localUsed && move.p.recoveryStarted == p.recoveryStarted
    case Some(OwnerResolve(force, _)) => move.p == p && c == (if force then ForcedResolving else PrepareResolving)
                                      && p.phase == (if force then Recovering else Opening)
                                      && !move.next.ForcedResolving? && !move.next.PrepareResolving?
    case Some(Authorized(version, access, account, auth)) =>
      && move.p == p && p.phase == Ready && version == p.ownerVersion && access == p.local.access != []
      && account == p.local.account != [] && auth == p.auth && !p.closed
    case Some(Fenced) => !p.recoveryStarted && move.p == FenceFields(p, Recover) && move.next.ForcedResolving?
    case Some(LocalRefresh(local)) =>
      && !p.localUsed && move.p == p.(local := local, localUsed := true, phase := Ready)
      && (p.local.account != [] ==> local.account == p.local.account)
  }

  /** What a move tells, and which phases it leads to. */
  ghost predicate TellsAndLeads(p: Fields, c: Call, move: Move) {
    && Tells(p, c, move)
    && (move.p.phase == New ==> p.phase == New)
    && (move.next.PrepareResolving? ==> p.phase == New) && (move.next.ForcedResolving? ==> !p.recoveryStarted)
    && (p.phase in {Recovering, AwaitRefresh, Blocked} && !(move.seen.Some? && move.seen.value.LocalRefresh?) ==>
          move.p.phase in {Recovering, AwaitRefresh, Blocked})
  }

  lemma RespondTells(p: Fields, request: Request, a: Answers)
    requires FieldsOk(p)
    ensures TellsAndLeads(p, Respond(request), RespondMove(p, request, a))
  {
  }

  lemma RefreshTells(p: Fields, token: Str, a: Answers)
    requires FieldsOk(p)
    ensures TellsAndLeads(p, Refreshing(token), RefreshMove(p, token, a))
  {
  }

  lemma FenceTells(p: Fields, version: nat, a: Answers)
    requires FieldsOk(p)
    ensures TellsAndLeads(p, Got401(version), FenceMove(p, version, a))
  {
  }

  lemma MoveTells(p: Fields, c: Call, a: Answers)
    requires FieldsOk(p) && Fits(p, c)
    ensures TellsAndLeads(p, c, MoveOf(p, c, a))
  {
    match c
    case Respond(request) => RespondTells(p, request, a);
    case Refreshing(token) => RefreshTells(p, token, a);
    case Got401(version) => FenceTells(p, version, a);
    case _ =>
  }

  /** The owner was asked, with or without force. */
  predicate Resolved(seen: Option<Event>, force: bool) { seen.Some? && seen.value.OwnerResolve? && seen.value.force == force }

  /** After a move a call still resolves only if it did before, or the move sent it there. */
  lemma ResolvingMoves(p: Fields, calls: map<nat, Call>, n: nat, move: Move, after: map<nat, Call>, force: bool)
    requires CallsOk(p, calls) && n in calls && Tells(p, calls[n], move)
    requires forall m :: m in after ==> m in calls && after[m] == if m == n then move.next else calls[m]
    ensures Resolving(after, force) ==> Resolving(calls, force) || (if force then move.next.ForcedResolving? else move.next.PrepareResolving?)
    ensures Resolved(move.seen, force) ==> !Resolving(after, force) && Resolving(calls, force)
  {
    if Resolving(after, force) {
      var m :| m in after && (if force then after[m].ForcedResolving? else after[m].PrepareResolving?);
      if m != n { assert calls[m] == after[m]; }
    }
    if Resolved(move.seen, force) { assert if force then calls[n].ForcedResolving? else calls[n].PrepareResolving?; }
  }

  lemma LogMoves(p: Fields, calls: map<nat, Call>, log: seq<Event>, c: Call, move: Move, after: map<nat, Call>, longer: seq<Event>)
    requires FieldsOk(p) && LogOk(p, calls, log) && Tells(p, c, move)
    requires move.p.phase == New ==> p.phase == New
    requires move.next.PrepareResolving? ==> p.phase == New
    requires move.next.ForcedResolving? ==> !p.recoveryStarted
    requires p.phase in {Recovering, AwaitRefresh, Blocked} && !(move.seen.Some? && move.seen.value.LocalRefresh?) ==>
      move.p.phase in {Recovering, AwaitRefresh, Blocked}
    requires Resolving(after, false) ==> Resolving(calls, false) || move.next.PrepareResolving?
    requires Resolving(after, true) ==> Resolving(calls, true) || move.next.ForcedResolving?
    requires Resolved(move.seen, false) ==> !Resolving(after, false) && Resolving(calls, false)
    requires Resolved(move.seen, true) ==> !Resolving(after, true) && Resolving(calls, true)
    requires longer == if move.seen.Some? then log + [move.seen.value] else log
    ensures LogOk(move.p, after, longer)
  {
    if move.seen.Some? {
      LogGrows(log, move.seen.value, false);
      LogGrows(log, move.seen.value, true);
    }
  }

  lemma AdvanceKeepsLog(s: System, n: nat, a: Answers)
    requires FieldsOk(s.p) && CallsOk(s.p, s.calls) && LogOk(s.p, s.calls, s.log) && n in s.calls
    ensures LogOk(Advance(s, n, a).p, Advance(s, n, a).calls, Advance(s, n, a).log)
  {
    var move, after := MoveOf(s.p, s.calls[n], a), Advance(s, n, a);
    MoveTells(s.p, s.calls[n], a);
    ResolvingMoves(s.p, s.calls, n, move, after.calls, false);
    ResolvingMoves(s.p, s.calls, n, move, after.calls, true);
    LogMoves(s.p, s.calls, s.log, s.calls[n], move, after.calls, after.log);
  }

  predicate SameCount(p: Fields, q: Fields) { q.calls == p.calls && q.drained == p.drained && q.closed == p.closed }

  lemma MoveKeepsCallCount(p: Fields, c: Call, a: Answers)
    requires !c.Ending?
    ensures SameCount(p, MoveOf(p, c, a).p)
  {
    match c
    case Respond(request) => assert SameCount(p, RespondMove(p, request, a).p);
    case Refreshing(token) => assert SameCount(p, RefreshMove(p, token, a).p);
    case Got401(version) => assert SameCount(p, FenceMove(p, version, a).p);
    case _ =>
  }

  lemma AdvanceKeepsDrain(s: System, n: nat, a: Answers)
    requires DrainOk(s.p, s.calls) && n in s.calls
    ensures DrainOk(Advance(s, n, a).p, Advance(s, n, a).calls)
  {
    if s.calls[n].Ending? {
      assert Advance(s, n, a).calls.Keys == s.calls.Keys - {n};
    } else {
      MoveKeepsCallCount(s.p, s.calls[n], a);
      assert Advance(s, n, a).calls.Keys == s.calls.Keys;
    }
  }

  lemma EnteredCalls(calls: map<nat, Call>, n: nat, call: Call, after: map<nat, Call>, force: bool)
    requires n !in calls && Entry(call) && after == calls[n := call]
    ensures after.Keys == calls.Keys + {n} && (Resolving(after, force) ==> Resolving(calls, force))
  {
    if Resolving(after, force) {
      var m :| m in after && (if force then after[m].ForcedResolving? else after[m].PrepareResolving?);
      assert calls[m] == after[m];
    }
  }

  lemma EnteredKeepsLog(p: Fields, calls: map<nat, Call>, log: seq<Event>, n: nat, call: Call, begun: Fields, after: map<nat, Call>)
    requires LogOk(p, calls, log) && n !in calls && Entry(call) && after == calls[n := call] && begun == p.(calls := p.calls + 1)
    ensures LogOk(begun, after, log)
  {
    EnteredCalls(calls, n, call, after, false);
    EnteredCalls(calls, n, call, after, true);
  }

  lemma EnteredKeepsDrain(p: Fields, calls: map<nat, Call>, n: nat, call: Call, begun: Fields, after: map<nat, Call>)
    requires DrainOk(p, calls) && !p.closed && n !in calls && Entry(call) && after == calls[n := call] && begun == p.(calls := p.calls + 1)
    ensures DrainOk(begun, after)
  {
    EnteredCalls(calls, n, call, after, false);
  }

  lemma EnterKeepsInv(s: System, step: Step)
    requires SystemInv(s) && step.Enter?
    ensures SystemInv(Do(s, step))
  {
    var after := Do(s, step);
    if after != s {
      EnteredKeepsLog(s.p, s.calls, s.log, step.caller, step.call, after.p, after.calls);
      EnteredKeepsDrain(s.p, s.calls, step.caller, step.call, after.p, after.calls);
    }
  }

  lemma StepKeepsInv(s: System, step: Step)
    requires SystemInv(s)
    ensures SystemInv(Do(s, step))
  {
    if step.Go? && step.caller in s.calls {
      AdvanceKeepsCalls(s, step.caller, step.answers);
      AdvanceKeepsLog(s, step.caller, step.answers);
      AdvanceKeepsDrain(s, step.caller, step.answers);
    } else if step.Enter? {
      EnterKeepsInv(s, step);
    }
  }

  lemma {:induction false} EveryInterleavingIsSound(local: LocalAuth, steps: seq<Step>)
    ensures SystemInv(Reached(local, steps))
    decreases |steps|
  {
    if |steps| > 0 {
      EveryInterleavingIsSound(local, steps[..|steps| - 1]);
      StepKeepsInv(Reached(local, steps[..|steps| - 1]), steps[|steps| - 1]);
    }
  }

  lemma ReachedOneMore(local: LocalAuth, steps: seq<Step>, step: Step, all: seq<Step>)
    requires all == steps + [step]
    ensures Reached(local, all) == Do(Reached(local, steps), step)
  {
    assert all[..|all| - 1] == steps;
  }

  /** Before preparation nothing has happened; before the refresh the local representation is the one minted first. */
  ghost predicate Untouched(local: LocalAuth, s: System) {
    (s.p.phase == New ==> s.log == []) && (!s.p.localUsed ==> s.p.local == local)
  }

  lemma StepKeepsUntouched(local: LocalAuth, s: System, step: Step)
    requires SystemInv(s) && Untouched(local, s)
    ensures Untouched(local, Do(s, step))
  {
    if step.Go? && step.caller in s.calls { MoveTells(s.p, s.calls[step.caller], step.answers); }
  }

  lemma {:induction false} EveryStartIsUntouched(local: LocalAuth, steps: seq<Step>)
    ensures Untouched(local, Reached(local, steps))
    decreases |steps|
  {
    if |steps| > 0 {
      EveryStartIsUntouched(local, steps[..|steps| - 1]);
      EveryInterleavingIsSound(local, steps[..|steps| - 1]);
      StepKeepsUntouched(local, Reached(local, steps[..|steps| - 1]), steps[|steps| - 1]);
    }
  }

  // ---- Whose credentials a send presents and carries ----

  /** The local representation in force after the log: the one of the latest refresh, or the one minted first. */
  function InForce(local: LocalAuth, log: seq<Event>): LocalAuth
    decreases |log|
  {
    if |log| == 0 then local
    else if log[|log| - 1].LocalRefresh? then log[|log| - 1].local
    else InForce(local, log[..|log| - 1])
  }

  /** What the latest owner resolve of this kind gave, if there was one. */
  function GivenBy(log: seq<Event>, force: bool): Option<OwnerAuth>
    decreases |log|
  {
    if |log| == 0 then None
    else if log[|log| - 1].OwnerResolve? && log[|log| - 1].force == force then log[|log| - 1].given
    else GivenBy(log[..|log| - 1], force)
  }

  /** The caller presented the representation in force, and the send carries what the owner's resolve gave for its version. */
  ghost predicate Credited(local: LocalAuth, before: seq<Event>, e: Event)
    requires e.Authorized?
  {
    var shown := InForce(local, before);
    && e.access == shown.access != [] && e.account == shown.account != []
    && Usable(e.auth) && e.auth == GivenBy(before, e.version == 1)
    && (local.account != [] ==> e.account == local.account)
  }

  ghost predicate AllCredited(local: LocalAuth, log: seq<Event>) {
    forall j :: 0 <= j < |log| && log[j].Authorized? ==> Credited(local, log[..j], log[j])
  }

  /** What the fields and the calls hold of the credentials in the log. */
  ghost predicate Holds(local: LocalAuth, p: Fields, calls: map<nat, Call>, log: seq<Event>) {
    && p.local == InForce(local, log) && (local.account != [] ==> p.local.account == local.account)
    && (p.auth.Some? ==> p.auth == GivenBy(log, p.ownerVersion == 1)) && (p.phase in {New, Opening} ==> p.auth.None?)
    && (forall n :: n in calls && calls[n].PrepareLeaving? ==> calls[n].resolved == GivenBy(log, false))
    && (forall n :: n in calls && calls[n].RecoverLeaving? ==> calls[n].resolved == GivenBy(log, true))
  }

  lemma CredentialsGrow(local: LocalAuth, log: seq<Event>, e: Event)
    ensures InForce(local, log + [e]) == if e.LocalRefresh? then e.local else InForce(local, log)
    ensures forall force :: GivenBy(log + [e], force) == if e.OwnerResolve? && e.force == force then e.given else GivenBy(log, force)
    ensures AllCredited(local, log) && (e.Authorized? ==> Credited(local, log, e)) ==> AllCredited(local, log + [e])
  {
    var longer := log + [e];
    assert longer[..|log|] == log && longer[|log|] == e;
    if AllCredited(local, log) && (e.Authorized? ==> Credited(local, log, e)) {
      forall j | 0 <= j < |longer| && longer[j].Authorized? ensures Credited(local, longer[..j], longer[j]) {
        assert longer[..j] == log[..j];
        if j < |log| { assert longer[j] == log[j]; }
      }
    }
  }

  /** What a move does with the owner's auth: it keeps it, drops it, or takes what the call was given. */
  ghost predicate PassesOn(p: Fields, c: Call, move: Move) {
    && (move.p.auth.None? || (move.p.auth == p.auth && move.p.ownerVersion == p.ownerVersion)
        || (c.PrepareLeaving? && move.p.auth == c.resolved && move.p.ownerVersion == p.ownerVersion && p.phase == Opening)
        || (c.RecoverLeaving? && move.p.auth == c.resolved && move.p.ownerVersion == 1))
    && (move.p.phase in {New, Opening} ==> p.phase in {New, Opening} && move.p.auth == p.auth)
    && (move.next.PrepareLeaving? ==> move.seen == Some(OwnerResolve(false, move.next.resolved)))
    && (move.next.RecoverLeaving? ==> move.seen == Some(OwnerResolve(true, move.next.resolved)))
    && (move.seen.None? || !move.seen.value.LocalRefresh? ==> move.p.local == p.local)
  }

  lemma MovePassesOn(p: Fields, c: Call, a: Answers)
    requires FieldsOk(p) && Fits(p, c) && !c.Ending?
    ensures PassesOn(p, c, MoveOf(p, c, a))
  {
  }

  lemma FieldsHold(local: LocalAuth, p: Fields, calls: map<nat, Call>, log: seq<Event>, c: Call, move: Move, longer: seq<Event>)
    requires FieldsOk(p) && Fits(p, c) && Holds(local, p, calls, log) && Tells(p, c, move) && PassesOn(p, c, move)
    requires c.PrepareLeaving? ==> c.resolved == GivenBy(log, false)
    requires c.RecoverLeaving? ==> c.resolved == GivenBy(log, true)
    requires InPrepare(c) ==> p.ownerVersion == 0
    requires longer == if move.seen.Some? then log + [move.seen.value] else log
    ensures Holds(local, move.p, map[], longer)
  {
    if move.seen.Some? { CredentialsGrow(local, log, move.seen.value); }
  }

  lemma CallsHold(local: LocalAuth, p: Fields, calls: map<nat, Call>, log: seq<Event>, n: nat, move: Move, after: map<nat, Call>, longer: seq<Event>)
    requires CallsOk(p, calls) && n in calls && Holds(local, p, calls, log) && Tells(p, calls[n], move) && PassesOn(p, calls[n], move)
    requires forall m :: m in after ==> m in calls && after[m] == if m == n then move.next else calls[m]
    requires longer == if move.seen.Some? then log + [move.seen.value] else log
    ensures forall m :: m in after && after[m].PrepareLeaving? ==> after[m].resolved == GivenBy(longer, false)
    ensures forall m :: m in after && after[m].RecoverLeaving? ==> after[m].resolved == GivenBy(longer, true)
  {
    if move.seen.Some? { CredentialsGrow(local, log, move.seen.value); }
  }

  lemma SendIsCredited(local: LocalAuth, p: Fields, calls: map<nat, Call>, log: seq<Event>, c: Call, move: Move)
    requires FieldsOk(p) && Holds(local, p, calls, log) && Tells(p, c, move) && move.seen.Some? && move.seen.value.Authorized?
    ensures Credited(local, log, move.seen.value)
  {
  }

  lemma NoVersionBeforePrepared(p: Fields)
    requires FieldsOk(p) && p.phase == Opening
    ensures p.ownerVersion == 0
  {
  }

  lemma AdvanceKeepsCredit(local: LocalAuth, s: System, n: nat, a: Answers)
    requires SystemInv(s) && n in s.calls && Holds(local, s.p, s.calls, s.log) && AllCredited(local, s.log)
    ensures Holds(local, Advance(s, n, a).p, Advance(s, n, a).calls, Advance(s, n, a).log) && AllCredited(local, Advance(s, n, a).log)
  {
    var c, move, after := s.calls[n], MoveOf(s.p, s.calls[n], a), Advance(s, n, a);
    MoveTells(s.p, c, a);
    if !c.Ending? {
      MovePassesOn(s.p, c, a);
      if InPrepare(c) { NoVersionBeforePrepared(s.p); }
      FieldsHold(local, s.p, s.calls, s.log, c, move, after.log);
      CallsHold(local, s.p, s.calls, s.log, n, move, after.calls, after.log);
      if move.seen.Some? {
        if move.seen.value.Authorized? { SendIsCredited(local, s.p, s.calls, s.log, c, move); }
        CredentialsGrow(local, s.log, move.seen.value);
      }
    }
  }

  lemma StepKeepsCredit(local: LocalAuth, s: System, step: Step)
    requires SystemInv(s) && Holds(local, s.p, s.calls, s.log) && AllCredited(local, s.log)
    ensures Holds(local, Do(s, step).p, Do(s, step).calls, Do(s, step).log) && AllCredited(local, Do(s, step).log)
  {
    if step.Go? && step.caller in s.calls { AdvanceKeepsCredit(local, s, step.caller, step.answers); }
  }

  lemma {:induction false} EveryRunIsCredited(local: LocalAuth, steps: seq<Step>)
    ensures var s := Reached(local, steps); Holds(local, s.p, s.calls, s.log) && AllCredited(local, s.log)
    decreases |steps|
  {
    if |steps| > 0 {
      EveryRunIsCredited(local, steps[..|steps| - 1]);
      EveryInterleavingIsSound(local, steps[..|steps| - 1]);
      StepKeepsCredit(local, Reached(local, steps[..|steps| - 1]), steps[|steps| - 1]);
    }
  }

  /**
   Over every interleaving, each authorized send was asked for with the access token and account of the representation
   in force: the one minted first before the refresh, the issued one after it. It goes out under the auth that the
   owner's resolve gave: the unforced one at version zero, the forced one at version one.
   */
  lemma SendsPresentTheCurrent(local: LocalAuth, steps: seq<Step>, j: nat)
    requires j < |Reached(local, steps).log| && Reached(local, steps).log[j].Authorized?
    ensures var log := Reached(local, steps).log; Credited(local, log[..j], log[j])
  {
    EveryRunIsCredited(local, steps);
  }

  // ---- What it means ----

  /** At most one unforced and one forced owner resolve, at most one local refresh, and the auth version never passes one. */
  lemma RecoveryIsOneShot(local: LocalAuth, steps: seq<Step>)
    ensures var s := Reached(local, steps);
      && Resolves(s.log, false) <= 1 && Resolves(s.log, true) <= 1 && Refreshes(s.log) <= 1
      && s.p.ownerVersion <= 1
  {
    EveryInterleavingIsSound(local, steps);
  }

  lemma {:induction false} OrderlyMeans(log: seq<Event>, j: nat)
    requires Orderly(log) && j < |log| && log[j].Authorized?
    ensures !FenceUp(log[..j]) && (log[j].version == 1 ==> WasIssued(log[..j], log[j].access))
    decreases |log|
  {
    if j < |log| - 1 {
      OrderlyMeans(log[..|log| - 1], j);
      assert log[..|log| - 1][..j] == log[..j];
    }
  }

  /** A fence that is down again was lowered by a local refresh. */
  lemma {:induction false} FenceFalls(log: seq<Event>, i: nat)
    requires i < |log| && log[i].Fenced? && !FenceUp(log)
    ensures exists k :: i < k < |log| && log[k].LocalRefresh?
    decreases |log|
  {
    if !log[|log| - 1].LocalRefresh? { FenceFalls(log[..|log| - 1], i); }
  }

  /**
   Over every interleaving: between a fencing 401 and any later authorization there is the local refresh, and
   whatever is authorized at version 1 presented the access token that an earlier refresh issued.
   */
  lemma NoSendBehindTheFence(local: LocalAuth, steps: seq<Step>, j: nat)
    requires j < |Reached(local, steps).log| && Reached(local, steps).log[j].Authorized?
    ensures var log := Reached(local, steps).log;
      && (forall i :: 0 <= i < j && log[i].Fenced? ==> RefreshedBetween(log, i, j))
      && (log[j].version == 1 ==> IssuedBefore(log, j, log[j].access))
  {
    var log := Reached(local, steps).log;
    EveryInterleavingIsSound(local, steps);
    OrderlyMeans(log, j);
    forall i | 0 <= i < j && log[i].Fenced? ensures RefreshedBetween(log, i, j) {
      FenceFalls(log[..j], i);
      var k :| i < k < j && log[..j][k].LocalRefresh?;
      assert log[k].LocalRefresh?;
    }
    if log[j].version == 1 {
      var k :| 0 <= k < j && log[..j][k].LocalRefresh? && log[..j][k].local.access == log[j].access;
      assert log[k].LocalRefresh?;
    }
  }

  predicate RefreshedBetween(log: seq<Event>, i: int, j: int)
    requires 0 <= i <= j <= |log|
  {
    exists k :: i < k < j && log[k].LocalRefresh?
  }

  predicate IssuedBefore(log: seq<Event>, j: int, access: Str)
    requires 0 <= j <= |log|
  {
    exists k :: 0 <= k < j && log[k].LocalRefresh? && log[k].local.access == access
  }

  /** Blocked is absorbing, whatever any call does next. */
  lemma BlockedIsFinal(local: LocalAuth, steps: seq<Step>, step: Step)
    requires Reached(local, steps).p.phase == Blocked
    ensures Reached(local, steps + [step]).p.phase == Blocked
  {
    EveryInterleavingIsSound(local, steps);
    var s := Reached(local, steps);
    assert (steps + [step])[..|steps|] == steps;
    if step.Go? && step.caller in s.calls { MovePhases(s.p, s.calls[step.caller], step.answers); }
  }

  /** No send ever goes out under unusable owner auth, so the provider never blocks itself over one. */
  lemma AuthorizedSendsAreUsable(local: LocalAuth, steps: seq<Step>, n: nat)
    requires n in Reached(local, steps).calls
    ensures !Reached(local, steps).calls[n].Blocking?
    ensures Reached(local, steps).calls[n].Sending? ==> Usable(Reached(local, steps).calls[n].auth)
  {
    EveryInterleavingIsSound(local, steps);
  }

  /** The drained channel is closed at most once, and has been exactly when Close was called and no begun call is left. */
  lemma DrainedExactlyOnce(local: LocalAuth, steps: seq<Step>)
    ensures var s := Reached(local, steps);
      s.p.drained <= 1 && (s.p.drained == 1 <==> s.p.closed && |s.calls| == 0) && s.p.calls == |s.calls|
  {
    EveryInterleavingIsSound(local, steps);
  }
}
