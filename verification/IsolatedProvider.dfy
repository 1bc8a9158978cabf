/**
 The isolated provider as it runs: an object whose fields one mutex guards, with a ghost record of all that
 every caller has done so far. Each method is one mutex-held region, or one wait between two of them, of the
 begun call n; other calls may take any number of steps in between.
 */
module IsolatedProvider {
  import opened GoTypes
  import opened Provider
  import opened ProviderRuns

  const NO_ANSWER := Answers(false, false, false, None, false, false, None)

  // ---- What the regions of a recovery and a refresh find and leave ----

  /** What a call finds when it starts the recovery. */
  ghost predicate StartsRecovery(s: System, n: nat, after: System) {
    && n in after.calls && after.calls[n] == ForcedResolving && FenceUp(after.log) && !s.p.recoveryStarted
    && Resolves(after.log, true) == 0
    && forall m :: m in after.calls && InRecovery(after.calls[m]) ==> m == n
  }

  lemma FenceMeans(local: LocalAuth, steps: seq<Step>, n: nat, version: nat, a: Answers, s: System, after: System)
    requires s == Reached(local, steps) && n in s.calls && s.calls[n] == Got401(version) && after == Do(s, Go(n, a))
    ensures var fence := FenceResult(s.p, version, a.alive, a.budget);
      && after.p == FenceFields(s.p, fence)
      && (if fence.Recover? then StartsRecovery(s, n, after) else n in after.calls && after.calls[n] == Ending)
  {
    EveryInterleavingIsSound(local, steps);
    StepKeepsInv(s, Go(n, a));
    LogGrows(s.log, Fenced, true);
  }

  /** What any region of a call but the last finds and leaves: fields that fit each other and the call's place. */
  lemma GoMeans(local: LocalAuth, steps: seq<Step>, n: nat, place: Call, a: Answers, s: System, after: System)
    requires s == Reached(local, steps) && n in s.calls && s.calls[n] == place && !place.Ending? && after == Do(s, Go(n, a))
    ensures FieldsOk(s.p) && Fits(s.p, place)
    ensures after.p == MoveOf(s.p, place, a).p && n in after.calls && after.calls[n] == MoveOf(s.p, place, a).next
  {
    EveryInterleavingIsSound(local, steps);
  }

  lemma EndMeans(local: LocalAuth, steps: seq<Step>, n: nat, a: Answers, s: System, after: System)
    requires s == Reached(local, steps) && n in s.calls && s.calls[n] == Ending && after == Do(s, Go(n, a))
    ensures after.p == End(s.p) && n !in after.calls && after.p.calls == |after.calls|
    ensures after.p.drained == if after.p.closed && |after.calls| == 0 then 1 else 0
  {
    EveryInterleavingIsSound(local, steps);
    AdvanceKeepsDrain(s, n, a);
  }

  /** The auth a resolve gives on; a forced one must have refreshed. */
  function Given(force: bool, a: Answers): Option<OwnerAuth> { if force && !(a.refreshed && Usable(a.resolved)) then None else a.resolved }

  lemma ResolveMeans(local: LocalAuth, steps: seq<Step>, n: nat, force: bool, a: Answers, s: System, after: System)
    requires s == Reached(local, steps) && n in s.calls && s.calls[n] == (if force then ForcedResolving else PrepareResolving)
    requires after == Do(s, Go(n, a))
    ensures after.p == s.p && n in after.calls
    ensures after.calls[n] == if force then RecoverLeaving(Given(force, a)) else PrepareLeaving(Given(force, a))
    ensures Resolves(after.log, force) == 1
  {
    EveryInterleavingIsSound(local, steps);
    LogGrows(s.log, OwnerResolve(force, Given(force, a)), force);
  }

  /** The one refresh: it is in the log, and the fence is down. */
  ghost predicate Refreshed(after: System, issued: LocalAuth) {
    after.p.local == issued && after.p.phase == Ready && Refreshes(after.log) == 1 && !FenceUp(after.log) && WasIssued(after.log, issued.access)
  }

  lemma RefreshMeans(local: LocalAuth, steps: seq<Step>, n: nat, token: Str, a: Answers, s: System, after: System)
    requires s == Reached(local, steps) && n in s.calls && s.calls[n] == Refreshing(token) && after == Do(s, Go(n, a))
    ensures var outcome := RefreshOutcome(s.p, token, a.alive, a.minted);
      && after.p == RefreshFields(s.p, token, a.alive, a.minted) && n in after.calls
      && after.calls[n] == (if outcome.RefreshWait? then AwaitingRecovery(token) else Ending)
      && (if outcome.Issued? then Refreshed(after, outcome.local) else after.log == s.log)
  {
    EveryInterleavingIsSound(local, steps);
    if a.minted.Some? { LogGrows(s.log, LocalRefresh(Renewed(s.p.local, a.minted.value)), true); }
  }

  class Isolated {
    var phase: Phase
    var closed: bool
    var seeded: bool
    var localUsed: bool
    var local: LocalAuth
    var auth: Option<OwnerAuth>
    var ownerVersion: nat
    var recoveryStarted: bool
    var recoveryDone: bool
    var calls: int
    var drained: nat
    var cancelled: bool
    ghost const minted: LocalAuth
    ghost var steps: seq<Step>

    function State(): Fields
      reads this
    {
      Fields(phase, closed, seeded, localUsed, local, auth, ownerVersion, recoveryStarted, recoveryDone, calls, drained, cancelled)
    }

    /** The provider and all its calls after the steps taken so far. */
    ghost function Now(): System
      reads this
    {
      Reached(minted, steps)
    }

    ghost predicate Valid()
      reads this
    {
      State() == Now().p
    }

    ghost predicate At(n: nat, place: Call)
      reads this
    {
      n in Now().calls && Now().calls[n] == place
    }

    constructor (local: LocalAuth)
      ensures Valid() && minted == local && steps == []
    {
      this.local, minted, steps := local, local, [];
      phase, closed, seeded, localUsed, auth, ownerVersion := New, false, false, false, None, 0;
      recoveryStarted, recoveryDone, calls, drained, cancelled := false, false, 0, 0, false;
    }

    /** Records a step. */
    ghost method Record(step: Step)
      modifies this`steps
      ensures steps == old(steps) + [step] && Now() == Do(old(Now()), step)
    {
      ReachedOneMore(minted, steps, step, steps + [step]);
      steps := steps + [step];
    }

    /** Records a region of call n, which stands at a place before its end. */
    ghost method RecordGo(n: nat, place: Call, a: Answers)
      requires At(n, place) && !place.Ending?
      modifies this`steps
      ensures steps == old(steps) + [Go(n, a)] && FieldsOk(old(Now()).p) && Fits(old(Now()).p, place)
      ensures Now().p == MoveOf(old(Now()).p, place, a).p && At(n, MoveOf(old(Now()).p, place, a).next)
    {
      GoMeans(minted, steps, n, place, a, Now(), Do(Now(), Go(n, a)));
      Record(Go(n, a));
    }

    ghost method RecordEnd(n: nat, a: Answers)
      requires At(n, Ending)
      modifies this`steps
      ensures steps == old(steps) + [Go(n, a)] && Now().p == End(old(Now()).p) && n !in Now().calls
      ensures Now().p.calls == |Now().calls| && Now().p.drained == if Now().p.closed && |Now().calls| == 0 then 1 else 0
    {
      EndMeans(minted, steps, n, a, Now(), Do(Now(), Go(n, a)));
      Record(Go(n, a));
    }

    ghost method RecordFence(n: nat, version: nat, a: Answers)
      requires At(n, Got401(version))
      modifies this`steps
      ensures steps == old(steps) + [Go(n, a)]
      ensures var fence := FenceResult(old(Now()).p, version, a.alive, a.budget);
        && Now().p == FenceFields(old(Now()).p, fence)
        && (if fence.Recover? then StartsRecovery(old(Now()), n, Now()) else At(n, Ending))
    {
      FenceMeans(minted, steps, n, version, a, Now(), Do(Now(), Go(n, a)));
      Record(Go(n, a));
    }

    ghost method RecordRefresh(n: nat, token: Str, a: Answers)
      requires At(n, Refreshing(token))
      modifies this`steps
      ensures steps == old(steps) + [Go(n, a)]
      ensures var outcome := RefreshOutcome(old(Now()).p, token, a.alive, a.minted);
        && Now().p == RefreshFields(old(Now()).p, token, a.alive, a.minted)
        && At(n, if outcome.RefreshWait? then AwaitingRecovery(token) else Ending)
        && (if outcome.Issued? then Refreshed(Now(), outcome.local) else Now().log == old(Now()).log)
    {
      RefreshMeans(minted, steps, n, token, a, Now(), Do(Now(), Go(n, a)));
      Record(Go(n, a));
    }

    ghost method RecordBegin(n: nat, call: Call, alive: bool)
      requires n !in Now().calls && Entry(call)
      modifies this`steps
      ensures steps == old(steps) + [Enter(n, call, alive)]
      ensures var begun := Begin(old(Now()).p, alive);
        if begun.Some? then Now().p == begun.value && At(n, call) && Now().p.calls == |Now().calls| && Now().p.drained == 0
        else Now() == old(Now())
    {
      EveryInterleavingIsSound(minted, steps);
      Record(Enter(n, call, alive));
      EveryInterleavingIsSound(minted, steps);
    }

    ghost method RecordClose()
      modifies this`steps
      ensures steps == old(steps) + [CloseCalled] && Now().p == Close(old(Now()).p)
      ensures Now().p.drained == if Now().p.closed && |Now().calls| == 0 then 1 else 0
    {
      Record(CloseCalled);
      EveryInterleavingIsSound(minted, steps);
    }

    ghost method RecordResolve(n: nat, force: bool, a: Answers)
      requires At(n, if force then ForcedResolving else PrepareResolving)
      modifies this`steps
      ensures steps == old(steps) + [Go(n, a)] && Now().p == old(Now()).p && Resolves(Now().log, force) == 1
      ensures At(n, if force then RecoverLeaving(Given(force, a)) else PrepareLeaving(Given(force, a)))
    {
      ResolveMeans(minted, steps, n, force, a, Now(), Do(Now(), Go(n, a)));
      Record(Go(n, a));
    }

    /** Records a step; the invariant of every interleaving holds before and after it. */
    ghost method Take(step: Step)
      modifies this`steps
      ensures steps == old(steps) + [step] && Now() == Do(old(Now()), step)
      ensures SystemInv(old(Now())) && SystemInv(Now()) && Untouched(minted, old(Now()))
    {
      EveryInterleavingIsSound(minted, steps);
      EveryStartIsUntouched(minted, steps);
      Record(step);
      EveryInterleavingIsSound(minted, steps);
    }

    /** The local file goes out once, as first minted, before anything was resolved or authorized. */
    method InitialAuth() returns (data: Option<LocalAuth>)
      requires Valid()
      modifies this
      ensures Valid() && steps == old(steps) + [SeedFile]
      ensures data.Some? <==> old(!closed && !seeded && phase == New && !cancelled)
      ensures data.Some? ==> data.value == minted && State() == old(State()).(seeded := true) && Now().log == []
      ensures data.None? ==> Now() == old(Now())
    {
      Take(SeedFile);
      if closed || seeded || phase != New || cancelled { return None; }
      seeded := true;
      return Some(local);
    }

    /** A begun call is one of the calls counted, and none begins once the provider is closed. */
    method BeginCall(ghost n: nat, ghost call: Call, alive: bool) returns (ok: bool)
      requires Valid() && n !in Now().calls && Entry(call)
      modifies this
      ensures Valid() && steps == old(steps) + [Enter(n, call, alive)]
      ensures ok <==> alive && old(!closed && !cancelled)
      ensures ok ==> At(n, call) && !closed && calls == |Now().calls| && drained == 0
      ensures !ok ==> Now() == old(Now())
    {
      RecordBegin(n, call, alive);
      if !alive || closed || cancelled { return false; }
      calls := calls + 1;
      return true;
    }

    /** The drained channel is closed by the last call to end after Close, and by no other. */
    method EndCall(ghost n: nat)
      requires Valid() && At(n, Ending)
      modifies this
      ensures Valid() && steps == old(steps) + [Go(n, NO_ANSWER)]
      ensures n !in Now().calls && calls == |Now().calls|
      ensures drained <= 1 && (drained == 1 <==> closed && |Now().calls| == 0)
      ensures State() == old(State()).(calls := calls, drained := drained)
    {
      RecordEnd(n, NO_ANSWER);
      calls := calls - 1;
      if closed && calls == 0 { drained := drained + 1; }
    }

    /** The one call that enters preparation: no owner resolve came before it and no other call is inside. */
    method PrepareEnter(ghost n: nat) returns (ok: bool)
      requires Valid() && At(n, PrepareCall)
      modifies this
      ensures Valid() && steps == old(steps) + [Go(n, NO_ANSWER)]
      ensures ok <==> old(phase == New && seeded)
      ensures ok ==> At(n, PrepareResolving) && Resolves(Now().log, false) == 0 && State() == old(State()).(phase := Opening)
      ensures ok ==> forall m :: m in Now().calls && InPrepare(Now().calls[m]) ==> m == n
      ensures !ok ==> At(n, Ending) && State() == old(State())
    {
      Take(Go(n, NO_ANSWER));
      if phase != New || !seeded { return false; }
      phase := Opening;
      return true;
    }

    /** The native consumer, outside the mutex: asked without force once and with force once, ever. */
    method ResolveOwner(ghost n: nat, force: bool, answer: Option<OwnerAuth>, refreshed: bool) returns (resolved: Option<OwnerAuth>)
      requires Valid() && At(n, if force then ForcedResolving else PrepareResolving)
      modifies this`steps
      ensures Valid() && steps == old(steps) + [Go(n, NO_ANSWER.(resolved := answer, refreshed := refreshed))]
      ensures At(n, if force then RecoverLeaving(resolved) else PrepareLeaving(resolved))
      ensures Resolves(Now().log, force) == 1
      ensures resolved == if force && !(refreshed && Usable(answer)) then None else answer
    {
      RecordResolve(n, force, NO_ANSWER.(resolved := answer, refreshed := refreshed));
      if force && !(refreshed && Usable(answer)) { return None; }
      return answer;
    }

    /** Preparation ends with usable auth or with the provider blocked. */
    method PrepareLeave(ghost n: nat, resolved: Option<OwnerAuth>, alive: bool) returns (ok: bool)
      requires Valid() && At(n, PrepareLeaving(resolved))
      modifies this
      ensures Valid() && steps == old(steps) + [Go(n, NO_ANSWER.(alive := alive))] && At(n, Ending)
      ensures ok <==> Usable(resolved) && alive && old(!closed && !cancelled)
      ensures ok ==> State() == old(State()).(phase := Prepared, auth := resolved) && Usable(auth) && !recoveryStarted
      ensures !ok ==> State() == old(State()).(phase := Blocked)
    {
      RecordGo(n, PrepareLeaving(resolved), NO_ANSWER.(alive := alive));
      if !Usable(resolved) {
        phase := Blocked;
        return false;
      }
      if closed || !alive || cancelled {
        phase := Blocked;
        return false;
      }
      auth, phase := resolved, Prepared;
      return true;
    }

    /** The provider becomes ready from prepared alone, with the auth that preparation found. */
    method OpenEndpoint(ghost n: nat, endpointOpens: bool) returns (ok: bool)
      requires Valid() && At(n, OpenCall)
      modifies this
      ensures Valid() && steps == old(steps) + [Go(n, NO_ANSWER.(endpointOpens := endpointOpens))] && At(n, Ending)
      ensures ok <==> old(phase == Prepared) && endpointOpens
      ensures ok ==> State() == old(State()).(phase := Ready) && ownerVersion == 0 && (!closed ==> Usable(auth))
      ensures !ok ==> State() == old(State())
    {
      RecordGo(n, OpenCall, NO_ANSWER.(endpointOpens := endpointOpens));
      if phase != Prepared || !endpointOpens { return false; }
      phase := Ready;
      return true;
    }

    /** respond on anything but a request to forward: a well-formed refresh goes to the refresh loop. */
    method RouteRequest(ghost n: nat, request: Request) returns (refreshing: bool)
      requires Valid() && At(n, Respond(request)) && !request.Forward?
      modifies this`steps
      ensures Valid() && steps == old(steps) + [Go(n, NO_ANSWER)]
      ensures if refreshing then request.Refresh? && request.wellFormed && At(n, Refreshing(request.token)) else At(n, Ending)
    {
      Take(Go(n, NO_ANSWER));
      return request.Refresh? && request.wellFormed;
    }

    /**
     A send is authorized exactly if the provider is open and ready and the caller is alive and presents the access token
     and the account of the representation in force. It gets the owner's auth, which is usable, with no fence up since the
     last local refresh; at version one the token was issued by the refresh. Authorizing changes no field.
     */
    method AuthorizeSend(ghost n: nat, access: Str, account: Str, alive: bool) returns (permit: Permit)
      requires Valid() && At(n, Respond(Forward(access, account)))
      modifies this`steps
      ensures Valid() && steps == old(steps) + [Go(n, NO_ANSWER.(alive := alive))]
      ensures permit.Unavailable? <==> closed || !alive || phase == New || phase == Opening || phase == Blocked
      ensures permit.Send? <==>
        !closed && alive && phase == Ready && access == local.access != [] && account == local.account != []
      ensures permit.Send? ==>
        && permit == Send(auth, ownerVersion) && At(n, Sending(auth, ownerVersion)) && Usable(auth) && ownerVersion <= 1
        && local == InForce(minted, old(Now()).log) && auth == GivenBy(old(Now()).log, ownerVersion == 1)
        && !FenceUp(old(Now()).log) && (ownerVersion == 1 ==> WasIssued(old(Now()).log, access))
      ensures !permit.Send? ==> At(n, Ending) && Now().log == old(Now()).log
    {
      EveryRunIsCredited(minted, steps);
      Take(Go(n, NO_ANSWER.(alive := alive)));
      if closed || !alive || phase == Blocked || phase == New || phase == Opening { return Unavailable; }
      if !(EqualLocal(access, local.access) && EqualLocal(account, local.account)) || phase != Ready { return Denied; }
      return Send(auth, ownerVersion);
    }

    /** The upstream call itself; its auth is usable, so it goes out. */
    method SendUpstream(ghost n: nat, auth: Option<OwnerAuth>, version: nat, verified401: bool)
      requires Valid() && At(n, Sending(auth, version))
      modifies this`steps
      ensures Valid() && steps == old(steps) + [Go(n, NO_ANSWER.(verified401 := verified401))]
      ensures Usable(auth) && At(n, if verified401 then Got401(version) else Ending)
    {
      Take(Go(n, NO_ANSWER.(verified401 := verified401)));
    }

    /** The one 401 that starts the recovery raises the fence, and no other call recovers; a late one changes nothing. */
    method RecoverEnter(ghost n: nat, version: nat, alive: bool, budget: bool) returns (fence: Fence)
      requires Valid() && At(n, Got401(version))
      modifies this
      ensures Valid() && steps == old(steps) + [Go(n, NO_ANSWER.(alive := alive, budget := budget))]
      ensures fence.Ignored? <==> old(closed || version != ownerVersion || phase != Ready) || !alive
      ensures fence.Spent? ==> (old(recoveryStarted || localUsed) || !budget) && fence.taint == old(recoveryStarted)
      ensures fence.Recover? ==> old(!recoveryStarted && !localUsed) && budget
      ensures fence.Recover? ==> StartsRecovery(old(Now()), n, Now()) && phase == Recovering && auth == old(auth)
      ensures fence.Spent? ==> At(n, Ending) && State() == old(State()).(phase := Blocked, auth := None)
      ensures fence.Ignored? ==> At(n, Ending) && State() == old(State())
    {
      RecordFence(n, version, NO_ANSWER.(alive := alive, budget := budget));
      fence := RaiseFence(version, alive, budget);
    }

    /** The fields under the mutex. */
    method RaiseFence(version: nat, alive: bool, budget: bool) returns (fence: Fence)
      modifies this
      ensures fence == FenceResult(old(State()), version, alive, budget) && State() == FenceFields(old(State()), fence)
      ensures steps == old(steps)
    {
      if closed || !alive || version != ownerVersion || phase != Ready { return Ignored; }
      if recoveryStarted || localUsed || !budget {
        var taint := recoveryStarted;
        phase, auth := Blocked, None;
        return Spent(taint);
      }
      recoveryStarted, phase, recoveryDone := true, Recovering, false;
      return Recover;
    }

    /** The recovery ends at version one, waiting for the refresh with usable auth, or with the provider blocked. */
    method RecoverLeave(ghost n: nat, resolved: Option<OwnerAuth>, alive: bool) returns (ok: bool)
      requires Valid() && At(n, RecoverLeaving(resolved))
      modifies this
      ensures Valid() && steps == old(steps) + [Go(n, NO_ANSWER.(alive := alive))] && At(n, Ending) && recoveryDone
      ensures ok <==> Usable(resolved) && alive && old(!closed)
      ensures ok ==> phase == AwaitRefresh && ownerVersion == 1 && auth == resolved && Usable(auth) && !localUsed && local == old(local)
      ensures !ok ==> State() == old(State()).(phase := Blocked, auth := None, recoveryDone := true)
    {
      RecordGo(n, RecoverLeaving(resolved), NO_ANSWER.(alive := alive));
      ok := EndRecovery(resolved, alive);
    }

    method EndRecovery(resolved: Option<OwnerAuth>, alive: bool) returns (ok: bool)
      modifies this
      ensures State() == LeaveRecovery(old(State()), resolved, alive) && steps == old(steps)
      ensures ok <==> Usable(resolved) && !old(closed) && alive
    {
      if !Usable(resolved) || closed || !alive {
        phase, auth, recoveryDone := Blocked, None, true;
        return false;
      }
      auth, ownerVersion, phase, recoveryDone := resolved, (ownerVersion + 1) % 256, AwaitRefresh, true;
      return true;
    }

    /** One pass of the refresh loop: the representation issued is the only one ever, and it lowers the fence. */
    method RefreshLocal(ghost n: nat, token: Str, alive: bool, next: Option<LocalAuth>) returns (result: RefreshResult)
      requires Valid() && At(n, Refreshing(token))
      modifies this
      ensures Valid() && steps == old(steps) + [Go(n, NO_ANSWER.(alive := alive, minted := next))]
      ensures result.RefreshDenied? <==>
        alive && old(!closed && phase !in {New, Opening, Blocked} && (localUsed || token != local.refresh || local.refresh == []))
      ensures result.RefreshWait? <==>
        alive && old(!closed && phase == Recovering && !localUsed && token == local.refresh && local.refresh != [])
      ensures result.Issued? <==>
        alive && next.Some? && old(!closed && phase in {Prepared, Ready, AwaitRefresh} && !localUsed && token == local.refresh && local.refresh != [])
      ensures result.Issued? ==>
        && At(n, Ending) && Refreshed(Now(), result.local)
        && result.local.access == next.value.access && result.local.refresh == next.value.refresh
        && result.local.account == (if old(local.account) == [] then next.value.account else old(local.account))
      ensures result.RefreshWait? ==> At(n, AwaitingRecovery(token)) && phase == Recovering && State() == old(State())
      ensures result.RefreshDenied? ==> At(n, Ending) && State() == old(State())
      ensures !result.Issued? ==> Now().log == old(Now()).log && local == old(local)
    {
      RecordRefresh(n, token, NO_ANSWER.(alive := alive, minted := next));
      result := IssueLocal(token, alive, next);
    }

    method IssueLocal(token: Str, alive: bool, next: Option<LocalAuth>) returns (result: RefreshResult)
      modifies this
      ensures result == RefreshOutcome(old(State()), token, alive, next) && State() == RefreshFields(old(State()), token, alive, next)
      ensures steps == old(steps)
    {
      if closed || !alive || phase == New || phase == Opening || phase == Blocked { return RefreshUnavailable; }
      if localUsed || !EqualLocal(token, local.refresh) { return RefreshDenied; }
      if phase == Recovering { return RefreshWait; }
      if next.None? {
        phase, auth := Blocked, None;
        return RefreshUnavailable;
      }
      var issued := Renewed(local, next.value);
      local, localUsed, phase := issued, true, Ready;
      return Issued(issued);
    }

    /** Waiting for the recovery to end, or for the caller to give up. */
    method AwaitRecovery(ghost n: nat, token: Str, alive: bool)
      requires Valid() && At(n, AwaitingRecovery(token))
      modifies this`steps
      ensures Valid() && steps == old(steps) + [Go(n, NO_ANSWER.(alive := alive))]
      ensures At(n, if recoveryDone then Refreshing(token) else if alive then AwaitingRecovery(token) else Ending)
    {
      Take(Go(n, NO_ANSWER.(alive := alive)));
    }

    /** Closing twice is closing once; the drained channel closes now exactly when no begun call is left. */
    method CloseProvider()
      requires Valid()
      modifies this
      ensures Valid() && steps == old(steps) + [CloseCalled]
      ensures closed && drained <= 1 && (drained == 1 <==> |Now().calls| == 0)
      ensures old(closed) ==> State() == old(State())
      ensures !old(closed) ==> auth.None? && cancelled
    {
      RecordClose();
      Shut();
    }

    method Shut()
      modifies this
      ensures State() == Close(old(State())) && steps == old(steps)
    {
      if !closed {
        closed, auth := true, None;
        cancelled := true;
        if calls == 0 { drained := drained + 1; }
      }
    }

    /** The Run's own context ends. */
    method CancelRun()
      requires Valid()
      modifies this
      ensures Valid() && steps == old(steps) + [ParentCancels] && cancelled
    {
      Take(ParentCancels);
      cancelled := true;
    }
  }
}
