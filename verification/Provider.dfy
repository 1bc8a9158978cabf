/**
 The isolated provider: one mutex guards its fields, and no I/O happens under it. Each function below is
 one mutex-held region, from the fields it finds to the fields it leaves and what the caller learns.
 */
module Provider {
  import opened GoTypes

  datatype Phase = New | Opening | Prepared | Ready | Recovering | AwaitRefresh | Blocked

  /** What the owner's native consumer resolves to; usable only when both parts are set. */
  datatype OwnerAuth = OwnerAuth(access: Str, account: Str)

  /** The disposable representation the runner holds. */
  datatype LocalAuth = LocalAuth(access: Str, refresh: Str, account: Str)

  datatype Request =
    | Forward(access: Str, account: Str)
    | Refresh(wellFormed: bool, token: Str)
    | Unsupported

  /** recoveryDone and drained are channels: whether the first is closed, and how often the second was. */
  datatype Fields = Fields(
    phase: Phase, closed: bool, seeded: bool, localUsed: bool, local: LocalAuth, auth: Option<OwnerAuth>,
    ownerVersion: nat, recoveryStarted: bool, recoveryDone: bool, calls: int, drained: nat, cancelled: bool)

  function Made(local: LocalAuth): Fields {
    Fields(New, false, false, false, local, None, 0, false, false, 0, 0, false)
  }

  /** validResolvedOwner. */
  predicate Usable(a: Option<OwnerAuth>) { a.Some? && a.value.access != [] && a.value.account != [] }

  predicate EqualLocal(received: Str, expected: Str) { expected != [] && received == expected }

  // ---- Regions ----

  function Seed(p: Fields): Option<Fields> {
    if p.closed || p.seeded || p.phase != New || p.cancelled then None else Some(p.(seeded := true))
  }

  function Begin(p: Fields, alive: bool): Option<Fields> {
    if !alive || p.closed || p.cancelled then None else Some(p.(calls := p.calls + 1))
  }

  function End(p: Fields): Fields {
    var left := p.(calls := p.calls - 1);
    if left.closed && left.calls == 0 then left.(drained := left.drained + 1) else left
  }

  function EnterPrepare(p: Fields): Option<Fields> {
    if p.phase != New || !p.seeded then None else Some(p.(phase := Opening))
  }

  /** The second region of Prepare, after an unforced resolve gave auth or failed. */
  function LeavePrepare(p: Fields, auth: Option<OwnerAuth>, alive: bool): Fields {
    if !Usable(auth) || p.closed || !alive || p.cancelled then p.(phase := Blocked)
    else p.(auth := auth, phase := Prepared)
  }

  function Open(p: Fields, endpointOpens: bool): Option<Fields> {
    if p.phase != Prepared || !endpointOpens then None else Some(p.(phase := Ready))
  }

  datatype Permit = Unavailable | Denied | Send(auth: Option<OwnerAuth>, version: nat)

  /** The dispatch authorization boundary of respond; it changes nothing. */
  function Authorize(p: Fields, access: Str, account: Str, alive: bool): Permit {
    if p.closed || !alive || p.phase in {Blocked, New, Opening} then Unavailable
    else if !(EqualLocal(access, p.local.access) && EqualLocal(account, p.local.account)) || p.phase != Ready then Denied
    else Send(p.auth, p.ownerVersion)
  }

  function Block(p: Fields): Fields { p.(phase := Blocked, auth := None) }

  datatype Fence = Ignored | Spent(taint: bool) | Recover

  /** The first region of recoverOwner, on a verified 401 to a call authorized at the given version. */
  function FenceResult(p: Fields, version: nat, alive: bool, budget: bool): Fence {
    if p.closed || !alive || version != p.ownerVersion || p.phase != Ready then Ignored
    else if p.recoveryStarted || p.localUsed || !budget then Spent(p.recoveryStarted)
    else Recover
  }

  function FenceFields(p: Fields, fence: Fence): Fields {
    match fence
    case Ignored => p
    case Spent(_) => Block(p)
    case Recover => p.(recoveryStarted := true, phase := Recovering, recoveryDone := false)
  }

  /** The last region of recoverOwner, after the forced resolve; ownerVersion is a uint8. */
  function LeaveRecovery(p: Fields, auth: Option<OwnerAuth>, alive: bool): Fields {
    if !Usable(auth) || p.closed || !alive then Block(p).(recoveryDone := true)
    else p.(auth := auth, ownerVersion := (p.ownerVersion + 1) % 256, phase := AwaitRefresh, recoveryDone := true)
  }

  datatype RefreshResult = RefreshUnavailable | RefreshDenied | RefreshWait | Issued(local: LocalAuth)

  /** newLocalAuth for a holder: new tokens under the account it has, or a new account if it has none. */
  function Renewed(local: LocalAuth, drawn: LocalAuth): LocalAuth { if local.account == [] then drawn else drawn.(account := local.account) }

  /** One pass of the loop in refreshLocal; next is what was drawn for the new representation, if drawing works. */
  function RefreshOutcome(p: Fields, token: Str, alive: bool, next: Option<LocalAuth>): RefreshResult {
    if p.closed || !alive || p.phase in {New, Opening, Blocked} then RefreshUnavailable
    else if p.localUsed || !EqualLocal(token, p.local.refresh) then RefreshDenied
    else if p.phase == Recovering then RefreshWait
    else if next.None? then RefreshUnavailable
    else Issued(Renewed(p.local, next.value))
  }

  function RefreshFields(p: Fields, token: Str, alive: bool, next: Option<LocalAuth>): Fields {
    var outcome := RefreshOutcome(p, token, alive, next);
    if outcome.Issued? then p.(local := outcome.local, localUsed := true, phase := Ready)
    else if RefreshOutcome(p, token, alive, Some(p.local)).Issued? then Block(p)
    else p
  }

  function Close(p: Fields): Fields {
    if p.closed then p
    else
      var shut := p.(closed := true, auth := None, cancelled := true);
      if shut.calls == 0 then shut.(drained := shut.drained + 1) else shut
  }
}
