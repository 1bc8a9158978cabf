/**
 How far a connector's queue can pass its limit. Queued and dispatching Runs together reach the limit plus one,
 and so do queued Runs alone once an expired dispatch is requeued, exactly when the limits on nonterminal Runs and
 on input bytes leave room for one more Run than the queued limit.
 */
module StoreTight {
  import opened GoTypes
  import opened Utf8
  import opened Ordering
  import opened StoreTypes
  import opened StoreSteps
  import opened StoreInvariant
  import opened StoreHistory
  import opened StoreChecked

  // ---- As many IDs as there are Runs ----

  /** An ID before all the others. */
  const RIVAL: Str := [0x21]

  /** Decimal notation. */
  function Id(n: nat): (s: Str)
    ensures |s| > 0 && (forall i :: 0 <= i < |s| ==> 0x30 <= s[i] <= 0x39) && s != RIVAL
  {
    assert RIVAL[0] < 0x30;
    (if n < 10 then [] else Id(n / 10)) + [(0x30 + n % 10) as byte]
  }

  lemma {:induction false} IdIsInjective(m: nat, n: nat)
    requires Id(m) == Id(n)
    ensures m == n
    decreases m
  {
    var last := |Id(m)| - 1;
    assert Id(m)[last] == Id(n)[last];
    if m >= 10 || n >= 10 {
      assert Id(m)[..last] == (if m < 10 then [] else Id(m / 10)) && Id(n)[..last] == (if n < 10 then [] else Id(n / 10));
      if m >= 10 { IdIsInjective(m / 10, n / 10); }
    }
  }

  function Pow10(w: nat): (p: nat) { if w == 0 then 1 else 10 * Pow10(w - 1) }

  lemma {:induction false} IdIsShort(n: nat, w: nat)
    requires n < Pow10(w) && w > 0
    ensures |Id(n)| <= w
    decreases w
  {
    if n >= 10 { IdIsShort(n / 10, w - 1); }
  }

  const MAX_RUNS := 1_000_000_000

  lemma IdIsPlain(n: nat)
    requires n <= MAX_RUNS
    ensures Plain(Id(n))
  {
    assert Pow10(10) == 10_000_000_000;
    IdIsShort(n, 10);
  }

  lemma IdsDiffer(j: nat, k: nat)
    requires j < k
    ensures Id(j) != Id(k)
  {
    if Id(j) == Id(k) { IdIsInjective(j, k); }
  }

  lemma PlainIsIdentifier(s: Str)
    requires 0 < |s| <= 128 && forall i :: 0 <= i < |s| ==> 0x21 <= s[i] <= 0x7A
    ensures ValidIdentifier(s, MAX_ID_BYTES) && ValidIdentifier(s, MAX_TARGET_ID_BYTES) && ValidIdentifier(s, MAX_REVISION_BYTES)
    ensures ValidText(s, false)
  {
    PrintableIsText(s);
  }

  // ---- Events ----

  const NOW := 1_700_000_000_000
  const HEX64: Str := Zeros(SHA256_HEX_BYTES)
  const AUTH := Authorization([0x74], [0x72], HEX64, HEX64)
  const TOKEN: Str := [0x7A]
  const NEXT_TOKEN: Str := [0x79]
  const EXPIRES := 1_700_000_001_000

  function Zeros(n: nat): (s: Str)
    ensures |s| == n && forall i :: 0 <= i < n ==> s[i] == 0x30
  {
    if n == 0 then [] else [0x30] + Zeros(n - 1)
  }

  /** A one-byte message that occurs at t; event, actor and Run share one ID. */
  function EventOf(c: Str, id: Str, t: int): IngestInput { IngestInput(c, id, HEX64, HEX64, id, [0x76], [0x6D], t, [0x78]) }

  function EnvOf(id: Str, t: int): IngestEnv { IngestEnv(t, Some(AUTH), false, Some(id)) }

  function IngestOf(c: Str, id: Str, t: int): Op { OpIngest(EventOf(c, id, t), EnvOf(id, t)) }

  /** The same event presented without a binding: it is refused, and what eviction did stays. */
  function SweepOf(c: Str, id: Str, t: int): Op { OpIngest(EventOf(c, id, t), IngestEnv(t, None, false, None)) }

  function RunOf(c: Str, id: Str, t: int): Run { NewRun(EventOf(c, id, t), AUTH, t) }

  predicate Plain(id: Str) { 0 < |id| <= 128 && forall i :: 0 <= i < |id| ==> 0x21 <= id[i] <= 0x7A }

  lemma EventIsValid(c: Str, id: Str, t: int)
    requires ValidIdentifier(c, MAX_ID_BYTES) && Plain(id) && t > 0
    ensures ValidIngest(EventOf(c, id, t)) && ValidAuthorization(AUTH) && ValidIdentifier(id, MAX_ID_BYTES)
  {
    PlainIsIdentifier(id);
    PlainIsIdentifier([0x74]);
    PlainIsIdentifier([0x72]);
    PlainIsIdentifier([0x76]);
    PlainIsIdentifier([0x6D]);
    PlainIsIdentifier([0x78]);
  }

  lemma CutoffIsPast(cfg: Config, t: int)
    requires ValidConfig(cfg) && t > 0
    ensures Cutoff(cfg, t) < t
  {
  }

  /** Nothing stands against an event that occurs now, once eviction is done. */
  ghost predicate Unopposed(cfg: Config, c: Str, id: Str, t: int, evicted: DB) {
    && c in evicted.horizons && evicted.horizons[c] < t && EventKey(c, id) !in evicted.receipts && id !in evicted.runs
    && !ScopeBusy(evicted.runs, RunOf(c, id, t).origin.scope) && HasCapacity(cfg, evicted, c, 1, false)
  }

  /** Then it is admitted. */
  lemma Admits(cfg: Config, db: DB, c: Str, id: Str, t: int, evicted: DB)
    requires ValidConfig(cfg) && ValidIdentifier(c, MAX_ID_BYTES) && Plain(id) && t > 0
    requires evicted == Evict(cfg, db, c, t) && Unopposed(cfg, c, id, t, evicted)
    ensures Apply(cfg, db, IngestOf(c, id, t)) == AddRun(evicted, EventOf(c, id, t), AUTH, id, t)
  {
    EventIsValid(c, id, t);
  }

  lemma Sweeps(cfg: Config, db: DB, c: Str, id: Str, t: int, evicted: DB)
    requires ValidConfig(cfg) && ValidIdentifier(c, MAX_ID_BYTES) && Plain(id) && t > 0 && evicted == Evict(cfg, db, c, t)
    requires c in evicted.horizons && evicted.horizons[c] < t && EventKey(c, id) !in evicted.receipts
    ensures Apply(cfg, db, SweepOf(c, id, t)) == evicted
  {
    EventIsValid(c, id, t);
  }

  // ---- Clock readings ----

  /** The receipt window in milliseconds, rounded up. */
  function Window(cfg: Config): int { (cfg.receiptWindow + NS_PER_MS - 1) / NS_PER_MS }

  lemma CutoffIsWindowAgo(cfg: Config, t: int)
    requires ValidConfig(cfg) && t >= NOW
    ensures 1000 <= Window(cfg) <= 31_536_000_000 && Cutoff(cfg, t) == t - Window(cfg)
  {
  }

  /** The receipts of as many Runs as the witness admits fit. */
  predicate ReceiptsSuffice(cfg: Config) { cfg.maxReceipts > cfg.maxQueued }

  /** When the k-th Run is admitted: the clock stands still if the receipts fit, and else goes on by one. */
  function Time(cfg: Config, k: nat): int { if ReceiptsSuffice(cfg) then NOW else NOW + k }

  /** When the receipts before the k-th Run are swept out: as soon as the last of them has left the window. */
  function SweepTime(cfg: Config, k: nat): int { NOW + k - 1 + Window(cfg) }

  function Horizon(cfg: Config, k: nat): int { if ReceiptsSuffice(cfg) || k == 0 then NOW - Window(cfg) else NOW + k - 1 }

  // ---- The filling run ----

  function Taken(c: Str): Run { ClaimedRun(RunOf(c, Id(0), NOW), TOKEN, EXPIRES, NOW) }

  predicate Named(k: nat, id: Str) { exists j: nat :: j <= k && id == Id(j) }

  /** A Run of the store with k Runs queued behind the dispatched one: that one, a queued one, or the rival's. */
  ghost predicate Fits(c: Str, rival: Str, k: nat, id: Str, run: Run) {
    if id == RIVAL then run == RunOf(rival, RIVAL, NOW)
    else if id == Id(0) then run == Taken(c)
    else Named(k, id) && run.state == Queued && run.origin.scope.connector == c && run.origin.scope.actor == id && run.origin.createdAt >= NOW
  }

  ghost predicate RunsFit(c: Str, rival: Str, k: nat, runs: map<Str, Run>) {
    Id(0) in runs && forall id :: id in runs ==> Fits(c, rival, k, id, runs[id])
  }

  ghost predicate ReceiptFits(cfg: Config, c: Str, k: nat, key: EventKey, receipt: Receipt) {
    key.connector == c ==> Named(k, key.event) && receipt.occurredAt <= Time(cfg, k)
  }

  ghost predicate ReceiptsFit(cfg: Config, c: Str, k: nat, receipts: map<EventKey, Receipt>) {
    |ReceiptsOf(receipts, c)| <= k + 1 && forall key :: key in receipts ==> ReceiptFits(cfg, c, k, key, receipts[key])
  }

  ghost predicate Counts(runs: map<Str, Run>, c: Str, k: nat) {
    |QueuedOf(runs, c)| == k && |LiveOf(runs, c)| == k + 1 && InputBytes(runs, RunsOf(runs, c)) == k + 1
  }

  /** The dispatched Run is there, k Runs are queued behind it, and so is every Run of kept. */
  ghost predicate Filled(cfg: Config, c: Str, rival: Str, kept: set<Str>, db: DB, k: nat) {
    && kept <= db.runs.Keys && db.deliveries == map[] && c in db.horizons && db.horizons[c] == Horizon(cfg, k)
    && RunsFit(c, rival, k, db.runs) && ReceiptsFit(cfg, c, k, db.receipts) && Counts(db.runs, c, k)
  }

  /** Eviction takes receipts only: every Run is live and there is no delivery. */
  lemma EvictTakesReceipts(cfg: Config, db: DB, c: Str, t: int)
    requires db.deliveries == map[] && forall id :: id in db.runs ==> Live(db.runs[id])
    ensures Evict(cfg, db, c, t).runs == db.runs && Evict(cfg, db, c, t).deliveries == map[]
  {
  }

  lemma NextIdIsNew(k: nat, next: nat, id: Str)
    requires next == k + 1 && Named(k, id)
    ensures id != Id(next)
  {
    var j: nat :| j <= k && id == Id(j);
    IdsDiffer(j, next);
  }

  lemma NamedGrows(k: nat, next: nat)
    requires next == k + 1
    ensures Named(k, Id(0)) && Named(next, Id(next))
    ensures forall id :: Named(k, id) ==> Named(next, id)
  {
    forall id | Named(k, id) ensures Named(next, id) { var j: nat :| j <= k && id == Id(j); }
  }

  // ---- Between two admissions ----

  /** What eviction before the next admission leaves of the connector's receipts. */
  lemma ReceiptsAfter(cfg: Config, db: DB, c: Str, t: int, evicted: DB)
    requires ValidConfig(cfg) && t >= NOW && c in db.horizons && evicted == Evict(cfg, db, c, t)
    ensures c in evicted.horizons
    ensures evicted.horizons[c] == if db.horizons[c] >= t - Window(cfg) then db.horizons[c] else t - Window(cfg)
    ensures forall key :: key in evicted.receipts ==> key in db.receipts && evicted.receipts[key] == db.receipts[key]
    ensures forall key :: key in evicted.receipts && key.connector == c ==> evicted.receipts[key].occurredAt > evicted.horizons[c]
  {
    CutoffIsWindowAgo(cfg, t);
  }

  lemma FewerReceiptsFit(cfg: Config, c: Str, k: nat, receipts: map<EventKey, Receipt>, rest: map<EventKey, Receipt>)
    requires ReceiptsFit(cfg, c, k, receipts) && forall key :: key in rest ==> key in receipts && rest[key] == receipts[key]
    ensures ReceiptsFit(cfg, c, k, rest)
  {
    SubsetSize(ReceiptsOf(rest, c), ReceiptsOf(receipts, c));
    forall key | key in rest ensures ReceiptFits(cfg, c, k, key, rest[key]) { assert ReceiptFits(cfg, c, k, key, receipts[key]); }
  }

  /** Receipts up to the horizon only: none of the connector's is left. */
  lemma NoReceiptIsLeft(cfg: Config, c: Str, k: nat, receipts: map<EventKey, Receipt>, horizon: int)
    requires ReceiptsFit(cfg, c, k, receipts) && Time(cfg, k) <= horizon
    requires forall key :: key in receipts && key.connector == c ==> receipts[key].occurredAt > horizon
    ensures ReceiptsOf(receipts, c) == {}
  {
    forall key | key in receipts ensures key.connector != c { assert ReceiptFits(cfg, c, k, key, receipts[key]); }
  }

  /** The store just before the next admission inserts its rows. */
  ghost predicate Cleared(cfg: Config, c: Str, rival: Str, kept: set<Str>, db: DB, k: nat, next: nat) {
    && kept <= db.runs.Keys && db.deliveries == map[] && c in db.horizons && db.horizons[c] == Horizon(cfg, next)
    && RunsFit(c, rival, k, db.runs) && ReceiptsFit(cfg, c, k, db.receipts) && Counts(db.runs, c, k)
    && |ReceiptsOf(db.receipts, c)| < cfg.maxReceipts
  }

  lemma SweepClears(cfg: Config, c: Str, rival: Str, kept: set<Str>, db: DB, k: nat, next: nat, t: int, swept: DB)
    requires ValidConfig(cfg) && Filled(cfg, c, rival, kept, db, k) && k < cfg.maxQueued && next == k + 1 && !ReceiptsSuffice(cfg)
    requires t == SweepTime(cfg, next) && swept == Evict(cfg, db, c, t)
    requires forall id :: id in db.runs ==> Live(db.runs[id])
    ensures Cleared(cfg, c, rival, kept, swept, k, next) && ReceiptsOf(swept.receipts, c) == {}
  {
    CutoffIsWindowAgo(cfg, NOW);
    EvictTakesReceipts(cfg, db, c, t);
    ReceiptsAfter(cfg, db, c, t, swept);
    FewerReceiptsFit(cfg, c, k, db.receipts, swept.receipts);
    NoReceiptIsLeft(cfg, c, k, swept.receipts, swept.horizons[c]);
  }

  /** Evicting again at the admission itself changes nothing that matters. */
  lemma EvictedIsCleared(cfg: Config, c: Str, rival: Str, kept: set<Str>, db: DB, k: nat, next: nat, t: int, evicted: DB)
    requires ValidConfig(cfg) && Cleared(cfg, c, rival, kept, db, k, next) && next == k + 1
    requires t == Time(cfg, next) && evicted == Evict(cfg, db, c, t) && forall id :: id in db.runs ==> Live(db.runs[id])
    ensures Cleared(cfg, c, rival, kept, evicted, k, next) && evicted.runs == db.runs
  {
    CutoffIsWindowAgo(cfg, t);
    EvictTakesReceipts(cfg, db, c, t);
    ReceiptsAfter(cfg, db, c, t, evicted);
    FewerReceiptsFit(cfg, c, k, db.receipts, evicted.receipts);
    SubsetSize(ReceiptsOf(evicted.receipts, c), ReceiptsOf(db.receipts, c));
  }

  // ---- The next admission ----

  /** The next Run's ID, and its actor's session scope, are free. */
  lemma NextIsFree(c: Str, rival: Str, runs: map<Str, Run>, k: nat, next: nat, t: int)
    requires rival != c && next == k + 1 && RunsFit(c, rival, k, runs)
    ensures Id(next) !in runs && !ScopeBusy(runs, RunOf(c, Id(next), t).origin.scope) && forall id :: id in runs ==> Live(runs[id])
  {
    NamedGrows(k, next);
    forall r | r in runs
      ensures Live(runs[r]) && r != Id(next) && (runs[r].origin.scope.connector == c ==> runs[r].origin.scope.actor != Id(next))
    {
      assert Fits(c, rival, k, r, runs[r]);
      if r != RIVAL { NextIdIsNew(k, next, r); }
    }
  }

  lemma NextIsUnseen(cfg: Config, c: Str, receipts: map<EventKey, Receipt>, k: nat, next: nat)
    requires next == k + 1 && ReceiptsFit(cfg, c, k, receipts)
    ensures EventKey(c, Id(next)) !in receipts
  {
    var key := EventKey(c, Id(next));
    if key in receipts {
      assert ReceiptFits(cfg, c, k, key, receipts[key]);
      NextIdIsNew(k, next, Id(next));
    }
  }

  lemma NextHasRoom(cfg: Config, c: Str, db: DB, k: nat)
    requires ValidConfig(cfg) && k < cfg.maxQueued < cfg.maxNonterminal && cfg.maxQueued < cfg.maxInputBytes
    requires Counts(db.runs, c, k) && db.deliveries == map[] && |ReceiptsOf(db.receipts, c)| < cfg.maxReceipts
    ensures HasCapacity(cfg, db, c, 1, false)
  {
    assert UnresolvedOf(db.runs, db.deliveries, c) == {};
  }

  lemma HorizonIsPast(cfg: Config, next: nat)
    requires ValidConfig(cfg)
    ensures Horizon(cfg, next) < Time(cfg, next) && Time(cfg, next) >= NOW
    ensures next > 0 ==> Horizon(cfg, next) < SweepTime(cfg, next) || ReceiptsSuffice(cfg)
  {
    CutoffIsWindowAgo(cfg, NOW);
  }

  lemma NextIsUnopposed(cfg: Config, c: Str, rival: Str, kept: set<Str>, db: DB, k: nat, next: nat, t: int)
    requires ValidConfig(cfg) && rival != c && Cleared(cfg, c, rival, kept, db, k, next)
    requires k < cfg.maxQueued < cfg.maxNonterminal && cfg.maxQueued < cfg.maxInputBytes && next == k + 1 && t == Time(cfg, next)
    ensures Unopposed(cfg, c, Id(next), t, db) && t > 0
  {
    HorizonIsPast(cfg, next);
    NextIsFree(c, rival, db.runs, k, next, t);
    NextIsUnseen(cfg, c, db.receipts, k, next);
    NextHasRoom(cfg, c, db, k);
  }

  lemma OneMoreQueued(runs: map<Str, Run>, c: Str, id: Str, run: Run, after: map<Str, Run>)
    requires id !in runs && run.state == Queued && run.origin.scope.connector == c && after == runs[id := run]
    ensures |QueuedOf(after, c)| == |QueuedOf(runs, c)| + 1
  {
    assert QueuedOf(after, c) == QueuedOf(runs, c) + {id};
  }

  lemma OneMoreLive(runs: map<Str, Run>, c: Str, id: Str, run: Run, after: map<Str, Run>)
    requires id !in runs && Live(run) && run.origin.scope.connector == c && after == runs[id := run]
    ensures |LiveOf(after, c)| == |LiveOf(runs, c)| + 1
  {
    assert LiveOf(after, c) == LiveOf(runs, c) + {id};
  }

  /** One more queued Run of connector c. */
  lemma OneMoreCounts(runs: map<Str, Run>, c: Str, id: Str, run: Run, k: nat, next: nat, after: map<Str, Run>)
    requires id !in runs && run.state == Queued && run.origin.scope.connector == c && |run.origin.input| == 1 && after == runs[id := run]
    requires Counts(runs, c, k) && next == k + 1
    ensures Counts(after, c, next)
  {
    OneMoreQueued(runs, c, id, run, after);
    OneMoreLive(runs, c, id, run, after);
    OneMoreByte(runs, c, id, run, after);
  }

  lemma OneMoreByte(runs: map<Str, Run>, c: Str, id: Str, run: Run, after: map<Str, Run>)
    requires id !in runs && run.origin.scope.connector == c && |run.origin.input| == 1 && after == runs[id := run]
    ensures InputBytes(after, RunsOf(after, c)) == InputBytes(runs, RunsOf(runs, c)) + 1
  {
    assert RunsOf(after, c) == RunsOf(runs, c) + {id} && RunsOf(after, c) - {id} == RunsOf(runs, c);
    InputBytesRemove(after, RunsOf(after, c), id);
    InputBytesShrink(runs, RunsOf(runs, c), after, RunsOf(runs, c));
    InputBytesShrink(after, RunsOf(runs, c), runs, RunsOf(runs, c));
  }

  lemma OneMoreFits(c: Str, rival: Str, k: nat, next: nat, runs: map<Str, Run>, t: int, after: map<Str, Run>)
    requires RunsFit(c, rival, k, runs) && next == k + 1 && t >= NOW && after == runs[Id(next) := RunOf(c, Id(next), t)]
    ensures RunsFit(c, rival, next, after)
  {
    NamedGrows(k, next);
    IdsDiffer(0, next);
    forall r | r in after ensures Fits(c, rival, next, r, after[r]) { if r != Id(next) { assert Fits(c, rival, k, r, runs[r]); } }
  }

  lemma OneMoreReceiptFits(cfg: Config, c: Str, k: nat, next: nat, receipts: map<EventKey, Receipt>, t: int, after: map<EventKey, Receipt>)
    requires ReceiptsFit(cfg, c, k, receipts) && next == k + 1 && t == Time(cfg, next)
    requires after == receipts[EventKey(c, Id(next)) := Receipt(HEX64, 2, Id(next), t, t)]
    ensures ReceiptsFit(cfg, c, next, after)
  {
    NamedGrows(k, next);
    AddReceiptCount(receipts, EventKey(c, Id(next)), Receipt(HEX64, 2, Id(next), t, t), c);
    forall key | key in after ensures ReceiptFits(cfg, c, next, key, after[key]) {
      if key != EventKey(c, Id(next)) { assert ReceiptFits(cfg, c, k, key, receipts[key]); }
    }
  }

  lemma FilledByOneMore(cfg: Config, c: Str, rival: Str, kept: set<Str>, db: DB, k: nat, next: nat, t: int, after: DB)
    requires ValidConfig(cfg) && rival != c && Cleared(cfg, c, rival, kept, db, k, next) && next == k + 1 && t == Time(cfg, next)
    requires after == AddRun(db, EventOf(c, Id(next), t), AUTH, Id(next), t)
    ensures Filled(cfg, c, rival, kept, after, next)
  {
    HorizonIsPast(cfg, next);
    NextIsFree(c, rival, db.runs, k, next, t);
    OneMoreCounts(db.runs, c, Id(next), RunOf(c, Id(next), t), k, next, after.runs);
    OneMoreFits(c, rival, k, next, db.runs, t, after.runs);
    OneMoreReceiptFits(cfg, c, k, next, db.receipts, t, after.receipts);
  }

  // ---- The whole filling ----

  /** The sweep, if one is needed, and the admission of the k-th Run. */
  function FillStep(cfg: Config, c: Str, k: nat): seq<Op> {
    (if ReceiptsSuffice(cfg) then [] else [SweepOf(c, Id(k), SweepTime(cfg, k))]) + [IngestOf(c, Id(k), Time(cfg, k))]
  }

  /** The admissions of Runs 1 to k. */
  function Fill(cfg: Config, c: Str, k: nat): seq<Op> { if k == 0 then [] else Fill(cfg, c, k - 1) + FillStep(cfg, c, k) }

  lemma SweepIsApplied(cfg: Config, c: Str, rival: Str, kept: set<Str>, db: DB, k: nat, next: nat, t: int, swept: DB)
    requires ValidConfig(cfg) && ValidIdentifier(c, MAX_ID_BYTES) && rival != c && Filled(cfg, c, rival, kept, db, k)
    requires k < cfg.maxQueued && next == k + 1 && !ReceiptsSuffice(cfg) && t == SweepTime(cfg, next) && swept == Evict(cfg, db, c, t)
    ensures Apply(cfg, db, SweepOf(c, Id(next), t)) == swept && Cleared(cfg, c, rival, kept, swept, k, next)
  {
    HorizonIsPast(cfg, next);
    NextIsFree(c, rival, db.runs, k, next, t);
    SweepClears(cfg, c, rival, kept, db, k, next, t, swept);
    NextIsUnseen(cfg, c, swept.receipts, k, next);
    IdIsPlain(next);
    CutoffIsWindowAgo(cfg, NOW);
    Sweeps(cfg, db, c, Id(next), t, swept);
  }

  lemma AdmissionIsApplied(cfg: Config, c: Str, rival: Str, kept: set<Str>, db: DB, k: nat, next: nat, t: int, evicted: DB, after: DB)
    requires ValidConfig(cfg) && ValidIdentifier(c, MAX_ID_BYTES) && rival != c && Cleared(cfg, c, rival, kept, db, k, next)
    requires k < cfg.maxQueued < cfg.maxNonterminal && cfg.maxQueued < cfg.maxInputBytes && next == k + 1
    requires t == Time(cfg, next) && evicted == Evict(cfg, db, c, t) && after == AddRun(evicted, EventOf(c, Id(next), t), AUTH, Id(next), t)
    ensures Apply(cfg, db, IngestOf(c, Id(next), t)) == after && Filled(cfg, c, rival, kept, after, next)
  {
    NextIsFree(c, rival, db.runs, k, next, t);
    EvictedIsCleared(cfg, c, rival, kept, db, k, next, t, evicted);
    NextIsUnopposed(cfg, c, rival, kept, evicted, k, next, t);
    IdIsPlain(next);
    Admits(cfg, db, c, Id(next), t, evicted);
    FilledByOneMore(cfg, c, rival, kept, evicted, k, next, t, after);
  }

  /** The result of an admission that is known to be applied, under a name of its own. */
  lemma AdmissionFills(cfg: Config, c: Str, rival: Str, kept: set<Str>, db: DB, k: nat, next: nat, t: int, after: DB)
    requires ValidConfig(cfg) && ValidIdentifier(c, MAX_ID_BYTES) && rival != c && Cleared(cfg, c, rival, kept, db, k, next)
    requires k < cfg.maxQueued < cfg.maxNonterminal && cfg.maxQueued < cfg.maxInputBytes && next == k + 1
    requires t == Time(cfg, next) && after == Apply(cfg, db, IngestOf(c, Id(next), t))
    ensures Filled(cfg, c, rival, kept, after, next)
  {
    var evicted := Evict(cfg, db, c, t);
    AdmissionIsApplied(cfg, c, rival, kept, db, k, next, t, evicted, AddRun(evicted, EventOf(c, Id(next), t), AUTH, Id(next), t));
  }

  /** The operations up to and with the sweep before the k-th Run, if there is one. */
  function UpToSweep(cfg: Config, c: Str, ops: seq<Op>, k: nat): seq<Op> {
    if ReceiptsSuffice(cfg) then ops else ops + [SweepOf(c, Id(k), SweepTime(cfg, k))]
  }

  lemma FillStepSplits(cfg: Config, c: Str, ops: seq<Op>, k: nat)
    ensures ops + FillStep(cfg, c, k) == UpToSweep(cfg, c, ops, k) + [IngestOf(c, Id(k), Time(cfg, k))]
  {
  }

  lemma FillSplits(cfg: Config, c: Str, start: seq<Op>, j: nat, k: nat)
    requires k == j + 1
    ensures start + Fill(cfg, c, k) == start + Fill(cfg, c, j) + FillStep(cfg, c, k)
  {
  }

  /** The next Run is admitted after the sweep, if there is one. */
  lemma FillStepFills(cfg: Config, c: Str, rival: Str, kept: set<Str>, ops: seq<Op>, db: DB, k: nat, next: nat, all: seq<Op>, after: DB)
    requires ValidConfig(cfg) && ValidIdentifier(c, MAX_ID_BYTES) && rival != c && Filled(cfg, c, rival, kept, db, k)
    requires k < cfg.maxQueued < cfg.maxNonterminal && cfg.maxQueued < cfg.maxInputBytes && next == k + 1
    requires db == After(cfg, ops) && all == ops + FillStep(cfg, c, next) && after == After(cfg, all)
    ensures Filled(cfg, c, rival, kept, after, next)
  {
    var mid, t := UpToSweep(cfg, c, ops, next), Time(cfg, next);
    FillStepSplits(cfg, c, ops, next);
    AfterOneMore(cfg, mid, IngestOf(c, Id(next), t), all);
    var swept := After(cfg, mid);
    SweptAfter(cfg, c, rival, kept, ops, db, k, next, mid, swept);
    AdmissionFills(cfg, c, rival, kept, swept, k, next, t, after);
  }

  lemma SweptAfter(cfg: Config, c: Str, rival: Str, kept: set<Str>, ops: seq<Op>, db: DB, k: nat, next: nat, mid: seq<Op>, swept: DB)
    requires ValidConfig(cfg) && ValidIdentifier(c, MAX_ID_BYTES) && rival != c && Filled(cfg, c, rival, kept, db, k)
    requires k < cfg.maxQueued && next == k + 1 && db == After(cfg, ops) && swept == After(cfg, mid)
    requires mid == UpToSweep(cfg, c, ops, next)
    ensures Cleared(cfg, c, rival, kept, swept, k, next)
  {
    if !ReceiptsSuffice(cfg) {
      var t := SweepTime(cfg, next);
      AfterOneMore(cfg, ops, SweepOf(c, Id(next), t), mid);
      SweepIsApplied(cfg, c, rival, kept, db, k, next, t, Evict(cfg, db, c, t));
    }
  }

  /** Filling the queue to k. */
  lemma {:induction false} Fills(cfg: Config, c: Str, rival: Str, kept: set<Str>, start: seq<Op>, k: nat, all: seq<Op>, db: DB)
    requires ValidConfig(cfg) && ValidIdentifier(c, MAX_ID_BYTES) && rival != c && Filled(cfg, c, rival, kept, After(cfg, start), 0)
    requires k <= cfg.maxQueued < cfg.maxNonterminal && cfg.maxQueued < cfg.maxInputBytes
    requires all == start + Fill(cfg, c, k) && db == After(cfg, all)
    ensures Filled(cfg, c, rival, kept, db, k)
    decreases k
  {
    if k == 0 {
      assert all == start;
    } else {
      var j := k - 1;
      var sofar := start + Fill(cfg, c, j);
      FillSplits(cfg, c, start, j, k);
      Fills(cfg, c, rival, kept, start, j, sofar, After(cfg, sofar));
      FillStepFills(cfg, c, rival, kept, sofar, After(cfg, sofar), j, k, all, db);
    }
  }

  // ---- The start: one Run dispatched ----

  ghost function Opened(cfg: Config, c: Str): DB { EMPTY_DB.(horizons := map[c := Cutoff(cfg, NOW)]) }

  lemma FirstIsAdmitted(cfg: Config, c: Str)
    requires ValidConfig(cfg) && ValidIdentifier(c, MAX_ID_BYTES)
    ensures Apply(cfg, EMPTY_DB, IngestOf(c, Id(0), NOW)) == AddRun(Opened(cfg, c), EventOf(c, Id(0), NOW), AUTH, Id(0), NOW)
  {
    CutoffIsPast(cfg, NOW);
    IdIsPlain(0);
    var db := Opened(cfg, c);
    assert Evict(cfg, EMPTY_DB, c, NOW) == db;
    assert ReceiptsOf(db.receipts, c) == {} && QueuedOf(db.runs, c) == {} && LiveOf(db.runs, c) == {};
    assert UnresolvedOf(db.runs, db.deliveries, c) == {} && RunsOf(db.runs, c) == {};
    Admits(cfg, EMPTY_DB, c, Id(0), NOW, db);
  }

  lemma OnlyRunIsHead(runs: map<Str, Run>, id: Str, run: Run)
    requires runs == map[id := run] && run.state == Queued
    ensures QueueHead(runs) == Some(id) && !exists r :: r in runs && Active(runs[r])
  {
    assert id in runs && runs[id] == run;
    assert QueuedIds(runs) == {id};
  }

  lemma FirstIsClaimed(db: DB, c: Str)
    requires db.runs == map[Id(0) := RunOf(c, Id(0), NOW)]
    ensures Claim(db, NS_PER_SECOND, Some(TOKEN), NOW).db == db.(runs := map[Id(0) := Taken(c)])
  {
    PlainIsIdentifier(TOKEN);
    assert ReleaseExpired(db.runs, NOW) == db.runs;
    OnlyRunIsHead(db.runs, Id(0), RunOf(c, Id(0), NOW));
    assert LeaseEnd(NOW, NS_PER_SECOND) == EXPIRES;
  }

  /** The store with the first Run dispatched. */
  ghost function Dispatched(cfg: Config, c: Str): DB {
    AddRun(Opened(cfg, c), EventOf(c, Id(0), NOW), AUTH, Id(0), NOW).(runs := map[Id(0) := Taken(c)])
  }

  function Start(c: Str): seq<Op> { [IngestOf(c, Id(0), NOW), OpClaim(NS_PER_SECOND, Some(TOKEN), NOW)] }

  lemma StartDispatches(cfg: Config, c: Str)
    requires ValidConfig(cfg) && ValidIdentifier(c, MAX_ID_BYTES)
    ensures After(cfg, Start(c)) == Dispatched(cfg, c)
  {
    FirstIsAdmitted(cfg, c);
    AfterOneMore(cfg, [], IngestOf(c, Id(0), NOW), [IngestOf(c, Id(0), NOW)]);
    FirstIsClaimed(After(cfg, [IngestOf(c, Id(0), NOW)]), c);
    AfterOneMore(cfg, [IngestOf(c, Id(0), NOW)], OpClaim(NS_PER_SECOND, Some(TOKEN), NOW), Start(c));
  }

  lemma DispatchedCounts(cfg: Config, c: Str, db: DB)
    requires db == Dispatched(cfg, c)
    ensures Counts(db.runs, c, 0) && |ReceiptsOf(db.receipts, c)| == 1
  {
    assert QueuedOf(db.runs, c) == {};
    assert LiveOf(db.runs, c) == {Id(0)} by { assert Id(0) in db.runs; }
    assert RunsOf(db.runs, c) == {Id(0)} by { assert Id(0) in db.runs; }
    assert ReceiptsOf(db.receipts, c) == {EventKey(c, Id(0))};
    InputBytesRemove(db.runs, {Id(0)}, Id(0));
    assert {Id(0)} - {Id(0)} == {};
  }

  lemma StartIsFilled(cfg: Config, c: Str, rival: Str)
    requires ValidConfig(cfg) && ValidIdentifier(c, MAX_ID_BYTES)
    ensures Filled(cfg, c, rival, {}, After(cfg, Start(c)), 0)
  {
    StartDispatches(cfg, c);
    var db := Dispatched(cfg, c);
    DispatchedCounts(cfg, c, db);
    NamedGrows(0, 1);
    CutoffIsWindowAgo(cfg, NOW);
    forall key | key in db.receipts ensures ReceiptFits(cfg, c, 0, key, db.receipts[key]) { assert key == EventKey(c, Id(0)); }
  }

  // ---- Queued and dispatching Runs together ----

  lemma WaitingAre(c: Str, rival: Str, k: nat, runs: map<Str, Run>)
    requires RunsFit(c, rival, k, runs) && rival != c && |QueuedOf(runs, c)| == k
    ensures |WaitingOf(runs, c)| == k + 1
  {
    assert Fits(c, rival, k, Id(0), runs[Id(0)]);
    forall id | id in runs ensures id in WaitingOf(runs, c) <==> id in QueuedOf(runs, c) + {Id(0)} {
      assert Fits(c, rival, k, id, runs[id]);
    }
    assert WaitingOf(runs, c) == QueuedOf(runs, c) + {Id(0)} && Id(0) !in QueuedOf(runs, c);
  }

  /** Room for one more Run than the queued limit, in the two limits that do not look at the Run's state. */
  predicate LeavesRoom(cfg: Config) { cfg.maxNonterminal > cfg.maxQueued && cfg.maxInputBytes > cfg.maxQueued }

  lemma {:induction false} BytesCountRuns(runs: map<Str, Run>, ids: set<Str>)
    requires ids <= runs.Keys && forall r :: r in ids ==> |runs[r].origin.input| > 0
    ensures |ids| <= InputBytes(runs, ids)
    decreases |ids|
  {
    if ids != {} {
      var r :| r in ids;
      BytesCountRuns(runs, ids - {r});
      InputBytesRemove(runs, ids, r);
    }
  }

  lemma TextIsNotEmpty(s: Str)
    requires ValidText(s, false)
    ensures |s| > 0
  {
  }

  /** Otherwise no run of the store passes the limit. */
  lemma NeverPassed(cfg: Config, ops: seq<Op>, c: Str)
    requires ValidConfig(cfg) && !LeavesRoom(cfg)
    ensures |WaitingOf(After(cfg, ops).runs, c)| <= cfg.maxQueued
  {
    var runs := After(cfg, ops).runs;
    EveryRunIsSound(cfg, ops);
    EveryRunIsChecked(cfg, ops);
    assert RunQuota(cfg, runs, c);
    SubsetSize(WaitingOf(runs, c), LiveOf(runs, c));
    SubsetSize(WaitingOf(runs, c), RunsOf(runs, c));
    forall r | r in RunsOf(runs, c) ensures |runs[r].origin.input| > 0 {
      assert RunChecked(r, runs[r]);
      TextIsNotEmpty(runs[r].origin.input);
    }
    BytesCountRuns(runs, RunsOf(runs, c));
  }

  /** The clock a transaction reads; a reset reads none. */
  function ClockOf(op: Op): int {
    match op
    case OpIngest(_, env) => env.now
    case OpReset(_, _) => 1
    case _ => op.now
  }

  /** Every clock reading is a positive int64. */
  ghost predicate ClocksFit(ops: seq<Op>) { forall n :: 0 <= n < |ops| ==> 0 < ClockOf(ops[n]) <= MAX_INT64 }

  lemma {:induction false} FillClocksFit(cfg: Config, c: Str, k: nat)
    requires ValidConfig(cfg) && k <= cfg.maxQueued
    ensures ClocksFit(Fill(cfg, c, k))
    decreases k
  {
    if k > 0 {
      FillClocksFit(cfg, c, k - 1);
      CutoffIsWindowAgo(cfg, NOW);
      forall n | 0 <= n < |FillStep(cfg, c, k)| ensures 0 < ClockOf(FillStep(cfg, c, k)[n]) <= MAX_INT64 { }
    }
  }

  lemma ClocksFitTogether(a: seq<Op>, b: seq<Op>)
    requires ClocksFit(a) && ClocksFit(b)
    ensures ClocksFit(a + b)
  {
  }

  lemma StartClocksFit(c: Str)
    ensures ClocksFit(Start(c))
  {
  }

  /** After this run, queued and dispatching Runs of the connector number the queued limit plus one. */
  ghost predicate WaitingPasses(cfg: Config, c: Str, ops: seq<Op>) {
    ClocksFit(ops) && |WaitingOf(After(cfg, ops).runs, c)| == cfg.maxQueued + 1
  }

  lemma WaitingReachesLimitPlusOne(cfg: Config, c: Str, ops: seq<Op>)
    requires ValidConfig(cfg) && ValidIdentifier(c, MAX_ID_BYTES) && LeavesRoom(cfg) && ops == Start(c) + Fill(cfg, c, cfg.maxQueued)
    ensures WaitingPasses(cfg, c, ops)
  {
    var other := c + [0x78];
    assert |WaitingOf(After(cfg, ops).runs, c)| == cfg.maxQueued + 1 by {
      StartIsFilled(cfg, c, other);
      Fills(cfg, c, other, {}, Start(c), cfg.maxQueued, ops, After(cfg, ops));
      WaitingAre(c, other, cfg.maxQueued, After(cfg, ops).runs);
    }
    StartClocksFit(c);
    FillClocksFit(cfg, c, cfg.maxQueued);
    ClocksFitTogether(Start(c), Fill(cfg, c, cfg.maxQueued));
  }

  lemma WaitingBound(cfg: Config, c: Str, ops: seq<Op>)
    requires ValidConfig(cfg)
    ensures |WaitingOf(After(cfg, ops).runs, c)| <= cfg.maxQueued + if LeavesRoom(cfg) then 1 else 0
  {
    if !LeavesRoom(cfg) { NeverPassed(cfg, ops, c); }
    EveryRunIsSound(cfg, ops);
    assert RunQuota(cfg, After(cfg, ops).runs, c);
  }

  /** For every configuration and connector: queued and dispatching Runs reach the limit plus one exactly when there is room. */
  lemma QueuedLimitIsPassedByOne(cfg: Config, c: Str)
    requires ValidConfig(cfg) && ValidIdentifier(c, MAX_ID_BYTES)
    ensures (exists ops :: WaitingPasses(cfg, c, ops)) <==> LeavesRoom(cfg)
    ensures forall ops :: |WaitingOf(After(cfg, ops).runs, c)| <= cfg.maxQueued + if LeavesRoom(cfg) then 1 else 0
  {
    forall ops ensures |WaitingOf(After(cfg, ops).runs, c)| <= cfg.maxQueued + if LeavesRoom(cfg) then 1 else 0 {
      WaitingBound(cfg, c, ops);
    }
    if LeavesRoom(cfg) { WaitingReachesLimitPlusOne(cfg, c, Start(c) + Fill(cfg, c, cfg.maxQueued)); }
  }

  // ---- Queued Runs alone ----

  lemma RivalHasRoom(cfg: Config, c: Str, rival: Str, db: DB)
    requires ValidConfig(cfg) && rival != c && db.deliveries == map[]
    requires db.runs == map[Id(0) := Taken(c)] && forall key :: key in db.receipts ==> key.connector == c
    ensures HasCapacity(cfg, db, rival, 1, false)
  {
    assert ReceiptsOf(db.receipts, rival) == {} && QueuedOf(db.runs, rival) == {} && LiveOf(db.runs, rival) == {};
    assert UnresolvedOf(db.runs, db.deliveries, rival) == {} && RunsOf(db.runs, rival) == {};
  }

  lemma RivalEvictsNothing(cfg: Config, c: Str, rival: Str, db: DB, evicted: DB)
    requires rival != c && db == Dispatched(cfg, c) && evicted == Evict(cfg, db, rival, NOW)
    ensures evicted == db.(horizons := db.horizons[rival := Cutoff(cfg, NOW)])
  {
    EvictTakesReceipts(cfg, db, rival, NOW);
    assert evicted.receipts == db.receipts;
  }

  lemma RivalIsAdmitted(cfg: Config, c: Str, rival: Str, db: DB, evicted: DB)
    requires ValidConfig(cfg) && ValidIdentifier(rival, MAX_ID_BYTES) && rival != c && db == Dispatched(cfg, c)
    requires evicted == Evict(cfg, db, rival, NOW)
    ensures evicted == db.(horizons := db.horizons[rival := Cutoff(cfg, NOW)])
    ensures Apply(cfg, db, IngestOf(rival, RIVAL, NOW)) == AddRun(evicted, EventOf(rival, RIVAL, NOW), AUTH, RIVAL, NOW)
  {
    CutoffIsPast(cfg, NOW);
    RivalEvictsNothing(cfg, c, rival, db, evicted);
    RivalHasRoom(cfg, c, rival, evicted);
    assert Unopposed(cfg, rival, RIVAL, NOW, evicted);
    Admits(cfg, db, rival, RIVAL, NOW, evicted);
  }

  /** A Run of another connector leaves this connector's counts alone. */
  lemma RivalCounts(runs: map<Str, Run>, c: Str, id: Str, run: Run)
    requires id !in runs && run.origin.scope.connector != c
    ensures QueuedOf(runs[id := run], c) == QueuedOf(runs, c) && LiveOf(runs[id := run], c) == LiveOf(runs, c)
    ensures InputBytes(runs[id := run], RunsOf(runs[id := run], c)) == InputBytes(runs, RunsOf(runs, c))
  {
    var after := runs[id := run];
    assert RunsOf(after, c) == RunsOf(runs, c);
    InputBytesShrink(runs, RunsOf(runs, c), after, RunsOf(runs, c));
    InputBytesShrink(after, RunsOf(runs, c), runs, RunsOf(runs, c));
  }

  function RivalStart(c: Str, rival: Str): seq<Op> { Start(c) + [IngestOf(rival, RIVAL, NOW)] }

  lemma RivalJoins(c: Str, rival: Str, runs: map<Str, Run>, after: map<Str, Run>)
    requires rival != c && RIVAL !in runs && RunsFit(c, rival, 0, runs) && Counts(runs, c, 0)
    requires after == runs[RIVAL := RunOf(rival, RIVAL, NOW)]
    ensures RunsFit(c, rival, 0, after) && Counts(after, c, 0)
  {
    RivalCounts(runs, c, RIVAL, RunOf(rival, RIVAL, NOW));
    forall id | id in after ensures Fits(c, rival, 0, id, after[id]) { if id != RIVAL { assert Fits(c, rival, 0, id, runs[id]); } }
  }

  lemma RivalReceiptFits(cfg: Config, c: Str, rival: Str, receipts: map<EventKey, Receipt>, r: Receipt, after: map<EventKey, Receipt>)
    requires rival != c && ReceiptsFit(cfg, c, 0, receipts) && after == receipts[EventKey(rival, RIVAL) := r]
    ensures ReceiptsFit(cfg, c, 0, after)
  {
    assert ReceiptsOf(after, c) == ReceiptsOf(receipts, c);
    forall key | key in after ensures ReceiptFits(cfg, c, 0, key, after[key]) {
      if key.connector == c { assert ReceiptFits(cfg, c, 0, key, receipts[key]); }
    }
  }

  lemma RivalStartIsFilled(cfg: Config, c: Str, rival: Str)
    requires ValidConfig(cfg) && ValidIdentifier(c, MAX_ID_BYTES) && ValidIdentifier(rival, MAX_ID_BYTES) && rival != c
    ensures Filled(cfg, c, rival, {RIVAL}, After(cfg, RivalStart(c, rival)), 0)
  {
    StartIsFilled(cfg, c, rival);
    StartDispatches(cfg, c);
    var db := Dispatched(cfg, c);
    var evicted := Evict(cfg, db, rival, NOW);
    RivalIsAdmitted(cfg, c, rival, db, evicted);
    AfterOneMore(cfg, Start(c), IngestOf(rival, RIVAL, NOW), RivalStart(c, rival));
    var after := After(cfg, RivalStart(c, rival));
    RivalJoins(c, rival, db.runs, after.runs);
    RivalReceiptFits(cfg, c, rival, db.receipts, Receipt(HEX64, 2, RIVAL, NOW, NOW), after.receipts);
  }

  /** After the dispatched Run's lease has run out, every Run is queued. */
  lemma ReleasedAreQueued(c: Str, rival: Str, k: nat, runs: map<Str, Run>, late: int, released: map<Str, Run>)
    requires RunsFit(c, rival, k, runs) && late >= EXPIRES && released == ReleaseExpired(runs, late)
    ensures released.Keys == runs.Keys
    ensures forall id :: id in released ==> released[id].state == Queued && released[id].origin == runs[id].origin
  {
    forall id | id in released ensures released[id].state == Queued && released[id].origin == runs[id].origin {
      assert Fits(c, rival, k, id, runs[id]);
    }
  }

  /** The rival's Run, equally old and first by ID, is then the head of the queue. */
  lemma RivalIsHead(c: Str, rival: Str, k: nat, runs: map<Str, Run>, released: map<Str, Run>)
    requires RunsFit(c, rival, k, runs) && RIVAL in runs && released.Keys == runs.Keys
    requires forall id :: id in released ==> released[id].state == Queued && released[id].origin == runs[id].origin
    ensures QueueHead(released) == Some(RIVAL)
  {
    assert QueuedIds(released) == released.Keys;
    var ranks := QueueRanks(released);
    forall o | o in released && o != RIVAL ensures RankLess(ranks[RIVAL], ranks[o]) {
      assert Fits(c, rival, k, o, runs[o]) && Fits(c, rival, k, RIVAL, runs[RIVAL]);
      assert o[0] >= 0x30;
      assert Less(RIVAL, o);
    }
    assert IsFirst(ranks, QueuedIds(released), RIVAL);
    FirstIsUnique(ranks, QueuedIds(released), RIVAL, QueueHead(released).value);
  }

  lemma ClaimTakesHead(db: DB, late: int, released: map<Str, Run>, head: Str, after: map<Str, Run>)
    requires EXPIRES <= late <= MAX_INT64 - 1000 && released == ReleaseExpired(db.runs, late)
    requires head in released && QueueHead(released) == Some(head) && forall id :: id in released ==> released[id].state == Queued
    requires after == Claim(db, NS_PER_SECOND, Some(NEXT_TOKEN), late).db.runs
    ensures after == released[head := ClaimedRun(released[head], NEXT_TOKEN, LeaseEnd(late, NS_PER_SECOND), late)]
  {
    PlainIsIdentifier(NEXT_TOKEN);
    assert !exists r :: r in released && Active(released[r]);
    assert LeaseEnd(late, NS_PER_SECOND) == late + 1000;
  }

  lemma RequeuedAre(c: Str, rival: Str, runs: map<Str, Run>, k: nat, after: map<Str, Run>)
    requires RunsFit(c, rival, k, runs) && rival != c && after.Keys == runs.Keys && |QueuedOf(runs, c)| == k
    requires forall id :: id in runs ==> after[id].origin == runs[id].origin && (after[id].state == Queued <==> id != RIVAL)
    ensures |QueuedOf(after, c)| == k + 1
  {
    forall id | id in runs ensures id in QueuedOf(after, c) <==> id in QueuedOf(runs, c) || id == Id(0) {
      assert Fits(c, rival, k, id, runs[id]);
    }
    assert Fits(c, rival, k, Id(0), runs[Id(0)]);
    assert QueuedOf(after, c) == QueuedOf(runs, c) + {Id(0)};
  }

  lemma RequeuePasses(c: Str, rival: Str, db: DB, k: nat, late: int, after: map<Str, Run>)
    requires RunsFit(c, rival, k, db.runs) && |QueuedOf(db.runs, c)| == k && RIVAL in db.runs && rival != c
    requires EXPIRES <= late <= MAX_INT64 - 1000 && after == Claim(db, NS_PER_SECOND, Some(NEXT_TOKEN), late).db.runs
    ensures |QueuedOf(after, c)| == k + 1
  {
    var released := ReleaseExpired(db.runs, late);
    ReleasedAreQueued(c, rival, k, db.runs, late, released);
    RivalIsHead(c, rival, k, db.runs, released);
    ClaimTakesHead(db, late, released, RIVAL, after);
    RequeuedAre(c, rival, db.runs, k, after);
  }

  /** After all readings of the filling, and after the dispatched Run's lease. */
  function Late(cfg: Config): int { EXPIRES + cfg.maxQueued + Window(cfg) }

  function LateClaim(cfg: Config): Op { OpClaim(NS_PER_SECOND, Some(NEXT_TOKEN), Late(cfg)) }

  /** The requeue: a claim after the lease expired puts the dispatched Run back among as many queued ones as the limit allows. */
  function Requeue(cfg: Config, c: Str, rival: Str): seq<Op>
    requires cfg.maxQueued >= 0
  {
    RivalStart(c, rival) + Fill(cfg, c, cfg.maxQueued) + [LateClaim(cfg)]
  }

  /** After this run, queued Runs of the connector alone number the queued limit plus one. */
  ghost predicate QueuedPasses(cfg: Config, c: Str, ops: seq<Op>) {
    ClocksFit(ops) && |QueuedOf(After(cfg, ops).runs, c)| == cfg.maxQueued + 1
  }

  lemma RequeueClocksFit(cfg: Config, c: Str, rival: Str)
    requires ValidConfig(cfg)
    ensures ClocksFit(Requeue(cfg, c, rival)) && EXPIRES <= Late(cfg) <= MAX_INT64 - 1000
  {
    CutoffIsWindowAgo(cfg, NOW);
    StartClocksFit(c);
    FillClocksFit(cfg, c, cfg.maxQueued);
    ClocksFitTogether(Start(c), [IngestOf(rival, RIVAL, NOW)]);
    ClocksFitTogether(RivalStart(c, rival), Fill(cfg, c, cfg.maxQueued));
    ClocksFitTogether(RivalStart(c, rival) + Fill(cfg, c, cfg.maxQueued), [LateClaim(cfg)]);
  }

  lemma RequeueReaches(cfg: Config, c: Str, rival: Str, filled: seq<Op>, all: seq<Op>)
    requires ValidConfig(cfg) && rival != c && EXPIRES <= Late(cfg) <= MAX_INT64 - 1000 && all == filled + [LateClaim(cfg)]
    requires Filled(cfg, c, rival, {RIVAL}, After(cfg, filled), cfg.maxQueued)
    ensures |QueuedOf(After(cfg, all).runs, c)| == cfg.maxQueued + 1
  {
    AfterOneMore(cfg, filled, LateClaim(cfg), all);
    RequeuePasses(c, rival, After(cfg, filled), cfg.maxQueued, Late(cfg), After(cfg, all).runs);
  }

  lemma QueuedReachesLimitPlusOne(cfg: Config, c: Str, rival: Str)
    requires ValidConfig(cfg) && ValidIdentifier(c, MAX_ID_BYTES) && ValidIdentifier(rival, MAX_ID_BYTES) && rival != c && LeavesRoom(cfg)
    ensures QueuedPasses(cfg, c, Requeue(cfg, c, rival))
  {
    RequeueClocksFit(cfg, c, rival);
    RivalStartIsFilled(cfg, c, rival);
    var filled := RivalStart(c, rival) + Fill(cfg, c, cfg.maxQueued);
    Fills(cfg, c, rival, {RIVAL}, RivalStart(c, rival), cfg.maxQueued, filled, After(cfg, filled));
    RequeueReaches(cfg, c, rival, filled, Requeue(cfg, c, rival));
  }

  /** With two connectors, queued Runs alone reach the limit plus one, under the same condition. */
  lemma QueuedAlonePassesByOne(cfg: Config, c: Str, rival: Str)
    requires ValidConfig(cfg) && ValidIdentifier(c, MAX_ID_BYTES) && ValidIdentifier(rival, MAX_ID_BYTES) && rival != c
    ensures (exists ops :: QueuedPasses(cfg, c, ops)) <==> LeavesRoom(cfg)
  {
    if LeavesRoom(cfg) { QueuedReachesLimitPlusOne(cfg, c, rival); }
    if exists ops :: QueuedPasses(cfg, c, ops) {
      var ops :| QueuedPasses(cfg, c, ops);
      SubsetSize(QueuedOf(After(cfg, ops).runs, c), WaitingOf(After(cfg, ops).runs, c));
      WaitingBound(cfg, c, ops);
    }
  }
}
