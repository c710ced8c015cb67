/**
 What an ended serving means for its attempt, and why the work is not run twice.

 `DispositionFor` is the ruling. The rest is one serving as a step system: the launch up to
 the one request that can start the runner, crashes anywhere, and any number of cleanup
 passes, each of which measures, asks the provider, records, removes and finalizes, and may
 fail after any of these. `began` is the truth the controller cannot see.
 */
module Disposition {
  import opened Base

  /** What a settled attempt is settled as. */
  datatype Resolution = CompletedObserved | StartedObserved | MayHaveExecuted

  datatype AttemptState =
    | Ready | Leased | Preparing | Prepared | Starting | Running | ManualReview | Superseded
    | Settled(resolution: Resolution) | Canceled

  datatype Evidence = NotStarted | RuntimePrepared | StartAuthorized | RunningObserved | ExitObserved
  {
    function Rank(): nat {
      match this
      case NotStarted => 0
      case RuntimePrepared => 1
      case StartAuthorized => 2
      case RunningObserved => 3
      case ExitObserved => 4
    }

    /** Only work that never had a start authorized may be retried on evidence alone. */
    predicate Retriable() { NotStarted? || RuntimePrepared? }
  }

  datatype Observation =
    | NoObservation | Created | NeverStarted | RunningSeen | ExitedSeen | Absent | Unavailable
  {
    /** Whether this says anything about the workload having begun. */
    predicate Establishes() { Created? || NeverStarted? || RunningSeen? || ExitedSeen? }
  }

  datatype Ruling = Nothing | Requeue | SettleCompleted | SettleStarted | Review

  /** Recording is monotone: an observation that was made is not unmade by a slower writer. */
  function RecordEvidence(current: Evidence, e: Evidence): (r: Option<Evidence>)
    ensures r.Some? ==> current.Rank() <= r.value.Rank() && r.value == e
    ensures r.None? <==> e.Rank() < current.Rank()
  {
    if e == current then Some(current) else if e.Rank() < current.Rank() then None else Some(e)
  }

  /** The five states one serving passes through. */
  predicate ServedByThisLease(s: AttemptState) {
    s.Leased? || s.Preparing? || s.Prepared? || s.Starting? || s.Running?
  }

  /** A measurement that establishes nothing does not displace a recorded one that does. */
  function Effective(obs: Observation, recorded: Observation): Observation {
    if !obs.Establishes() && recorded.Establishes() then recorded else obs
  }

  /** The provider's refusal outranks one account only: the capsule's own. */
  function Overruled(obs: Observation, busy: bool): Observation {
    if busy && obs == Created then RunningSeen else obs
  }

  function DispositionOf(state: AttemptState, evidence: Evidence, obs: Observation): Ruling {
    if !ServedByThisLease(state) then Nothing
    else if obs == Created || obs == NeverStarted then Requeue
    else if evidence == ExitObserved then SettleCompleted
    else if evidence == RunningObserved then SettleStarted
    else if evidence.Retriable() then Requeue
    else if obs == RunningSeen then SettleStarted
    else Review
  }

  function DispositionFor(state: AttemptState, evidence: Evidence, recorded: Observation, obs: Observation): Ruling {
    DispositionOf(state, evidence, Effective(obs, recorded))
  }

  /** What a ruling leaves the attempt in; a requeue past its retry budget is held instead. */
  function Disposed(state: AttemptState, ruling: Ruling, budgetLeft: bool): AttemptState {
    match ruling
    case Nothing => state
    case Requeue => if budgetLeft then Ready else ManualReview
    case SettleCompleted => Settled(CompletedObserved)
    case SettleStarted => Settled(StartedObserved)
    case Review => ManualReview
  }

  // ---- one serving ----

  datatype Container = Missing | Waiting | Up | Down

  /** What a pass goes by: what it measured itself, what that came to, whether the provider said busy. */
  datatype Account = Account(measured: Observation, obs: Observation, busy: bool)

  datatype Phase =
    | Launching                     // nothing authorized yet
    | Authorized                    // the attempt is this lease's to start
    | StartDurable                  // the authorization is recorded; one request may be made
    | Awaiting                      // the request was made
    | Unattended                    // nobody drives the lease: a crash, or a failed pass
    | Measured(obs: Observation)    // a pass took its measurement
    | Asked(account: Account)       // ... and put it to the provider, or had nobody to ask
    | Kept(account: Account)        // ... and recorded it
    | Removed(account: Account)     // ... and removed every object
    | Over

  /** The deciding pass: what it ruled on, whether it heard the runner was busy, what it ruled. */
  datatype Decision = Undecided | Decided(obs: Observation, busy: bool, ruling: Ruling)

  /** `sentinel` is the start request having taken effect in the capsule; `began` is the runner having begun. */
  datatype Serving = Serving(
    attempt: AttemptState,
    evidence: Evidence,
    recorded: Observation,
    container: Container,
    sentinel: bool,
    began: bool,
    phase: Phase,
    decision: Decision)

  datatype Event =
    | CreateContainer
    | StartContainer
    | RecordPrepared
    | Advance(to: AttemptState)
    | AuthorizeStart
    | AuthorizeRefused
    | RecordStart
    | IssueStart(takes: bool)
    | RunnerBegins
    | ContainerStops
    | RecordSeen(e: Evidence)
    | TakenAway(to: AttemptState, evidence: Evidence)
    | Crash
    | Measure(obs: Observation)
    | Ask(busy: bool)
    | Keep
    | Abandon
    | Conclude
    | Remove(ok: bool)
    | Finalize(ok: bool, budgetLeft: bool)

  predicate BeforeStart(p: Phase) { p.Launching? || p.Authorized? || p.StartDurable? }

  predicate MayMeasure(p: Phase) { BeforeStart(p) || p.Awaiting? || p.Unattended? }

  /** Whether the daemon has started the container. */
  predicate Started(c: Container) { c.Up? || c.Down? }

  /** What a measurement can say. What a capsule says of itself can be untrue, what the daemon says cannot. */
  predicate CanSay(s: Serving, obs: Observation) {
    match obs
    case NoObservation => true
    case Unavailable => true
    case Absent => true
    case NeverStarted => s.container.Waiting?
    case Created => Started(s.container)
    case RunningSeen => s.container.Up?
    case ExitedSeen => Started(s.container)
  }

  predicate Possible(s: Serving, e: Event) {
    match e
    case CreateContainer => s.phase.Launching? && s.container.Missing?
    case StartContainer => s.phase.Launching? && s.container.Waiting?
    case RecordPrepared => s.phase.Launching?
    case Advance(to) => BeforeStart(s.phase) || s.phase.Awaiting?
    case AuthorizeStart => s.phase.Launching? && (s.attempt.Leased? || s.attempt.Preparing? || s.attempt.Prepared?)
    case AuthorizeRefused => s.phase.Launching?
    case RecordStart => s.phase.Authorized?
    case IssueStart(_) => s.phase.StartDurable?
    case RunnerBegins => s.container.Up? && s.sentinel
    case ContainerStops => s.container.Up?
    case RecordSeen(e) => !BeforeStart(s.phase) && Started(s.container) && (e == RunningObserved || e == ExitObserved)
    case TakenAway(to, _) => !ServedByThisLease(to)
    case Crash => !s.phase.Over?
    case Measure(obs) => MayMeasure(s.phase) && CanSay(s, obs)
    case Ask(_) => s.phase.Measured?
    case Keep => s.phase.Asked?
    case Abandon => s.phase.Measured?
    case Conclude => (s.phase.Awaiting? || s.phase.Unattended?) && s.container.Down?
    case Remove(_) => s.phase.Kept?
    case Finalize(_, _) => s.phase.Removed?
  }

  /** Asking goes by the recorded account if the pass has none of its own. */
  function Answered(measured: Observation, recorded: Observation, busy: bool): Account {
    Account(measured, Overruled(Effective(measured, recorded), busy), busy)
  }

  function Noted(recorded: Observation, obs: Observation): Observation { if obs.Establishes() then obs else recorded }

  /**
   `Abandon` is a pass that meets the end of the drain window: it records what it measured, and
   nothing else. `Conclude` is the ordinary ending, which measures nothing and asks nobody.
   */
  function After(s: Serving, e: Event): Serving
    requires Possible(s, e)
  {
    match e
    case CreateContainer => s.(container := Waiting)
    case StartContainer => s.(container := Up)
    case RecordPrepared => s.(evidence := Recorded(s.evidence, RuntimePrepared))
    case Advance(to) => if ServedByThisLease(s.attempt) && ServedByThisLease(to) then s.(attempt := to) else s
    case AuthorizeStart => s.(attempt := Starting, phase := Authorized)
    case AuthorizeRefused => s.(phase := Measured(NeverStarted))
    case RecordStart => s.(evidence := Recorded(s.evidence, StartAuthorized), phase := StartDurable)
    case IssueStart(takes) => s.(phase := Awaiting, sentinel := takes && s.container.Up?)
    case RunnerBegins => s.(began := true)
    case ContainerStops => s.(container := Down)
    case RecordSeen(e) => s.(evidence := Recorded(s.evidence, e))
    case TakenAway(to, e) => s.(attempt := to, evidence := e)
    case Crash => s.(phase := Unattended)
    case Measure(obs) => s.(phase := Measured(obs))
    case Ask(busy) => s.(phase := Asked(Answered(s.phase.obs, s.recorded, busy)))
    case Keep => s.(phase := Kept(s.phase.account), recorded := Noted(s.recorded, s.phase.account.obs))
    case Abandon => s.(phase := Unattended, recorded := Noted(s.recorded, s.phase.obs))
    case Conclude => s.(phase := Kept(Account(NoObservation, NoObservation, false)))
    case Remove(ok) => if ok then s.(container := Missing, phase := Removed(s.phase.account)) else s.(phase := Unattended)
    case Finalize(ok, budgetLeft) =>
      if !ok then s.(phase := Unattended)
      else
        s.(attempt := Disposed(s.attempt, Verdict(s), budgetLeft), phase := Over,
           decision := Decided(Effective(s.phase.account.obs, s.recorded), s.phase.account.busy, Verdict(s)))
  }

  /** What the finalizing transaction rules. */
  function Verdict(s: Serving): Ruling
    requires s.phase.Removed?
  {
    DispositionFor(s.attempt, s.evidence, s.recorded, s.phase.account.obs)
  }

  function Recorded(current: Evidence, e: Evidence): Evidence {
    match RecordEvidence(current, e)
    case None => current
    case Some(r) => r
  }

  // ---- at most once ----

  /** What the pass in progress goes by. */
  predicate Says(p: Phase, obs: Observation) {
    match p
    case Measured(o) => o == obs
    case Asked(a) => a.obs == obs
    case Kept(a) => a.obs == obs
    case Removed(a) => a.obs == obs
    case _ => false
  }

  /** Nothing of this serving has begun, and nothing of it will. */
  predicate Inert(s: Serving) { !s.began && !s.sentinel && !BeforeStart(s.phase) }

  /** The record has what the pass goes by, and a pass that heard "busy" does not leave the capsule's account standing. */
  predicate Settles(recorded: Observation, a: Account) {
    (a.obs.Establishes() ==> recorded == a.obs) && (recorded == Created ==> !a.busy)
  }

  predicate PassOK(s: Serving) {
    match s.phase
    case Asked(a) => a == Answered(a.measured, s.recorded, a.busy)
    case Kept(a) => Settles(s.recorded, a)
    case Removed(a) => Settles(s.recorded, a) && s.container.Missing?
    case Over => s.container.Missing?
    case _ => true
  }

  predicate Inv(s: Serving) {
    && (ServedByThisLease(s.attempt) && s.evidence.Retriable() ==>
         !s.began && !s.sentinel && !s.phase.StartDurable? && !s.phase.Awaiting?)
    && (s.container.Waiting? || BeforeStart(s.phase) ==> !s.began && !s.sentinel)
    && (s.began ==> s.sentinel)
    && (s.recorded == NeverStarted || Says(s.phase, NeverStarted) ==> Inert(s))
    && (s.decision.Decided? ==> s.phase.Over?)
    && (s.decision.Decided? && s.decision.ruling.Requeue? && s.began ==> s.decision.obs == Created && !s.decision.busy)
    && PassOK(s)
  }

  lemma EventKeepsInv(s: Serving, e: Event)
    requires Inv(s) && Possible(s, e)
    ensures Inv(After(s, e))
  {
  }

  predicate Begins(s: Serving) {
    s == Serving(Leased, NotStarted, NoObservation, Missing, false, false, Launching, Undecided)
  }

  ghost predicate Run(ss: seq<Serving>, es: seq<Event>) {
    && |ss| == |es| + 1
    && forall i {:trigger es[i]} :: 0 <= i < |es| ==> Possible(ss[i], es[i]) && ss[i + 1] == After(ss[i], es[i])
  }

  lemma {:induction false} RunInv(ss: seq<Serving>, es: seq<Event>, n: nat)
    requires Run(ss, es) && Begins(ss[0]) && n < |ss|
    ensures Inv(ss[n])
  {
    if n > 0 {
      RunInv(ss, es, n - 1);
      assert Possible(ss[n - 1], es[n - 1]);
      EventKeepsInv(ss[n - 1], es[n - 1]);
    }
  }

  /** Work that began is ruled a requeue only on the capsule's own account, by a pass that did not hear "busy". */
  lemma BegunRulings(ss: seq<Serving>, es: seq<Event>, n: nat)
    requires Run(ss, es) && Begins(ss[0]) && n < |ss|
    requires ss[n].began && ss[n].decision.Decided? && ss[n].decision.ruling == Requeue
    ensures ss[n].decision.obs == Created && !ss[n].decision.busy
  {
    RunInv(ss, es, n);
  }

  predicate Proof(obs: Observation) { obs == Created || obs == NeverStarted }

  /** The event before `n` is the finalizing transaction, of an attempt that is still this lease's. */
  ghost predicate Finalizes(ss: seq<Serving>, es: seq<Event>, n: nat, budgetLeft: bool) {
    0 < n < |ss| == |es| + 1 && es[n - 1] == Finalize(true, budgetLeft) && ServedByThisLease(ss[n - 1].attempt)
  }

  lemma Finalized(ss: seq<Serving>, es: seq<Event>, n: nat, budgetLeft: bool)
    requires Run(ss, es) && Begins(ss[0]) && Finalizes(ss, es, n, budgetLeft)
    ensures Inv(ss[n - 1]) && Possible(ss[n - 1], es[n - 1]) && ss[n] == After(ss[n - 1], es[n - 1])
  {
    RunInv(ss, es, n - 1);
    assert Possible(ss[n - 1], es[n - 1]);
  }

  /**
   An attempt whose runner really began goes back to the queue only on the capsule's own account
   that it had not, and only if the pass that decided did not hear from the provider that the
   runner was busy.
   */
  lemma AtMostOnce(ss: seq<Serving>, es: seq<Event>, n: nat, budgetLeft: bool)
    requires Run(ss, es) && Begins(ss[0]) && Finalizes(ss, es, n, budgetLeft)
    requires ss[n].began && ss[n].attempt == Ready
    ensures ss[n].decision == Decided(Created, false, Requeue)
  {
    Finalized(ss, es, n, budgetLeft);
    RunInv(ss, es, n);
  }

  /**
   What the finalizing transaction leaves, by what is on record and what was seen: a proof that
   nothing started, or no start authorized, puts the attempt back in the queue while its budget
   lasts; an exit or a running capsule settles it as what was seen; an authorized start of which
   nothing is known is for a person to look at.
   */
  lemma FinalizedExactly(ss: seq<Serving>, es: seq<Event>, n: nat, budgetLeft: bool)
    requires Run(ss, es) && Begins(ss[0]) && Finalizes(ss, es, n, budgetLeft)
    ensures var s, left := ss[n - 1], ss[n].attempt;
            var free := Proof(s.recorded) || s.evidence == NotStarted || s.evidence == RuntimePrepared;
            var completed := !Proof(s.recorded) && s.evidence == ExitObserved;
            var started := !Proof(s.recorded) && (s.evidence == RunningObserved || (s.evidence == StartAuthorized && s.recorded == RunningSeen));
            && (left == Ready <==> free && budgetLeft)
            && (left == Settled(CompletedObserved) <==> completed)
            && (left == Settled(StartedObserved) <==> started)
            && (left == ManualReview <==> if free then !budgetLeft else !completed && !started)
  {
    Finalized(ss, es, n, budgetLeft);
  }

  /** An attempt somebody else has taken is left as it is. */
  lemma TakenIsLeft(ss: seq<Serving>, es: seq<Event>, n: nat, budgetLeft: bool)
    requires Run(ss, es) && 0 < n < |ss| && es[n - 1] == Finalize(true, budgetLeft) && !ServedByThisLease(ss[n - 1].attempt)
    ensures ss[n].attempt == ss[n - 1].attempt
  {
    assert Possible(ss[n - 1], es[n - 1]);
  }

  /** The daemon's word and the evidence never requeue work that began. */
  lemma DaemonsWordIsSafe(ss: seq<Serving>, es: seq<Event>, n: nat)
    requires Run(ss, es) && Begins(ss[0]) && n < |ss|
    requires ss[n].decision.Decided? && ss[n].decision.ruling == Requeue && ss[n].decision.obs != Created
    ensures !ss[n].began
  {
    RunInv(ss, es, n);
  }

  // ---- a recorded account is not spent by passes that measured nothing ----

  /** An event that brings in no account of its own, and no "busy" that would overrule the recorded `r`. */
  predicate Quiet(e: Event, r: Observation) {
    match e
    case Measure(obs) => !obs.Establishes()
    case AuthorizeRefused => false
    case Ask(busy) => busy ==> r != Created
    case _ => true
  }

  /** `r` is recorded, and the pass in progress, if there is one, has no other account. */
  predicate Stands(s: Serving, r: Observation) {
    && s.recorded == r
    && match s.phase
       case Measured(obs) => obs.Establishes() ==> obs == r
       case Asked(a) => a.obs.Establishes() ==> a.obs == r
       case Kept(a) => a.obs.Establishes() ==> a.obs == r
       case Removed(a) => a.obs.Establishes() ==> a.obs == r
       case _ => true
  }

  lemma QuietKeeps(s: Serving, e: Event, r: Observation)
    requires r.Establishes() && Stands(s, r) && Possible(s, e) && Quiet(e, r)
    ensures Stands(After(s, e), r)
  {
  }

  /** Through crashes in mid-pass, failed removals and failed finalizations, over any number of passes. */
  lemma {:induction false} AccountStands(ss: seq<Serving>, es: seq<Event>, i: nat, j: nat, r: Observation)
    requires Run(ss, es) && i <= j < |ss| && r.Establishes() && Stands(ss[i], r)
    requires forall n {:trigger es[n]} :: i <= n < j ==> Quiet(es[n], r)
    ensures Stands(ss[j], r)
  {
    if i < j {
      AccountStands(ss, es, i, j - 1, r);
      assert Possible(ss[j - 1], es[j - 1]) && Quiet(es[j - 1], r);
      QuietKeeps(ss[j - 1], es[j - 1], r);
    }
  }

  /** A recorded proof still decides after any passes that measured nothing. */
  lemma ProofSurvives(ss: seq<Serving>, es: seq<Event>, i: nat, j: nat, r: Observation)
    requires Run(ss, es) && i <= j < |ss| && Proof(r) && Stands(ss[i], r)
    requires forall n {:trigger es[n]} :: i <= n < j ==> Quiet(es[n], r)
    ensures ss[j].recorded == r
    ensures ss[j].phase.Removed? && ServedByThisLease(ss[j].attempt) ==> Verdict(ss[j]) == Requeue
  {
    AccountStands(ss, es, i, j, r);
  }

  /** A pass heard "busy" of the capsule's account, and recorded that. */
  predicate HeardBusy(s: Serving) { s.phase.Kept? && s.phase.account.busy && s.phase.account.obs == RunningSeen }

  /** A busy report binds every later pass that measured nothing: work that began is not requeued. */
  lemma BusyIsKept(ss: seq<Serving>, es: seq<Event>, i: nat, j: nat)
    requires Run(ss, es) && Begins(ss[0]) && i <= j < |ss| && HeardBusy(ss[i])
    requires forall n {:trigger es[n]} :: i <= n < j ==> Quiet(es[n], RunningSeen)
    ensures ss[j].recorded == RunningSeen
    ensures ss[j].phase.Removed? && ss[j].began ==> Verdict(ss[j]) != Requeue
  {
    RunInv(ss, es, i);
    RunInv(ss, es, j);
    AccountStands(ss, es, i, j, RunningSeen);
  }

  // ---- exactly when a busy report does not bind ----

  /** A pass records that the capsule never started its runner, on a measurement of its own that nobody contradicted. */
  predicate Believes(s: Serving, e: Event) {
    match e
    case Keep => s.phase.Asked? && s.phase.account.measured == Created && !s.phase.account.busy
    case Abandon => s.phase == Measured(Created)
    case _ => false
  }

  /** A pass records something else: it heard "busy", or measured another account. */
  predicate Corrects(s: Serving, e: Event) {
    match e
    case Keep =>
      && s.phase.Asked?
      && (s.phase.account.busy || (s.phase.account.measured.Establishes() && s.phase.account.measured != Created))
    case Abandon => s.phase.Measured? && s.phase.obs.Establishes() && s.phase.obs != Created
    case _ => false
  }

  /** Between `i` and `n` some pass believed the capsule, and none after it recorded anything else. */
  ghost predicate Believed(ss: seq<Serving>, es: seq<Event>, i: nat, n: nat)
    requires |ss| == |es| + 1 && n < |ss|
  {
    exists k {:trigger es[k]} :: i <= k < n && Believes(ss[k], es[k]) && Uncorrected(ss, es, k + 1, n)
  }

  ghost predicate Uncorrected(ss: seq<Serving>, es: seq<Event>, k: nat, n: nat)
    requires |ss| == |es| + 1 && n < |ss|
  {
    forall l {:trigger es[l]} :: k <= l < n ==> !Corrects(ss[l], es[l])
  }

  lemma RecordMoves(s: Serving, e: Event)
    requires Inv(s) && Possible(s, e)
    ensures Believes(s, e) ==> !Corrects(s, e)
    ensures After(s, e).recorded == Created <==> Believes(s, e) || (s.recorded == Created && !Corrects(s, e))
  {
  }

  lemma BelievedMoves(ss: seq<Serving>, es: seq<Event>, i: nat, n: nat)
    requires |ss| == |es| + 1 && i <= n < |es|
    requires Believes(ss[n], es[n]) ==> !Corrects(ss[n], es[n])
    ensures Believed(ss, es, i, n + 1) <==> Believes(ss[n], es[n]) || (Believed(ss, es, i, n) && !Corrects(ss[n], es[n]))
  {
    if Believes(ss[n], es[n]) {
      assert Uncorrected(ss, es, n + 1, n + 1);
    } else if Believed(ss, es, i, n) && !Corrects(ss[n], es[n]) {
      var k :| i <= k < n && Believes(ss[k], es[k]) && Uncorrected(ss, es, k + 1, n);
      assert Uncorrected(ss, es, k + 1, n + 1);
    }
  }

  lemma {:induction false} RecordedExactly(ss: seq<Serving>, es: seq<Event>, i: nat, n: nat)
    requires Run(ss, es) && Begins(ss[0]) && i <= n < |ss| && ss[i].recorded != Created
    ensures ss[n].recorded == Created <==> Believed(ss, es, i, n)
  {
    if i < n {
      RecordedExactly(ss, es, i, n - 1);
      RunInv(ss, es, n - 1);
      assert Possible(ss[n - 1], es[n - 1]);
      RecordMoves(ss[n - 1], es[n - 1]);
      BelievedMoves(ss, es, i, n - 1);
    }
  }

  /** Of work that began, the finalizing transaction requeues exactly what stands recorded as never started. */
  lemma BegunIsRequeuedExactlyOn(ss: seq<Serving>, es: seq<Event>, i: nat, n: nat)
    requires Run(ss, es) && Begins(ss[0]) && i <= n < |ss| && ss[i].recorded != Created
    requires ss[n].phase.Removed? && ss[n].began && ServedByThisLease(ss[n].attempt)
    ensures Verdict(ss[n]) == Requeue <==> Believed(ss, es, i, n)
  {
    RunInv(ss, es, n);
    RecordedExactly(ss, es, i, n);
  }

  /** And that is when begun work goes back to the queue: never otherwise, and then if its budget lasts. */
  lemma BegunIsReadyExactlyOn(ss: seq<Serving>, es: seq<Event>, i: nat, n: nat, budgetLeft: bool)
    requires Run(ss, es) && Begins(ss[0]) && Finalizes(ss, es, n, budgetLeft) && ss[n - 1].began
    requires i < n && ss[i].recorded != Created
    ensures ss[n].attempt == Ready <==> budgetLeft && Believed(ss, es, i, n - 1)
  {
    Finalized(ss, es, n, budgetLeft);
    BegunIsRequeuedExactlyOn(ss, es, i, n - 1);
  }

  /**
   After a pass that heard "busy", begun work is requeued if and only if a later pass measured
   the capsule's account again and did not hear "busy", and no pass after that one heard "busy"
   or measured another account.
   */
  lemma BusyBindsExactly(ss: seq<Serving>, es: seq<Event>, i: nat, n: nat)
    requires Run(ss, es) && Begins(ss[0]) && i <= n < |ss| && HeardBusy(ss[i])
    requires ss[n].phase.Removed? && ss[n].began && ServedByThisLease(ss[n].attempt)
    ensures Verdict(ss[n]) == Requeue <==> Believed(ss, es, i, n)
  {
    RunInv(ss, es, i);
    BegunIsRequeuedExactlyOn(ss, es, i, n);
  }

  // ---- and that happens ----

  lemma Then(ss: seq<Serving>, es: seq<Event>, e: Event) returns (ss': seq<Serving>, es': seq<Event>)
    requires Run(ss, es) && Possible(ss[|es|], e)
    ensures Run(ss', es') && |ss'| == |es'| + 1 && ss <= ss' && ss'[0] == ss[0] && es' == es + [e] && ss'[|es'|] == After(ss[|es|], e)
  {
    ss', es' := ss + [After(ss[|es|], e)], es + [e];
    forall i {:trigger es'[i]} | 0 <= i < |es'| ensures Possible(ss'[i], es'[i]) && ss'[i + 1] == After(ss'[i], es'[i]) {
      if i < |es| {
        assert es'[i] == es[i];
      }
    }
  }

  /** A launch whose start request takes effect: the runner begins, and the capsule stops. */
  lemma Launched(s: Serving) returns (ss: seq<Serving>, es: seq<Event>)
    requires Begins(s)
    ensures Run(ss, es) && ss[0] == s
    ensures ss[|es|] == Serving(Running, RunningObserved, NoObservation, Down, true, true, Awaiting, Undecided)
  {
    ss, es := ReadyToStart(s);
    ss, es := Then(ss, es, IssueStart(true));
    ss, es := Then(ss, es, RunnerBegins);
    ss, es := Then(ss, es, RecordSeen(RunningObserved));
    ss, es := Then(ss, es, Advance(Running));
    ss, es := Then(ss, es, ContainerStops);
  }

  lemma ReadyToStart(s: Serving) returns (ss: seq<Serving>, es: seq<Event>)
    requires Begins(s)
    ensures Run(ss, es) && ss[0] == s
    ensures ss[|es|] == Serving(Starting, StartAuthorized, NoObservation, Up, false, false, StartDurable, Undecided)
    ensures forall b :: Ask(b) !in es
  {
    ss, es := [s], [];
    ss, es := Then(ss, es, CreateContainer);
    ss, es := Then(ss, es, StartContainer);
    ss, es := Then(ss, es, RecordPrepared);
    ss, es := Then(ss, es, AuthorizeStart);
    ss, es := Then(ss, es, RecordStart);
  }

  /** The first pass hears "busy", records it, and fails to remove the capsule. */
  lemma Reported(s: Serving) returns (ss: seq<Serving>, es: seq<Event>, i: nat)
    requires Begins(s)
    ensures Run(ss, es) && ss[0] == s && i < |ss| && HeardBusy(ss[i])
    ensures ss[|es|] == Serving(Running, RunningObserved, RunningSeen, Down, true, true, Unattended, Undecided)
  {
    ss, es := Launched(s);
    ss, es := Then(ss, es, Measure(Created));
    ss, es := Then(ss, es, Ask(true));
    ss, es := Then(ss, es, Keep);
    i := |es|;
    ss, es := Then(ss, es, Remove(false));
  }

  /**
   A later pass that measures the capsule's account again, and does not hear "busy", displaces a
   busy report: work that began is requeued.
   */
  lemma BusyCanBeDisplaced(s: Serving) returns (ss: seq<Serving>, es: seq<Event>, i: nat)
    requires Begins(s)
    ensures Run(ss, es) && ss[0] == s && i < |ss| && HeardBusy(ss[i])
    ensures ss[|es|].began && ss[|es|].attempt == Ready
  {
    ss, es, i := Reported(s);
    ghost var heard := ss[i];
    ss, es := Then(ss, es, Measure(Created));
    ss, es := Then(ss, es, Ask(false));
    ss, es := Then(ss, es, Keep);
    ss, es := Then(ss, es, Remove(true));
    ss, es := Then(ss, es, Finalize(true, true));
    assert ss[i] == heard;
  }

  /** A start request whose answer was lost: the capsule says it is waiting, truly, and the pass is abandoned. */
  lemma Abandoned(s: Serving) returns (ss: seq<Serving>, es: seq<Event>)
    requires Begins(s)
    ensures Run(ss, es) && ss[0] == s && (forall b :: Ask(b) !in es)
    ensures ss[|es|] == Serving(Starting, StartAuthorized, Created, Up, true, false, Unattended, Undecided)
  {
    ss, es := ReadyToStart(s);
    ss, es := Then(ss, es, IssueStart(true));
    ss, es := Then(ss, es, Measure(Created));
    ss, es := Then(ss, es, Abandon);
  }

  /** The capsule was at work all the same: adopted, it is awaited to its exit. */
  lemma AwaitedAfterAll(s: Serving) returns (ss: seq<Serving>, es: seq<Event>)
    requires Begins(s)
    ensures Run(ss, es) && ss[0] == s && (forall b :: Ask(b) !in es)
    ensures ss[|es|] == Serving(Starting, ExitObserved, Created, Down, true, true, Unattended, Undecided)
  {
    hide Run;
    ss, es := Abandoned(s);
    ss, es := Then(ss, es, RunnerBegins);
    ss, es := Then(ss, es, ContainerStops);
    ss, es := Then(ss, es, RecordSeen(ExitObserved));
  }

  /**
   An account recorded by an abandoned pass is put to nobody. If the capsule is adopted, runs its
   job and ends in the ordinary way, that account still decides, over the exit that was observed.
   */
  lemma AbandonedAccountDecides(s: Serving) returns (ss: seq<Serving>, es: seq<Event>)
    requires Begins(s)
    ensures Run(ss, es) && ss[0] == s && (forall b :: Ask(b) !in es)
    ensures ss[|es|].began && ss[|es|].evidence == ExitObserved && ss[|es|].attempt == Ready
  {
    hide Run;
    ss, es := AwaitedAfterAll(s);
    ss, es := Then(ss, es, Conclude);
    ss, es := Then(ss, es, Remove(true));
    ss, es := Then(ss, es, Finalize(true, true));
  }
}
