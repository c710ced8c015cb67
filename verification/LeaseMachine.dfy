/**
 The lease machine: the lifecycle of the host resources one serving of an attempt consumes.
 */
module LeaseMachine {
  import opened Base

  type LeaseID(==, !new)

  datatype LeaseState =
    | Reserved | Provisioning | RuntimeRegistered | WorkloadRunning | Draining | Cleaning | Released | Failed | Quarantined

  function Transitions(from: LeaseState): set<LeaseState> {
    match from
    case Reserved => {LeaseState.Provisioning, LeaseState.Failed}
    case Provisioning => {LeaseState.RuntimeRegistered, LeaseState.Failed}
    case RuntimeRegistered => {LeaseState.WorkloadRunning, LeaseState.Draining, LeaseState.Failed}
    case WorkloadRunning => {LeaseState.Draining, LeaseState.Failed}
    case Draining => {LeaseState.Cleaning, LeaseState.Failed}
    case Cleaning => {LeaseState.Released, LeaseState.Quarantined}
    case Released => {}
    case Failed => {LeaseState.Cleaning}
    case Quarantined => {LeaseState.Cleaning}
  }

  predicate ValidTransition(from: LeaseState, to: LeaseState) { to in Transitions(from) }

  predicate Terminal(s: LeaseState) { s == Released }

  /** Into cleaning from wherever a crash or a failure left the lease; a released lease cannot go back. */
  function MovedToCleaning(s: LeaseState): (r: Option<LeaseState>)
    ensures r == if Terminal(s) then None else Some(LeaseState.Cleaning)
  {
    if s == LeaseState.Cleaning then Some(s)
    else if s == LeaseState.Failed || s == LeaseState.Quarantined then
      if ValidTransition(s, LeaseState.Cleaning) then Some(LeaseState.Cleaning) else None
    else if ValidTransition(s, LeaseState.Failed) && ValidTransition(LeaseState.Failed, LeaseState.Cleaning) then
      Some(LeaseState.Cleaning)
    else None
  }

  // ---- where paths lead ----

  /** A lease's history: each state followed by one its state allows. */
  ghost predicate Path(ss: seq<LeaseState>) {
    ss != [] && forall i {:trigger ss[i]} :: 0 < i < |ss| ==> ValidTransition(ss[i - 1], ss[i])
  }

  /** `s` is only ever entered from `gate`. */
  predicate EnteredOnlyFrom(s: LeaseState, gate: LeaseState) {
    forall from: LeaseState :: ValidTransition(from, s) ==> from == gate
  }

  /** The stations of a launch follow one another; cleaning alone releases or quarantines. */
  lemma Gates()
    ensures EnteredOnlyFrom(LeaseState.Released, LeaseState.Cleaning)
    ensures EnteredOnlyFrom(LeaseState.Quarantined, LeaseState.Cleaning)
    ensures EnteredOnlyFrom(LeaseState.Provisioning, LeaseState.Reserved)
    ensures EnteredOnlyFrom(LeaseState.RuntimeRegistered, LeaseState.Provisioning)
    ensures EnteredOnlyFrom(LeaseState.WorkloadRunning, LeaseState.RuntimeRegistered)
    ensures forall from: LeaseState :: LeaseState.Reserved !in Transitions(from)
    ensures forall from: LeaseState :: LeaseState.Failed in Transitions(from) <==>
              from in {LeaseState.Reserved, LeaseState.Provisioning, LeaseState.RuntimeRegistered, LeaseState.WorkloadRunning, LeaseState.Draining}
    ensures forall s: LeaseState :: Terminal(s) <==> Transitions(s) == {}
  {
  }

  lemma StepOf(ss: seq<LeaseState>, i: nat)
    requires Path(ss) && 0 < i < |ss|
    ensures ss[i] in Transitions(ss[i - 1])
  {
  }

  /** Every path to released passed through cleaning right before, and ends there. */
  lemma ReleasedThroughCleaning(ss: seq<LeaseState>, i: nat)
    requires Path(ss) && 0 < i < |ss| && ss[i] == LeaseState.Released
    ensures ss[i - 1] == LeaseState.Cleaning && i == |ss| - 1
  {
    Gates();
    StepOf(ss, i);
    if i + 1 < |ss| {
      StepOf(ss, i + 1);
    }
  }

  lemma NeverReserved(ss: seq<LeaseState>, i: nat)
    requires Path(ss) && i < |ss| && ss[i] == LeaseState.Reserved
    ensures i == 0
  {
  }

  /** A reserved lease whose workload runs was provisioned and registered on the way, in this order. */
  lemma RunningWasLaunched(ss: seq<LeaseState>, i: nat)
    requires Path(ss) && i < |ss| && ss[0] == LeaseState.Reserved && ss[i] == LeaseState.WorkloadRunning
    ensures i == 3 && ss[..3] == [LeaseState.Reserved, LeaseState.Provisioning, LeaseState.RuntimeRegistered]
  {
    Gates();
    StepOf(ss, i);
    StepOf(ss, i - 1);
    StepOf(ss, i - 2);
    NeverReserved(ss, i - 3);
  }

  /** The way a lease goes when nothing fails, and the detour by quarantine. */
  lemma OrdinaryPaths()
    ensures Path([LeaseState.Reserved, LeaseState.Provisioning, LeaseState.RuntimeRegistered, LeaseState.WorkloadRunning,
                  LeaseState.Draining, LeaseState.Cleaning, LeaseState.Released])
    ensures Path([LeaseState.RuntimeRegistered, LeaseState.Draining, LeaseState.Cleaning, LeaseState.Quarantined,
                  LeaseState.Cleaning, LeaseState.Released])
  {
  }

  /** From every live state there is a path to released: straight from cleaning, or by way of failing. */
  lemma EveryLeaseCanEnd(s: LeaseState) returns (ss: seq<LeaseState>)
    requires !Terminal(s)
    ensures Path(ss) && ss[0] == s && ss[|ss| - 1] == LeaseState.Released
    ensures forall i :: 0 < i < |ss| ==> ss[i] in {LeaseState.Failed, LeaseState.Cleaning, LeaseState.Released}
  {
    var end := [LeaseState.Cleaning, LeaseState.Released];
    ss := if s.Cleaning? then end else if s.Failed? || s.Quarantined? then [s] + end else [s, LeaseState.Failed] + end;
  }
}
