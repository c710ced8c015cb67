/**
 Who gives an admission credit back.

 Every credit belongs to one lease, from the reservation that admitted it until the lease's
 row is released. Goroutines own leases by claiming them: the one that launched or adopted
 the lease first, and after it any number of stranded-retry passes, each working from a list
 of leases it read some time ago. Steps interleave freely. `CreditsAreConserved` says that a
 lease gives its credit back at most once, only after its row is released, and that live
 leases of a configured binding never outnumber the credits it holds.
 */
module Credits {
  import opened Base
  import opened LeaseMachine

  /** Where the goroutine that owns a lease stands. */
  datatype Phase =
    | Driving    // the first owner: launching, awaiting, unwinding
    | Recovering // a retry pass, before its move to cleaning
    | Unwinding  // a retry pass whose move to cleaning succeeded
    | Reading    // about to ask whether the lease is released
    | Paying     // it is: the credit goes back
    | Leaving    // about to give the claim up

  datatype State = State(
    rows: map<LeaseID, LeaseState>,
    binding: map<LeaseID, Option<BindingKey>>,
    active: map<BindingKey, nat>,
    reserved: map<BindingKey, nat>,
    newborn: set<LeaseID>,
    owners: map<LeaseID, Phase>,
    stale: set<LeaseID>,
    unadopted: set<LeaseID>,
    credited: set<LeaseID>,
    paid: map<LeaseID, nat>,
    abandoning: bool)

  datatype Event =
    | Adopt(lease: LeaseID)
    | Reserve(key: BindingKey)
    | CommitFails(key: BindingKey)
    | Commit(key: BindingKey, lease: LeaseID)
    | Claim(lease: LeaseID)
    | Drive(lease: LeaseID, to: LeaseState)
    | Finish(lease: LeaseID)
    | PassReads(seen: set<LeaseID>)
    | PassClaims(lease: LeaseID)
    | ToCleaning(lease: LeaseID)
    | CleaningFails(lease: LeaseID, quarantined: bool)
    | Finalize(lease: LeaseID)
    | ReadRow(lease: LeaseID, readable: bool)
    | Pay(lease: LeaseID)
    | Leave(lease: LeaseID)
    | Abandon

  function Count(m: map<BindingKey, nat>, k: BindingKey): nat { if k in m then m[k] else 0 }

  predicate Owned(s: State, l: LeaseID, p: Phase) { l in s.owners && s.owners[l] == p && l in s.rows && l in s.binding }

  /** What the code allows. Unfinished work is abandoned only after the retry passes are over for good. */
  predicate Possible(s: State, e: Event) {
    match e
    case Adopt(l) => l in s.unadopted && l in s.rows && l in s.binding
    case Reserve(k) => s.unadopted == {}
    case CommitFails(k) => Count(s.reserved, k) > 0
    case Commit(k, l) => Count(s.reserved, k) > 0 && l !in s.rows
    case Claim(l) => l in s.newborn && l !in s.owners
    case Drive(l, to) => Owned(s, l, Driving) && ValidTransition(s.rows[l], to)
    case Finish(l) => Owned(s, l, Driving)
    case PassReads(seen) => s.unadopted == {} && !s.abandoning && forall l :: l in seen ==> l in s.rows && s.rows[l] != Released
    case PassClaims(l) => l in s.stale && l !in s.owners
    case ToCleaning(l) => Owned(s, l, Recovering)
    case CleaningFails(l, _) => Owned(s, l, Unwinding)
    case Finalize(l) => Owned(s, l, Unwinding)
    case ReadRow(l, _) => Owned(s, l, Reading)
    case Pay(l) => Owned(s, l, Paying)
    case Leave(l) => Owned(s, l, Leaving)
    case Abandon => s.stale == {} && forall l :: l in s.owners ==> !s.owners[l].Recovering? && !s.owners[l].Unwinding?
  }

  /** Admission claims a lease it committed before a retry pass may call it stranded. */
  predicate InTime(s: State, e: Event) {
    e.PassClaims? ==> e.lease !in s.newborn
  }

  function Move(s: State, l: LeaseID, p: Phase): State { s.(owners := s.owners[l := p]) }

  function Adopted(s: State, l: LeaseID): State
    requires l in s.binding
  {
    var s' := Move(s, l, Driving).(unadopted := s.unadopted - {l});
    match s.binding[l]
    case None => s'
    case Some(k) => s'.(active := s.active[k := Count(s.active, k) + 1], credited := s.credited + {l})
  }

  function Committed(s: State, k: BindingKey, l: LeaseID): State
    requires Count(s.reserved, k) > 0
  {
    s.(reserved := s.reserved[k := s.reserved[k] - 1], rows := s.rows[l := Reserved],
       binding := s.binding[l := Some(k)], newborn := s.newborn + {l}, credited := s.credited + {l},
       paid := s.paid[l := 0])
  }

  function MovingToCleaning(s: State, l: LeaseID): State
    requires l in s.rows
  {
    if s.abandoning then Move(s, l, Reading)
    else
      match MovedToCleaning(s.rows[l])
      case None => Move(s, l, Leaving)
      case Some(row) => Move(s, l, Unwinding).(rows := s.rows[l := row])
  }

  function GivingUp(s: State, l: LeaseID, quarantined: bool): State
    requires l in s.rows
  {
    var s' := Move(s, l, Leaving);
    if quarantined && ValidTransition(s.rows[l], Quarantined) then s'.(rows := s.rows[l := Quarantined]) else s'
  }

  function Finalized(s: State, l: LeaseID): State
    requires l in s.rows
  {
    if ValidTransition(s.rows[l], Released) then Move(s, l, Reading).(rows := s.rows[l := Released])
    else Move(s, l, Leaving)
  }

  function Paid(s: State, l: LeaseID): State
    requires l in s.binding
  {
    var s' := Move(s, l, Leaving);
    match s.binding[l]
    case None => s'
    case Some(k) =>
      s'.(active := s.active[k := ReleasedFrom(Count(s.active, k))],
          paid := s.paid[l := (if l in s.paid then s.paid[l] else 0) + 1])
  }

  function After(s: State, e: Event): State
    requires Possible(s, e)
  {
    match e
    case Adopt(l) => Adopted(s, l)
    case Reserve(k) =>
      s.(active := s.active[k := Count(s.active, k) + 1], reserved := s.reserved[k := Count(s.reserved, k) + 1])
    case CommitFails(k) =>
      s.(active := s.active[k := ReleasedFrom(Count(s.active, k))], reserved := s.reserved[k := s.reserved[k] - 1])
    case Commit(k, l) => Committed(s, k, l)
    case Claim(l) => Move(s, l, Driving).(newborn := s.newborn - {l})
    case Drive(l, to) => s.(rows := s.rows[l := to])
    case Finish(l) => Move(s, l, Reading)
    case PassReads(seen) => s.(stale := seen)
    case PassClaims(l) => Move(s, l, Recovering).(stale := s.stale - {l})
    case ToCleaning(l) => MovingToCleaning(s, l)
    case CleaningFails(l, quarantined) => GivingUp(s, l, quarantined)
    case Finalize(l) => Finalized(s, l)
    case ReadRow(l, readable) => Move(s, l, if readable && s.rows[l] == Released then Paying else Leaving)
    case Pay(l) => Paid(s, l)
    case Leave(l) => s.(owners := s.owners - {l})
    case Abandon => s.(abandoning := true)
  }

  /** The allocator's release: nothing is given back where nothing is held. */
  function ReleasedFrom(active: nat): nat { if active > 0 then active - 1 else 0 }

  // ---- the invariant ----

  /** One lease: paid at most once, and whoever may still pay has not paid yet. */
  predicate LeaseOK(s: State, l: LeaseID)
    requires l in s.rows && l in s.binding && l in s.paid
  {
    && s.paid[l] <= 1
    && (s.paid[l] == 1 ==> s.rows[l] == Released)
    && (s.rows[l] != Released && s.binding[l].Some? ==> l in s.credited || l in s.unadopted)
    && (l in s.newborn ==> l !in s.owners && s.paid[l] == 0 && l in s.credited)
    && (l in s.unadopted ==> l !in s.owners && s.paid[l] == 0 && l !in s.newborn && l !in s.credited)
    && (l in s.stale ==> s.unadopted == {} && !s.abandoning)
    && (l in s.owners ==> OwnerOK(s, l, s.owners[l]))
  }

  predicate OwnerOK(s: State, l: LeaseID, p: Phase)
    requires l in s.rows && l in s.binding && l in s.paid
  {
    match p
    case Driving => s.paid[l] == 0 && (s.binding[l].Some? ==> l in s.credited)
    case Recovering => s.unadopted == {} && !s.abandoning
    case Unwinding => s.rows[l] == LeaseState.Cleaning && s.paid[l] == 0 && (s.binding[l].Some? ==> l in s.credited)
    case Reading => s.paid[l] == 0 && (s.binding[l].Some? ==> l in s.credited)
    case Paying => s.rows[l] == Released && s.paid[l] == 0 && (s.binding[l].Some? ==> l in s.credited)
    case Leaving => true
  }

  /** The leases whose credits `k` still holds. */
  ghost function Held(s: State, k: BindingKey): set<LeaseID> {
    set l | l in s.credited && l in s.binding && l in s.paid && s.binding[l] == Some(k) && s.paid[l] == 0
  }

  ghost predicate KeyOK(s: State, k: BindingKey) { Count(s.active, k) == Count(s.reserved, k) + |Held(s, k)| }

  ghost predicate Shape(s: State) {
    && s.rows.Keys == s.binding.Keys == s.paid.Keys
    && s.owners.Keys <= s.rows.Keys && s.newborn <= s.rows.Keys && s.unadopted <= s.rows.Keys
    && s.stale <= s.rows.Keys && s.credited <= s.rows.Keys
  }

  ghost predicate Inv(s: State) {
    && Shape(s)
    && (forall l {:trigger LeaseOK(s, l)} :: l in s.rows ==> LeaseOK(s, l))
    && (forall k {:trigger KeyOK(s, k)} :: KeyOK(s, k))
  }

  // ---- every event keeps it ----

  ghost predicate Fine(s: State, l: LeaseID) {
    Shape(s) && (l in s.rows ==> LeaseOK(s, l))
  }

  /** A step that leaves everything about `l` as it was, and lets no stale list survive an adoption. */
  predicate Untouched(s: State, t: State, l: LeaseID)
    requires l in s.rows ==> l in s.binding && l in s.paid && l in t.rows && l in t.binding && l in t.paid
  {
    && (l in t.rows ==> l in s.rows && t.rows[l] == s.rows[l] && t.binding[l] == s.binding[l] && t.paid[l] == s.paid[l])
    && (l in t.newborn <==> l in s.newborn) && (l in t.stale <==> l in s.stale)
    && (l in t.credited <==> l in s.credited) && (l in t.unadopted <==> l in s.unadopted)
    && (l in t.owners <==> l in s.owners) && (l in s.owners ==> t.owners[l] == s.owners[l])
    && (s.unadopted == {} ==> t.unadopted == {}) && (t.abandoning ==> s.abandoning)
  }

  lemma UntouchedKeeps(s: State, t: State, l: LeaseID)
    requires Fine(s, l) && Shape(t) && (l in s.rows ==> l in t.rows) && Untouched(s, t, l)
    ensures Fine(t, l)
  {
  }

  lemma AdoptedShape(s: State, j: LeaseID)
    requires Possible(s, Adopt(j)) && Shape(s)
    ensures Shape(Adopted(s, j))
  {
  }

  lemma AdoptedItself(s: State, j: LeaseID)
    requires Possible(s, Adopt(j)) && Fine(s, j) && Shape(Adopted(s, j))
    ensures LeaseOK(Adopted(s, j), j)
  {
  }

  lemma AdoptedOther(s: State, j: LeaseID, l: LeaseID)
    requires j in s.binding && Possible(s, Adopt(j)) && Shape(s) && Shape(Adopted(s, j)) && l != j
    ensures l in s.rows ==> l in Adopted(s, j).rows
    ensures Untouched(s, Adopted(s, j), l)
  {
    hide Shape, Possible, Count, Adopted;
    AdoptedFields(s, j);
  }

  lemma AdoptedFields(s: State, j: LeaseID)
    requires j in s.binding
    ensures var t := Adopted(s, j);
            && t.rows == s.rows && t.binding == s.binding && t.paid == s.paid && t.newborn == s.newborn && t.stale == s.stale
            && t.abandoning == s.abandoning && t.owners == s.owners[j := Driving] && t.unadopted == s.unadopted - {j}
            && (t.credited == s.credited || t.credited == s.credited + {j})
  {
    hide Count;
  }

  lemma CommittedKeeps(s: State, k: BindingKey, j: LeaseID, l: LeaseID)
    requires Possible(s, Commit(k, j)) && Fine(s, l)
    ensures Fine(Committed(s, k, j), l)
  {
  }

  lemma CleaningItself(s: State, j: LeaseID)
    requires Owned(s, j, Recovering) && Fine(s, j)
    ensures Fine(MovingToCleaning(s, j), j)
  {
  }

  lemma CleaningKeeps(s: State, j: LeaseID, l: LeaseID)
    requires Owned(s, j, Recovering) && Fine(s, j) && Fine(s, l)
    ensures Fine(MovingToCleaning(s, j), l)
  {
    hide LeaseOK;
    CleaningItself(s, j);
    if l != j {
      UntouchedKeeps(s, MovingToCleaning(s, j), l);
    }
  }

  lemma GivingUpItself(s: State, j: LeaseID, quarantined: bool)
    requires Owned(s, j, Unwinding) && Fine(s, j)
    ensures Fine(GivingUp(s, j, quarantined), j)
  {
  }

  lemma GivingUpKeeps(s: State, j: LeaseID, quarantined: bool, l: LeaseID)
    requires Owned(s, j, Unwinding) && Fine(s, j) && Fine(s, l)
    ensures Fine(GivingUp(s, j, quarantined), l)
  {
    hide LeaseOK;
    GivingUpItself(s, j, quarantined);
    if l != j {
      UntouchedKeeps(s, GivingUp(s, j, quarantined), l);
    }
  }

  lemma FinalizedItself(s: State, j: LeaseID)
    requires Owned(s, j, Unwinding) && Fine(s, j)
    ensures Fine(Finalized(s, j), j)
  {
  }

  lemma FinalizedKeeps(s: State, j: LeaseID, l: LeaseID)
    requires Owned(s, j, Unwinding) && Fine(s, j) && Fine(s, l)
    ensures Fine(Finalized(s, j), l)
  {
    hide LeaseOK;
    FinalizedItself(s, j);
    if l != j {
      UntouchedKeeps(s, Finalized(s, j), l);
    }
  }

  lemma PaidItself(s: State, j: LeaseID)
    requires Owned(s, j, Paying) && Fine(s, j)
    ensures Fine(Paid(s, j), j)
  {
  }

  lemma PaidKeeps(s: State, j: LeaseID, l: LeaseID)
    requires Owned(s, j, Paying) && Fine(s, j) && Fine(s, l)
    ensures Fine(Paid(s, j), l)
  {
    hide LeaseOK;
    PaidItself(s, j);
    if l != j {
      UntouchedKeeps(s, Paid(s, j), l);
    }
  }

  lemma ClaimKeeps(s: State, j: LeaseID, l: LeaseID)
    requires Possible(s, Claim(j)) && Fine(s, l)
    ensures Fine(After(s, Claim(j)), l)
  {
  }

  lemma DriveKeeps(s: State, j: LeaseID, to: LeaseState, l: LeaseID)
    requires Possible(s, Drive(j, to)) && Fine(s, l)
    ensures Fine(After(s, Drive(j, to)), l)
  {
  }

  lemma PassClaimsKeeps(s: State, j: LeaseID, l: LeaseID)
    requires Possible(s, PassClaims(j)) && InTime(s, PassClaims(j)) && Fine(s, l)
    ensures Fine(After(s, PassClaims(j)), l)
  {
  }

  lemma ReadRowKeeps(s: State, j: LeaseID, readable: bool, l: LeaseID)
    requires Possible(s, ReadRow(j, readable)) && Fine(s, l)
    ensures Fine(After(s, ReadRow(j, readable)), l)
  {
  }

  /** The events that only move an owner along, a list or a counter. */
  predicate Plain(e: Event) {
    e.Reserve? || e.CommitFails? || e.Finish? || e.PassReads? || e.Leave? || e.Abandon?
  }

  lemma PlainKeeps(s: State, e: Event, l: LeaseID)
    requires Possible(s, e) && Plain(e) && Fine(s, l)
    ensures Fine(After(s, e), l)
  {
  }

  lemma EventKeepsLease(s: State, e: Event, l: LeaseID)
    requires Possible(s, e) && InTime(s, e) && Fine(s, l) && forall j :: j in s.rows ==> Fine(s, j)
    ensures Fine(After(s, e), l)
  {
    hide Fine, Adopted, Committed, MovingToCleaning, GivingUp, Finalized, Paid;
    match e
    case Adopt(j) => AdoptKeeps(s, j, l);
    case Commit(k, j) => CommittedKeeps(s, k, j, l);
    case ToCleaning(j) => CleaningKeeps(s, j, l);
    case CleaningFails(j, quarantined) => GivingUpKeeps(s, j, quarantined, l);
    case Finalize(j) => FinalizedKeeps(s, j, l);
    case Pay(j) => PaidKeeps(s, j, l);
    case Claim(j) => ClaimKeeps(s, j, l);
    case Drive(j, to) => DriveKeeps(s, j, to, l);
    case PassClaims(j) => PassClaimsKeeps(s, j, l);
    case ReadRow(j, readable) => ReadRowKeeps(s, j, readable, l);
    case _ => PlainKeeps(s, e, l);
  }

  lemma AdoptKeeps(s: State, j: LeaseID, l: LeaseID)
    requires Possible(s, Adopt(j)) && Fine(s, j) && Fine(s, l)
    ensures Fine(Adopted(s, j), l)
  {
    hide LeaseOK, Adopted, Untouched;
    AdoptedShape(s, j);
    if l == j {
      AdoptedItself(s, j);
    } else {
      AdoptedOther(s, j, l);
      UntouchedKeeps(s, Adopted(s, j), l);
    }
  }

  // ---- counting ----

  lemma NobodyElse(s: State, t: State, k: BindingKey)
    requires t.credited == s.credited && t.binding == s.binding && t.paid == s.paid
    requires Count(t.active, k) == Count(s.active, k) && Count(t.reserved, k) == Count(s.reserved, k) && KeyOK(s, k)
    ensures KeyOK(t, k)
  {
    assert Held(t, k) == Held(s, k);
  }

  /** A lease joins the credits of its binding. */
  lemma Joins(s: State, t: State, l: LeaseID, k: BindingKey)
    requires l !in Held(s, k) && t.credited == s.credited + {l} && l in t.binding && l in t.paid && t.paid[l] == 0
    requires forall j :: j in s.credited && j != l ==>
               && (j in t.binding <==> j in s.binding) && (j in t.paid <==> j in s.paid)
               && (j in s.binding ==> t.binding[j] == s.binding[j]) && (j in s.paid ==> t.paid[j] == s.paid[j])
    ensures t.binding[l] == Some(k) ==> |Held(t, k)| == |Held(s, k)| + 1
    ensures t.binding[l] != Some(k) ==> |Held(t, k)| == |Held(s, k)|
  {
    assert Held(t, k) == if t.binding[l] == Some(k) then Held(s, k) + {l} else Held(s, k);
  }

  lemma AdoptCounts(s: State, l: LeaseID, k: BindingKey)
    requires Shape(s) && Possible(s, Adopt(l)) && LeaseOK(s, l) && KeyOK(s, k)
    ensures KeyOK(After(s, Adopt(l)), k)
  {
    if s.binding[l].Some? {
      Joins(s, After(s, Adopt(l)), l, k);
    } else {
      NobodyElse(s, After(s, Adopt(l)), k);
    }
  }

  lemma CommitCounts(s: State, key: BindingKey, l: LeaseID, k: BindingKey)
    requires Shape(s) && Possible(s, Commit(key, l)) && KeyOK(s, k)
    ensures KeyOK(After(s, Commit(key, l)), k)
  {
    Joins(s, After(s, Commit(key, l)), l, k);
  }

  lemma PayTakesOne(s: State, l: LeaseID, k: BindingKey)
    requires Shape(s) && Possible(s, Pay(l)) && LeaseOK(s, l) && s.binding[l] == Some(k)
    ensures l in Held(s, k) && Held(Paid(s, l), k) == Held(s, k) - {l}
  {
  }

  lemma PayTakesNoOther(s: State, l: LeaseID, k: BindingKey)
    requires Shape(s) && Possible(s, Pay(l)) && s.binding[l] != Some(k)
    ensures Held(Paid(s, l), k) == Held(s, k)
  {
  }

  lemma PayCounts(s: State, l: LeaseID, k: BindingKey)
    requires Shape(s) && Possible(s, Pay(l)) && LeaseOK(s, l) && KeyOK(s, k)
    ensures KeyOK(After(s, Pay(l)), k)
  {
    hide Held, LeaseOK;
    if s.binding[l] == Some(k) {
      PayTakesOne(s, l, k);
    } else {
      PayTakesNoOther(s, l, k);
    }
  }

  lemma ReserveCounts(s: State, key: BindingKey, k: BindingKey)
    requires Possible(s, Reserve(key)) && KeyOK(s, k)
    ensures KeyOK(After(s, Reserve(key)), k)
  {
    assert Held(After(s, Reserve(key)), k) == Held(s, k);
  }

  lemma CommitFailsCounts(s: State, key: BindingKey, k: BindingKey)
    requires Possible(s, CommitFails(key)) && KeyOK(s, k)
    ensures KeyOK(After(s, CommitFails(key)), k)
  {
    assert Held(After(s, CommitFails(key)), k) == Held(s, k);
  }

  /** The two states agree on every credit. */
  predicate SameCredits(s: State, t: State) {
    t.binding == s.binding && t.active == s.active && t.reserved == s.reserved && t.credited == s.credited && t.paid == s.paid
  }

  lemma CleaningMovesNoCredit(s: State, l: LeaseID)
    requires l in s.rows
    ensures SameCredits(s, MovingToCleaning(s, l))
  {
  }

  lemma GivingUpMovesNoCredit(s: State, l: LeaseID, quarantined: bool)
    requires l in s.rows
    ensures SameCredits(s, GivingUp(s, l, quarantined))
  {
  }

  lemma FinalizingMovesNoCredit(s: State, l: LeaseID)
    requires l in s.rows
    ensures SameCredits(s, Finalized(s, l))
  {
  }

  lemma OthersMoveNoCredit(s: State, e: Event)
    requires Possible(s, e) && !e.Adopt? && !e.Reserve? && !e.CommitFails? && !e.Commit? && !e.Pay?
    ensures SameCredits(s, After(s, e))
  {
    hide MovingToCleaning, GivingUp, Finalized, ValidTransition;
    match e
    case ToCleaning(l) => CleaningMovesNoCredit(s, l);
    case CleaningFails(l, quarantined) => GivingUpMovesNoCredit(s, l, quarantined);
    case Finalize(l) => FinalizingMovesNoCredit(s, l);
    case _ =>
  }

  lemma SameCreditsCount(s: State, t: State, k: BindingKey)
    requires SameCredits(s, t) && KeyOK(s, k)
    ensures KeyOK(t, k)
  {
    assert Held(t, k) == Held(s, k);
  }

  lemma OthersCount(s: State, e: Event, k: BindingKey)
    requires Possible(s, e) && !e.Adopt? && !e.Reserve? && !e.CommitFails? && !e.Commit? && !e.Pay? && KeyOK(s, k)
    ensures KeyOK(After(s, e), k)
  {
    hide *;
    OthersMoveNoCredit(s, e);
    SameCreditsCount(s, After(s, e), k);
  }

  lemma EventKeepsCount(s: State, e: Event, k: BindingKey)
    requires Shape(s) && Possible(s, e) && KeyOK(s, k)
    requires (e.Adopt? || e.Pay?) ==> e.lease in s.rows && e.lease in s.binding && e.lease in s.paid && LeaseOK(s, e.lease)
    ensures KeyOK(After(s, e), k)
  {
    hide Shape, Possible, KeyOK, LeaseOK, After;
    match e
    case Adopt(l) => AdoptCounts(s, l, k);
    case Reserve(key) => ReserveCounts(s, key, k);
    case CommitFails(key) => CommitFailsCounts(s, key, k);
    case Commit(key, l) => CommitCounts(s, key, l, k);
    case Pay(l) => PayCounts(s, l, k);
    case _ => OthersCount(s, e, k);
  }

  // ---- every run ----

  ghost predicate Next(s: State, e: Event, t: State) { Possible(s, e) && InTime(s, e) && t == After(s, e) }

  lemma NextInv(s: State, e: Event, t: State)
    requires Inv(s) && Next(s, e, t)
    ensures Inv(t)
  {
    forall l ensures Shape(t) && (l in t.rows ==> LeaseOK(t, l)) {
      assert l in s.rows ==> LeaseOK(s, l);
      assert e.Adopt? ==> LeaseOK(s, e.lease);
      EventKeepsLease(s, e, l);
    }
    forall k ensures KeyOK(t, k) {
      assert KeyOK(s, k);
      assert (e.Adopt? || e.Pay?) ==> LeaseOK(s, e.lease);
      EventKeepsCount(s, e, k);
    }
  }

  /** A process that has just started: nothing admitted, nothing owned, some leases to adopt. */
  ghost predicate Init(s: State) {
    && Shape(s) && s.active == map[] && s.reserved == map[]
    && s.newborn == {} && s.owners == map[] && s.stale == {} && s.credited == {} && !s.abandoning
    && (forall l :: l in s.rows ==> s.paid[l] == 0 && (s.rows[l] != Released ==> l in s.unadopted))
  }

  lemma InitInv(s: State)
    requires Init(s)
    ensures Inv(s)
  {
    forall k ensures KeyOK(s, k) {
      assert Held(s, k) == {};
    }
  }

  ghost predicate Run(ss: seq<State>, es: seq<Event>) {
    && |ss| == |es| + 1 && Init(ss[0])
    && forall i {:trigger es[i]} :: 0 <= i < |es| ==> Next(ss[i], es[i], ss[i + 1])
  }

  lemma {:induction false} RunInv(ss: seq<State>, es: seq<Event>, n: nat)
    requires Run(ss, es) && n < |ss|
    ensures Inv(ss[n])
  {
    if n == 0 {
      InitInv(ss[0]);
    } else {
      RunInv(ss, es, n - 1);
      NextInv(ss[n - 1], es[n - 1], ss[n]);
    }
  }

  /** The live leases of a binding. */
  ghost function Live(s: State, k: BindingKey): set<LeaseID>
    requires s.rows.Keys == s.binding.Keys
  {
    set l | l in s.rows && s.rows[l] != Released && s.binding[l] == Some(k)
  }

  lemma {:induction false} SubsetIsSmaller<T>(a: set<T>, b: set<T>)
    requires a <= b
    ensures |a| <= |b|
  {
    if a != {} {
      var x :| x in a;
      SubsetIsSmaller(a - {x}, b - {x});
    }
  }

  /** In every interleaving, at every moment. */
  lemma CreditsAreConserved(ss: seq<State>, es: seq<Event>, n: nat)
    requires Run(ss, es) && n < |ss|
    ensures Shape(ss[n])
    ensures forall l :: l in ss[n].rows ==> ss[n].paid[l] <= 1
    ensures forall l :: l in ss[n].rows && ss[n].paid[l] == 1 ==> ss[n].rows[l] == Released
    ensures ss[n].unadopted == {} ==> forall k :: |Live(ss[n], k)| <= Count(ss[n].active, k)
    ensures forall k :: Count(ss[n].active, k) == Count(ss[n].reserved, k) + |Held(ss[n], k)|
  {
    RunInv(ss, es, n);
    var s := ss[n];
    forall k ensures Count(s.active, k) == Count(s.reserved, k) + |Held(s, k)| {
      assert KeyOK(s, k);
    }
    assert forall l :: l in s.rows ==> LeaseOK(s, l);
    if s.unadopted == {} {
      forall k ensures |Live(s, k)| <= Count(s.active, k) {
        assert KeyOK(s, k);
        SubsetIsSmaller(Live(s, k), Held(s, k));
      }
    }
  }

  // ---- and credits do come back ----

  lemma Then(ss: seq<State>, es: seq<Event>, e: Event) returns (ss': seq<State>, es': seq<Event>)
    requires Run(ss, es) && Possible(ss[|es|], e) && InTime(ss[|es|], e)
    ensures Run(ss', es') && |ss'| == |es'| + 1 && ss <= ss' && es' == es + [e] && ss'[|es'|] == After(ss[|es|], e)
  {
    hide Init;
    ss', es' := ss + [After(ss[|es|], e)], es + [e];
    forall i {:trigger es'[i]} | 0 <= i < |es'| ensures Next(ss'[i], es'[i], ss'[i + 1]) {
      if i < |es| {
        assert es'[i] == es[i];
      }
    }
  }

  /** `k` holds a credit for every lease of its own that is not paid for. */
  lemma UnpaidIsHeld(s: State, l: LeaseID, k: BindingKey)
    requires Inv(s) && l in s.rows && s.binding[l] == Some(k) && s.paid[l] == 0 && l in s.credited
    ensures Count(s.active, k) >= 1
  {
    assert KeyOK(s, k) && l in Held(s, k);
    SubsetIsSmaller({l}, Held(s, k));
  }

  /** The credit of `l` came back between the two states: once, and nobody has a claim on it. */
  ghost predicate CameBack(s: State, t: State, l: LeaseID, k: BindingKey) {
    && l in t.rows && t.rows[l] == Released && l in t.paid && t.paid[l] == 1 && l !in t.owners
    && Count(t.active, k) == Count(s.active, k) - 1
  }

  /** An owner whose row is released goes on to pay, and leaves. */
  lemma PaysAndLeaves(ss: seq<State>, es: seq<Event>, l: LeaseID, k: BindingKey) returns (ss': seq<State>, es': seq<Event>)
    requires Run(ss, es) && Owned(ss[|es|], l, Reading) && ss[|es|].rows[l] == Released && ss[|es|].binding[l] == Some(k)
    ensures Run(ss', es') && |ss'| == |es'| + 1 && ss <= ss' && CameBack(ss[|es|], ss'[|es'|], l, k)
  {
    hide Run, Inv, Possible, InTime, After, CameBack;
    Unpaid(ss, es, l, k);
    PayingSteps(ss[|es|], l, k);
    ss', es' := Then(ss, es, ReadRow(l, true));
    ss', es' := Then(ss', es', Pay(l));
    ss', es' := Then(ss', es', Leave(l));
  }

  lemma PayingSteps(s: State, l: LeaseID, k: BindingKey)
    requires Owned(s, l, Reading) && s.rows[l] == Released && s.binding[l] == Some(k)
    requires l in s.paid && s.paid[l] == 0 && Count(s.active, k) >= 1
    ensures Possible(s, ReadRow(l, true)) && InTime(s, ReadRow(l, true))
    ensures var a := After(s, ReadRow(l, true));
            Possible(a, Pay(l)) && InTime(a, Pay(l))
            && var b := After(a, Pay(l)); Possible(b, Leave(l)) && InTime(b, Leave(l)) && CameBack(s, After(b, Leave(l)), l, k)
  {
  }

  lemma Unpaid(ss: seq<State>, es: seq<Event>, l: LeaseID, k: BindingKey)
    requires Run(ss, es) && Owned(ss[|es|], l, Reading) && ss[|es|].binding[l] == Some(k)
    ensures |ss| == |es| + 1
    ensures var s := ss[|es|]; l in s.paid && s.paid[l] == 0 && Count(s.active, k) >= 1
  {
    RunInv(ss, es, |es|);
    assert LeaseOK(ss[|es|], l);
    UnpaidIsHeld(ss[|es|], l, k);
  }

  /** From any moment of any run: a lease its owner has driven to released gets its credit back. */
  lemma FinishedLeaseReturnsItsCredit(ss: seq<State>, es: seq<Event>, l: LeaseID, k: BindingKey) returns (ss': seq<State>, es': seq<Event>)
    requires Run(ss, es) && Owned(ss[|es|], l, Driving) && ss[|es|].rows[l] == Released && ss[|es|].binding[l] == Some(k)
    ensures Run(ss', es') && |ss'| == |es'| + 1 && ss <= ss' && CameBack(ss[|es|], ss'[|es'|], l, k)
  {
    hide Run, Inv;
    ss', es' := Then(ss, es, Finish(l));
    ss', es' := PaysAndLeaves(ss', es', l, k);
  }

  /** And a live lease nobody drives any more is resolved by a retry pass, whatever state it was left in. */
  lemma StrandedLeaseReturnsItsCredit(ss: seq<State>, es: seq<Event>, l: LeaseID, k: BindingKey) returns (ss': seq<State>, es': seq<Event>)
    requires Run(ss, es) && l in ss[|es|].rows && ss[|es|].rows[l] != Released && l in ss[|es|].binding && ss[|es|].binding[l] == Some(k)
    requires l !in ss[|es|].owners && l !in ss[|es|].newborn && ss[|es|].unadopted == {} && !ss[|es|].abandoning
    ensures Run(ss', es') && |ss'| == |es'| + 1 && ss <= ss' && CameBack(ss[|es|], ss'[|es'|], l, k)
  {
    hide Run, Inv;
    ss', es' := Then(ss, es, PassReads({l}));
    ss', es' := Then(ss', es', PassClaims(l));
    ss', es' := Then(ss', es', ToCleaning(l));
    ss', es' := Then(ss', es', Finalize(l));
    ss', es' := PaysAndLeaves(ss', es', l, k);
  }

  // ---- why admission must claim in time ----

  ghost function Played(s: State, es: seq<Event>): Option<State> {
    if es == [] then Some(s)
    else
      match Played(s, es[..|es| - 1])
      case None => None
      case Some(t) => if Possible(t, es[|es| - 1]) then Some(After(t, es[|es| - 1])) else None
  }

  lemma Play(s: State, es: seq<Event>, t: State, e: Event) returns (es': seq<Event>, t': State)
    requires Played(s, es) == Some(t) && Possible(t, e)
    ensures t' == After(t, e) && Played(s, es') == Some(t')
  {
    es', t' := es + [e], After(t, e);
    assert es'[..|es|] == es;
  }

  lemma PassClaimsFirst(s: State, k: BindingKey, l: LeaseID) returns (es: seq<Event>, t: State)
    requires Init(s) && s.unadopted == {} && l !in s.rows
    ensures Played(s, es) == Some(t)
    ensures l in t.newborn && Owned(t, l, Recovering) && t.rows[l] == Reserved && t.binding[l] == Some(k)
    ensures l in t.paid && t.paid[l] == 0 && !t.abandoning
  {
    es, t := [], s;
    es, t := Play(s, es, t, Reserve(k));
    es, t := Play(s, es, t, Commit(k, l));
    es, t := Play(s, es, t, PassReads({l}));
    es, t := Play(s, es, t, PassClaims(l));
  }

  lemma PassFinalizesFirst(s: State, k: BindingKey, l: LeaseID) returns (es: seq<Event>, t: State)
    requires Init(s) && s.unadopted == {} && l !in s.rows
    ensures Played(s, es) == Some(t)
    ensures l in t.newborn && Owned(t, l, Paying) && t.rows[l] == Released && t.binding[l] == Some(k)
    ensures l in t.paid && t.paid[l] == 0
  {
    es, t := PassClaimsFirst(s, k, l);
    es, t := Play(s, es, t, ToCleaning(l));
    es, t := Play(s, es, t, Finalize(l));
    es, t := Play(s, es, t, ReadRow(l, true));
  }

  /** A pass that claims a lease before its admission does pays for it and leaves it unclaimed. */
  lemma PassPaysFirst(s: State, k: BindingKey, l: LeaseID) returns (es: seq<Event>, t: State)
    requires Init(s) && s.unadopted == {} && l !in s.rows
    ensures Played(s, es) == Some(t)
    ensures l in t.newborn && l !in t.owners && l in t.rows && t.rows[l] == Released
    ensures l in t.binding && t.binding[l] == Some(k) && l in t.paid && t.paid[l] == 1
  {
    es, t := PassFinalizesFirst(s, k, l);
    es, t := Play(s, es, t, Pay(l));
    es, t := Play(s, es, t, Leave(l));
  }

  /** Without the grace period the same credit is given back twice. */
  lemma LateClaimPaysTwice(s: State, k: BindingKey, l: LeaseID)
    requires Init(s) && s.unadopted == {} && l !in s.rows
    ensures exists es, t :: Played(s, es) == Some(t) && l in t.paid && t.paid[l] == 2
  {
    var es, t := PassPaysFirst(s, k, l);
    es, t := Play(s, es, t, Claim(l));
    es, t := Play(s, es, t, Finish(l));
    es, t := Play(s, es, t, ReadRow(l, true));
    es, t := Play(s, es, t, Pay(l));
  }
}
