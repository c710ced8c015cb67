/**
 Durable intents around external effects.

 `Durable` is what survives a crash: the intent rows, the daemon's objects and the leases'
 states. Every transaction and every daemon call is one step, and `trail` keeps the state
 after each of them, so a property of the whole trail is a property of every crash point.
 */
module Resources {
  import opened Base
  import opened LeaseMachine

  datatype Kind = Container | Network | Volume

  datatype ResourceState = Planned | Creating | Present | CleanupPending | Deleting

  datatype Handle = ById(id: nat) | ByName(name: string)

  datatype Intent = Intent(lease: LeaseID, kind: Kind, name: string, dockerID: Option<nat>, state: ResourceState)
  {
    /** The confirmed id, or the deterministic name an unconfirmed object still has. */
    function Handle(): Handle {
      match dockerID
      case Some(id) => ById(id)
      case None => ByName(name)
    }
  }

  /** `owner` is read off the object's labels; a foreign object has none of ours. */
  datatype Object = Object(kind: Kind, name: string, id: nat, owner: Option<LeaseID>)

  datatype Durable = Durable(intents: map<nat, Intent>, objects: set<Object>, leases: map<LeaseID, LeaseState>)

  predicate Answers(o: Object, kind: Kind, h: Handle) {
    o.kind == kind && (match h case ById(id) => o.id == id case ByName(name) => o.name == name)
  }

  predicate Finds(i: Intent, o: Object) { o.owner == Some(i.lease) && Answers(o, i.kind, i.Handle()) }

  /** An intent leads to it, and had said it was about to create it. */
  ghost predicate Reachable(d: Durable, o: Object) {
    exists i :: i in d.intents && Leads(d.intents[i], o)
  }

  predicate Leads(i: Intent, o: Object) { Finds(i, o) && !i.state.Planned? }

  /** No lease of ours owns an object that none of its intents leads to. */
  ghost predicate NothingLost(d: Durable) {
    forall o {:trigger Reachable(d, o)} :: o in d.objects && o.owner.Some? ==> Reachable(d, o)
  }

  /** A released lease has no intent left, and so no object. */
  ghost predicate ReleasedIsEmpty(d: Durable) {
    forall i :: i in d.intents ==> d.intents[i].lease in d.leases && d.leases[d.intents[i].lease] != Released
  }

  ghost predicate UniqueNames(d: Durable) {
    forall o, p :: o in d.objects && p in d.objects && o.kind == p.kind && (o.id == p.id || o.name == p.name) ==> o == p
  }

  ghost predicate Safe(d: Durable) { NothingLost(d) && ReleasedIsEmpty(d) && UniqueNames(d) }

  ghost function ObjectsOf(d: Durable, l: LeaseID): set<Object> {
    set o | o in d.objects && o.owner == Some(l)
  }

  /** In a safe state no object of a released lease remains. */
  lemma ReleasedOwnsNothing(d: Durable, l: LeaseID)
    requires Safe(d) && l in d.leases && d.leases[l] == Released
    ensures ObjectsOf(d, l) == {}
  {
    forall o | o in d.objects && o.owner.Some? ensures o.owner != Some(l) {
      assert Reachable(d, o);
      var i :| i in d.intents && Leads(d.intents[i], o);
    }
  }

  // ---- steps ----

  function WithIntent(d: Durable, i: nat, x: Intent): Durable { d.(intents := d.intents[i := x]) }

  lemma PlanIsSafe(d: Durable, i: nat, x: Intent)
    requires Safe(d) && i !in d.intents && x.lease in d.leases && d.leases[x.lease] != Released
    ensures Safe(WithIntent(d, i, x))
  {
    StaysFound(d, WithIntent(d, i, x));
  }

  /** Whatever was found before still is, if every intent that found an object still has its handle. */
  lemma StaysFound(d: Durable, e: Durable)
    requires NothingLost(d) && e.objects <= d.objects
    requires forall i :: i in d.intents ==> i in e.intents && SameHandle(d.intents[i], e.intents[i])
    requires forall i :: i in d.intents && e.intents[i].state.Planned? ==> d.intents[i].state.Planned?
    ensures NothingLost(e)
  {
    forall o | o in e.objects && o.owner.Some? ensures Reachable(e, o) {
      assert Reachable(d, o);
      var i :| i in d.intents && Leads(d.intents[i], o);
      assert Leads(e.intents[i], o);
    }
  }

  predicate SameHandle(x: Intent, y: Intent) { x.lease == y.lease && x.kind == y.kind && x.Handle() == y.Handle() }

  lemma MarkIsSafe(d: Durable, i: nat, s: ResourceState)
    requires Safe(d) && i in d.intents && !s.Planned?
    ensures Safe(WithIntent(d, i, d.intents[i].(state := s)))
  {
    StaysFound(d, WithIntent(d, i, d.intents[i].(state := s)));
  }

  /** An object is created only under an intent that already names it. */
  lemma CreateIsSafe(d: Durable, i: nat, o: Object)
    requires Safe(d) && i in d.intents && Leads(d.intents[i], o)
    requires forall p :: p in d.objects && p.kind == o.kind ==> p.name != o.name && p.id != o.id
    ensures Safe(d.(objects := d.objects + {o}))
  {
    var e := d.(objects := d.objects + {o});
    forall p | p in e.objects && p.owner.Some? ensures Reachable(e, p) {
      if p == o {
        assert Leads(e.intents[i], p);
      } else {
        assert Reachable(d, p);
        var j :| j in d.intents && Leads(d.intents[j], p);
        assert Leads(e.intents[j], p);
      }
    }
  }

  /** The object intent `i` leads to exists and has this id. */
  ghost predicate Made(d: Durable, i: nat, id: nat)
    requires i in d.intents
  {
    && (exists o :: o in d.objects && Finds(d.intents[i], o) && o.id == id)
    && (forall o :: o in d.objects && Finds(d.intents[i], o) ==> o.id == id)
  }

  /** Confirming swaps the name for the id of the one object that has the name. */
  lemma ConfirmIsSafe(d: Durable, i: nat, id: nat)
    requires Safe(d) && i in d.intents && d.intents[i].dockerID.None?
    requires forall o :: o in d.objects && Finds(d.intents[i], o) ==> o.id == id
    ensures Safe(WithIntent(d, i, d.intents[i].(dockerID := Some(id), state := Present)))
  {
    var e := WithIntent(d, i, d.intents[i].(dockerID := Some(id), state := Present));
    forall o | o in e.objects && o.owner.Some? ensures Reachable(e, o) {
      assert Reachable(d, o);
      var j :| j in d.intents && Leads(d.intents[j], o);
      assert Leads(e.intents[j], o);
    }
  }

  lemma RemoveIsSafe(d: Durable, gone: set<Object>)
    requires Safe(d)
    ensures Safe(d.(objects := d.objects - gone))
  {
    StaysFound(d, d.(objects := d.objects - gone));
  }

  /** A row is forgotten only once nothing it leads to is left. */
  lemma ForgetIsSafe(d: Durable, i: nat)
    requires Safe(d) && i in d.intents && forall o :: o in d.objects ==> !Finds(d.intents[i], o)
    ensures Safe(d.(intents := d.intents - {i}))
  {
    var e := d.(intents := d.intents - {i});
    forall o | o in e.objects && o.owner.Some? ensures Reachable(e, o) {
      assert Reachable(d, o);
      var j :| j in d.intents && Leads(d.intents[j], o);
      assert Leads(e.intents[j], o);
    }
  }

  lemma ReleaseIsSafe(d: Durable, l: LeaseID, s: LeaseState)
    requires Safe(d) && l in d.leases && (s == Released ==> forall i :: i in d.intents ==> d.intents[i].lease != l)
    requires d.leases[l] != Released
    ensures Safe(d.(leases := d.leases[l := s]))
  {
    StaysFound(d, d.(leases := d.leases[l := s]));
  }

  /** From `d` to `e` at most intent `i` went, or changed its state, and at most what it led to, once marked for it. */
  ghost predicate Thinner(d: Durable, e: Durable, i: nat)
    requires i in d.intents
  {
    && e.leases == d.leases && e.objects <= d.objects
    && (forall j :: j in d.intents && j != i ==> j in e.intents && e.intents[j] == d.intents[j])
    && (forall j :: j in e.intents ==> j in d.intents && SameHandle(e.intents[j], d.intents[j]))
    && (forall o :: o in d.objects - e.objects ==> Finds(d.intents[i], o))
    && (i !in e.intents ==> forall o :: o in e.objects ==> !Finds(d.intents[i], o))
    && (e.objects != d.objects && i in e.intents ==> e.intents[i].state.Deleting?)
  }

  lemma ThinnerStill(d: Durable, e: Durable, f: Durable, i: nat)
    requires i in d.intents && i in e.intents && e.objects == d.objects && Thinner(d, e, i) && Thinner(e, f, i)
    ensures Thinner(d, f, i)
  {
    assert SameHandle(e.intents[i], d.intents[i]);
    forall o | o in d.objects - f.objects ensures Finds(d.intents[i], o) {
      assert o in e.objects - f.objects;
    }
  }

  predicate OfKind(d: Durable, i: nat, l: LeaseID, k: Kind) {
    i in d.intents && d.intents[i].lease == l && d.intents[i].kind == k
  }

  /** The intents of one kind, oldest first. */
  function IdsOf(d: Durable, l: LeaseID, k: Kind, n: nat): seq<nat> {
    if n == 0 then [] else IdsOf(d, l, k, n - 1) + (if OfKind(d, n - 1, l, k) then [n - 1] else [])
  }

  lemma {:induction false} IdsOfKind(d: Durable, l: LeaseID, k: Kind, n: nat)
    ensures forall i: nat :: i in IdsOf(d, l, k, n) <==> i < n && OfKind(d, i, l, k)
    ensures Base.Distinct(IdsOf(d, l, k, n))
  {
    if n > 0 {
      IdsOfKind(d, l, k, n - 1);
      var before := IdsOf(d, l, k, n - 1);
      assert forall a :: 0 <= a < |before| ==> before[a] in before;
    }
  }

  /** Once a network or volume comes up, no container is left to come. */
  ghost predicate ContainersLead(d: Durable, ids: seq<nat>)
    requires forall i :: i in ids ==> i in d.intents
  {
    forall a, b :: 0 <= a < b < |ids| && d.intents[ids[b]].kind.Container? ==> d.intents[ids[a]].kind.Container?
  }

  lemma IdsInOrder(d: Durable, l: LeaseID, n: nat)
    requires forall i :: i in d.intents ==> i < n
    ensures var ids := IdsOf(d, l, Container, n) + IdsOf(d, l, Network, n) + IdsOf(d, l, Volume, n);
            && Base.Distinct(ids)
            && (forall i :: i in ids <==> i in d.intents && d.intents[i].lease == l)
            && ContainersLead(d, ids)
  {
    var containers, rest := IdsOf(d, l, Container, n), IdsOf(d, l, Network, n) + IdsOf(d, l, Volume, n);
    IdsOfKind(d, l, Container, n);
    IdsOfKind(d, l, Network, n);
    IdsOfKind(d, l, Volume, n);
    DistinctTogether(IdsOf(d, l, Network, n), IdsOf(d, l, Volume, n));
    DistinctTogether(containers, rest);
    assert containers + rest == containers + IdsOf(d, l, Network, n) + IdsOf(d, l, Volume, n);
    forall b | |containers| <= b < |containers + rest| ensures (containers + rest)[b] in d.intents && !d.intents[(containers + rest)[b]].kind.Container? {
      assert (containers + rest)[b] == rest[b - |containers|] && rest[b - |containers|] in rest;
    }
    forall a | 0 <= a < |containers| ensures OfKind(d, (containers + rest)[a], l, Container) {
      assert (containers + rest)[a] == containers[a] && containers[a] in containers;
    }
  }

  lemma DistinctTogether(a: seq<nat>, b: seq<nat>)
    requires Base.Distinct(a) && Base.Distinct(b) && forall x :: x in a ==> x !in b
    ensures Base.Distinct(a + b)
  {
    forall i, j | 0 <= i < j < |a + b| ensures (a + b)[i] != (a + b)[j] {
      if i < |a| <= j {
        assert a[i] in a && b[j - |a|] in b;
      }
    }
  }

  /** A network or volume of the lease is gone only if none of its containers is left. */
  ghost predicate ContainersFirst(before: Durable, d: Durable, l: LeaseID) {
    && d.objects <= before.objects
    && ((exists o :: o in before.objects - d.objects && o.owner == Some(l) && !o.kind.Container?) ==>
         forall i :: i in d.intents ==> !(d.intents[i].lease == l && d.intents[i].kind.Container?))
  }

  ghost predicate HoldersKept(start: Durable, d: Durable, l: LeaseID) {
    forall o :: o in start.objects && o.owner == Some(l) && !o.kind.Container? ==> o in d.objects
  }

  /** A removal pass over `ids` that has come to place `k`. */
  ghost predicate Stage(start: Durable, d: Durable, l: LeaseID, ids: seq<nat>, k: nat)
    requires k <= |ids| && forall i :: i in ids ==> i in start.intents
  {
    && d.leases == start.leases && d.objects <= start.objects
    && (forall o :: o in start.objects - d.objects ==> o.owner == Some(l))
    && (forall i :: i in d.intents ==> i in start.intents && SameHandle(d.intents[i], start.intents[i]))
    && (forall i :: i in d.intents && d.intents[i].lease == l ==> i in ids[k..])
    && (forall j :: k <= j < |ids| ==> ids[j] in d.intents && d.intents[ids[j]].lease == l)
    && (k < |ids| && start.intents[ids[k]].kind.Container? ==> HoldersKept(start, d, l))
  }

  /** Every crash point of one removal has the containers gone before anything that holds them. */
  lemma RemovalStep(start: Durable, d: Durable, e: Durable, l: LeaseID, ids: seq<nat>, k: nat)
    requires k < |ids| && (forall i :: i in ids ==> i in start.intents) && ContainersLead(start, ids)
    requires Stage(start, d, l, ids, k) && ids[k] in d.intents && Thinner(d, e, ids[k])
    ensures ContainersFirst(start, e, l)
  {
    if start.intents[ids[k]].kind.Container? {
      forall o | o in start.objects - e.objects && o.owner == Some(l) ensures o.kind.Container? {
        if o in d.objects {
          assert o in d.objects - e.objects;
        }
      }
    } else {
      forall i | i in e.intents && e.intents[i].lease == l ensures !e.intents[i].kind.Container? {
        assert SameHandle(e.intents[i], d.intents[i]) && SameHandle(d.intents[i], start.intents[i]);
        var j :| k <= j < |ids| && ids[j] == i;
      }
    }
  }

  lemma StageForeign(start: Durable, d: Durable, l: LeaseID, ids: seq<nat>, k: nat)
    requires k < |ids| && (forall i :: i in ids ==> i in start.intents)
    requires Stage(start, d, l, ids, k)
    ensures d.leases == start.leases && ids[k] in d.intents && Foreign(d, ids[k]) == Foreign(start, ids[k])
  {
    hide Foreign;
    assert ids[k] in ids;
    ForeignStays(start, d, ids[k]);
  }

  lemma StageEnds(start: Durable, d: Durable, l: LeaseID, ids: seq<nat>)
    requires (forall i :: i in ids ==> i in start.intents) && Stage(start, d, l, ids, |ids|)
    ensures d.leases == start.leases && forall i :: i in d.intents ==> d.intents[i].lease != l
  {
    assert ids[|ids|..] == [];
  }

  lemma RemovalAdvances(start: Durable, d: Durable, e: Durable, l: LeaseID, ids: seq<nat>, k: nat)
    requires k < |ids| && (forall i :: i in ids ==> i in start.intents) && ContainersLead(start, ids) && Base.Distinct(ids)
    requires Stage(start, d, l, ids, k) && ids[k] in d.intents && Thinner(d, e, ids[k]) && ids[k] !in e.intents
    ensures Stage(start, e, l, ids, k + 1)
  {
    forall i | i in e.intents ensures i in start.intents && SameHandle(e.intents[i], start.intents[i]) {
      assert SameHandle(e.intents[i], d.intents[i]);
    }
    forall o | o in start.objects - e.objects ensures o.owner == Some(l) {
      assert o in start.objects - d.objects || o in d.objects - e.objects;
    }
    if k + 1 < |ids| && start.intents[ids[k + 1]].kind.Container? {
      assert start.intents[ids[k]].kind.Container?;
      forall o | o in start.objects && o.owner == Some(l) && !o.kind.Container? ensures o in e.objects {
        assert o in d.objects && SameHandle(d.intents[ids[k]], start.intents[ids[k]]);
        assert o in d.objects - e.objects ==> Finds(d.intents[ids[k]], o);
      }
    }
  }

  // ---- the lease manager and the launcher, step by step ----

  datatype Outcome<T> = Ok(value: T) | Err

  /** What becomes of a call to the daemon: one that took effect may still go unanswered. */
  datatype Call = Takes | Unanswered | Fails

  /** What one creation meets: its transactions commit or not, the daemon answers or not. */
  datatype Creation = Creation(plans: bool, marks: bool, create: Call, inspects: bool, confirms: bool)

  /** What the removal of one intent meets. */
  datatype Removal = Removal(marks: bool, remove: Call, forgets: bool)
  {
    predicate Clear() { marks && remove.Takes? && forgets }
  }

  predicate Intended(d: Durable, lease: LeaseID, kind: Kind, name: string) {
    exists i :: i in d.intents && d.intents[i].lease == lease && d.intents[i].kind == kind && d.intents[i].name == name
  }

  /** An object of this kind has the name; `owner` has it. */
  predicate Taken(d: Durable, kind: Kind, name: string) {
    exists o :: o in d.objects && o.kind == kind && o.name == name
  }

  predicate TakenBy(d: Durable, kind: Kind, name: string, owner: LeaseID) {
    exists o :: o in d.objects && o.kind == kind && o.name == name && o.owner == Some(owner)
  }

  /** The object behind the name can be had: made now, or recognized as the lease's own. */
  predicate Obtains(d: Durable, lease: LeaseID, kind: Kind, name: string, create: Call, inspects: bool) {
    if Taken(d, kind, name) then inspects && TakenBy(d, kind, name, lease) else create.Takes?
  }

  lemma ObtainsAlike(d: Durable, e: Durable, lease: LeaseID, kind: Kind, name: string, create: Call, inspects: bool)
    requires e.objects == d.objects
    ensures Obtains(e, lease, kind, name, create, inspects) == Obtains(d, lease, kind, name, create, inspects)
  {
  }

  /** Somebody else's object answers to the intent's handle. */
  predicate Foreign(d: Durable, i: nat)
    requires i in d.intents
  {
    exists o :: o in d.objects && Answers(o, d.intents[i].kind, d.intents[i].Handle()) && o.owner != Some(d.intents[i].lease)
  }

  /** Removal takes a lease's own objects only, so whose an object is does not change under it. */
  lemma ForeignStays(d: Durable, e: Durable, i: nat)
    requires i in d.intents && i in e.intents && SameHandle(e.intents[i], d.intents[i]) && e.objects <= d.objects
    requires forall o :: o in d.objects - e.objects ==> o.owner == Some(d.intents[i].lease)
    ensures Foreign(e, i) == Foreign(d, i)
  {
    if Foreign(d, i) {
      var o :| o in d.objects && Answers(o, d.intents[i].kind, d.intents[i].Handle()) && o.owner != Some(d.intents[i].lease);
      assert o in e.objects;
    }
  }

  class Host {
    var durable: Durable
    var nextIntent: nat
    var nextObject: nat
    ghost var trail: seq<Durable>

    ghost predicate Valid()
      reads this
    {
      && Safe(durable)
      && (forall i :: i in durable.intents ==> i < nextIntent)
      && (forall o :: o in durable.objects ==> o.id < nextObject)
      && (forall d :: d in trail ==> Safe(d))
    }

    /** A host with these leases and nothing of theirs yet. */
    constructor (leases: map<LeaseID, LeaseState>)
      ensures Valid() && durable == Durable(map[], {}, leases) && trail == [durable]
    {
      durable := Durable(map[], {}, leases);
      nextIntent, nextObject := 0, 0;
      trail := [Durable(map[], {}, leases)];
    }

    /** The trail only grows: earlier crash points stay where they were. */
    twostate predicate Extends()
      reads this
    {
      old(trail) <= trail
    }

    method Step(d: Durable)
      requires Valid() && Safe(d)
      requires forall i :: i in d.intents ==> i < nextIntent
      requires forall o :: o in d.objects ==> o.id < nextObject
      modifies this`durable, this`trail
      ensures Valid() && durable == d && trail == old(trail) + [d]
    {
      durable := d;
      trail := trail + [d];
    }

    /** Commits the intention to create one object, before any external effect. */
    method Plan(lease: LeaseID, kind: Kind, name: string, commits: bool) returns (r: Outcome<nat>)
      requires Valid() && lease in durable.leases && durable.leases[lease] != Released
      modifies this
      ensures Valid() && Extends() && (r.Ok? <==> commits && !Intended(old(durable), lease, kind, name))
      ensures r.Ok? ==> r.value !in old(durable).intents
                        && durable == WithIntent(old(durable), r.value, Intent(lease, kind, name, None, Planned))
      ensures r.Err? ==> durable == old(durable)
      ensures nextObject == old(nextObject)
    {
      if !commits || Intended(durable, lease, kind, name) {
        return Err;
      }
      var x := Intent(lease, kind, name, None, Planned);
      PlanIsSafe(durable, nextIntent, x);
      nextIntent := nextIntent + 1;
      Step(WithIntent(durable, nextIntent - 1, x));
      return Ok(nextIntent - 1);
    }
  
    method Mark(i: nat, state: ResourceState, commits: bool)
      requires Valid() && i in durable.intents && !state.Planned?
      modifies this`durable, this`trail
      ensures Valid() && Extends() && |trail| <= old(|trail|) + 1 && (forall n :: old(|trail|) <= n < |trail| ==> trail[n] == durable)
      ensures durable == if commits then WithIntent(old(durable), i, old(durable).intents[i].(state := state)) else old(durable)
      ensures Thinner(old(durable), durable, i)
    {
      if commits {
        MarkIsSafe(durable, i, state);
        Step(WithIntent(durable, i, durable.intents[i].(state := state)));
      }
    }

    /** The daemon's answer to a create: made, refused because the name is taken, or no answer worth having. */
    method DaemonCreate(i: nat, call: Call) returns (r: Outcome<Option<nat>>)
      requires Valid() && i in durable.intents && durable.intents[i].dockerID.None? && durable.intents[i].state.Creating?
      modifies this`durable, this`trail, this`nextObject
      ensures Valid() && Extends() && durable.intents == old(durable).intents && durable.leases == old(durable).leases
      ensures old(durable).objects <= durable.objects
      ensures var x := old(durable).intents[i];
              if Taken(old(durable), x.kind, x.name) then r == Ok(None) && durable == old(durable)
              else if call.Takes? then r.Ok? && r.value.Some? && Made(durable, i, r.value.value) else r == Err
    {
      var x := durable.intents[i];
      if Taken(durable, x.kind, x.name) {
        return Ok(None);
      }
      if !call.Fails? {
        var o := Object(x.kind, x.name, nextObject, Some(x.lease));
        CreateIsSafe(durable, i, o);
        nextObject := nextObject + 1;
        Step(durable.(objects := durable.objects + {o}));
      }
      return if call.Takes? then Ok(Some(nextObject - 1)) else Err;
    }

    /** A taken name is resolved by proven ownership: ours from an earlier try, or somebody else's. */
    method Resolve(i: nat, answers: bool) returns (r: Outcome<Option<nat>>)
      requires Valid() && i in durable.intents && durable.intents[i].dockerID.None?
      ensures r.Ok? && r.value.Some? ==> Made(durable, i, r.value.value)
      ensures var x := durable.intents[i];
              && (r.Err? <==> !answers || (Taken(durable, x.kind, x.name) && !TakenBy(durable, x.kind, x.name, x.lease)))
              && (r.Ok? ==> (r.value.Some? <==> Taken(durable, x.kind, x.name)))
    {
      var x := durable.intents[i];
      if !answers {
        return Err;
      }
      if o :| o in durable.objects && o.kind == x.kind && o.name == x.name {
        if o.owner != Some(x.lease) {
          return Err;
        }
        return Ok(Some(o.id));
      }
      return Ok(None);
    }

    /** The object behind a planned intent: made now, or the lease's own from an earlier try. */
    method CreateOrAdopt(i: nat, call: Call, inspects: bool) returns (id: Option<nat>)
      requires Valid() && i in durable.intents && durable.intents[i].dockerID.None? && durable.intents[i].state.Creating?
      modifies this`durable, this`trail, this`nextObject
      ensures Valid() && Extends() && durable.intents == old(durable).intents && durable.leases == old(durable).leases
      ensures old(durable).objects <= durable.objects
      ensures id.Some? ==> Made(durable, i, id.value)
      ensures var x := old(durable).intents[i]; id.Some? <==> Obtains(old(durable), x.lease, x.kind, x.name, call, inspects)
    {
      hide Safe, Made, Taken, TakenBy;
      var created := DaemonCreate(i, call);
      if created.Err? {
        return None;
      }
      if created.value.Some? {
        return created.value;
      }
      var existing := Resolve(i, inspects);
      return if existing.Err? then None else existing.value;
    }

    /** Creates one object inside its intent; whatever fails, the intent can lead to the object. */
    method Create(lease: LeaseID, kind: Kind, name: string, w: Creation) returns (r: Outcome<nat>)
      requires Valid() && lease in durable.leases && durable.leases[lease] != Released
      modifies this
      ensures Valid() && Extends()
      ensures old(durable).objects <= durable.objects && durable.leases == old(durable).leases
      ensures forall i :: i in old(durable).intents ==> i in durable.intents && durable.intents[i] == old(durable).intents[i]
      ensures r.Ok? ==> exists o :: o in durable.objects && o.id == r.value && o.kind == kind && o.name == name && o.owner == Some(lease)
      ensures r.Ok? ==> exists i :: i in durable.intents && i !in old(durable).intents
                                    && durable.intents[i] == Intent(lease, kind, name, Some(r.value), Present)
      ensures r.Ok? <==> && w.plans && w.marks && w.confirms && !Intended(old(durable), lease, kind, name)
                         && Obtains(old(durable), lease, kind, name, w.create, w.inspects)
    {
      hide Intended, Taken, TakenBy;
      var planned := Plan(lease, kind, name, w.plans);
      if planned.Err? {
        return Err;
      }
      var i := planned.value;
      Mark(i, Creating, w.marks);
      if !w.marks {
        return Err;
      }
      ObtainsAlike(old(durable), durable, lease, kind, name, w.create, w.inspects);
      var id := CreateOrAdopt(i, w.create, w.inspects);
      if id.None? || !w.confirms {
        return Err;
      }
      ConfirmIsSafe(durable, i, id.value);
      Step(WithIntent(durable, i, durable.intents[i].(dockerID := Some(id.value), state := Present)));
      return Ok(id.value);
    }
  
    // ---- removal ----

    /** The daemon removes what the handle names, if it is this lease's; a failed call may have removed it too. */
    method DaemonRemove(i: nat, call: Call) returns (ok: bool)
      requires Valid() && i in durable.intents && durable.intents[i].state.Deleting?
      modifies this`durable, this`trail
      ensures Valid() && Extends() && |trail| <= old(|trail|) + 1 && (forall n :: old(|trail|) <= n < |trail| ==> trail[n] == durable)
      ensures durable.intents == old(durable).intents && Thinner(old(durable), durable, i)
      ensures ok ==> forall o :: o in durable.objects ==> !Finds(durable.intents[i], o)
      ensures ok <==> call.Takes? && !Foreign(old(durable), i)
    {
      var x := durable.intents[i];
      if Foreign(durable, i) {
        return false;
      }
      if !call.Fails? {
        var gone := set o | o in durable.objects && Finds(x, o);
        RemoveIsSafe(durable, gone);
        Step(durable.(objects := durable.objects - gone));
      }
      return call.Takes?;
    }

    /** The second half of a removal, once the row says it is about to happen. */
    method RemoveMarked(i: nat, call: Call, forgets: bool) returns (ok: bool)
      requires Valid() && i in durable.intents && durable.intents[i].state.Deleting?
      modifies this`durable, this`trail
      ensures Valid() && Extends() && (i in durable.intents <==> !ok) && Thinner(old(durable), durable, i)
      ensures forall n :: old(|trail|) <= n < |trail| ==> Thinner(old(durable), trail[n], i)
      ensures ok <==> call.Takes? && forgets && !Foreign(old(durable), i)
    {
      hide Foreign;
      var removed := DaemonRemove(i, call);
      if !removed {
        return false;
      }
      ok := forgets;
      if ok {
        ForgetIsSafe(durable, i);
        Step(durable.(intents := durable.intents - {i}));
      }
    }

    /** Drives one intent to absent: marked, removed, and forgotten once absence is proven. */
    method RemoveIntent(i: nat, w: Removal) returns (ok: bool)
      requires Valid() && i in durable.intents
      modifies this`durable, this`trail
      ensures Valid() && Extends() && (i in durable.intents <==> !ok) && Thinner(old(durable), durable, i)
      ensures forall n :: old(|trail|) <= n < |trail| ==> Thinner(old(durable), trail[n], i)
      ensures durable.leases == old(durable).leases && (ok <==> w.Clear() && !Foreign(old(durable), i))
    {
      hide Foreign;
      Mark(i, Deleting, w.marks);
      if !w.marks {
        return false;
      }
      ForeignStays(old(durable), durable, i);
      ghost var before, from := durable, |trail|;
      ok := RemoveMarked(i, w.remove, w.forgets);
      forall n | from <= n < |trail| ensures Thinner(old(durable), trail[n], i) {
        ThinnerStill(old(durable), before, trail[n], i);
      }
      ThinnerStill(old(durable), before, durable, i);
    }
  
    /** A lease's intents, containers before the network and volumes that hold them. */
    method InOrder(lease: LeaseID) returns (ids: seq<nat>)
      requires Valid()
      ensures Base.Distinct(ids) && forall i :: i in ids <==> i in durable.intents && durable.intents[i].lease == lease
      ensures ContainersLead(durable, ids)
    {
      var containers: seq<nat>, networks: seq<nat>, volumes: seq<nat> := [], [], [];
      for i := 0 to nextIntent
        invariant containers == IdsOf(durable, lease, Container, i)
        invariant networks == IdsOf(durable, lease, Network, i) && volumes == IdsOf(durable, lease, Volume, i)
      {
        if i in durable.intents && durable.intents[i].lease == lease {
          match durable.intents[i].kind
          case Container => containers := containers + [i];
          case Network => networks := networks + [i];
          case Volume => volumes := volumes + [i];
        }
      }
      IdsInOrder(durable, lease, nextIntent);
      ids := containers + networks + volumes;
    }
  
    method MarkCleanup(lease: LeaseID, commits: bool)
      requires Valid()
      modifies this`durable, this`trail
      ensures Valid() && Extends() && |trail| <= old(|trail|) + 1 && (forall n :: old(|trail|) <= n < |trail| ==> trail[n] == durable)
      ensures durable.objects == old(durable).objects && durable.leases == old(durable).leases
      ensures durable.intents.Keys == old(durable).intents.Keys
      ensures forall i :: i in durable.intents ==>
                var was := old(durable).intents[i];
                durable.intents[i] == if commits && was.lease == lease && !was.state.Deleting? then was.(state := CleanupPending) else was
    {
      if commits {
        var queued := durable.(intents := map i | i in durable.intents ::
          (if durable.intents[i].lease == lease && !durable.intents[i].state.Deleting?
           then durable.intents[i].(state := CleanupPending) else durable.intents[i]));
        StaysFound(durable, queued);
        Step(queued);
      }
    }

    method RemoveAll(lease: LeaseID, ids: seq<nat>, w: nat -> Removal) returns (ok: bool)
      requires Valid() && Base.Distinct(ids) && (forall i :: i in ids ==> i in durable.intents)
      requires ContainersLead(durable, ids) && Stage(durable, durable, lease, ids, 0)
      modifies this`durable, this`trail
      ensures Valid() && Extends() && durable.leases == old(durable).leases
      ensures forall n :: old(|trail|) <= n < |trail| ==> ContainersFirst(old(durable), trail[n], lease)
      ensures ok ==> forall i :: i in durable.intents ==> durable.intents[i].lease != lease
      ensures ok <==> forall i :: i in ids ==> w(i).Clear() && !Foreign(old(durable), i)
    {
      hide Foreign, Safe, Stage, ContainersFirst, ContainersLead, Thinner, Base.Distinct;
      for k := 0 to |ids|
        invariant Valid() && Extends() && Stage(old(durable), durable, lease, ids, k)
        invariant forall j :: 0 <= j < k ==> w(ids[j]).Clear() && !Foreign(old(durable), ids[j])
        invariant forall n :: old(|trail|) <= n < |trail| ==> ContainersFirst(old(durable), trail[n], lease)
      {
        ghost var before, from := durable, |trail|;
        StageForeign(old(durable), durable, lease, ids, k);
        var gone := RemoveIntent(ids[k], w(ids[k]));
        forall n | from <= n < |trail| ensures ContainersFirst(old(durable), trail[n], lease) {
          RemovalStep(old(durable), before, trail[n], lease, ids, k);
        }
        if !gone {
          return false;
        }
        RemovalAdvances(old(durable), before, durable, lease, ids, k);
      }
      StageEnds(old(durable), durable, lease, ids);
      return true;
    }

    /** Drives every intent of a lease to absent; it stops at the first that will not go. */
    method RemoveResources(lease: LeaseID, marks: bool, w: nat -> Removal) returns (ok: bool)
      requires Valid()
      modifies this`durable, this`trail
      ensures Valid() && Extends() && durable.leases == old(durable).leases
      ensures forall n :: old(|trail|) <= n < |trail| ==> ContainersFirst(old(durable), trail[n], lease)
      ensures ok ==> forall i :: i in durable.intents ==> durable.intents[i].lease != lease
      ensures ok <==> marks && forall i :: i in old(durable).intents && old(durable).intents[i].lease == lease ==>
                                 w(i).Clear() && !Foreign(old(durable), i)
    {
      hide Foreign;
      MarkCleanup(lease, marks);
      if !marks {
        return false;
      }
      forall i | i in durable.intents ensures Foreign(durable, i) == Foreign(old(durable), i) {
        ForeignStays(old(durable), durable, i);
      }
      var ids := InOrder(lease);
      ok := RemoveAll(lease, ids, w);
    }

    /** The one transaction that ends a capsule's life: only with nothing left to remove. */
    method Finalize(lease: LeaseID, commits: bool) returns (ok: bool)
      requires Valid() && lease in durable.leases
      modifies this`durable, this`trail
      ensures Valid() && Extends()
      ensures ok ==> durable.leases == old(durable).leases[lease := Released] && ObjectsOf(durable, lease) == {}
      ensures !ok ==> durable == old(durable)
      ensures ok <==> && commits && old(durable).leases[lease] == Cleaning
                      && forall i :: i in old(durable).intents ==> old(durable).intents[i].lease != lease
    {
      if !commits || exists i :: i in durable.intents && durable.intents[i].lease == lease {
        return false;
      }
      if !ValidTransition(durable.leases[lease], Released) {
        return false;
      }
      ReleaseIsSafe(durable, lease, Released);
      Step(durable.(leases := durable.leases[lease := Released]));
      ReleasedOwnsNothing(durable, lease);
      return true;
    }
  }
}
