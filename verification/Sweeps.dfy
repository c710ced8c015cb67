/**
 Listing the daemon before reading the books.

 Leases commit, objects are created, leases are released and forgotten while a sweep runs:
 `Interfere` does any number of these between every two steps of it. An object exists only
 under a row that committed before it, and a row that is gone never comes back; so an object
 listed first, whose row is absent from a later read, belongs to nobody, now and later.
 The orphan pass of cache collection rests on the same order, over lane rows and volumes.
 */
module Sweeps {
  import opened Base
  import opened Planning

  type Row(0, ==, !new)

  datatype Kind = Container | Network | Volume

  /**
   `row` is the lease or lane named by the object's labels. `exempt` marks what the pass leaves
   alone: helpers and infrastructure in a sweep, everything but lane volumes in a collection.
   */
  datatype Owned = Owned(id: nat, kind: Kind, row: Option<Row>, exempt: bool)

  datatype Eviction = Busy | Failed | Evicted

  /** What becomes of a removal: one that took effect may still go unanswered. */
  datatype Call = Takes | Unanswered | Fails

  /** What a sweep meets at one object: the daemon's answer, and whether the books can be written. */
  datatype Encounter = Encounter(remove: Call, writes: bool)

  class Host {
    var live: set<Row>
    var objects: set<Owned>
    /** Every row that ever committed: ids are not used again. */
    var ever: set<Row>
    /** The daemon does not use an id again either. */
    var ids: set<nat>
    /** Set when an object of a live row is removed by a sweep. */
    ghost var harmed: bool
    /** What passes of ours asked the daemon to remove. */
    ghost var swept: set<Owned>

    ghost predicate Valid()
      reads this
    {
      live <= ever && (forall o :: o in objects ==> o.id in ids && (o.row.Some? ==> o.row.value in ever)) && !harmed
    }

    constructor ()
      ensures Valid() && live == {} && objects == {}
    {
      live, objects, ever, ids, harmed, swept := {}, {}, {}, {}, false, {};
    }

    /** A row that committed and is not live stays that way; an object that went does not come back. */
    twostate predicate Settled()
      reads this
    {
      && old(ever) <= ever && (forall r :: r in old(ever) && r in live ==> r in old(live))
      && old(ids) <= ids && (forall o :: o in objects && o.id in old(ids) ==> o in old(objects))
    }

    // ---- everybody else ----

    method Commit(row: Row)
      requires Valid() && row !in ever
      modifies this
      ensures Valid() && Settled() && swept == old(swept) && live == old(live) + {row}
    {
      live, ever := live + {row}, ever + {row};
    }

    method CreateObject(o: Owned)
      requires Valid() && (o.row.Some? ==> o.row.value in live) && o.id !in ids
      modifies this
      ensures Valid() && Settled() && swept == old(swept) && objects == old(objects) + {o}
    {
      objects, ids := objects + {o}, ids + {o.id};
    }

    method End(row: Row)
      requires Valid()
      modifies this
      ensures Valid() && Settled() && swept == old(swept) && live == old(live) - {row}
    {
      live := live - {row};
    }

    method DropObject(o: Owned)
      requires Valid()
      modifies this
      ensures Valid() && Settled() && swept == old(swept) && objects == old(objects) - {o}
    {
      objects := objects - {o};
    }

    /** Any number of steps of the rest of the system, in any order. */
    method Interfere()
      requires Valid()
      modifies this
      ensures Valid() && Settled() && swept == old(swept)
    {
      var steps: nat :| true;
      for i := 0 to steps
        invariant Valid() && Settled() && swept == old(swept)
      {
        var which: nat :| true;
        var row: Row :| true;
        var o: Owned :| true;
        if which == 0 && row !in ever {
          Commit(row);
        } else if which == 1 && o.id !in ids && (o.row.None? || o.row.value in live) {
          CreateObject(o);
        } else if which == 2 {
          End(row);
        } else if which == 3 {
          DropObject(o);
        }
      }
    }

    // ---- the sweep ----

    method ListOwned(kind: Kind) returns (found: seq<Owned>)
      requires Valid()
      ensures forall o :: o in found <==> o in objects && o.kind == kind
    {
      found := InSomeOrder(set o | o in objects && o.kind == kind);
      assert forall o :: o in found <==> o in ToSet(found);
    }

    /** The daemon removes the object with this id, whoever owns it. It may do so and still fail to say so. */
    method RemoveObject(o: Owned, call: Call) returns (ok: bool)
      requires Valid()
      modifies this
      ensures harmed == (o.row.Some? && o.row.value in live)
      ensures live == old(live) && ever == old(ever) && ids == old(ids) && swept == old(swept) + {o}
      ensures objects == if call.Fails? then old(objects) else old(objects) - {o}
      ensures ok == call.Takes?
    {
      harmed, swept := o.row.Some? && o.row.value in live, swept + {o};
      if !call.Fails? {
        objects := objects - {o};
      }
      ok := call.Takes?;
    }

    /** What was listed, and not accounted for by a later read, is nobody's. */
    ghost predicate Judged(listed: seq<Owned>, keep: set<Row>)
      reads this
    {
      forall o :: o in listed ==>
        && o.id in ids
        && (o.row.Some? ==> o.row.value in ever && (o.row.value in live ==> o.row.value in keep))
    }

    /** Since then only listed objects were swept, and none that had to be spared. */
    twostate predicate SweptOnly(listed: seq<Owned>, keep: set<Row>)
      reads this
    {
      forall o :: o in swept - old(swept) ==> o in listed && !Spared(o, keep)
    }

    predicate Spared(o: Owned, keep: set<Row>) { o.exempt || (o.row.Some? && o.row.value in keep) }

    /** Stops when the books cannot be written; an object that cannot be removed is counted and passed. */
    method SweepKind(listed: seq<Owned>, keep: set<Row>, w: Owned -> Encounter) returns (ok: bool, wedged: nat)
      requires Valid() && Judged(listed, keep)
      modifies this
      ensures Valid() && Settled() && SweptOnly(listed, keep) && Judged(listed, keep)
      ensures ok && wedged == 0 ==> forall o :: o in listed && !Spared(o, keep) ==> o !in objects
      ensures ok <==> forall o :: o in listed && !Spared(o, keep) && w(o).remove.Takes? ==> w(o).writes
      ensures ok ==> (wedged == 0 <==> forall o :: o in listed && !Spared(o, keep) ==> w(o).remove.Takes?)
    {
      wedged := 0;
      for i := 0 to |listed|
        invariant Valid() && Settled() && Judged(listed, keep) && SweptOnly(listed, keep)
        invariant wedged == 0 ==> forall o :: o in listed[..i] && !Spared(o, keep) ==> o !in objects
        invariant forall o :: o in listed[..i] && !Spared(o, keep) && w(o).remove.Takes? ==> w(o).writes
        invariant wedged == 0 <==> forall o :: o in listed[..i] && !Spared(o, keep) ==> w(o).remove.Takes?
      {
        var o := listed[i];
        assert listed[..i + 1] == listed[..i] + [o];
        if o.row.Some? && o.row.value in keep {
          continue;
        }
        if o.exempt {
          continue;
        }
        Interfere();
        var removed := RemoveObject(o, w(o).remove);
        if !removed {
          wedged := wedged + 1;
          continue;
        }
        if !w(o).writes {
          return false, wedged;
        }
      }
      assert listed[..|listed|] == listed;
      ok := true;
    }

    /**
     Removes every owned object whose lease is not live, and never one whose lease is, whether or
     not it gets to the end. A sweep that ends and got every removal done leaves nothing that was
     an orphan at the start, and it does both if nothing fails.
     */
    method SweepOrphans(lists: bool, w: Owned -> Encounter) returns (ok: bool, wedged: nat)
      requires Valid()
      modifies this
      ensures Valid() && Settled() && !harmed
      ensures forall o :: o in swept - old(swept) ==> !o.exempt && (o.row.Some? ==> o.row.value !in live)
      ensures ok && wedged == 0 ==> forall o :: o in old(objects) && !Spared(o, old(live)) ==> o !in objects
      ensures lists && (forall o :: w(o).remove.Takes? && w(o).writes) ==> ok && wedged == 0
      ensures ok ==> lists
    {
      if !lists {
        return false, 0;
      }
      var containers := ListOwned(Container);
      Interfere();
      var networks := ListOwned(Network);
      Interfere();
      var volumes := ListOwned(Volume);
      Interfere();
      var keep := live;
      ok, wedged := SweepListed(containers, networks, volumes, keep, w);
    }

    method SweepListed(containers: seq<Owned>, networks: seq<Owned>, volumes: seq<Owned>, keep: set<Row>, w: Owned -> Encounter)
      returns (ok: bool, wedged: nat)
      requires Valid() && Judged(containers, keep) && Judged(networks, keep) && Judged(volumes, keep)
      modifies this
      ensures Valid() && Settled() && SweptOnly(containers + networks + volumes, keep)
      ensures Judged(containers, keep) && Judged(networks, keep) && Judged(volumes, keep)
      ensures ok && wedged == 0 ==> forall o :: o in containers + networks + volumes && !Spared(o, keep) ==> o !in objects
      ensures (forall o :: w(o).remove.Takes? && w(o).writes) ==> ok && wedged == 0
    {
      ok, wedged := SweepKind(containers, keep, w);
      if !ok {
        return;
      }
      var more;
      ok, more := SweepKind(networks, keep, w);
      wedged := wedged + more;
      if !ok {
        return;
      }
      ok, more := SweepKind(volumes, keep, w);
      wedged := wedged + more;
    }

    // ---- cache collection ----

    /** The listed volumes that a later read of the rows does not account for. */
    method Orphaned(usage: seq<Owned>, known: set<Row>) returns (orphaned: seq<Owned>)
      ensures forall o :: o in orphaned <==> o in usage && !Spared(o, known)
    {
      orphaned := [];
      for i := 0 to |usage|
        invariant forall o :: o in orphaned <==> o in usage[..i] && !Spared(o, known)
      {
        assert usage[..i + 1] == usage[..i] + [usage[i]];
        if usage[i].exempt {
          continue;
        }
        if usage[i].row.None? || usage[i].row.value !in known {
          orphaned := orphaned + [usage[i]];
        }
      }
      assert usage[..|usage|] == usage;
    }

    /**
     The orphan pass removes lane volumes without a row, and never one whose row exists. Unless a
     removal failed, no volume that was an orphan at the start is left.
     */
    method CollectOrphans(w: Owned -> Call) returns (failed: nat)
      requires Valid()
      modifies this
      ensures Valid() && Settled() && !harmed
      ensures forall o :: o in swept - old(swept) ==> o.kind == Volume && !o.exempt && (o.row.Some? ==> o.row.value !in live)
      ensures failed == 0 ==> forall o :: o in old(objects) && o.kind == Volume && !Spared(o, old(live)) ==> o !in objects
      ensures (forall o :: w(o).Takes?) ==> failed == 0
    {
      var usage := ListOwned(Volume);
      Interfere();
      var orphaned := Orphaned(usage, live);
      failed := 0;
      for i := 0 to |orphaned|
        invariant Valid() && Settled() && Judged(orphaned, {}) && (forall o :: o in swept - old(swept) ==> o in orphaned)
        invariant failed == 0 ==> forall o :: o in orphaned[..i] ==> o !in objects
        invariant (forall o :: w(o).Takes?) ==> failed == 0
      {
        assert orphaned[..i + 1] == orphaned[..i] + [orphaned[i]];
        Interfere();
        var ok := RemoveObject(orphaned[i], w(orphaned[i]));
        if !ok {
          failed := failed + 1;
        }
      }
      assert orphaned[..|orphaned|] == orphaned;
    }

    /** Evicting a lane: its row goes first, so its volume is nobody's by the time it goes. */
    method DeleteLane(row: Row, volume: Owned, leased: bool, commits: bool, call: Call) returns (r: Eviction)
      requires Valid() && volume.row == Some(row) && row in ever
      modifies this
      ensures Valid() && Settled()
      ensures r == Busy <==> commits && (leased || row !in old(live))
      ensures r == Evicted <==> commits && !leased && row in old(live) && call.Takes?
      ensures !commits || r == Busy ==> live == old(live) && objects == old(objects)
      ensures r == Evicted ==> row !in live && volume !in objects
      ensures swept <= old(swept) + {volume} && (volume !in old(swept) && volume in swept ==> row !in live)
    {
      if !commits {
        return Failed;
      }
      if leased || row !in live {
        return Busy;
      }
      End(row);
      Interfere();
      var ok := RemoveObject(volume, call);
      r := if ok then Evicted else Failed;
    }
  }
}
