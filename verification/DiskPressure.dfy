/**
 The disk verdict and the admission gate behind it.

 `Next` decides a level from one measurement. `Monitor` moves the level, the gate and the
 persisted verdict in an order such that, at every point where the process may die, an open
 gate rests on a verdict this process measured and the store holds.
 */
module DiskPressure {
  import opened Base

  datatype Level = Unknown | Normal | High | SoftEmergency | HardEmergency
  {
    function Rank(): nat {
      match this
      case Unknown => 0
      case Normal => 1
      case High => 2
      case SoftEmergency => 3
      case HardEmergency => 4
    }

    predicate AdmissionClosed() { Unknown? || Rank() >= SoftEmergency.Rank() }

    predicate Emergency() { SoftEmergency? || HardEmergency? }
  }

  const SOFT_INODE_FLOOR := 100_000
  const HARD_INODE_FLOOR := 10_000
  const INODE_RECOVERY_BAND := SOFT_INODE_FLOOR - HARD_INODE_FLOOR

  datatype Thresholds = Thresholds(
    maxManagedBytes: int,
    highPct: nat,
    lowPct: nat,
    softFreeBytes: int,
    hardFreeBytes: int,
    reserveFreeBytes: int)
  {
    /** The soft floor or the host's reserve, whichever asks for more. */
    function SoftFloor(): int { if reserveFreeBytes > softFreeBytes then reserveFreeBytes else softFreeBytes }

    /** The configured distance between the floors. */
    function Band(): int { if softFreeBytes - hardFreeBytes < 0 then 0 else softFreeBytes - hardFreeBytes }
  }

  /** `freeInodes` is negative when the filesystem does not count them. */
  datatype Facts = Facts(freeBytes: int, freeInodes: int, managedBytes: nat)
  {
    predicate InodesKnown() { freeInodes >= 0 }
  }

  function Next(prev: Level, f: Facts, t: Thresholds): Level {
    if f.freeBytes < t.hardFreeBytes || (f.InodesKnown() && f.freeInodes < HARD_INODE_FLOOR) then HardEmergency
    else if f.freeBytes < t.SoftFloor() || (f.InodesKnown() && f.freeInodes < SOFT_INODE_FLOOR) then SoftEmergency
    else if prev.Rank() >= SoftEmergency.Rank() && f.freeBytes < t.SoftFloor() + t.Band() then SoftEmergency
    else if prev.Rank() >= SoftEmergency.Rank() && f.InodesKnown() && f.freeInodes < SOFT_INODE_FLOOR + INODE_RECOVERY_BAND
    then SoftEmergency
    else if t.maxManagedBytes > 0 && f.managedBytes >= t.maxManagedBytes * t.highPct / 100 then High
    else if t.maxManagedBytes > 0 && prev.Rank() >= High.Rank() && f.managedBytes > t.maxManagedBytes * t.lowPct / 100 then High
    else Normal
  }

  /** A measurement above every floor. */
  predicate AboveFloors(f: Facts, t: Thresholds) {
    && f.freeBytes >= t.hardFreeBytes && f.freeBytes >= t.SoftFloor()
    && (f.InodesKnown() ==> f.freeInodes >= SOFT_INODE_FLOOR)
  }

  /** A measurement above the soft floors by their recovery bands, in bytes and in known inodes. */
  predicate Clears(f: Facts, t: Thresholds) {
    && f.freeBytes >= t.SoftFloor() + t.Band()
    && (f.InodesKnown() ==> f.freeInodes >= SOFT_INODE_FLOOR + INODE_RECOVERY_BAND)
  }

  /** Exactly when a measurement puts or keeps the host in an emergency. */
  lemma EmergencyExactly(prev: Level, f: Facts, t: Thresholds)
    ensures Next(prev, f, t).Emergency() <==> !AboveFloors(f, t) || (prev.Emergency() && !Clears(f, t))
    ensures !Next(prev, f, t).Unknown?
  {
  }

  /** Bytes or known inodes are below the hard floor. */
  predicate BelowHardFloor(f: Facts, t: Thresholds) {
    f.freeBytes < t.hardFreeBytes || 0 <= f.freeInodes < 10_000
  }

  /** ... or below the soft floor, the host's reserve counted in. */
  predicate BelowSoftFloor(f: Facts, t: Thresholds) {
    f.freeBytes < t.softFreeBytes || f.freeBytes < t.reserveFreeBytes || 0 <= f.freeInodes < 100_000
  }

  /** ... or not above it by the configured distance of the floors. */
  predicate WithinBand(f: Facts, t: Thresholds) {
    || f.freeBytes < Max(t.softFreeBytes, t.reserveFreeBytes) + Max(0, t.softFreeBytes - t.hardFreeBytes)
    || 0 <= f.freeInodes < 190_000
  }

  /** The cache uses this percentage of its budget, to the byte; without a budget it uses none. */
  predicate AtLeastPct(f: Facts, t: Thresholds, pct: nat) { 0 < t.maxManagedBytes && t.maxManagedBytes * pct < 100 * (f.managedBytes + 1) }

  predicate AbovePct(f: Facts, t: Thresholds, pct: nat) { 0 < t.maxManagedBytes && t.maxManagedBytes * pct < 100 * f.managedBytes }

  /** Each level's own condition: what the next level is, from what was measured and the level before. */
  lemma LevelExactly(prev: Level, f: Facts, t: Thresholds)
    ensures var next := Next(prev, f, t);
            var emergency := BelowSoftFloor(f, t) || (prev.Emergency() && WithinBand(f, t));
            var high := AtLeastPct(f, t, t.highPct) || ((prev.High? || prev.Emergency()) && AbovePct(f, t, t.lowPct));
            && (next == HardEmergency <==> BelowHardFloor(f, t))
            && (next == SoftEmergency <==> !BelowHardFloor(f, t) && emergency)
            && (next == High <==> !BelowHardFloor(f, t) && !emergency && high)
            && (next == Normal <==> !BelowHardFloor(f, t) && !emergency && !high)
  {
    Hundredths(t.maxManagedBytes * t.highPct, f.managedBytes);
    Hundredths(t.maxManagedBytes * t.lowPct, f.managedBytes);
  }

  lemma Hundredths(product: int, used: nat)
    ensures used >= product / 100 <==> product < 100 * (used + 1)
    ensures used > product / 100 <==> product < 100 * used
  {
  }

  /** Two measurements in a row within the bands do not flap the gate. */
  lemma NoFlapping(prev: Level, f: Facts, g: Facts, t: Thresholds)
    requires Next(prev, f, t).Emergency() && !Clears(g, t)
    ensures Next(Next(prev, f, t), g, t).Emergency()
  {
  }

  // ---- the monitor ----

  /** A write that failed may have landed all the same. */
  datatype Write = Lands | FailsLanded | Fails

  /** What an observer sees at one moment: the level in force, whether admission is held, what the store says. */
  datatype Moment = Moment(level: Level, held: bool, persisted: Option<Level>, measuredOpen: bool)

  predicate OpenVerdict(p: Option<Level>) { p.Some? && !p.value.AdmissionClosed() }

  /** An open gate: this process measured an open verdict, and the store has an open one. */
  predicate Earned(m: Moment) { !m.held ==> m.measuredOpen && OpenVerdict(m.persisted) }

  predicate InEmergency(p: Option<Level>) { p.Some? && p.value.Emergency() }

  /** If a persisted emergency is gone, this measurement cleared the floors. */
  predicate Justified(before: Option<Level>, m: Moment, facts: Option<Facts>, t: Thresholds) {
    InEmergency(before) && !InEmergency(m.persisted) ==> facts.Some? && Clears(facts.value, t)
  }

  class Monitor {
    const thresholds: Thresholds
    var level: Level
    var held: bool
    /** The store's row: it outlives the process. */
    var persisted: Option<Level>
    /** Whether this process measured a verdict that permits admission. */
    var measuredOpen: bool
    /** Every moment so far at which the process could have died. */
    var trail: seq<Moment>

    function Now(): Moment
      reads this
    {
      Moment(level, held, persisted, measuredOpen)
    }

    ghost predicate Valid()
      reads this
    {
      && held == level.AdmissionClosed() && Earned(Now())
      && (InEmergency(persisted) ==> level.Emergency())
      && (forall m :: m in trail ==> Earned(m))
    }

    /** A new process: closed, whatever the store says. */
    constructor (thresholds: Thresholds, persisted: Option<Level>)
      ensures this.thresholds == thresholds && this.persisted == persisted
      ensures held && level == Unknown && !measuredOpen && trail == [Now()] && Earned(Now())
    {
      this.thresholds, this.persisted := thresholds, persisted;
      level, held := Unknown, true;
      measuredOpen := false;
      trail := [Moment(Unknown, true, persisted, false)];
    }

    /** Restores a persisted closed verdict only; an open one must be measured again. */
    method Resume()
      requires held && level == Unknown && !measuredOpen && forall m :: m in trail ==> Earned(m)
      modifies this
      ensures Valid() && held && persisted == old(persisted) && !measuredOpen && trail == old(trail) + [Now()]
      ensures level == if persisted.Some? && persisted.value.AdmissionClosed() then persisted.value else Unknown
    {
      if persisted.Some? && persisted.value.AdmissionClosed() {
        level, held := persisted.value, true;
      }
      trail := trail + [Now()];
    }

    method Apply(next: Level)
      requires !next.AdmissionClosed() ==> measuredOpen && OpenVerdict(persisted)
      requires forall m :: m in trail ==> Earned(m)
      modifies this
      ensures level == next && held == next.AdmissionClosed()
      ensures persisted == old(persisted) && measuredOpen == old(measuredOpen)
      ensures trail == old(trail) + [Now()] && forall m :: m in trail ==> Earned(m)
    {
      level, held := next, next.AdmissionClosed();
      trail := trail + [Now()];
    }

    method Persist(next: Level, w: Write) returns (ok: bool)
      requires !held ==> measuredOpen && OpenVerdict(persisted) && !next.AdmissionClosed()
      requires forall m :: m in trail ==> Earned(m)
      modifies this
      ensures ok == w.Lands? && persisted == if w.Fails? then old(persisted) else Some(next)
      ensures level == old(level) && held == old(held) && measuredOpen == old(measuredOpen)
      ensures trail == old(trail) + [Now()] && forall m :: m in trail ==> Earned(m)
    {
      if !w.Fails? {
        persisted := Some(next);
      }
      trail := trail + [Now()];
      return w.Lands?;
    }

    /** One pass: measure, decide, commit. Closing applies before it is persisted, opening after. */
    method Pass(facts: Option<Facts>, w: Write) returns (ok: bool)
      requires Valid()
      modifies this
      ensures Valid() && old(trail) <= trail
      ensures forall n :: |old(trail)| <= n < |trail| ==> Justified(old(persisted), trail[n], facts, thresholds)
      ensures old(level).Emergency() && !level.Emergency() ==> facts.Some? && Clears(facts.value, thresholds)
      ensures InEmergency(old(persisted)) && !InEmergency(persisted) ==> facts.Some? && Clears(facts.value, thresholds)
      ensures facts.Some? && Next(old(level), facts.value, thresholds).AdmissionClosed() ==>
                held && level == Next(old(level), facts.value, thresholds)
      ensures facts.Some? && w.Lands? ==> level == Next(old(level), facts.value, thresholds)
      ensures facts.None? ==> held && (level == if old(level).Emergency() then old(level) else Unknown)
      ensures ok == (facts.Some? && w.Lands?)
      ensures persisted == if w.Fails? || (facts.None? && old(level).Emergency()) then old(persisted)
                           else Some(if facts.Some? then Next(old(level), facts.value, thresholds) else Unknown)
    {
      if facts.None? {
        var prev := level;
        if !prev.Emergency() {
          Apply(Unknown);
          var persistedIt := Persist(Unknown, w);
        }
        return false;
      }
      var prev := level;
      var next := Next(prev, facts.value, thresholds);
      EmergencyExactly(prev, facts.value, thresholds);
      measuredOpen := measuredOpen || !next.AdmissionClosed();
      var requiresDurableOpen := prev.AdmissionClosed() && !next.AdmissionClosed();
      if !requiresDurableOpen {
        Apply(next);
      }
      ok := Persist(next, w);
      if !ok {
        return false;
      }
      if requiresDurableOpen {
        Apply(next);
      }
      return true;
    }
  }

  // ---- whole lives, and restarts ----

  /** What one pass met. */
  datatype Weather = Weather(facts: Option<Facts>, write: Write)

  ghost predicate SomeClears(ws: seq<Weather>, t: Thresholds) {
    exists w :: w in ws && w.facts.Some? && Clears(w.facts.value, t)
  }

  /** One process from start to wherever it dies: `trail` has every moment it can die at. */
  method Serve(t: Thresholds, persisted: Option<Level>, passes: seq<Weather>) returns (trail: seq<Moment>)
    ensures trail != [] && forall m :: m in trail ==> Earned(m)
    ensures InEmergency(persisted) && !SomeClears(passes, t) ==> forall m :: m in trail ==> InEmergency(m.persisted)
  {
    var monitor := new Monitor(t, persisted);
    monitor.Resume();
    for i := 0 to |passes|
      invariant monitor.Valid() && monitor.thresholds == t && fresh(monitor) && monitor.trail != []
      invariant InEmergency(persisted) && !SomeClears(passes, t) ==>
        InEmergency(monitor.persisted) && forall m :: m in monitor.trail ==> InEmergency(m.persisted)
    {
      ghost var before := monitor.trail;
      assert passes[i] in passes;
      var ok := monitor.Pass(passes[i].facts, passes[i].write);
      assert forall m :: m in monitor.trail ==> m in before || exists n :: |before| <= n < |monitor.trail| && monitor.trail[n] == m;
    }
    trail := monitor.trail;
  }

  /** Any number of processes, each dying at any moment: an emergency ends only on a measurement that clears it. */
  method Restarts(t: Thresholds, first: Option<Level>, lives: seq<seq<Weather>>) returns (last: Option<Level>)
    ensures InEmergency(first) && !InEmergency(last) ==> exists i :: 0 <= i < |lives| && SomeClears(lives[i], t)
  {
    var persisted := first;
    for i := 0 to |lives|
      invariant InEmergency(first) && !InEmergency(persisted) ==> exists j :: 0 <= j < i && SomeClears(lives[j], t)
    {
      var trail := Serve(t, persisted, lives[i]);
      assert trail[0] in trail;
      var death :| death in trail;
      persisted := death.persisted;
    }
    last := persisted;
  }
}
