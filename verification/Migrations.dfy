/**
 Resumable schema migration.

 A schema is identified by what its migrations say. Each script commits together with the
 version and the identity of the set up to it, so a crash between scripts leaves a database
 whose recorded identity is exactly what was applied, and an open that succeeds leaves
 exactly the opening build's migrations. The hash is taken to be free of collisions: the
 fingerprint is the text that is hashed, and `IdentityDecodes` shows that the text determines
 the migrations.
 */
module Migrations {
  import opened Base

  /** Versions are positions, counted from one. */
  datatype Migration = Migration(name: string, up: string)

  const NUL := '\0'

  ghost predicate Plain(s: string) { NUL !in s }

  // ---- numbers in text ----

  function Digit(n: nat): char
    requires n < 10
  {
    (n as char) + '0'
  }

  function Decimal(n: nat): (r: string)
    ensures r != []
  {
    if n < 10 then [Digit(n)] else Decimal(n / 10) + [Digit(n % 10)]
  }

  function ValueOf(s: string): int {
    if s == [] then 0 else 10 * ValueOf(s[..|s| - 1]) + (s[|s| - 1] as int - '0' as int)
  }

  lemma {:induction false} DecimalReads(n: nat)
    ensures ValueOf(Decimal(n)) == n && Plain(Decimal(n))
  {
    if n >= 10 {
      DecimalReads(n / 10);
      assert Decimal(n)[..|Decimal(n)| - 1] == Decimal(n / 10);
    } else {
      assert Decimal(n)[..0] == [];
    }
  }

  function Zeros(n: nat): string { seq(n, _ => '0') }

  /** At least six digits. */
  function Padded(n: nat): string {
    var d := Decimal(n);
    if |d| < 6 then Zeros(6 - |d|) + d else d
  }

  lemma PaddedIsPlain(n: nat)
    ensures Plain(Padded(n))
  {
    DecimalReads(n);
  }

  lemma {:induction false} ZerosCountNothing(n: nat, s: string)
    ensures ValueOf(Zeros(n) + s) == ValueOf(s)
  {
    if s != [] {
      assert (Zeros(n) + s)[..n + |s| - 1] == Zeros(n) + s[..|s| - 1];
      ZerosCountNothing(n, s[..|s| - 1]);
    } else if n > 0 {
      assert Zeros(n) + s == Zeros(n) && Zeros(n)[..n - 1] == Zeros(n - 1) + [];
      ZerosCountNothing(n - 1, []);
    }
  }

  lemma {:induction false} DecimalLength(n: nat, digits: nat, bound: nat)
    requires bound == Tenfold(digits) && n < bound && 0 < digits
    ensures |Decimal(n)| <= digits
  {
    if n >= 10 {
      DecimalLength(n / 10, digits - 1, bound / 10);
    }
  }

  function Tenfold(n: nat): nat { if n == 0 then 1 else 10 * Tenfold(n - 1) }

  /** The number itself, in six digits up to a million. */
  lemma PaddedReads(n: nat)
    ensures ValueOf(Padded(n)) == n && 6 <= |Padded(n)| && (n < 1_000_000 ==> |Padded(n)| == 6)
  {
    DecimalReads(n);
    if |Decimal(n)| < 6 {
      ZerosCountNothing(6 - |Decimal(n)|, Decimal(n));
    }
    if n < 1_000_000 {
      assert Tenfold(3) == 1000 && Tenfold(6) == 1_000_000;
      DecimalLength(n, 6, 1_000_000);
    }
  }

  // ---- the identity of a schema ----

  function Line(version: nat, m: Migration): string {
    Padded(version) + [NUL] + (m.name + [NUL] + (Decimal(|m.up|) + [NUL] + m.up))
  }

  function Text(ms: seq<Migration>, version: nat): string {
    if ms == [] then [] else Line(version, ms[0]) + Text(ms[1..], version + 1)
  }

  /** What is hashed. */
  function Identity(ms: seq<Migration>): string { Text(ms, 1) }

  ghost predicate Named(ms: seq<Migration>) { forall i :: 0 <= i < |ms| ==> Plain(ms[i].name) }

  /** Text up to the first zero byte can be told from what follows. */
  lemma {:induction false} SplitAtNul(a: string, b: string, x: string, y: string)
    requires Plain(a) && Plain(b) && a + [NUL] + x == b + [NUL] + y
    ensures a == b && x == y
  {
    if a == [] || b == [] {
      assert (a + [NUL] + x)[0] == (b + [NUL] + y)[0];
      assert (a + [NUL] + x)[1..] == (b + [NUL] + y)[1..];
      assert a == [] ==> (a + [NUL] + x)[1..] == x;
      assert b == [] ==> (b + [NUL] + y)[1..] == y;
    } else {
      assert (a + [NUL] + x)[0] == (b + [NUL] + y)[0];
      assert (a + [NUL] + x)[1..] == a[1..] + [NUL] + x && (b + [NUL] + y)[1..] == b[1..] + [NUL] + y;
      SplitAtNul(a[1..], b[1..], x, y);
      assert a == [a[0]] + a[1..] && b == [b[0]] + b[1..];
    }
  }

  lemma BodyDecodes(a: string, b: string, x: string, y: string)
    requires Decimal(|a|) + [NUL] + (a + x) == Decimal(|b|) + [NUL] + (b + y)
    ensures a == b && x == y
  {
    DecimalReads(|a|);
    DecimalReads(|b|);
    SplitAtNul(Decimal(|a|), Decimal(|b|), a + x, b + y);
    assert |a| == |b|;
    assert (a + x)[..|a|] == a && (b + y)[..|b|] == b;
    assert (a + x)[|a|..] == x && (b + y)[|b|..] == y;
  }

  lemma LineDecodes(version: nat, m: Migration, n: Migration, x: string, y: string)
    requires Plain(m.name) && Plain(n.name) && Line(version, m) + x == Line(version, n) + y
    ensures m == n && x == y
  {
    PaddedIsPlain(version);
    var mb, nb := Decimal(|m.up|) + [NUL] + (m.up + x), Decimal(|n.up|) + [NUL] + (n.up + y);
    assert Line(version, m) + x == Padded(version) + [NUL] + (m.name + [NUL] + mb);
    assert Line(version, n) + y == Padded(version) + [NUL] + (n.name + [NUL] + nb);
    SplitAtNul(Padded(version), Padded(version), m.name + [NUL] + mb, n.name + [NUL] + nb);
    SplitAtNul(m.name, n.name, mb, nb);
    BodyDecodes(m.up, n.up, x, y);
  }

  lemma SomeText(ms: seq<Migration>, version: nat)
    ensures Text(ms, version) == [] <==> ms == []
  {
  }

  lemma {:induction false} TextDecodes(ms: seq<Migration>, ns: seq<Migration>, version: nat)
    requires Named(ms) && Named(ns) && Text(ms, version) == Text(ns, version)
    ensures ms == ns
  {
    hide Line, Plain;
    if ms != [] && ns != [] {
      LineDecodes(version, ms[0], ns[0], Text(ms[1..], version + 1), Text(ns[1..], version + 1));
      TextDecodes(ms[1..], ns[1..], version + 1);
      assert ms == [ms[0]] + ms[1..] && ns == [ns[0]] + ns[1..];
    } else {
      SomeText(ms, version);
      SomeText(ns, version);
    }
  }

  /** Any edit to any migration is another schema. */
  lemma IdentityDecodes(ms: seq<Migration>, ns: seq<Migration>)
    requires Named(ms) && Named(ns)
    ensures Identity(ms) == Identity(ns) <==> ms == ns
  {
    if Identity(ms) == Identity(ns) {
      TextDecodes(ms, ns, 1);
    }
  }

  lemma {:induction false} TextAppends(ms: seq<Migration>, m: Migration, version: nat)
    ensures Text(ms + [m], version) == Text(ms, version) + Line(version + |ms|, m)
  {
    if ms == [] {
      assert ms + [m] == [m] && [m][1..] == [];
    } else {
      assert (ms + [m])[1..] == ms[1..] + [m];
      TextAppends(ms[1..], m, version + 1);
    }
  }

  method SchemaFingerprint(ms: seq<Migration>) returns (text: string)
    ensures text == Identity(ms)
  {
    text := [];
    for i := 0 to |ms|
      invariant text == Text(ms[..i], 1)
    {
      TextAppends(ms[..i], ms[i], 1);
      assert ms[..i + 1] == ms[..i] + [ms[i]];
      text := text + Line(i + 1, ms[i]);
    }
    assert ms[..|ms|] == ms;
  }

  // ---- the store ----

  datatype Outcome = Opened | NewerSchema | AlteredSchema | Failed

  /** What a process that dies leaves behind; `applied` is what was actually run. */
  datatype Database = Database(applied: seq<Migration>, version: nat, fingerprint: Option<string>)

  /** The version counts what was applied, and the identity is recorded with it. */
  ghost predicate Recorded(d: Database) {
    && d.version == |d.applied|
    && (d.applied != [] ==> d.fingerprint == Some(Identity(d.applied)))
  }

  /** What becomes of one commit: a commit that landed may still be reported as failed. */
  datatype Commit = Lands | FailsLanded | Fails

  /** What one open meets: whether the store can be read, and what becomes of each script's commit. */
  datatype Weather = Weather(readable: bool, commits: nat -> Commit)

  ghost predicate AllLand(commits: nat -> Commit) { forall i: nat :: commits(i).Lands? }

  /** Nothing fails. */
  ghost predicate Clear(w: Weather) { w.readable && AllLand(w.commits) }

  /** The first script from `i` on whose commit is not answered well; `n` if there is none. */
  function FirstFailure(commits: nat -> Commit, i: nat, n: nat): (f: nat)
    requires i <= n
    ensures i <= f <= n && (forall j :: i <= j < f ==> commits(j).Lands?) && (f < n ==> !commits(f).Lands?)
    decreases n - i
  {
    if i == n || !commits(i).Lands? then i else FirstFailure(commits, i + 1, n)
  }

  /** How many scripts an open leaves applied that starts after the first `i`. */
  function Reach(commits: nat -> Commit, i: nat, n: nat): (f: nat)
    requires i <= n
    ensures i <= f <= n
  {
    var f := FirstFailure(commits, i, n);
    if f < n && commits(f).FailsLanded? then f + 1 else f
  }

  class Store {
    var version: nat
    var fingerprint: Option<string>
    /** The scripts that were actually run against this database. */
    ghost var applied: seq<Migration>
    /** The database at every point at which a process could have died. */
    ghost var trail: seq<Database>

    ghost function Now(): Database
      reads this
    {
      Database(applied, version, fingerprint)
    }

    /** The recorded identity, if there is one, is that of what was applied; an older database may have none. */
    ghost predicate Valid()
      reads this
    {
      && version == |applied| && Named(applied)
      && (fingerprint.Some? ==> fingerprint.value == Identity(applied))
    }

    constructor ()
      ensures Valid() && applied == []
    {
      version, fingerprint, applied := 0, None, [];
      trail := [Database([], 0, None)];
    }

    /** One script, its version and the identity commit together, or none of them does. */
    method ApplyScript(m: Migration, identity: string, w: Commit) returns (ok: bool)
      requires Valid() && Plain(m.name) && identity == Identity(applied + [m])
      modifies this
      ensures Valid() && trail == old(trail) + [Now()]
      ensures ok == w.Lands?
      ensures if w.Fails? then Now() == old(Now())
              else applied == old(applied) + [m] && fingerprint == Some(identity)
    {
      if !w.Fails? {
        applied := applied + [m];
        version, fingerprint := version + 1, Some(identity);
      }
      trail := trail + [Now()];
      ok := w.Lands?;
    }

    /** What an open answers: a schema that is not this build's is refused, and otherwise the commits decide. */
    ghost function Answer(migrations: seq<Migration>, weather: Weather, d: Database): Outcome {
      if !weather.readable then Failed
      else if |migrations| < |d.applied| then NewerSchema
      else if Altered(migrations, d) then AlteredSchema
      else if FirstFailure(weather.commits, |d.applied|, |migrations|) == |migrations| then Opened
      else Failed
    }

    /** Moves the schema forward to this build's, or refuses one that is not this build's. */
    method ApplyMigrations(migrations: seq<Migration>, weather: Weather) returns (outcome: Outcome)
      requires Valid() && Named(migrations)
      modifies this
      ensures Valid() && old(applied) <= applied && outcome == Answer(migrations, weather, old(Now()))
      ensures outcome == Opened ==> applied == migrations
      ensures outcome == Failed && weather.readable ==>
                applied == migrations[..Reach(weather.commits, |old(applied)|, |migrations|)]
      ensures !weather.readable || outcome == NewerSchema || outcome == AlteredSchema ==> Now() == old(Now()) && trail == old(trail)
      ensures Recorded(old(Now())) ==> Recorded(Now())
      ensures old(trail) <= trail
      ensures forall n :: |old(trail)| <= n < |trail| ==> Recorded(trail[n]) && old(applied) <= trail[n].applied <= migrations
    {
      if !weather.readable {
        return Failed;
      }
      if version > |migrations| {
        return NewerSchema;
      }
      if version > 0 {
        var prefix := SchemaFingerprint(migrations[..version]);
        IdentityDecodes(applied, migrations[..version]);
        if fingerprint != Some(prefix) {
          return AlteredSchema;
        }
      }
      assert applied == migrations[..version];
      if version == |migrations| {
        return Opened;
      }
      outcome := ApplyPending(migrations, weather.commits);
    }

    /** Another build's migrations, or a database that does not say whose. */
    ghost predicate Altered(migrations: seq<Migration>, d: Database) {
      |d.applied| <= |migrations| && d.applied != [] && (d.fingerprint == None || !(d.applied <= migrations))
    }

    method ApplyPending(migrations: seq<Migration>, commits: nat -> Commit) returns (outcome: Outcome)
      requires Valid() && Named(migrations) && version < |migrations| && applied == migrations[..version] && Recorded(Now())
      modifies this
      ensures Valid() && old(applied) <= applied && Recorded(Now())
      ensures outcome == if FirstFailure(commits, old(version), |migrations|) == |migrations| then Opened else Failed
      ensures applied == migrations[..Reach(commits, old(version), |migrations|)]
      ensures old(trail) <= trail
      ensures forall n :: |old(trail)| <= n < |trail| ==> Recorded(trail[n]) && old(applied) <= trail[n].applied <= migrations
    {
      hide Identity, Plain;
      for i := version to |migrations|
        invariant Valid() && applied == migrations[..i] && old(applied) <= applied && Recorded(Now())
        invariant FirstFailure(commits, old(version), |migrations|) == FirstFailure(commits, i, |migrations|)
        invariant old(trail) <= trail
        invariant forall n :: |old(trail)| <= n < |trail| ==> Recorded(trail[n]) && old(applied) <= trail[n].applied <= migrations
      {
        var identity := SchemaFingerprint(migrations[..i + 1]);
        assert migrations[..i + 1] == migrations[..i] + [migrations[i]];
        var ok := ApplyScript(migrations[i], identity, commits(i));
        if !ok {
          return Failed;
        }
      }
      return Opened;
    }

    /** One build only, on a database of its own, recorded as this code records it. */
    ghost predicate OwnOnly(builds: seq<seq<Migration>>, d: Database) {
      Recorded(d) && forall b :: b in builds ==> b == builds[0] && d.applied <= b
    }

    /**
     Any number of opens, by builds with any migrations: what is applied only ever grows. However
     many opens of one build failed, and wherever, the next that meets no failure succeeds.
     */
    method Opens(builds: seq<seq<Migration>>, weathers: seq<Weather>) returns (outcomes: seq<Outcome>)
      requires Valid() && |weathers| == |builds| && forall b :: b in builds ==> Named(b)
      modifies this
      ensures Valid() && old(applied) <= applied && |outcomes| == |builds|
      ensures builds != [] && outcomes[|builds| - 1] == Opened ==> applied == builds[|builds| - 1]
      ensures builds != [] && OwnOnly(builds, old(Now())) && Clear(weathers[|builds| - 1]) ==> outcomes[|builds| - 1] == Opened
      ensures old(trail) <= trail && forall n :: |old(trail)| <= n < |trail| ==> Recorded(trail[n])
    {
      outcomes := [];
      for i := 0 to |builds|
        invariant Valid() && old(applied) <= applied && |outcomes| == i
        invariant i > 0 && outcomes[i - 1] == Opened ==> applied == builds[i - 1]
        invariant OwnOnly(builds, old(Now())) ==> OwnOnly(builds, Now())
        invariant i > 0 && OwnOnly(builds, old(Now())) && Clear(weathers[i - 1]) ==> outcomes[i - 1] == Opened
        invariant old(trail) <= trail && forall n :: |old(trail)| <= n < |trail| ==> Recorded(trail[n])
      {
        assert builds[i] in builds;
        ghost var before := trail;
        var outcome := ApplyMigrations(builds[i], weathers[i]);
        outcomes := outcomes + [outcome];
        assert forall n :: |before| <= n < |trail| ==> Recorded(trail[n]);
        assert forall n :: 0 <= n < |before| ==> trail[n] == before[n];
      }
    }
  }
}
