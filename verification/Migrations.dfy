/** The migration runner: files in name order, one transaction each, under one advisory lock. Any runs that stop
    anywhere, by any processes, followed by one that succeeds, come to what one uninterrupted run comes to. */
module Migrations {
  import opened Text

  // ---------------------------------------------------------------- file names

  type Name = Bytes

  /** Go compares strings byte by byte. */
  predicate Before(a: Name, b: Name) {
    if b == [] then false
    else if a == [] then true
    else a[0] < b[0] || (a[0] == b[0] && Before(a[1..], b[1..]))
  }

  lemma {:induction false} BeforeIsStrict(a: Name, b: Name)
    ensures !(Before(a, b) && Before(b, a))
    ensures !Before(a, b) && !Before(b, a) <==> a == b
  {
    if a != [] && b != [] && a[0] == b[0] {
      BeforeIsStrict(a[1..], b[1..]);
      assert a == [a[0]] + a[1..] && b == [b[0]] + b[1..];
    }
  }

  lemma {:induction false} BeforeTransitive(a: Name, b: Name, c: Name)
    requires Before(a, b) && Before(b, c)
    ensures Before(a, c)
  {
    if a != [] && a[0] == b[0] == c[0] {
      BeforeTransitive(a[1..], b[1..], c[1..]);
    }
  }

  /** `n` is where two names part: at a smaller byte, or at the end of the first one. */
  predicate PartAt(a: Name, b: Name, n: nat) {
    n <= |a| && n < |b| && a[..n] == b[..n] && (n < |a| ==> a[n] < b[n])
  }

  lemma SameStart(a: Name, b: Name, n: nat)
    requires PartAt(a, b, n)
    ensures n == 0 || a[0] == b[0]
  {
    if n > 0 {
      assert a[..n][0] == b[..n][0];
    }
  }

  /** Names are compared at the first byte in which they differ; a prefix comes first. */
  lemma {:induction false} BeforeIff(a: Name, b: Name)
    ensures Before(a, b) <==> exists n: nat :: PartAt(a, b, n)
  {
    if b != [] && (a == [] || a[0] < b[0]) {
      assert PartAt(a, b, 0);
    } else if a != [] && b != [] && a[0] == b[0] {
      BeforeIff(a[1..], b[1..]);
      assert a == [a[0]] + a[1..] && b == [b[0]] + b[1..];
      forall n: nat | PartAt(a[1..], b[1..], n)
        ensures PartAt(a, b, n + 1)
      {
        assert a[..n + 1] == [a[0]] + a[1..][..n] && b[..n + 1] == [b[0]] + b[1..][..n];
      }
      forall n: nat | PartAt(a, b, n)
        ensures n > 0 && PartAt(a[1..], b[1..], n - 1)
      {
        assert n > 0;
        assert a[1..][..n - 1] == a[..n][1..] && b[1..][..n - 1] == b[..n][1..];
      }
    } else {
      forall n: nat
        ensures !PartAt(a, b, n)
      {
        if PartAt(a, b, n) {
          SameStart(a, b, n);
        }
      }
    }
  }

  /** What the embedded directory lists; a script either fails on a database or changes it. */
  datatype Entry<!D> = Entry(name: Name, isDir: bool, script: D -> Option<D>)

  const SQL: Name := [46, 115, 113, 108]

  predicate IsMigration<D>(e: Entry<D>) {
    !e.isDir && |e.name| >= 4 && e.name[|e.name| - 4..] == SQL
  }

  /** Directory names are unique. */
  ghost predicate DistinctNames<D>(entries: seq<Entry<D>>) {
    forall i, j :: 0 <= i < j < |entries| ==> entries[i].name != entries[j].name
  }

  ghost predicate InNameOrder<D>(entries: seq<Entry<D>>) {
    forall i, j :: 0 <= i < j < |entries| ==> Before(entries[i].name, entries[j].name)
  }

  // ---------------------------------------------------------------- what the database keeps

  /** The data, and `schema_migrations` in the order of its rows' insertion. */
  datatype Base<D> = Base(data: D, registry: seq<Name>)

  /** The state one uninterrupted run over `files` comes to, and whether it succeeds. */
  function RunAll<D>(files: seq<Entry<D>>, b: Base<D>): (Base<D>, bool) {
    if files == [] then (b, true)
    else if files[0].name in b.registry then RunAll(files[1..], b)
    else
      match files[0].script(b.data)
      case None => (b, false)
      case Some(data) => RunAll(files[1..], Base(data, b.registry + [files[0].name]))
  }

  /** `t` is where an uninterrupted run from `s` stands after some number of files. */
  ghost predicate Partial<D>(files: seq<Entry<D>>, s: Base<D>, t: Base<D>) {
    exists n :: 0 <= n <= |files| && RunAll(files[..n], s) == (t, true)
  }

  ghost predicate AllIn<D>(files: seq<Entry<D>>, registry: seq<Name>) {
    forall i :: 0 <= i < |files| ==> files[i].name in registry
  }

  lemma {:induction false} RunConcat<D>(a: seq<Entry<D>>, b: seq<Entry<D>>, s: Base<D>)
    ensures RunAll(a + b, s) == if RunAll(a, s).1 then RunAll(b, RunAll(a, s).0) else RunAll(a, s)
    decreases |a|
  {
    if a == [] {
      assert a + b == b;
    } else {
      assert (a + b)[0] == a[0] && (a + b)[1..] == a[1..] + b;
      if a[0].name in s.registry {
        RunConcat(a[1..], b, s);
      } else if a[0].script(s.data).Some? {
        RunConcat(a[1..], b, Base(a[0].script(s.data).value, s.registry + [a[0].name]));
      }
    }
  }

  /** Files that are registered are passed over. */
  lemma {:induction false} RunSkips<D>(files: seq<Entry<D>>, s: Base<D>)
    requires AllIn(files, s.registry)
    ensures RunAll(files, s) == (s, true)
    decreases |files|
  {
    if files != [] {
      assert forall i :: 0 <= i < |files[1..]| ==> files[1..][i].name == files[i + 1].name;
      RunSkips(files[1..], s);
    }
  }

  lemma AllInFrom<D>(files: seq<Entry<D>>, earlier: seq<Name>, registry: seq<Name>)
    requires files != [] && files[0].name in earlier && earlier <= registry && AllIn(files[1..], registry)
    ensures AllIn(files, registry)
  {
    forall i | 0 <= i < |files|
      ensures files[i].name in registry
    {
      if i > 0 {
        assert files[1..][i - 1].name in registry;
      }
    }
  }

  /** A run that got through registered every file, and took no row away. */
  lemma {:induction false} RunRegisters<D>(files: seq<Entry<D>>, s: Base<D>)
    ensures s.registry <= RunAll(files, s).0.registry
    ensures RunAll(files, s).1 ==> AllIn(files, RunAll(files, s).0.registry)
    decreases |files|
  {
    if files != [] {
      var next := if files[0].name in s.registry || files[0].script(s.data).None? then s
                  else Base(files[0].script(s.data).value, s.registry + [files[0].name]);
      RunRegisters(files[1..], next);
      if RunAll(files, s).1 {
        AllInFrom(files, next.registry, RunAll(files, s).0.registry);
      }
    }
  }

  /** A run taken up again where another one stopped comes to the same end. */
  lemma Resumes<D>(files: seq<Entry<D>>, s: Base<D>, t: Base<D>)
    requires Partial(files, s, t)
    ensures RunAll(files, t) == RunAll(files, s)
  {
    var n :| 0 <= n <= |files| && RunAll(files[..n], s) == (t, true);
    assert files == files[..n] + files[n..];
    RunConcat(files[..n], files[n..], s);
    RunConcat(files[..n], files[n..], t);
    RunRegisters(files[..n], s);
    RunSkips(files[..n], t);
  }

  /** Any number of runs, each stopped anywhere, and then one that succeeds: the database and the registry are those of
      a single uninterrupted run, which succeeds as well. */
  lemma {:induction false} CrashResume<D>(files: seq<Entry<D>>, states: seq<Base<D>>, last: Base<D>)
    requires states != [] && forall k :: 0 <= k < |states| - 1 ==> Partial(files, states[k], states[k + 1])
    requires RunAll(files, states[|states| - 1]) == (last, true)
    ensures RunAll(files, states[0]) == (last, true)
    decreases |states|
  {
    if |states| > 1 {
      CrashResume(files, states[1..], last);
      assert Partial(files, states[0], states[1]);
      Resumes(files, states[0], states[1]);
    }
  }

  /** The names a run has to add to a registry, in name order and each once. */
  function Missing<D>(files: seq<Entry<D>>, registry: seq<Name>): seq<Name> {
    if files == [] then []
    else if files[0].name in registry then Missing(files[1..], registry)
    else [files[0].name] + Missing(files[1..], registry + [files[0].name])
  }

  lemma {:induction false} MissingConcat<D>(a: seq<Entry<D>>, b: seq<Entry<D>>, registry: seq<Name>)
    ensures Missing(a, registry) <= Missing(a + b, registry)
    decreases |a|
  {
    if a != [] {
      assert (a + b)[0] == a[0] && (a + b)[1..] == a[1..] + b;
      if a[0].name in registry {
        MissingConcat(a[1..], b, registry);
      } else {
        MissingConcat(a[1..], b, registry + [a[0].name]);
      }
    }
  }

  lemma {:induction false} RunAdds<D>(files: seq<Entry<D>>, s: Base<D>)
    requires RunAll(files, s).1
    ensures RunAll(files, s).0.registry == s.registry + Missing(files, s.registry)
    decreases |files|
  {
    if files == [] {
      assert s.registry + [] == s.registry;
    } else if files[0].name in s.registry {
      RunAdds(files[1..], s);
    } else {
      var name := files[0].name;
      RunAdds(files[1..], Base(files[0].script(s.data).value, s.registry + [name]));
      assert s.registry + [name] + Missing(files[1..], s.registry + [name])
          == s.registry + ([name] + Missing(files[1..], s.registry + [name]));
    }
  }

  function Names<D>(files: seq<Entry<D>>): seq<Name> {
    seq(|files|, i requires 0 <= i < |files| => files[i].name)
  }

  lemma {:induction false} AllMissing<D>(files: seq<Entry<D>>, registry: seq<Name>)
    requires DistinctNames(files) && forall i :: 0 <= i < |files| ==> files[i].name !in registry
    ensures Missing(files, registry) == Names(files)
    decreases |files|
  {
    if files == [] {
      assert Names(files) == [];
    } else {
      AllMissing(files[1..], registry + [files[0].name]);
      assert Names(files) == [files[0].name] + Names(files[1..]);
    }
  }

  /** At any moment the registry is what was there at first and then a prefix, in name order, of the names missing from
      it; from an empty registry it is a prefix of the sorted list. */
  lemma RegistryIsPrefix<D>(files: seq<Entry<D>>, s: Base<D>, t: Base<D>)
    requires Partial(files, s, t)
    ensures s.registry <= t.registry && t.registry[|s.registry|..] <= Missing(files, s.registry)
    ensures s.registry == [] && DistinctNames(files) ==> t.registry <= Names(files)
  {
    var n :| 0 <= n <= |files| && RunAll(files[..n], s) == (t, true);
    RunAdds(files[..n], s);
    assert files == files[..n] + files[n..];
    MissingConcat(files[..n], files[n..], s.registry);
    if s.registry == [] && DistinctNames(files) {
      AllMissing(files, []);
    }
  }

  // ---------------------------------------------------------------- the order of the files

  function Insert<D>(e: Entry<D>, sorted: seq<Entry<D>>): seq<Entry<D>> {
    if sorted == [] || Before(e.name, sorted[0].name) then [e] + sorted else [sorted[0]] + Insert(e, sorted[1..])
  }

  function Sorted<D>(entries: seq<Entry<D>>): seq<Entry<D>> {
    if entries == [] then [] else Insert(entries[0], Sorted(entries[1..]))
  }

  function Filtered<D>(entries: seq<Entry<D>>): seq<Entry<D>> {
    if entries == [] then []
    else
      var last := entries[|entries| - 1];
      Filtered(entries[..|entries| - 1]) + if IsMigration(last) then [last] else []
  }

  /** The migrations of a directory, in the order they are applied. */
  function Files<D>(entries: seq<Entry<D>>): seq<Entry<D>> { Filtered(Sorted(entries)) }

  lemma FirstStays<D>(e: Entry<D>, sorted: seq<Entry<D>>, rest: seq<Entry<D>>)
    requires sorted != [] && InNameOrder(sorted) && Before(sorted[0].name, e.name)
    requires InNameOrder(rest) && multiset(rest) == multiset{e} + multiset(sorted[1..])
    ensures InNameOrder([sorted[0]] + rest)
  {
    forall i | 0 <= i < |rest|
      ensures Before(sorted[0].name, rest[i].name)
    {
      assert rest[i] in multiset(rest);
    }
  }

  lemma {:induction false} InsertSorts<D>(e: Entry<D>, sorted: seq<Entry<D>>)
    requires InNameOrder(sorted) && forall i :: 0 <= i < |sorted| ==> sorted[i].name != e.name
    ensures InNameOrder(Insert(e, sorted)) && multiset(Insert(e, sorted)) == multiset{e} + multiset(sorted)
    decreases |sorted|
  {
    if sorted != [] {
      assert sorted == [sorted[0]] + sorted[1..];
      if Before(e.name, sorted[0].name) {
        forall i | 0 < i < |sorted|
          ensures Before(e.name, sorted[i].name)
        {
          BeforeTransitive(e.name, sorted[0].name, sorted[i].name);
        }
      } else {
        BeforeIsStrict(e.name, sorted[0].name);
        InsertSorts(e, sorted[1..]);
        FirstStays(e, sorted, Insert(e, sorted[1..]));
      }
    }
  }

  lemma {:induction false} Sorts<D>(entries: seq<Entry<D>>)
    requires DistinctNames(entries)
    ensures InNameOrder(Sorted(entries)) && multiset(Sorted(entries)) == multiset(entries)
    decreases |entries|
  {
    if entries != [] {
      Sorts(entries[1..]);
      assert entries == [entries[0]] + entries[1..];
      var rest := Sorted(entries[1..]);
      forall i | 0 <= i < |rest|
        ensures rest[i].name != entries[0].name
      {
        assert rest[i] in multiset(entries[1..]);
      }
      InsertSorts(entries[0], rest);
    }
  }

  lemma SameFirst<D>(a: seq<Entry<D>>, b: seq<Entry<D>>)
    requires InNameOrder(a) && InNameOrder(b) && a != [] && multiset(a) == multiset(b)
    ensures b != [] && a[0] == b[0]
  {
    assert a[0] in multiset(b);
    assert b[0] in multiset(a);
    var i, j :| 0 <= i < |a| && 0 <= j < |b| && a[i] == b[0] && b[j] == a[0];
    BeforeIsStrict(a[0].name, b[0].name);
  }

  /** There is only one way to put a directory in order, whatever order it is listed in. */
  lemma {:induction false} OneOrder<D>(a: seq<Entry<D>>, b: seq<Entry<D>>)
    requires InNameOrder(a) && InNameOrder(b) && multiset(a) == multiset(b)
    ensures a == b
    decreases |a|
  {
    if a == [] {
      assert |multiset(b)| == |b|;
    } else {
      SameFirst(a, b);
      assert a == [a[0]] + a[1..] && b == [b[0]] + b[1..];
      assert multiset(a[1..]) == multiset(a) - multiset{a[0]} && multiset(b[1..]) == multiset(b) - multiset{b[0]};
      OneOrder(a[1..], b[1..]);
    }
  }

  lemma ListingOrderIsIrrelevant<D>(entries: seq<Entry<D>>, others: seq<Entry<D>>)
    requires DistinctNames(entries) && DistinctNames(others) && multiset(entries) == multiset(others)
    ensures Files(entries) == Files(others)
  {
    Sorts(entries);
    Sorts(others);
    OneOrder(Sorted(entries), Sorted(others));
  }

  lemma {:induction false} FilteredConcat<D>(a: seq<Entry<D>>, b: seq<Entry<D>>)
    ensures Filtered(a + b) == Filtered(a) + Filtered(b)
    decreases |b|
  {
    if b == [] {
      assert a + b == a;
    } else {
      assert (a + b)[..|a + b| - 1] == a + b[..|b| - 1];
      FilteredConcat(a, b[..|b| - 1]);
    }
  }

  lemma {:induction false} FilteredIff<D>(entries: seq<Entry<D>>, e: Entry<D>)
    ensures e in Filtered(entries) <==> e in entries && IsMigration(e)
    decreases |entries|
  {
    if entries != [] {
      var n := |entries| - 1;
      FilteredIff(entries[..n], e);
      assert entries == entries[..n] + [entries[n]];
    }
  }

  /** The migrations are the listed files, not directories, whose names end in ".sql". */
  lemma FilesIff<D>(entries: seq<Entry<D>>, e: Entry<D>)
    requires DistinctNames(entries)
    ensures e in Files(entries) <==>
            && e in entries && !e.isDir && |e.name| >= 4
            && e.name[|e.name| - 4] as int == '.' as int && e.name[|e.name| - 3] as int == 's' as int
            && e.name[|e.name| - 2] as int == 'q' as int && e.name[|e.name| - 1] as int == 'l' as int
  {
    Sorts(entries);
    FilteredIff(Sorted(entries), e);
    assert e in Sorted(entries) <==> e in multiset(Sorted(entries));
    assert e in entries <==> e in multiset(entries);
    var n := |e.name|;
    if n >= 4 {
      assert e.name[n - 4..] == [e.name[n - 4], e.name[n - 3], e.name[n - 2], e.name[n - 1]];
    }
  }

  /** A name a run over `entries` has to register. */
  ghost predicate Named<D>(entries: seq<Entry<D>>, name: Name) {
    exists e :: e in entries && !e.isDir && e.name == name && |name| >= 4
      && name[|name| - 4] as int == '.' as int && name[|name| - 3] as int == 's' as int
      && name[|name| - 2] as int == 'q' as int && name[|name| - 1] as int == 'l' as int
  }

  ghost predicate NamedIn<D>(files: seq<Entry<D>>, name: Name) { exists e :: e in files && e.name == name }

  /** What a run applied, in its order, each script on what the one before it left. */
  ghost predicate Applied<D>(applied: seq<Entry<D>>, data: seq<D>, s: Base<D>, t: Base<D>) {
    && |data| == |applied| + 1 && data[0] == s.data && data[|applied|] == t.data
    && t.registry == s.registry + Names(applied)
    && forall j :: 0 <= j < |applied| ==> applied[j].script(data[j]) == Some(data[j + 1])
  }

  lemma AppliedFirst<D>(e: Entry<D>, applied: seq<Entry<D>>, data: seq<D>, s: Base<D>, u: Base<D>, t: Base<D>)
    requires e.script(s.data) == Some(u.data) && u.registry == s.registry + [e.name] && Applied(applied, data, u, t)
    ensures Applied([e] + applied, [s.data] + data, s, t)
  {
    assert Names([e] + applied) == [e.name] + Names(applied);
    forall j | 0 <= j < |[e] + applied|
      ensures ([e] + applied)[j].script(([s.data] + data)[j]) == Some(([s.data] + data)[j + 1])
    {
      if j > 0 {
        assert applied[j - 1].script(data[j - 1]) == Some(data[j]);
      }
    }
  }

  ghost predicate AllOf<D>(applied: seq<Entry<D>>, files: seq<Entry<D>>) { forall e :: e in applied ==> e in files }

  lemma AllOfRest<D>(applied: seq<Entry<D>>, files: seq<Entry<D>>)
    requires files != [] && AllOf(applied, files[1..])
    ensures AllOf(applied, files) && AllOf([files[0]] + applied, files)
  {
    forall e | e in [files[0]] + applied
      ensures e in files
    {
      if e in applied {
        assert e in files[1..];
      }
    }
  }

  /** An uninterrupted run applies scripts of its files one to the result of the other, and registers exactly these; if
      it succeeds, every name of its files is registered then. */
  lemma {:induction false} RunApplies<D>(files: seq<Entry<D>>, s: Base<D>)
    returns (applied: seq<Entry<D>>, data: seq<D>)
    ensures Applied(applied, data, s, RunAll(files, s).0) && AllOf(applied, files)
    decreases |files|
  {
    if files == [] {
      applied, data := [], [s.data];
    } else if files[0].name in s.registry {
      applied, data := RunApplies(files[1..], s);
      AllOfRest(applied, files);
    } else if files[0].script(s.data).None? {
      applied, data := [], [s.data];
    } else {
      var u := Base(files[0].script(s.data).value, s.registry + [files[0].name]);
      var more, rest := RunApplies(files[1..], u);
      AllOfRest(more, files);
      AppliedFirst(files[0], more, rest, s, u, RunAll(files, s).0);
      applied, data := [files[0]] + more, [s.data] + rest;
    }
  }

  lemma NewNames<D>(files: seq<Entry<D>>, s: Base<D>, name: Name)
    requires name in RunAll(files, s).0.registry && name !in s.registry
    ensures NamedIn(files, name)
  {
    var applied, data := RunApplies(files, s);
    assert name in Names(applied);
    var j :| 0 <= j < |applied| && applied[j].name == name;
    assert applied[j] in files;
  }

  /** After a run that succeeded the registry holds what it held and the names of the directory's migrations, and no
      other. */
  lemma RegisteredIff<D>(entries: seq<Entry<D>>, s: Base<D>, name: Name)
    requires DistinctNames(entries) && RunAll(Files(entries), s).1
    ensures name in RunAll(Files(entries), s).0.registry <==> name in s.registry || Named(entries, name)
  {
    var files := Files(entries);
    RunRegisters(files, s);
    if Named(entries, name) {
      var e :| e in entries && !e.isDir && e.name == name && Named([e], name);
      FilesIff(entries, e);
      var i :| 0 <= i < |files| && files[i] == e;
      assert files[i].name in RunAll(files, s).0.registry;
    }
    if name in RunAll(files, s).0.registry && name !in s.registry {
      NewNames(files, s, name);
      var e :| e in files && e.name == name;
      FilesIff(entries, e);
    }
  }

  /** The repository's own directory holds one migration, and an empty database gets it. */
  lemma FirstMigration<D>(script: D -> Option<D>, data: D)
    requires script(data).Some?
    ensures var name := Ascii("001_init.sql");
            RunAll(Files([Entry(name, false, script)]), Base(data, [])) == (Base(script(data).value, [name]), true)
  {
    var e := Entry(Ascii("001_init.sql"), false, script);
    assert |e.name| == 12 && e.name[8] as int == '.' as int && e.name[9] as int == 's' as int;
    assert e.name[10] as int == 'q' as int && e.name[11] as int == 'l' as int;
    FilesIff([e], e);
    assert [e][1..] == [] && [e][..0] == [];
    assert Sorted([e]) == [e];
    assert Filtered([e]) == [e];
    assert [] + [e.name] == [e.name];
    assert RunAll([e][1..], Base(script(data).value, [e.name])) == (Base(script(data).value, [e.name]), true);
  }

  // ---------------------------------------------------------------- the code

  /** What befalls the transaction of one file: nothing, a failure without effect, or a commit that took effect and
      was reported as an error. */
  datatype Fault = NoFault | Refused | Unreported

  class Store<!D> {
    var base: Base<D>

    constructor (base: Base<D>)
      ensures this.base == base
    {
      this.base := base;
    }

    /** `sort.Slice` by name. */
    method Sort(entries: seq<Entry<D>>) returns (sorted: seq<Entry<D>>)
      requires DistinctNames(entries)
      ensures sorted == Sorted(entries)
    {
      sorted := [];
      var i := |entries|;
      while i > 0
        invariant 0 <= i <= |entries| && sorted == Sorted(entries[i..])
      {
        i := i - 1;
        sorted := Insert(entries[i], sorted);
        assert entries[i..][1..] == entries[i + 1..];
      }
      assert entries[0..] == entries;
    }

    /** `Migrate`, under the lock; `reached` says whether lock, registry and directory were had at all. */
    method Migrate(entries: seq<Entry<D>>, reached: bool, env: nat -> Fault) returns (ok: bool)
      requires DistinctNames(entries)
      modifies this
      ensures Partial(Files(entries), old(base), base)
      ensures ok ==> RunAll(Files(entries), old(base)) == (base, true)
      ensures ok ==> forall name :: name in base.registry <==> name in old(base.registry) || Named(entries, name)
      ensures reached && (forall i :: env(i).NoFault?) ==> RunAll(Files(entries), old(base)) == (base, ok)
    {
      ghost var start := base;
      var sorted := Sort(entries);
      NothingRun(Files(entries), start);
      if !reached {
        return false;
      }
      var i := 0;
      assert sorted[..0] == [];
      while i < |sorted|
        invariant 0 <= i <= |sorted| && RunAll(Filtered(sorted[..i]), start) == (base, true)
      {
        var entry := sorted[i];
        RunSoFar(sorted, i, start, base);
        RunNext(sorted, i, start, base);
        if IsMigration(entry) && entry.name !in base.registry {
          var applied := entry.script(base.data);
          if applied.None? {
            RunFails(sorted, i, start, base);
          }
          if env(i).Refused? || applied.None? {
            return false;
          }
          base := Base(applied.value, base.registry + [entry.name]);
          if env(i).Unreported? {
            RunSoFar(sorted, i + 1, start, base);
            return false;
          }
        }
        i := i + 1;
      }
      assert sorted[..i] == sorted;
      RunSoFar(sorted, i, start, base);
      forall name
        ensures name in base.registry <==> name in start.registry || Named(entries, name)
      {
        RegisteredIff(entries, start, name);
      }
      ok := true;
    }
  }

  lemma NothingRun<D>(files: seq<Entry<D>>, s: Base<D>)
    ensures Partial(files, s, s)
  {
    assert files[..0] == [] && RunAll(files[..0], s) == (s, true);
  }

  lemma FilteredNext<D>(sorted: seq<Entry<D>>, i: nat)
    requires i < |sorted|
    ensures Filtered(sorted[..i + 1]) == Filtered(sorted[..i]) + if IsMigration(sorted[i]) then [sorted[i]] else []
  {
    assert sorted[..i + 1][..i] == sorted[..i];
  }

  lemma FilteredPrefix<D>(sorted: seq<Entry<D>>, i: nat)
    requires i <= |sorted|
    ensures Filtered(sorted) == Filtered(sorted[..i]) + Filtered(sorted[i..])
  {
    assert sorted == sorted[..i] + sorted[i..];
    FilteredConcat(sorted[..i], sorted[i..]);
  }

  /** Where the loop stands before entry `i`. */
  lemma RunSoFar<D>(sorted: seq<Entry<D>>, i: nat, s: Base<D>, t: Base<D>)
    requires i <= |sorted| && RunAll(Filtered(sorted[..i]), s) == (t, true)
    ensures Partial(Filtered(sorted), s, t)
  {
    FilteredPrefix(sorted, i);
    var files := Filtered(sorted);
    assert files[..|Filtered(sorted[..i])|] == Filtered(sorted[..i]);
  }

  /** What entry `i` does. */
  lemma RunNext<D>(sorted: seq<Entry<D>>, i: nat, s: Base<D>, t: Base<D>)
    requires i < |sorted| && RunAll(Filtered(sorted[..i]), s) == (t, true)
    ensures RunAll(Filtered(sorted[..i + 1]), s) == if IsMigration(sorted[i]) then RunAll([sorted[i]], t) else (t, true)
  {
    FilteredNext(sorted, i);
    RunConcat(Filtered(sorted[..i]), if IsMigration(sorted[i]) then [sorted[i]] else [], s);
  }

  /** A script that fails ends the run there. */
  lemma RunFails<D>(sorted: seq<Entry<D>>, i: nat, s: Base<D>, t: Base<D>)
    requires i < |sorted| && RunAll(Filtered(sorted[..i + 1]), s) == (t, false)
    ensures RunAll(Filtered(sorted), s) == (t, false)
  {
    FilteredPrefix(sorted, i + 1);
    RunConcat(Filtered(sorted[..i + 1]), Filtered(sorted[i + 1..]), s);
  }

  // ---------------------------------------------------------------- several processes and the advisory lock

  /** Where a process is: outside, before file `next`, or in the transaction of file `next`. */
  datatype Phase = Outside | Checking(next: nat) | Applying(next: nat)

  datatype Cluster<D> = Cluster(base: Base<D>, holder: Option<nat>, phases: map<nat, Phase>)

  /** The lock, the checks and the transactions share one connection: a process that loses it loses all of them. */
  datatype Move = Lock | Check | Apply(committed: bool, reported: bool) | Stop | Unlock

  function PhaseOf<D>(c: Cluster<D>, p: nat): Phase { if p in c.phases then c.phases[p] else Outside }

  ghost predicate Moves<D>(files: seq<Entry<D>>, c: Cluster<D>, p: nat, move: Move, d: Cluster<D>) {
    var phase := PhaseOf(c, p);
    match move
    case Lock =>
      phase.Outside? && c.holder.None? && d == c.(holder := Some(p), phases := c.phases[p := Checking(0)])
    case Check =>
      && phase.Checking? && phase.next < |files|
      && d == c.(phases := c.phases[p := if files[phase.next].name in c.base.registry then Checking(phase.next + 1)
                                         else Applying(phase.next)])
    case Apply(committed, reported) =>
      && phase.Applying? && phase.next < |files| && (reported ==> committed)
      && files[phase.next].script(c.base.data).Some?
      && d == c.(base := if committed
                         then Base(files[phase.next].script(c.base.data).value,
                                   c.base.registry + [files[phase.next].name])
                         else c.base,
                 holder := if reported then c.holder else None,
                 phases := c.phases[p := if reported then Checking(phase.next + 1) else Outside])
    case Stop =>
      d == c.(holder := if c.holder == Some(p) then None else c.holder, phases := c.phases[p := Outside])
    case Unlock =>
      phase == Checking(|files|) && d == c.(holder := None, phases := c.phases[p := Outside])
  }

  ghost predicate ProcessOk<D>(files: seq<Entry<D>>, c: Cluster<D>, p: nat) {
    match PhaseOf(c, p)
    case Outside => true
    case Checking(next) => c.holder == Some(p) && next <= |files| && AllIn(files[..next], c.base.registry)
    case Applying(next) =>
      c.holder == Some(p) && next < |files| && AllIn(files[..next], c.base.registry)
          && files[next].name !in c.base.registry
  }

  ghost predicate ClusterOk<D>(files: seq<Entry<D>>, start: Base<D>, c: Cluster<D>) {
    Partial(files, start, c.base) && forall p :: ProcessOk(files, c, p)
  }

  lemma OneOf<D>(files: seq<Entry<D>>, n: nat, i: nat, registry: seq<Name>)
    requires n <= |files| && AllIn(files[..n], registry)
    ensures i < n ==> files[i].name in registry
  {
    if i < n {
      assert files[..n][i].name in registry;
    }
  }

  /** Applying the first file that is not registered is what an uninterrupted run does next. */
  lemma AppliesNext<D>(files: seq<Entry<D>>, s: Base<D>, t: Base<D>, i: nat)
    requires Partial(files, s, t) && i < |files| && AllIn(files[..i], t.registry) && files[i].name !in t.registry
    requires files[i].script(t.data).Some?
    ensures Partial(files, s, Base(files[i].script(t.data).value, t.registry + [files[i].name]))
  {
    var n :| 0 <= n <= |files| && RunAll(files[..n], s) == (t, true);
    RunRegisters(files[..n], s);
    OneOf(files, n, i, t.registry);
    assert files[..i] == files[..n] + files[n..i];
    RunConcat(files[..n], files[n..i], s);
    assert AllIn(files[n..i], t.registry) by {
      assert forall k :: 0 <= k < i - n ==> files[n..i][k] == files[..i][n + k];
    }
    RunSkips(files[n..i], t);
    assert files[..i + 1] == files[..i] + [files[i]];
    RunConcat(files[..i], [files[i]], s);
    var u := Base(files[i].script(t.data).value, t.registry + [files[i].name]);
    assert RunAll([files[i]], t) == (u, true);
    assert RunAll(files[..i + 1], s) == (u, true);
  }

  lemma OneIn<D>(files: seq<Entry<D>>, i: nat, registry: seq<Name>)
    requires i < |files| && AllIn(files[..i], registry) && files[i].name in registry
    ensures AllIn(files[..i + 1], registry)
  {
  }

  lemma MoveKeeps<D>(files: seq<Entry<D>>, start: Base<D>, c: Cluster<D>, p: nat, move: Move, d: Cluster<D>)
    requires ClusterOk(files, start, c) && Moves(files, c, p, move, d)
    ensures ClusterOk(files, start, d)
    ensures move.Unlock? ==> RunAll(files, start) == (d.base, true)
  {
    assert ProcessOk(files, c, p);
    var phase := PhaseOf(c, p);
    if move.Check? && files[phase.next].name in c.base.registry {
      OneIn(files, phase.next, c.base.registry);
    }
    if move.Apply? && move.committed {
      AppliesNext(files, start, c.base, phase.next);
      if move.reported {
        OneIn(files, phase.next, d.base.registry);
      }
    }
    if move.Unlock? {
      assert files[..|files|] == files;
      RunSkips(files, c.base);
      Resumes(files, start, c.base);
    }
    forall q
      ensures ProcessOk(files, d, q)
    {
      assert ProcessOk(files, c, q);
    }
  }

  ghost predicate ClusterRun<D>(files: seq<Entry<D>>, start: Base<D>, run: seq<Cluster<D>>, who: seq<nat>,
                                moves: seq<Move>) {
    && |run| == |moves| + 1 == |who| + 1 && run[0] == Cluster(start, None, map[])
    && forall k :: 0 <= k < |moves| ==> Moves(files, run[k], who[k], moves[k], run[k + 1])
  }

  lemma {:induction false} ClusterThroughout<D>(files: seq<Entry<D>>, start: Base<D>, run: seq<Cluster<D>>,
                                                who: seq<nat>,
                                                moves: seq<Move>, k: nat)
    requires ClusterRun(files, start, run, who, moves) && k < |run|
    ensures ClusterOk(files, start, run[k])
  {
    if k == 0 {
      NothingRun(files, start);
    } else {
      ClusterThroughout(files, start, run, who, moves, k - 1);
      assert Moves(files, run[k - 1], who[k - 1], moves[k - 1], run[k]);
      MoveKeeps(files, start, run[k - 1], who[k - 1], moves[k - 1], run[k]);
    }
  }

  /** Any processes starting, stopping and crashing in any interleaving: at every moment the database is where one
      uninterrupted run stands after some number of files, at most one process is past the lock, and when any process
      gets through, the database is that run's result. */
  lemma ConcurrentMigrations<D>(files: seq<Entry<D>>, start: Base<D>, run: seq<Cluster<D>>, who: seq<nat>,
                                moves: seq<Move>,
                                k: nat, p: nat, q: nat)
    requires ClusterRun(files, start, run, who, moves) && k < |run|
    ensures Partial(files, start, run[k].base)
    ensures !PhaseOf(run[k], p).Outside? && !PhaseOf(run[k], q).Outside? ==> p == q
    ensures k > 0 && moves[k - 1].Unlock? ==> RunAll(files, start) == (run[k].base, true)
  {
    ClusterThroughout(files, start, run, who, moves, k);
    assert ProcessOk(files, run[k], p) && ProcessOk(files, run[k], q);
    if k > 0 {
      ClusterThroughout(files, start, run, who, moves, k - 1);
      assert Moves(files, run[k - 1], who[k - 1], moves[k - 1], run[k]);
      MoveKeeps(files, start, run[k - 1], who[k - 1], moves[k - 1], run[k]);
    }
  }
}
