/** The store wrapper that keeps environments apart by a prefix on the handler name. */
module NamespacedStore {
  import opened Wrappers
  import opened TaskRows
  import opened LikePatterns

  /** `prefix` is the wrapper's prefix after stripping white space. */
  function ToStoreName(prefix: string, name: Name): Name {
    if prefix == "" then name else prefix + name
  }

  function FromStoreName(prefix: string, name: Name): Option<Name> {
    if prefix == "" then Some(name)
    else if prefix <= name then Some(name[|prefix|..])
    else None
  }

  /** The two maps are inverse to each other, in both directions. */
  lemma NamesRoundTrip(prefix: string, name: Name, stored: Name)
    ensures FromStoreName(prefix, ToStoreName(prefix, name)) == Some(name)
    ensures FromStoreName(prefix, stored) == Some(name) <==> stored == ToStoreName(prefix, name)
  {
    if prefix != "" && prefix <= stored {
      assert stored == prefix + stored[|prefix|..];
    }
    assert (prefix + name)[|prefix|..] == name;
  }

  /** Two environments share no stored name, unless one prefix extends the other. */
  lemma NamespacesAreDisjoint(a: string, b: string)
    ensures (forall stored :: !(FromStoreName(a, stored).Some? && FromStoreName(b, stored).Some?)) <==> !(a <= b) && !(b <= a)
  {
    if a <= b {
      assert FromStoreName(a, b).Some? && FromStoreName(b, b).Some?;
    } else if b <= a {
      assert FromStoreName(a, a).Some? && FromStoreName(b, a).Some?;
    } else {
      forall stored | FromStoreName(a, stored).Some? && FromStoreName(b, stored).Some? ensures false {
        CommonName(a, b, stored);
      }
    }
  }

  lemma CommonName(a: string, b: string, stored: Name)
    requires FromStoreName(a, stored).Some? && FromStoreName(b, stored).Some?
    ensures a <= b || b <= a
  {
    assert |a| <= |b| ==> a == b[..|a|];
    assert |b| <= |a| ==> b == a[..|b|];
  }

  /** Cleanup of a namespace deletes what cleanup deletes, among exactly the names that the namespace reads. */
  predicate CleanupSelects(prefix: string, name: Name) {
    if prefix == "" then true else Like(name, EscapeLike(prefix) + "%")
  }

  lemma CleanupStaysInside(prefix: string, name: Name)
    ensures CleanupSelects(prefix, name) <==> FromStoreName(prefix, name).Some?
  {
    PrefixPatternIsExact(prefix, name);
  }

  /** The table after a cleanup by prefix. */
  function CleanedByPrefix(rows: Table, prefix: string, retention: Retention, now: Time): Table {
    map id | id in rows && !(Expired(rows[id], retention, now) && CleanupSelects(prefix, rows[id].name)) :: rows[id]
  }

  lemma CleanedWithout(rows: Table, prefix: string, retention: Retention, now: Time, gone: set<TaskId>)
    requires prefix != ""
    requires gone == set id | id in rows && Expired(rows[id], retention, now) && Like(rows[id].name, EscapeLike(prefix) + "%")
    ensures rows - gone == CleanedByPrefix(rows, prefix, retention, now)
    ensures |rows - gone| == |rows| - |gone|
  {
    assert rows.Keys == (rows - gone).Keys + gone;
    assert |rows| == |rows.Keys| && |rows - gone| == |(rows - gone).Keys|;
  }

  /** A namespace deletes all its own expired rows, keeps the others, and leaves every foreign row as it is. */
  lemma NamespaceCleanup(rows: Table, prefix: string, retention: Retention, now: Time, id: TaskId)
    requires id in rows
    ensures var next := CleanedByPrefix(rows, prefix, retention, now);
      (id in next <==> FromStoreName(prefix, rows[id].name).None? || id in Cleaned(rows, retention, now)) &&
      (id in next ==> next[id] == rows[id])
  {
    CleanupStaysInside(prefix, rows[id].name);
  }

  // ---------- listings and counts ----------

  function Scoped(prefix: string, rows: seq<Entry>): seq<Entry> {
    if rows == [] then []
    else
      var rest := Scoped(prefix, rows[1..]);
      match FromStoreName(prefix, rows[0].name)
      case None => rest
      case Some(name) => [rows[0].(name := name)] + rest
  }

  lemma {:induction false} ScopedSnoc(prefix: string, rows: seq<Entry>, e: Entry)
    ensures Scoped(prefix, rows + [e]) == Scoped(prefix, rows) + Scoped(prefix, [e])
  {
    if rows == [] {
      assert rows + [e] == [e];
    } else {
      assert (rows + [e])[1..] == rows[1..] + [e];
      ScopedSnoc(prefix, rows[1..], e);
    }
  }

  method FilterPendingRows(prefix: string, rows: seq<Entry>) returns (scoped: seq<Entry>)
    ensures scoped == Scoped(prefix, rows)
  {
    scoped := [];
    for i := 0 to |rows|
      invariant scoped == Scoped(prefix, rows[..i])
    {
      assert rows[..i + 1] == rows[..i] + [rows[i]];
      ScopedSnoc(prefix, rows[..i], rows[i]);
      var name := FromStoreName(prefix, rows[i].name);
      if name.Some? {
        scoped := scoped + [rows[i].(name := name.value)];
      }
    }
    assert rows[..|rows|] == rows;
  }

  /** A row is in the scoped listing exactly when its stored form was listed. */
  lemma {:induction false} ScopedExactly(prefix: string, rows: seq<Entry>, e: Entry)
    ensures e in Scoped(prefix, rows) <==> e.(name := ToStoreName(prefix, e.name)) in rows
  {
    if rows != [] {
      ScopedExactly(prefix, rows[1..], e);
      NamesRoundTrip(prefix, e.name, rows[0].name);
      assert rows[0].(name := e.name) == e <==> rows[0] == e.(name := rows[0].name);
      assert e.(name := ToStoreName(prefix, e.name)) in rows <==>
        e.(name := ToStoreName(prefix, e.name)) == rows[0] || e.(name := ToStoreName(prefix, e.name)) in rows[1..];
    }
  }

  /** `counts.get(name, 0)`. */
  function CountOf(counts: map<Name, nat>, name: Name): nat {
    if name in counts then counts[name] else 0
  }

  /** The counts of a namespace are the stored counts under the scoped names; no two stored names merge. */
  method ScopeCounts(prefix: string, counts: map<Name, nat>) returns (scoped: map<Name, nat>)
    ensures forall name :: name in scoped <==> ToStoreName(prefix, name) in counts
    ensures forall name :: name in scoped ==> scoped[name] == counts[ToStoreName(prefix, name)]
  {
    scoped := map[];
    var rest := counts.Keys;
    while rest != {}
      invariant rest <= counts.Keys
      invariant forall name :: name in scoped <==> ToStoreName(prefix, name) in counts && ToStoreName(prefix, name) !in rest
      invariant forall name :: name in scoped ==> scoped[name] == counts[ToStoreName(prefix, name)]
      decreases |rest|
    {
      var stored :| stored in rest;
      rest := rest - {stored};
      var name := FromStoreName(prefix, stored);
      forall other ensures FromStoreName(prefix, stored) == Some(other) <==> stored == ToStoreName(prefix, other) {
        NamesRoundTrip(prefix, other, stored);
      }
      if name.Some? {
        scoped := scoped[name.value := CountOf(scoped, name.value) + counts[stored]];
      }
    }
  }
}
