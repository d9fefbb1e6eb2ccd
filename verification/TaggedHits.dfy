/**
 What a get on the tagged Redis cache does return: exactly when it ends in a hit, and that a
 value that was set and not invalidated is found.
 */
module TaggedHits {
  import opened TaggedRedis

  /** The k-th event is the get's read of the key, and finds this entry. */
  ghost predicate ReadAt(run: seq<Event>, k: nat, op: OpId, key: Key, entry: Entry) {
    k < |run| && run[k] == ReadEntry(op) &&
    var s := Exec(START, run[..k]);
    op in s.ops && s.ops[op] == Looking(key) && key in s.entries && s.entries[key] == entry
  }

  /** The j-th event is the get's comparison of this counter, and the recorded generation is the counter's, or is not. */
  ghost predicate Compared(run: seq<Event>, j: nat, op: OpId, counter: Counter, entry: Entry, equal: bool) {
    j < |run| && run[j] == Compare(op, counter) && counter in entry.generations &&
    var s := Exec(START, run[..j]);
    Enabled(s, run[j]) && (equal <==> entry.generations[counter] == Generation(s, counter))
  }

  ghost predicate Agreed(run: seq<Event>, k: nat, op: OpId, counter: Counter, entry: Entry) {
    exists j: nat :: k < j && Compared(run, j, op, counter, entry, true)
  }

  /** Some comparison after the read failed. */
  ghost predicate Disagreed(run: seq<Event>, k: nat, op: OpId, entry: Entry) {
    exists j: nat, counter :: k < j && Compared(run, j, op, counter, entry, false)
  }

  /** How far the get is that read the entry at the k-th event. */
  ghost predicate Progress(run: seq<Event>, k: nat, op: OpId, key: Key, entry: Entry) {
    var s := Exec(START, run);
    op in s.ops &&
    match s.ops[op]
    case Comparing(_, _, checked, _) =>
      s.ops[op] == Comparing(key, entry, checked, k) && !Disagreed(run, k, op, entry) && forall c :: c in checked ==> Agreed(run, k, op, c, entry)
    case Hit(_, _, _) => s.ops[op] == Hit(key, entry, k) && !Disagreed(run, k, op, entry) && forall c :: c in entry.generations ==> Agreed(run, k, op, c, entry)
    case Dropping(_, _, _) => s.ops[op] == Dropping(key, entry, k) && Disagreed(run, k, op, entry)
    case Missed(_) => s.ops[op] == Missed(key) && Disagreed(run, k, op, entry)
    case _ => false
  }

  lemma ComparedLonger(shorter: seq<Event>, run: seq<Event>, j: nat, op: OpId, counter: Counter, entry: Entry, equal: bool)
    requires run != [] && shorter == run[..|run| - 1] && j < |shorter|
    ensures Compared(shorter, j, op, counter, entry, equal) <==> Compared(run, j, op, counter, entry, equal)
  {
    assert shorter[..j] == run[..j];
  }

  lemma AgreedLonger(shorter: seq<Event>, run: seq<Event>, k: nat, op: OpId, counter: Counter, entry: Entry)
    requires run != [] && shorter == run[..|run| - 1] && Agreed(shorter, k, op, counter, entry)
    ensures Agreed(run, k, op, counter, entry)
  {
    var j: nat :| k < j && Compared(shorter, j, op, counter, entry, true);
    ComparedLonger(shorter, run, j, op, counter, entry, true);
  }

  lemma DisagreedLonger(shorter: seq<Event>, run: seq<Event>, k: nat, op: OpId, entry: Entry)
    requires run != [] && shorter == run[..|run| - 1]
    ensures Disagreed(shorter, k, op, entry) ==> Disagreed(run, k, op, entry)
    ensures Disagreed(run, k, op, entry) ==>
      Disagreed(shorter, k, op, entry) ||
      (run[|shorter|].Compare? && run[|shorter|].op == op && Compared(run, |shorter|, op, run[|shorter|].counter, entry, false))
  {
    if Disagreed(shorter, k, op, entry) {
      var j: nat, counter :| k < j && Compared(shorter, j, op, counter, entry, false);
      ComparedLonger(shorter, run, j, op, counter, entry, false);
    }
    if Disagreed(run, k, op, entry) {
      var j: nat, counter :| k < j && Compared(run, j, op, counter, entry, false);
      if j < |shorter| {
        ComparedLonger(shorter, run, j, op, counter, entry, false);
      }
    }
  }

  lemma {:induction false} ProgressAlways(run: seq<Event>, k: nat, op: OpId, key: Key, entry: Entry)
    requires ReadAt(run, k, op, key, entry)
    ensures Progress(run, k, op, key, entry)
    decreases |run|
  {
    var last := |run| - 1;
    InvAlways(run[..last]);
    if k < last {
      assert run[..last][..k] == run[..k];
      ProgressAlways(run[..last], k, op, key, entry);
      DisagreedLonger(run[..last], run, k, op, entry);
      if run[last].Compare? && run[last].op == op && Enabled(Exec(START, run[..last]), run[last]) {
        ComparesOnce(run, k, op, key, entry);
      } else {
        StaysOrEnds(run, k, op, key, entry);
      }
    }
  }

  lemma ComparesOnce(run: seq<Event>, k: nat, op: OpId, key: Key, entry: Entry)
    requires run != [] && k < |run| - 1 && run[|run| - 1].Compare? && run[|run| - 1].op == op
    requires Enabled(Exec(START, run[..|run| - 1]), run[|run| - 1]) && Progress(run[..|run| - 1], k, op, key, entry)
    requires Disagreed(run, k, op, entry) ==>
      Disagreed(run[..|run| - 1], k, op, entry) || Compared(run, |run| - 1, op, run[|run| - 1].counter, entry, false)
    ensures Progress(run, k, op, key, entry)
  {
    var last := |run| - 1;
    var s, c := Exec(START, run[..last]), run[last].counter;
    if entry.generations[c] == Generation(s, c) {
      assert Compared(run, last, op, c, entry, true);
      forall x | x in s.ops[op].checked + {c} ensures Agreed(run, k, op, x, entry) {
        if x != c {
          AgreedLonger(run[..last], run, k, op, x, entry);
        }
      }
    } else {
      assert Compared(run, last, op, c, entry, false);
    }
  }

  lemma StaysOrEnds(run: seq<Event>, k: nat, op: OpId, key: Key, entry: Entry)
    requires run != [] && k < |run| - 1 && Progress(run[..|run| - 1], k, op, key, entry)
    requires !(run[|run| - 1].Compare? && run[|run| - 1].op == op && Enabled(Exec(START, run[..|run| - 1]), run[|run| - 1]))
    requires Disagreed(run, k, op, entry) <==> Disagreed(run[..|run| - 1], k, op, entry)
    ensures Progress(run, k, op, key, entry)
  {
    var last := |run| - 1;
    OtherEvents(Exec(START, run[..last]), run[last], op);
    forall c | Agreed(run[..last], k, op, c, entry) ensures Agreed(run, k, op, c, entry) {
      AgreedLonger(run[..last], run, k, op, c, entry);
    }
    Moves(run[..last], run, k, op, key, entry);
  }

  /** A get that is reading or has ended moves only by a comparison, its conclusion or its deletion. */
  lemma OtherEvents(s: State, e: Event, op: OpId)
    requires op in s.ops && !s.ops[op].Setting? && !s.ops[op].Written? && !s.ops[op].Looking? && !(e.Compare? && e.op == op && Enabled(s, e))
    ensures op in Step(s, e).ops
    ensures var was, next := s.ops[op], Step(s, e).ops[op];
      || next == was
      || (was.Comparing? && was.checked == was.entry.generations.Keys && next == Hit(was.key, was.entry, was.readAt))
      || (was.Dropping? && next == Missed(was.key))
  {
  }

  lemma Moves(shorter: seq<Event>, run: seq<Event>, k: nat, op: OpId, key: Key, entry: Entry)
    requires Progress(shorter, k, op, key, entry) && op in Exec(START, run).ops && (Disagreed(run, k, op, entry) <==> Disagreed(shorter, k, op, entry))
    requires forall c :: Agreed(shorter, k, op, c, entry) ==> Agreed(run, k, op, c, entry)
    requires var was, next := Exec(START, shorter).ops[op], Exec(START, run).ops[op];
      || next == was
      || (was.Comparing? && was.checked == was.entry.generations.Keys && next == Hit(was.key, was.entry, was.readAt))
      || (was.Dropping? && next == Missed(was.key))
    ensures Progress(run, k, op, key, entry)
  {
  }

  /**
   In every interleaving: a get that has read an entry and is past its comparisons ended in a
   hit, with this very entry, just when no comparison failed; and then every recorded
   generation was compared, and was the counter's at that instant.
   */
  lemma {:induction false} HitExactly(run: seq<Event>, k: nat, op: OpId, key: Key, entry: Entry)
    requires ReadAt(run, k, op, key, entry) && op in Exec(START, run).ops && !Exec(START, run).ops[op].Comparing?
    ensures var get := Exec(START, run).ops[op];
      (get.Hit? <==> !Disagreed(run, k, op, entry)) &&
      (get.Hit? ==> get == Hit(key, entry, k) && forall c :: c in entry.generations ==> Agreed(run, k, op, c, entry)) &&
      (!get.Hit? ==> get == Dropping(key, entry, k) || get == Missed(key))
  {
    ProgressAlways(run, k, op, key, entry);
  }

  // ---------- what is current is returned ----------

  predicate NoIncrement(run: seq<Event>, from: nat, entry: Entry) {
    forall i :: from <= i < |run| && run[i].Increment? ==> run[i].counter !in entry.generations
  }

  lemma {:induction false} CountersStay(s: State, run: seq<Event>, entry: Entry)
    requires NoIncrement(run, 0, entry)
    ensures forall c :: c in entry.generations ==> Generation(Exec(s, run), c) == Generation(s, c)
    decreases |run|
  {
    if run != [] {
      CountersStay(s, run[..|run| - 1], entry);
    }
  }

  /** A get that finds a current entry, none of whose counters is incremented before it ends, ends in a hit of exactly this entry. */
  lemma {:induction false} CurrentEntriesAreReturned(run: seq<Event>, k: nat, op: OpId, key: Key, entry: Entry)
    requires ReadAt(run, k, op, key, entry) && Current(Exec(START, run[..k]), entry) && NoIncrement(run, k, entry)
    requires op in Exec(START, run).ops && !Exec(START, run).ops[op].Comparing?
    ensures Exec(START, run).ops[op] == Hit(key, entry, k)
  {
    HitExactly(run, k, op, key, entry);
    forall j: nat, c | k < j && Compared(run, j, op, c, entry, false) ensures false {
      assert run[..j] == run[..k] + run[k..j];
      ExecConcat(START, run[..k], run[k..j]);
      CountersStay(Exec(START, run[..k]), run[k..j], entry);
    }
  }

  // ---------- an undisturbed set and an undisturbed get ----------

  /** Events of this operation alone lead from one state to the other, which has the same counters. */
  ghost predicate Alone(s: State, n: State, op: OpId) {
    n.generations == s.generations && exists run :: OwnEvents(run, op) && n == Exec(s, run)
  }

  predicate OwnEvents(run: seq<Event>, op: OpId) {
    forall i :: 0 <= i < |run| ==> !run[i].Increment? && !run[i].Remove? && run[i].op == op
  }

  lemma OneMore(s: State, m: State, op: OpId, e: Event, n: State)
    requires Alone(s, m, op) && n == Step(m, e) && !e.Increment? && !e.Remove? && e.op == op
    ensures Alone(s, n, op)
  {
    var run :| OwnEvents(run, op) && m == Exec(s, run);
    ExecSnoc(s, run, e);
    assert OwnEvents(run + [e], op);
  }

  lemma Here(s: State, op: OpId)
    ensures Alone(s, s, op)
  {
    assert OwnEvents([], op) && s == Exec(s, []);
  }

  ghost predicate SameOthers(s: State, n: State, op: OpId) {
    forall x :: x != op ==> (x in n.ops <==> x in s.ops) && (x in s.ops ==> n.ops[x] == s.ops[x])
  }

  /** The set reads the counters that it still needs, one after the other. */
  lemma {:induction false} ReadsAll(first: State, s: State, op: OpId, left: set<Counter>) returns (n: State)
    requires Alone(first, s, op) && op in s.ops && s.ops[op].Setting? && left == Needs(s.ops[op].tags) - s.ops[op].seen.Keys
    requires s.ops[op].seen.Keys <= Needs(s.ops[op].tags) && forall c :: c in s.ops[op].seen ==> s.ops[op].seen[c] == Generation(first, c)
    ensures Alone(first, n, op) && op in n.ops && n.ops[op].Setting? && n.entries == s.entries && SameOthers(s, n, op)
    ensures n.ops[op] == Setting(s.ops[op].key, s.ops[op].value, s.ops[op].tags, n.ops[op].seen)
    ensures n.ops[op].seen.Keys == Needs(s.ops[op].tags) && forall c :: c in n.ops[op].seen ==> n.ops[op].seen[c] == Generation(first, c)
    decreases left
  {
    assert Needs(s.ops[op].tags) == s.ops[op].seen.Keys + left;
    if left == {} {
      n := s;
    } else {
      var c :| c in left;
      var m := Step(s, ReadForSet(op, c));
      OneMore(first, s, op, ReadForSet(op, c), m);
      n := ReadsAll(first, m, op, left - {c});
    }
  }

  /** A set that nobody disturbs stores its value under its key, current for the namespace and all its tags, and changes no other key. */
  lemma SetAloneStores(s: State, op: OpId, key: Key, value: Value, tags: set<Tag>) returns (n: State)
    requires op !in s.ops
    ensures Alone(s, n, op) && SameOthers(s, n, op)
    ensures key in n.entries && n.entries == s.entries[key := n.entries[key]] && n.entries[key].value == value && n.entries[key].writer == op
    ensures n.entries[key].generations.Keys == Needs(tags) && Current(n, n.entries[key])
  {
    Here(s, op);
    var begun := Step(s, BeginSet(op, key, value, tags));
    OneMore(s, s, op, BeginSet(op, key, value, tags), begun);
    var read := ReadsAll(s, begun, op, Needs(tags));
    n := Step(read, Write(op));
    OneMore(s, read, op, Write(op), n);
  }

  /** The get compares what is left, the namespace first. */
  lemma {:induction false} ComparesAll(first: State, s: State, op: OpId, left: set<Counter>) returns (n: State)
    requires Alone(first, s, op) && op in s.ops && s.ops[op].Comparing? && Current(s, s.ops[op].entry)
    requires s.ops[op].checked <= s.ops[op].entry.generations.Keys && left == s.ops[op].entry.generations.Keys - s.ops[op].checked
    requires s.ops[op].checked == {} || Namespace in s.ops[op].checked || Namespace !in s.ops[op].entry.generations
    ensures Alone(first, n, op) && n.entries == s.entries && SameOthers(s, n, op) && op in n.ops
    ensures n.ops[op] == Comparing(s.ops[op].key, s.ops[op].entry, s.ops[op].entry.generations.Keys, s.ops[op].readAt)
    decreases left
  {
    assert s.ops[op].entry.generations.Keys == s.ops[op].checked + left;
    if left == {} {
      n := s;
    } else {
      var c := if Namespace in left then Namespace else var x :| x in left; x;
      var m := Step(s, Compare(op, c));
      OneMore(first, s, op, Compare(op, c), m);
      n := ComparesAll(first, m, op, left - {c});
    }
  }

  /** A get that nobody disturbs returns the current entry of its key, and changes nothing. */
  lemma GetAloneHits(s: State, op: OpId, key: Key) returns (n: State)
    requires op !in s.ops && key in s.entries && Current(s, s.entries[key])
    ensures Alone(s, n, op) && SameOthers(s, n, op) && n.entries == s.entries
    ensures op in n.ops && n.ops[op].Hit? && n.ops[op].key == key && n.ops[op].entry == s.entries[key]
  {
    Here(s, op);
    var begun := Step(s, BeginGet(op, key));
    OneMore(s, s, op, BeginGet(op, key), begun);
    var read := Step(begun, ReadEntry(op));
    OneMore(s, begun, op, ReadEntry(op), read);
    var compared := ComparesAll(s, read, op, s.entries[key].generations.Keys);
    n := Step(compared, Conclude(op));
    OneMore(s, compared, op, Conclude(op), n);
  }

  /** From any state on: what a set that nobody disturbs has stored, the get that follows returns. */
  lemma SetThenGet(s: State, a: OpId, b: OpId, key: Key, value: Value, tags: set<Tag>)
    requires a !in s.ops && b !in s.ops && a != b
    ensures exists m, n ::
      (Alone(s, m, a) && Alone(m, n, b) && b in n.ops && n.ops[b].Hit? && n.ops[b].entry.value == value && n.ops[b].entry.writer == a)
  {
    var m := SetAloneStores(s, a, key, value, tags);
    var n := GetAloneHits(m, b, key);
  }

  // ---------- deletion ----------

  /** No event of the run stores an entry under the key. */
  ghost predicate NotWritten(s: State, run: seq<Event>, key: Key)
    decreases |run|
  {
    run != [] ==>
      var last := |run| - 1;
      NotWritten(s, run[..last], key) &&
      var m := Exec(s, run[..last]);
      !(run[last].Write? && Enabled(m, run[last]) && m.ops[run[last].op].key == key)
  }

  lemma {:induction false} StaysAbsent(s: State, run: seq<Event>, key: Key)
    requires key !in s.entries && NotWritten(s, run, key)
    ensures key !in Exec(s, run).entries
    decreases |run|
  {
    if run != [] {
      StaysAbsent(s, run[..|run| - 1], key);
    }
  }

  lemma {:induction false} NotWrittenBefore(s: State, run: seq<Event>, key: Key, k: nat)
    requires NotWritten(s, run, key) && k <= |run|
    ensures NotWritten(s, run[..k], key)
    decreases |run|
  {
    if k < |run| {
      NotWrittenBefore(s, run[..|run| - 1], key, k);
      assert run[..|run| - 1][..k] == run[..k];
    } else {
      assert run[..k] == run;
    }
  }

  lemma {:induction false} AbsentSince(before: seq<Event>, key: Key, after: seq<Event>, k: nat)
    requires NotWritten(Exec(START, before + [Remove(key)]), after, key) && |before| < k <= |before + [Remove(key)] + after|
    ensures key !in Exec(START, (before + [Remove(key)] + after)[..k]).entries
  {
    var removed := before + [Remove(key)];
    var some := k - |removed|;
    assert (removed + after)[..k] == removed + after[..some];
    ExecSnoc(START, before, Remove(key));
    ExecConcat(START, removed, after[..some]);
    NotWrittenBefore(Exec(START, removed), after, key, some);
    StaysAbsent(Exec(START, removed), after[..some], key);
  }

  /** Once a key was deleted or has expired, no get that begins afterwards finds anything under it before the next set writes it. */
  lemma {:induction false} RemovedIsMissed(before: seq<Event>, key: Key, after: seq<Event>, op: OpId)
    requires op !in Exec(START, before).ops && NotWritten(Exec(START, before + [Remove(key)]), after, key)
    requires op in Exec(START, before + [Remove(key)] + after).ops && Exec(START, before + [Remove(key)] + after).ops[op].Hit?
    ensures Exec(START, before + [Remove(key)] + after).ops[op].key != key
  {
    var run := before + [Remove(key)] + after;
    var get := Exec(START, run).ops[op];
    ReadsAreOfOneInstant(run, op);
    BegunBeforeReading(run, op);
    NotBegunYet(before, Remove(key), after, op, get.readAt);
    AbsentSince(before, key, after, get.readAt);
    assert StoredAt(run, get.readAt, get.key, get.entry);
  }

  lemma NotBegunYet(before: seq<Event>, e: Event, after: seq<Event>, op: OpId, k: nat)
    requires op !in Exec(START, before).ops && !e.BeginGet? && !e.BeginSet?
    requires k <= |before + [e] + after| && op in Exec(START, (before + [e] + after)[..k]).ops
    ensures k > |before|
  {
    var run := before + [e] + after;
    if k <= |before| {
      assert before == run[..k] + before[k..];
      ExecConcat(START, run[..k], before[k..]);
      ExecGrows(Exec(START, run[..k]), before[k..]);
    }
  }
}
