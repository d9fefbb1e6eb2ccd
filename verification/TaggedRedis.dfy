/**
 The tagged cache on Redis. An entry carries the generations of its namespace and tags that
 its writer read; invalidation increments a generation. No command covers more than one key,
 so a get and a set read their generations one GET at a time while anything else happens in
 between. Any number of operations interleave; every Redis command is one event, and an event
 that is not enabled changes nothing.
 */
module TaggedRedis {
  import opened Wrappers

  type Key = string
  type Tag = string
  type Value = string
  type OpId = nat

  /** The generation counters; a missing counter reads as 0. */
  datatype Counter = Namespace | TagOf(tag: Tag)

  type Generations = map<Counter, nat>

  /** A stored entry; `writer` names the set that wrote it and is not read by the program. */
  datatype Entry = Entry(generations: Generations, value: Value, writer: OpId)

  datatype Operation =
    | Setting(key: Key, value: Value, tags: set<Tag>, seen: Generations)
    | Written(key: Key, value: Value, tags: set<Tag>, seen: Generations, writtenAt: nat)
    | Looking(key: Key)
    | Comparing(key: Key, entry: Entry, checked: set<Counter>, readAt: nat)
    | Dropping(key: Key, entry: Entry, readAt: nat)
    | Hit(key: Key, entry: Entry, readAt: nat)
    | Missed(key: Key)

  /** `steps` counts the events so far. */
  datatype State = State(generations: Generations, entries: map<Key, Entry>, ops: map<OpId, Operation>, steps: nat)

  datatype Event =
    | BeginSet(op: OpId, key: Key, value: Value, tags: set<Tag>)
    | ReadForSet(op: OpId, counter: Counter)
    | Write(op: OpId)
    | BeginGet(op: OpId, key: Key)
    | ReadEntry(op: OpId)
    | Compare(op: OpId, counter: Counter)
    | Conclude(op: OpId)
    | Drop(op: OpId)
    | Increment(counter: Counter)      // invalidate_tag, clear
    | Remove(key: Key)                 // delete, or the entry's time to live ran out

  const START: State := State(map[], map[], map[], 0)

  function Generation(s: State, counter: Counter): nat {
    if counter in s.generations then s.generations[counter] else 0
  }

  /** INCR: a counter that is missing becomes 1. */
  function Incremented(generations: Generations, counter: Counter): Generations {
    generations[counter := if counter in generations then generations[counter] + 1 else 1]
  }

  function Needs(tags: set<Tag>): set<Counter> {
    {Namespace} + set tag | tag in tags :: TagOf(tag)
  }

  /** The namespace is compared first; the tags follow in any order. */
  predicate MayCompare(op: Operation, counter: Counter) {
    op.Comparing? && counter in op.entry.generations && counter !in op.checked &&
    (counter == Namespace || Namespace in op.checked || Namespace !in op.entry.generations)
  }

  predicate Enabled(s: State, e: Event) {
    match e
    case BeginSet(op, _, _, _) => op !in s.ops
    case ReadForSet(op, counter) => op in s.ops && s.ops[op].Setting? && counter in Needs(s.ops[op].tags) - s.ops[op].seen.Keys
    case Write(op) => op in s.ops && s.ops[op].Setting? && s.ops[op].seen.Keys == Needs(s.ops[op].tags)
    case BeginGet(op, _) => op !in s.ops
    case ReadEntry(op) => op in s.ops && s.ops[op].Looking?
    case Compare(op, counter) => op in s.ops && MayCompare(s.ops[op], counter)
    case Conclude(op) => op in s.ops && s.ops[op].Comparing? && s.ops[op].checked == s.ops[op].entry.generations.Keys
    case Drop(op) => op in s.ops && s.ops[op].Dropping?
    case Increment(_) => true
    case Remove(_) => true
  }

  function Become(s: State, op: OpId, next: Operation): State {
    s.(ops := s.ops[op := next])
  }

  function Apply(s: State, e: Event): State
    requires Enabled(s, e)
  {
    match e
    case BeginSet(op, key, value, tags) => Become(s, op, Setting(key, value, tags, map[]))
    case ReadForSet(op, counter) =>
      var was := s.ops[op];
      Become(s, op, Setting(was.key, was.value, was.tags, was.seen[counter := Generation(s, counter)]))
    case Write(op) =>
      var was := s.ops[op];
      Become(s, op, Written(was.key, was.value, was.tags, was.seen, s.steps)).(entries := s.entries[was.key := Entry(was.seen, was.value, op)])
    case BeginGet(op, key) => Become(s, op, Looking(key))
    case ReadEntry(op) =>
      var key := s.ops[op].key;
      Become(s, op, if key in s.entries then Comparing(key, s.entries[key], {}, s.steps) else Missed(key))
    case Compare(op, counter) =>
      var was := s.ops[op];
      Become(s, op, if Generation(s, counter) == was.entry.generations[counter] then was.(checked := was.checked + {counter})
                    else Dropping(was.key, was.entry, was.readAt))
    case Conclude(op) => Become(s, op, Hit(s.ops[op].key, s.ops[op].entry, s.ops[op].readAt))
    case Drop(op) => Become(s, op, Missed(s.ops[op].key)).(entries := s.entries - {s.ops[op].key})
    case Increment(counter) => s.(generations := Incremented(s.generations, counter))
    case Remove(key) => s.(entries := s.entries - {key})
  }

  function Step(s: State, e: Event): State {
    (if Enabled(s, e) then Apply(s, e) else s).(steps := s.steps + 1)
  }

  function Exec(s: State, run: seq<Event>): State
    decreases |run|
  {
    if run == [] then s else Step(Exec(s, run[..|run| - 1]), run[|run| - 1])
  }

  // ---------- what every run keeps ----------

  /** No recorded generation is ahead of its counter. */
  predicate Behind(g: Generations, s: State) {
    forall c :: c in g ==> g[c] <= Generation(s, c)
  }

  /** The entry is what its writer wrote under this key, with the namespace and all its tags. */
  predicate EntryInv(s: State, key: Key, e: Entry) {
    Behind(e.generations, s) && e.writer in s.ops &&
    var writer := s.ops[e.writer];
    writer.Written? && writer.key == key && writer.value == e.value && writer.seen == e.generations && e.generations.Keys == Needs(writer.tags)
  }

  predicate WrittenSince(s: State, e: Entry, at: nat) {
    e.writer in s.ops && s.ops[e.writer].Written? && s.ops[e.writer].writtenAt >= at
  }

  /** What a get has read was written before; what is stored by now is the same, or was written since. */
  predicate ReadEntryInv(s: State, key: Key, e: Entry, readAt: nat) {
    && EntryInv(s, key, e) && !WrittenSince(s, e, readAt) && readAt < s.steps
    && (key in s.entries ==> s.entries[key] == e || WrittenSince(s, s.entries[key], readAt))
  }

  predicate OpInv(s: State, op: Operation) {
    match op
    case Setting(_, _, _, seen) => Behind(seen, s)
    case Written(_, _, _, seen, writtenAt) => Behind(seen, s) && writtenAt < s.steps
    case Looking(_) => true
    case Comparing(key, entry, checked, readAt) => ReadEntryInv(s, key, entry, readAt) && checked <= entry.generations.Keys
    case Dropping(key, entry, readAt) =>
      ReadEntryInv(s, key, entry, readAt) && exists c :: c in entry.generations && entry.generations[c] < Generation(s, c)
    case Hit(key, entry, readAt) => ReadEntryInv(s, key, entry, readAt)
    case Missed(_) => true
  }

  ghost predicate Inv(s: State) {
    && (forall key :: key in s.entries ==> EntryInv(s, key, s.entries[key]))
    && (forall op :: op in s.ops ==> OpInv(s, s.ops[op]))
  }

  /** Counters only grow, and what a set has read stays read. */
  ghost predicate Grows(s: State, n: State) {
    && s.steps <= n.steps
    && (forall c :: Generation(s, c) <= Generation(n, c))
    && (forall op :: op in s.ops ==> op in n.ops && Evolves(s.ops[op], n.ops[op]))
  }

  predicate Evolves(op: Operation, next: Operation) {
    && (op.Written? ==> next == op)
    && (op.Setting? ==> (next.Setting? || next.Written?) && next.key == op.key && next.value == op.value && next.tags == op.tags)
    && (op.Setting? ==> forall c :: c in op.seen ==> c in next.seen && next.seen[c] == op.seen[c])
  }

  lemma StepGrows(s: State, e: Event)
    ensures Grows(s, Step(s, e))
  {
  }

  lemma EntryFrame(s: State, n: State, key: Key, entry: Entry)
    requires EntryInv(s, key, entry) && Grows(s, n)
    ensures EntryInv(n, key, entry)
  {
  }

  /** A set that writes the key does so now. */
  ghost predicate WritesNow(s: State, n: State) {
    forall key :: key in n.entries ==> (key in s.entries && n.entries[key] == s.entries[key]) || WrittenSince(n, n.entries[key], s.steps)
  }

  lemma StepWritesNow(s: State, e: Event)
    ensures WritesNow(s, Step(s, e))
  {
  }

  lemma ReadFrame(s: State, n: State, key: Key, entry: Entry, readAt: nat)
    requires ReadEntryInv(s, key, entry, readAt) && Grows(s, n) && WritesNow(s, n)
    ensures ReadEntryInv(n, key, entry, readAt)
  {
    EntryFrame(s, n, key, entry);
  }

  lemma OpFrame(s: State, n: State, op: Operation)
    requires OpInv(s, op) && Grows(s, n) && WritesNow(s, n)
    ensures OpInv(n, op)
  {
    match op
    case Comparing(key, entry, _, readAt) => ReadFrame(s, n, key, entry, readAt);
    case Dropping(key, entry, readAt) =>
      ReadFrame(s, n, key, entry, readAt);
      var c :| c in entry.generations && entry.generations[c] < Generation(s, c);
      assert entry.generations[c] < Generation(n, c);
    case Hit(key, entry, readAt) => ReadFrame(s, n, key, entry, readAt);
    case _ =>
  }

  lemma StepKeepsInv(s: State, e: Event)
    requires Inv(s)
    ensures Inv(Step(s, e))
  {
    var n := Step(s, e);
    StepGrows(s, e);
    StepWritesNow(s, e);
    forall key | key in n.entries ensures EntryInv(n, key, n.entries[key]) {
      if key in s.entries && n.entries[key] == s.entries[key] {
        EntryFrame(s, n, key, s.entries[key]);
      } else {
        assert OpInv(s, s.ops[e.op]);
      }
    }
    forall op | op in n.ops ensures OpInv(n, n.ops[op]) {
      if op in s.ops && n.ops[op] == s.ops[op] {
        OpFrame(s, n, s.ops[op]);
      } else {
        ChangedOp(s, e);
      }
    }
  }

  lemma ChangedOp(s: State, e: Event)
    requires Inv(s) && Enabled(s, e) && !e.Increment? && !e.Remove?
    ensures e.op in Step(s, e).ops && OpInv(Step(s, e), Step(s, e).ops[e.op])
  {
    var n := Step(s, e);
    StepGrows(s, e);
    StepWritesNow(s, e);
    if e.op in s.ops {
      OpFrame(s, n, s.ops[e.op]);
    }
    if e.ReadEntry? && s.ops[e.op].key in s.entries {
      FirstReadInv(s, e.op);
    }
    if e.Compare? && n.ops[e.op].Dropping? {
      assert s.ops[e.op].entry.generations[e.counter] < Generation(n, e.counter);
    }
  }

  lemma FirstReadInv(s: State, op: OpId)
    requires Inv(s) && op in s.ops && s.ops[op].Looking? && s.ops[op].key in s.entries
    ensures OpInv(Step(s, ReadEntry(op)), Step(s, ReadEntry(op)).ops[op])
  {
    var key := s.ops[op].key;
    StepGrows(s, ReadEntry(op));
    EntryFrame(s, Step(s, ReadEntry(op)), key, s.entries[key]);
    assert OpInv(s, s.ops[s.entries[key].writer]);
  }

  lemma {:induction false} InvAlways(run: seq<Event>)
    ensures Inv(Exec(START, run)) && Exec(START, run).steps == |run|
    decreases |run|
  {
    if run != [] {
      InvAlways(run[..|run| - 1]);
      StepKeepsInv(Exec(START, run[..|run| - 1]), run[|run| - 1]);
    }
  }

  lemma {:induction false} ExecGrows(s: State, run: seq<Event>)
    ensures Grows(s, Exec(s, run))
    decreases |run|
  {
    if run != [] {
      ExecGrows(s, run[..|run| - 1]);
      StepGrows(Exec(s, run[..|run| - 1]), run[|run| - 1]);
    }
  }

  lemma {:induction false} ExecConcat(s: State, a: seq<Event>, b: seq<Event>)
    ensures Exec(s, a + b) == Exec(Exec(s, a), b)
    decreases |b|
  {
    if b == [] {
      assert a + b == a;
    } else {
      ExecConcat(s, a, b[..|b| - 1]);
      assert (a + b)[..|a + b| - 1] == a + b[..|b| - 1];
    }
  }

  // ---------- a get is valid at one instant ----------

  /** Right before the k-th event of the run the entry was stored under the key. */
  ghost predicate StoredAt(run: seq<Event>, k: nat, key: Key, entry: Entry) {
    k < |run| && key in Exec(START, run[..k]).entries && Exec(START, run[..k]).entries[key] == entry
  }

  /** At that instant the counter had the generation that the entry records. */
  ghost predicate CurrentAt(run: seq<Event>, k: nat, entry: Entry, counter: Counter) {
    k < |run| && counter in entry.generations && entry.generations[counter] == Generation(Exec(START, run[..k]), counter)
  }

  /** What a get has compared so far was current at the instant it read the entry. */
  ghost predicate ReadInv(run: seq<Event>, op: Operation) {
    match op
    case Comparing(key, entry, checked, k) =>
      StoredAt(run, k, key, entry) && forall c :: c in checked ==> CurrentAt(run, k, entry, c)
    case Hit(key, entry, k) =>
      StoredAt(run, k, key, entry) && forall c :: c in entry.generations ==> CurrentAt(run, k, entry, c)
    case _ => true
  }

  lemma InstantFrame(shorter: seq<Event>, run: seq<Event>, op: Operation)
    requires run != [] && shorter == run[..|run| - 1] && ReadInv(shorter, op)
    ensures ReadInv(run, op)
  {
    if op.Comparing? || op.Hit? {
      assert op.readAt < |shorter| ==> run[..op.readAt] == shorter[..op.readAt];
    }
  }

  lemma {:induction false} ReadsAreOfOneInstant(run: seq<Event>, op: OpId)
    requires op in Exec(START, run).ops
    ensures ReadInv(run, Exec(START, run).ops[op])
    decreases |run|
  {
    if run != [] {
      var last := |run| - 1;
      var s := Exec(START, run[..last]);
      if op in s.ops {
        ReadsAreOfOneInstant(run[..last], op);
        InstantFrame(run[..last], run, s.ops[op]);
        if Exec(START, run).ops[op] != s.ops[op] {
          ReadStep(run, op);
        }
      }
    }
  }

  lemma CountersGrow(run: seq<Event>, k: nat, last: nat, counter: Counter)
    requires k <= last <= |run|
    ensures Generation(Exec(START, run[..k]), counter) <= Generation(Exec(START, run[..last]), counter)
  {
    assert run[..last] == run[..k] + run[k..last];
    ExecConcat(START, run[..k], run[k..last]);
    ExecGrows(Exec(START, run[..k]), run[k..last]);
  }

  /** The squeeze: recorded <= current when the entry was read <= current now, and the ends are equal. */
  lemma Squeeze(run: seq<Event>, last: nat, k: nat, key: Key, entry: Entry, counter: Counter)
    requires last < |run| && k <= last && StoredAt(run, k, key, entry)
    requires counter in entry.generations && entry.generations[counter] == Generation(Exec(START, run[..last]), counter)
    ensures CurrentAt(run, k, entry, counter)
  {
    InvAlways(run[..k]);
    assert EntryInv(Exec(START, run[..k]), key, entry);
    CountersGrow(run, k, last, counter);
  }

  lemma ReadStep(run: seq<Event>, op: OpId)
    requires run != []
    requires var s := Exec(START, run[..|run| - 1]);
      op in s.ops && ReadInv(run, s.ops[op]) && Enabled(s, run[|run| - 1]) && op in Exec(START, run).ops &&
      Exec(START, run).ops[op] != s.ops[op]
    ensures ReadInv(run, Exec(START, run).ops[op])
  {
    var last := |run| - 1;
    var s := Exec(START, run[..last]);
    InvAlways(run[..last]);
    if run[last] == ReadEntry(op) {
      ReadEntryStep(run, op);
    } else if run[last].Compare? && run[last].op == op {
      CompareStep(run, op);
    }
  }

  lemma ReadEntryStep(run: seq<Event>, op: OpId)
    requires run != [] && run[|run| - 1] == ReadEntry(op)
    requires var s := Exec(START, run[..|run| - 1]); Enabled(s, ReadEntry(op)) && s.steps == |run| - 1
    ensures op in Exec(START, run).ops && ReadInv(run, Exec(START, run).ops[op])
  {
  }

  lemma CompareStep(run: seq<Event>, op: OpId)
    requires run != []
    requires var s := Exec(START, run[..|run| - 1]); var e := run[|run| - 1];
      e.Compare? && e.op == op && Enabled(s, e) && ReadInv(run, s.ops[op])
    ensures op in Exec(START, run).ops && ReadInv(run, Exec(START, run).ops[op])
  {
    var last := |run| - 1;
    var s := Exec(START, run[..last]);
    var was, c := s.ops[op], run[last].counter;
    InvAlways(run[..last]);
    assert OpInv(s, was);
    if Generation(s, c) == was.entry.generations[c] {
      Squeeze(run, last, was.readAt, was.key, was.entry, c);
    }
  }

  /** Some event of the run began this set. */
  ghost predicate SetBegun(run: seq<Event>, op: OpId, key: Key, value: Value, tags: set<Tag>) {
    exists i :: 0 <= i < |run| && run[i] == BeginSet(op, key, value, tags)
  }

  predicate Sets(s: State, op: OpId) {
    op in s.ops && (s.ops[op].Setting? || s.ops[op].Written?)
  }

  lemma {:induction false} SetsWereBegun(run: seq<Event>, op: OpId)
    requires Sets(Exec(START, run), op)
    ensures var set_ := Exec(START, run).ops[op]; SetBegun(run, op, set_.key, set_.value, set_.tags)
    decreases |run|
  {
    if run != [] {
      var last := |run| - 1;
      var s, n := Exec(START, run[..last]), Exec(START, run);
      if Sets(s, op) {
        SetsWereBegun(run[..last], op);
        var i :| 0 <= i < last && run[..last][i] == BeginSet(op, s.ops[op].key, s.ops[op].value, s.ops[op].tags);
        StepGrows(s, run[last]);
        assert run[i] == BeginSet(op, n.ops[op].key, n.ops[op].value, n.ops[op].tags);
      } else {
        BeginsSet(s, run[last], op);
      }
    }
  }

  lemma BeginsSet(s: State, e: Event, op: OpId)
    requires Sets(Step(s, e), op) && !Sets(s, op)
    ensures var n := Step(s, e); e == BeginSet(op, n.ops[op].key, n.ops[op].value, n.ops[op].tags)
  {
  }

  /**
   In every interleaving: the value that a get returns comes from one set of its key, and at
   one instant after the get began the entry was stored under the key while the namespace and
   all tags of that set had exactly the generations that the set had read.
   */
  lemma {:induction false} GetIsValidAtOneInstant(run: seq<Event>, op: OpId)
    requires op in Exec(START, run).ops && Exec(START, run).ops[op].Hit?
    ensures var hit := Exec(START, run).ops[op];
      exists k: nat, tags: set<Tag> ::
        (StoredAt(run, k, hit.key, hit.entry) && op in Exec(START, run[..k]).ops &&
         SetBegun(run, hit.entry.writer, hit.key, hit.entry.value, tags) &&
         forall c :: c in Needs(tags) ==> CurrentAt(run, k, hit.entry, c))
  {
    ReadsAreOfOneInstant(run, op);
    BegunBeforeReading(run, op);
    InvAlways(run);
    var s := Exec(START, run);
    assert OpInv(s, s.ops[op]);
    SetsWereBegun(run, s.ops[op].entry.writer);
    var k, tags := s.ops[op].readAt, s.ops[s.ops[op].entry.writer].tags;
    assert StoredAt(run, k, s.ops[op].key, s.ops[op].entry) && SetBegun(run, s.ops[op].entry.writer, s.ops[op].key, s.ops[op].entry.value, tags);
  }

  predicate Reads(s: State, op: OpId) {
    op in s.ops && (s.ops[op].Comparing? || s.ops[op].Hit?)
  }

  lemma {:induction false} BegunBeforeReading(run: seq<Event>, op: OpId)
    requires Reads(Exec(START, run), op)
    ensures var k := Exec(START, run).ops[op].readAt; k < |run| && op in Exec(START, run[..k]).ops
    decreases |run|
  {
    if run != [] {
      var last := |run| - 1;
      var s := Exec(START, run[..last]);
      var k := Exec(START, run).ops[op].readAt;
      if Reads(s, op) {
        BegunBeforeReading(run[..last], op);
        ReadAtIsKept(s, run[last], op);
        assert run[..last][..k] == run[..k];
      } else {
        InvAlways(run[..last]);
        FirstRead(s, run[last], op);
      }
    }
  }

  lemma FirstRead(s: State, e: Event, op: OpId)
    requires Reads(Step(s, e), op) && !Reads(s, op)
    ensures op in s.ops && Step(s, e).ops[op].readAt == s.steps
  {
  }

  lemma ReadAtIsKept(s: State, e: Event, op: OpId)
    requires Reads(s, op) && Reads(Step(s, e), op)
    ensures Step(s, e).ops[op].readAt == s.ops[op].readAt
  {
  }

  // ---------- invalidation ----------

  lemma ExecSnoc(s: State, run: seq<Event>, e: Event)
    ensures Exec(s, run + [e]) == Step(Exec(s, run), e)
  {
    assert (run + [e])[..|run + [e]| - 1] == run;
  }

  /**
   A get that begins after a tag was invalidated, or the namespace cleared, never returns a
   value whose set had read that counter before the increment.
   */
  lemma InvalidationIsFinal(before: seq<Event>, counter: Counter, after: seq<Event>, op: OpId)
    requires var run := before + [Increment(counter)] + after; var s := Exec(START, run);
      op in s.ops && s.ops[op].Hit?
    requires op !in Exec(START, before).ops
    ensures var entry := Exec(START, before + [Increment(counter)] + after).ops[op].entry;
      var s := Exec(START, before);
      !(entry.writer in s.ops && (s.ops[entry.writer].Setting? || s.ops[entry.writer].Written?) && counter in s.ops[entry.writer].seen)
  {
    var run := before + [Increment(counter)] + after;
    var s, n := Exec(START, before), Exec(START, run);
    var entry := n.ops[op].entry;
    ReadsAreOfOneInstant(run, op);
    BegunBeforeReading(run, op);
    var k := n.ops[op].readAt;
    var m := Exec(START, run[..k]);
    InvAlways(run);
    InvAlways(before);
    ReadAfterIncrement(before, counter, after, op, k);
    assert counter in entry.generations ==> CurrentAt(run, k, entry, counter);
    assert run == before + ([Increment(counter)] + after);
    ExecConcat(START, before, [Increment(counter)] + after);
    ExecGrows(s, [Increment(counter)] + after);
    assert OpInv(n, n.ops[op]) && EntryInv(n, n.ops[op].key, entry);
    assert entry.writer in s.ops ==> OpInv(s, s.ops[entry.writer]) && Evolves(s.ops[entry.writer], n.ops[entry.writer]);
  }

  lemma ReadAfterIncrement(before: seq<Event>, counter: Counter, after: seq<Event>, op: OpId, k: nat)
    requires op !in Exec(START, before).ops
    requires var run := before + [Increment(counter)] + after; k < |run| && op in Exec(START, run[..k]).ops
    ensures var run := before + [Increment(counter)] + after;
      Generation(Exec(START, run[..k]), counter) > Generation(Exec(START, before), counter)
  {
    var run := before + [Increment(counter)] + after;
    if k <= |before| {
      assert before == run[..k] + before[k..];
      ExecConcat(START, run[..k], before[k..]);
      ExecGrows(Exec(START, run[..k]), before[k..]);
    } else {
      var middle := before + [Increment(counter)];
      assert run[..k] == middle + after[..k - |middle|];
      ExecSnoc(START, before, Increment(counter));
      ExecConcat(START, middle, after[..k - |middle|]);
      ExecGrows(Exec(START, middle), after[..k - |middle|]);
    }
  }

  /** A get drops only entries that have really been invalidated: some counter has moved past the entry. */
  lemma DroppedEntriesAreStale(run: seq<Event>, op: OpId)
    requires op in Exec(START, run).ops && Exec(START, run).ops[op].Dropping?
    ensures var s := Exec(START, run); var entry := s.ops[op].entry;
      exists c :: c in entry.generations && entry.generations[c] < Generation(s, c)
  {
    InvAlways(run);
    assert OpInv(Exec(START, run), Exec(START, run).ops[op]);
  }

  // ---------- what a drop removes ----------

  predicate Current(s: State, entry: Entry) {
    forall c :: c in entry.generations ==> entry.generations[c] == Generation(s, c)
  }

  /** The event deletes an entry of which every generation is current. */
  predicate LosesCurrent(s: State, e: Event, key: Key) {
    key in s.entries && Current(s, s.entries[key]) && key !in Step(s, e).entries
  }

  /** The k-th event of the run stored an entry of the given set under the key. */
  ghost predicate WrittenBy(run: seq<Event>, k: nat, op: OpId, key: Key) {
    k < |run| && run[k] == Write(op) && Enabled(Exec(START, run[..k]), run[k]) && Exec(START, run[..k]).ops[op].key == key
  }

  lemma {:induction false} WritersWrote(run: seq<Event>, op: OpId)
    requires op in Exec(START, run).ops && Exec(START, run).ops[op].Written?
    ensures var writer := Exec(START, run).ops[op]; WrittenBy(run, writer.writtenAt, op, writer.key)
    decreases |run|
  {
    if run != [] {
      var last := |run| - 1;
      var s := Exec(START, run[..last]);
      InvAlways(run[..last]);
      if op in s.ops && s.ops[op].Written? {
        WritersWrote(run[..last], op);
        StepGrows(s, run[last]);
        assert run[..last][..s.ops[op].writtenAt] == run[..s.ops[op].writtenAt];
      } else {
        FirstWrite(s, run[last], op);
      }
    }
  }

  lemma FirstWrite(s: State, e: Event, op: OpId)
    requires op in Step(s, e).ops && Step(s, e).ops[op].Written? && !(op in s.ops && s.ops[op].Written?)
    ensures e == Write(op) && Enabled(s, e) && s.ops[op].key == Step(s, e).ops[op].key && Step(s, e).ops[op].writtenAt == s.steps
  {
  }

  /** A set writes once: what it has written says when. */
  lemma {:induction false} WritesOnce(run: seq<Event>, k: nat, op: OpId, key: Key)
    requires WrittenBy(run, k, op, key)
    ensures op in Exec(START, run).ops && Exec(START, run).ops[op].Written? && Exec(START, run).ops[op].writtenAt == k
  {
    InvAlways(run[..k]);
    assert run[..k + 1] == run[..k] + [Write(op)];
    ExecSnoc(START, run[..k], Write(op));
    GrowsSince(run, k + 1);
  }

  lemma GrowsSince(run: seq<Event>, k: nat)
    requires k <= |run|
    ensures Grows(Exec(START, run[..k]), Exec(START, run))
  {
    assert run[..k] + run[k..] == run;
    ExecConcat(START, run[..k], run[k..]);
    ExecGrows(Exec(START, run[..k]), run[k..]);
  }

  /** What is stored is no longer what the get read, just when a set has written it since. */
  lemma {:induction false} AnotherEntryIsNewer(run: seq<Event>, op: OpId)
    requires var s := Exec(START, run); op in s.ops && s.ops[op].Dropping? && s.ops[op].key in s.entries
    ensures var s := Exec(START, run); var drop := s.ops[op];
      s.entries[drop.key] != drop.entry <==> exists k: nat :: k >= drop.readAt && WrittenBy(run, k, s.entries[drop.key].writer, drop.key)
  {
    InvAlways(run);
    var s := Exec(START, run);
    var drop := s.ops[op];
    assert OpInv(s, drop) && EntryInv(s, drop.key, s.entries[drop.key]);
    var writer := s.entries[drop.key].writer;
    WritersWrote(run, writer);
    forall k: nat | WrittenBy(run, k, writer, drop.key) ensures k == s.ops[writer].writtenAt {
      WritesOnce(run, k, writer, drop.key);
    }
  }

  /**
   The deletion names the key, not the entry. It removes a current entry just when a set has
   stored one under the key since the get read what it is about to drop: exactly when the
   stored entry is no longer the one that was read, and is current.
   */
  lemma {:induction false} DropRemovesCurrentExactly(run: seq<Event>, op: OpId)
    requires op in Exec(START, run).ops && Exec(START, run).ops[op].Dropping?
    ensures var s := Exec(START, run); var drop := s.ops[op];
      (LosesCurrent(s, Drop(op), drop.key) <==>
         drop.key in s.entries && s.entries[drop.key] != drop.entry && Current(s, s.entries[drop.key])) &&
      (drop.key in s.entries ==>
         (s.entries[drop.key] != drop.entry <==>
          exists k: nat :: k >= drop.readAt && WrittenBy(run, k, s.entries[drop.key].writer, drop.key)))
  {
    InvAlways(run);
    var s := Exec(START, run);
    DropLoses(s, op);
    if s.ops[op].key in s.entries {
      AnotherEntryIsNewer(run, op);
    }
  }

  lemma DropLoses(s: State, op: OpId)
    requires Inv(s) && op in s.ops && s.ops[op].Dropping?
    ensures var drop := s.ops[op];
      LosesCurrent(s, Drop(op), drop.key) <==>
        drop.key in s.entries && s.entries[drop.key] != drop.entry && Current(s, s.entries[drop.key])
  {
    assert OpInv(s, s.ops[op]);
  }

  lemma Continues(s: State, run: seq<Event>, e: Event, n: State)
    requires s == Exec(START, run) && n == Step(s, e)
    ensures n == Exec(START, run + [e])
  {
    ExecSnoc(START, run, e);
  }

  /** A set of the key, without tags, that ends between two instants. */
  lemma SetsKey(s: State, run: seq<Event>, op: OpId, key: Key, value: Value) returns (longer: seq<Event>, n: State)
    requires s == Exec(START, run) && op !in s.ops
    ensures n == Exec(START, longer) && n.generations == s.generations && n.steps == s.steps + 3
    ensures n.entries == s.entries[key := Entry(map[Namespace := Generation(s, Namespace)], value, op)]
    ensures forall x :: x in s.ops ==> x in n.ops && n.ops[x] == s.ops[x]
    ensures forall x :: x in n.ops ==> x in s.ops || x == op
  {
    var s1 := Step(s, BeginSet(op, key, value, {}));
    Continues(s, run, BeginSet(op, key, value, {}), s1);
    assert Needs({}) == {Namespace};
    var s2 := Step(s1, ReadForSet(op, Namespace));
    Continues(s1, run + [BeginSet(op, key, value, {})], ReadForSet(op, Namespace), s2);
    assert s2.ops[op].seen == map[Namespace := Generation(s, Namespace)];
    n := Step(s2, Write(op));
    longer := run + [BeginSet(op, key, value, {})] + [ReadForSet(op, Namespace)] + [Write(op)];
    Continues(s2, run + [BeginSet(op, key, value, {})] + [ReadForSet(op, Namespace)], Write(op), n);
  }

  /** The get has read an entry, the cache is cleared, and the comparison fails. */
  lemma FindsItStale(s: State, run: seq<Event>, op: OpId, key: Key) returns (longer: seq<Event>, n: State)
    requires s == Exec(START, run) && op !in s.ops
    requires key in s.entries && s.entries[key].generations == map[Namespace := Generation(s, Namespace)]
    ensures n == Exec(START, longer) && op in n.ops && n.ops[op].Dropping? && n.ops[op].key == key
    ensures forall x :: x in n.ops ==> x in s.ops || x == op
  {
    var s1 := Step(s, BeginGet(op, key));
    Continues(s, run, BeginGet(op, key), s1);
    var s2 := Step(s1, ReadEntry(op));
    Continues(s1, run + [BeginGet(op, key)], ReadEntry(op), s2);
    var s3 := Step(s2, Increment(Namespace));
    Continues(s2, run + [BeginGet(op, key)] + [ReadEntry(op)], Increment(Namespace), s3);
    n := Step(s3, Compare(op, Namespace));
    longer := run + [BeginGet(op, key)] + [ReadEntry(op)] + [Increment(Namespace)] + [Compare(op, Namespace)];
    Continues(s3, run + [BeginGet(op, key)] + [ReadEntry(op)] + [Increment(Namespace)], Compare(op, Namespace), n);
  }

  /** It happens: some run from the start ends with a current entry, and a get that is about to delete it. */
  lemma {:induction false} FreshEntryIsDropped(key: Key, old_: Value, fresh_: Value)
    ensures exists run, op ::
      (var s := Exec(START, run);
       op in s.ops && s.ops[op].Dropping? && key in s.entries && s.entries[key].value == fresh_ && LosesCurrent(s, Drop(op), key))
  {
    var run1, s1 := SetsKey(START, [], 0, key, old_);
    var run2, s2 := FindsItStale(s1, run1, 1, key);
    var run3, s3 := SetsKey(s2, run2, 2, key, fresh_);
    assert LosesCurrent(s3, Drop(1), key);
    assert s3 == Exec(START, run3);
  }
}
