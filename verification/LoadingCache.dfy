/**
 `get_or_load` for one cache key as a state machine: any number of callers, writers that
 `set` the key at any time, and leases and values that expire at any time. Each GET and each
 script is one event. A caller can be cancelled wherever it awaits, and a script's reply can
 be lost after Redis ran it. An event that is not enabled changes nothing.
 */
module LoadingCache {
  import opened Wrappers
  import opened LeaseScripts

  type CallerId = nat

  datatype Result = Returned(value: Option<Value>) | Raised | TimedOut

  /** Where a call of `get_or_load` is. */
  datatype Phase =
    | Looking                                    // about to GET the value
    | Claiming                                   // about to run the acquire script
    | Waiting                                    // somebody else holds the lease
    | Rechecking(token: string)                  // owner, about to GET the value again
    | Loading(token: string)                     // the loader runs
    | Publishing(token: string, loaded: Value)   // about to publish the loader's value
    | Failing(token: string)                     // about to publish the failure
    | Releasing(token: string, result: Result)   // about to release the lease
    | Done(result: Result)

  datatype Caller = Caller(phase: Phase, loads: nat, loaded: Option<Value>)

  /** `issued`: all tokens so far. `stored`: every value that a `set` or a publication put under the key. */
  datatype State = State(keys: Keys, callers: map<CallerId, Caller>, issued: set<string>, stored: set<Value>)

  datatype Event =
    | Call(c: CallerId)
    | Look(c: CallerId)
    | Claim(c: CallerId, uuid: string, replyLost: bool)
    | Sleep(c: CallerId)
    | GiveUp(c: CallerId)                        // the wait timeout passed
    | Recheck(c: CallerId)
    | LoaderReturns(c: CallerId, value: Option<Value>)
    | LoaderFails(c: CallerId)                   // or its value cannot be published
    | Publish(c: CallerId, replyLost: bool)
    | Fail(c: CallerId, data: string)
    | Release(c: CallerId, replyLost: bool)
    | Cancel(c: CallerId)                        // wherever the caller awaits
    | CleanupFails(c: CallerId)                  // the failure or release script did not run
    | Store(put: Value)                          // `set` by anybody
    | LeaseExpires
    | ValueExpires

  const START: State := State(Keys(None, None), map[], {}, {})

  predicate At(s: State, c: CallerId, e: Event) {
    c in s.callers &&
    match s.callers[c].phase
    case Looking => e.Look? || e.Cancel?
    case Claiming => e.Claim? || e.Cancel?
    case Waiting => e.Sleep? || e.GiveUp? || e.Cancel?
    case Rechecking(_) => e.Recheck? || e.Cancel?
    case Loading(_) => e.LoaderReturns? || e.LoaderFails? || e.Cancel?
    case Publishing(_, _) => e.Publish? || e.LoaderFails? || e.Cancel?
    case Failing(_) => e.Fail? || e.CleanupFails?
    case Releasing(_, result) => e.Release? || e.CleanupFails?
    case Done(_) => false
  }

  predicate Enabled(s: State, e: Event) {
    match e
    case Call(c) => c !in s.callers
    case Claim(c, uuid, _) => At(s, c, e) && Token(uuid) !in s.issued
    case Store(_) => true
    case LeaseExpires => true
    case ValueExpires => true
    case _ => At(s, e.c, e)
  }

  function Become(s: State, c: CallerId, phase: Phase): State
    requires c in s.callers
  {
    s.(callers := s.callers[c := s.callers[c].(phase := phase)])
  }

  function AfterClaim(s: State, c: CallerId, token: string, replyLost: bool): State
    requires c in s.callers
  {
    var (keys, acquired) := AcquireLease(s.keys, token);
    Become(s, c, if replyLost then Done(Raised) else if acquired then Rechecking(token) else Waiting).(keys := keys, issued := s.issued + {token})
  }

  /** A present value is returned and the lease given back; otherwise the loader runs. */
  function AfterRecheck(s: State, c: CallerId, token: string): State
    requires c in s.callers
  {
    if s.keys.value.Some? then Become(s, c, Releasing(token, Returned(s.keys.value)))
    else s.(callers := s.callers[c := s.callers[c].(phase := Loading(token), loads := s.callers[c].loads + 1)])
  }

  function AfterLoad(s: State, c: CallerId, token: string, value: Option<Value>): State
    requires c in s.callers
  {
    var caller := s.callers[c].(loaded := value);
    s.(callers := s.callers[c := caller.(phase :=
      if value.None? then Releasing(token, Returned(None)) else Publishing(token, value.value))])
  }

  function AfterPublish(s: State, c: CallerId, token: string, loaded: Value, replyLost: bool): State
    requires c in s.callers
  {
    var keys := PublishValue(s.keys, token, loaded);
    Become(s, c, if replyLost then Failing(token) else Done(Returned(Some(loaded)))).(
      keys := keys, stored := s.stored + if keys.value == Some(loaded) then {loaded} else {})
  }

  /** Inside the loader's try block a cancellation releases the lease; elsewhere it just ends the call. */
  function AfterCancel(s: State, c: CallerId): State
    requires c in s.callers
  {
    var phase := s.callers[c].phase;
    Become(s, c, if phase.Loading? || phase.Publishing? then Releasing(phase.token, Raised) else Done(Raised))
  }

  function Apply(s: State, e: Event): State
    requires Enabled(s, e)
  {
    match e
    case Call(c) => s.(callers := s.callers[c := Caller(Looking, 0, None)])
    case Look(c) => Become(s, c, if s.keys.value.Some? then Done(Returned(s.keys.value)) else Claiming)
    case Claim(c, uuid, lost) => AfterClaim(s, c, Token(uuid), lost)
    case Sleep(c) => Become(s, c, Looking)
    case GiveUp(c) => Become(s, c, Done(TimedOut))
    case Recheck(c) => AfterRecheck(s, c, s.callers[c].phase.token)
    case LoaderReturns(c, value) => AfterLoad(s, c, s.callers[c].phase.token, value)
    case LoaderFails(c) => Become(s, c, Failing(s.callers[c].phase.token))
    case Publish(c, lost) => AfterPublish(s, c, s.callers[c].phase.token, s.callers[c].phase.loaded, lost)
    case Fail(c, data) =>
      Become(s, c, Done(Raised)).(keys := PublishFailure(s.keys, s.callers[c].phase.token, FailureMark(data)))
    case Release(c, lost) =>
      Become(s, c, Done(if lost then Raised else s.callers[c].phase.result)).(keys := ReleaseLease(s.keys, s.callers[c].phase.token))
    case Cancel(c) => AfterCancel(s, c)
    case CleanupFails(c) => Become(s, c, Done(Raised))
    case Store(value) => s.(keys := s.keys.(value := Some(value)), stored := s.stored + {value})
    case LeaseExpires => s.(keys := s.keys.(lease := None))
    case ValueExpires => s.(keys := s.keys.(value := None))
  }

  function Step(s: State, e: Event): State {
    if Enabled(s, e) then Apply(s, e) else s
  }

  function Exec(s: State, run: seq<Event>): State
    decreases |run|
  {
    if run == [] then s else Step(Exec(s, run[..|run| - 1]), run[|run| - 1])
  }

  // ---------- what every run keeps ----------

  predicate Owns(phase: Phase) {
    phase.Rechecking? || phase.Loading? || phase.Publishing? || phase.Failing? || phase.Releasing?
  }

  predicate HasToken(s: State, c: CallerId) {
    c in s.callers && Owns(s.callers[c].phase)
  }

  /** A result is the caller's own load or was stored by somebody. */
  predicate Sourced(s: State, caller: Caller, result: Result) {
    result.Returned? && result.value.Some? ==> result.value == caller.loaded || result.value.value in s.stored
  }

  predicate CallerInv(s: State, caller: Caller) {
    && (Owns(caller.phase) ==> caller.phase.token in s.issued)
    && (caller.phase.Looking? || caller.phase.Claiming? || caller.phase.Waiting? || caller.phase.Rechecking? ==> caller.loads == 0)
    && caller.loads <= 1
    && (caller.phase.Loading? ==> caller.loads == 1)
    && (caller.loaded.Some? ==> caller.loads == 1)
    && (caller.phase.Publishing? ==> caller.loaded == Some(caller.phase.loaded))
    && (caller.phase.Releasing? ==> Sourced(s, caller, caller.phase.result))
    && (caller.phase.Done? ==> Sourced(s, caller, caller.phase.result))
  }

  ghost predicate Inv(s: State) {
    && (forall c :: c in s.callers ==> CallerInv(s, s.callers[c]))
    && (forall c, d :: c != d && HasToken(s, c) && HasToken(s, d) ==> s.callers[c].phase.token != s.callers[d].phase.token)
    && (s.keys.value.Some? ==> s.keys.value.value in s.stored)
    && (s.keys.lease.Some? ==> s.keys.lease.value in s.issued || FAILED_PREFIX <= s.keys.lease.value)
    && (forall token :: token in s.issued ==> IN_PROGRESS_PREFIX <= token)
  }

  lemma NotAFailure(token: string)
    requires IN_PROGRESS_PREFIX <= token
    ensures !(FAILED_PREFIX <= token)
  {
    assert token[2] == IN_PROGRESS_PREFIX[2] == 'I' && FAILED_PREFIX[2] == 'F';
  }

  lemma CallerFrame(s: State, n: State, caller: Caller)
    requires CallerInv(s, caller) && s.issued <= n.issued && s.stored <= n.stored
    ensures CallerInv(n, caller)
  {
  }

  lemma StepKeepsCaller(s: State, e: Event, c: CallerId)
    requires Inv(s) && c in Step(s, e).callers
    ensures CallerInv(Step(s, e), Step(s, e).callers[c])
  {
    if c in s.callers {
      assert CallerInv(s, s.callers[c]);
      if e.Store? || e.LeaseExpires? || e.ValueExpires? || e.c != c {
        CallerFrame(s, Step(s, e), s.callers[c]);
      } else if e.Claim? || e.Publish? || e.Fail? || e.Release? {
        ScriptKeepsCaller(s, e);
      } else {
        MoveKeepsCaller(s, e);
      }
    }
  }

  lemma ScriptKeepsCaller(s: State, e: Event)
    requires e.Claim? || e.Publish? || e.Fail? || e.Release?
    requires e.c in s.callers && CallerInv(s, s.callers[e.c])
    ensures CallerInv(Step(s, e), Step(s, e).callers[e.c])
  {
  }

  lemma MoveKeepsCaller(s: State, e: Event)
    requires Inv(s) && !e.Claim? && !e.Publish? && !e.Fail? && !e.Release? && !e.Store? && !e.LeaseExpires? && !e.ValueExpires?
    requires e.c in s.callers && CallerInv(s, s.callers[e.c])
    ensures CallerInv(Step(s, e), Step(s, e).callers[e.c])
  {
  }

  lemma StepKeepsInv(s: State, e: Event)
    requires Inv(s)
    ensures Inv(Step(s, e))
  {
    var n := Step(s, e);
    forall c | c in n.callers ensures CallerInv(n, n.callers[c]) {
      StepKeepsCaller(s, e, c);
    }
    StepKeepsTokens(s, e);
    StepKeepsKeys(s, e);
  }

  lemma StepKeepsTokens(s: State, e: Event)
    requires Inv(s)
    ensures var n := Step(s, e);
      forall c, d :: c != d && HasToken(n, c) && HasToken(n, d) ==> n.callers[c].phase.token != n.callers[d].phase.token
  {
    var n := Step(s, e);
    forall c | HasToken(n, c)
      ensures (HasToken(s, c) && n.callers[c].phase.token == s.callers[c].phase.token) ||
              (e.Claim? && c == e.c && n.callers[c].phase.token !in s.issued)
    {
      TokenStep(s, e, c);
    }
  }

  /** A caller keeps its token, or has just drawn a fresh one. */
  lemma TokenStep(s: State, e: Event, c: CallerId)
    requires HasToken(Step(s, e), c)
    ensures (HasToken(s, c) && Step(s, e).callers[c].phase.token == s.callers[c].phase.token) ||
            (e.Claim? && c == e.c && Step(s, e).callers[c].phase.token !in s.issued)
  {
  }

  lemma StepKeepsKeys(s: State, e: Event)
    requires Inv(s)
    ensures var n := Step(s, e);
      && (n.keys.value.Some? ==> n.keys.value.value in n.stored)
      && (n.keys.lease.Some? ==> n.keys.lease.value in n.issued || FAILED_PREFIX <= n.keys.lease.value)
      && (forall token :: token in n.issued ==> IN_PROGRESS_PREFIX <= token)
  {
  }

  lemma {:induction false} InvAlways(run: seq<Event>)
    ensures Inv(Exec(START, run))
    decreases |run|
  {
    if run != [] {
      InvAlways(run[..|run| - 1]);
      StepKeepsInv(Exec(START, run[..|run| - 1]), run[|run| - 1]);
    }
  }

  lemma {:induction false} ExecConcat(s: State, a: seq<Event>, b: seq<Event>)
    ensures Exec(s, a + b) == Exec(Exec(s, a), b)
    decreases |b|
  {
    if b == [] {
      assert a + b == a;
    } else {
      ExecConcat(s, a, b[..|b| - 1]);
      assert (a + b)[..|a + b| - 1] == a + b[..|b| - 1];
    }
  }

  // ---------- exclusion and provenance ----------

  /** Each call runs its loader at most once. */
  lemma LoadsAtMostOnce(run: seq<Event>, c: CallerId)
    requires c in Exec(START, run).callers
    ensures Exec(START, run).callers[c].loads <= 1
  {
    InvAlways(run);
    assert CallerInv(Exec(START, run), Exec(START, run).callers[c]);
  }

  /** Of two callers past acquisition, loading or not, the lease holds the token of at most one. */
  lemma OneOwnerHoldsTheLease(run: seq<Event>, c: CallerId, d: CallerId)
    requires var s := Exec(START, run); c != d && HasToken(s, c) && HasToken(s, d)
    ensures var s := Exec(START, run);
      s.keys.lease != Some(s.callers[c].phase.token) || s.keys.lease != Some(s.callers[d].phase.token)
  {
    InvAlways(run);
  }

  /** Every value that a call returns is its own load, or was stored by a `set` or a publication. */
  lemma ResultsHaveASource(run: seq<Event>, c: CallerId)
    requires var s := Exec(START, run);
      c in s.callers && s.callers[c].phase.Done? && s.callers[c].phase.result.Returned? && s.callers[c].phase.result.value.Some?
    ensures var s := Exec(START, run); var caller := s.callers[c];
      caller.phase.result.value == caller.loaded || StoredBy(run, caller.phase.result.value.value)
  {
    InvAlways(run);
    var s := Exec(START, run);
    assert CallerInv(s, s.callers[c]);
    if s.callers[c].phase.result.value != s.callers[c].loaded {
      StoredValuesWereStored(run, s.callers[c].phase.result.value.value);
    }
  }

  /** Some event of the run put the value under the key: a `set`, or an owner's publication of its own load. */
  ghost predicate StoredBy(run: seq<Event>, value: Value) {
    exists k :: 0 <= k < |run| && (run[k] == Store(value) || Publishes(Exec(START, run[..k]), run[k], value))
  }

  predicate Publishes(s: State, e: Event, value: Value) {
    e.Publish? && Enabled(s, e) && s.callers[e.c].phase.loaded == value && Step(s, e).keys.value == Some(value)
  }

  lemma {:induction false} StoredValuesWereStored(run: seq<Event>, value: Value)
    requires value in Exec(START, run).stored
    ensures StoredBy(run, value)
    decreases |run|
  {
    if run != [] {
      var last := |run| - 1;
      var s := Exec(START, run[..last]);
      if value in s.stored {
        StoredValuesWereStored(run[..last], value);
        var k :| 0 <= k < last && (run[k] == Store(value) || Publishes(Exec(START, run[..last][..k]), run[k], value));
        assert run[..last][..k] == run[..k];
      } else {
        assert run[last] == Store(value) || Publishes(s, run[last], value);
      }
    }
  }

  // ---------- successors ----------

  /** The caller acquired the lease at some time and has not finished, but the lease holds something else by now. */
  predicate LostLease(s: State, c: CallerId) {
    HasToken(s, c) && s.keys.lease != Some(s.callers[c].phase.token)
  }

  lemma LostStep(s: State, e: Event, token: string)
    requires Inv(s) && token in s.issued && s.keys.lease != Some(token)
    ensures token in Step(s, e).issued && Step(s, e).keys.lease != Some(token)
  {
    NotAFailure(token);
  }

  lemma {:induction false} LostForever(s: State, after: seq<Event>, token: string)
    requires Inv(s) && token in s.issued && s.keys.lease != Some(token)
    ensures var n := Exec(s, after); Inv(n) && token in n.issued && n.keys.lease != Some(token)
    decreases |after|
  {
    if after != [] {
      LostForever(s, after[..|after| - 1], token);
      LostStep(Exec(s, after[..|after| - 1]), after[|after| - 1], token);
      StepKeepsInv(Exec(s, after[..|after| - 1]), after[|after| - 1]);
    }
  }

  /**
   An owner whose lease expired never harms its successors: from then on, whatever happens,
   nothing it does - publish, fail, release, be cancelled - changes the lease or the value.
   */
  lemma ExpiredOwnersAreInert(before: seq<Event>, after: seq<Event>, e: Event, c: CallerId)
    requires LostLease(Exec(START, before), c)
    requires var s, n := Exec(START, before), Exec(START, before + after);
      HasToken(n, c) && n.callers[c].phase.token == s.callers[c].phase.token
    requires !e.Store? && !e.LeaseExpires? && !e.ValueExpires? && e.c == c
    ensures Step(Exec(START, before + after), e).keys == Exec(START, before + after).keys
  {
    var s := Exec(START, before);
    InvAlways(before);
    assert CallerInv(s, s.callers[c]);
    ExecConcat(START, before, after);
    LostForever(s, after, s.callers[c].phase.token);
  }

  /** Only an owner's own events use its token: nobody else's publication, failure or release can touch a held lease. */
  lemma HeldLeasesChangeOnlyByTheirOwner(run: seq<Event>, e: Event, c: CallerId)
    requires var s := Exec(START, run);
      HasToken(s, c) && s.keys.lease == Some(s.callers[c].phase.token) && Step(s, e).keys.lease != s.keys.lease
    ensures e.LeaseExpires? || (!e.Store? && !e.ValueExpires? && e.c == c)
  {
    InvAlways(run);
    HeldLeaseStep(Exec(START, run), e, c);
  }

  lemma HeldLeaseStep(s: State, e: Event, c: CallerId)
    requires Inv(s) && HasToken(s, c) && s.keys.lease == Some(s.callers[c].phase.token) && Step(s, e).keys.lease != s.keys.lease
    ensures e.LeaseExpires? || (!e.Store? && !e.ValueExpires? && e.c == c)
  {
    assert CallerInv(s, s.callers[c]);
    NotAFailure(s.callers[c].phase.token);
    assert forall d :: d != c && HasToken(s, d) ==> s.callers[d].phase.token != s.callers[c].phase.token;
  }

  predicate NoSetNoExpiry(run: seq<Event>) {
    forall k :: 0 <= k < |run| ==> !run[k].Store? && !run[k].ValueExpires?
  }

  /** A present value outlives every load: no caller, owner or not, ever overwrites or removes it. */
  lemma {:induction false} PresentValuesSurvive(s: State, after: seq<Event>)
    requires s.keys.value.Some? && NoSetNoExpiry(after)
    ensures Exec(s, after).keys.value == s.keys.value
    decreases |after|
  {
    if after != [] {
      PresentValuesSurvive(s, after[..|after| - 1]);
      PresentStep(Exec(s, after[..|after| - 1]), after[|after| - 1]);
    }
  }

  lemma PresentStep(s: State, e: Event)
    requires s.keys.value.Some? && !e.Store? && !e.ValueExpires?
    ensures Step(s, e).keys.value == s.keys.value
  {
  }

  // ---------- what a publication leaves ----------

  /** The caller is about to publish, and its token is still in the lease. */
  predicate MayPublish(s: State, c: CallerId) {
    c in s.callers && s.callers[c].phase.Publishing? && s.keys.lease == Some(s.callers[c].phase.token)
  }

  /**
   A publication by the holder of the lease always leaves the key with a value and without a
   lease: the caller's own load, unless somebody's value was there before. From others it
   changes nothing. The call returns its load either way, but with a lost reply goes on to
   report a failure.
   */
  lemma PublicationStores(run: seq<Event>, c: CallerId, replyLost: bool)
    requires c in Exec(START, run).callers && Exec(START, run).callers[c].phase.Publishing?
    ensures var s := Exec(START, run); var n := Step(s, Publish(c, replyLost));
      if MayPublish(s, c) then
        n.keys.lease.None? && n.keys.value.Some? && n.keys.value == if s.keys.value.Some? then s.keys.value else s.callers[c].loaded
      else n.keys == s.keys
    ensures var s := Exec(START, run); var n := Step(s, Publish(c, replyLost));
      n.callers[c].phase == if replyLost then Failing(s.callers[c].phase.token) else Done(Returned(s.callers[c].loaded))
  {
    InvAlways(run);
    assert CallerInv(Exec(START, run), Exec(START, run).callers[c]);
  }

  /** What was published is what later callers get, and those who waited, without a load of their own, until a set or an expiry. */
  lemma LoadsAreReused(before: seq<Event>, c: CallerId, replyLost: bool, after: seq<Event>, d: CallerId)
    requires MayPublish(Exec(START, before), c) && Exec(START, before).keys.value.None? && NoSetNoExpiry(after)
    requires var n := Exec(START, before + [Publish(c, replyLost)] + after);
      d in n.callers && (n.callers[d].phase.Looking? || n.callers[d].phase.Waiting?)
    ensures var n := Exec(START, before + [Publish(c, replyLost)] + after);
      var m := if n.callers[d].phase.Waiting? then Step(n, Sleep(d)) else n;
      Step(m, Look(d)).callers[d] == n.callers[d].(phase := Done(Returned(Exec(START, before).callers[c].loaded)))
  {
    PublicationStores(before, c, replyLost);
    var published := before + [Publish(c, replyLost)];
    assert published[..|published| - 1] == before;
    ExecConcat(START, published, after);
    PresentValuesSurvive(Exec(START, published), after);
  }

  // ---------- who gets the lease ----------

  /**
   In every run a claim takes the lease just when nobody's token is in it; the caller is then its
   owner, or else waits. If the reply is lost, the call ends with an error either way.
   */
  lemma ClaimIsExact(run: seq<Event>, c: CallerId, uuid: string, replyLost: bool)
    requires Enabled(Exec(START, run), Claim(c, uuid, replyLost))
    ensures var s := Exec(START, run); var n := Step(s, Claim(c, uuid, replyLost));
      if s.keys.lease.Some? && s.keys.lease.value in s.issued
      then n.keys == s.keys && n.callers[c].phase == if replyLost then Done(Raised) else Waiting
      else n.keys == s.keys.(lease := Some(Token(uuid))) && n.callers[c].phase == if replyLost then Done(Raised) else Rechecking(Token(uuid))
  {
    InvAlways(run);
    var s := Exec(START, run);
    if s.keys.lease.Some? && s.keys.lease.value in s.issued {
      NotAFailure(s.keys.lease.value);
    }
  }

  predicate NoClaim(run: seq<Event>) {
    forall k :: 0 <= k < |run| ==> !run[k].Claim?
  }

  /** Without a claim nobody's token gets into the lease. */
  lemma {:induction false} StaysClaimable(s: State, after: seq<Event>)
    requires Inv(s) && (s.keys.lease.Some? ==> s.keys.lease.value !in s.issued) && NoClaim(after)
    ensures var n := Exec(s, after); Inv(n) && n.issued == s.issued && (n.keys.lease.Some? ==> n.keys.lease.value !in n.issued)
    decreases |after|
  {
    if after != [] {
      StaysClaimable(s, after[..|after| - 1]);
      ClaimableStep(Exec(s, after[..|after| - 1]), after[|after| - 1]);
      StepKeepsInv(Exec(s, after[..|after| - 1]), after[|after| - 1]);
    }
  }

  lemma ClaimableStep(s: State, e: Event)
    requires Inv(s) && (s.keys.lease.Some? ==> s.keys.lease.value !in s.issued) && !e.Claim?
    ensures var n := Step(s, e); n.issued == s.issued && (n.keys.lease.Some? ==> n.keys.lease.value !in n.issued)
  {
    if e.Fail? && Enabled(s, e) {
      assert CallerInv(s, s.callers[e.c]);
    }
  }

  /** The owner of the lease reports a failure. */
  predicate MayFail(s: State, c: CallerId) {
    c in s.callers && s.callers[c].phase.Failing? && s.keys.lease == Some(s.callers[c].phase.token)
  }

  /** A failed load leaves its mark in place of the token, and whoever claims first afterwards gets the lease at once. */
  lemma FailuresAreTakenOver(before: seq<Event>, c: CallerId, data: string, after: seq<Event>, d: CallerId, uuid: string)
    requires MayFail(Exec(START, before), c) && NoClaim(after)
    requires Enabled(Exec(START, before + [Fail(c, data)] + after), Claim(d, uuid, false))
    ensures Exec(START, before + [Fail(c, data)]).keys.lease == Some(FailureMark(data))
    ensures Exec(START, before + [Fail(c, data)]).callers[c].phase == Done(Raised)
    ensures var n := Step(Exec(START, before + [Fail(c, data)] + after), Claim(d, uuid, false));
      n.keys.lease == Some(Token(uuid)) && n.callers[d].phase == Rechecking(Token(uuid))
  {
    var failed := before + [Fail(c, data)];
    assert failed[..|failed| - 1] == before;
    ExecConcat(START, failed, after);
    InvAlways(failed);
    MarksAreNoTokens(Exec(START, failed), data);
    StaysClaimable(Exec(START, failed), after);
    ClaimIsExact(failed + after, d, uuid, false);
  }

  lemma MarksAreNoTokens(s: State, data: string)
    requires Inv(s)
    ensures FailureMark(data) !in s.issued
  {
    if FailureMark(data) in s.issued {
      NotAFailure(FailureMark(data));
    }
  }

  // ---------- owners give the lease back ----------

  /** The lease holds the token of a call that is past its claim. */
  predicate HoldsLease(s: State, c: CallerId) {
    HasToken(s, c) && s.keys.lease == Some(s.callers[c].phase.token)
  }

  /**
   A call never ends with its token in the lease, but for three ways: a cancellation before the
   loader starts, a script of the cleanup that did not run, and a claim whose reply is lost.
   */
  lemma LeasesAreGivenBack(run: seq<Event>, e: Event, c: CallerId)
    requires var s := Exec(START, run); HoldsLease(s, c) && Step(s, e).keys.lease == s.keys.lease
    ensures var s := Exec(START, run);
      !HoldsLease(Step(s, e), c) <==> Enabled(s, e) && (e == CleanupFails(c) || (e == Cancel(c) && s.callers[c].phase.Rechecking?))
  {
    InvAlways(run);
    GivenBackStep(Exec(START, run), e, c);
  }

  lemma GivenBackStep(s: State, e: Event, c: CallerId)
    requires Inv(s) && HoldsLease(s, c) && Step(s, e).keys.lease == s.keys.lease
    ensures !HoldsLease(Step(s, e), c) <==> Enabled(s, e) && (e == CleanupFails(c) || (e == Cancel(c) && s.callers[c].phase.Rechecking?))
  {
    assert CallerInv(s, s.callers[c]);
    if e.Fail? {
      MarksAreNoTokens(s, e.data);
    }
  }

  /** A token enters the lease only by a claim of a call that then is its owner, unless the reply is lost. */
  lemma OnlyOwnersClaim(run: seq<Event>, e: Event)
    requires var s, n := Exec(START, run), Step(Exec(START, run), e);
      n.keys.lease != s.keys.lease && n.keys.lease.Some? && n.keys.lease.value in n.issued
    ensures e.Claim? && (e.replyLost || HoldsLease(Step(Exec(START, run), e), e.c))
  {
    InvAlways(run);
    var s := Exec(START, run);
    if e.Fail? && Enabled(s, e) {
      MarksAreNoTokens(s, e.data);
    }
  }

  /** Only waiting calls time out: those that give up. */
  lemma OnlyWaitersTimeOut(run: seq<Event>, e: Event, c: CallerId)
    requires var s := Exec(START, run); c in s.callers && c in Step(s, e).callers && s.callers[c].phase != Done(TimedOut)
    ensures var s := Exec(START, run);
      Step(s, e).callers[c].phase == Done(TimedOut) <==> e == GiveUp(c) && s.callers[c].phase.Waiting?
  {
    InvAlways(run);
    if Exec(START, run).callers[c].phase.Releasing? {
      NoTimeoutPending(run, c);
    }
  }

  lemma {:induction false} NoTimeoutPending(run: seq<Event>, c: CallerId)
    requires c in Exec(START, run).callers && Exec(START, run).callers[c].phase.Releasing?
    ensures !Exec(START, run).callers[c].phase.result.TimedOut?
    decreases |run|
  {
    if run != [] {
      var s := Exec(START, run[..|run| - 1]);
      if c in s.callers && s.callers[c].phase.Releasing? {
        NoTimeoutPending(run[..|run| - 1], c);
      }
    }
  }

  /** A set replaces whatever was there, and what it stores is what later looks return, until the next set or an expiry. */
  lemma SetsAreReturned(before: seq<Event>, value: Value, after: seq<Event>, d: CallerId)
    requires NoSetNoExpiry(after)
    requires var n := Exec(START, before + [Store(value)] + after); d in n.callers && n.callers[d].phase.Looking?
    ensures var n := Exec(START, before + [Store(value)] + after);
      n.keys.value == Some(value) && Step(n, Look(d)).callers[d] == n.callers[d].(phase := Done(Returned(Some(value))))
  {
    ExecSnoc(START, before, Store(value));
    ExecConcat(START, before + [Store(value)], after);
    PresentValuesSurvive(Exec(START, before + [Store(value)]), after);
  }

  // ---------- when a loader runs ----------

  /** Loaders run for missing values only: the one event that starts one is the second look of an owner that finds nothing. */
  lemma LoadersRunForMissingValues(run: seq<Event>, e: Event, c: CallerId)
    requires var s := Exec(START, run); c in s.callers && c in Step(s, e).callers
    ensures var s := Exec(START, run);
      Step(s, e).callers[c].loads > s.callers[c].loads <==>
        e == Recheck(c) && s.callers[c].phase.Rechecking? && s.keys.value.None?
  {
  }

  lemma ExecSnoc(s: State, run: seq<Event>, e: Event)
    ensures Exec(s, run + [e]) == Step(Exec(s, run), e)
  {
    assert (run + [e])[..|run + [e]| - 1] == run;
  }

  /** A call that nobody disturbs returns a present value at its first look, without touching the lease. */
  lemma PresentValuesAreReturned(run: seq<Event>, c: CallerId)
    requires var s := Exec(START, run); c !in s.callers && s.keys.value.Some?
    ensures var s, n := Exec(START, run), Exec(START, run + [Call(c)] + [Look(c)]);
      n.keys == s.keys && n.callers == s.callers[c := Caller(Done(Returned(s.keys.value)), 0, None)]
  {
    ExecSnoc(START, run, Call(c));
    ExecSnoc(START, run + [Call(c)], Look(c));
  }

  /** If there is none and nobody holds the lease, the call that nobody disturbs runs its loader as owner. */
  lemma MissingValuesAreLoaded(run: seq<Event>, c: CallerId, uuid: string)
    requires var s := Exec(START, run);
      c !in s.callers && s.keys.value.None? && Token(uuid) !in s.issued && !(s.keys.lease.Some? && s.keys.lease.value in s.issued)
    ensures var s, n := Exec(START, run), Exec(START, run + [Call(c)] + [Look(c)] + [Claim(c, uuid, false)] + [Recheck(c)]);
      n.keys == Keys(Some(Token(uuid)), None) && n.callers == s.callers[c := Caller(Loading(Token(uuid)), 1, None)]
  {
    var looked := run + [Call(c)] + [Look(c)];
    ExecSnoc(START, run, Call(c));
    ExecSnoc(START, run + [Call(c)], Look(c));
    ClaimIsExact(looked, c, uuid, false);
    ExecSnoc(START, looked, Claim(c, uuid, false));
    ExecSnoc(START, looked + [Claim(c, uuid, false)], Recheck(c));
  }

  /** A value that has come meanwhile is returned by the owner, without a load and without its lease. */
  lemma LateValuesAreReturned(run: seq<Event>, c: CallerId)
    requires var s := Exec(START, run); HoldsLease(s, c) && s.callers[c].phase.Rechecking? && s.keys.value.Some?
    ensures var s, n := Exec(START, run), Exec(START, run + [Recheck(c)] + [Release(c, false)]);
      n.keys == Keys(None, s.keys.value) && n.callers == s.callers[c := s.callers[c].(phase := Done(Returned(s.keys.value)))]
  {
    ExecSnoc(START, run, Recheck(c));
    ExecSnoc(START, run + [Recheck(c)], Release(c, false));
  }

  /** A loader that fails leaves its mark in the lease, and the call ends with the error. */
  lemma FailedLoadsLeaveTheirMark(run: seq<Event>, c: CallerId, data: string)
    requires var s := Exec(START, run); HoldsLease(s, c) && (s.callers[c].phase.Loading? || s.callers[c].phase.Publishing?)
    ensures var s, n := Exec(START, run), Exec(START, run + [LoaderFails(c)] + [Fail(c, data)]);
      n.keys == s.keys.(lease := Some(FailureMark(data))) && n.callers == s.callers[c := s.callers[c].(phase := Done(Raised))]
  {
    ExecSnoc(START, run, LoaderFails(c));
    ExecSnoc(START, run + [LoaderFails(c)], Fail(c, data));
  }

  /** One that is cancelled leaves no lease. */
  lemma CancelledLoadsLeaveNoLease(run: seq<Event>, c: CallerId)
    requires var s := Exec(START, run); HoldsLease(s, c) && (s.callers[c].phase.Loading? || s.callers[c].phase.Publishing?)
    ensures var s, n := Exec(START, run), Exec(START, run + [Cancel(c)] + [Release(c, false)]);
      n.keys == s.keys.(lease := None) && n.callers == s.callers[c := s.callers[c].(phase := Done(Raised))]
  {
    ExecSnoc(START, run, Cancel(c));
    ExecSnoc(START, run + [Cancel(c)], Release(c, false));
  }

  /** What the loader returns is then stored and returned; that there is no value is returned and not stored. */
  lemma LoadedValuesAreReturned(run: seq<Event>, c: CallerId, loaded: Option<Value>)
    requires var s := Exec(START, run);
      HoldsLease(s, c) && s.callers[c].phase.Loading? && s.keys.value.None?
    ensures var s := Exec(START, run);
      var n := Exec(START, run + [LoaderReturns(c, loaded)] + [if loaded.Some? then Publish(c, false) else Release(c, false)]);
      n.keys == Keys(None, loaded) && n.callers == s.callers[c := s.callers[c].(phase := Done(Returned(loaded)), loaded := loaded)]
  {
    var ending := if loaded.Some? then Publish(c, false) else Release(c, false);
    ExecSnoc(START, run, LoaderReturns(c, loaded));
    ExecSnoc(START, run + [LoaderReturns(c, loaded)], ending);
  }
}
