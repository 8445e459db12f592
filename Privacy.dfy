/**
 * The privacy-context rotator of PrivacyContextManager.kt: one active privacy context,
 * created lazily, reset into a queue of zombie contexts when it leaks, and a bounded retry
 * loop that runs a fetch task again while its result asks for a privacy retry.
 *
 * A context is reduced to an identity and the two counters the manager marks; whether a
 * context has leaked, and what a fetch returns, come from the caller as functions.
 */
module Privacy {
  import opened Wrappers

  /** `maxRetry`. */
  const MaxRetry := 2

  /** A BrowserPrivacyContext: its identity, the marks it received, and whether it was closed. */
  datatype Context = Context(id: nat, warnings: nat, successes: nat, closed: bool)

  datatype RetryScope = Privacy | Crawl | Protocol

  /** The part of a response status the manager looks at. */
  datatype Status = Success | Retry(scope: RetryScope) | Failed(code: int)

  datatype FetchResult = FetchResult(status: Status)

  /**
   * What running the task in a context does: return a result, throw PrivacyLeakException, or
   * throw any other exception, which `run0` does not catch.
   */
  datatype Outcome = Returned(result: FetchResult) | PrivacyLeak | Threw

  /** The exception that leaves `run0`: anything but PrivacyLeakException thrown by the task. */
  datatype Run0Error = FetchThrew

  /** The manager's state: the active slot, the zombie queue, and the number of task resets. */
  datatype PrivacyState = PrivacyState(active: Option<Context>, zombies: seq<Context>, nextId: nat, taskResets: nat)

  predicate IsPrivacyRetry(r: FetchResult)
  {
    r.status.Retry? && r.status.scope == Privacy
  }

  /** Live contexts are unclosed, zombies closed, and every context has its own identity below nextId. */
  ghost predicate Inv(s: PrivacyState)
  {
    && (s.active.Some? ==> s.active.value.id < s.nextId && !s.active.value.closed)
    && (forall i :: 0 <= i < |s.zombies| ==> s.zombies[i].id < s.nextId && s.zombies[i].closed)
    && (forall i, j :: 0 <= i < j < |s.zombies| ==> s.zombies[i].id != s.zombies[j].id)
    && (s.active.Some? ==> forall i :: 0 <= i < |s.zombies| ==> s.zombies[i].id != s.active.value.id)
  }

  function InitialState(): (s: PrivacyState)
    ensures Inv(s) && s.active == None && s.zombies == []
  {
    PrivacyState(None, [], 0, 0)
  }

  /** `getOrCreate`: the active context, created with a fresh identity when the slot is empty. */
  function GetOrCreateSpec(s: PrivacyState): (PrivacyState, Context)
  {
    if s.active.Some? then (s, s.active.value)
    else
      var c := Context(s.nextId, 0, 0, false);
      (s.(active := Some(c), nextId := s.nextId + 1), c)
  }

  /**
   * An existing context comes back and nothing changes; otherwise a new context, unlike any
   * before it, fills the slot.
   */
  lemma GetOrCreateKeepsExisting(s: PrivacyState)
    requires Inv(s)
    ensures var (s1, c) := GetOrCreateSpec(s);
      && Inv(s1) && s1.active == Some(c) && s1.zombies == s.zombies && s1.taskResets == s.taskResets
      && (s.active.Some? ==> s1 == s && c == s.active.value)
      && (s.active.None? ==> c.warnings == 0 && c.successes == 0 && !c.closed
                              && forall i :: 0 <= i < |s.zombies| ==> s.zombies[i].id != c.id)
  {
  }

  /** `reset`: empty the slot; the context it held is queued as a zombie and closed. */
  function ResetSpec(s: PrivacyState): PrivacyState
  {
    match s.active
    case None => s
    case Some(c) => s.(active := None, zombies := s.zombies + [c.(closed := true)])
  }

  /**
   * Reset retires the active context exactly once: it joins the zombies, closed, and a second
   * reset adds nothing.
   */
  lemma ResetRetiresOnce(s: PrivacyState)
    requires Inv(s)
    ensures var s1 := ResetSpec(s);
      && Inv(s1) && s1.active == None && s1.nextId == s.nextId
      && (s.active.None? ==> s1 == s)
      && (s.active.Some? ==> s1.zombies == s.zombies + [s.active.value.(closed := true)])
      && ResetSpec(s1) == s1
  {
  }

  /**
   * `beforeRun`: look at the active context (creating it if needed); when it has leaked, reset
   * the manager and the task.
   */
  function BeforeRunSpec(s: PrivacyState, isLeaked: Context -> bool): PrivacyState
  {
    var (s1, c) := GetOrCreateSpec(s);
    if isLeaked(c) then
      var s2 := ResetSpec(s1);
      s2.(taskResets := s2.taskResets + 1)
    else s1
  }

  /**
   * Only a leaked context is reset, together with the task; a healthy one stays active.
   */
  lemma BeforeRunResetsOnlyLeaked(s: PrivacyState, isLeaked: Context -> bool)
    requires Inv(s)
    ensures var (s1, c) := GetOrCreateSpec(s);
      var s2 := BeforeRunSpec(s, isLeaked);
      && Inv(s2)
      && (isLeaked(c) ==> s2.active == None && s2.zombies == s.zombies + [c.(closed := true)] && s2.taskResets == s.taskResets + 1)
      && (!isLeaked(c) ==> s2.active == Some(c) && s2.zombies == s.zombies && s2.taskResets == s.taskResets)
  {
    GetOrCreateKeepsExisting(s);
    ResetRetiresOnce(GetOrCreateSpec(s).0);
  }

  /**
   * The `catch (e: PrivacyLeakException)`: a leak becomes a privacy retry; any other exception
   * is not caught and yields no result.
   */
  function ResultOf(o: Outcome): (r: Option<FetchResult>)
    ensures r.None? <==> o.Threw?
    ensures o.PrivacyLeak? ==> r.Some? && IsPrivacyRetry(r.value)
    ensures o.Returned? ==> r == Some(o.result)
  {
    match o
    case Returned(r) => Some(r)
    case PrivacyLeak => Some(FetchResult(Retry(Privacy)))
    case Threw => None
  }

  /**
   * `afterRun`: a privacy retry marks a warning on the active context and asks for another
   * attempt; a success marks a success; anything else changes nothing.
   */
  function AfterRunSpec(s: PrivacyState, r: FetchResult): (PrivacyState, bool)
  {
    var (s1, c) := GetOrCreateSpec(s);
    if IsPrivacyRetry(r) then (s1.(active := Some(c.(warnings := c.warnings + 1))), true)
    else if r.status.Success? then (s1.(active := Some(c.(successes := c.successes + 1))), false)
    else (s1, false)
  }

  /** The classification, case by case, on the context that was active. */
  lemma AfterRunClassifies(s: PrivacyState, r: FetchResult)
    requires Inv(s) && s.active.Some?
    ensures var c := s.active.value;
      var (s1, retry) := AfterRunSpec(s, r);
      && Inv(s1)
      && (retry <==> IsPrivacyRetry(r))
      && s1.zombies == s.zombies && s1.nextId == s.nextId && s1.active.Some? && s1.active.value.id == c.id
      && (IsPrivacyRetry(r) ==> s1.active.value == c.(warnings := c.warnings + 1))
      && (r.status.Success? ==> s1.active.value == c.(successes := c.successes + 1))
      && (!IsPrivacyRetry(r) && !r.status.Success? ==> s1 == s)
  {
  }

  /**
   * One pass of the loop body: before-run, run in the active context, after-run. A task that
   * throws leaves the pass after the active context was looked up, with no after-run.
   */
  function AttemptSpec(s: PrivacyState, isLeaked: Context -> bool, fetch: (nat, Context) -> Outcome, i: nat)
    : (PrivacyState, Option<FetchResult>, bool)
  {
    var s1 := BeforeRunSpec(s, isLeaked);
    var (s2, c) := GetOrCreateSpec(s1);
    match ResultOf(fetch(i, c))
    case None => (s2, None, false)
    case Some(r) =>
      var (s3, retry) := AfterRunSpec(s2, r);
      (s3, Some(r), retry)
  }

  /** Every attempt keeps the invariant. */
  lemma AttemptPreservesInv(s: PrivacyState, isLeaked: Context -> bool, fetch: (nat, Context) -> Outcome, i: nat)
    requires Inv(s)
    ensures Inv(AttemptSpec(s, isLeaked, fetch, i).0)
  {
    BeforeRunResetsOnlyLeaked(s, isLeaked);
    var s1 := BeforeRunSpec(s, isLeaked);
    GetOrCreateKeepsExisting(s1);
    var (s2, c) := GetOrCreateSpec(s1);
    var r := ResultOf(fetch(i, c));
    if r.Some? {
      AfterRunClassifies(s2, r.value);
    }
  }

  /**
   * The run, from attempt i on: the final state, the results of the attempts that returned, in
   * order, and what the run ends with: the last result, or the exception of a task that threw.
   */
  ghost function AttemptsFrom(s: PrivacyState, isLeaked: Context -> bool, fetch: (nat, Context) -> Outcome, i: nat)
    : (PrivacyState, seq<FetchResult>, Result<FetchResult, Run0Error>)
    requires 1 <= i <= MaxRetry + 1
    decreases MaxRetry + 1 - i
  {
    var (s1, r, retry) := AttemptSpec(s, isLeaked, fetch, i);
    match r
    case None => (s1, [], Err(FetchThrew))
    case Some(x) =>
      if retry && i <= MaxRetry then
        var (s2, rs, out) := AttemptsFrom(s1, isLeaked, fetch, i + 1);
        (s2, [x] + rs, out)
      else (s1, [x], Ok(x))
  }

  /** The run from attempt i, unfolded once: the first attempt, then the rest when it retries. */
  lemma AttemptsFromUnfold(s: PrivacyState, isLeaked: Context -> bool, fetch: (nat, Context) -> Outcome, i: nat)
    requires 1 <= i <= MaxRetry + 1
    ensures var (s1, r, retry) := AttemptSpec(s, isLeaked, fetch, i);
      && (r.None? ==> AttemptsFrom(s, isLeaked, fetch, i) == (s1, [], Err(FetchThrew)))
      && (r.Some? && !(retry && i <= MaxRetry) ==> AttemptsFrom(s, isLeaked, fetch, i) == (s1, [r.value], Ok(r.value)))
      && (r.Some? && retry && i <= MaxRetry ==>
            var rest := AttemptsFrom(s1, isLeaked, fetch, i + 1);
            AttemptsFrom(s, isLeaked, fetch, i) == (rest.0, [r.value] + rest.1, rest.2))
  {
  }

  /**
   * How the loop of `run0` goes on after the pass from before to after: spec is the whole run,
   * done the results so far and rest the run from attempt i, which that pass starts.
   */
  lemma Run0Step(spec: (PrivacyState, seq<FetchResult>, Result<FetchResult, Run0Error>), done: seq<FetchResult>,
                 before: PrivacyState, after: PrivacyState, returned: Option<FetchResult>, retry: bool,
                 isLeaked: Context -> bool, fetch: (nat, Context) -> Outcome, i: nat)
    requires 1 <= i <= MaxRetry + 1
    requires var rest := AttemptsFrom(before, isLeaked, fetch, i);
      spec.0 == rest.0 && spec.1 == done + rest.1 && spec.2 == rest.2
    requires (after, returned, retry) == AttemptSpec(before, isLeaked, fetch, i)
    ensures returned.None? ==> spec == (after, done, Err(FetchThrew))
    ensures returned.Some? && !(retry && i <= MaxRetry) ==> spec == (after, done + [returned.value], Ok(returned.value))
    ensures returned.Some? && retry && i <= MaxRetry ==>
      var next := AttemptsFrom(after, isLeaked, fetch, i + 1);
      spec.0 == next.0 && spec.1 == (done + [returned.value]) + next.1 && spec.2 == next.2
  {
    AttemptsFromUnfold(before, isLeaked, fetch, i);
    if returned.None? {
      assert done + [] == done;
    } else if retry && i <= MaxRetry {
      var next := AttemptsFrom(after, isLeaked, fetch, i + 1);
      assert done + ([returned.value] + next.1) == (done + [returned.value]) + next.1;
    }
  }

  /** `run0`: the do-while loop from the first attempt. */
  ghost function Run0Spec(s: PrivacyState, isLeaked: Context -> bool, fetch: (nat, Context) -> Outcome)
    : (PrivacyState, seq<FetchResult>, Result<FetchResult, Run0Error>)
  {
    AttemptsFrom(s, isLeaked, fetch, 1)
  }

  /**
   * From attempt i the loop makes between 1 and maxRetry + 2 - i attempts. Every returned
   * result but the last asked for a privacy retry. A run that returns ends with its last result,
   * which did not ask for a retry unless it came from the third attempt. A run that throws does
   * so in the attempt after the returned ones, all of which asked for a retry.
   */
  lemma {:induction false} AttemptsFromShape(s: PrivacyState, isLeaked: Context -> bool, fetch: (nat, Context) -> Outcome, i: nat)
    requires 1 <= i <= MaxRetry + 1
    ensures var (_, rs, out) := AttemptsFrom(s, isLeaked, fetch, i);
      && |rs| <= MaxRetry + 2 - i
      && (out.Ok? ==> 1 <= |rs| && out.value == rs[|rs| - 1])
      && (forall j :: 0 <= j < |rs| - 1 ==> IsPrivacyRetry(rs[j]))
      && (out.Ok? && i + |rs| - 1 < MaxRetry + 1 ==> !IsPrivacyRetry(rs[|rs| - 1]))
      && (out.Err? ==> i + |rs| <= MaxRetry + 1 && (|rs| > 0 ==> IsPrivacyRetry(rs[|rs| - 1])))
    decreases MaxRetry + 1 - i
  {
    var (s1, r, retry) := AttemptSpec(s, isLeaked, fetch, i);
    var s2 := BeforeRunSpec(s, isLeaked);
    var (s3, c) := GetOrCreateSpec(s2);
    if r.Some? {
      assert retry <==> IsPrivacyRetry(r.value);
      if retry && i <= MaxRetry {
        AttemptsFromShape(s1, isLeaked, fetch, i + 1);
        var (_, rs, out) := AttemptsFrom(s1, isLeaked, fetch, i + 1);
        assert AttemptsFrom(s, isLeaked, fetch, i).1 == [r.value] + rs;
        assert AttemptsFrom(s, isLeaked, fetch, i).2 == out;
      }
    }
  }

  /**
   * `run0` makes at least one and at most maxRetry + 1 = 3 attempts; it goes on exactly while
   * the result asks for a privacy retry; it returns the last attempt's result, or propagates
   * the exception of an attempt that threw.
   */
  lemma Run0Bounded(s: PrivacyState, isLeaked: Context -> bool, fetch: (nat, Context) -> Outcome)
    ensures var (_, rs, out) := Run0Spec(s, isLeaked, fetch);
      var attempts := |rs| + (if out.Err? then 1 else 0);
      && 1 <= attempts <= MaxRetry + 1
      && (out.Ok? ==> rs != [] && out.value == rs[|rs| - 1])
      && (forall j :: 0 <= j < |rs| - 1 ==> IsPrivacyRetry(rs[j]))
      && (out.Ok? && |rs| < MaxRetry + 1 ==> !IsPrivacyRetry(rs[|rs| - 1]))
      && (out.Err? && rs != [] ==> IsPrivacyRetry(rs[|rs| - 1]))
  {
    AttemptsFromShape(s, isLeaked, fetch, 1);
  }

  /**
   * A task that throws anything but a privacy leak ends the run at once: the before-run of
   * that attempt has happened (a leaked context was reset and the task reset counted), the
   * context it ran in gets no mark, no further attempt is made, and the exception propagates.
   */
  lemma AttemptsFromThrowStops(s: PrivacyState, isLeaked: Context -> bool, fetch: (nat, Context) -> Outcome, i: nat)
    requires 1 <= i <= MaxRetry + 1 && fetch(i, GetOrCreateSpec(BeforeRunSpec(s, isLeaked)).1).Threw?
    ensures AttemptsFrom(s, isLeaked, fetch, i) == (GetOrCreateSpec(BeforeRunSpec(s, isLeaked)).0, [], Err(FetchThrew))
    ensures var (s1, c) := GetOrCreateSpec(BeforeRunSpec(s, isLeaked));
      && AttemptsFrom(s, isLeaked, fetch, i).0.active == Some(c)
      && AttemptsFrom(s, isLeaked, fetch, i).0.taskResets == BeforeRunSpec(s, isLeaked).taskResets
      && AttemptsFrom(s, isLeaked, fetch, i).0.zombies == BeforeRunSpec(s, isLeaked).zombies
  {
  }

  /** The run keeps the invariant, whether it returns or throws: zombies closed, identities distinct. */
  lemma {:induction false} AttemptsFromPreservesInv(s: PrivacyState, isLeaked: Context -> bool, fetch: (nat, Context) -> Outcome, i: nat)
    requires 1 <= i <= MaxRetry + 1 && Inv(s)
    ensures Inv(AttemptsFrom(s, isLeaked, fetch, i).0)
    decreases MaxRetry + 1 - i
  {
    AttemptPreservesInv(s, isLeaked, fetch, i);
    AttemptsFromUnfold(s, isLeaked, fetch, i);
    var (s1, r, retry) := AttemptSpec(s, isLeaked, fetch, i);
    if r.Some? && retry && i <= MaxRetry {
      AttemptsFromPreservesInv(s1, isLeaked, fetch, i + 1);
    }
  }

  /** A task whose first result is returned and is not a privacy retry runs once. */
  lemma Run0OnceWithoutRetry(s: PrivacyState, isLeaked: Context -> bool, fetch: (nat, Context) -> Outcome)
    requires AttemptSpec(s, isLeaked, fetch, 1).1.Some? && !IsPrivacyRetry(AttemptSpec(s, isLeaked, fetch, 1).1.value)
    ensures var (s1, r, _) := AttemptSpec(s, isLeaked, fetch, 1);
      Run0Spec(s, isLeaked, fetch) == (s1, [r.value], Ok(r.value))
  {
    var s2 := BeforeRunSpec(s, isLeaked);
    var (s3, c) := GetOrCreateSpec(s2);
    var r := ResultOf(fetch(1, c)).value;
    assert AfterRunSpec(s3, r).1 == IsPrivacyRetry(r);
  }

  /**
   * The PrivacyContextManager object. The active slot stands for `globalActiveContext` and
   * the zombie queue for `zombieContexts`. The source keeps both in the companion object,
   * shared by every manager; here they are fields of one manager, so a second manager would
   * start from an empty store rather than see the first one's.
   */
  class PrivacyContextManager {
    var activeContext: Option<Context>
    var zombieContexts: seq<Context>
    var nextContextId: nat
    var taskResets: nat

    function State(): PrivacyState
      reads this
    {
      PrivacyState(activeContext, zombieContexts, nextContextId, taskResets)
    }

    ghost predicate Valid()
      reads this
    {
      Inv(State())
    }

    constructor()
      ensures State() == InitialState() && Valid()
    {
      activeContext := None;
      zombieContexts := [];
      nextContextId := 0;
      taskResets := 0;
    }

    /** `getOrCreate`. */
    method GetOrCreate() returns (c: Context)
      modifies this
      ensures (State(), c) == GetOrCreateSpec(old(State()))
    {
      if activeContext.None? {
        activeContext := Some(Context(nextContextId, 0, 0, false));
        nextContextId := nextContextId + 1;
      }
      c := activeContext.value;
    }

    /** `reset`. */
    method Reset()
      modifies this
      ensures State() == ResetSpec(old(State()))
    {
      if activeContext.Some? {
        var c := activeContext.value;
        activeContext := None;
        zombieContexts := zombieContexts + [c.(closed := true)];
      }
    }

    /** `beforeRun`. */
    method BeforeRun(isLeaked: Context -> bool)
      modifies this
      ensures State() == BeforeRunSpec(old(State()), isLeaked)
    {
      var c := GetOrCreate();
      if isLeaked(c) {
        Reset();
        taskResets := taskResets + 1;
      }
    }

    /** `afterRun`: true when the result asks for a privacy retry. */
    method AfterRun(r: FetchResult) returns (retry: bool)
      modifies this
      ensures (State(), retry) == AfterRunSpec(old(State()), r)
    {
      var c := GetOrCreate();
      if IsPrivacyRetry(r) {
        activeContext := Some(c.(warnings := c.warnings + 1));
        retry := true;
      } else if r.status.Success? {
        activeContext := Some(c.(successes := c.successes + 1));
        retry := false;
      } else {
        retry := false;
      }
    }

    /** One pass of the loop body of `run0`; no after-run when the task throws. */
    method Attempt(isLeaked: Context -> bool, fetch: (nat, Context) -> Outcome, i: nat)
      returns (returned: Option<FetchResult>, retry: bool)
      modifies this
      ensures (State(), returned, retry) == AttemptSpec(old(State()), isLeaked, fetch, i)
    {
      BeforeRun(isLeaked);
      var c := GetOrCreate();
      returned := ResultOf(fetch(i, c));
      retry := false;
      if returned.Some? {
        retry := AfterRun(returned.value);
      }
    }

    /**
     * `run0` (and `submit0`, its twin): the do-while retry loop; fetch(i, c) is what the i-th
     * attempt returns or throws in context c. An exception other than a privacy leak leaves the
     * loop as an error.
     */
    method Run0(isLeaked: Context -> bool, fetch: (nat, Context) -> Outcome)
      returns (result: Result<FetchResult, Run0Error>, ghost results: seq<FetchResult>)
      modifies this
      ensures State() == Run0Spec(old(State()), isLeaked, fetch).0
      ensures results == Run0Spec(old(State()), isLeaked, fetch).1
      ensures result == Run0Spec(old(State()), isLeaked, fetch).2
      ensures result.Ok? ==> results != [] && result.value == results[|results| - 1]
    {
      ghost var spec := Run0Spec(State(), isLeaked, fetch);
      var i := 1;
      ghost var done: seq<FetchResult> := [];
      assert done + spec.1 == spec.1;
      while true
        invariant 1 <= i <= MaxRetry + 1
        invariant var rest := AttemptsFrom(State(), isLeaked, fetch, i);
          spec.0 == rest.0 && spec.1 == done + rest.1 && spec.2 == rest.2
        decreases MaxRetry + 1 - i
      {
        ghost var before := State();
        var returned, retry := Attempt(isLeaked, fetch, i);
        Run0Step(spec, done, before, State(), returned, retry, isLeaked, fetch, i);
        if returned.None? {
          result, results := Err(FetchThrew), done;
          return;
        }
        var r := returned.value;
        if !(retry && i <= MaxRetry) {
          result, results := Ok(r), done + [r];
          return;
        }
        done := done + [r];
        i := i + 1;
      }
    }
  }
}
