/**
  The rollout loop of `miles/rollout/sglang_rollout.py`: prompt groups are submitted ahead of need, finish in any
  order, are kept or dropped by a dynamic filter, may be sampled again, and what is in flight at the end is aborted.

  What an `asyncio.wait` reports and what the filter says are given by oracles, so every contract below speaks
  about all interleavings.  A run may go on for ever; it is watched for a given number of waits.
 */
module RolloutLoop {
  import opened Arith
  import opened Sequences

  /** A prompt group: the sample index it is sorted by, and how often its prompt was sampled again. */
  datatype Group = Group(index: int, retries: nat) {
    /** `_clone_group_for_retry` */
    function Clone(): Group { Group(index, retries + 1) }
  }

  datatype Verdict = Keep | Drop(reason: string)

  /**
    `rollout_batch_size`, `over_sampling_batch_size`, `dynamic_sampling_resample_same_prompt_max_times` and
    `partial_rollout`; the second is never less than the first.
   */
  datatype Args = Args(target: nat, over: nat, maxRetries: int, partial: bool) {
    ghost predicate Valid() { target > 0 && over >= target }
  }

  /** `_should_retry_same_prompt` */
  predicate ShouldRetry(args: Args, reason: string, g: Group) {
    && (reason == "solve_none" || reason == "solve_all")
    && args.maxRetries > 0 && g.retries < args.maxRetries
  }

  // ---------------------------------------------------------------- oracles

  /** What a wait makes of the pending tasks: some that are done, in some order, and the rest. */
  type Wait = (nat, seq<Group>) -> (seq<Group>, seq<Group>)

  ghost predicate FirstCompleted(wait: Wait) {
    forall round, pendings: seq<Group> :: pendings != [] ==> Splits(wait(round, pendings), pendings)
  }

  ghost predicate Splits(parts: (seq<Group>, seq<Group>), pendings: seq<Group>) {
    parts.0 != [] && multiset(parts.0) + multiset(parts.1) == multiset(pendings)
  }

  lemma {:induction false} SplitSizes(parts: (seq<Group>, seq<Group>), pendings: seq<Group>)
    requires Splits(parts, pendings)
    ensures |parts.0| + |parts.1| == |pendings| && |parts.0| > 0
  {
    assert |multiset(parts.0) + multiset(parts.1)| == |multiset(pendings)|;
  }

  /**
    What the surroundings do: what the source hands out at every fetch, what every wait reports, what the filter says
    of the groups a wait reports, and what the waits of the final abort report.
   */
  datatype Schedule = Schedule(source: nat -> seq<Group>, wait: Wait, verdict: (nat, nat) -> Verdict, abortWait: Wait) {
    ghost predicate Valid(args: Args) {
      Delivers(source, args.over) && FirstCompleted(wait) && FirstCompleted(abortWait)
    }
  }

  /** The source hands out at most as many groups as it is asked for, and some; it may run short of a data set. */
  ghost predicate Delivers(source: nat -> seq<Group>, over: nat) {
    forall k :: 0 < |source(k)| <= over
  }

  /** No fetch is served short. */
  ghost predicate DeliversFully(source: nat -> seq<Group>, over: nat) {
    forall k :: |source(k)| == over
  }

  /** Without a filter nothing is dropped. */
  ghost predicate AlwaysKeeps(verdict: (nat, nat) -> Verdict) {
    forall round, i :: verdict(round, i).Keep?
  }

  // ---------------------------------------------------------------- accounts

  /**
    Everything that was ever submitted, fetched from the data source, dropped by the filter, kept too late, and, of what
    was dropped, the groups all or none of whose samples were right.
   */
  datatype Flow = Flow(submitted: multiset<Group>, fetched: multiset<Group>, dropped: multiset<Group>,
                       surplus: multiset<Group>, onesided: multiset<Group>)

  /** The filter's words for a group all or none of whose samples were right. */
  ghost predicate Onesided(verdict: Verdict) {
    verdict == Drop("solve_all") || verdict == Drop("solve_none")
  }

  /** Every submission is in flight, in the batch, dropped or surplus. */
  ghost predicate Conserved(flow: Flow, inFlight: multiset<Group>, data: multiset<Group>) {
    flow.submitted == inFlight + data + flow.dropped + flow.surplus
  }

  /** How many clones that look like `g` such dropped groups leave. */
  ghost function ClonesOf(dropped: multiset<Group>, g: Group, maxRetries: int): nat {
    if 1 <= g.retries <= maxRetries then dropped[Group(g.index, g.retries - 1)] else 0
  }

  /**
    What was submitted and what waits to be is exactly what was fetched, and one clone within the retry limit for every
    group dropped because all or none of its samples were right.
   */
  ghost predicate Chained(flow: Flow, retry: multiset<Group>, maxRetries: int) {
    && flow.onesided <= flow.dropped
    && forall g: Group {:trigger flow.fetched[g]} ::
         flow.submitted[g] + retry[g] == flow.fetched[g] + ClonesOf(flow.onesided, g, maxRetries)
  }

  /** How many groups have come to a decision. */
  ghost function Decided(flow: Flow, data: multiset<Group>): nat {
    |data| + |flow.dropped| + |flow.surplus|
  }

  /**
    The invariant: the remaining batch size counts what is in flight and what is kept; nothing is surplus before the
    batch is full.
   */
  ghost predicate Books(args: Args, remaining: int, inFlight: multiset<Group>, data: multiset<Group>,
                        retry: multiset<Group>, flow: Flow)
  {
    && remaining == |inFlight| + |data| + |flow.surplus|
    && |data| <= args.target && (|flow.surplus| > 0 ==> |data| == args.target)
    && Conserved(flow, inFlight, data) && Chained(flow, retry, args.maxRetries)
  }

  /** Every group seen so far is in the batch, dropped or surplus. */
  ghost predicate AllSeen(all: multiset<Group>, data: multiset<Group>, flow: Flow) {
    all == data + flow.dropped + flow.surplus
  }

  lemma {:induction false} SeenOneMore(all: multiset<Group>, data: multiset<Group>, flow: Flow, g: Group)
    requires AllSeen(all, data, flow)
    ensures AllSeen(all + multiset{g}, data, flow.(dropped := flow.dropped + multiset{g}))
    ensures AllSeen(all + multiset{g}, data, flow.(surplus := flow.surplus + multiset{g}))
    ensures AllSeen(all + multiset{g}, data + multiset{g}, flow)
  {
  }

  ghost function OnesidedOf(g: Group, verdict: Verdict): multiset<Group> {
    if Onesided(verdict) then multiset{g} else multiset{}
  }

  lemma {:induction false} OnDrop(args: Args, remaining: int, inFlight: multiset<Group>, data: multiset<Group>,
                                  retry: multiset<Group>, flow: Flow, reason: string, g: Group)
    requires Books(args, remaining, inFlight + multiset{g}, data, retry, flow)
    ensures var flow' := flow.(dropped := flow.dropped + multiset{g},
                               onesided := flow.onesided + OnesidedOf(g, Drop(reason)));
      && Decided(flow', data) == Decided(flow, data) + 1
      && Books(args, remaining - 1, inFlight, data,
               if ShouldRetry(args, reason, g) then retry + multiset{g.Clone()} else retry, flow')
  {
    ChainDrop(args, flow, retry, reason, g);
  }

  /** A drop leaves exactly the clone it is to leave. */
  lemma {:induction false} ChainDrop(args: Args, flow: Flow, retry: multiset<Group>, reason: string, g: Group)
    requires Chained(flow, retry, args.maxRetries)
    ensures Chained(flow.(dropped := flow.dropped + multiset{g},
                          onesided := flow.onesided + OnesidedOf(g, Drop(reason))),
                    if ShouldRetry(args, reason, g) then retry + multiset{g.Clone()} else retry, args.maxRetries)
  {
    var clones := if ShouldRetry(args, reason, g) then multiset{g.Clone()} else multiset{};
    forall x: Group
      ensures ClonesOf(flow.onesided + OnesidedOf(g, Drop(reason)), x, args.maxRetries)
           == ClonesOf(flow.onesided, x, args.maxRetries) + clones[x]
    {
    }
  }

  lemma {:induction false} OnKeep(args: Args, remaining: int, inFlight: multiset<Group>, data: multiset<Group>,
                                  retry: multiset<Group>, flow: Flow, g: Group)
    requires Books(args, remaining, inFlight + multiset{g}, data, retry, flow) && |data| < args.target
    ensures Books(args, remaining, inFlight, data + multiset{g}, retry, flow)
    ensures Decided(flow, data + multiset{g}) == Decided(flow, data) + 1
  {
  }

  lemma {:induction false} OnSurplus(args: Args, remaining: int, inFlight: multiset<Group>, data: multiset<Group>,
                                     retry: multiset<Group>, flow: Flow, g: Group)
    requires Books(args, remaining, inFlight + multiset{g}, data, retry, flow) && |data| == args.target
    ensures var flow' := flow.(surplus := flow.surplus + multiset{g});
      Books(args, remaining, inFlight, data, retry, flow') && Decided(flow', data) == Decided(flow, data) + 1
  {
  }

  lemma {:induction false} OnFetch(args: Args, remaining: int, inFlight: multiset<Group>, data: multiset<Group>,
                                   retry: multiset<Group>, flow: Flow, groups: multiset<Group>)
    requires Books(args, remaining, inFlight, data, retry, flow)
    ensures Books(args, remaining + |groups|, inFlight + groups, data, retry,
                  flow.(submitted := flow.submitted + groups, fetched := flow.fetched + groups))
  {
  }

  lemma {:induction false} OnRetry(args: Args, remaining: int, inFlight: multiset<Group>, data: multiset<Group>,
                                   retry: multiset<Group>, flow: Flow, groups: multiset<Group>, rest: multiset<Group>)
    requires Books(args, remaining, inFlight, data, retry, flow) && retry == groups + rest
    ensures Books(args, remaining + |groups|, inFlight + groups, data, rest,
                  flow.(submitted := flow.submitted + groups))
  {
  }

  // ---------------------------------------------------------------- what the loop works on

  /** The loop's own variables, with the number of its fetches. */
  datatype Locals = Locals(data: seq<Group>, all: seq<Group>, retryGroups: seq<Group>, fetches: nat)

  /** The state shared with the tasks, the loop's own variables, and the account of everything so far. */
  datatype Vars = Vars(remaining: int, pendings: seq<Group>, locals: Locals, flow: Flow) {
    /** `submit_generate_tasks` */
    function Submit(groups: seq<Group>): Vars {
      Vars(remaining + |groups|, pendings + groups, locals, flow.(submitted := flow.submitted + multiset(groups)))
    }

    /** The books balance with these groups in flight. */
    ghost predicate BooksWith(args: Args, inFlight: multiset<Group>) {
      Books(args, remaining, inFlight, multiset(locals.data), multiset(locals.retryGroups), flow)
    }

    ghost predicate Balanced(args: Args, source: nat -> seq<Group>) {
      && BooksWith(args, multiset(pendings))
      && Seen() && flow.fetched == HandedOut(source, locals.fetches)
    }

    ghost predicate Seen() { AllSeen(multiset(locals.all), multiset(locals.data), flow) }

    ghost function Decisions(): nat { Decided(flow, multiset(locals.data)) }

    /** Every group seen is accounted for, and these are so many. */
    ghost predicate Counts(n: nat) { Seen() && Decisions() == n }
  }

  const START := Vars(0, [], Locals([], [], [], 0), Flow(multiset{}, multiset{}, multiset{}, multiset{}, multiset{}))

  class GenerateState {
    var remainingBatchSize: int
    var pendings: seq<Group>
    var aborted: bool

    constructor ()
      ensures IsReset()
    {
      remainingBatchSize, pendings, aborted := 0, [], false;
    }

    predicate IsReset()
      reads this
    {
      remainingBatchSize == 0 && pendings == [] && !aborted
    }

    method Reset()
      modifies this
      ensures IsReset()
    {
      remainingBatchSize, pendings, aborted := 0, [], false;
    }

    method SubmitGenerateTasks(groups: seq<Group>)
      modifies this`remainingBatchSize, this`pendings
      ensures pendings == old(pendings) + groups && remainingBatchSize == old(remainingBatchSize) + |groups|
    {
      pendings := pendings + groups;
      remainingBatchSize := remainingBatchSize + |groups|;
    }

    ghost function With(locals: Locals, flow: Flow): Vars
      reads this`remainingBatchSize, this`pendings
    {
      Vars(remainingBatchSize, pendings, locals, flow)
    }
  }

  // ---------------------------------------------------------------- topping up

  /** What the source hands out from one fetch to another. */
  ghost function Fetched(source: nat -> seq<Group>, first: nat, last: nat): seq<Group>
    requires first <= last
    decreases last - first
  {
    if first == last then [] else Fetched(source, first, last - 1) + source(last - 1)
  }

  /** All groups that the source handed out in so many fetches. */
  ghost function HandedOut(source: nat -> seq<Group>, fetches: nat): multiset<Group> {
    if fetches == 0 then multiset{} else HandedOut(source, fetches - 1) + multiset(source(fetches - 1))
  }

  lemma {:induction false} HandedOutIsFetched(source: nat -> seq<Group>, fetches: nat)
    ensures HandedOut(source, fetches) == multiset(Fetched(source, 0, fetches))
  {
    if fetches > 0 { HandedOutIsFetched(source, fetches - 1); }
  }

  /** Groups to sample again as long as there are any, else what the source hands out. */
  ghost function NextSubmitted(args: Args, source: nat -> seq<Group>, v: Vars): Vars
    requires v.remaining < args.target
  {
    var retry := v.locals.retryGroups;
    if retry != [] then
      var n := Min(|retry|, args.target - v.remaining);
      v.Submit(retry[..n]).(locals := v.locals.(retryGroups := retry[n..]))
    else
      var groups := source(v.locals.fetches);
      var u := v.Submit(groups);
      u.(locals := v.locals.(fetches := v.locals.fetches + 1),
         flow := u.flow.(fetched := u.flow.fetched + multiset(groups)))
  }

  /** After topping up. */
  ghost function ToppedUp(args: Args, source: nat -> seq<Group>, v: Vars): Vars
    requires Delivers(source, args.over)
    decreases args.target - v.remaining
  {
    if v.remaining >= args.target then v else ToppedUp(args, source, NextSubmitted(args, source, v))
  }

  /** Groups to sample again go first and in order; the source is asked only when none is left. */
  ghost predicate Submitted(source: nat -> seq<Group>, first: Vars, v: Vars) {
    var retry0, retry := first.locals.retryGroups, v.locals.retryGroups;
    && first.locals.fetches <= v.locals.fetches && |retry| <= |retry0|
    && (v.locals.fetches > first.locals.fetches ==> retry == [])
    && retry == retry0[|retry0| - |retry|..]
    && v.pendings == first.pendings + retry0[..|retry0| - |retry|]
                     + Fetched(source, first.locals.fetches, v.locals.fetches)
  }

  /** How far topping up has come: what was decided before stays as it was. */
  ghost predicate ToppingUp(args: Args, source: nat -> seq<Group>, first: Vars, v: Vars) {
    && v.Balanced(args, source) && Submitted(source, first, v)
    && v.flow.dropped == first.flow.dropped && v.flow.surplus == first.flow.surplus
    && v.flow.onesided == first.flow.onesided
    && v.locals.data == first.locals.data && v.locals.all == first.locals.all
  }

  lemma {:induction false} NothingSubmitted(args: Args, source: nat -> seq<Group>, v: Vars)
    requires v.Balanced(args, source)
    ensures ToppingUp(args, source, v, v)
  {
  }

  lemma {:induction false} SubmitRetry(source: nat -> seq<Group>, first: Vars, v: Vars, u: Vars, n: nat)
    requires Submitted(source, first, v) && 0 < n <= |v.locals.retryGroups|
    requires u.pendings == v.pendings + v.locals.retryGroups[..n] && u.locals.fetches == v.locals.fetches
    requires u.locals.retryGroups == v.locals.retryGroups[n..]
    ensures Submitted(source, first, u)
  {
    var retry0, retry := first.locals.retryGroups, v.locals.retryGroups;
    var sent := |retry0| - |retry|;
    PlusNothing(first.pendings + retry0[..sent]);
    PlusNothing(first.pendings + retry0[..sent + n]);
    SendOn(first.pendings, v.pendings, retry0, retry, sent, n);
  }

  lemma {:induction false} PlusNothing(a: seq<Group>)
    ensures a + [] == a
  {
  }

  lemma {:induction false} SendOn(pendings0: seq<Group>, pendings: seq<Group>, retry0: seq<Group>, retry: seq<Group>,
                                  sent: nat, n: nat)
    requires sent <= |retry0| && retry == retry0[sent..] && n <= |retry| && pendings == pendings0 + retry0[..sent]
    ensures pendings + retry[..n] == pendings0 + retry0[..sent + n] && retry[n..] == retry0[sent + n..]
  {
    assert retry0[..sent + n] == retry0[..sent] + retry[..n];
  }

  lemma {:induction false} RetryKeeps(args: Args, source: nat -> seq<Group>, first: Vars, v: Vars)
    requires v.remaining < args.target && v.locals.retryGroups != [] && ToppingUp(args, source, first, v)
    ensures ToppingUp(args, source, first, NextSubmitted(args, source, v))
  {
    RetryBalances(args, source, v);
    SubmitRetry(source, first, v, NextSubmitted(args, source, v),
                Min(|v.locals.retryGroups|, args.target - v.remaining));
  }

  lemma {:induction false} RetryBalances(args: Args, source: nat -> seq<Group>, v: Vars)
    requires v.remaining < args.target && v.locals.retryGroups != [] && v.Balanced(args, source)
    ensures NextSubmitted(args, source, v).Balanced(args, source)
  {
    var retry := v.locals.retryGroups;
    var n := Min(|retry|, args.target - v.remaining);
    assert retry == retry[..n] + retry[n..];
    OnRetry(args, v.remaining, multiset(v.pendings), multiset(v.locals.data), multiset(retry), v.flow,
            multiset(retry[..n]), multiset(retry[n..]));
    assert multiset(v.pendings + retry[..n]) == multiset(v.pendings) + multiset(retry[..n]);
  }

  lemma {:induction false} FetchKeeps(args: Args, source: nat -> seq<Group>, first: Vars, v: Vars)
    requires v.remaining < args.target && v.locals.retryGroups == [] && ToppingUp(args, source, first, v)
    ensures ToppingUp(args, source, first, NextSubmitted(args, source, v))
  {
    FetchBalances(args, source, v);
    SubmitFetched(args, source, first, v);
  }

  lemma {:induction false} FetchBalances(args: Args, source: nat -> seq<Group>, v: Vars)
    requires v.remaining < args.target && v.locals.retryGroups == [] && v.Balanced(args, source)
    ensures NextSubmitted(args, source, v).Balanced(args, source)
  {
    var groups := source(v.locals.fetches);
    OnFetch(args, v.remaining, multiset(v.pendings), multiset(v.locals.data), multiset([]), v.flow, multiset(groups));
    var u := NextSubmitted(args, source, v);
    assert multiset(u.pendings) == multiset(v.pendings) + multiset(groups);
    assert HandedOut(source, v.locals.fetches + 1) == HandedOut(source, v.locals.fetches) + multiset(groups);
  }

  lemma {:induction false} SubmitFetched(args: Args, source: nat -> seq<Group>, first: Vars, v: Vars)
    requires v.remaining < args.target && v.locals.retryGroups == [] && Submitted(source, first, v)
    ensures Submitted(source, first, NextSubmitted(args, source, v))
  {
    var retry0, groups := first.locals.retryGroups, source(v.locals.fetches);
    AppendLast(first.pendings, retry0[..|retry0|], Fetched(source, first.locals.fetches, v.locals.fetches), groups);
  }

  lemma {:induction false} AppendLast(a: seq<Group>, b: seq<Group>, c: seq<Group>, d: seq<Group>)
    ensures a + b + c + d == a + b + (c + d)
  {
  }

  lemma {:induction false} NextKeeps(args: Args, source: nat -> seq<Group>, first: Vars, v: Vars)
    requires v.remaining < args.target && ToppingUp(args, source, first, v)
    ensures ToppingUp(args, source, first, NextSubmitted(args, source, v))
  {
    if v.locals.retryGroups == [] {
      FetchKeeps(args, source, first, v);
    } else {
      RetryKeeps(args, source, first, v);
    }
  }

  lemma {:induction false} NextSize(args: Args, source: nat -> seq<Group>, v: Vars)
    requires args.Valid() && Delivers(source, args.over) && v.remaining < args.target
    ensures v.remaining < NextSubmitted(args, source, v).remaining < args.target + args.over
    ensures NextSubmitted(args, source, v).locals.fetches
         == v.locals.fetches + if v.locals.retryGroups == [] then 1 else 0
  {
    assert 0 < |source(v.locals.fetches)| <= args.over;
  }

  /** Topping up covers the batch and stays under the over-sampling bound. */
  lemma {:induction false} ToppedUpSize(args: Args, source: nat -> seq<Group>, v: Vars)
    requires args.Valid() && Delivers(source, args.over)
    ensures args.target <= ToppedUp(args, source, v).remaining <= Max(v.remaining, args.target + args.over - 1)
    ensures ToppedUp(args, source, v).locals.fetches >= v.locals.fetches
    ensures ToppedUp(args, source, v).locals.data == v.locals.data
    ensures v.locals.retryGroups == [] && v.remaining < args.target ==>
      ToppedUp(args, source, v).locals.fetches > v.locals.fetches
    decreases args.target - v.remaining
  {
    if v.remaining < args.target {
      NextSize(args, source, v);
      ToppedUpSize(args, source, NextSubmitted(args, source, v));
    }
  }

  /** It keeps the books and submits in order. */
  lemma {:induction false} ToppedUpKeeps(args: Args, source: nat -> seq<Group>, first: Vars, v: Vars)
    requires args.Valid() && Delivers(source, args.over) && ToppingUp(args, source, first, v)
    ensures ToppingUp(args, source, first, ToppedUp(args, source, v))
    decreases args.target - v.remaining
  {
    if v.remaining < args.target {
      NextSize(args, source, v);
      NextKeeps(args, source, first, v);
      ToppedUpKeeps(args, source, first, NextSubmitted(args, source, v));
    }
  }

  /** What is submitted next. */
  ghost predicate IsNext(retry: seq<Group>, source: nat -> seq<Group>, fetches: nat,
                         groups: seq<Group>, retry': seq<Group>, fetches': nat)
  {
    groups != [] && if retry != [] then retry == groups + retry' && fetches' == fetches
                    else groups == source(fetches) && retry' == [] && fetches' == fetches + 1
  }

  /** The groups to submit next. */
  method NextGroups(args: Args, remaining: int, retryGroups0: seq<Group>, fetches0: nat, source: nat -> seq<Group>)
    returns (groups: seq<Group>, retryGroups: seq<Group>, fetches: nat)
    requires args.Valid() && Delivers(source, args.over) && remaining < args.target
    ensures IsNext(retryGroups0, source, fetches0, groups, retryGroups, fetches)
    ensures remaining + |groups| < args.target + args.over
    ensures retryGroups0 != [] ==> |groups| == Min(|retryGroups0|, args.target - remaining)
  {
    if retryGroups0 != [] {
      var n := Min(|retryGroups0|, args.target - remaining);
      groups, retryGroups, fetches := retryGroups0[..n], retryGroups0[n..], fetches0;
    } else {
      groups, retryGroups, fetches := source(fetches0), [], fetches0 + 1;
    }
  }

  lemma {:induction false} IsNextSubmitted(args: Args, source: nat -> seq<Group>, v: Vars, groups: seq<Group>,
                                           retry: seq<Group>, fetches: nat)
    requires v.remaining < args.target && IsNext(v.locals.retryGroups, source, v.locals.fetches, groups, retry, fetches)
    requires v.locals.retryGroups != [] ==> |groups| == Min(|v.locals.retryGroups|, args.target - v.remaining)
    ensures var u := NextSubmitted(args, source, v);
      && u.remaining == v.remaining + |groups| && u.pendings == v.pendings + groups
      && u.locals == v.locals.(retryGroups := retry, fetches := fetches)
  {
    if v.locals.retryGroups != [] {
      assert groups == v.locals.retryGroups[..|groups|] && retry == v.locals.retryGroups[|groups|..];
    }
  }

  /** Tops up until the batch could be filled: groups to sample again first, then fresh ones from the source. */
  method TopUp(state: GenerateState, args: Args, locals0: Locals, source: nat -> seq<Group>, ghost flow0: Flow)
    returns (locals: Locals, ghost flow: Flow)
    requires args.Valid() && Delivers(source, args.over)
    modifies state`remainingBatchSize, state`pendings
    ensures state.With(locals, flow) == ToppedUp(args, source, old(state.With(locals0, flow0)))
    ensures locals0.retryGroups == [] && old(state.remainingBatchSize) < args.target ==>
        locals.fetches > locals0.fetches
    ensures args.target <= state.remainingBatchSize && locals.data == locals0.data
    ensures state.remainingBatchSize <= Max(old(state.remainingBatchSize), args.target + args.over - 1)
  {
    ghost var first := state.With(locals0, flow0);
    ToppedUpSize(args, source, first);
    locals := locals0;
    ghost var v := first;
    while state.remainingBatchSize < args.target
      invariant ToppedUp(args, source, v) == ToppedUp(args, source, first)
      invariant v.remaining == state.remainingBatchSize && v.pendings == state.pendings && v.locals == locals
      decreases args.target - state.remainingBatchSize
    {
      var groups, retryGroups, fetches :=
        NextGroups(args, state.remainingBatchSize, locals.retryGroups, locals.fetches, source);
      IsNextSubmitted(args, source, v, groups, retryGroups, fetches);
      state.SubmitGenerateTasks(groups);
      locals := locals.(retryGroups := retryGroups, fetches := fetches);
      v := NextSubmitted(args, source, v);
    }
    flow := v.flow;
    assert state.With(locals, flow) == v;
  }

  /** After topping up an unfilled batch there is something to wait for. */
  lemma {:induction false} SomethingPending(args: Args, remaining: int, pendings: seq<Group>, data: multiset<Group>,
                                            retry: multiset<Group>, flow: Flow)
    requires Books(args, remaining, multiset(pendings), data, retry, flow) && |data| < args.target <= remaining
    ensures remaining == |pendings| + |data| && |pendings| > 0
  {
  }

  // ---------------------------------------------------------------- deciding on finished groups

  function Clones(args: Args, group: Group, verdict: Verdict): seq<Group> {
    if verdict.Drop? && ShouldRetry(args, verdict.reason, group) then [group.Clone()] else []
  }

  /** After the decision on one finished group. */
  ghost function Decision(args: Args, v: Vars, g: Group, verdict: Verdict): Vars {
    var all := v.locals.all + [g];
    match verdict
    case Drop(_) =>
      var retry := v.locals.retryGroups + Clones(args, g, verdict);
      v.(remaining := v.remaining - 1, locals := v.locals.(all := all, retryGroups := retry),
         flow := v.flow.(dropped := v.flow.dropped + multiset{g},
                         onesided := v.flow.onesided + OnesidedOf(g, verdict)))
    case Keep =>
      if |v.locals.data| < args.target then v.(locals := v.locals.(all := all, data := v.locals.data + [g]))
      else v.(locals := v.locals.(all := all), flow := v.flow.(surplus := v.flow.surplus + multiset{g}))
  }

  /** One step after another, each with its number. */
  ghost function Steps(step: (Vars, nat) -> Vars, v: Vars, i: nat): Vars {
    if i == 0 then v else step(Steps(step, v, i - 1), i - 1)
  }

  /** What every step keeps holds after all of them. */
  lemma {:induction false} StepsKeep(step: (Vars, nat) -> Vars, v: Vars, n: nat, i: nat, holds: (Vars, nat) -> bool)
    requires i <= n && holds(v, 0)
    requires forall u, j: nat :: j < n && holds(u, j) ==> holds(step(u, j), j + 1)
    ensures holds(Steps(step, v, i), i)
    decreases i
  {
    if i > 0 { StepsKeep(step, v, n, i - 1, holds); }
  }

  ghost function DecideOn(args: Args, done: seq<Group>, verdict: (nat, nat) -> Verdict, round: nat)
    : (Vars, nat) -> Vars
  {
    (v: Vars, j: nat) => if j < |done| then Decision(args, v, done[j], verdict(round, j)) else v
  }

  /** After the decisions on the first `i` of the groups that wait `round` reported. */
  ghost function Collected(args: Args, v: Vars, done: seq<Group>, verdict: (nat, nat) -> Verdict, round: nat, i: nat)
    : Vars
  {
    Steps(DecideOn(args, done, verdict, round), v, i)
  }

  lemma {:induction false} CollectedStep(args: Args, v: Vars, done: seq<Group>, verdict: (nat, nat) -> Verdict,
                                         round: nat, i: nat)
    requires i < |done|
    ensures Collected(args, v, done, verdict, round, i + 1)
         == Decision(args, Collected(args, v, done, verdict, round, i), done[i], verdict(round, i))
  {
  }

  /** The groups the filter keeps, in the order in which they finished; the dropped ones; and their clones. */
  ghost function KeptOf(done: seq<Group>, verdict: (nat, nat) -> Verdict, round: nat): seq<Group> {
    if done == [] then [] else
      var n := |done| - 1;
      KeptOf(done[..n], verdict, round) + if verdict(round, n).Keep? then [done[n]] else []
  }

  ghost function DroppedOf(done: seq<Group>, verdict: (nat, nat) -> Verdict, round: nat): multiset<Group> {
    if done == [] then multiset{} else
      var n := |done| - 1;
      DroppedOf(done[..n], verdict, round) + if verdict(round, n).Drop? then multiset{done[n]} else multiset{}
  }

  /** Those of the dropped ones all or none of whose samples were right. */
  ghost function OnesidedIn(done: seq<Group>, verdict: (nat, nat) -> Verdict, round: nat): multiset<Group> {
    if done == [] then multiset{} else
      var n := |done| - 1;
      OnesidedIn(done[..n], verdict, round) + OnesidedOf(done[n], verdict(round, n))
  }

  ghost function RetriesOf(args: Args, done: seq<Group>, verdict: (nat, nat) -> Verdict, round: nat): seq<Group> {
    if done == [] then [] else
      var n := |done| - 1;
      RetriesOf(args, done[..n], verdict, round) + Clones(args, done[n], verdict(round, n))
  }

  /** The batch takes kept groups until it is full. */
  ghost function Filled(data: seq<Group>, kept: seq<Group>, target: nat): seq<Group>
    requires |data| <= target
  {
    var s := data + kept;
    if |s| <= target then s else s[..target]
  }

  /** After decisions on these groups. */
  ghost predicate Followed(args: Args, done: seq<Group>, verdict: (nat, nat) -> Verdict, round: nat, before: Vars,
                           after: Vars)
  {
    && |before.locals.data| <= args.target
    && after.locals.data == Filled(before.locals.data, KeptOf(done, verdict, round), args.target)
    && after.locals.all == before.locals.all + done
    && after.locals.retryGroups == before.locals.retryGroups + RetriesOf(args, done, verdict, round)
    && after.flow.dropped == before.flow.dropped + DroppedOf(done, verdict, round)
    && after.flow.onesided == before.flow.onesided + OnesidedIn(done, verdict, round)
  }

  lemma {:induction false} CollectedFollows(args: Args, v: Vars, done: seq<Group>, verdict: (nat, nat) -> Verdict,
                                            round: nat, i: nat)
    requires i <= |done| && |v.locals.data| <= args.target
    ensures Followed(args, done[..i], verdict, round, v, Collected(args, v, done, verdict, round, i))
    decreases i
  {
    if i > 0 {
      CollectedFollows(args, v, done, verdict, round, i - 1);
      CollectedStep(args, v, done, verdict, round, i - 1);
      FollowOne(args, done, verdict, round, v, Collected(args, v, done, verdict, round, i - 1), i - 1);
    } else {
      FollowNone(args, v, done, verdict, round);
    }
  }

  lemma {:induction false} FollowNone(args: Args, v: Vars, done: seq<Group>, verdict: (nat, nat) -> Verdict, round: nat)
    requires |v.locals.data| <= args.target
    ensures Followed(args, done[..0], verdict, round, v, Collected(args, v, done, verdict, round, 0))
  {
  }

  lemma {:induction false} FollowOne(args: Args, done: seq<Group>, verdict: (nat, nat) -> Verdict, round: nat,
                                     before: Vars, now: Vars, i: nat)
    requires i < |done| && Followed(args, done[..i], verdict, round, before, now)
    ensures Followed(args, done[..i + 1], verdict, round, before, Decision(args, now, done[i], verdict(round, i)))
  {
    OneMore(args, done, verdict, round, i);
    AppendOne(before.locals.all, done[..i], [done[i]]);
    AppendOne(before.locals.retryGroups, RetriesOf(args, done[..i], verdict, round),
              Clones(args, done[i], verdict(round, i)));
    if verdict(round, i).Keep? {
      FillOne(before.locals.data, KeptOf(done[..i], verdict, round), done[i], args.target);
    } else {
      assert KeptOf(done[..i], verdict, round) + [] == KeptOf(done[..i], verdict, round);
    }
  }

  lemma {:induction false} AppendOne(a: seq<Group>, b: seq<Group>, c: seq<Group>)
    ensures a + b + c == a + (b + c)
  {
  }

  lemma {:induction false} OneMore(args: Args, done: seq<Group>, verdict: (nat, nat) -> Verdict, round: nat, i: nat)
    requires i < |done|
    ensures done[..i + 1] == done[..i] + [done[i]]
    ensures KeptOf(done[..i + 1], verdict, round)
         == KeptOf(done[..i], verdict, round) + if verdict(round, i).Keep? then [done[i]] else []
    ensures DroppedOf(done[..i + 1], verdict, round)
         == DroppedOf(done[..i], verdict, round) + if verdict(round, i).Drop? then multiset{done[i]} else multiset{}
    ensures OnesidedIn(done[..i + 1], verdict, round)
         == OnesidedIn(done[..i], verdict, round) + OnesidedOf(done[i], verdict(round, i))
    ensures RetriesOf(args, done[..i + 1], verdict, round)
         == RetriesOf(args, done[..i], verdict, round) + Clones(args, done[i], verdict(round, i))
  {
    assert done[..i + 1][..i] == done[..i];
  }

  lemma {:induction false} FillOne(data: seq<Group>, kept: seq<Group>, g: Group, target: nat)
    requires |data| <= target
    ensures var now := Filled(data, kept, target);
      Filled(data, kept + [g], target) == if |now| < target then now + [g] else now
  {
  }

  /** A decision on one of the groups in flight keeps the books. */
  lemma {:induction false} DecisionKeeps(args: Args, v: Vars, g: Group, verdict: Verdict, inFlight: multiset<Group>)
    requires v.BooksWith(args, inFlight + multiset{g})
    ensures Decision(args, v, g, verdict).BooksWith(args, inFlight)
  {
    var data, retry := multiset(v.locals.data), multiset(v.locals.retryGroups);
    match verdict {
      case Drop(reason) => OnDrop(args, v.remaining, inFlight, data, retry, v.flow, reason, g);
      case Keep =>
        if |v.locals.data| < args.target {
          OnKeep(args, v.remaining, inFlight, data, retry, v.flow, g);
        } else {
          OnSurplus(args, v.remaining, inFlight, data, retry, v.flow, g);
        }
    }
  }

  /** And it is counted, whatever it is. */
  lemma {:induction false} DecisionCounts(args: Args, v: Vars, g: Group, verdict: Verdict, n: nat, m: nat)
    requires v.Counts(n) && m == n + 1
    ensures Decision(args, v, g, verdict).Counts(m)
  {
    SeenOneMore(multiset(v.locals.all), multiset(v.locals.data), v.flow, g);
  }

  /** The groups in flight after decisions on the first `i` of the finished ones. */
  ghost function Undecided(done: seq<Group>, i: nat, pendings: seq<Group>): multiset<Group>
    requires i <= |done|
  {
    multiset(done[i..]) + multiset(pendings)
  }

  lemma {:induction false} UndecidedAll(done: seq<Group>, pendings: seq<Group>)
    ensures Undecided(done, 0, pendings) == multiset(done) + multiset(pendings)
    ensures Undecided(done, |done|, pendings) == multiset(pendings)
  {
    assert done[0..] == done && done[|done|..] == [];
  }

  lemma {:induction false} UndecidedNext(done: seq<Group>, i: nat, pendings: seq<Group>)
    requires i < |done|
    ensures Undecided(done, i, pendings) == Undecided(done, i + 1, pendings) + multiset{done[i]}
  {
    assert done[i..] == [done[i]] + done[i + 1..];
  }

  lemma {:induction false} CollectedKeeps(args: Args, v: Vars, done: seq<Group>, verdict: (nat, nat) -> Verdict,
                                          round: nat)
    requires v.BooksWith(args, Undecided(done, 0, v.pendings))
    ensures Collected(args, v, done, verdict, round, |done|).BooksWith(args, Undecided(done, |done|, v.pendings))
  {
    var holds := (u: Vars, j: nat) => j <= |done| && u.BooksWith(args, Undecided(done, j, v.pendings));
    var step := DecideOn(args, done, verdict, round);
    forall u, j: nat | j < |done| && holds(u, j) ensures holds(step(u, j), j + 1) {
      UndecidedNext(done, j, v.pendings);
      DecisionKeeps(args, u, done[j], verdict(round, j), Undecided(done, j + 1, v.pendings));
    }
    StepsKeep(step, v, |done|, |done|, holds);
  }

  lemma {:induction false} CollectedCounts(args: Args, v: Vars, done: seq<Group>, verdict: (nat, nat) -> Verdict,
                                           round: nat, n: nat)
    requires v.Counts(n)
    ensures Collected(args, v, done, verdict, round, |done|).Counts(n + |done|)
  {
    var holds := (u: Vars, j: nat) => u.Counts(n + j);
    var step := DecideOn(args, done, verdict, round);
    forall u, j: nat | j < |done| && holds(u, j) ensures holds(step(u, j), j + 1) {
      StepCounts(args, u, done, verdict, round, j, n);
    }
    StepsKeep(step, v, |done|, |done|, holds);
  }

  lemma {:induction false} StepCounts(args: Args, u: Vars, done: seq<Group>, verdict: (nat, nat) -> Verdict, round: nat,
                                      j: nat, n: nat)
    requires j < |done| && u.Counts(n + j)
    ensures DecideOn(args, done, verdict, round)(u, j).Counts(n + (j + 1))
  {
    DecisionCounts(args, u, done[j], verdict(round, j), n + j, n + (j + 1));
  }

  lemma {:induction false} CollectedLeaves(args: Args, v: Vars, done: seq<Group>, verdict: (nat, nat) -> Verdict,
                                           round: nat, i: nat)
    requires i <= |done|
    ensures var w := Collected(args, v, done, verdict, round, i);
      && w.remaining <= v.remaining && w.pendings == v.pendings
      && w.flow.fetched == v.flow.fetched && w.locals.fetches == v.locals.fetches
    decreases i
  {
    if i > 0 {
      CollectedLeaves(args, v, done, verdict, round, i - 1);
      CollectedStep(args, v, done, verdict, round, i - 1);
    }
  }

  /** The decision on one finished group. */
  method Decide(args: Args, group: Group, verdict: Verdict, remaining0: int, locals0: Locals, ghost v: Vars)
    returns (remaining: int, locals: Locals, ghost after: Vars)
    requires v.remaining == remaining0 && v.locals == locals0
    ensures after == Decision(args, v, group, verdict) && after.remaining == remaining && after.locals == locals
    ensures remaining == remaining0 - if verdict.Drop? then 1 else 0
    ensures locals.all == locals0.all + [group]
    ensures locals.data
         == if verdict.Keep? && |locals0.data| < args.target then locals0.data + [group] else locals0.data
    ensures locals.retryGroups == locals0.retryGroups + Clones(args, group, verdict)
    ensures after.flow.dropped == v.flow.dropped + if verdict.Drop? then multiset{group} else multiset{}
    ensures after.flow.onesided == v.flow.onesided + OnesidedOf(group, verdict)
  {
    after := Decision(args, v, group, verdict);
    remaining, locals := remaining0, locals0.(all := locals0.all + [group]);
    match verdict {
      case Drop(reason) =>
        remaining := remaining - 1;
        if ShouldRetry(args, reason, group) {
          locals := locals.(retryGroups := locals.retryGroups + [group.Clone()]);
        }
      case Keep =>
        if |locals.data| < args.target {
          locals := locals.(data := locals.data + [group]);
        }
    }
    if Clones(args, group, verdict) == [] { assert locals0.retryGroups + [] == locals0.retryGroups; }
  }

  /** The `for task in done` loop. */
  method CollectDone(state: GenerateState, args: Args, done: seq<Group>, verdict: (nat, nat) -> Verdict, round: nat,
                     before: Locals, ghost flow0: Flow)
    returns (after: Locals, ghost flow: Flow)
    requires |before.data| <= args.target
    modifies state`remainingBatchSize
    ensures state.With(after, flow) == Collected(args, old(state.With(before, flow0)), done, verdict, round, |done|)
    ensures Followed(args, done, verdict, round, old(state.With(before, flow0)), state.With(after, flow))
  {
    ghost var first := state.With(before, flow0);
    ghost var v := first;
    var remaining := state.remainingBatchSize;
    after := before;
    for i := 0 to |done|
      invariant v == Collected(args, first, done, verdict, round, i)
      invariant v.remaining == remaining && v.locals == after
    {
      CollectedStep(args, first, done, verdict, round, i);
      remaining, after, v := Decide(args, done[i], verdict(round, i), remaining, after, v);
    }
    assert done[..|done|] == done;
    CollectedFollows(args, first, done, verdict, round, |done|);
    CollectedLeaves(args, first, done, verdict, round, |done|);
    state.remainingBatchSize, flow := remaining, v.flow;
    assert state.With(after, flow) == v;
  }

  // ---------------------------------------------------------------- aborting

  /** What is in flight, in the order in which the waits of the abort report it. */
  ghost function Drained(wait: Wait, round: nat, pendings: seq<Group>): seq<Group>
    requires FirstCompleted(wait)
    decreases |pendings|
  {
    if pendings == [] then [] else
      var parts := wait(round, pendings);
      SplitSizes(parts, pendings);
      parts.0 + Drained(wait, round + 1, parts.1)
  }

  lemma {:induction false} DrainedAll(wait: Wait, round: nat, pendings: seq<Group>)
    requires FirstCompleted(wait)
    ensures multiset(Drained(wait, round, pendings)) == multiset(pendings)
    decreases |pendings|
  {
    if pendings != [] {
      var parts := wait(round, pendings);
      SplitSizes(parts, pendings);
      DrainedAll(wait, round + 1, parts.1);
    }
  }

  /** `abort`: waits for what is in flight, and under partial rollout collects it. */
  method Abort(state: GenerateState, partial: bool, wait: Wait) returns (aborted: seq<Group>)
    requires !state.aborted && FirstCompleted(wait)
    modifies state`aborted, state`pendings
    ensures state.aborted && state.pendings == []
    ensures partial ==> aborted == Drained(wait, 0, old(state.pendings))
    ensures partial ==> multiset(aborted) == multiset(old(state.pendings))
    ensures !partial ==> aborted == []
  {
    DrainedAll(wait, 0, state.pendings);
    state.aborted := true;
    aborted := [];
    var round: nat := 0;
    while state.pendings != []
      invariant partial ==> aborted + Drained(wait, round, state.pendings) == Drained(wait, 0, old(state.pendings))
      invariant state.aborted && (!partial ==> aborted == [])
      decreases |state.pendings|
    {
      var parts := wait(round, state.pendings);
      SplitSizes(parts, state.pendings);
      ghost var rest := Drained(wait, round + 1, parts.1);
      assert partial ==> aborted + (parts.0 + rest) == aborted + parts.0 + rest;
      state.pendings := parts.1;
      if partial { aborted := aborted + parts.0; }
      round := round + 1;
    }
  }

  // ---------------------------------------------------------------- sorting by index

  ghost predicate SortedByIndex(groups: seq<Group>) {
    forall i :: 0 < i < |groups| ==> groups[i - 1].index <= groups[i].index
  }

  function Place(groups: seq<Group>, g: Group): (r: seq<Group>)
    ensures r != [] && (r[0] == g || (groups != [] && r[0] == groups[0]))
  {
    if groups == [] || g.index < groups[0].index then [g] + groups else [groups[0]] + Place(groups[1..], g)
  }

  lemma {:induction false} PlaceKeepsOrder(groups: seq<Group>, g: Group)
    requires SortedByIndex(groups)
    ensures SortedByIndex(Place(groups, g))
  {
    if groups != [] {
      if g.index < groups[0].index {
        SortedCons(g, groups);
      } else {
        PlaceKeepsOrder(groups[1..], g);
        SortedCons(groups[0], Place(groups[1..], g));
      }
    }
  }

  lemma {:induction false} SortedCons(g: Group, rest: seq<Group>)
    requires SortedByIndex(rest) && rest != [] && g.index <= rest[0].index
    ensures SortedByIndex([g] + rest)
  {
    forall i | 0 < i < |rest| + 1 ensures ([g] + rest)[i - 1].index <= ([g] + rest)[i].index {
      if i > 1 { assert rest[i - 2].index <= rest[i - 1].index; }
    }
  }

  lemma {:induction false} PlaceAdds(groups: seq<Group>, g: Group)
    ensures multiset(Place(groups, g)) == multiset(groups) + multiset{g}
  {
    if groups != [] && groups[0].index <= g.index {
      PlaceAdds(groups[1..], g);
      assert groups == [groups[0]] + groups[1..];
    }
  }

  /** `sorted` by the index of a group's first sample. */
  function Sorted(groups: seq<Group>): seq<Group> {
    if groups == [] then [] else Place(Sorted(groups[..|groups| - 1]), groups[|groups| - 1])
  }

  lemma {:induction false} SortedIsSorted(groups: seq<Group>)
    ensures SortedByIndex(Sorted(groups)) && multiset(Sorted(groups)) == multiset(groups)
    ensures |Sorted(groups)| == |groups|
  {
    if groups != [] {
      var before, g := groups[..|groups| - 1], groups[|groups| - 1];
      SortedIsSorted(before);
      PlaceKeepsOrder(Sorted(before), g);
      PlaceAdds(Sorted(before), g);
      assert groups == before + [g];
    }
    assert |multiset(Sorted(groups))| == |multiset(groups)|;
  }

  // ---------------------------------------------------------------- a whole rollout

  /** After one pass of the loop: topped up, waited, decided on what is done. */
  ghost function AfterRound(args: Args, schedule: Schedule, round: nat, v: Vars): Vars
    requires Delivers(schedule.source, args.over)
  {
    var u := ToppedUp(args, schedule.source, v);
    var (done, rest) := schedule.wait(round, u.pendings);
    Collected(args, u.(pendings := rest), done, schedule.verdict, round, |done|)
  }

  /** After `n` passes. */
  ghost function After(args: Args, schedule: Schedule, n: nat): Vars
    requires Delivers(schedule.source, args.over)
  {
    if n == 0 then START else AfterRound(args, schedule, n - 1, After(args, schedule, n - 1))
  }

  /** The batch is not full before pass `n`. */
  ghost predicate Running(args: Args, schedule: Schedule, n: nat)
    requires Delivers(schedule.source, args.over)
  {
    forall k: nat :: k < n ==> |After(args, schedule, k).locals.data| < args.target
  }

  lemma {:induction false} RunningOn(args: Args, schedule: Schedule, n: nat)
    requires Delivers(schedule.source, args.over)
    requires Running(args, schedule, n) && |After(args, schedule, n).locals.data| < args.target
    ensures Running(args, schedule, n + 1)
  {
  }

  /** The loop is left after `n` passes. */
  ghost predicate FinishesAt(args: Args, schedule: Schedule, n: nat)
    requires Delivers(schedule.source, args.over)
  {
    Running(args, schedule, n) && |After(args, schedule, n).locals.data| == args.target
  }

  /** What holds whenever the loop comes to its guard. */
  ghost predicate AtGuard(args: Args, source: nat -> seq<Group>, v: Vars) {
    v.Balanced(args, source) && v.remaining < args.target + args.over
  }

  /** Topped up, there is something to wait for, and what the wait reports leaves the pending groups. */
  lemma {:induction false} WaitKeeps(args: Args, schedule: Schedule, round: nat, v: Vars)
    requires args.Valid() && schedule.Valid(args) && AtGuard(args, schedule.source, v)
    requires |v.locals.data| < args.target
    ensures var u := ToppedUp(args, schedule.source, v);
      var (done, rest) := schedule.wait(round, u.pendings);
      && u.pendings != [] && done != [] && ToppingUp(args, schedule.source, v, u)
      && u.(pendings := rest).BooksWith(args, Undecided(done, 0, rest)) && u.(pendings := rest).Seen()
  {
    NothingSubmitted(args, schedule.source, v);
    ToppedUpKeeps(args, schedule.source, v, v);
    ToppedUpSize(args, schedule.source, v);
    var u := ToppedUp(args, schedule.source, v);
    SomethingPending(args, u.remaining, u.pendings, multiset(u.locals.data), multiset(u.locals.retryGroups), u.flow);
    var (done, rest) := schedule.wait(round, u.pendings);
    assert Splits((done, rest), u.pendings);
    UndecidedAll(done, rest);
  }

  lemma {:induction false} RoundKeeps(args: Args, schedule: Schedule, round: nat, v: Vars)
    requires args.Valid() && schedule.Valid(args) && AtGuard(args, schedule.source, v)
    requires |v.locals.data| < args.target
    ensures var w := AfterRound(args, schedule, round, v);
      && AtGuard(args, schedule.source, w) && w.Decisions() > v.Decisions() && w.locals.fetches >= v.locals.fetches
      && (v.locals.retryGroups == [] && v.remaining < args.target ==> w.locals.fetches > 0)
  {
    WaitKeeps(args, schedule, round, v);
    ToppedUpSize(args, schedule.source, v);
    var u := ToppedUp(args, schedule.source, v);
    var (done, rest) := schedule.wait(round, u.pendings);
    CollectedKeeps(args, u.(pendings := rest), done, schedule.verdict, round);
    CollectedCounts(args, u.(pendings := rest), done, schedule.verdict, round, u.Decisions());
    CollectedLeaves(args, u.(pendings := rest), done, schedule.verdict, round, |done|);
    UndecidedAll(done, rest);
  }

  /** Every pass keeps the books and comes to a decision on some group. */
  lemma {:induction false} AfterKeeps(args: Args, schedule: Schedule, n: nat)
    requires args.Valid() && schedule.Valid(args) && Running(args, schedule, n)
    ensures AtGuard(args, schedule.source, After(args, schedule, n))
    ensures After(args, schedule, n).Decisions() >= n && (n > 0 ==> After(args, schedule, n).locals.fetches > 0)
    decreases n
  {
    if n > 0 {
      AfterKeeps(args, schedule, n - 1);
      RoundKeeps(args, schedule, n - 1, After(args, schedule, n - 1));
    }
  }

  /** One pass of the loop: top up, wait for something that is never the empty set, decide on what is done. */
  method Round(state: GenerateState, args: Args, schedule: Schedule, round: nat, before: Locals, ghost flow0: Flow)
    returns (after: Locals, ghost flow: Flow)
    requires args.Valid() && Delivers(schedule.source, args.over) && |before.data| < args.target
    requires ToppedUp(args, schedule.source, state.With(before, flow0)).pendings != []
    modifies state`remainingBatchSize, state`pendings
    ensures state.With(after, flow) == AfterRound(args, schedule, round, old(state.With(before, flow0)))
  {
    var locals;
    locals, flow := TopUp(state, args, before, schedule.source, flow0);
    assert state.pendings != [];
    var (done, rest) := schedule.wait(round, state.pendings);
    state.pendings := rest;
    after, flow := CollectDone(state, args, done, schedule.verdict, round, locals, flow);
  }

  /** The outer loop, watched for at most so many waits. */
  method Passes(state: GenerateState, args: Args, schedule: Schedule, rounds: nat)
    returns (locals: Locals, ghost passes: nat, ghost flow: Flow)
    requires args.Valid() && state.IsReset() && schedule.Valid(args)
    modifies state`remainingBatchSize, state`pendings
    ensures passes <= rounds && state.With(locals, flow) == After(args, schedule, passes)
    ensures Running(args, schedule, passes) && |locals.data| <= args.target
    ensures |locals.data| < args.target ==> passes == rounds && Running(args, schedule, rounds + 1)
  {
    locals, flow := START.locals, START.flow;
    var round: nat := 0;
    while |locals.data| < args.target && round < rounds
      invariant round <= rounds && Running(args, schedule, round)
      invariant state.With(locals, flow) == After(args, schedule, round)
      decreases rounds - round
    {
      RunningOn(args, schedule, round);
      locals, flow := Pass(state, args, schedule, round, locals, flow);
      round := round + 1;
    }
    AfterSize(args, schedule, round);
    if |locals.data| < args.target { RunningOn(args, schedule, round); }
    passes := round;
  }

  lemma {:induction false} AfterSize(args: Args, schedule: Schedule, n: nat)
    requires args.Valid() && schedule.Valid(args) && Running(args, schedule, n)
    ensures |After(args, schedule, n).locals.data| <= args.target
  {
    AfterKeeps(args, schedule, n);
  }

  method Pass(state: GenerateState, args: Args, schedule: Schedule, round: nat, before: Locals, ghost flow0: Flow)
    returns (after: Locals, ghost flow: Flow)
    requires args.Valid() && schedule.Valid(args) && Running(args, schedule, round + 1)
    requires state.With(before, flow0) == After(args, schedule, round)
    modifies state`remainingBatchSize, state`pendings
    ensures state.With(after, flow) == After(args, schedule, round + 1)
  {
    AfterKeeps(args, schedule, round);
    WaitKeeps(args, schedule, round, state.With(before, flow0));
    after, flow := Round(state, args, schedule, round, before, flow0);
  }

  /** At the end: what was in flight, less than one over-sampling batch, is handed back whole under partial rollout. */
  ghost predicate Returned(args: Args, flow: Flow, data: multiset<Group>, aborted: seq<Group>) {
    if args.partial
    then Conserved(flow, multiset(aborted), data) && |aborted| < args.over
    else aborted == [] && data + flow.dropped + flow.surplus <= flow.submitted
         && |flow.submitted| - Decided(flow, data) < args.over
  }

  /** What is handed back from a batch of pending groups. */
  ghost function HandedBack(args: Args, wait: Wait, pendings: seq<Group>): seq<Group>
    requires FirstCompleted(wait)
  {
    if args.partial then Drained(wait, 0, pendings) else []
  }

  lemma {:induction false} FinishedReturns(args: Args, schedule: Schedule, v: Vars)
    requires args.Valid() && schedule.Valid(args) && AtGuard(args, schedule.source, v)
    requires |v.locals.data| == args.target
    ensures Returned(args, v.flow, multiset(v.locals.data), HandedBack(args, schedule.abortWait, v.pendings))
  {
    DrainedAll(schedule.abortWait, 0, v.pendings);
    var aborted := Drained(schedule.abortWait, 0, v.pendings);
    assert |multiset(aborted)| == |multiset(v.pendings)|;
  }

  /**
    `generate_rollout_async`, watched for at most `rounds` waits: exactly the passes above, up to the first after which
    the batch is full.

    A finished run returns exactly `rollout_batch_size` groups in index order and accounts for every submission;
    an unfinished one has dropped at least as many groups as it has waited beyond what the batch still lacks.
   */
  method GenerateRollout(state: GenerateState, args: Args, schedule: Schedule, rounds: nat)
    returns (finished: bool, data: seq<Group>, all: seq<Group>, aborted: seq<Group>, fetches: nat, ghost passes: nat,
             ghost v: Vars)
    requires args.Valid() && state.IsReset() && schedule.Valid(args)
    modifies state
    ensures passes <= rounds && v == After(args, schedule, passes) && fetches == v.locals.fetches
    ensures finished ==> FinishesAt(args, schedule, passes) && state.IsReset()
    ensures !finished ==> passes == rounds && Running(args, schedule, rounds + 1)
    ensures finished ==> data == Sorted(v.locals.data) && all == Sorted(v.locals.all)
    ensures finished ==> aborted == HandedBack(args, schedule.abortWait, v.pendings)
    ensures finished ==> |data| == args.target && SortedByIndex(data) && SortedByIndex(all) && fetches > 0
    ensures finished ==> Returned(args, v.flow, multiset(data), aborted)
    ensures finished ==> multiset(all) == multiset(data) + v.flow.dropped + v.flow.surplus
    ensures !finished ==> data == v.locals.data && |data| < args.target && |v.flow.dropped| >= rounds - |data|
    ensures !finished ==> state.remainingBatchSize == |state.pendings| + |data| < args.target + args.over
    ensures !finished ==> Conserved(v.flow, multiset(state.pendings), multiset(data))
    ensures Chained(v.flow, multiset(v.locals.retryGroups), args.maxRetries)
    ensures FewClones(v.flow.submitted, v.flow.fetched, args.maxRetries)
    ensures v.flow.fetched == HandedOut(schedule.source, fetches)
  {
    var locals;
    ghost var flow;
    locals, passes, flow := Passes(state, args, schedule, rounds);
    v := state.With(locals, flow);
    AfterKeeps(args, schedule, passes);
    BooksMeanFewClones(args, v.remaining, multiset(v.pendings), multiset(v.locals.data),
                       multiset(v.locals.retryGroups), v.flow);
    finished, data, all, fetches, aborted := |locals.data| == args.target, locals.data, locals.all, locals.fetches, [];
    if finished {
      FinishedReturns(args, schedule, v);
      aborted := Abort(state, args.partial, schedule.abortWait);
      data, all := Sorted(data), Sorted(all);
      SortedIsSorted(locals.data);
      SortedIsSorted(locals.all);
      state.Reset();
    }
  }

  // ---------------------------------------------------------------- when nothing is left over

  /** Decisions to keep leave the count, the clones and what is pending as they are. */
  lemma {:induction false} CollectedAllKept(args: Args, v: Vars, done: seq<Group>, verdict: (nat, nat) -> Verdict,
                                            round: nat, i: nat)
    requires i <= |done| && |v.locals.data| <= args.target
    requires forall j: nat :: j < i ==> verdict(round, j).Keep?
    ensures var w := Collected(args, v, done, verdict, round, i);
      && w.remaining == v.remaining && w.pendings == v.pendings && w.flow.dropped == v.flow.dropped
      && w.locals.retryGroups == v.locals.retryGroups && w.locals.fetches == v.locals.fetches
      && w.locals.data == Filled(v.locals.data, done[..i], args.target)
    decreases i
  {
    if i > 0 {
      CollectedAllKept(args, v, done, verdict, round, i - 1);
      CollectedStep(args, v, done, verdict, round, i - 1);
      assert done[..i] == done[..i - 1] + [done[i - 1]];
    }
  }

  /** When every fetch brings just a batch and nothing is dropped, one fetch is all there is. */
  lemma {:induction false} OneFetch(args: Args, schedule: Schedule, n: nat)
    requires args.Valid() && schedule.Valid(args) && Running(args, schedule, n) && n > 0
    requires args.over == args.target && DeliversFully(schedule.source, args.over) && AlwaysKeeps(schedule.verdict)
    ensures var v := After(args, schedule, n); v.remaining == args.target && v.locals.retryGroups == []
    decreases n
  {
    var v := After(args, schedule, n - 1);
    if n > 1 { OneFetch(args, schedule, n - 1); }
    var u := ToppedUp(args, schedule.source, v);
    assert u.remaining == args.target && u.locals.retryGroups == [] && |u.locals.data| < args.target by {
      if n == 1 { assert u == ToppedUp(args, schedule.source, NextSubmitted(args, schedule.source, START)); }
      assert |v.locals.data| < args.target;
    }
    var (done, rest) := schedule.wait(n - 1, u.pendings);
    CollectedAllKept(args, u.(pendings := rest), done, schedule.verdict, n - 1, |done|);
  }

  /**
    Nothing is in flight when the batch is full if only one group is fetched at a time, or if every fetch brings just a
    batch and there is no filter.
   */
  lemma {:induction false} NothingLeft(args: Args, schedule: Schedule, n: nat)
    requires args.Valid() && schedule.Valid(args) && FinishesAt(args, schedule, n)
    requires args.over == args.target
    requires args.over == 1 || (DeliversFully(schedule.source, args.over) && AlwaysKeeps(schedule.verdict))
    ensures After(args, schedule, n).pendings == []
  {
    AfterKeeps(args, schedule, n);
    if args.over > 1 { OneFetch(args, schedule, n); }
  }

  // ---------------------------------------------------------------- what a pass makes of a given report

  /** The first topping up submits what is fetched. */
  lemma {:induction false} FirstTopUp(args: Args, source: nat -> seq<Group>)
    requires args.Valid() && Delivers(source, args.over)
    ensures var u := ToppedUp(args, source, START);
      && u.locals == START.locals.(fetches := u.locals.fetches) && u.locals.fetches > 0
      && u.pendings == Fetched(source, 0, u.locals.fetches) && |u.pendings| == u.remaining >= args.target
  {
    NothingSubmitted(args, source, START);
    ToppedUpKeeps(args, source, START, START);
    ToppedUpSize(args, source, START);
    FromStart(args, source, ToppedUp(args, source, START));
  }

  lemma {:induction false} FromStart(args: Args, source: nat -> seq<Group>, u: Vars)
    requires ToppingUp(args, source, START, u)
    ensures u.locals == START.locals.(fetches := u.locals.fetches)
    ensures u.pendings == Fetched(source, 0, u.locals.fetches) && |u.pendings| == u.remaining
  {
    FromNothing(source, u);
    NothingKept(args, u.remaining, multiset(u.pendings), multiset(u.locals.retryGroups), u.flow);
  }

  lemma {:induction false} FromNothing(source: nat -> seq<Group>, u: Vars)
    requires Submitted(source, START, u)
    ensures u.locals.retryGroups == [] && u.pendings == Fetched(source, 0, u.locals.fetches)
  {
    assert [] + [] + Fetched(source, 0, u.locals.fetches) == Fetched(source, 0, u.locals.fetches);
  }

  lemma {:induction false} NothingKept(args: Args, remaining: int, inFlight: multiset<Group>, retry: multiset<Group>,
                                       flow: Flow)
    requires Books(args, remaining, inFlight, multiset([]), retry, flow) && flow.surplus == multiset{}
    ensures remaining == |inFlight|
  {
  }

  /** Where one fetch covers the batch, topping up is that fetch. */
  lemma {:induction false} OneFetchTopUp(args: Args, source: nat -> seq<Group>, v: Vars)
    requires Delivers(source, args.over) && v.locals.retryGroups == []
    requires v.remaining < args.target <= v.remaining + |source(v.locals.fetches)|
    ensures ToppedUp(args, source, v) == NextSubmitted(args, source, v)
  {
    assert ToppedUp(args, source, v) == ToppedUp(args, source, NextSubmitted(args, source, v));
  }

  /** A pass whose report fills the batch. */
  lemma {:induction false} FillingPass(args: Args, schedule: Schedule, round: nat, v: Vars, done: seq<Group>,
                                       rest: seq<Group>)
    requires args.Valid() && schedule.Valid(args) && v.locals.data == []
    requires (done, rest) == schedule.wait(round, ToppedUp(args, schedule.source, v).pendings)
    requires |done| >= args.target && forall j: nat :: j < |done| ==> schedule.verdict(round, j).Keep?
    ensures var w := AfterRound(args, schedule, round, v);
      && w.locals.data == done[..args.target] && w.pendings == rest
      && w.locals.fetches == ToppedUp(args, schedule.source, v).locals.fetches
  {
    ToppedUpSize(args, schedule.source, v);
    var u := ToppedUp(args, schedule.source, v);
    CollectedAllKept(args, u.(pendings := rest), done, schedule.verdict, round, |done|);
    assert done[..|done|] == done && [] + done == done;
    if |done| == args.target { assert done[..args.target] == done; }
  }

  /** A first pass whose report is one group that is dropped for good. */
  lemma {:induction false} DroppingPass(args: Args, schedule: Schedule, g: Group, rest: seq<Group>)
    requires args.Valid() && schedule.Valid(args) && ([g], rest) == schedule.wait(0, schedule.source(0))
    requires |schedule.source(0)| == args.over && schedule.verdict(0, 0) == Drop("")
    ensures var w := After(args, schedule, 1);
      && w.locals == Locals([], [g], [], 1) && w.pendings == rest && w.remaining == args.over - 1
  {
    var u := ToppedUp(args, schedule.source, START);
    OneFetchTopUp(args, schedule.source, START);
    assert [] + schedule.source(0) == schedule.source(0);
    CollectedStep(args, u.(pendings := rest), [g], schedule.verdict, 0, 0);
    assert After(args, schedule, 1) == AfterRound(args, schedule, 0, START);
  }

  // ---------------------------------------------------------------- no prompt twice

  function HasIndex(x: int): Group -> bool { (g: Group) => g.index == x }

  /** How many groups have this index. */
  ghost function IndexCount(groups: seq<Group>, x: int): nat { Count(groups, HasIndex(x)) }

  /** A group that is pending, kept or to be sampled again accounts for one that was fetched with its index. */
  ghost predicate Accounted(source: nat -> seq<Group>, done: seq<Group>, v: Vars, x: int) {
    IndexCount(done, x) + IndexCount(v.pendings, x) + IndexCount(v.locals.data, x)
    + IndexCount(v.locals.retryGroups, x) <= IndexCount(Fetched(source, 0, v.locals.fetches), x)
  }

  lemma {:induction false} SubmitAccounts(args: Args, source: nat -> seq<Group>, v: Vars, x: int)
    requires v.remaining < args.target && Accounted(source, [], v, x)
    ensures Accounted(source, [], NextSubmitted(args, source, v), x)
  {
    var retry := v.locals.retryGroups;
    if retry != [] {
      var n := Min(|retry|, args.target - v.remaining);
      assert retry == retry[..n] + retry[n..];
      CountConcat(retry[..n], retry[n..], HasIndex(x));
      CountConcat(v.pendings, retry[..n], HasIndex(x));
    } else {
      var groups := source(v.locals.fetches);
      CountConcat(v.pendings, groups, HasIndex(x));
      CountConcat(Fetched(source, 0, v.locals.fetches), groups, HasIndex(x));
    }
  }

  lemma {:induction false} ToppedUpAccounts(args: Args, source: nat -> seq<Group>, v: Vars, x: int)
    requires Delivers(source, args.over) && Accounted(source, [], v, x)
    ensures Accounted(source, [], ToppedUp(args, source, v), x)
    decreases args.target - v.remaining
  {
    if v.remaining < args.target {
      SubmitAccounts(args, source, v, x);
      ToppedUpAccounts(args, source, NextSubmitted(args, source, v), x);
    }
  }

  lemma {:induction false} CountSnoc(groups: seq<Group>, g: Group, x: int)
    ensures IndexCount(groups + [g], x) == IndexCount(groups, x) + if g.index == x then 1 else 0
  {
    CountConcat(groups, [g], HasIndex(x));
  }

  lemma {:induction false} DecisionAccounts(args: Args, source: nat -> seq<Group>, v: Vars, done: seq<Group>,
                                            verdict: Verdict, x: int)
    requires done != [] && Accounted(source, done, v, x)
    ensures Accounted(source, done[1..], Decision(args, v, done[0], verdict), x)
  {
    CountSnoc(v.locals.data, done[0], x);
    CountSnoc(v.locals.retryGroups, done[0].Clone(), x);
    if Clones(args, done[0], verdict) == [] { assert v.locals.retryGroups + [] == v.locals.retryGroups; }
  }

  lemma {:induction false} CollectedAccounts(args: Args, source: nat -> seq<Group>, v: Vars, done: seq<Group>,
                                             verdict: (nat, nat) -> Verdict, round: nat, i: nat, x: int)
    requires i <= |done| && Accounted(source, done, v, x)
    ensures Accounted(source, done[i..], Collected(args, v, done, verdict, round, i), x)
    decreases i
  {
    if i == 0 {
      assert done[0..] == done;
    } else {
      CollectedAccounts(args, source, v, done, verdict, round, i - 1, x);
      CollectedStep(args, v, done, verdict, round, i - 1);
      assert done[i - 1..][1..] == done[i..];
      DecisionAccounts(args, source, Collected(args, v, done, verdict, round, i - 1), done[i - 1..],
                       verdict(round, i - 1), x);
    }
  }

  lemma {:induction false} RoundAccounts(args: Args, schedule: Schedule, round: nat, v: Vars, x: int)
    requires args.Valid() && schedule.Valid(args) && AtGuard(args, schedule.source, v)
    requires |v.locals.data| < args.target && Accounted(schedule.source, [], v, x)
    ensures Accounted(schedule.source, [], AfterRound(args, schedule, round, v), x)
  {
    WaitKeeps(args, schedule, round, v);
    ToppedUpAccounts(args, schedule.source, v, x);
    var u := ToppedUp(args, schedule.source, v);
    var (done, rest) := schedule.wait(round, u.pendings);
    assert Splits((done, rest), u.pendings);
    CountConcat(done, rest, HasIndex(x));
    CountPermutation(done + rest, u.pendings, HasIndex(x));
    CollectedAccounts(args, schedule.source, u.(pendings := rest), done, schedule.verdict, round, |done|, x);
    assert done[|done|..] == [];
  }

  /**
    Of the groups fetched with an index at most that many are ever in flight, in the batch or waiting to be sampled
    again at one time: a clone takes the place of the group that was dropped.
   */
  lemma {:induction false} AfterAccounts(args: Args, schedule: Schedule, n: nat, x: int)
    requires args.Valid() && schedule.Valid(args) && Running(args, schedule, n)
    ensures Accounted(schedule.source, [], After(args, schedule, n), x)
    decreases n
  {
    if n > 0 {
      AfterKeeps(args, schedule, n - 1);
      AfterAccounts(args, schedule, n - 1, x);
      RoundAccounts(args, schedule, n - 1, After(args, schedule, n - 1), x);
    }
  }

  // ---------------------------------------------------------------- how often a prompt is submitted

  /** How many groups of this prompt with at most so many retries are in a bag. */
  ghost function UpTo(bag: multiset<Group>, index: int, retries: nat): nat
    decreases retries
  {
    if retries == 0 then bag[Group(index, 0)] else UpTo(bag, index, retries - 1) + bag[Group(index, retries)]
  }

  /** No group is submitted more often than it was fetched, or left as a clone by the one before it. */
  ghost predicate FewClones(submitted: multiset<Group>, fetched: multiset<Group>, maxRetries: int) {
    forall g: Group {:trigger fetched[g]} :: submitted[g] <= fetched[g] + ClonesOf(submitted, g, maxRetries)
  }

  lemma {:induction false} BooksMeanFewClones(args: Args, remaining: int, inFlight: multiset<Group>,
                                              data: multiset<Group>, retry: multiset<Group>, flow: Flow)
    requires Books(args, remaining, inFlight, data, retry, flow)
    ensures FewClones(flow.submitted, flow.fetched, args.maxRetries)
  {
  }

  /** A prompt is submitted with so many retries at most as often as it was fetched with no more. */
  lemma {:induction false} SubmittedAtMost(submitted: multiset<Group>, fetched: multiset<Group>, maxRetries: int,
                                           index: int, retries: nat)
    requires FewClones(submitted, fetched, maxRetries)
    ensures submitted[Group(index, retries)] <= UpTo(fetched, index, retries)
    ensures retries > Max(0, maxRetries) ==> submitted[Group(index, retries)] <= fetched[Group(index, retries)]
    decreases retries
  {
    var g := Group(index, retries);
    assert submitted[g] <= fetched[g] + ClonesOf(submitted, g, maxRetries);
    if retries > 0 { SubmittedAtMost(submitted, fetched, maxRetries, index, retries - 1); }
  }

  /** The source hands out the prompt once, already sampled again `first` times. */
  ghost predicate Once(fetched: multiset<Group>, index: int, first: nat) {
    forall r: nat :: fetched[Group(index, r)] == if r == first then 1 else 0
  }

  lemma {:induction false} FetchedOnce(fetched: multiset<Group>, index: int, first: nat, retries: nat)
    requires Once(fetched, index, first)
    ensures UpTo(fetched, index, retries) == if retries < first then 0 else 1
    decreases retries
  {
    if retries > 0 { FetchedOnce(fetched, index, first, retries - 1); }
  }

  /** Whether such a prompt may be submitted with so many retries. */
  ghost function May(maxRetries: int, first: nat, retries: nat): nat {
    if retries == first || first < retries <= maxRetries then 1 else 0
  }

  lemma {:induction false} SubmittedOnce(submitted: multiset<Group>, fetched: multiset<Group>, maxRetries: int,
                                         index: int, first: nat, retries: nat)
    requires FewClones(submitted, fetched, maxRetries) && Once(fetched, index, first)
    ensures submitted[Group(index, retries)] <= May(maxRetries, first, retries)
  {
    SubmittedAtMost(submitted, fetched, maxRetries, index, retries);
    FetchedOnce(fetched, index, first, retries);
  }

  /** The first submission and the retries that are left, counted up to a number of retries. */
  ghost function Allowed(maxRetries: int, first: nat, upTo: nat): nat {
    if upTo < first then 0 else 1 + Max(0, Min(maxRetries, upTo) - first)
  }

  lemma {:induction false} AllowedStep(maxRetries: int, first: nat, upTo: nat)
    ensures Allowed(maxRetries, first, upTo)
         == May(maxRetries, first, upTo) + if upTo == 0 then 0 else Allowed(maxRetries, first, upTo - 1)
  {
  }

  /** Bounds on every number of retries add up. */
  lemma {:induction false} UpToAtMost(bag: multiset<Group>, index: int, maxRetries: int, first: nat, upTo: nat)
    requires forall r: nat :: r <= upTo ==> bag[Group(index, r)] <= May(maxRetries, first, r)
    ensures UpTo(bag, index, upTo) <= Allowed(maxRetries, first, upTo)
    decreases upTo
  {
    AllowedStep(maxRetries, first, upTo);
    if upTo > 0 { UpToAtMost(bag, index, maxRetries, first, upTo - 1); }
  }

  /** Such a prompt is submitted at most `1 + max_retries - first` times, however long the run. */
  lemma {:induction false} PromptSubmissions(submitted: multiset<Group>, fetched: multiset<Group>, maxRetries: int,
                                             index: int, first: nat, upTo: nat)
    requires FewClones(submitted, fetched, maxRetries) && Once(fetched, index, first)
    ensures UpTo(submitted, index, upTo) <= Allowed(maxRetries, first, upTo)
  {
    forall r: nat | r <= upTo ensures submitted[Group(index, r)] <= May(maxRetries, first, r) {
      SubmittedOnce(submitted, fetched, maxRetries, index, first, r);
    }
    UpToAtMost(submitted, index, maxRetries, first, upTo);
  }

  /** Nothing of a prompt is in flight, kept or waiting, and every drop of it was for a reason to sample it again. */
  ghost predicate Exhausted(v: Vars, index: int) {
    forall r: nat :: ExhaustedAt(v, Group(index, r))
  }

  ghost predicate ExhaustedAt(v: Vars, g: Group) {
    && g !in multiset(v.pendings) && g !in multiset(v.locals.data) && g !in v.flow.surplus
    && g !in multiset(v.locals.retryGroups) && v.flow.dropped[g] == v.flow.onesided[g]
  }

  /** Every submission but a fetched one is there for the one with a retry less. */
  ghost predicate Again(submitted: multiset<Group>, fetched: multiset<Group>, maxRetries: int, index: int, retries: nat)
  {
    submitted[Group(index, retries)] == fetched[Group(index, retries)]
         + if 1 <= retries <= maxRetries then submitted[Group(index, retries - 1)] else 0
  }

  lemma {:induction false} SubmittedAgain(submitted: multiset<Group>, fetched: multiset<Group>, maxRetries: int,
                                          index: int, first: nat, retries: nat)
    requires forall r: nat :: r <= retries ==> Again(submitted, fetched, maxRetries, index, r)
    requires Once(fetched, index, first)
    ensures submitted[Group(index, retries)] == May(maxRetries, first, retries)
    decreases retries
  {
    assert Again(submitted, fetched, maxRetries, index, retries);
    if retries > 0 { SubmittedAgain(submitted, fetched, maxRetries, index, first, retries - 1); }
  }

  lemma {:induction false} ChainOf(args: Args, v: Vars, index: int, retries: nat)
    requires v.BooksWith(args, multiset(v.pendings)) && Exhausted(v, index)
    ensures Again(v.flow.submitted, v.flow.fetched, args.maxRetries, index, retries)
  {
    assert ExhaustedAt(v, Group(index, retries));
    AccountOf(args, v, Group(index, retries));
    if retries > 0 {
      assert ExhaustedAt(v, Group(index, retries - 1));
      AccountOf(args, v, Group(index, retries - 1));
    }
  }

  lemma {:induction false} AccountOf(args: Args, v: Vars, g: Group)
    requires v.BooksWith(args, multiset(v.pendings)) && ExhaustedAt(v, g)
    ensures v.flow.submitted[g] == v.flow.fetched[g] + ClonesOf(v.flow.onesided, g, args.maxRetries)
    ensures v.flow.submitted[g] == v.flow.onesided[g]
  {
  }

  lemma {:induction false} UpToExactly(bag: multiset<Group>, index: int, maxRetries: int, first: nat, upTo: nat)
    requires forall r: nat :: r <= upTo ==> bag[Group(index, r)] == May(maxRetries, first, r)
    ensures UpTo(bag, index, upTo) == Allowed(maxRetries, first, upTo)
    decreases upTo
  {
    AllowedStep(maxRetries, first, upTo);
    if upTo > 0 { UpToExactly(bag, index, maxRetries, first, upTo - 1); }
  }

  /**
    A prompt that is handed out once, and every time dropped because all or none of its samples were right, is submitted
    exactly once and as often again as there are retries left, whenever nothing of it is in flight or waiting.
   */
  lemma {:induction false} SampledAgainExactly(args: Args, schedule: Schedule, n: nat, index: int, first: nat,
                                               upTo: nat)
    requires args.Valid() && schedule.Valid(args) && Running(args, schedule, n) && upTo >= Max(first, args.maxRetries)
    requires Once(HandedOut(schedule.source, After(args, schedule, n).locals.fetches), index, first)
    requires Exhausted(After(args, schedule, n), index)
    ensures UpTo(After(args, schedule, n).flow.submitted, index, upTo) == 1 + Max(0, args.maxRetries - first)
  {
    AfterKeeps(args, schedule, n);
    var v := After(args, schedule, n);
    forall r: nat | r <= upTo ensures Again(v.flow.submitted, v.flow.fetched, args.maxRetries, index, r) {
      ChainOf(args, v, index, r);
    }
    forall r: nat | r <= upTo ensures v.flow.submitted[Group(index, r)] == May(args.maxRetries, first, r) {
      SubmittedAgain(v.flow.submitted, v.flow.fetched, args.maxRetries, index, first, r);
    }
    UpToExactly(v.flow.submitted, index, args.maxRetries, first, upTo);
  }
}
