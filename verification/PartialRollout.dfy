/**
  Partial rollout: the samples that a rollout of `miles/rollout/sglang_rollout.py` takes from the buffer, hands on for
  training and gives back (`generate_rollout`, `abort`, `generate_and_rm_group`).

  Every token of a response carries its birth: the rollout it was generated in and the weights of the engines then.
 */
module PartialRollout {
  import opened Arith
  import opened Options
  import opened SampleLifecycle
  import opened Sequences
  import Loop = RolloutLoop

  datatype Birth<W> = Birth(rollout: nat, weights: W)

  /** A sample with the births of its response tokens. */
  datatype Carrier<W> = Carrier(prompt: seq<int>, output: Output, status: Status, births: seq<Birth<W>>) {
    ghost predicate Valid(args: Args) {
      output.Shaped(args, prompt) && status != Failed && |births| == output.responseLength
    }

    /** Response token `t` takes part in training. */
    ghost predicate Trained(t: nat) {
      t < |births| && t < |output.EffectiveMask()| && output.EffectiveMask()[t] == 1
    }

    /** Every token that takes part in training was born like this. */
    ghost predicate Current(now: Birth<W>) {
      forall t: nat :: Trained(t) ==> births[t] == now
    }

    /** No token is older than this rollout; tokens are in the order of their births, so the first one decides. */
    predicate StartedIn(rollout: nat) {
      births == [] || births[0].rollout == rollout
    }

    /** Born in rollouts from `start` on, in order, each under the weights `gens` lists for its rollout. */
    ghost predicate Dated(start: nat, gens: seq<W>) {
      && (forall t :: 0 <= t < |births| ==> IsDated(births[t], start, gens))
      && (forall s, t :: 0 <= s < t < |births| ==> births[s].rollout <= births[t].rollout)
    }
  }

  ghost predicate IsDated<W>(b: Birth<W>, start: nat, gens: seq<W>) {
    start <= b.rollout < start + |gens| && b.weights == gens[b.rollout - start]
  }

  /** A prompt group with its samples. */
  datatype Group<W> = Group(id: Loop.Group, samples: seq<Carrier<W>>)

  /**
    The options of the samples and of the loop, `n_samples_per_prompt`, whether there is a filter that may drop groups
    (`dynamic_sampling_filter_path`), and whether the data source serves every fetch in full: the program's own does
    so if a fetch is no larger than the data set; otherwise a source may serve any number of groups from one on.
   */
  datatype Setup = Setup(sample: Args, loop: Loop.Args, size: nat, drops: bool, full: bool) {
    ghost predicate Valid() {
      loop.Valid() && loop.partial == sample.partial && size > 0
    }

    /** Whether a rollout can have groups in flight when its batch is full, and gives them back. */
    predicate GivesBack() {
      loop.partial && (loop.over > loop.target || (loop.over > 1 && (drops || !full)))
    }

    /** Whether tokens of an earlier rollout can be trained on. */
    predicate Mixes() {
      GivesBack() && !sample.maskOffPolicy && sample.cap > 0
    }
  }

  ghost predicate GroupOk<W>(setup: Setup, g: Group<W>, start: nat, gens: seq<W>) {
    |g.samples| == setup.size && forall c :: c in g.samples ==> c.Valid(setup.sample) && c.Dated(start, gens)
  }

  ghost predicate GroupsOk<W>(setup: Setup, groups: seq<Group<W>>, start: nat, gens: seq<W>) {
    forall j :: 0 <= j < |groups| ==> GroupOk(setup, groups[j], start, gens)
  }

  ghost predicate AllCapped<W>(args: Args, groups: seq<Group<W>>) {
    forall j :: 0 <= j < |groups| ==> Capped(args, groups[j])
  }

  lemma {:induction false} GroupsAreCapped<W>(setup: Setup, groups: seq<Group<W>>, start: nat, gens: seq<W>)
    requires GroupsOk(setup, groups, start, gens)
    ensures AllCapped(setup.sample, groups)
  {
    forall j, i | 0 <= j < |groups| && 0 <= i < |groups[j].samples|
      ensures groups[j].samples[i].output.responseLength <= setup.sample.cap
    {
      assert GroupOk(setup, groups[j], start, gens) && groups[j].samples[i] in groups[j].samples;
    }
  }

  // ---------------------------------------------------------------- one attempt

  /** `generate_and_rm` on a sample whose new tokens are born `now`. */
  function Attempt<W>(args: Args, engine: Engine, c: Carrier<W>, now: Birth<W>, halted: bool, call: nat): Carrier<W>
    requires c.output.responseLength <= args.cap
  {
    var (output, status) := AfterAttempt(args, c.prompt, c.output, c.status, halted, engine, call);
    Carrier(c.prompt, output, status, c.births + seq(output.responseLength - c.output.responseLength, _ => now))
  }

  /**
    An attempt keeps the tokens a sample carries with their births; under masking exactly the new ones are trained on.
   */
  lemma {:induction false} AttemptDates<W>(args: Args, engine: Engine, c: Carrier<W>, now: Birth<W>, halted: bool,
                                           call: nat)
    requires c.Valid(args) && KeepsItsSide(args, engine)
    ensures var a := Attempt(args, engine, c, now, halted, call);
      && a.Valid(args) && c.births <= a.births
      && (forall t :: |c.births| <= t < |a.births| ==> a.births[t] == now)
      && (forall t: nat :: t < |a.births| ==> (a.Trained(t) <==> !args.Masking() || t >= |c.births|))
  {
    AttemptKeepsShape(args, c.prompt, c.output, c.status, halted, engine, call);
  }

  lemma {:induction false} AttemptKeepsDates<W>(args: Args, engine: Engine, c: Carrier<W>, now: Birth<W>, halted: bool,
                                                call: nat, start: nat, gens: seq<W>)
    requires c.Valid(args) && KeepsItsSide(args, engine) && c.Dated(start, gens) && now.rollout == start + |gens|
    ensures Attempt(args, engine, c, now, halted, call).Dated(start, gens + [now.weights])
  {
    AttemptDates(args, engine, c, now, halted, call);
  }

  /**
    Exactly when a sample's trained tokens are all of this rollout: earlier ones are masked, or its first one is of
    this rollout.
   */
  lemma {:induction false} AttemptIsCurrent<W>(args: Args, engine: Engine, c: Carrier<W>, now: Birth<W>, halted: bool,
                                               call: nat, start: nat, gens: seq<W>)
    requires c.Valid(args) && KeepsItsSide(args, engine) && c.Dated(start, gens) && now.rollout == start + |gens|
    ensures Attempt(args, engine, c, now, halted, call).Current(now)
       <==> args.Masking() || Attempt(args, engine, c, now, halted, call).StartedIn(now.rollout)
    ensures c.births == [] ==> Attempt(args, engine, c, now, halted, call).StartedIn(now.rollout)
  {
    AttemptDates(args, engine, c, now, halted, call);
    var a := Attempt(args, engine, c, now, halted, call);
    if args.Masking() || c.births == [] {
      assert a.Current(now);
    } else {
      assert a.Trained(0) && a.births[0] == c.births[0];
      assert c.births[0].rollout < now.rollout;
      assert !a.Current(now) && !a.StartedIn(now.rollout);
    }
  }

  // ---------------------------------------------------------------- one rollout

  ghost predicate Attempted<W>(args: Args, engine: Engine, c: Carrier<W>, a: Carrier<W>, now: Birth<W>, halted: bool) {
    c.output.responseLength <= args.cap && exists call: nat :: a == Attempt(args, engine, c, now, halted, call)
  }

  /** A group that finished before the batch was full. */
  ghost predicate Finishes<W>(args: Args, engine: Engine, g: Group<W>, g': Group<W>, now: Birth<W>) {
    && g'.id == g.id && |g'.samples| == |g.samples|
    && forall i :: 0 <= i < |g.samples| ==> Attempted(args, engine, g.samples[i], g'.samples[i], now, false)
  }

  /** A group in flight when the batch was full: not started at all, or with samples generated, cut short or halted. */
  ghost predicate Stops<W>(args: Args, engine: Engine, g: Group<W>, g': Group<W>, now: Birth<W>) {
    || g' == g
    || (&& g'.id == g.id && |g'.samples| == |g.samples|
        && forall i :: 0 <= i < |g.samples| ==>
             || Attempted(args, engine, g.samples[i], g'.samples[i], now, false)
             || Attempted(args, engine, g.samples[i], g'.samples[i], now, true))
  }

  ghost predicate IsBlank<W>(g: Group<W>, size: nat) {
    |g.samples| == size && forall c :: c in g.samples ==> c.output == BLANK && c.status == Pending && c.births == []
  }

  /** What a submitted group was: one from the buffer, or a fresh or cloned one without output. */
  ghost predicate Origin<W>(g: Group<W>, popped: seq<Group<W>>, size: nat) {
    g in popped || IsBlank(g, size)
  }

  ghost predicate IsKept<W(!new)>(setup: Setup, engine: Engine, popped: seq<Group<W>>, g': Group<W>, now: Birth<W>) {
    exists g :: Origin(g, popped, setup.size) && Finishes(setup.sample, engine, g, g', now)
  }

  ghost predicate IsGivenBack<W(!new)>(setup: Setup, engine: Engine, popped: seq<Group<W>>, g': Group<W>,
                                       now: Birth<W>)
  {
    exists g :: Origin(g, popped, setup.size) && Stops(setup.sample, engine, g, g', now)
  }

  ghost predicate AllKept<W(!new)>(setup: Setup, engine: Engine, popped: seq<Group<W>>, data: seq<Group<W>>,
                                   now: Birth<W>)
  {
    forall j :: 0 <= j < |data| ==> IsKept(setup, engine, popped, data[j], now)
  }

  ghost predicate AllGivenBack<W(!new)>(setup: Setup, engine: Engine, popped: seq<Group<W>>, aborted: seq<Group<W>>,
                                        now: Birth<W>)
  {
    forall j :: 0 <= j < |aborted| ==> IsGivenBack(setup, engine, popped, aborted[j], now)
  }

  // ---------------------------------------------------------------- what is handed out

  /** The data source: the groups that wait in the buffer, and the number of the next group of the stream. */
  datatype Pool<W> = Pool(groups: seq<Group<W>>, next: nat) {
    /** What is left when so many groups were handed out: the buffer goes first. */
    function After(n: nat): Pool<W> {
      Pool(groups[Min(|groups|, n)..], next + Max(0, n - |groups|))
    }
  }

  /** The groups to train on, the groups to give back, and how many groups the source was asked for. */
  datatype Outcome<W> = Outcome(data: seq<Group<W>>, aborted: seq<Group<W>>, fetched: nat)

  function Popped<W>(pool: Pool<W>, o: Outcome<W>): seq<Group<W>> { pool.groups[..Min(|pool.groups|, o.fetched)] }

  /** `add_samples`: what was given back goes to the end of the buffer. */
  function Next<W>(pool: Pool<W>, o: Outcome<W>): Pool<W> {
    Pool(pool.After(o.fetched).groups + o.aborted, pool.After(o.fetched).next)
  }

  /**
    What every rollout is: the buffer went first, every kept group has finished, and only partial rollout gives groups
    back.
   */
  ghost predicate MadeFrom<W(!new)>(setup: Setup, engine: Engine, pool: Pool<W>, now: Birth<W>, o: Outcome<W>) {
    && Min(|pool.groups|, setup.loop.over) <= o.fetched
    && |o.data| == setup.loop.target && |o.aborted| < setup.loop.over && (!setup.sample.partial ==> o.aborted == [])
    && AllKept(setup, engine, Popped(pool, o), o.data, now)
    && AllGivenBack(setup, engine, Popped(pool, o), o.aborted, now)
  }

  lemma {:induction false} OriginOk<W>(setup: Setup, g: Group<W>, pool: Pool<W>, o: Outcome<W>, start: nat,
                                       gens: seq<W>)
    requires GroupsOk(setup, pool.groups, start, gens) && Origin(g, Popped(pool, o), setup.size)
    ensures GroupOk(setup, g, start, gens)
  {
    if g !in Popped(pool, o) {
      forall c | c in g.samples ensures c.Valid(setup.sample) && c.Dated(start, gens) {
        BlankIsValid(setup.sample, c, start, gens);
      }
    }
  }

  lemma {:induction false} BlankIsValid<W>(args: Args, c: Carrier<W>, start: nat, gens: seq<W>)
    requires c.output == BLANK && c.status == Pending && c.births == []
    ensures c.Valid(args) && c.Dated(start, gens)
  {
  }

  lemma {:induction false} StopsOk<W>(setup: Setup, engine: Engine, g: Group<W>, g': Group<W>, now: Birth<W>,
                                      start: nat, gens: seq<W>)
    requires KeepsItsSide(setup.sample, engine) && now.rollout == start + |gens|
    requires GroupOk(setup, g, start, gens) && Stops(setup.sample, engine, g, g', now)
    ensures GroupOk(setup, g', start, gens + [now.weights])
  {
    forall c | c in g'.samples ensures c.Valid(setup.sample) && c.Dated(start, gens + [now.weights]) {
      var i :| 0 <= i < |g'.samples| && g'.samples[i] == c;
      assert g.samples[i] in g.samples;
      if g' != g {
        var halted := !Attempted(setup.sample, engine, g.samples[i], c, now, false);
        var call: nat :| c == Attempt(setup.sample, engine, g.samples[i], now, halted, call);
        AttemptDates(setup.sample, engine, g.samples[i], now, halted, call);
        AttemptKeepsDates(setup.sample, engine, g.samples[i], now, halted, call, start, gens);
      }
    }
  }

  /** Whatever a rollout does, every token of what it trains on and of what waits in the buffer is dated. */
  lemma {:induction false} RolloutDates<W(!new)>(setup: Setup, engine: Engine, pool: Pool<W>, now: Birth<W>,
                                                 o: Outcome<W>, start: nat, gens: seq<W>)
    requires KeepsItsSide(setup.sample, engine) && now.rollout == start + |gens|
    requires GroupsOk(setup, pool.groups, start, gens) && MadeFrom(setup, engine, pool, now, o)
    ensures GroupsOk(setup, o.data, start, gens + [now.weights])
    ensures GroupsOk(setup, Next(pool, o).groups, start, gens + [now.weights])
  {
    var popped := Popped(pool, o);
    forall j | 0 <= j < |o.data| ensures GroupOk(setup, o.data[j], start, gens + [now.weights]) {
      assert IsKept(setup, engine, popped, o.data[j], now);
      var g :| Origin(g, popped, setup.size) && Finishes(setup.sample, engine, g, o.data[j], now);
      OriginOk(setup, g, pool, o, start, gens);
      StopsOk(setup, engine, g, o.data[j], now, start, gens);
    }
    forall j | 0 <= j < |o.aborted| ensures GroupOk(setup, o.aborted[j], start, gens + [now.weights]) {
      assert IsGivenBack(setup, engine, popped, o.aborted[j], now);
      var g :| Origin(g, popped, setup.size) && Stops(setup.sample, engine, g, o.aborted[j], now);
      OriginOk(setup, g, pool, o, start, gens);
      StopsOk(setup, engine, g, o.aborted[j], now, start, gens);
    }
    forall j | 0 <= j < |pool.groups| ensures GroupOk(setup, pool.groups[j], start, gens + [now.weights]) {
      StopsOk(setup, engine, pool.groups[j], pool.groups[j], now, start, gens);
    }
  }

  // ---------------------------------------------------------------- what a rollout trains on

  ghost predicate AllCurrent<W>(data: seq<Group<W>>, now: Birth<W>) {
    forall j, c :: 0 <= j < |data| && c in data[j].samples ==> c.Current(now)
  }

  ghost predicate AllStartedIn<W>(data: seq<Group<W>>, rollout: nat) {
    forall j, c :: 0 <= j < |data| && c in data[j].samples ==> c.StartedIn(rollout)
  }

  lemma {:induction false} KeptIsCurrent<W(!new)>(setup: Setup, engine: Engine, pool: Pool<W>, o: Outcome<W>,
                                                  g': Group<W>, now: Birth<W>, start: nat, gens: seq<W>, c: Carrier<W>)
    requires KeepsItsSide(setup.sample, engine) && now.rollout == start + |gens|
    requires GroupsOk(setup, pool.groups, start, gens)
    requires IsKept(setup, engine, Popped(pool, o), g', now) && c in g'.samples
    ensures c.Current(now) <==> setup.sample.Masking() || c.StartedIn(now.rollout)
    ensures pool.groups == [] || setup.sample.cap == 0 ==> c.StartedIn(now.rollout)
  {
    var g :| Origin(g, Popped(pool, o), setup.size) && Finishes(setup.sample, engine, g, g', now);
    OriginOk(setup, g, pool, o, start, gens);
    var i :| 0 <= i < |g'.samples| && g'.samples[i] == c;
    assert g.samples[i] in g.samples;
    var call: nat :| c == Attempt(setup.sample, engine, g.samples[i], now, false, call);
    AttemptIsCurrent(setup.sample, engine, g.samples[i], now, false, call, start, gens);
    AttemptDates(setup.sample, engine, g.samples[i], now, false, call);
  }

  /**
    What a rollout trains on is all of its own making exactly if earlier tokens are masked or every sample was started
    in this rollout; so it is when nothing waited in the buffer, or when no response may have a token.
   */
  lemma {:induction false} CurrentExactly<W(!new)>(setup: Setup, engine: Engine, pool: Pool<W>, now: Birth<W>,
                                                   o: Outcome<W>, start: nat, gens: seq<W>)
    requires KeepsItsSide(setup.sample, engine) && now.rollout == start + |gens|
    requires GroupsOk(setup, pool.groups, start, gens) && MadeFrom(setup, engine, pool, now, o)
    ensures AllCurrent(o.data, now) <==> setup.sample.Masking() || AllStartedIn(o.data, now.rollout)
    ensures pool.groups == [] || setup.sample.cap == 0 ==> AllStartedIn(o.data, now.rollout)
  {
    forall j, c | 0 <= j < |o.data| && c in o.data[j].samples
      ensures c.Current(now) <==> setup.sample.Masking() || c.StartedIn(now.rollout)
      ensures pool.groups == [] || setup.sample.cap == 0 ==> c.StartedIn(now.rollout)
    {
      KeptIsCurrent(setup, engine, pool, o, o.data[j], now, start, gens, c);
    }
  }

  // ---------------------------------------------------------------- the rollouts of the loop

  /** What the source hands out at a position: the buffer first, then fresh groups, numbered on. */
  function At<W>(pool: Pool<W>, p: nat): Loop.Group {
    if p < |pool.groups| then pool.groups[p].id else Loop.Group(pool.next + p - |pool.groups|, 0)
  }

  function Lineup<W>(pool: Pool<W>, from: nat, n: nat): (ids: seq<Loop.Group>)
    ensures |ids| == n
  {
    seq(n, j requires 0 <= j < n => At(pool, from + j))
  }

  /** How many groups the first fetches bring together. */
  function Served(sizes: nat -> nat, fetches: nat): nat {
    if fetches == 0 then 0 else Served(sizes, fetches - 1) + sizes(fetches - 1)
  }

  function Source<W>(pool: Pool<W>, sizes: nat -> nat): nat -> seq<Loop.Group> {
    (k: nat) => Lineup(pool, Served(sizes, k), sizes(k))
  }

  /** Fetches bring at most `over_sampling_batch_size` groups and at least one; fewer only if the buffer is used up. */
  ghost predicate Serves<W>(setup: Setup, pool: Pool<W>, sizes: nat -> nat) {
    forall k: nat :: 0 < sizes(k) <= setup.loop.over
      && (sizes(k) < setup.loop.over ==> !setup.full && Served(sizes, k + 1) >= |pool.groups|)
  }

  /**
    How the engine calls of a group went: whether it was started, and for every sample the call and whether it was
    halted.
   */
  datatype Fate = Fate(started: bool, call: nat -> nat, halted: nat -> bool)

  /**
    All that a rollout is not in control of: how many groups every fetch brings, what the waits report, what the filter
    says, the prompts, and how the engine calls go.
   */
  datatype Plan = Plan(sizes: nat -> nat, wait: Loop.Wait, verdict: (nat, nat) -> Loop.Verdict, abortWait: Loop.Wait,
                       prompt: Loop.Group -> seq<int>, fate: Loop.Group -> Fate) {
    ghost predicate Valid<W>(setup: Setup, pool: Pool<W>) {
      && Serves(setup, pool, sizes) && Loop.FirstCompleted(wait) && Loop.FirstCompleted(abortWait)
      && (!setup.drops ==> Loop.AlwaysKeeps(verdict))
    }

    function Schedule<W>(pool: Pool<W>): Loop.Schedule {
      Loop.Schedule(Source(pool, sizes), wait, verdict, abortWait)
    }
  }

  lemma {:induction false} PlanIsSchedule<W>(setup: Setup, pool: Pool<W>, plan: Plan)
    requires plan.Valid(setup, pool)
    ensures plan.Schedule(pool).Valid(setup.loop)
    ensures setup.full ==> Loop.DeliversFully(plan.Schedule(pool).source, setup.loop.over)
  {
  }

  predicate Capped<W>(args: Args, g: Group<W>) {
    forall i :: 0 <= i < |g.samples| ==> g.samples[i].output.responseLength <= args.cap
  }

  /** A group without output. */
  function Blank<W>(id: Loop.Group, prompt: seq<int>, size: nat): (g: Group<W>)
    ensures IsBlank(g, size) && forall i :: 0 <= i < size ==> g.samples[i] == Carrier(prompt, BLANK, Pending, [])
  {
    Group(id, seq(size, _ => Carrier(prompt, BLANK, Pending, [])))
  }

  /** The group an identity stands for: the one from the buffer that has it, or else one without output. */
  function Lookup<W>(popped: seq<Group<W>>, id: Loop.Group, prompt: seq<int>, size: nat): (g: Group<W>)
    ensures g.id == id && Origin(g, popped, size)
  {
    if popped == [] then Blank(id, prompt, size)
    else if popped[0].id == id then popped[0]
    else Lookup(popped[1..], id, prompt, size)
  }

  lemma {:induction false} LookupCapped<W>(args: Args, popped: seq<Group<W>>, id: Loop.Group, prompt: seq<int>,
                                           size: nat)
    requires AllCapped(args, popped)
    ensures Capped(args, Lookup(popped, id, prompt, size))
  {
    var g := Lookup(popped, id, prompt, size);
    if g in popped {
      var j :| 0 <= j < |popped| && popped[j] == g;
    } else {
      assert IsBlank(g, size);
      forall i | 0 <= i < |g.samples| ensures g.samples[i].output.responseLength <= args.cap {
        assert g.samples[i] in g.samples;
      }
    }
  }

  function FinishGroup<W>(args: Args, engine: Engine, g: Group<W>, now: Birth<W>, fate: Fate): (g': Group<W>)
    requires Capped(args, g)
    ensures Finishes(args, engine, g, g', now)
  {
    var g' := Group(g.id, seq(|g.samples|, i requires 0 <= i < |g.samples| =>
                                             Attempt(args, engine, g.samples[i], now, false, fate.call(i))));
    assert forall i :: 0 <= i < |g.samples| ==>
        g'.samples[i] == Attempt(args, engine, g.samples[i], now, false, fate.call(i));
    g'
  }

  function StopGroup<W>(args: Args, engine: Engine, g: Group<W>, now: Birth<W>, fate: Fate): (g': Group<W>)
    requires Capped(args, g)
    ensures Stops(args, engine, g, g', now)
  {
    if !fate.started then g else
      Group(g.id, seq(|g.samples|, i requires 0 <= i < |g.samples| =>
                                     Attempt(args, engine, g.samples[i], now, fate.halted(i), fate.call(i))))
  }

  function Ids<W>(groups: seq<Group<W>>): (ids: seq<Loop.Group>)
    ensures |ids| == |groups| && forall j :: 0 <= j < |ids| ==> ids[j] == groups[j].id
  {
    seq(|groups|, j requires 0 <= j < |groups| => groups[j].id)
  }

  /** A group that finished, and one that was in flight at the end. */
  function Finished<W(!new)>(setup: Setup, engine: Engine, popped: seq<Group<W>>, now: Birth<W>, plan: Plan,
                             id: Loop.Group)
    : (g': Group<W>)
    requires AllCapped(setup.sample, popped)
    ensures g'.id == id && IsKept(setup, engine, popped, g', now)
  {
    LookupCapped(setup.sample, popped, id, plan.prompt(id), setup.size);
    FinishGroup(setup.sample, engine, Lookup(popped, id, plan.prompt(id), setup.size), now, plan.fate(id))
  }

  function Stopped<W(!new)>(setup: Setup, engine: Engine, popped: seq<Group<W>>, now: Birth<W>, plan: Plan,
                            id: Loop.Group)
    : (g': Group<W>)
    requires AllCapped(setup.sample, popped)
    ensures g'.id == id && IsGivenBack(setup, engine, popped, g', now)
  {
    LookupCapped(setup.sample, popped, id, plan.prompt(id), setup.size);
    StopGroup(setup.sample, engine, Lookup(popped, id, plan.prompt(id), setup.size), now, plan.fate(id))
  }

  /** What becomes of the groups the loop keeps and hands back. */
  function Made<W(!new)>(setup: Setup, engine: Engine, pool: Pool<W>, now: Birth<W>, plan: Plan, kept: seq<Loop.Group>,
                   stopped: seq<Loop.Group>, fetches: nat): (o: Outcome<W>)
    requires AllCapped(setup.sample, pool.groups)
    ensures Ids(o.data) == kept && Ids(o.aborted) == stopped && o.fetched == Served(plan.sizes, fetches)
  {
    var fetched := Served(plan.sizes, fetches);
    var popped := pool.groups[..Min(|pool.groups|, fetched)];
    Outcome(seq(|kept|, j requires 0 <= j < |kept| => Finished(setup, engine, popped, now, plan, kept[j])),
            seq(|stopped|, j requires 0 <= j < |stopped| => Stopped(setup, engine, popped, now, plan, stopped[j])),
            fetched)
  }

  /** The outcome when the loop is left after `n` passes. */
  ghost function OutcomeOf<W(!new)>(setup: Setup, engine: Engine, pool: Pool<W>, now: Birth<W>, plan: Plan, n: nat)
    : Outcome<W>
    requires plan.Valid(setup, pool) && AllCapped(setup.sample, pool.groups)
  {
    PlanIsSchedule(setup, pool, plan);
    var v := Loop.After(setup.loop, plan.Schedule(pool), n);
    Made(setup, engine, pool, now, plan, Loop.Sorted(v.locals.data),
         Loop.HandedBack(setup.loop, plan.abortWait, v.pendings), v.locals.fetches)
  }

  ghost predicate FinishesAt<W>(setup: Setup, pool: Pool<W>, plan: Plan, n: nat)
    requires plan.Valid(setup, pool)
  {
    PlanIsSchedule(setup, pool, plan);
    Loop.FinishesAt(setup.loop, plan.Schedule(pool), n)
  }

  ghost predicate IsOutcome<W(!new)>(setup: Setup, engine: Engine, pool: Pool<W>, now: Birth<W>, o: Outcome<W>,
                                     plan: Plan, n: nat)
  {
    && setup.Valid() && plan.Valid(setup, pool) && AllCapped(setup.sample, pool.groups)
    && FinishesAt(setup, pool, plan, n) && o == OutcomeOf(setup, engine, pool, now, plan, n)
  }

  /** The outcomes a rollout can have: those of the loop, for some plan. */
  ghost predicate IsRollout<W(!new)>(setup: Setup, engine: Engine, pool: Pool<W>, now: Birth<W>, o: Outcome<W>) {
    exists plan: Plan, n: nat :: IsOutcome(setup, engine, pool, now, o, plan, n)
  }

  lemma {:induction false} ServedFirst<W>(setup: Setup, pool: Pool<W>, sizes: nat -> nat, fetches: nat)
    requires Serves(setup, pool, sizes) && fetches > 0
    ensures Served(sizes, fetches) >= Min(|pool.groups|, setup.loop.over)
    decreases fetches
  {
    if fetches > 1 { ServedFirst(setup, pool, sizes, fetches - 1); } else { assert Served(sizes, 1) == sizes(0); }
  }

  lemma {:induction false} RolloutIsMade<W(!new)>(setup: Setup, engine: Engine, pool: Pool<W>, now: Birth<W>,
                                                  o: Outcome<W>, plan: Plan, n: nat)
    requires IsOutcome(setup, engine, pool, now, o, plan, n)
    ensures IsRollout(setup, engine, pool, now, o) && MadeFrom(setup, engine, pool, now, o)
  {
    var v := Loop.After(setup.loop, plan.Schedule(pool), n);
    SizesOk(setup, pool, plan, n);
    MadeIsKept(setup, engine, pool, now, plan, Loop.Sorted(v.locals.data),
               Loop.HandedBack(setup.loop, plan.abortWait, v.pendings), v.locals.fetches);
  }

  lemma {:induction false} MadeIsKept<W(!new)>(setup: Setup, engine: Engine, pool: Pool<W>, now: Birth<W>, plan: Plan,
                                               kept: seq<Loop.Group>, stopped: seq<Loop.Group>, fetches: nat)
    requires AllCapped(setup.sample, pool.groups)
    ensures var o := Made(setup, engine, pool, now, plan, kept, stopped, fetches);
      && |o.data| == |kept| && |o.aborted| == |stopped|
      && AllKept(setup, engine, Popped(pool, o), o.data, now)
      && AllGivenBack(setup, engine, Popped(pool, o), o.aborted, now)
  {
    var o := Made(setup, engine, pool, now, plan, kept, stopped, fetches);
    forall j | 0 <= j < |o.data| ensures IsKept(setup, engine, Popped(pool, o), o.data[j], now) {
      assert o.data[j] == Finished(setup, engine, Popped(pool, o), now, plan, kept[j]);
    }
    forall j | 0 <= j < |o.aborted| ensures IsGivenBack(setup, engine, Popped(pool, o), o.aborted[j], now) {
      assert o.aborted[j] == Stopped(setup, engine, Popped(pool, o), now, plan, stopped[j]);
    }
  }

  lemma {:induction false} SizesOk<W>(setup: Setup, pool: Pool<W>, plan: Plan, n: nat)
    requires setup.Valid() && plan.Valid(setup, pool) && FinishesAt(setup, pool, plan, n)
    ensures plan.Schedule(pool).Valid(setup.loop)
    ensures var v := Loop.After(setup.loop, plan.Schedule(pool), n);
      var aborted := Loop.HandedBack(setup.loop, plan.abortWait, v.pendings);
      && |Loop.Sorted(v.locals.data)| == setup.loop.target && |aborted| < setup.loop.over
      && (!setup.loop.partial ==> aborted == [])
      && Served(plan.sizes, v.locals.fetches) >= Min(|pool.groups|, setup.loop.over)
  {
    var schedule := plan.Schedule(pool);
    PlanIsSchedule(setup, pool, plan);
    Loop.AfterKeeps(setup.loop, schedule, n);
    var v := Loop.After(setup.loop, schedule, n);
    Loop.FinishedReturns(setup.loop, schedule, v);
    Loop.SortedIsSorted(v.locals.data);
    ServedFirst(setup, pool, plan.sizes, v.locals.fetches);
  }

  /** What a rollout gives back if nothing can be left in flight, or if it is not to be given back. */
  lemma {:induction false} NothingGivenBack<W(!new)>(setup: Setup, engine: Engine, pool: Pool<W>, now: Birth<W>,
                                               o: Outcome<W>, plan: Plan, n: nat)
    requires IsOutcome(setup, engine, pool, now, o, plan, n) && !setup.GivesBack()
    ensures o.aborted == []
  {
    PlanIsSchedule(setup, pool, plan);
    if setup.loop.partial { Loop.NothingLeft(setup.loop, plan.Schedule(pool), n); }
  }

  // ---------------------------------------------------------------- no group twice

  /** How often a group with this index can still be handed out. */
  ghost function Stock<W>(pool: Pool<W>, x: int): nat {
    Loop.IndexCount(Ids(pool.groups), x) + if x >= pool.next then 1 else 0
  }

  /** No two groups that can be handed out have the same index. */
  ghost predicate PoolOk<W>(pool: Pool<W>) {
    forall x :: Stock(pool, x) <= 1
  }

  ghost predicate NoneTwice(bag: multiset<Loop.Group>) {
    forall g :: bag[g] <= 1
  }

  lemma {:induction false} LineupIsFetched<W>(pool: Pool<W>, sizes: nat -> nat, fetches: nat)
    ensures Loop.Fetched(Source(pool, sizes), 0, fetches) == Lineup(pool, 0, Served(sizes, fetches))
    decreases fetches
  {
    if fetches > 0 {
      LineupIsFetched(pool, sizes, fetches - 1);
      var m, n := Served(sizes, fetches - 1), sizes(fetches - 1);
      assert Source(pool, sizes)(fetches - 1) == Lineup(pool, m, n);
      LineupOn(pool, m, n);
      assert Served(sizes, fetches) == m + n;
    }
  }

  lemma {:induction false} LineupOn<W>(pool: Pool<W>, m: nat, n: nat)
    ensures Lineup(pool, 0, m + n) == Lineup(pool, 0, m) + Lineup(pool, m, n)
  {
  }

  /** What was handed out is no longer in stock. */
  lemma {:induction false} LineupCount<W>(pool: Pool<W>, m: nat, x: int)
    ensures Loop.IndexCount(Lineup(pool, 0, m), x) + Stock(pool.After(m), x) == Stock(pool, x)
    decreases m
  {
    if m == 0 {
      assert pool.After(0) == pool && Lineup(pool, 0, 0) == [];
    } else {
      LineupCount(pool, m - 1, x);
      LineupOn(pool, m - 1, 1);
      assert Lineup(pool, m - 1, 1) == [At(pool, m - 1)];
      Loop.CountSnoc(Lineup(pool, 0, m - 1), At(pool, m - 1), x);
      StockLess(pool, m - 1, x);
    }
  }

  lemma {:induction false} StockLess<W>(pool: Pool<W>, m: nat, x: int)
    ensures Stock(pool.After(m + 1), x) + (if At(pool, m).index == x then 1 else 0) == Stock(pool.After(m), x)
  {
    if m < |pool.groups| {
      var ids, less := Ids(pool.After(m).groups), Ids(pool.After(m + 1).groups);
      assert ids == [pool.groups[m].id] + less;
      CountConcat([pool.groups[m].id], less, Loop.HasIndex(x));
      Loop.CountSnoc([], pool.groups[m].id, x);
      assert [] + [pool.groups[m].id] == [pool.groups[m].id];
    } else {
      assert pool.After(m).groups == [] && pool.After(m + 1).groups == [];
    }
  }

  /** What a rollout keeps and gives back was in the line-up. */
  lemma {:induction false} HandedOnCount<W(!new)>(setup: Setup, engine: Engine, pool: Pool<W>, now: Birth<W>,
                                                  o: Outcome<W>, plan: Plan, n: nat, x: int)
    requires IsOutcome(setup, engine, pool, now, o, plan, n)
    ensures Loop.IndexCount(Ids(o.data), x) + Loop.IndexCount(Ids(o.aborted), x)
         <= Loop.IndexCount(Lineup(pool, 0, o.fetched), x)
  {
    var schedule := plan.Schedule(pool);
    PlanIsSchedule(setup, pool, plan);
    var v := Loop.After(setup.loop, schedule, n);
    Loop.AfterAccounts(setup.loop, schedule, n, x);
    LineupIsFetched(pool, plan.sizes, v.locals.fetches);
    Loop.SortedIsSorted(v.locals.data);
    CountPermutation(Loop.Sorted(v.locals.data), v.locals.data, Loop.HasIndex(x));
    HandedBackCount(setup, plan, v.pendings, x);
  }

  /** What a rollout keeps and leaves in the buffer and the stream is together no more than what there was. */
  lemma {:induction false} StockGoesDown<W(!new)>(setup: Setup, engine: Engine, pool: Pool<W>, now: Birth<W>,
                                                  o: Outcome<W>, plan: Plan, n: nat, x: int)
    requires IsOutcome(setup, engine, pool, now, o, plan, n)
    ensures Loop.IndexCount(Ids(o.data), x) + Stock(Next(pool, o), x) <= Stock(pool, x)
    ensures Loop.IndexCount(Ids(o.data), x) + Loop.IndexCount(Ids(o.aborted), x) <= Stock(pool, x)
  {
    HandedOnCount(setup, engine, pool, now, o, plan, n, x);
    LineupCount(pool, o.fetched, x);
    NextStock(pool, o, x);
  }

  lemma {:induction false} NextStock<W>(pool: Pool<W>, o: Outcome<W>, x: int)
    ensures Stock(Next(pool, o), x) == Stock(pool.After(o.fetched), x) + Loop.IndexCount(Ids(o.aborted), x)
  {
    var left := pool.After(o.fetched).groups;
    assert Ids(left + o.aborted) == Ids(left) + Ids(o.aborted);
    CountConcat(Ids(left), Ids(o.aborted), Loop.HasIndex(x));
  }

  lemma {:induction false} HandedBackCount(setup: Setup, plan: Plan, pendings: seq<Loop.Group>, x: int)
    requires Loop.FirstCompleted(plan.abortWait)
    ensures Loop.IndexCount(Loop.HandedBack(setup.loop, plan.abortWait, pendings), x) <= Loop.IndexCount(pendings, x)
  {
    if setup.loop.partial {
      Loop.DrainedAll(plan.abortWait, 0, pendings);
      CountPermutation(Loop.Drained(plan.abortWait, 0, pendings), pendings, Loop.HasIndex(x));
    }
  }

  /** So a rollout hands on no prompt twice, and leaves a buffer and a stream without repetitions. */
  lemma {:induction false} NothingTwice<W(!new)>(setup: Setup, engine: Engine, pool: Pool<W>, now: Birth<W>,
                                           o: Outcome<W>, plan: Plan, n: nat)
    requires IsOutcome(setup, engine, pool, now, o, plan, n) && PoolOk(pool)
    ensures NoneTwice(multiset(Ids(o.data)) + multiset(Ids(o.aborted))) && PoolOk(Next(pool, o))
  {
    forall x ensures Stock(Next(pool, o), x) <= 1 {
      StockGoesDown(setup, engine, pool, now, o, plan, n, x);
    }
    forall g: Loop.Group ensures (multiset(Ids(o.data)) + multiset(Ids(o.aborted)))[g] <= 1 {
      StockGoesDown(setup, engine, pool, now, o, plan, n, g.index);
      OccursAtMost(Ids(o.data), g);
      OccursAtMost(Ids(o.aborted), g);
    }
  }

  lemma {:induction false} OccursAtMost(groups: seq<Loop.Group>, g: Loop.Group)
    ensures multiset(groups)[g] <= Loop.IndexCount(groups, g.index)
  {
    if groups != [] {
      OccursAtMost(groups[1..], g);
      assert groups == [groups[0]] + groups[1..];
    }
  }

  /** However often groups were sampled again, a prompt is submitted at most as often as it is in the line-up. */
  lemma {:induction false} UpToAtMost(groups: seq<Loop.Group>, x: int, retries: nat)
    ensures Loop.UpTo(multiset(groups), x, retries) <= Loop.IndexCount(groups, x)
  {
    if groups == [] {
      assert multiset(groups) == multiset{};
      UpToMore(multiset{}, Loop.Group(x, 0), x, retries);
    } else {
      var g, rest := groups[0], groups[1..];
      assert groups == [g] + rest;
      assert multiset(groups) == multiset(rest) + multiset{g};
      UpToAtMost(rest, x, retries);
      UpToMore(multiset(rest), g, x, retries);
    }
  }

  lemma {:induction false} UpToMore(bag: multiset<Loop.Group>, g: Loop.Group, index: int, retries: nat)
    ensures Loop.UpTo(bag + multiset{g}, index, retries)
         == Loop.UpTo(bag, index, retries) + if g.index == index && g.retries <= retries then 1 else 0
    ensures bag == multiset{} ==> Loop.UpTo(bag, index, retries) == 0
    decreases retries
  {
    if retries > 0 { UpToMore(bag, g, index, retries - 1); }
  }

  /** Nor does the loop submit any group twice, with the same number of retries. */
  lemma {:induction false} SubmittedNotTwice<W>(submitted: multiset<Loop.Group>, fetched: multiset<Loop.Group>,
                                                maxRetries: int, pool: Pool<W>, m: nat)
    requires PoolOk(pool) && fetched == multiset(Lineup(pool, 0, m))
    requires Loop.FewClones(submitted, fetched, maxRetries)
    ensures NoneTwice(submitted)
  {
    forall g: Loop.Group ensures submitted[g] <= 1 {
      Loop.SubmittedAtMost(submitted, fetched, maxRetries, g.index, g.retries);
      UpToAtMost(Lineup(pool, 0, m), g.index, g.retries);
      LineupCount(pool, m, g.index);
    }
  }

  /**
    `generate_rollout`: the loop, and what it makes of the groups themselves.  It finishes exactly if the loop is left
    within so many waits, and its outcomes are exactly those above, one for every plan.
   */
  method RunRollout<W(!new)>(setup: Setup, engine: Engine, pool: Pool<W>, now: Birth<W>, plan: Plan,
                             state: Loop.GenerateState, rounds: nat)
    returns (finished: bool, o: Outcome<W>, ghost passes: nat, ghost submitted: multiset<Loop.Group>)
    requires setup.Valid() && plan.Valid(setup, pool) && AllCapped(setup.sample, pool.groups) && state.IsReset()
    modifies state
    ensures finished ==> passes <= rounds && IsOutcome(setup, engine, pool, now, o, plan, passes)
    ensures !finished ==> forall n: nat :: n <= rounds ==> !FinishesAt(setup, pool, plan, n)
    ensures finished ==> IsRollout(setup, engine, pool, now, o) && MadeFrom(setup, engine, pool, now, o)
    ensures finished && PoolOk(pool) ==>
      NoneTwice(multiset(Ids(o.data)) + multiset(Ids(o.aborted))) && PoolOk(Next(pool, o))
    ensures PoolOk(pool) ==> NoneTwice(submitted)
    ensures finished ==> multiset(Ids(o.data)) + multiset(Ids(o.aborted)) <= submitted
  {
    var schedule := plan.Schedule(pool);
    PlanIsSchedule(setup, pool, plan);
    var kept, all, stopped, fetches;
    ghost var v;
    finished, kept, all, stopped, fetches, passes, v := Loop.GenerateRollout(state, setup.loop, schedule, rounds);
    o := Outcome([], [], 0);
    submitted := v.flow.submitted;
    if PoolOk(pool) {
      Loop.HandedOutIsFetched(schedule.source, fetches);
      LineupIsFetched(pool, plan.sizes, fetches);
      SubmittedNotTwice(submitted, v.flow.fetched, setup.loop.maxRetries, pool, Served(plan.sizes, fetches));
    }
    if finished {
      o := Made(setup, engine, pool, now, plan, kept, stopped, fetches);
      RolloutIsMade(setup, engine, pool, now, o, plan, passes);
      if PoolOk(pool) { NothingTwice(setup, engine, pool, now, o, plan, passes); }
    }
  }

  // ---------------------------------------------------------------- rollouts that carry tokens over

  /** An engine that answers one token if it may, and stops, or is aborted at call 0. */
  function OneToken(args: Args): Engine {
    (call: nat, input: seq<int>, budget: nat) =>
      var n := Min(1, budget);
      Reply(Some(seq(n, _ => (0.0, 0))), if n == 0 then "" else "a", if call == 0 then Abort else Stop,
            if args.replay && |input| + n > 0 then Some(Repeat(0, |input| + n - 1)) else None)
  }

  lemma OneTokenKeepsItsSide(args: Args)
    ensures KeepsItsSide(args, OneToken(args))
  {
    forall call: nat, input: seq<int>, budget: nat
      ensures Respects(args, OneToken(args)(call, input, budget), input, budget)
    {
      assert |NewTokens(OneToken(args)(call, input, budget))| == Min(1, budget);
    }
  }

  /** The held group gets as far as call 0 if it is started; all others come to their end. */
  function HeldFate(started: bool): Fate { Fate(started, (i: nat) => 0, (i: nat) => false) }

  function OtherFate(): Fate { Fate(true, (i: nat) => 1, (i: nat) => false) }

  /** With a filter and just a batch per fetch, one group has to be dropped first. */
  predicate DropsFirst(setup: Setup) { setup.loop.over == setup.loop.target && setup.drops }

  /** Without a filter, and just a batch per fetch, the first fetch has to be served short. */
  function HoldSize(setup: Setup, k: nat): nat {
    if setup.loop.over == setup.loop.target && !setup.drops && k == 0 then 1 else setup.loop.over
  }

  function HoldSizes(setup: Setup): nat -> nat { (k: nat) => HoldSize(setup, k) }

  /** Reports of all groups but the first, of the second alone, and of all at once. */
  function AllButFirst(pendings: seq<Loop.Group>): (seq<Loop.Group>, seq<Loop.Group>) {
    if |pendings| <= 1 then (pendings, []) else (pendings[1..], pendings[..1])
  }

  function OnlySecond(pendings: seq<Loop.Group>): (seq<Loop.Group>, seq<Loop.Group>) {
    if |pendings| <= 1 then (pendings, []) else ([pendings[1]], pendings[..1] + pendings[2..])
  }

  function AtOnce(): Loop.Wait { (round: nat, pendings: seq<Loop.Group>) => (pendings, []) }

  function HoldWait(setup: Setup): Loop.Wait {
    (round: nat, pendings: seq<Loop.Group>) =>
      if DropsFirst(setup) && round == 0 then OnlySecond(pendings) else AllButFirst(pendings)
  }

  function HoldVerdict(setup: Setup): (nat, nat) -> Loop.Verdict {
    (round: nat, i: nat) => if DropsFirst(setup) && round == 0 then Loop.Drop("") else Loop.Keep
  }

  /** The first group of the line-up is held: it stays in flight while the batch fills with others. */
  function HoldPlan<W>(setup: Setup, pool: Pool<W>, first: bool): Plan {
    Plan(HoldSizes(setup), HoldWait(setup), HoldVerdict(setup), AtOnce(), (id: Loop.Group) => [0],
         (id: Loop.Group) => if id == At(pool, 0) then HeldFate(first) else OtherFate())
  }

  function HoldPasses(setup: Setup): nat { if DropsFirst(setup) then 2 else 1 }

  /** All groups of the first fetch finish at once, and fill the batch. */
  function ReleasePlan(setup: Setup): Plan {
    Plan((k: nat) => setup.loop.over, AtOnce(), (round: nat, i: nat) => Loop.Keep, AtOnce(), (id: Loop.Group) => [0],
         (id: Loop.Group) => OtherFate())
  }

  lemma {:induction false} AllButFirstSplits(pendings: seq<Loop.Group>)
    requires pendings != []
    ensures Loop.Splits(AllButFirst(pendings), pendings)
  {
    if |pendings| > 1 { assert pendings == pendings[..1] + pendings[1..]; }
  }

  lemma {:induction false} OnlySecondSplits(pendings: seq<Loop.Group>)
    requires pendings != []
    ensures Loop.Splits(OnlySecond(pendings), pendings)
  {
    if |pendings| > 1 {
      assert pendings == pendings[..1] + [pendings[1]] + pendings[2..];
      assert multiset(pendings) == multiset(pendings[..1]) + multiset([pendings[1]]) + multiset(pendings[2..]);
    }
  }

  lemma {:induction false} WaitsAreFair(setup: Setup)
    ensures Loop.FirstCompleted(HoldWait(setup)) && Loop.FirstCompleted(AtOnce())
  {
    forall round: nat, pendings: seq<Loop.Group> | pendings != []
      ensures Loop.Splits(HoldWait(setup)(round, pendings), pendings)
      ensures Loop.Splits(AtOnce()(round, pendings), pendings)
    {
      AllButFirstSplits(pendings);
      OnlySecondSplits(pendings);
    }
  }

  lemma {:induction false} ReleasePlanIsValid<W>(setup: Setup, pool: Pool<W>)
    requires setup.Valid()
    ensures ReleasePlan(setup).Valid(setup, pool)
  {
    WaitsAreFair(setup);
  }

  lemma {:induction false} HoldPlanIsValid<W>(setup: Setup, pool: Pool<W>, first: bool)
    requires setup.Valid() && setup.GivesBack() && |pool.groups| <= 1
    ensures HoldPlan(setup, pool, first).Valid(setup, pool)
  {
    WaitsAreFair(setup);
    var sizes := HoldSizes(setup);
    forall k: nat ensures 0 < sizes(k) <= setup.loop.over
      && (sizes(k) < setup.loop.over ==> !setup.full && Served(sizes, k + 1) >= |pool.groups|)
    {
      if k == 0 { assert Served(sizes, 1) == sizes(0); }
    }
  }

  /** The loop with these plans: the batch fills at once, or after one drop, and the first group is left in flight. */
  lemma {:induction false} HoldFinishes<W>(setup: Setup, pool: Pool<W>, first: bool)
    requires setup.Valid() && setup.GivesBack() && |pool.groups| <= 1
    ensures var plan := HoldPlan(setup, pool, first);
      && plan.Valid(setup, pool) && plan.Schedule(pool).Valid(setup.loop)
      && FinishesAt(setup, pool, plan, HoldPasses(setup))
      && var v := Loop.After(setup.loop, plan.Schedule(pool), HoldPasses(setup));
         v.pendings == [At(pool, 0)] && v.locals.fetches > 0
  {
    var plan := HoldPlan(setup, pool, first);
    HoldPlanIsValid(setup, pool, first);
    PlanIsSchedule(setup, pool, plan);
    if DropsFirst(setup) {
      HoldAfterDrop(setup, pool, plan.Schedule(pool));
    } else {
      HoldAtOnce(setup, pool, plan.Schedule(pool));
    }
  }

  lemma {:induction false} HoldReports(setup: Setup, round: nat, pendings: seq<Loop.Group>)
    requires |pendings| > 1
    ensures DropsFirst(setup) && round == 0 ==>
      HoldWait(setup)(round, pendings) == ([pendings[1]], pendings[..1] + pendings[2..])
    ensures !DropsFirst(setup) || round > 0 ==> HoldWait(setup)(round, pendings) == (pendings[1..], pendings[..1])
    ensures DropsFirst(setup) && round == 0 ==> HoldVerdict(setup)(round, 0) == Loop.Drop("")
    ensures !DropsFirst(setup) || round > 0 ==> forall i: nat :: HoldVerdict(setup)(round, i) == Loop.Keep
  {
    var parts := HoldWait(setup)(round, pendings);
    if DropsFirst(setup) && round == 0 {
      assert parts == OnlySecond(pendings);
    } else {
      assert parts == AllButFirst(pendings);
    }
  }

  lemma {:induction false} SourceAt<W>(pool: Pool<W>, sizes: nat -> nat, k: nat)
    ensures Source(pool, sizes)(k) == Lineup(pool, Served(sizes, k), sizes(k))
  {
  }

  lemma {:induction false} HoldAtOnce<W>(setup: Setup, pool: Pool<W>, schedule: Loop.Schedule)
    requires setup.Valid() && setup.GivesBack() && !DropsFirst(setup) && schedule.Valid(setup.loop)
    requires schedule.source == Source(pool, HoldSizes(setup))
    requires schedule.wait == HoldWait(setup) && schedule.verdict == HoldVerdict(setup)
    ensures Loop.FinishesAt(setup.loop, schedule, 1)
    ensures var v := Loop.After(setup.loop, schedule, 1); v.pendings == [At(pool, 0)] && v.locals.fetches > 0
  {
    HoldLine(setup, pool, schedule.source);
    var u := Loop.ToppedUp(setup.loop, schedule.source, Loop.START);
    HoldReports(setup, 0, u.pendings);
    Loop.FillingPass(setup.loop, schedule, 0, Loop.START, u.pendings[1..], u.pendings[..1]);
    FirstPass(setup.loop, schedule);
  }

  lemma {:induction false} FirstPass(args: Loop.Args, schedule: Loop.Schedule)
    requires args.Valid() && schedule.Valid(args)
    ensures Loop.After(args, schedule, 1) == Loop.AfterRound(args, schedule, 0, Loop.START)
    ensures Loop.Running(args, schedule, 1)
  {
    assert Loop.After(args, schedule, 0) == Loop.START;
  }

  lemma {:induction false} HoldLine<W>(setup: Setup, pool: Pool<W>, source: nat -> seq<Loop.Group>)
    requires setup.Valid() && setup.GivesBack() && !DropsFirst(setup) && Loop.Delivers(source, setup.loop.over)
    requires source == Source(pool, HoldSizes(setup))
    ensures var u := Loop.ToppedUp(setup.loop, source, Loop.START);
      |u.pendings| > setup.loop.target && u.pendings[..1] == [At(pool, 0)] && u.locals.fetches > 0
  {
    Loop.FirstTopUp(setup.loop, source);
    var u := Loop.ToppedUp(setup.loop, source, Loop.START);
    LineupIsFetched(pool, HoldSizes(setup), u.locals.fetches);
    HoldServes(setup, u.locals.fetches);
    assert u.pendings[0] == At(pool, 0);
  }

  lemma {:induction false} HoldServes(setup: Setup, fetches: nat)
    requires setup.Valid() && setup.GivesBack() && !DropsFirst(setup)
    requires Served(HoldSizes(setup), fetches) >= setup.loop.target
    ensures Served(HoldSizes(setup), fetches) > setup.loop.target
    decreases fetches
  {
    var sizes := HoldSizes(setup);
    if fetches > 2 { if Served(sizes, fetches - 1) >= setup.loop.target { HoldServes(setup, fetches - 1); } }
    else if fetches == 2 { assert Served(sizes, 1) == sizes(0) && Served(sizes, 2) == sizes(0) + sizes(1); }
    else if fetches == 1 { assert Served(sizes, 1) == sizes(0); }
  }

  lemma {:induction false} HoldAfterDrop<W>(setup: Setup, pool: Pool<W>, schedule: Loop.Schedule)
    requires setup.Valid() && setup.GivesBack() && DropsFirst(setup) && schedule.Valid(setup.loop)
    requires schedule.source == Source(pool, HoldSizes(setup))
    requires schedule.wait == HoldWait(setup) && schedule.verdict == HoldVerdict(setup)
    ensures Loop.FinishesAt(setup.loop, schedule, 2)
    ensures var v := Loop.After(setup.loop, schedule, 2); v.pendings == [At(pool, 0)] && v.locals.fetches > 0
  {
    var line, more := schedule.source(0), schedule.source(1);
    SourceAt(pool, HoldSizes(setup), 0);
    SourceAt(pool, HoldSizes(setup), 1);
    HoldReports(setup, 0, line);
    Loop.DroppingPass(setup.loop, schedule, line[1], line[..1] + line[2..]);
    var w := Loop.After(setup.loop, schedule, 1);
    Loop.OneFetchTopUp(setup.loop, schedule.source, w);
    var pendings := line[..1] + line[2..] + more;
    assert pendings[..1] == [At(pool, 0)];
    HoldReports(setup, 1, pendings);
    Loop.FillingPass(setup.loop, schedule, 1, w, pendings[1..], pendings[..1]);
    assert Loop.After(setup.loop, schedule, 2) == Loop.AfterRound(setup.loop, schedule, 1, w);
  }

  lemma {:induction false} ReleaseFinishes<W>(setup: Setup, pool: Pool<W>)
    requires setup.Valid()
    ensures var plan := ReleasePlan(setup);
      && plan.Valid(setup, pool) && plan.Schedule(pool).Valid(setup.loop) && FinishesAt(setup, pool, plan, 1)
      && var v := Loop.After(setup.loop, plan.Schedule(pool), 1);
         At(pool, 0) in v.locals.data && v.pendings == [] && v.locals.fetches > 0
  {
    var plan := ReleasePlan(setup);
    var schedule := plan.Schedule(pool);
    ReleasePlanIsValid(setup, pool);
    PlanIsSchedule(setup, pool, plan);
    Loop.FirstTopUp(setup.loop, schedule.source);
    var u := Loop.ToppedUp(setup.loop, schedule.source, Loop.START);
    LineupIsFetched(pool, plan.sizes, u.locals.fetches);
    assert u.pendings[0] == At(pool, 0);
    Loop.FillingPass(setup.loop, schedule, 0, Loop.START, u.pendings, []);
    assert Loop.After(setup.loop, schedule, 0) == Loop.START;
    var v := Loop.After(setup.loop, schedule, 1);
    assert v == Loop.AfterRound(setup.loop, schedule, 0, Loop.START);
    assert v.locals.data[0] == At(pool, 0);
  }

  /** The outcomes of these plans. */
  ghost function HoldOutcome<W(!new)>(setup: Setup, pool: Pool<W>, first: bool, now: Birth<W>): (o: Outcome<W>)
    requires setup.Valid() && setup.GivesBack() && |pool.groups| <= 1 && AllCapped(setup.sample, pool.groups)
    ensures IsOutcome(setup, OneToken(setup.sample), pool, now, o, HoldPlan(setup, pool, first), HoldPasses(setup))
  {
    HoldFinishes(setup, pool, first);
    OutcomeOf(setup, OneToken(setup.sample), pool, now, HoldPlan(setup, pool, first), HoldPasses(setup))
  }

  ghost function ReleaseOutcome<W(!new)>(setup: Setup, pool: Pool<W>, now: Birth<W>): (o: Outcome<W>)
    requires setup.Valid() && AllCapped(setup.sample, pool.groups)
    ensures IsOutcome(setup, OneToken(setup.sample), pool, now, o, ReleasePlan(setup), 1)
  {
    ReleaseFinishes(setup, pool);
    OutcomeOf(setup, OneToken(setup.sample), pool, now, ReleasePlan(setup), 1)
  }

  /**
    In its first rollout this one aborts a group with one token; the group waits, never started, until rollout `release`
    keeps it.
   */
  ghost function Hold<W(!new)>(setup: Setup, start: nat, release: nat, pool: Pool<W>, now: Birth<W>): (o: Outcome<W>)
    requires setup.Valid() && setup.GivesBack() && AllCapped(setup.sample, pool.groups)
  {
    if now.rollout < release && |pool.groups| <= 1 then HoldOutcome(setup, pool, now.rollout == start, now)
    else ReleaseOutcome(setup, pool, now)
  }

  lemma {:induction false} HoldIsRollout<W(!new)>(setup: Setup, start: nat, release: nat, pool: Pool<W>,
                                                  now: Birth<W>)
    requires setup.Valid() && setup.GivesBack() && AllCapped(setup.sample, pool.groups)
    ensures IsRollout(setup, OneToken(setup.sample), pool, now, Hold(setup, start, release, pool, now))
  {
    var o := Hold(setup, start, release, pool, now);
    if now.rollout < release && |pool.groups| <= 1 {
      assert IsOutcome(setup, OneToken(setup.sample), pool, now, o, HoldPlan(setup, pool, now.rollout == start),
                       HoldPasses(setup));
    } else {
      assert IsOutcome(setup, OneToken(setup.sample), pool, now, o, ReleasePlan(setup), 1);
    }
  }

  /** Exactly which options let a rollout give groups back. */
  lemma {:induction false} GivesBackExactly<W(!new)>(setup: Setup, now: Birth<W>)
    requires setup.Valid()
    ensures setup.GivesBack() <==> CanGiveBack(setup, now)
  {
    if setup.GivesBack() {
      var pool: Pool<W> := Pool([], 0);
      var o := HoldOutcome(setup, pool, false, now);
      HoldLeaves(setup, pool, false, now);
      RolloutIsMade(setup, OneToken(setup.sample), pool, now, o, HoldPlan(setup, pool, false), HoldPasses(setup));
    } else {
      forall engine, pool: Pool<W>, o: Outcome<W> | IsRollout(setup, engine, pool, now, o) ensures o.aborted == [] {
        var plan: Plan, n: nat :| IsOutcome(setup, engine, pool, now, o, plan, n);
        NothingGivenBack(setup, engine, pool, now, o, plan, n);
      }
    }
  }

  ghost predicate CanGiveBack<W(!new)>(setup: Setup, now: Birth<W>) {
    exists engine, pool: Pool<W>, o: Outcome<W> :: IsRollout(setup, engine, pool, now, o) && o.aborted != []
  }

  /** A sample of the group that is held: it has one token, born in the first rollout. */
  function HeldSample<W>(args: Args, first: Birth<W>): Carrier<W> {
    Attempt(args, OneToken(args), Carrier([0], BLANK, Pending, []), first, false, 0)
  }

  lemma {:induction false} HeldSampleOk<W>(args: Args, first: Birth<W>)
    ensures HeldSample(args, first).Valid(args) && HeldSample(args, first).output.responseLength <= args.cap
    ensures args.cap > 0 ==> HeldSample(args, first).births == [first]
  {
    var c := Carrier([0], BLANK, Pending, []);
    OneTokenKeepsItsSide(args);
    BlankIsValid(args, c, 0, []);
    AttemptDates(args, OneToken(args), c, first, false, 0);
  }

  function Held<W>(setup: Setup, id: Loop.Group, first: Birth<W>): Group<W> {
    Group(id, seq(setup.size, _ => HeldSample(setup.sample, first)))
  }

  lemma {:induction false} HeldCapped<W>(setup: Setup, id: Loop.Group, first: Birth<W>)
    ensures Capped(setup.sample, Held(setup, id, first))
  {
    HeldSampleOk(setup.sample, first);
  }

  /** A token with this birth is among those that are trained on. */
  ghost predicate TrainsOn<W>(data: seq<Group<W>>, birth: Birth<W>) {
    exists j, i, t: nat :: 0 <= j < |data| && 0 <= i < |data[j].samples|
      && data[j].samples[i].Trained(t) && data[j].samples[i].births[t] == birth
  }

  /** A rollout that holds a group leaves just that one in the buffer. */
  lemma {:induction false} HoldLeaves<W(!new)>(setup: Setup, pool: Pool<W>, first: bool, now: Birth<W>)
    requires setup.Valid() && setup.GivesBack() && |pool.groups| <= 1 && AllCapped(setup.sample, pool.groups)
    ensures var o := HoldOutcome(setup, pool, first, now);
      && Next(pool, o).groups == o.aborted
      && o.aborted
          == [Stopped(setup, OneToken(setup.sample), pool.groups, now, HoldPlan(setup, pool, first), At(pool, 0))]
  {
    var plan := HoldPlan(setup, pool, first);
    HoldFinishes(setup, pool, first);
    var v := Loop.After(setup.loop, plan.Schedule(pool), HoldPasses(setup));
    ServedFirst(setup, pool, plan.sizes, v.locals.fetches);
    DrainsAtOnce(v.pendings);
    var o := HoldOutcome(setup, pool, first, now);
    MadeOfOne(setup, OneToken(setup.sample), pool, now, plan, Loop.Sorted(v.locals.data), v.pendings, v.locals.fetches,
              o);
  }

  lemma {:induction false} MadeOfOne<W(!new)>(setup: Setup, engine: Engine, pool: Pool<W>, now: Birth<W>, plan: Plan,
                                              kept: seq<Loop.Group>, stopped: seq<Loop.Group>, fetches: nat,
                                              o: Outcome<W>)
    requires AllCapped(setup.sample, pool.groups) && o == Made(setup, engine, pool, now, plan, kept, stopped, fetches)
    requires |stopped| == 1 && |pool.groups| <= o.fetched
    ensures Next(pool, o).groups == o.aborted
    ensures o.aborted == [Stopped(setup, engine, pool.groups, now, plan, stopped[0])]
  {
    assert pool.groups[..Min(|pool.groups|, o.fetched)] == pool.groups;
    assert [] + o.aborted == o.aborted;
  }

  lemma {:induction false} DrainsAtOnce(pendings: seq<Loop.Group>)
    ensures Loop.FirstCompleted(AtOnce()) && Loop.Drained(AtOnce(), 0, pendings) == pendings
  {
    forall round: nat, pendings: seq<Loop.Group> | pendings != []
      ensures Loop.Splits(AtOnce()(round, pendings), pendings)
    {
    }
    if pendings != [] {
      assert Loop.Drained(AtOnce(), 0, pendings) == pendings + Loop.Drained(AtOnce(), 1, []);
    }
  }

  /** The held group goes to the buffer with a token, and stays there. */
  lemma {:induction false} HoldCarries<W(!new)>(setup: Setup, pool: Pool<W>, held: Group<W>, now: Birth<W>)
    requires setup.Valid() && setup.Mixes() && Capped(setup.sample, held)
    requires pool.groups == [] || pool.groups == [held]
    ensures AllCapped(setup.sample, pool.groups)
    ensures pool.groups == [] ==>
      Next(pool, HoldOutcome(setup, pool, true, now)).groups == [Held(setup, At(pool, 0), now)]
    ensures pool.groups == [held] ==> Next(pool, HoldOutcome(setup, pool, false, now)).groups == [held]
  {
    if pool.groups == [] {
      HoldLeaves(setup, pool, true, now);
      FirstStop(setup, At(pool, 0), now);
    } else {
      HoldLeaves(setup, pool, false, now);
    }
  }

  lemma {:induction false} HoldStarts<W(!new)>(setup: Setup, start: nat, release: nat, pool: Pool<W>, id: Loop.Group,
                                               now: Birth<W>)
    requires setup.Valid() && setup.Mixes() && pool.groups == [] && id == At(pool, 0) && start == now.rollout < release
    ensures AllCapped(setup.sample, pool.groups)
    ensures Next(pool, Hold(setup, start, release, pool, now)).groups == [Held(setup, id, now)]
  {
    HeldCapped(setup, id, now);
    HoldCarries(setup, pool, Held(setup, id, now), now);
  }

  lemma {:induction false} FirstStop<W>(setup: Setup, id: Loop.Group, now: Birth<W>)
    ensures var g := Blank<W>(id, [0], setup.size);
      Capped(setup.sample, g)
      && StopGroup(setup.sample, OneToken(setup.sample), g, now, HeldFate(true)) == Held(setup, id, now)
  {
    var g := Blank<W>(id, [0], setup.size);
    var stopped := StopGroup(setup.sample, OneToken(setup.sample), g, now, HeldFate(true));
    assert stopped.samples == Held(setup, id, now).samples;
  }

  /** And in the end it is trained on with its old token. */
  lemma {:induction false} ReleaseTrains<W(!new)>(setup: Setup, pool: Pool<W>, id: Loop.Group, first: Birth<W>,
                                                  now: Birth<W>)
    requires setup.Valid() && setup.Mixes() && pool.groups == [Held(setup, id, first)]
    ensures AllCapped(setup.sample, pool.groups) && TrainsOn(ReleaseOutcome(setup, pool, now).data, first)
  {
    var plan := ReleasePlan(setup);
    HeldCapped(setup, id, first);
    ReleaseFinishes(setup, pool);
    var v := Loop.After(setup.loop, plan.Schedule(pool), 1);
    ServedFirst(setup, pool, plan.sizes, v.locals.fetches);
    Loop.SortedIsSorted(v.locals.data);
    assert id in multiset(Loop.Sorted(v.locals.data));
    MadeTrains(setup, pool, id, first, now, Loop.Sorted(v.locals.data),
               Loop.HandedBack(setup.loop, plan.abortWait, v.pendings), v.locals.fetches);
  }

  lemma {:induction false} MadeTrains<W(!new)>(setup: Setup, pool: Pool<W>, id: Loop.Group, first: Birth<W>,
                                               now: Birth<W>, kept: seq<Loop.Group>, stopped: seq<Loop.Group>,
                                               fetches: nat)
    requires setup.Valid() && setup.Mixes() && pool.groups == [Held(setup, id, first)] && id in kept
    requires AllCapped(setup.sample, pool.groups) && Served(ReleasePlan(setup).sizes, fetches) > 0
    ensures TrainsOn(Made(setup, OneToken(setup.sample), pool, now, ReleasePlan(setup), kept, stopped, fetches).data,
                     first)
  {
    var o := Made(setup, OneToken(setup.sample), pool, now, ReleasePlan(setup), kept, stopped, fetches);
    var j :| 0 <= j < |kept| && kept[j] == id;
    assert pool.groups[..1] == pool.groups;
    assert o.data[j] == Finished(setup, OneToken(setup.sample), pool.groups, now, ReleasePlan(setup), id);
    HeldTrains(setup, id, first, now);
  }

  lemma {:induction false} HeldTrains<W>(setup: Setup, id: Loop.Group, first: Birth<W>, now: Birth<W>)
    requires setup.Valid() && setup.Mixes()
    ensures Capped(setup.sample, Held(setup, id, first))
    ensures var g := FinishGroup(setup.sample, OneToken(setup.sample), Held(setup, id, first), now, OtherFate());
      g.samples[0].Trained(0) && g.samples[0].births[0] == first
  {
    HeldSampleOk(setup.sample, first);
    OneTokenKeepsItsSide(setup.sample);
    AttemptDates(setup.sample, OneToken(setup.sample), HeldSample(setup.sample, first), now, false, 1);
  }
}
