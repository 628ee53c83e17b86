/**
  Asynchronous training (`train_async.py`) with partial rollout (`--partial-rollout`): which weights generated the
  tokens that an iteration trains on.  Runs are those of AsyncTraining, rollouts those of PartialRollout.
 */
module WeightVersions {
  import opened AsyncTraining
  import opened Options
  import opened PartialRollout
  import Life = SampleLifecycle
  import Loop = RolloutLoop

  type Log<W> = seq<Iteration<W, Pool<W>, Outcome<W>>>

  type Run<!W> = Setting<W, Pool<W>, Outcome<W>>

  /**
    A run starts without buffer, anywhere in the stream, and every call of its rollout function is a rollout of the loop
    with this engine.
   */
  ghost predicate Generates<W(!new)>(setup: Setup, engine: Life.Engine, s: Run<W>) {
    && setup.Valid() && Life.KeepsItsSide(setup.sample, engine) && s.empty.groups == []
    && forall waiting: Pool<W>, id: nat, weights: W
         {:trigger IsGenerated(setup, engine, waiting, Birth(id, weights), s.generate(waiting, id, weights))} ::
         AllCapped(setup.sample, waiting.groups) ==>
           IsGenerated(setup, engine, waiting, Birth(id, weights), s.generate(waiting, id, weights))
  }

  ghost predicate IsGenerated<W(!new)>(setup: Setup, engine: Life.Engine, waiting: Pool<W>, now: Birth<W>,
                                       generated: (Outcome<W>, Pool<W>))
  {
    IsRollout(setup, engine, waiting, now, generated.0) && generated.1 == Next(waiting, generated.0)
  }

  /** The weights the first `i` rollouts of a run ran under. */
  ghost function Generators<W>(log: Log<W>, i: nat): (gens: seq<W>)
    requires i <= |log|
    ensures |gens| == i && forall k :: 0 <= k < i ==> gens[k] == log[k].data.startedUnder
  {
    seq(i, k requires 0 <= k < i => log[k].data.startedUnder)
  }

  ghost function BirthAt<W>(log: Log<W>, s: Run<W>, i: nat): Birth<W>
    requires i < |log|
  {
    Birth(s.start + i, log[i].data.startedUnder)
  }

  /** What iteration i trains on. */
  ghost function DataAt<W>(log: Log<W>, i: nat): seq<Group<W>>
    requires i < |log|
  {
    log[i].data.outcome.data
  }

  /** What was shown of the outcomes of the loop, and what they leave. */
  ghost predicate Passes<W(!new)>(setup: Setup, engine: Life.Engine, waiting: Pool<W>, now: Birth<W>, o: Outcome<W>,
                                  left: Pool<W>)
  {
    && MadeFrom(setup, engine, waiting, now, o) && left == Next(waiting, o) && (!setup.GivesBack() ==> o.aborted == [])
    && forall x :: Loop.IndexCount(Ids(o.data), x) + Stock(left, x) <= Stock(waiting, x)
  }

  lemma {:induction false} RolloutPasses<W(!new)>(setup: Setup, engine: Life.Engine, waiting: Pool<W>, now: Birth<W>,
                                                  o: Outcome<W>)
    requires IsRollout(setup, engine, waiting, now, o)
    ensures Passes(setup, engine, waiting, now, o, Next(waiting, o))
  {
    var plan: Plan, n: nat :| IsOutcome(setup, engine, waiting, now, o, plan, n);
    RolloutIsMade(setup, engine, waiting, now, o, plan, n);
    if !setup.GivesBack() { NothingGivenBack(setup, engine, waiting, now, o, plan, n); }
    forall x ensures Loop.IndexCount(Ids(o.data), x) + Stock(Next(waiting, o), x) <= Stock(waiting, x) {
      StockGoesDown(setup, engine, waiting, now, o, plan, n, x);
    }
  }

  lemma {:induction false} ProducedPasses<W(!new)>(setup: Setup, engine: Life.Engine, s: Run<W>, waiting: Pool<W>,
                                                   r: nat, weights: W)
    requires Generates(setup, engine, s) && AllCapped(setup.sample, waiting.groups)
    ensures var d := Produced(s.generate, r, waiting, weights);
      Passes(setup, engine, waiting, Birth(r, weights), d.outcome, d.left)
  {
    var (o, left) := s.generate(waiting, r, weights);
    assert IsGenerated(setup, engine, waiting, Birth(r, weights), (o, left));
    RolloutPasses(setup, engine, waiting, Birth(r, weights), o);
  }

  /** Rollout i, with what waited before it and what waits after it. */
  ghost predicate PassesAt<W(!new)>(log: Log<W>, s: Run<W>, setup: Setup, engine: Life.Engine, i: nat)
    requires i < |log|
  {
    Passes(setup, engine, Before(log, s, i), BirthAt(log, s, i), log[i].data.outcome, Before(log, s, i + 1))
  }

  lemma {:induction false} RolloutAt<W(!new)>(log: Log<W>, versions: seq<W>, s: Run<W>, setup: Setup,
                                              engine: Life.Engine, i: nat)
    requires RunOk(log, versions, s) && Generates(setup, engine, s) && i < |log|
    requires GroupsOk(setup, Before(log, s, i).groups, s.start, Generators(log, i))
    ensures PassesAt(log, s, setup, engine, i)
  {
    EntryStarts(log, versions, s, i);
    GroupsAreCapped(setup, Before(log, s, i).groups, s.start, Generators(log, i));
    ProducedPasses(setup, engine, s, Before(log, s, i), s.start + i, log[i].data.startedUnder);
    var d := Produced(s.generate, s.start + i, Before(log, s, i), log[i].data.startedUnder);
    assert log[i].data == d && Before(log, s, i + 1) == d.left;
    assert BirthAt(log, s, i) == Birth(s.start + i, log[i].data.startedUnder);
  }

  lemma {:induction false} DatesGoOn<W(!new)>(log: Log<W>, versions: seq<W>, s: Run<W>, setup: Setup,
                                              engine: Life.Engine, i: nat)
    requires RunOk(log, versions, s) && Generates(setup, engine, s) && i < |log|
    requires GroupsOk(setup, Before(log, s, i).groups, s.start, Generators(log, i))
    ensures GroupsOk(setup, DataAt(log, i), s.start, Generators(log, i + 1))
    ensures GroupsOk(setup, Before(log, s, i + 1).groups, s.start, Generators(log, i + 1))
  {
    RolloutAt(log, versions, s, setup, engine, i);
    assert Generators(log, i + 1) == Generators(log, i) + [BirthAt(log, s, i).weights];
    RolloutDates(setup, engine, Before(log, s, i), BirthAt(log, s, i), log[i].data.outcome, s.start,
                 Generators(log, i));
  }

  /** Every token that waits in the buffer is as old as its birth says. */
  lemma {:induction false} BufferDated<W(!new)>(log: Log<W>, versions: seq<W>, s: Run<W>, setup: Setup,
                                                engine: Life.Engine, i: nat)
    requires RunOk(log, versions, s) && Generates(setup, engine, s) && i <= |log|
    ensures GroupsOk(setup, Before(log, s, i).groups, s.start, Generators(log, i))
    decreases i
  {
    if i > 0 {
      BufferDated(log, versions, s, setup, engine, i - 1);
      DatesGoOn(log, versions, s, setup, engine, i - 1);
    }
  }

  /** Where rollouts give nothing back, nothing ever waits. */
  lemma {:induction false} BufferEmpty<W(!new)>(log: Log<W>, versions: seq<W>, s: Run<W>, setup: Setup,
                                                engine: Life.Engine, i: nat)
    requires RunOk(log, versions, s) && Generates(setup, engine, s) && i <= |log| && !setup.GivesBack()
    ensures Before(log, s, i).groups == []
    decreases i
  {
    if i > 0 {
      BufferEmpty(log, versions, s, setup, engine, i - 1);
      BufferDated(log, versions, s, setup, engine, i - 1);
      RolloutAt(log, versions, s, setup, engine, i - 1);
    }
  }

  /**
    Every response token of iteration i was generated in a rollout up to its own, under the weights of that rollout.
   */
  lemma {:induction false} EveryTokenDated<W(!new)>(log: Log<W>, versions: seq<W>, s: Run<W>, setup: Setup,
          engine: Life.Engine, i: nat)
    requires RunOk(log, versions, s) && Generates(setup, engine, s) && i < |log|
    ensures GroupsOk(setup, DataAt(log, i), s.start, Generators(log, i + 1))
  {
    BufferDated(log, versions, s, setup, engine, i);
    DatesGoOn(log, versions, s, setup, engine, i);
  }

  /**
    The tokens iteration i trains on were all generated in its own rollout, under the weights that rollout ran under,
    exactly if earlier tokens are masked or every sample was started in this rollout; so it is in every run unless
    rollouts can give groups back, earlier tokens are not masked, and responses may have tokens.
   */
  lemma {:induction false} TrainedTokensCurrent<W(!new)>(log: Log<W>, versions: seq<W>, s: Run<W>,
                                                         setup: Setup, engine: Life.Engine, i: nat)
    requires RunOk(log, versions, s) && Generates(setup, engine, s) && i < |log|
    ensures AllCurrent(DataAt(log, i), BirthAt(log, s, i))
       <==> setup.sample.Masking() || AllStartedIn(DataAt(log, i), s.start + i)
    ensures !setup.Mixes() ==> AllCurrent(DataAt(log, i), BirthAt(log, s, i))
  {
    BufferDated(log, versions, s, setup, engine, i);
    RolloutAt(log, versions, s, setup, engine, i);
    if !setup.GivesBack() { BufferEmpty(log, versions, s, setup, engine, i); }
    CurrentUnlessMixed(setup, engine, Before(log, s, i), BirthAt(log, s, i), log[i].data.outcome, s.start,
                       Generators(log, i), DataAt(log, i), s.start + i);
  }

  lemma {:induction false} CurrentUnlessMixed<W(!new)>(setup: Setup, engine: Life.Engine, waiting: Pool<W>,
                                                       now: Birth<W>, o: Outcome<W>, start: nat, gens: seq<W>,
                                                       data: seq<Group<W>>, r: nat)
    requires data == o.data && r == now.rollout && setup.Valid() && Life.KeepsItsSide(setup.sample, engine)
    requires now.rollout == start + |gens|
    requires GroupsOk(setup, waiting.groups, start, gens) && MadeFrom(setup, engine, waiting, now, o)
    requires !setup.GivesBack() ==> waiting.groups == []
    ensures AllCurrent(data, now) <==> setup.sample.Masking() || AllStartedIn(data, r)
    ensures !setup.Mixes() ==> AllCurrent(data, now)
  {
    CurrentExactly(setup, engine, waiting, now, o, start, gens);
  }

  /** Every token that is trained on was generated under these weights. */
  ghost predicate AllUnder<W>(data: seq<Group<W>>, weights: W) {
    forall j, c, t: nat :: 0 <= j < |data| && c in data[j].samples && c.Trained(t) ==> c.births[t].weights == weights
  }

  lemma {:induction false} CurrentIsUnder<W>(data: seq<Group<W>>, now: Birth<W>)
    requires AllCurrent(data, now)
    ensures AllUnder(data, now.weights)
  {
    forall j, c, t: nat | 0 <= j < |data| && c in data[j].samples && c.Trained(t)
      ensures c.births[t].weights == now.weights
    {
      assert c.Current(now);
    }
  }

  /** With the queue the old log-probs of every trained token are taken under the very weights that generated it. */
  lemma {:induction false} OldLogProbsPerToken<W(!new)>(log: Log<W>, versions: seq<W>, s: Run<W>,
                                                        setup: Setup, engine: Life.Engine, i: nat)
    requires RunOk(log, versions, s) && Generates(setup, engine, s) && i < |log| && !setup.Mixes()
    requires s.args.keepOldActor && s.args.computeAdvantages && s.args.interval == 1 && log[i].trained.Some?
    requires i > 0 || s.loaded == versions[0]
    ensures log[i].trained.value.logProbWeights.Some?
    ensures AllUnder(DataAt(log, i), log[i].trained.value.logProbWeights.value)
  {
    OldLogProbsUseGenerator(log, versions, s, i);
    TrainedTokensCurrent(log, versions, s, setup, engine, i);
    CurrentIsUnder(DataAt(log, i), BirthAt(log, s, i));
  }

  // ---------------------------------------------------------------- nothing is trained on twice

  /** How many groups with this index, the number of the group in the stream, the first `i` iterations train on. */
  ghost function TimesTrained<W>(log: Log<W>, i: nat, x: int): nat
    requires i <= |log|
  {
    if i == 0 then 0 else TimesTrained(log, i - 1, x) + Loop.IndexCount(Ids(DataAt(log, i - 1)), x)
  }

  /** What was trained on is no longer in stock. */
  lemma {:induction false} TrainedOrInStock<W(!new)>(log: Log<W>, versions: seq<W>, s: Run<W>, setup: Setup,
                                                     engine: Life.Engine, i: nat, x: int)
    requires RunOk(log, versions, s) && Generates(setup, engine, s) && i <= |log|
    ensures TimesTrained(log, i, x) + Stock(Before(log, s, i), x) <= Stock(s.empty, x)
    decreases i
  {
    if i > 0 {
      TrainedOrInStock(log, versions, s, setup, engine, i - 1, x);
      BufferDated(log, versions, s, setup, engine, i - 1);
      RolloutAt(log, versions, s, setup, engine, i - 1);
    }
  }

  /**
    In a whole run, however often its group was sampled again, given back and continued, no position of the stream is
    trained on twice, and none from before the run; and the buffer never holds two groups of one position.
   */
  lemma {:induction false} TrainedOnce<W(!new)>(log: Log<W>, versions: seq<W>, s: Run<W>, setup: Setup,
                                                engine: Life.Engine, i: nat, x: int)
    requires RunOk(log, versions, s) && Generates(setup, engine, s) && i <= |log|
    ensures TimesTrained(log, i, x) <= if x >= s.empty.next then 1 else 0
    ensures PoolOk(Before(log, s, i))
  {
    TrainedOrInStock(log, versions, s, setup, engine, i, x);
    assert Ids(s.empty.groups) == [];
    forall y ensures Stock(Before(log, s, i), y) <= 1 {
      TrainedOrInStock(log, versions, s, setup, engine, i, y);
    }
  }

  // ---------------------------------------------------------------- runs that carry tokens over

  /** An update that counts. */
  function CountStep(w: Weights<int>, data: Rollout<Weights<int>, Pool<Weights<int>>, Outcome<Weights<int>>>,
                     logProbWeights: Option<Weights<int>>): Weights<int>
  {
    map name | name in w :: w[name] + 1
  }

  const ZERO: Weights<int> := map["w" := 0]

  /** What a rollout of the loop makes of a pool when it is to hold a group until rollout `release`. */
  ghost function HoldOn(setup: Setup, start: nat, release: nat, waiting: Pool<Weights<int>>, now: Birth<Weights<int>>)
    : (Outcome<Weights<int>>, Pool<Weights<int>>)
  {
    if setup.Valid() && setup.GivesBack() && AllCapped(setup.sample, waiting.groups) then
      var outcome := Hold(setup, start, release, waiting, now);
      (outcome, Next(waiting, outcome))
    else
      (Outcome([], [], 0), waiting)
  }

  const NOTHING: Pool<Weights<int>> := Pool([], 0)

  /** The run in which a group is aborted in the first rollout and kept in rollout `release`. */
  ghost function Holding(setup: Setup, args: Args, start: nat, release: nat): Run<Weights<int>> {
    Setting(args, ZERO, ZERO, start, CountStep, NOTHING,
            (waiting, id, weights) => HoldOn(setup, start, release, waiting, Birth(id, weights)))
  }

  lemma {:induction false} HoldingGenerates(setup: Setup, args: Args, start: nat, release: nat)
    requires setup.Valid() && setup.Mixes()
    ensures Generates(setup, OneToken(setup.sample), Holding(setup, args, start, release))
  {
    var s := Holding(setup, args, start, release);
    OneTokenKeepsItsSide(setup.sample);
    forall waiting: Pool<Weights<int>>, id: nat, weights: Weights<int> | AllCapped(setup.sample, waiting.groups)
      ensures IsGenerated(setup, OneToken(setup.sample), waiting, Birth(id, weights), s.generate(waiting, id, weights))
    {
      HoldIsRollout(setup, start, release, waiting, Birth(id, weights));
    }
  }

  /** The group the first rollout takes up. */
  const FIRST: Loop.Group := Loop.Group(0, 0)

  lemma {:induction false} HeldAtFirst(setup: Setup, release: nat, first: Birth<Weights<int>>)
    requires setup.Valid() && setup.Mixes() && first.rollout < release
    ensures HoldOn(setup, first.rollout, release, NOTHING, first).1.groups == [Held(setup, FIRST, first)]
  {
    HoldStarts(setup, first.rollout, release, NOTHING, FIRST, first);
  }

  lemma {:induction false} HeldStays(setup: Setup, release: nat, first: Birth<Weights<int>>,
                                     waiting: Pool<Weights<int>>, now: Birth<Weights<int>>)
    requires setup.Valid() && setup.Mixes() && first.rollout < now.rollout < release
    requires waiting.groups == [Held(setup, FIRST, first)]
    ensures HoldOn(setup, first.rollout, release, waiting, now).1.groups == [Held(setup, FIRST, first)]
  {
    HeldCapped(setup, FIRST, first);
    HoldCarries(setup, waiting, Held(setup, FIRST, first), now);
  }

  lemma {:induction false} HeldLeaves(setup: Setup, release: nat, first: Birth<Weights<int>>,
                                      waiting: Pool<Weights<int>>, now: Birth<Weights<int>>)
    requires setup.Valid() && setup.Mixes() && first.rollout < release == now.rollout
    requires waiting.groups == [Held(setup, FIRST, first)]
    ensures TrainsOn(HoldOn(setup, first.rollout, release, waiting, now).0.data, first)
  {
    ReleaseTrains(setup, waiting, FIRST, first, now);
  }

  type Rolls = Generate<Weights<int>, Pool<Weights<int>>, Outcome<Weights<int>>>

  /**
    The first rollout leaves this group in the buffer, the next ones leave it there, and `release` trains on its
    token.
   */
  ghost predicate Carries(rolls: Rolls, held: Group<Weights<int>>, first: Birth<Weights<int>>, release: nat) {
    && rolls(NOTHING, first.rollout, first.weights).1.groups == [held]
    && (forall r: nat, waiting, weights :: first.rollout < r < release ==>
        LeavesWaiting(rolls, held, waiting, r, weights))
    && (forall waiting, weights :: LetsGo(rolls, held, first, waiting, release, weights))
  }

  ghost predicate LeavesWaiting(rolls: Rolls, held: Group<Weights<int>>, waiting: Pool<Weights<int>>, r: nat,
                                weights: Weights<int>)
  {
    waiting.groups == [held] ==> rolls(waiting, r, weights).1.groups == [held]
  }

  ghost predicate LetsGo(rolls: Rolls, held: Group<Weights<int>>, first: Birth<Weights<int>>,
                         waiting: Pool<Weights<int>>, r: nat, weights: Weights<int>)
  {
    waiting.groups == [held] ==> TrainsOn(rolls(waiting, r, weights).0.data, first)
  }

  lemma {:induction false} HoldingCarries(setup: Setup, args: Args, first: Birth<Weights<int>>, release: nat)
    requires setup.Valid() && setup.Mixes() && first.rollout < release
    ensures Carries(Holding(setup, args, first.rollout, release).generate, Held(setup, FIRST, first), first, release)
  {
    var rolls, held := Holding(setup, args, first.rollout, release).generate, Held(setup, FIRST, first);
    HeldAtFirst(setup, release, first);
    forall r: nat, waiting, weights | first.rollout < r < release
      ensures LeavesWaiting(rolls, held, waiting, r, weights)
    {
      if waiting.groups == [held] { HeldStays(setup, release, first, waiting, Birth(r, weights)); }
    }
    forall waiting, weights ensures LetsGo(rolls, held, first, waiting, release, weights) {
      if waiting.groups == [held] { HeldLeaves(setup, release, first, waiting, Birth(release, weights)); }
    }
  }

  /** Until its release the group waits, and then its token is trained on. */
  lemma {:induction false} HeldIsTrained(log: Log<Weights<int>>, versions: seq<Weights<int>>, s: Run<Weights<int>>,
                                         held: Group<Weights<int>>, i: nat)
    requires RunOk(log, versions, s) && 0 < i < |log| && s.empty == NOTHING
    requires Carries(s.generate, held, Birth(s.start, versions[0]), s.start + i)
    ensures TrainsOn(DataAt(log, i), Birth(s.start, versions[0]))
  {
    var waits := (waiting: Pool<Weights<int>>) => waiting.groups == [held];
    forall r: nat, waiting, weights | s.start < r < s.start + i && waits(waiting)
      ensures waits(Produced(s.generate, r, waiting, weights).left)
    {
      assert LeavesWaiting(s.generate, held, waiting, r, weights);
    }
    StaysUntil(log, versions, s, waits, i, i);
    EntryStarts(log, versions, s, i);
    assert LetsGo(s.generate, held, Birth(s.start, versions[0]), Before(log, s, i), s.start + i,
                  log[i].data.startedUnder);
  }

  lemma {:induction false} CarryingRun(s: Run<Weights<int>>, held: Group<Weights<int>>, first: Birth<Weights<int>>,
                                       rolls: Rolls, release: nat, n: nat)
    returns (log: Log<Weights<int>>, versions: seq<Weights<int>>)
    requires s.args.interval > 0 && s.empty == NOTHING && s.start == first.rollout < release && s.generate == rolls
    requires Carries(rolls, held, first, release) && n == release - first.rollout
    ensures RunOk(log, versions, s) && |log| == n + 1 && versions[0] == first.weights && TrainsOn(DataAt(log, n), first)
  {
    log, versions := RunExists(s, first.weights, n + 1);
    HeldIsTrained(log, versions, s, held, n);
  }

  /** A run that `TrainAsync` can make, up to the weights of the engines before the first push. */
  ghost predicate IsRun(log: Log<Weights<int>>, versions: seq<Weights<int>>, s: Run<Weights<int>>) {
    && s.Valid() && KeepsNames(s.step) && RunOk(log, versions, s)
    && versions[0].Keys == s.loaded.Keys == s.reference.Keys
  }

  /**
    Where tokens can be carried over there is, for every later rollout, a run in which it trains on a token of the very
    first version: how old a trained token is has no bound.
   */
  lemma {:induction false} CarriedRun(setup: Setup, args: Args, start: nat, release: nat)
    returns (s: Run<Weights<int>>, log: Log<Weights<int>>, versions: seq<Weights<int>>)
    requires setup.Valid() && setup.Mixes() && args.Valid() && start < release
    ensures IsRun(log, versions, s) && Generates(setup, OneToken(setup.sample), s)
    ensures s == Setting(args, ZERO, ZERO, start, CountStep, NOTHING, s.generate) && |log| == release - start + 1
    ensures versions[0] == ZERO
    ensures TrainsOn(DataAt(log, release - start), Birth(start, ZERO))
  {
    s := Holding(setup, args, start, release);
    HoldingGenerates(setup, args, start, release);
    HoldingCarries(setup, args, Birth(start, ZERO), release);
    log, versions := CarryingRun(s, Held(setup, FIRST, Birth(start, ZERO)), Birth(start, ZERO),
                                 Holding(setup, args, start, release).generate, release, release - start);
  }

  /** With the counting update, versions after an iteration that trains differ from the first one. */
  lemma {:induction false} VersionsCount(log: Log<Weights<int>>, versions: seq<Weights<int>>, s: Run<Weights<int>>,
                                         j: nat, k: nat)
    requires RunOk(log, versions, s) && s.step == CountStep && j < k <= |log| && s.Trains(s.start + j)
    requires versions[0] == ZERO
    ensures "w" in versions[k] && versions[k]["w"] > 0
    decreases k
  {
    VersionsNonNegative(log, versions, s, k - 1);
    assert EntryOk(log, versions, s, k - 1);
    if j < k - 1 { VersionsCount(log, versions, s, j, k - 1); }
  }

  lemma {:induction false} VersionsNonNegative(log: Log<Weights<int>>, versions: seq<Weights<int>>,
                                               s: Run<Weights<int>>, k: nat)
    requires RunOk(log, versions, s) && s.step == CountStep && k <= |log| && versions[0] == ZERO
    ensures "w" in versions[k] && versions[k]["w"] >= 0
    decreases k
  {
    if k > 0 {
      VersionsNonNegative(log, versions, s, k - 1);
      assert EntryOk(log, versions, s, k - 1);
    }
  }

  /** In every run with these options every trained token was generated under the version its rollout ran under. */
  ghost predicate AlwaysCurrent(setup: Setup, args: Args) {
    forall s: Run<Weights<int>>, engine: Life.Engine, log: Log<Weights<int>>, versions: seq<Weights<int>>, i: nat ::
      s.args == args && IsRun(log, versions, s) && Generates(setup, engine, s) && i < |log| && log[i].trained.Some? ==>
        AllUnder(DataAt(log, i), log[i].data.startedUnder)
  }

  /**
    Which options promise it: all but those under which rollouts can give groups back, with tokens that are not masked
    later.
   */
  lemma {:induction false} AlwaysCurrentExactly(setup: Setup, args: Args)
    requires setup.Valid() && args.Valid()
    ensures AlwaysCurrent(setup, args) <==> !setup.Mixes()
  {
    if setup.Mixes() {
      MixedRun(setup, args);
    } else {
      forall s: Run<Weights<int>>, engine: Life.Engine, log: Log<Weights<int>>, versions: seq<Weights<int>>, i: nat
        | s.args == args && IsRun(log, versions, s) && Generates(setup, engine, s) && i < |log|
        ensures AllUnder(DataAt(log, i), log[i].data.startedUnder)
      {
        TrainedTokensCurrent(log, versions, s, setup, engine, i);
        CurrentIsUnder(DataAt(log, i), BirthAt(log, s, i));
      }
    }
  }

  /** A run in which an iteration trains on a token of another version than its rollout ran under. */
  lemma {:induction false} MixedRun(setup: Setup, args: Args)
    requires setup.Valid() && setup.Mixes() && args.Valid()
    ensures !AlwaysCurrent(setup, args)
  {
    var first := if args.useCritic then args.numCriticOnlySteps else 0;
    var release := first + args.interval + 1;
    var s, log, versions := CarriedRun(setup, args, 0, release);
    StalenessBound(0, release, args.interval);
    LaterIsOther(log, versions, s, first, release);
    OldTokenShows(DataAt(log, release), Birth(0, ZERO), log[release].data.startedUnder);
  }

  lemma {:induction false} LaterIsOther(log: Log<Weights<int>>, versions: seq<Weights<int>>, s: Run<Weights<int>>,
                                        first: nat, r: nat)
    requires RunOk(log, versions, s) && s.step == CountStep && versions[0] == ZERO && s.start == 0
    requires r < |log| && s.Trains(first) && s.Trains(r) && first < GeneratedUnder(0, r, s.args.interval)
    ensures log[r].data.startedUnder != ZERO && log[r].trained.Some?
  {
    VersionsCount(log, versions, s, first, GeneratedUnder(0, r, s.args.interval));
    EntryIsProduced(log, versions, s, r);
    assert EntryOk(log, versions, s, r);
  }

  lemma {:induction false} OldTokenShows<W>(data: seq<Group<W>>, first: Birth<W>, weights: W)
    requires TrainsOn(data, first) && first.weights != weights
    ensures !AllUnder(data, weights)
  {
    var j, i, t: nat :| 0 <= j < |data| && 0 <= i < |data[j].samples|
      && data[j].samples[i].Trained(t) && data[j].samples[i].births[t] == first;
    assert data[j].samples[i] in data[j].samples;
  }

  /**
    The smallest case: two groups are fetched at a time and one is kept.  In rollout 0 the second one finishes first
    and fills the batch; the first is aborted with a token, waits through rollout 1, which goes the same way, and is
    kept in rollout 2, with a push between.  Its token was generated under version 0, and the snapshot queue takes its
    old log-prob under version 1.
   */
  lemma {:induction false} MixedExample()
    returns (setup: Setup, s: Run<Weights<int>>, log: Log<Weights<int>>, versions: seq<Weights<int>>)
    ensures setup == Setup(Life.Args(1, true, false, false, false), Loop.Args(1, 2, 0, true), 1, false, true)
    ensures IsRun(log, versions, s) && Generates(setup, OneToken(setup.sample), s) && |log| == 3
    ensures s.args.keepOldActor && s.args.interval == 1 && TrainsOn(DataAt(log, 2), Birth(0, map["w" := 0]))
    ensures log[2].trained.Some? && log[2].trained.value.logProbWeights == Some(map["w" := 1])
  {
    setup := Setup(Life.Args(1, true, false, false, false), Loop.Args(1, 2, 0, true), 1, false, true);
    s, log, versions := CarriedRun(setup, Args(true, 1, false, None, true, false, 0), 0, 2);
    ThirdIteration(log, versions, s);
  }

  lemma {:induction false} ThirdIteration(log: Log<Weights<int>>, versions: seq<Weights<int>>, s: Run<Weights<int>>)
    requires RunOk(log, versions, s) && |log| == 3 && versions[0] == ZERO
    requires s == Setting(Args(true, 1, false, None, true, false, 0), ZERO, ZERO, 0, CountStep, NOTHING, s.generate)
    ensures log[2].trained.Some? && log[2].trained.value.logProbWeights == Some(map["w" := 1])
  {
    assert versions[1] == map["w" := 1] by { assert EntryOk(log, versions, s, 0); }
    assert EntryOk(log, versions, s, 2);
  }
}
