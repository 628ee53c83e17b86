/**
  The asynchronous training loop (`train_async.py`) with the actor's weight snapshots
  (`miles/backends/megatron_utils/actor.py`, `miles/utils/tensor_backper.py`).

  Weights are maps from parameter names to values.  The optimizer step and the loading of a
  checkpoint are parameters of the model; offloading of the training process is switched off.
  What a rollout returns and what it leaves in the buffer of the data source are given by a function, of any types:
  the module WeightVersions puts the rollouts of PartialRollout there, in which tokens know what generated them.
 */
module AsyncTraining {
  import opened Arith
  import opened Options

  type Weights<V> = map<string, V>

  // ---------------------------------------------------------------- tensor_backper

  /** `_TensorBackuperNormal`, together with the parameters its source getter walks over. */
  class TensorBackuper<V> {
    var params: Weights<V>
    var backups: map<string, Weights<V>>

    /** Every snapshot covers exactly the parameters of the model. */
    ghost predicate Valid()
      reads this
    {
      forall tag :: tag in backups ==> backups[tag].Keys == params.Keys
    }

    constructor (initial: Weights<V>)
      ensures Valid() && params == initial && backups == map[]
    {
      params, backups := initial, map[];
    }

    method Backup(tag: string)
      requires Valid()
      modifies this`backups
      ensures Valid() && backups == old(backups)[tag := params]
    {
      var dict := if tag in backups then backups[tag] else map[];
      var todo := params.Keys;
      while todo != {}
        invariant todo <= params.Keys && dict.Keys <= params.Keys
        invariant forall name :: name in params && name !in todo ==> name in dict && dict[name] == params[name]
        decreases todo
      {
        var name :| name in todo;
        dict := dict[name := params[name]];
        todo := todo - {name};
      }
      assert dict == params;
      backups := backups[tag := dict];
    }

    method Copy(src: string, dst: string)
      requires Valid() && src in backups && dst in backups
      modifies this`backups
      ensures Valid() && backups == old(backups)[dst := old(backups)[src]]
    {
      var from, to := backups[src], backups[dst];
      var todo := to.Keys;
      while todo != {}
        invariant todo <= to.Keys == params.Keys
        invariant forall name :: name in to && name !in todo ==> to[name] == from[name]
        decreases todo
      {
        var name :| name in todo;
        to := to[name := from[name]];
        todo := todo - {name};
      }
      assert to == from;
      backups := backups[dst := to];
    }

    method Restore(tag: string)
      requires Valid() && tag in backups
      modifies this`params
      ensures Valid() && params == backups[tag]
    {
      var dict := backups[tag];
      var todo := params.Keys;
      while todo != {}
        invariant todo <= params.Keys == old(params).Keys
        invariant forall name :: name in params && name !in todo ==> params[name] == dict[name]
        decreases todo
      {
        var name :| name in todo;
        params := params[name := dict[name]];
        todo := todo - {name};
      }
      assert params == dict;
    }
  }

  // ---------------------------------------------------------------- rollouts and engines

  /**
    One rollout: the engine weights at its start and end, what waited in the buffer, its outcome, and what it left
    there.
   */
  datatype Rollout<W, B, D> = Rollout(id: nat, startedUnder: W, finishedUnder: W, waiting: B, outcome: D, left: B)

  /** The rollout function, given what waits in the buffer, the number of the rollout and the weights of the engines. */
  type Generate<!W, !B, !D> = (B, nat, W) -> (D, B)

  /** The rollout that runs from start to end under the same weights. */
  function Produced<W, B, D>(generate: Generate<W, B, D>, id: nat, waiting: B, weights: W): Rollout<W, B, D> {
    var (outcome, left) := generate(waiting, id, weights);
    Rollout(id, weights, weights, waiting, outcome, left)
  }

  /** The rollout manager, its buffer and its engines: at most one generation runs at a time. */
  class RolloutManager<W, B, D> {
    const generate: Generate<W, B, D>
    var engineWeights: W
    var running: Option<nat>
    var startedUnder: W
    var results: map<nat, Rollout<W, B, D>>
    var buffer: B

    constructor (initial: W, empty: B, generate: Generate<W, B, D>)
      ensures running == None && results == map[] && engineWeights == initial && buffer == empty
      ensures this.generate == generate
    {
      this.generate := generate;
      engineWeights, running, startedUnder, results, buffer := initial, None, initial, map[], empty;
    }

    /** `generate.remote(id)` */
    method Generate(id: nat)
      requires running == None && id !in results
      modifies this`running, this`startedUnder
      ensures running == Some(id) && startedUnder == engineWeights
    {
      running, startedUnder := Some(id), engineWeights;
    }

    /** What the rollout that runs returns when it is awaited now. */
    function Running(): Rollout<W, B, D>
      requires running.Some?
      reads this
    {
      Produced(generate, running.value, buffer, startedUnder).(finishedUnder := engineWeights)
    }

    /**
      Awaiting a future, by when its rollout has given groups back; awaiting a finished one again returns the same
      data.
     */
    method Await(id: nat) returns (data: Rollout<W, B, D>)
      requires running == Some(id) || id in results
      requires running == Some(id) ==> id !in results
      modifies this`running, this`results, this`buffer
      ensures id in results && data == results[id] && running == if old(running) == Some(id) then None else old(running)
      ensures results == if old(running) == Some(id) then old(results)[id := old(Running())] else old(results)
      ensures buffer == if old(running) == Some(id) then old(Running()).left else old(buffer)
    {
      if running == Some(id) {
        var (outcome, left) := generate(buffer, id, startedUnder);
        results := results[id := Rollout(id, startedUnder, engineWeights, buffer, outcome, left)];
        buffer, running := left, None;
      }
      data := results[id];
    }

    /** Receiving new weights; nothing may be generating. */
    method Push(weights: W)
      requires running == None
      modifies this`engineWeights
      ensures engineWeights == weights
    {
      engineWeights := weights;
    }
  }

  // ---------------------------------------------------------------- the actor

  datatype Args = Args(keepOldActor: bool, interval: nat, withRef: bool, refUpdateInterval: Option<nat>,
                       computeAdvantages: bool, useCritic: bool, numCriticOnlySteps: nat)
  {
    ghost predicate Valid() {
      interval > 0 && (refUpdateInterval.Some? ==> refUpdateInterval.value > 0)
    }

    /** Whether training on this rollout is followed by an update of the reference model. */
    ghost predicate RefDue(rolloutId: nat) {
      && refUpdateInterval.Some? && refUpdateInterval.value > 0
      && (rolloutId + 1) % refUpdateInterval.value == 0
    }
  }

  const ACTOR := "actor"
  const OLD_ACTOR := "old_actor"
  const ROLLOUT_ACTOR := "rollout_actor"
  const REF := "ref"

  /**
    What one training call used: the weights for the log-probs, the live weights at the optimizer step, and the weights
    for the reference log-probs.
   */
  datatype TrainRecord<W> = TrainRecord(logProbWeights: Option<W>, stepWeights: W, refWeights: Option<W>)

  /** The training update, given the live weights, the data and the log-prob weights. */
  type Step<!W, !R> = (W, R, Option<W>) -> W

  /** An optimizer step changes values, not the set of parameters. */
  ghost predicate KeepsNames<V(!new), R(!new)>(step: Step<Weights<V>, R>) {
    forall w, d, o :: step(w, d, o).Keys == w.Keys
  }

  class Actor<V(!new)> {
    const args: Args
    const backuper: TensorBackuper<V>
    var activeTag: string

    /** The state between calls: the newest actor is live and every tag the options need exists. */
    ghost predicate Ready()
      reads this, backuper
    {
      && args.Valid()
      && backuper.Valid() && activeTag == ACTOR
      && ACTOR in backuper.backups && backuper.params == backuper.backups[ACTOR]
      && (args.keepOldActor ==> OLD_ACTOR in backuper.backups)
      && (args.keepOldActor && args.interval == 1 ==> ROLLOUT_ACTOR in backuper.backups)
    }

    /** The newest weights. */
    function Newest(): Weights<V>
      requires Ready()
      reads this, backuper
    {
      backuper.backups[ACTOR]
    }

    function Snapshot(tag: string): Option<Weights<V>>
      reads this, backuper
    {
      if tag in backuper.backups then Some(backuper.backups[tag]) else None
    }

    /** The snapshot part of `init`: `loaded` is what `args.load` holds, `reference` what the reference path holds. */
    constructor (args: Args, initial: Weights<V>, loaded: Weights<V>, reference: Weights<V>)
      requires args.Valid()
      requires initial.Keys == loaded.Keys == reference.Keys
      ensures fresh(backuper) && this.args == args && Ready() && Newest() == initial
      ensures args.keepOldActor ==> Snapshot(OLD_ACTOR) == Some(loaded)
      ensures args.keepOldActor && args.interval == 1 ==> Snapshot(ROLLOUT_ACTOR) == Some(loaded)
      ensures Snapshot(REF) == if args.withRef then Some(reference) else None
    {
      this.args := args;
      backuper := new TensorBackuper(initial);
      activeTag := ACTOR;
      new;
      backuper.Backup(ACTOR);
      if args.withRef {
        LoadOtherCheckpoint(REF, reference);
      }
      if args.keepOldActor {
        LoadOtherCheckpoint(OLD_ACTOR, loaded);
        if args.interval == 1 {
          backuper.Backup(ROLLOUT_ACTOR);
        }
      }
      SwitchModel(ACTOR);
    }

    /** Loads foreign weights into the live model and snapshots them. */
    method LoadOtherCheckpoint(tag: string, checkpoint: Weights<V>)
      requires backuper.Valid() && checkpoint.Keys == backuper.params.Keys
      modifies this, backuper
      ensures backuper.Valid() && backuper.params == checkpoint && activeTag == tag
      ensures backuper.backups == old(backuper.backups)[tag := checkpoint]
    {
      backuper.params := checkpoint;
      backuper.Backup(tag);
      activeTag := tag;
    }

    /** `_switch_model`; an unknown tag is an error, excluded by every caller. */
    method SwitchModel(target: string)
      requires backuper.Valid() && target in backuper.backups
      modifies this, backuper
      ensures backuper.Valid() && backuper.backups == old(backuper.backups)
      ensures backuper.params == backuper.backups[target] && activeTag == target
    {
      backuper.Restore(target);
      activeTag := target;
    }

    /**
      `train_actor`: log-probs under the chosen snapshot, then the optimizer step on the newest weights.
      `step` is the whole training update, given the live weights, the data and the log-prob weights.
     */
    method TrainActor<R(!new)>(rolloutId: nat, data: R, step: Step<Weights<V>, R>)
      returns (record: TrainRecord<Weights<V>>)
      requires Ready()
      requires KeepsNames(step)
      modifies this, backuper
      ensures Ready() && record.stepWeights == old(Newest())
      ensures Newest() == step(old(Newest()), data, record.logProbWeights)
      ensures record.logProbWeights ==
        if !args.computeAdvantages then None
        else if args.keepOldActor then old(Snapshot(OLD_ACTOR)) else Some(old(Newest()))
      ensures Snapshot(OLD_ACTOR) == old(Snapshot(OLD_ACTOR)) && Snapshot(ROLLOUT_ACTOR) == old(Snapshot(ROLLOUT_ACTOR))
      ensures record.refWeights == if args.computeAdvantages then old(Snapshot(REF)) else None
      ensures Snapshot(REF)
           == if args.RefDue(rolloutId) && old(Snapshot(REF)).Some? then Some(Newest()) else old(Snapshot(REF))
    {
      var logProbWeights: Option<Weights<V>> := None;
      var refWeights: Option<Weights<V>> := None;
      if args.computeAdvantages {
        if REF in backuper.backups {
          SwitchModel(REF);
          refWeights := Some(backuper.params);
        }
        SwitchModel(if args.keepOldActor then OLD_ACTOR else ACTOR);
        logProbWeights := Some(backuper.params);
        if activeTag != ACTOR {
          SwitchModel(ACTOR);
        }
      }
      record := TrainRecord(logProbWeights, backuper.params, refWeights);
      backuper.params := step(backuper.params, data, logProbWeights);
      backuper.Backup(ACTOR);
      if args.refUpdateInterval.Some?
         && (rolloutId + 1) % args.refUpdateInterval.value == 0 && REF in backuper.backups {
        backuper.Backup(REF);
      }
    }

    /** `update_weights`: pushes the newest actor and moves the snapshot queue. */
    method UpdateWeights<B, D>(manager: RolloutManager<Weights<V>, B, D>)
      requires Ready() && manager.running == None
      modifies this, backuper, manager`engineWeights
      ensures Ready() && Newest() == old(Newest()) && manager.engineWeights == Newest()
      ensures args.keepOldActor ==>
        Snapshot(OLD_ACTOR) == if args.interval == 1 then old(Snapshot(ROLLOUT_ACTOR)) else Some(Newest())
      ensures args.keepOldActor && args.interval == 1 ==> Snapshot(ROLLOUT_ACTOR) == Some(Newest())
      ensures Snapshot(REF) == old(Snapshot(REF))
    {
      manager.Push(backuper.backups[ACTOR]);
      if args.keepOldActor {
        if args.interval == 1 {
          backuper.Copy(ROLLOUT_ACTOR, OLD_ACTOR);
          backuper.Backup(ROLLOUT_ACTOR);
        } else {
          backuper.Backup(OLD_ACTOR);
        }
      }
    }
  }

  // ---------------------------------------------------------------- which weights are where

  /** The iteration whose weights the engines hold at the top of iteration r: the latest one that ended in a push. */
  function LastPush(start: nat, r: nat, interval: nat): (p: nat)
    requires start <= r && interval > 0
    ensures start <= p <= r
    decreases r
  {
    if r == start || r % interval == 0 then r else LastPush(start, r - 1, interval)
  }

  /** Rollout r is generated while iteration r - 1 trains. */
  function GeneratedUnder(start: nat, r: nat, interval: nat): (p: nat)
    requires start <= r && interval > 0
    ensures start <= p <= r
  {
    if r == start then start else LastPush(start, r - 1, interval)
  }

  /** One iteration: which rollout it trained on, and how, if the actor was trained at all. */
  datatype Iteration<W, B, D> = Iteration(id: nat, data: Rollout<W, B, D>, trained: Option<TrainRecord<W>>)

  /**
    What a run is given: the options, the weights behind `old_actor` and `ref`, the first rollout, the update, and the
    rollouts.
   */
  datatype Setting<!W, !B, !D> = Setting(args: Args, loaded: W, reference: W, start: nat,
                                         step: Step<W, Rollout<W, B, D>>, empty: B, generate: Generate<W, B, D>)
  {
    ghost predicate Valid() {
      args.Valid()
    }

    /** Whether iteration r trains the actor. */
    predicate Trains(r: nat) {
      !args.useCritic || r >= args.numCriticOnlySteps
    }

    /** The newest actor at the top of iteration r. */
    function Current(versions: seq<W>, r: nat): W
      requires start <= r < start + |versions|
    {
      versions[r - start]
    }

    /** The weights the engines hold at the top of iteration r. */
    ghost function Pushed(versions: seq<W>, r: nat): W
      requires start <= r < start + |versions| && args.interval > 0
    {
      versions[LastPush(start, r, args.interval) - start]
    }

    /** The weights rollout r is generated under. */
    ghost function Generator(versions: seq<W>, r: nat): W
      requires start <= r < start + |versions| && args.interval > 0
    {
      versions[GeneratedUnder(start, r, args.interval) - start]
    }

    /** The snapshot `old_actor` holds at iteration r: `loaded` at first when the snapshot queue is used. */
    ghost function OldActorAt(versions: seq<W>, r: nat): W
      requires start <= r < start + |versions| && args.interval > 0
    {
      if args.interval == 1 then (if r == start then loaded else Current(versions, r - 1))
      else Pushed(versions, r)
    }

    /** The newest actor becomes the reference model at the end of iteration r. */
    ghost predicate RefMoves(r: nat) { args.RefDue(r) && Trains(r) }

    /** The weights of the reference model at iteration r. */
    ghost function RefAt(versions: seq<W>, r: nat): Option<W>
      requires start <= r < start + |versions|
      decreases r
    {
      if !args.withRef then None
      else if r == start then Some(reference)
      else if RefMoves(r - 1) then Some(Current(versions, r))
      else RefAt(versions, r - 1)
    }

    ghost function LogProbWeights(versions: seq<W>, r: nat): Option<W>
      requires start <= r < start + |versions| && args.interval > 0
    {
      if !args.computeAdvantages then None
      else if args.keepOldActor then Some(OldActorAt(versions, r))
      else Some(Current(versions, r))
    }
  }

  /** What waits in the buffer when rollout number `i` of a run starts. */
  ghost function Before<W, B, D>(log: seq<Iteration<W, B, D>>, s: Setting<W, B, D>, i: nat): B
    requires i <= |log|
  {
    if i == 0 then s.empty else log[i - 1].data.left
  }

  /**
    Entry r of the run: its own rollout under one version and after the one before, newest weights at the optimizer
    step.
   */
  ghost predicate IterationOk<W, B, D>(it: Iteration<W, B, D>, versions: seq<W>, s: Setting<W, B, D>, r: nat,
                                       waiting: B)
    requires s.start <= r && r - s.start + 1 < |versions| && s.args.interval > 0
  {
    var current, newest := s.Current(versions, r), s.Current(versions, r + 1);
    && it.id == r && it.data == Produced(s.generate, r, waiting, s.Generator(versions, r))
    && (it.trained.Some? <==> s.Trains(r))
    && (it.trained.None? ==> newest == current)
    && (it.trained.Some? ==>
          && it.trained.value.stepWeights == current
          && it.trained.value.logProbWeights == s.LogProbWeights(versions, r)
          && it.trained.value.refWeights == (if s.args.computeAdvantages then s.RefAt(versions, r) else None)
          && newest == s.step(current, it.data, it.trained.value.logProbWeights))
  }

  ghost predicate EntryOk<W, B, D>(log: seq<Iteration<W, B, D>>, versions: seq<W>, s: Setting<W, B, D>, i: nat)
    requires i < |log| && |versions| == |log| + 1 && s.args.interval > 0
  {
    IterationOk(log[i], versions, s, s.start + i, Before(log, s, i))
  }

  ghost predicate RunOk<W, B, D>(log: seq<Iteration<W, B, D>>, versions: seq<W>, s: Setting<W, B, D>) {
    && |versions| == |log| + 1 && s.args.interval > 0
    && forall i: nat :: i < |log| ==> EntryOk(log, versions, s, i)
  }

  // ---------------------------------------------------------------- the training loop

  /** State of the two futures at the top of iteration r. */
  ghost predicate NextIsReady<W, B, D>(manager: RolloutManager<W, B, D>, next: Option<nat>,
                                       curr: Option<Rollout<W, B, D>>, r: nat, generator: W, waiting: B)
    reads manager
  {
    && (forall id :: id in manager.results ==> id <= r)
    && ((&& next == Some(r) && manager.running == Some(r) && r !in manager.results
         && manager.startedUnder == manager.engineWeights == generator && manager.buffer == waiting)
        || (&& next == None && manager.running == None && r in manager.results
            && curr == Some(Produced(manager.generate, r, waiting, generator)) && manager.buffer == curr.value.left))
  }

  /** State of the futures while iteration r trains on `data`: the next rollout runs, if there is one. */
  ghost predicate NextIsRunning<W, B, D>(manager: RolloutManager<W, B, D>, next: Option<nat>, r: nat, numRollout: nat,
                                         data: Rollout<W, B, D>)
    reads manager
  {
    && (forall id :: id in manager.results ==> id <= r)
    && (r + 1 < numRollout ==> next == Some(r + 1) && manager.running == Some(r + 1))
    && (r + 1 >= numRollout ==> manager.running == None && (next.Some? ==> next.value in manager.results))
    && (manager.running.Some? ==> manager.startedUnder == manager.engineWeights)
    && manager.buffer == data.left
  }

  /** Waits for rollout r and starts rollout r + 1 early. */
  method SyncAndStart<W, B, D>(manager: RolloutManager<W, B, D>, next: Option<nat>, curr: Option<Rollout<W, B, D>>,
                               r: nat, numRollout: nat, ghost generator: W, ghost waiting: B)
    returns (next': Option<nat>, data: Rollout<W, B, D>)
    requires r < numRollout && NextIsReady(manager, next, curr, r, generator, waiting)
    modifies manager`running, manager`startedUnder, manager`results, manager`buffer
    ensures data == Produced(manager.generate, r, waiting, generator)
    ensures NextIsRunning(manager, next', r, numRollout, data)
  {
    var current := curr;
    next' := next;
    if next.Some? {
      var awaited := manager.Await(next.value);
      current := Some(awaited);
    }
    if r + 1 < numRollout {
      manager.Generate(r + 1);
      next' := Some(r + 1);
    }
    data := current.value;
  }

  /** Ends iteration r: every `interval` iterations the running rollout is awaited and the weights are pushed. */
  method PushIfDue<V(!new), B(!new), D(!new)>(actor: Actor<V>, manager: RolloutManager<Weights<V>, B, D>,
                                              next: Option<nat>, curr: Rollout<Weights<V>, B, D>, r: nat,
                                              numRollout: nat)
    returns (next': Option<nat>, curr': Option<Rollout<Weights<V>, B, D>>)
    requires actor.Ready() && NextIsRunning(manager, next, r, numRollout, curr)
    modifies actor, actor.backuper, manager
    ensures actor.Ready() && actor.Newest() == old(actor.Newest())
    ensures (r + 1) % actor.args.interval != 0 ==>
      && manager.engineWeights == old(manager.engineWeights)
      && actor.Snapshot(OLD_ACTOR) == old(actor.Snapshot(OLD_ACTOR))
      && actor.Snapshot(ROLLOUT_ACTOR) == old(actor.Snapshot(ROLLOUT_ACTOR))
    ensures actor.Snapshot(REF) == old(actor.Snapshot(REF))
    ensures (r + 1) % actor.args.interval == 0 ==>
      && manager.engineWeights == actor.Newest()
      && (actor.args.keepOldActor ==>
            actor.Snapshot(OLD_ACTOR)
            == if actor.args.interval == 1 then old(actor.Snapshot(ROLLOUT_ACTOR)) else Some(actor.Newest()))
      && (actor.args.keepOldActor && actor.args.interval == 1 ==> actor.Snapshot(ROLLOUT_ACTOR) == Some(actor.Newest()))
    ensures r + 1 < numRollout ==> NextIsReady(manager, next', curr', r + 1, old(manager.engineWeights), curr.left)
  {
    next', curr' := next, Some(curr);
    if (r + 1) % actor.args.interval == 0 {
      if next.Some? {
        var awaited := manager.Await(next.value);
        curr' := Some(awaited);
      } else {
        curr' := None;
      }
      next' := None;
      actor.UpdateWeights(manager);
    }
  }

  ghost predicate SnapshotsOk<V(!new), B(!new), D(!new)>(actor: Actor<V>, versions: seq<Weights<V>>,
          s: Setting<Weights<V>, B, D>, r: nat)
    requires s.args.interval > 0 && s.start <= r < s.start + |versions|
    reads actor, actor.backuper
  {
    s.args.keepOldActor ==>
      && actor.Snapshot(OLD_ACTOR) == Some(s.OldActorAt(versions, r))
      && (s.args.interval == 1 ==> actor.Snapshot(ROLLOUT_ACTOR) == Some(s.Current(versions, r)))
  }

  ghost predicate RefOk<V(!new), B(!new), D(!new)>(actor: Actor<V>, versions: seq<Weights<V>>,
                                                   s: Setting<Weights<V>, B, D>, r: nat)
    requires s.start <= r < s.start + |versions|
    reads actor, actor.backuper
  {
    actor.Snapshot(REF) == s.RefAt(versions, r)
  }

  lemma {:induction false} RefStays<W, B, D>(versions: seq<W>, s: Setting<W, B, D>, r: nat, newest: W)
    requires s.start <= r < s.start + |versions|
    ensures s.RefAt(versions + [newest], r) == s.RefAt(versions, r)
    ensures s.RefAt(versions, r).Some? <==> s.args.withRef
    decreases r
  {
    if r > s.start { RefStays(versions, s, r - 1, newest); }
  }

  /** Appending an iteration does not change what was said about the earlier ones. */
  lemma {:induction false} RunOkSnoc<W, B, D>(log: seq<Iteration<W, B, D>>, versions: seq<W>, s: Setting<W, B, D>,
                                              it: Iteration<W, B, D>, newest: W)
    requires RunOk(log, versions, s)
    requires IterationOk(it, versions + [newest], s, s.start + |log|, Before(log, s, |log|))
    ensures RunOk(log + [it], versions + [newest], s)
  {
    var log', versions' := log + [it], versions + [newest];
    forall i: nat | i < |log'| ensures EntryOk(log', versions', s, i) {
      assert Before(log', s, i) == Before(log, s, i);
      if i < |log| {
        assert EntryOk(log, versions, s, i);
        EntryStays(log[i], versions, s, s.start + i, Before(log, s, i), newest);
      }
      assert IterationOk(log'[i], versions', s, s.start + i, Before(log', s, i));
    }
  }

  lemma {:induction false} EntryStays<W, B, D>(it: Iteration<W, B, D>, versions: seq<W>, s: Setting<W, B, D>, r: nat,
                                         waiting: B, newest: W)
    requires s.start <= r && r - s.start + 1 < |versions| && s.args.interval > 0
    requires IterationOk(it, versions, s, r, waiting)
    ensures IterationOk(it, versions + [newest], s, r, waiting)
  {
    assert s.Generator(versions + [newest], r) == s.Generator(versions, r);
    assert s.LogProbWeights(versions + [newest], r) == s.LogProbWeights(versions, r);
    RefStays(versions, s, r, newest);
  }

  /** The training half of iteration r. */
  method TrainOne<V(!new), B(!new), D(!new)>(actor: Actor<V>, r: nat, data: Rollout<Weights<V>, B, D>,
                                             versions: seq<Weights<V>>, s: Setting<Weights<V>, B, D>, ghost waiting: B)
    returns (it: Iteration<Weights<V>, B, D>)
    requires KeepsNames(s.step) && actor.Ready() && actor.args == s.args && s.start <= r
    requires |versions| == r - s.start + 1
    requires actor.Newest() == s.Current(versions, r) && SnapshotsOk(actor, versions, s, r)
    requires RefOk(actor, versions, s, r)
    requires data == Produced(s.generate, r, waiting, s.Generator(versions, r))
    modifies actor, actor.backuper
    ensures actor.Ready() && IterationOk(it, versions + [actor.Newest()], s, r, waiting) && it.data == data
    ensures actor.Snapshot(OLD_ACTOR) == old(actor.Snapshot(OLD_ACTOR))
    ensures actor.Snapshot(ROLLOUT_ACTOR) == old(actor.Snapshot(ROLLOUT_ACTOR))
    ensures RefOk(actor, versions + [actor.Newest()], s, r + 1)
  {
    var trained: Option<TrainRecord<Weights<V>>> := None;
    if !s.args.useCritic || r >= s.args.numCriticOnlySteps {
      var record := actor.TrainActor(r, data, s.step);
      trained := Some(record);
    }
    it := Iteration(r, data, trained);
    RefStays(versions, s, r, actor.Newest());
  }

  /** The pushing half of iteration r, in terms of the versions: `versions` already ends with the newest actor. */
  method FinishIteration<V(!new), B(!new), D(!new)>(actor: Actor<V>, manager: RolloutManager<Weights<V>, B, D>,
          next: Option<nat>, curr: Rollout<Weights<V>, B, D>, r: nat, numRollout: nat, ghost versions: seq<Weights<V>>,
          ghost s: Setting<Weights<V>, B, D>)
    returns (next': Option<nat>, curr': Option<Rollout<Weights<V>, B, D>>)
    requires actor.Ready() && actor.args == s.args && NextIsRunning(manager, next, r, numRollout, curr)
    requires s.start <= r && |versions| == r - s.start + 2 && actor.Newest() == s.Current(versions, r + 1)
    requires SnapshotsOk(actor, versions, s, r) && RefOk(actor, versions, s, r + 1)
    requires manager.engineWeights == s.Pushed(versions, r)
    modifies actor, actor.backuper, manager
    ensures actor.Ready() && actor.Newest() == old(actor.Newest())
    ensures SnapshotsOk(actor, versions, s, r + 1) && RefOk(actor, versions, s, r + 1)
    ensures manager.engineWeights == s.Pushed(versions, r + 1)
    ensures r + 1 < numRollout ==> NextIsReady(manager, next', curr', r + 1, s.Generator(versions, r + 1), curr.left)
  {
    if actor.args.interval == 1 { assert (r + 1) % 1 == 0; }
    next', curr' := PushIfDue(actor, manager, next, curr, r, numRollout);
  }

  /** What holds at the top of iteration r, before whose rollout `waiting` is in the buffer. */
  ghost predicate LoopState<V(!new), B(!new), D(!new)>(actor: Actor<V>, manager: RolloutManager<Weights<V>, B, D>,
          next: Option<nat>, curr: Option<Rollout<Weights<V>, B, D>>, versions: seq<Weights<V>>,
          s: Setting<Weights<V>, B, D>, r: nat, numRollout: nat, waiting: B)
    reads actor, actor.backuper, manager
  {
    && s.start <= r && |versions| == r - s.start + 1 && actor.args == s.args && manager.generate == s.generate
    && actor.Ready() && actor.Newest() == s.Current(versions, r)
    && manager.engineWeights == s.Pushed(versions, r)
    && SnapshotsOk(actor, versions, s, r) && RefOk(actor, versions, s, r)
    && (r < numRollout ==> NextIsReady(manager, next, curr, r, s.Generator(versions, r), waiting))
  }

  method Iterate<V(!new), B(!new), D(!new)>(actor: Actor<V>, manager: RolloutManager<Weights<V>, B, D>,
                                            next: Option<nat>, curr: Option<Rollout<Weights<V>, B, D>>,
                                            versions: seq<Weights<V>>, s: Setting<Weights<V>, B, D>, r: nat,
                                            numRollout: nat, ghost waiting: B)
    returns (next': Option<nat>, curr': Option<Rollout<Weights<V>, B, D>>, it: Iteration<Weights<V>, B, D>,
             newest: Weights<V>)
    requires KeepsNames(s.step) && r < numRollout
    requires LoopState(actor, manager, next, curr, versions, s, r, numRollout, waiting)
    modifies actor, actor.backuper, manager
    ensures IterationOk(it, versions + [newest], s, r, waiting)
    ensures LoopState(actor, manager, next', curr', versions + [newest], s, r + 1, numRollout, it.data.left)
  {
    var data;
    next', data := SyncAndStart(manager, next, curr, r, numRollout, s.Generator(versions, r), waiting);
    it := TrainOne(actor, r, data, versions, s, waiting);
    newest := actor.Newest();
    next', curr' := FinishIteration(actor, manager, next', data, r, numRollout, versions + [newest], s);
  }

  /** One pass of the loop. */
  method Advance<V(!new), B(!new), D(!new)>(actor: Actor<V>, manager: RolloutManager<Weights<V>, B, D>,
                                            next: Option<nat>, curr: Option<Rollout<Weights<V>, B, D>>,
                                            log: seq<Iteration<Weights<V>, B, D>>, versions: seq<Weights<V>>,
                                            s: Setting<Weights<V>, B, D>, r: nat, numRollout: nat)
    returns (next': Option<nat>, curr': Option<Rollout<Weights<V>, B, D>>, log': seq<Iteration<Weights<V>, B, D>>,
             versions': seq<Weights<V>>)
    requires KeepsNames(s.step) && r < numRollout
    requires RunOk(log, versions, s) && |log| == r - s.start
    requires LoopState(actor, manager, next, curr, versions, s, r, numRollout, Before(log, s, |log|))
    modifies actor, actor.backuper, manager
    ensures RunOk(log', versions', s) && |log'| == r + 1 - s.start && versions'[0] == versions[0]
    ensures LoopState(actor, manager, next', curr', versions', s, r + 1, numRollout, Before(log', s, |log'|))
  {
    var it, newest;
    next', curr', it, newest := Iterate(actor, manager, next, curr, versions, s, r, numRollout, Before(log, s, |log|));
    RunOkSnoc(log, versions, s, it, newest);
    log', versions' := log + [it], versions + [newest];
    assert Before(log', s, |log'|) == it.data.left;
  }

  /** Everything before the loop: the initial push and the first generation. */
  method StartUp<V(!new), B(!new), D(!new)>(s: Setting<Weights<V>, B, D>, initial: Weights<V>,
                                            engineInitial: Weights<V>, numRollout: nat)
    returns (actor: Actor<V>, manager: RolloutManager<Weights<V>, B, D>)
    requires s.Valid() && initial.Keys == s.loaded.Keys == s.reference.Keys
    ensures fresh(actor) && fresh(actor.backuper) && fresh(manager)
    ensures LoopState(actor, manager, Some(s.start), None, [initial], s, s.start, numRollout, s.empty)
  {
    actor := new Actor(s.args, initial, s.loaded, s.reference);
    manager := new RolloutManager(engineInitial, s.empty, s.generate);
    actor.UpdateWeights(manager);
    manager.Generate(s.start);
  }

  /**
    `train(args)`.  `versions[i]` is the newest actor after i iterations; the contract pins down for
    every iteration the rollout with what waited in the buffer before it, the weights that rollout ran under, the
    weights used for the log-probs and the weights the optimizer step started from.
   */
  method TrainAsync<V(!new), B(!new), D(!new)>(s: Setting<Weights<V>, B, D>, initial: Weights<V>,
                                               engineInitial: Weights<V>, numRollout: nat)
    returns (log: seq<Iteration<Weights<V>, B, D>>, versions: seq<Weights<V>>)
    requires s.Valid() && initial.Keys == s.loaded.Keys == s.reference.Keys
    requires KeepsNames(s.step)
    ensures |log| == if s.start < numRollout then numRollout - s.start else 0
    ensures versions != [] && versions[0] == initial
    ensures RunOk(log, versions, s)
  {
    var actor, manager := StartUp(s, initial, engineInitial, numRollout);
    log, versions := [], [initial];
    var next: Option<nat> := Some(s.start);
    var curr: Option<Rollout<Weights<V>, B, D>> := None;
    var r := s.start;
    while r < numRollout
      invariant r <= numRollout || r == s.start
      invariant fresh(actor) && fresh(actor.backuper) && fresh(manager)
      invariant RunOk(log, versions, s) && |log| == r - s.start && versions[0] == initial
      invariant LoopState(actor, manager, next, curr, versions, s, r, numRollout, Before(log, s, |log|))
      decreases numRollout - r
    {
      next, curr, log, versions := Advance(actor, manager, next, curr, log, versions, s, r, numRollout);
      r := r + 1;
    }
  }

  // ---------------------------------------------------------------- how old the generating weights are

  lemma {:induction false} PushIsRecent(start: nat, r: nat, m: nat)
    requires start <= r && m > 0
    ensures r - LastPush(start, r, m) <= r % m < m
    decreases r
  {
    if r > start && r % m != 0 {
      RemainderPred(r, m);
      PushIsRecent(start, r - 1, m);
    }
  }

  /** The engines are at most `interval` iterations behind the actor that trains on what they generate. */
  lemma StalenessBound(start: nat, r: nat, m: nat)
    requires start <= r && m > 0
    ensures r - GeneratedUnder(start, r, m) <= m
    ensures r > start && m == 1 ==> r - GeneratedUnder(start, r, m) == 1
  {
    if r > start { PushIsRecent(start, r - 1, m); }
  }

  /** Without the queue the snapshot is the generating version except right after a push, when it is newer. */
  lemma SnapshotMatchesUnlessPushed(start: nat, r: nat, m: nat)
    requires start <= r && m > 1
    ensures LastPush(start, r, m) == GeneratedUnder(start, r, m) <==> r == start || r % m != 0
    ensures LastPush(start, r, m) != GeneratedUnder(start, r, m) ==> LastPush(start, r, m) == r
  {
  }

  /**
    With the snapshot queue (`keep_old_actor`, interval one) the weights used for the old log-probs are
    the weights the rollout ran under, in every iteration after the first; in the first one exactly
    when the checkpoint behind `old_actor` holds the same weights as the actor started from.
   */
  lemma OldLogProbsUseGenerator<W, B, D>(log: seq<Iteration<W, B, D>>, versions: seq<W>, s: Setting<W, B, D>, i: nat)
    requires RunOk(log, versions, s) && i < |log|
    requires s.args.keepOldActor && s.args.computeAdvantages && s.args.interval == 1 && log[i].trained.Some?
    ensures i > 0 ==> log[i].trained.value.logProbWeights == Some(log[i].data.startedUnder)
    ensures i == 0 ==>
      (log[i].trained.value.logProbWeights == Some(log[i].data.startedUnder) <==> s.loaded == versions[0])
    ensures log[i].data.startedUnder == log[i].data.finishedUnder
    ensures log[i].trained.value.stepWeights == versions[i]
  {
    assert EntryOk(log, versions, s, i);
    if i > 0 { StalenessBound(s.start, s.start + i, 1); }
  }

  /** So over a whole run: every iteration uses the rollout's weights if and only if the checkpoints agree. */
  lemma OldLogProbsOverRun<W, B, D>(log: seq<Iteration<W, B, D>>, versions: seq<W>, s: Setting<W, B, D>)
    requires RunOk(log, versions, s) && log != [] && log[0].trained.Some?
    requires s.args.keepOldActor && s.args.computeAdvantages && s.args.interval == 1
    ensures (forall i :: 0 <= i < |log| && log[i].trained.Some? ==>
               log[i].trained.value.logProbWeights == Some(log[i].data.startedUnder))
            <==> s.loaded == versions[0]
  {
    forall i | 0 <= i < |log| && log[i].trained.Some?
      ensures i > 0 ==> log[i].trained.value.logProbWeights == Some(log[i].data.startedUnder)
      ensures i == 0 ==>
        (log[i].trained.value.logProbWeights == Some(log[i].data.startedUnder) <==> s.loaded == versions[0])
    {
      OldLogProbsUseGenerator(log, versions, s, i);
    }
  }

  /**
    With a longer interval there is no queue: outside the iterations that follow a push the snapshot is
    again the version the rollout ran under, and in those (first one excepted) it is the version just pushed.
   */
  lemma LongerIntervalSnapshot<W, B, D>(log: seq<Iteration<W, B, D>>, versions: seq<W>, s: Setting<W, B, D>, i: nat)
    requires RunOk(log, versions, s) && i < |log|
    requires s.args.keepOldActor && s.args.computeAdvantages && s.args.interval > 1 && log[i].trained.Some?
    ensures i == 0 || (s.start + i) % s.args.interval != 0 ==>
      log[i].trained.value.logProbWeights == Some(log[i].data.startedUnder)
    ensures i > 0 && (s.start + i) % s.args.interval == 0 ==>
      log[i].trained.value.logProbWeights == Some(log[i].trained.value.stepWeights)
  {
    assert EntryOk(log, versions, s, i);
    SnapshotMatchesUnlessPushed(s.start, s.start + i, s.args.interval);
  }

  /** Iteration i trains on its own rollout, which ran under one version at most `interval` iterations old. */
  lemma EveryIterationFresh<W, B, D>(log: seq<Iteration<W, B, D>>, versions: seq<W>, s: Setting<W, B, D>, i: nat)
    returns (v: nat)
    requires RunOk(log, versions, s) && i < |log|
    ensures log[i].id == s.start + i && log[i].data.id == s.start + i
    ensures v <= i <= v + s.args.interval && log[i].data.startedUnder == log[i].data.finishedUnder == versions[v]
  {
    assert EntryOk(log, versions, s, i);
    StalenessBound(s.start, s.start + i, s.args.interval);
    v := GeneratedUnder(s.start, s.start + i, s.args.interval) - s.start;
  }

  // ---------------------------------------------------------------- entries of a run

  /** At a due update the newest actor becomes the reference model, and it stays that until the next one. */
  lemma {:induction false} RefSince<W, B, D>(versions: seq<W>, s: Setting<W, B, D>, u: nat, r: nat)
    requires s.start < u <= r < s.start + |versions| && s.args.withRef && s.RefMoves(u - 1)
    requires forall t: nat :: u <= t < r ==> !s.RefMoves(t)
    ensures s.RefAt(versions, r) == Some(s.Current(versions, u))
    decreases r
  {
    if r > u { RefSince(versions, s, u, r - 1); }
  }

  /** Before the first one it is what the reference checkpoint holds. */
  lemma {:induction false} RefAtFirst<W, B, D>(versions: seq<W>, s: Setting<W, B, D>, r: nat)
    requires s.start <= r < s.start + |versions| && s.args.withRef
    requires forall t: nat :: s.start <= t < r ==> !s.RefMoves(t)
    ensures s.RefAt(versions, r) == Some(s.reference)
    decreases r
  {
    if r > s.start { RefAtFirst(versions, s, r - 1); }
  }

  /** The rollout of iteration i, in terms of what waited before it. */
  lemma {:induction false} EntryIsProduced<W, B, D>(log: seq<Iteration<W, B, D>>, versions: seq<W>, s: Setting<W, B, D>,
          i: nat)
    requires RunOk(log, versions, s) && i < |log|
    ensures log[i].data == Produced(s.generate, s.start + i, Before(log, s, i), s.Generator(versions, s.start + i))
    ensures log[i].data.startedUnder == s.Generator(versions, s.start + i) && Before(log, s, i + 1) == log[i].data.left
  {
    assert EntryOk(log, versions, s, i);
  }

  /** In terms of the weights it started under, and of what it left. */
  lemma {:induction false} EntryStarts<W, B, D>(log: seq<Iteration<W, B, D>>, versions: seq<W>, s: Setting<W, B, D>,
                                                i: nat)
    requires RunOk(log, versions, s) && i < |log|
    ensures log[i].data == Produced(s.generate, s.start + i, Before(log, s, i), log[i].data.startedUnder)
    ensures Before(log, s, i + 1) == Produced(s.generate, s.start + i, Before(log, s, i), log[i].data.startedUnder).left
    ensures i == 0 ==> log[i].data.startedUnder == versions[0] && Before(log, s, i) == s.empty
  {
    EntryIsProduced(log, versions, s, i);
  }

  /** What the first rollout leaves in the buffer and later ones keep there waits for all of them. */
  lemma {:induction false} StaysUntil<W, B, D>(log: seq<Iteration<W, B, D>>, versions: seq<W>, s: Setting<W, B, D>,
                                               waits: B -> bool, n: nat, i: nat)
    requires RunOk(log, versions, s) && 0 < i <= n && i <= |log|
    requires waits(Produced(s.generate, s.start, s.empty, versions[0]).left)
    requires forall r: nat, waiting, weights :: s.start < r < s.start + n && waits(waiting) ==>
      waits(Produced(s.generate, r, waiting, weights).left)
    ensures waits(Before(log, s, i))
    decreases i
  {
    EntryStarts(log, versions, s, i - 1);
    if i > 1 { StaysUntil(log, versions, s, waits, n, i - 1); }
  }

  /** There is a run of any length. */
  lemma {:induction false} RunExists<W, B, D>(s: Setting<W, B, D>, initial: W, n: nat)
    returns (log: seq<Iteration<W, B, D>>, versions: seq<W>)
    requires s.args.interval > 0
    ensures RunOk(log, versions, s) && |log| == n && versions[0] == initial
    decreases n
  {
    if n == 0 {
      log, versions := [], [initial];
    } else {
      log, versions := RunExists(s, initial, n - 1);
      var r := s.start + n - 1;
      var data := Produced(s.generate, r, Before(log, s, n - 1), s.Generator(versions, r));
      var logProbWeights := s.LogProbWeights(versions, r);
      var refWeights := if s.args.computeAdvantages then s.RefAt(versions, r) else None;
      var newest := if s.Trains(r) then s.step(versions[n - 1], data, logProbWeights) else versions[n - 1];
      var trained := if s.Trains(r) then Some(TrainRecord(logProbWeights, versions[n - 1], refWeights)) else None;
      var it := Iteration(r, data, trained);
      RefStays(versions, s, r, newest);
      assert IterationOk(it, versions + [newest], s, r, Before(log, s, n - 1));
      RunOkSnoc(log, versions, s, it, newest);
      log, versions := log + [it], versions + [newest];
    }
  }

  /**
    The smallest case of a snapshot newer than the generating weights: with an interval of two, iteration 2 trains on
    data generated under version 0 and takes its log-probs under version 2, which was just pushed.
   */
  lemma {:induction false} LongerIntervalExample() returns (log: seq<Iteration<int, bool, bool>>, versions: seq<int>)
    ensures |log| == 3 && log[2].trained.Some?
    ensures log[2].data.startedUnder == 0 && log[2].trained.value.logProbWeights == Some(2)
  {
    var s := Setting(Args(true, 2, false, None, true, false, 0), 0, 0, 0, (w, data, logProbWeights) => w + 1,
                     false, (waiting, id, weights) => (false, false));
    log, versions := RunExists(s, 0, 3);
    VersionsOfExample(log, versions, s);
    EntryIsProduced(log, versions, s, 2);
    assert EntryOk(log, versions, s, 2);
    assert LastPush(0, 2, 2) == 2 && LastPush(0, 1, 2) == LastPush(0, 0, 2) == 0;
  }

  lemma {:induction false} VersionsOfExample(log: seq<Iteration<int, bool, bool>>, versions: seq<int>,
                                             s: Setting<int, bool, bool>)
    requires RunOk(log, versions, s) && |log| == 3 && versions[0] == 0 && s.start == 0 && !s.args.useCritic
    requires forall w, data, logProbWeights :: s.step(w, data, logProbWeights) == w + 1
    ensures versions[1] == 1 && versions[2] == 2
  {
    assert EntryOk(log, versions, s, 0) && EntryOk(log, versions, s, 1);
  }
}
