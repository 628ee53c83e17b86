/**
  The life of one sample through generation, abort, requeueing, stripping and retry: `generate` and
  `generate_and_rm` of `miles/rollout/sglang_rollout.py`, and the methods of `Sample` in `miles/utils/types.py`.

  The engine is an oracle that keeps its side: it emits no more tokens than it is allowed, decodes tokens to text
  that is empty only for no tokens, and returns one row of routed experts for every token but the first, if asked.
 */
module SampleLifecycle {
  import opened Arith
  import opened Options

  datatype Status = Pending | Completed | Truncated | Aborted | Failed

  datatype Finish = Length | Abort | Stop | Other

  datatype Reply = Reply(logProbs: Option<seq<(real, int)>>, text: string, finish: Finish,
                         routedExperts: Option<seq<int>>)

  /**
    `rollout_max_response_len`, `partial_rollout`, `mask_offpolicy_in_partial_rollout`, `group_rm`,
    `use_rollout_routing_replay`
   */
  datatype Args = Args(cap: nat, partial: bool, maskOffPolicy: bool, groupRm: bool, replay: bool) {
    predicate Masking() { partial && maskOffPolicy }
  }

  predicate Finished(status: Status) {
    status == Completed || status == Truncated
  }

  function NewTokens(r: Reply): seq<int> {
    if r.logProbs.None? then []
    else seq(|r.logProbs.value|, i requires 0 <= i < |r.logProbs.value| => r.logProbs.value[i].1)
  }

  function NewLogProbs(r: Reply): (p: seq<real>)
    ensures |p| == |NewTokens(r)|
  {
    if r.logProbs.None? then []
    else seq(|r.logProbs.value|, i requires 0 <= i < |r.logProbs.value| => r.logProbs.value[i].0)
  }

  /** The engine's side of a request for at most `budget` tokens after `input`. */
  predicate Respects(args: Args, r: Reply, input: seq<int>, budget: nat) {
    && |NewTokens(r)| <= budget && (r.text == "" <==> NewTokens(r) == [])
    && (r.routedExperts.Some? <==> args.replay && |input| + |NewTokens(r)| > 0)
    && (r.routedExperts.Some? ==> |r.routedExperts.value| + 1 == |input| + |NewTokens(r)|)
  }

  /** An engine answers a request; the call number lets it answer the same request differently. */
  type Engine = (nat, seq<int>, nat) -> Reply

  ghost predicate KeepsItsSide(args: Args, engine: Engine) {
    forall call, input, budget :: Respects(args, engine(call, input, budget), input, budget)
  }

  /** The tokenizer decodes to an empty text only the empty list. */
  ghost predicate Decodes(decode: seq<int> -> string) {
    forall tokens :: decode(tokens) == "" <==> tokens == []
  }

  function Repeat(x: int, n: nat): (s: seq<int>)
    ensures |s| == n && forall i :: 0 <= i < n ==> s[i] == x
  {
    seq(n, _ => x)
  }

  /** Zeros for what earlier calls generated, ones for the newest call's tokens. */
  function NewestMask(length: nat, before: nat): (m: seq<int>)
    requires before <= length
    ensures |m| == length
  {
    Repeat(0, before) + Repeat(1, length - before)
  }

  lemma {:induction false} MaskGrows(length: nat, before: nat, more: nat)
    requires before <= length
    ensures NewestMask(length, before) + Repeat(1, more) == NewestMask(length + more, before)
  {
  }

  lemma {:induction false} MaskShrinks(length: nat, before: nat, n: nat)
    requires before <= length && n <= length
    ensures NewestMask(length, before)[..length - n] == NewestMask(length - n, Min(before, length - n))
  {
  }

  lemma {:induction false} RepeatMore(x: int, n: nat, m: nat)
    ensures Repeat(x, n) + Repeat(x, m) == Repeat(x, n + m)
  {
  }

  // ---------------------------------------------------------------- what generation leaves on a sample

  /** The generated fields; `before` is the response length at the start of the newest `generate_and_rm` call. */
  datatype Output = Output(tokens: seq<int>, response: string, responseLength: nat, lossMask: Option<seq<int>>,
                           logProbs: Option<seq<real>>, routedExperts: Option<seq<int>>, before: nat)
  {
    /** The mask that training uses: without one every response token counts. */
    ghost function EffectiveMask(): seq<int> {
      if lossMask.Some? then lossMask.value else Repeat(1, responseLength)
    }

    /** Nothing yet, or the prompt and as many tokens as the response is long. */
    ghost predicate TokensOk(prompt: seq<int>) {
      if tokens == [] then responseLength == 0
      else |tokens| == |prompt| + responseLength && tokens[..|prompt|] == prompt
    }

    ghost predicate LengthsOk(args: Args) {
      && responseLength <= args.cap && (response == "" <==> responseLength == 0)
      && (if logProbs.Some? then |logProbs.value| == responseLength else responseLength == 0)
      && (routedExperts.Some? ==> args.replay && |routedExperts.value| + 1 == |tokens|)
    }

    /** Under masking the ones are exactly the newest call's tokens, and otherwise there is no mask. */
    ghost predicate MaskOk(args: Args) {
      && before <= responseLength && (lossMask.Some? ==> args.Masking())
      && (args.Masking() ==> EffectiveMask() == NewestMask(responseLength, before))
    }

    ghost predicate Shaped(args: Args, prompt: seq<int>) {
      TokensOk(prompt) && LengthsOk(args) && MaskOk(args)
    }

    /** What a request continues: the sample's tokens once there is a response, else the prompt. */
    function Input(prompt: seq<int>): seq<int> {
      if response != "" then tokens else prompt
    }

    /** How many tokens a request may still ask for. */
    function Budget(args: Args, prompt: seq<int>): int {
      if response != "" then args.cap - (|tokens| - |prompt|) else args.cap
    }

    /** A reply appended. */
    function Absorb(prompt: seq<int>, r: Reply): Output {
      Output(
        (if tokens == [] then prompt else tokens) + NewTokens(r), response + r.text, responseLength + |NewTokens(r)|,
        if lossMask.Some? then Some(lossMask.value + Repeat(1, |NewTokens(r)|)) else None,
        Some((if logProbs.Some? then logProbs.value else []) + NewLogProbs(r)),
        if r.routedExperts.Some? then r.routedExperts else routedExperts, before)
    }

    /** What earlier calls generated, masked. */
    function MaskEarlier(args: Args): Output {
      this.(lossMask := if args.Masking() && responseLength > 0 then Some(Repeat(0, responseLength)) else lossMask,
            before := responseLength)
    }

    /** Without its last `n` response tokens. */
    function Strip(n: nat, decode: seq<int> -> string): Output
      requires n <= responseLength <= |tokens|
    {
      var left := responseLength - n;
      var tokens' := tokens[..|tokens| - n];
      if n == 0 then this else
        Output(tokens', if left > 0 then decode(tokens'[|tokens'| - left..]) else "", left,
               DropLast(lossMask, n), DropLast(logProbs, n), DropLast(routedExperts, n), Min(before, left))
    }
  }

  /** A slice that ends `n` before the end, if there is anything to slice. */
  function DropLast<T>(s: Option<seq<T>>, n: nat): Option<seq<T>> {
    if s.None? then None else Some(if n <= |s.value| then s.value[..|s.value| - n] else [])
  }

  const BLANK := Output([], "", 0, None, None, None, 0)

  /** On a shaped sample a request continues exactly its tokens, or the prompt, and may ask for the rest of the cap. */
  lemma {:induction false} RequestContinues(args: Args, prompt: seq<int>, v: Output)
    requires v.Shaped(args, prompt)
    ensures v.Input(prompt) == if v.tokens == [] then prompt else v.tokens
    ensures v.Budget(args, prompt) == args.cap - v.responseLength >= 0
  {
    if v.response == "" && v.tokens != [] { assert v.tokens[..|prompt|] == v.tokens; }
  }

  /**
    A reply keeps the shape, and what the engine continued is what the sample then holds: nothing is tokenized again.
   */
  lemma {:induction false} AbsorbKeepsShape(args: Args, prompt: seq<int>, v: Output, r: Reply)
    requires v.Shaped(args, prompt) && Respects(args, r, v.Input(prompt), v.Budget(args, prompt))
    ensures v.Absorb(prompt, r).Shaped(args, prompt)
    ensures v.Absorb(prompt, r).tokens == v.Input(prompt) + NewTokens(r)
  {
    RequestContinues(args, prompt, v);
    AbsorbKeepsMask(args, prompt, v, r);
    var after := v.Absorb(prompt, r);
    assert after.TokensOk(prompt) by {
      assert after.tokens[..|prompt|] == (v.Input(prompt))[..|prompt|];
    }
  }

  lemma {:induction false} AbsorbKeepsMask(args: Args, prompt: seq<int>, v: Output, r: Reply)
    requires v.MaskOk(args)
    ensures v.Absorb(prompt, r).MaskOk(args)
  {
    MaskGrows(v.responseLength, v.before, |NewTokens(r)|);
    RepeatMore(1, v.responseLength, |NewTokens(r)|);
  }

  lemma {:induction false} MaskEarlierKeepsShape(args: Args, prompt: seq<int>, v: Output)
    requires v.Shaped(args, prompt)
    ensures v.MaskEarlier(args).Shaped(args, prompt)
  {
  }

  /** Stripping keeps the shape, for routed experts exactly when a token is left. */
  lemma {:induction false} StripKeepsShape(args: Args, prompt: seq<int>, v: Output, n: nat, decode: seq<int> -> string)
    requires v.Shaped(args, prompt) && n <= v.responseLength && Decodes(decode)
    ensures v.Strip(n, decode).Shaped(args, prompt) <==> (v.routedExperts.Some? ==> n < |v.tokens|)
    ensures prompt != [] ==> v.Strip(n, decode).Shaped(args, prompt)
  {
    var after := v.Strip(n, decode);
    if n > 0 {
      assert after.tokens != [] ==> after.tokens[..|prompt|] == v.tokens[..|prompt|];
      if args.Masking() { StripKeepsMask(args, v, n); }
    }
  }

  /** Stripping what a reply added to a response gives the response back. */
  lemma {:induction false} StripUndoes(args: Args, prompt: seq<int>, v: Output, r: Reply, decode: seq<int> -> string)
    requires v.Shaped(args, prompt) && v.tokens != [] && v.logProbs.Some?
    ensures |NewTokens(r)| <= v.Absorb(prompt, r).responseLength <= |v.Absorb(prompt, r).tokens|
    ensures var u := v.Absorb(prompt, r).Strip(|NewTokens(r)|, decode);
      && u.tokens == v.tokens && u.responseLength == v.responseLength && u.lossMask == v.lossMask
      && u.logProbs == v.logProbs
      && (NewTokens(r) != [] && v.responseLength > 0 ==> u.response == decode(v.tokens[|prompt|..]))
  {
    var w, n := v.Absorb(prompt, r), |NewTokens(r)|;
    DropAdded(v.tokens, NewTokens(r));
    DropAdded(v.logProbs.value, NewLogProbs(r));
    if v.lossMask.Some? { DropAdded(v.lossMask.value, Repeat(1, n)); }
    assert v.responseLength > 0 ==> |v.tokens| - v.responseLength == |prompt|;
  }

  lemma DropAdded<T>(s: seq<T>, added: seq<T>)
    ensures (s + added)[..|s + added| - |added|] == s
    ensures added == [] ==> s + added == s
  {
  }

  lemma {:induction false} StripKeepsMask(args: Args, v: Output, n: nat)
    requires args.Masking() && v.MaskOk(args) && n <= v.responseLength
    ensures var left := v.responseLength - n;
      (if v.lossMask.Some? then DropLast(v.lossMask, n).value else Repeat(1, left))
          == NewestMask(left, Min(v.before, left))
  {
    MaskShrinks(v.responseLength, v.before, n);
    if v.lossMask.None? {
      assert Repeat(1, v.responseLength)[..v.responseLength - n] == Repeat(1, v.responseLength - n);
    }
  }

  /** What `generate` makes of a sample that is not finished. */
  function AfterGenerate(args: Args, prompt: seq<int>, v: Output, status: Status, engine: Engine, call: nat)
    : (after: (Output, Status))
    requires v.responseLength <= args.cap
    ensures v.responseLength <= after.0.responseLength
  {
    if v.responseLength == args.cap then (v, Truncated) else
      var r := engine(call, v.Input(prompt), args.cap - v.responseLength);
      (v.Absorb(prompt, r), StatusAfter(r.finish, status))
  }

  /** What `generate_and_rm` makes of a sample. */
  function AfterAttempt(args: Args, prompt: seq<int>, v: Output, status: Status, halted: bool, engine: Engine,
                        call: nat)
    : (after: (Output, Status))
    requires v.responseLength <= args.cap
    ensures v.responseLength <= after.0.responseLength
  {
    var masked := v.MaskEarlier(args);
    if Finished(status) then (masked, status)
    else if halted then (masked, Aborted)
    else AfterGenerate(args, prompt, masked, status, engine, call)
  }

  lemma {:induction false} GenerateKeepsShape(args: Args, prompt: seq<int>, v: Output, status: Status, engine: Engine,
                                              call: nat)
    requires v.Shaped(args, prompt) && KeepsItsSide(args, engine) && status != Failed
    ensures AfterGenerate(args, prompt, v, status, engine, call).0.Shaped(args, prompt)
    ensures AfterGenerate(args, prompt, v, status, engine, call).1 != Failed
  {
    if v.responseLength < args.cap {
      var r := engine(call, v.Input(prompt), args.cap - v.responseLength);
      assert Respects(args, r, v.Input(prompt), args.cap - v.responseLength);
      ReplyKeepsShape(args, prompt, v, r);
    }
  }

  lemma {:induction false} ReplyKeepsShape(args: Args, prompt: seq<int>, v: Output, r: Reply)
    requires v.Shaped(args, prompt) && Respects(args, r, v.Input(prompt), args.cap - v.responseLength)
    ensures v.Absorb(prompt, r).Shaped(args, prompt)
  {
    RequestContinues(args, prompt, v);
    AbsorbKeepsShape(args, prompt, v, r);
  }

  /** The invariant of a sample's life: an attempt keeps the shape, and its mask marks what this attempt generated. */
  lemma {:induction false} AttemptKeepsShape(args: Args, prompt: seq<int>, v: Output, status: Status, halted: bool,
                                             engine: Engine, call: nat)
    requires v.Shaped(args, prompt) && KeepsItsSide(args, engine) && status != Failed
    ensures AfterAttempt(args, prompt, v, status, halted, engine, call).0.Shaped(args, prompt)
    ensures AfterAttempt(args, prompt, v, status, halted, engine, call).0.before == v.responseLength
    ensures AfterAttempt(args, prompt, v, status, halted, engine, call).1 != Failed
    ensures args.Masking() ==>
      var after := AfterAttempt(args, prompt, v, status, halted, engine, call).0;
      v.responseLength <= after.responseLength
          && after.EffectiveMask() == NewestMask(after.responseLength, v.responseLength)
  {
    MaskEarlierKeepsShape(args, prompt, v);
    GenerateKeepsShape(args, prompt, v.MaskEarlier(args), status, engine, call);
  }

  // ---------------------------------------------------------------- the class

  class Sample {
    const prompt: seq<int>
    var tokens: seq<int>
    var response: string
    var responseLength: nat
    var lossMask: Option<seq<int>>
    var logProbs: Option<seq<real>>
    var routedExperts: Option<seq<int>>
    var reward: Option<real>
    var status: Status
    ghost var before: nat

    ghost function View(): Output
      reads this
    {
      Output(tokens, response, responseLength, lossMask, logProbs, routedExperts, before)
    }

    constructor (prompt: seq<int>)
      ensures this.prompt == prompt && View() == BLANK && status == Pending && reward == None
    {
      this.prompt := prompt;
      tokens, response, responseLength, reward := [], "", 0, None;
      lossMask, logProbs, routedExperts, status, before := None, None, None, Pending, 0;
    }

    ghost predicate Valid(args: Args)
      reads this
    {
      View().Shaped(args, prompt) && status != Failed && (Finished(status) && !args.groupRm ==> reward.Some?)
    }

    /** `validate` */
    method Validate() returns (ok: bool)
      ensures ok <==>
        && |tokens| >= responseLength && (lossMask.Some? ==> |lossMask.value| == responseLength)
        && (logProbs.Some? ==> |logProbs.value| == responseLength)
        && (routedExperts.Some? ==> |routedExperts.value| == |tokens| - 1)
    {
      if |tokens| < responseLength { return false; }
      if lossMask.Some? && |lossMask.value| != responseLength { return false; }
      if logProbs.Some? && |logProbs.value| != responseLength { return false; }
      if routedExperts.Some? && |routedExperts.value| != |tokens| - 1 { return false; }
      ok := true;
    }

    /** `update_from_meta_info` */
    method UpdateFromMetaInfo(finish: Finish)
      modifies this`status
      ensures status == StatusAfter(finish, old(status)) && EndsAs(finish, old(status), status)
    {
      match finish {
        case Length => status := Truncated;
        case Abort => status := Aborted;
        case Stop => status := Completed;
        case Other =>
      }
    }

    /** What `generate` does with a reply. */
    method Absorb(r: Reply)
      requires response != "" ==> tokens != []
      modifies this`status, this`tokens, this`response, this`responseLength, this`lossMask, this`logProbs
      modifies this`routedExperts
      ensures View() == old(View()).Absorb(prompt, r) && status == StatusAfter(r.finish, old(status))
    {
      if response == "" && tokens == [] { tokens := prompt; }
      tokens := tokens + NewTokens(r);
      responseLength := responseLength + |NewTokens(r)|;
      response := response + r.text;
      if lossMask.Some? { lossMask := Some(lossMask.value + Repeat(1, |NewTokens(r)|)); }
      if logProbs.None? { logProbs := Some([]); }
      logProbs := Some(logProbs.value + NewLogProbs(r));
      if r.routedExperts.Some? { routedExperts := r.routedExperts; }
      UpdateFromMetaInfo(r.finish);
    }

    /**
      `generate`; its assertions on the budget and on the mask never fire, and the one on the status is the
      precondition.
     */
    method Generate(args: Args, engine: Engine, call: nat)
      requires View().Shaped(args, prompt) && (status == Pending || status == Aborted)
      modifies this`status, this`tokens, this`response, this`responseLength, this`lossMask, this`logProbs
      modifies this`routedExperts
      ensures (View(), status) == AfterGenerate(args, prompt, old(View()), old(status), engine, call)
    {
      RequestContinues(args, prompt, View());
      var maxNewTokens := args.cap;
      if response != "" { maxNewTokens := maxNewTokens - (|tokens| - |prompt|); }
      assert maxNewTokens >= 0;
      if maxNewTokens == 0 {
        status := Truncated;
        return;
      }
      assert lossMask.Some? ==> args.Masking();
      var input := if response != "" then tokens else prompt;
      var r := engine(call, input, maxNewTokens);
      Absorb(r);
    }

    method MaskEarlier(args: Args)
      modifies this`lossMask, this`before
      ensures View() == old(View()).MaskEarlier(args)
    {
      if args.Masking() && responseLength > 0 { lossMask := Some(Repeat(0, responseLength)); }
      before := responseLength;
    }

    /** `generate_and_rm`; `halted` is the global abort flag. */
    method GenerateAndRm(args: Args, engine: Engine, call: nat, halted: bool, rm: real)
      requires Valid(args) && KeepsItsSide(args, engine)
      modifies this
      ensures Valid(args) && before == old(responseLength)
      ensures (View(), status) == AfterAttempt(args, prompt, old(View()), old(status), halted, engine, call)
      ensures Finished(old(status)) || halted ==> reward == old(reward)
      ensures !Finished(old(status)) && !halted ==>
        reward == if args.groupRm || status == Aborted || old(reward).Some? then old(reward) else Some(rm)
    {
      MaskEarlierKeepsShape(args, prompt, View());
      AttemptKeepsShape(args, prompt, View(), status, halted, engine, call);
      MaskEarlier(args);
      if Finished(status) { return; }
      if halted {
        status := Aborted;
        return;
      }
      Generate(args, engine, call);
      AssignReward(args, rm);
    }

    /** The end of `generate_and_rm`: no reward for a group's own reward model, an aborted or a rewarded sample. */
    method AssignReward(args: Args, rm: real)
      modifies this`reward
      ensures View() == old(View())
      ensures reward == if args.groupRm || status == Aborted || old(reward).Some? then old(reward) else Some(rm)
    {
      if args.groupRm || status == Aborted { return; }
      if reward.None? { reward := Some(rm); }
    }

    /** `strip_last_output_tokens`; `false` is its failing assertion. */
    method StripLastOutputTokens(n: int, decode: seq<int> -> string) returns (ok: bool)
      requires responseLength <= |tokens|
      modifies this`tokens, this`responseLength, this`logProbs, this`lossMask, this`response, this`routedExperts
      modifies this`before
      ensures ok <==> n <= old(responseLength)
      ensures View() == if 0 < n <= old(responseLength) then old(View()).Strip(n, decode) else old(View())
    {
      if n <= 0 { return true; }
      if n > responseLength { return false; }
      tokens := tokens[..|tokens| - n];
      responseLength := responseLength - n;
      logProbs := DropLast(logProbs, n);
      lossMask := DropLast(lossMask, n);
      response := if responseLength > 0 then decode(tokens[|tokens| - responseLength..]) else "";
      routedExperts := DropLast(routedExperts, n);
      before := Min(before, responseLength);
      ok := true;
    }

    /** `reset_for_retry` */
    method ResetForRetry()
      modifies this
      ensures View() == BLANK && status == Aborted && reward == None
    {
      tokens, response, responseLength, reward := [], "", 0, None;
      lossMask, logProbs, routedExperts, status, before := None, None, None, Aborted, 0;
    }
  }

  /** One sample of `_clone_group_for_retry`. */
  method CloneForRetry(sample: Sample) returns (clone: Sample)
    ensures fresh(clone) && clone.prompt == sample.prompt
    ensures clone.View() == BLANK && clone.status == Pending && clone.reward == None
  {
    clone := new Sample(sample.prompt);
  }

  function StatusAfter(finish: Finish, status: Status): Status {
    match finish
    case Length => Truncated
    case Abort => Aborted
    case Stop => Completed
    case Other => status
  }

  /** What `validate` checks holds of every valid sample. */
  method ValidateAccepts(sample: Sample, args: Args) returns (ok: bool)
    requires sample.Valid(args)
    ensures ok
  {
    ok := sample.Validate();
  }

  // ---------------------------------------------------------------- runs

  /** One thing that can happen to a sample between its creation and training. */
  datatype Event = Attempt(halted: bool, rm: real) | StripLast(n: int) | Reset | Clone

  /** What an event makes of a sample. */
  ghost predicate Becomes(args: Args, prompt: seq<int>, engine: Engine, decode: seq<int> -> string, call: nat,
                          event: Event, v: Output, status: Status, v': Output, status': Status)
  {
    match event
    case Attempt(halted, _) =>
      v.responseLength <= args.cap && (v', status') == AfterAttempt(args, prompt, v, status, halted, engine, call)
    case StripLast(n) =>
      v.responseLength <= |v.tokens|
      && (v', status') == (if 0 < n <= v.responseLength then v.Strip(n, decode) else v, status)
    case Reset => (v', status') == (BLANK, Aborted)
    case Clone => (v', status') == (BLANK, Pending)
  }

  /** A sample's states, one event after another. */
  ghost predicate IsHistory(args: Args, prompt: seq<int>, engine: Engine, decode: seq<int> -> string,
                            events: seq<Event>, states: seq<(Output, Status)>)
  {
    && |states| == |events| + 1 && states[0] == (BLANK, Pending)
    && forall i: nat :: i < |events| ==> BecomesAt(args, prompt, engine, decode, events, states, i)
  }

  ghost predicate BecomesAt(args: Args, prompt: seq<int>, engine: Engine, decode: seq<int> -> string,
                            events: seq<Event>, states: seq<(Output, Status)>, i: nat)
    requires |states| == |events| + 1 && i < |events|
  {
    Becomes(args, prompt, engine, decode, i, events[i], states[i].0, states[i].1, states[i + 1].0, states[i + 1].1)
  }

  lemma {:induction false} HistoryGoesOn(args: Args, prompt: seq<int>, engine: Engine, decode: seq<int> -> string,
                                         events: seq<Event>, states: seq<(Output, Status)>, i: nat,
                                         next: (Output, Status))
    requires i < |events| && IsHistory(args, prompt, engine, decode, events[..i], states)
    requires Becomes(args, prompt, engine, decode, i, events[i], states[i].0, states[i].1, next.0, next.1)
    ensures IsHistory(args, prompt, engine, decode, events[..i + 1], states + [next])
  {
    var events', states' := events[..i + 1], states + [next];
    forall j: nat | j < i + 1 ensures BecomesAt(args, prompt, engine, decode, events', states', j) {
      if j < i { assert BecomesAt(args, prompt, engine, decode, events[..i], states, j); }
    }
  }

  /** Any run of attempts, with requeueing between them, strips and resets keeps a sample with a prompt valid. */
  method Run(args: Args, prompt: seq<int>, events: seq<Event>, engine: Engine, decode: seq<int> -> string)
    returns (sample: Sample, ghost states: seq<(Output, Status)>)
    requires prompt != [] && KeepsItsSide(args, engine) && Decodes(decode)
    ensures sample.Valid(args) && sample.prompt == prompt
    ensures IsHistory(args, prompt, engine, decode, events, states)
    ensures (sample.View(), sample.status) == states[|events|]
    ensures sample.tokens != [] ==> |sample.tokens| == |prompt| + sample.responseLength
    ensures args.Masking() ==> sample.View().EffectiveMask() == NewestMask(sample.responseLength, sample.before)
  {
    sample := new Sample(prompt);
    states := [(BLANK, Pending)];
    for i := 0 to |events|
      invariant sample.Valid(args) && sample.prompt == prompt && fresh(sample)
      invariant IsHistory(args, prompt, engine, decode, events[..i], states)
      invariant (sample.View(), sample.status) == states[i]
    {
      sample := Happens(sample, args, events[i], engine, i, decode);
      HistoryGoesOn(args, prompt, engine, decode, events, states, i, (sample.View(), sample.status));
      states := states + [(sample.View(), sample.status)];
    }
    assert events[..|events|] == events;
  }

  method Happens(sample: Sample, args: Args, event: Event, engine: Engine, call: nat, decode: seq<int> -> string)
    returns (next: Sample)
    requires sample.Valid(args) && sample.prompt != [] && KeepsItsSide(args, engine) && Decodes(decode)
    modifies sample
    ensures next.Valid(args) && next.prompt == sample.prompt && (next == sample || fresh(next))
    ensures Becomes(args, sample.prompt, engine, decode, call, event, old(sample.View()), old(sample.status),
                    next.View(), next.status)
  {
    next := sample;
    match event {
      case Attempt(halted, rm) => sample.GenerateAndRm(args, engine, call, halted, rm);
      case StripLast(n) =>
        if 0 <= n <= sample.responseLength { StripKeepsShape(args, sample.prompt, sample.View(), n, decode); }
        var _ := sample.StripLastOutputTokens(n, decode);
      case Reset => sample.ResetForRetry();
      case Clone => next := CloneForRetry(sample);
    }
  }

  // ---------------------------------------------------------------- what the engine said, and what becomes of it

  /** A sample that was aborted is to be continued, one that stopped or was cut off is done, else nothing changes. */
  ghost predicate EndsAs(finish: Finish, before: Status, after: Status) {
    && (after == Completed <==> finish == Stop || (finish == Other && before == Completed))
    && (after == Truncated <==> finish == Length || (finish == Other && before == Truncated))
    && (after == Aborted <==> finish == Abort || (finish == Other && before == Aborted))
    && (after == Pending <==> finish == Other && before == Pending)
  }

  /** The tokens, the text and the log-probs of all replies, one after another, and the newest routed experts. */
  ghost function TokensOf(replies: seq<Reply>): seq<int> {
    if replies == [] then [] else TokensOf(replies[..|replies| - 1]) + NewTokens(replies[|replies| - 1])
  }

  ghost function TextOf(replies: seq<Reply>): string {
    if replies == [] then "" else TextOf(replies[..|replies| - 1]) + replies[|replies| - 1].text
  }

  ghost function LogProbsOf(replies: seq<Reply>): seq<real> {
    if replies == [] then [] else LogProbsOf(replies[..|replies| - 1]) + NewLogProbs(replies[|replies| - 1])
  }

  ghost function ExpertsOf(replies: seq<Reply>): Option<seq<int>> {
    if replies == [] then None
    else if replies[|replies| - 1].routedExperts.Some? then replies[|replies| - 1].routedExperts
    else ExpertsOf(replies[..|replies| - 1])
  }

  /** The sample holds exactly what these replies said. */
  ghost predicate Holds(v: Output, prompt: seq<int>, replies: seq<Reply>) {
    && v.tokens == (if replies == [] then [] else prompt + TokensOf(replies))
    && v.responseLength == |TokensOf(replies)| && v.response == TextOf(replies)
    && v.logProbs == (if replies == [] then None else Some(LogProbsOf(replies)))
    && v.routedExperts == ExpertsOf(replies)
  }

  lemma {:induction false} AbsorbHolds(v: Output, prompt: seq<int>, replies: seq<Reply>, r: Reply, w: Output,
                                       after: seq<Reply>)
    requires Holds(v, prompt, replies) && w == v.Absorb(prompt, r) && after == replies + [r]
    ensures Holds(w, prompt, after)
  {
    RepliesOn(replies, r);
    if replies == [] { NothingBefore(prompt, r); } else { Joined(prompt, TokensOf(replies), NewTokens(r)); }
  }

  lemma {:induction false} RepliesOn(replies: seq<Reply>, r: Reply)
    ensures TokensOf(replies + [r]) == TokensOf(replies) + NewTokens(r)
    ensures TextOf(replies + [r]) == TextOf(replies) + r.text
    ensures LogProbsOf(replies + [r]) == LogProbsOf(replies) + NewLogProbs(r)
    ensures ExpertsOf(replies + [r]) == if r.routedExperts.Some? then r.routedExperts else ExpertsOf(replies)
  {
    assert (replies + [r])[..|replies|] == replies;
  }

  lemma NothingBefore(prompt: seq<int>, r: Reply)
    ensures [] + NewTokens(r) == NewTokens(r) && "" + r.text == r.text && [] + NewLogProbs(r) == NewLogProbs(r)
  {
  }

  lemma Joined(a: seq<int>, b: seq<int>, c: seq<int>)
    ensures a + b + c == a + (b + c)
  {
  }

  /** All that was said to a sample, its status and its reward. */
  datatype Tale = Tale(replies: seq<Reply>, status: Status, reward: Option<real>)

  /**
    What is said in one attempt.  A sample that is done stays as it is; a halted one is to be continued later; otherwise
    the engine is sent the prompt and all it said so far, with what is left of the cap.
   */
  ghost predicate Says(args: Args, prompt: seq<int>, engine: Engine, call: nat, halted: bool, before: seq<Reply>,
                       status: Status, after: seq<Reply>, status': Status)
  {
    var said := TokensOf(before);
    if status == Completed || status == Truncated then after == before && status' == status
    else if halted then after == before && status' == Aborted
    else if |said| >= args.cap then after == before && status' == Truncated
    else
      var r := engine(call, prompt + said, args.cap - |said|);
      after == before + [r] && EndsAs(r.finish, status, status')
  }

  /** One attempt: what is said, and a reward for a sample that was not aborted, is not halted and has none. */
  ghost predicate Goes(args: Args, prompt: seq<int>, engine: Engine, call: nat, halted: bool, rm: real, t: Tale,
                       t': Tale)
  {
    && Says(args, prompt, engine, call, halted, t.replies, t.status, t'.replies, t'.status)
    && t'.reward == if t.status == Completed || t.status == Truncated || halted || t'.status == Aborted
                       || args.groupRm || t.reward.Some?
                    then t.reward else Some(rm)
  }

  lemma {:induction false} StatusEnds(finish: Finish, status: Status)
    requires status != Failed
    ensures EndsAs(finish, status, StatusAfter(finish, status))
  {
  }

  lemma {:induction false} InputIsSaid(args: Args, prompt: seq<int>, v: Output, replies: seq<Reply>)
    requires v.Shaped(args, prompt) && Holds(v, prompt, replies)
    ensures v.Input(prompt) == prompt + TokensOf(replies)
  {
    RequestContinues(args, prompt, v);
    if replies == [] { assert prompt + [] == prompt; }
  }

  lemma {:induction false} AfterReply(args: Args, prompt: seq<int>, v: Output, status: Status, engine: Engine,
                                      call: nat, r: Reply)
    requires v.responseLength < args.cap && r == engine(call, v.Input(prompt), args.cap - v.responseLength)
    ensures AfterGenerate(args, prompt, v, status, engine, call) == (v.Absorb(prompt, r), StatusAfter(r.finish, status))
  {
  }

  /** An attempt says what it should, and the sample then holds that. */
  lemma {:induction false} AttemptSays(args: Args, prompt: seq<int>, v: Output, status: Status, halted: bool,
                                       engine: Engine, call: nat, before: seq<Reply>)
    returns (after: seq<Reply>)
    requires v.Input(prompt) == prompt + TokensOf(before) && v.responseLength <= args.cap
    requires Holds(v, prompt, before) && status != Failed
    ensures var (w, status') := AfterAttempt(args, prompt, v, status, halted, engine, call);
      Holds(w, prompt, after) && Says(args, prompt, engine, call, halted, before, status, after, status')
  {
    if Finished(status) || halted || v.responseLength == args.cap {
      after := before;
      MaskEarlierHolds(args, prompt, v, before);
    } else {
      var r := engine(call, prompt + TokensOf(before), args.cap - |TokensOf(before)|);
      after := before + [r];
      ReplyHolds(args, prompt, v, status, engine, call, before, r, after);
      StatusEnds(r.finish, status);
    }
  }

  lemma {:induction false} ReplyHolds(args: Args, prompt: seq<int>, v: Output, status: Status, engine: Engine,
                                      call: nat, before: seq<Reply>, r: Reply, after: seq<Reply>)
    requires v.responseLength < args.cap && Holds(v, prompt, before) && !Finished(status) && after == before + [r]
    requires r == engine(call, v.Input(prompt), args.cap - v.responseLength)
    ensures Holds(AfterAttempt(args, prompt, v, status, false, engine, call).0, prompt, after)
    ensures AfterAttempt(args, prompt, v, status, false, engine, call).1 == StatusAfter(r.finish, status)
  {
    var masked := v.MaskEarlier(args);
    MaskEarlierHolds(args, prompt, v, before);
    AfterReply(args, prompt, masked, status, engine, call, r);
    AbsorbHolds(masked, prompt, before, r, AfterAttempt(args, prompt, v, status, false, engine, call).0, after);
  }

  lemma {:induction false} MaskEarlierHolds(args: Args, prompt: seq<int>, v: Output, replies: seq<Reply>)
    requires Holds(v, prompt, replies)
    ensures Holds(v.MaskEarlier(args), prompt, replies) && v.MaskEarlier(args).Input(prompt) == v.Input(prompt)
    ensures v.MaskEarlier(args).responseLength == v.responseLength
  {
  }

  /** The sample is as the tale has it. */
  ghost predicate IsTold(v: Output, status: Status, reward: Option<real>, prompt: seq<int>, t: Tale) {
    Holds(v, prompt, t.replies) && status == t.status && reward == t.reward
  }

  method AttemptTold(sample: Sample, args: Args, engine: Engine, call: nat, halted: bool, rm: real, ghost t: Tale)
    returns (ghost t': Tale)
    requires sample.Valid(args) && KeepsItsSide(args, engine)
    requires IsTold(sample.View(), sample.status, sample.reward, sample.prompt, t)
    modifies sample
    ensures sample.Valid(args) && Goes(args, sample.prompt, engine, call, halted, rm, t, t')
    ensures IsTold(sample.View(), sample.status, sample.reward, sample.prompt, t')
  {
    InputIsSaid(args, sample.prompt, sample.View(), t.replies);
    ghost var replies :=
      AttemptSays(args, sample.prompt, sample.View(), sample.status, halted, engine, call, t.replies);
    sample.GenerateAndRm(args, engine, call, halted, rm);
    t' := Tale(replies, sample.status, sample.reward);
  }

  /** Each of these attempts goes as it should. */
  ghost predicate AllGo(args: Args, prompt: seq<int>, engine: Engine, halts: seq<bool>, rm: nat -> real,
                        tales: seq<Tale>)
  {
    && |tales| == |halts| + 1
    && forall i: nat :: i < |halts| ==> GoesAt(args, prompt, engine, halts, rm, tales, i)
  }

  ghost predicate GoesAt(args: Args, prompt: seq<int>, engine: Engine, halts: seq<bool>, rm: nat -> real,
                         tales: seq<Tale>, i: nat)
    requires |tales| == |halts| + 1 && i < |halts|
  {
    Goes(args, prompt, engine, i, halts[i], rm(i), tales[i], tales[i + 1])
  }

  lemma {:induction false} GoOn(args: Args, prompt: seq<int>, engine: Engine, halts: seq<bool>, rm: nat -> real,
                                tales: seq<Tale>, i: nat, t: Tale)
    requires i < |halts| && AllGo(args, prompt, engine, halts[..i], rm, tales)
    requires Goes(args, prompt, engine, i, halts[i], rm(i), tales[i], t)
    ensures AllGo(args, prompt, engine, halts[..i + 1], rm, tales + [t])
  {
    var halts', tales' := halts[..i + 1], tales + [t];
    forall j: nat | j < i + 1 ensures GoesAt(args, prompt, engine, halts', rm, tales', j) {
      if j < i { assert GoesAt(args, prompt, engine, halts[..i], rm, tales, j); }
    }
  }

  /**
    Any attempts on a new sample, one after another: each of them goes as it should, and in the end the sample holds
    exactly what the engine said.
   */
  method Attempts(args: Args, prompt: seq<int>, engine: Engine, halts: seq<bool>, rm: nat -> real)
    returns (sample: Sample, ghost tales: seq<Tale>)
    requires KeepsItsSide(args, engine)
    ensures AllGo(args, prompt, engine, halts, rm, tales) && tales[0] == Tale([], Pending, None)
    ensures IsTold(sample.View(), sample.status, sample.reward, prompt, tales[|halts|])
  {
    sample := new Sample(prompt);
    tales := [Tale([], Pending, None)];
    for i := 0 to |halts|
      invariant sample.Valid(args) && sample.prompt == prompt && fresh(sample)
      invariant AllGo(args, prompt, engine, halts[..i], rm, tales) && tales[0] == Tale([], Pending, None)
      invariant IsTold(sample.View(), sample.status, sample.reward, prompt, tales[i])
    {
      ghost var t := AttemptTold(sample, args, engine, i, halts[i], rm(i), tales[i]);
      GoOn(args, prompt, engine, halts, rm, tales, i, t);
      tales := tales + [t];
    }
    assert halts[..|halts|] == halts;
  }

  /** The first two attempts on a new sample, neither of them halted. */
  ghost predicate FirstTwo(args: Args, prompt: seq<int>, engine: Engine, rm: nat -> real, first: Tale, second: Tale) {
    && Goes(args, prompt, engine, 0, false, rm(0), Tale([], Pending, None), first)
    && Goes(args, prompt, engine, 1, false, rm(1), first, second)
  }

  /**
    After a reply that ended in an abort there is no reward, and the second request sends what was said and asks for
    what is left of the cap.
   */
  lemma {:induction false} AbortedGoesOn(args: Args, prompt: seq<int>, engine: Engine, rm: nat -> real, first: Tale,
                                         second: Tale)
    requires FirstTwo(args, prompt, engine, rm, first, second) && args.cap > 0
    requires engine(0, prompt, args.cap).finish == Abort
    ensures first.status == Aborted && first.reward == None
    ensures var said := NewTokens(engine(0, prompt, args.cap));
      && TokensOf(first.replies) == said
      && (|said| < args.cap ==>
            TokensOf(second.replies) == said + NewTokens(engine(1, prompt + said, args.cap - |said|)))
  {
    FirstReply(args, prompt, engine, rm, first);
    var r := engine(0, prompt, args.cap);
    if |NewTokens(r)| < args.cap { NextReply(args, prompt, engine, rm(1), r, first, second); }
  }

  lemma {:induction false} NextReply(args: Args, prompt: seq<int>, engine: Engine, rm: real, r: Reply, first: Tale,
                                     second: Tale)
    requires Goes(args, prompt, engine, 1, false, rm, first, second)
    requires first.replies == [r] && first.status == Aborted && |NewTokens(r)| < args.cap
    ensures TokensOf(second.replies)
         == NewTokens(r) + NewTokens(engine(1, prompt + NewTokens(r), args.cap - |NewTokens(r)|))
  {
    OneReply(r);
    TwoReplies(r, engine(1, prompt + NewTokens(r), args.cap - |NewTokens(r)|));
  }

  lemma {:induction false} FirstReply(args: Args, prompt: seq<int>, engine: Engine, rm: nat -> real, first: Tale)
    requires Goes(args, prompt, engine, 0, false, rm(0), Tale([], Pending, None), first) && args.cap > 0
    ensures var r := engine(0, prompt, args.cap);
      first.replies == [r] && TokensOf(first.replies) == NewTokens(r) && EndsAs(r.finish, Pending, first.status)
  {
    var r := engine(0, prompt, args.cap);
    assert prompt + [] == prompt && [] + [r] == [r];
    OneReply(r);
  }

  /** After one that stopped or was cut off there is a reward, and the second attempt changes nothing. */
  lemma {:induction false} DoneStays(args: Args, prompt: seq<int>, engine: Engine, rm: nat -> real, first: Tale,
                                     second: Tale)
    requires FirstTwo(args, prompt, engine, rm, first, second) && args.cap > 0
    requires engine(0, prompt, args.cap).finish in {Stop, Length}
    ensures first.status == if engine(0, prompt, args.cap).finish == Stop then Completed else Truncated
    ensures first.reward == if args.groupRm then None else Some(rm(0))
    ensures second == first && TokensOf(second.replies) == NewTokens(engine(0, prompt, args.cap))
  {
    FirstReply(args, prompt, engine, rm, first);
  }

  lemma {:induction false} OneReply(r: Reply)
    ensures TokensOf([r]) == NewTokens(r)
  {
    assert [r][..0] == [];
  }

  lemma {:induction false} TwoReplies(r: Reply, s: Reply)
    ensures TokensOf([r] + [s]) == NewTokens(r) + NewTokens(s)
  {
    OneReply(r);
    assert ([r] + [s])[..1] == [r];
  }
}
