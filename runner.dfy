/** ModelRunner: owns the model and tokenizer handles and turns a prompt into a
    stream of decoded text fragments (ModelRunner.cs). ONNX Runtime GenAI is left
    abstract: a Backend says what the tokenizer and the generator do for one call. */
module Runner {
  import opened Text
  import opened Prompt

  /** A token id of the model's vocabulary. */
  type Token = int

  datatype Option<T> = None | Some(value: T)

  /** What one iteration of the generation loop does once `IsDone()` has said false:
      its generator work (ComputeLogits, GenerateNextToken and the decode of the new
      token) appends a token or throws inside the `try`; or `IsDone()` itself throws
      at the head of the iteration, outside the `try`. */
  datatype Step = Next(token: Token) | Throws | DoneThrows

  /** The collaborators of one streaming call. `setup` gives the tokens `Encode`
      makes of the prompt, or None when one of the calls before the loop throws
      (`new GeneratorParams`, `Encode`, the three parameter settings, `CreateStream`
      or `new Generator`). `generate` gives, for those tokens, the outcome of each
      iteration the generator runs before IsDone() holds: IsDone() is false exactly
      while steps remain. */
  datatype Backend<!D> = Backend(
    setup: string -> Option<seq<Token>>,
    generate: seq<Token> -> seq<Step>,
    newStream: D,
    decode: (D, Token) -> (D, string))

  /** Why a stream that started stopped: IsDone() held, cancellation was seen, a step
      threw inside the `try`, or an exception escaped the stream to its consumer. */
  datatype StreamEnd = Completed | Cancelled | StepFailed | Faulted

  /** What a streaming call gives its consumer: the InvalidOperationException raised
      before any fragment, or the fragments yielded and why they stopped. */
  datatype Stream =
    | InvalidOperation(message: string)
    | Fragments(parts: seq<string>, end: StreamEnd)

  const NotReadyMessage := "Model is not ready"

  /** The iteration at which the loop stops: the first one, from i on, whose IsDone()
      throws, that finds cancellation requested, or whose step throws; or the number
      of steps if none does. */
  function StopIndex(steps: seq<Step>, cancelled: nat -> bool, i: nat): (k: nat)
    requires i <= |steps|
    ensures i <= k <= |steps|
    ensures forall j :: i <= j < k ==> !cancelled(j) && steps[j].Next?
    ensures k < |steps| ==> cancelled(k) || !steps[k].Next?
    decreases |steps| - i
  {
    if i == |steps| || cancelled(i) || !steps[i].Next? then i
    else StopIndex(steps, cancelled, i + 1)
  }

  /** The stop index is the first iteration that stops the loop. */
  lemma StopIndexIs(steps: seq<Step>, cancelled: nat -> bool, k: nat)
    requires k <= |steps|
    requires forall j :: 0 <= j < k ==> !cancelled(j) && steps[j].Next?
    requires k < |steps| ==> cancelled(k) || !steps[k].Next?
    ensures StopIndex(steps, cancelled, 0) == k
  {
  }

  /** One iteration of the loop either stops it or leaves the stop index to the next. */
  lemma StopIndexStep(steps: seq<Step>, cancelled: nat -> bool, i: nat)
    requires i < |steps|
    ensures cancelled(i) || !steps[i].Next? ==> StopIndex(steps, cancelled, i) == i
    ensures !cancelled(i) && steps[i].Next? ==> StopIndex(steps, cancelled, i) == StopIndex(steps, cancelled, i + 1)
  {
  }

  /** Why the loop stopped at iteration k. IsDone() runs first, then the cancellation
      check, then the step. */
  function EndAt(steps: seq<Step>, cancelled: nat -> bool, k: nat): StreamEnd {
    if k >= |steps| then Completed
    else if steps[k].DoneThrows? then Faulted
    else if cancelled(k) then Cancelled
    else StepFailed
  }

  /** The tokens the successful steps append, in order. */
  function Tokens(steps: seq<Step>): (ts: seq<Token>)
    ensures |ts| <= |steps|
  {
    if steps == [] then []
    else
      var last := steps[|steps| - 1];
      Tokens(steps[..|steps| - 1]) + (if last.Next? then [last.token] else [])
  }

  /** The decode stream's state after it has been fed the given tokens. */
  function StateAfter<D>(decode: (D, Token) -> (D, string), d: D, tokens: seq<Token>): D {
    if tokens == [] then d
    else decode(StateAfter(decode, d, tokens[..|tokens| - 1]), tokens[|tokens| - 1]).0
  }

  /** The fragments a decode stream gives for the tokens fed to it one at a time. */
  function DecodeAll<D>(decode: (D, Token) -> (D, string), d: D, tokens: seq<Token>): (parts: seq<string>)
    ensures |parts| == |tokens|
  {
    if tokens == [] then []
    else
      var init := tokens[..|tokens| - 1];
      DecodeAll(decode, d, init) + [decode(StateAfter(decode, d, init), tokens[|tokens| - 1]).1]
  }

  /** Feeding one more token adds one fragment, decoded from the state the earlier
      tokens left, and moves the stream on by that token. */
  lemma DecodeOneMore<D>(decode: (D, Token) -> (D, string), d: D, tokens: seq<Token>, t: Token)
    ensures var step := decode(StateAfter(decode, d, tokens), t);
      && StateAfter(decode, d, tokens + [t]) == step.0
      && DecodeAll(decode, d, tokens + [t]) == DecodeAll(decode, d, tokens) + [step.1]
  {
    assert (tokens + [t])[..|tokens + [t]| - 1] == tokens;
  }

  /** Fragment i is the decode of token i by the stream as the first i tokens left it. */
  lemma {:induction false} DecodeAllAt<D>(decode: (D, Token) -> (D, string), d: D, tokens: seq<Token>, i: nat)
    requires i < |tokens|
    ensures DecodeAll(decode, d, tokens)[i] == decode(StateAfter(decode, d, tokens[..i]), tokens[i]).1
    decreases |tokens|
  {
    var init := tokens[..|tokens| - 1];
    if i < |init| {
      DecodeAllAt(decode, d, init, i);
      assert init[..i] == tokens[..i];
    } else {
      assert init == tokens[..i];
    }
  }

  /** What the generation loop of a generator started on `input` yields. */
  function Run<D>(b: Backend<D>, cancelled: nat -> bool, input: seq<Token>): Stream {
    var steps := b.generate(input);
    var k := StopIndex(steps, cancelled, 0);
    Fragments(DecodeAll(b.decode, b.newStream, Tokens(steps[..k])), EndAt(steps, cancelled, k))
  }

  /** What a ready runner's stream gives for a prompt: nothing and an escaping
      exception when the setup throws, otherwise what the loop yields. */
  function Outcome<D>(b: Backend<D>, cancelled: nat -> bool, prompt: string): Stream {
    match b.setup(prompt)
    case None => Fragments([], Faulted)
    case Some(input) => Run(b, cancelled, input)
  }

  /** A ready runner's stream lets an exception escape exactly when the setup throws
      or when IsDone() throws at the iteration where the loop stops; then the
      fragments before it have been yielded. */
  lemma OutcomeFaulted<D>(b: Backend<D>, cancelled: nat -> bool, prompt: string)
    ensures Outcome(b, cancelled, prompt).Fragments?
    ensures Outcome(b, cancelled, prompt).end == Faulted <==>
      || b.setup(prompt).None?
      || (var steps := b.generate(b.setup(prompt).value);
          var k := StopIndex(steps, cancelled, 0);
          k < |steps| && steps[k].DoneThrows?)
    ensures b.setup(prompt).None? ==> Outcome(b, cancelled, prompt).parts == []
  {
  }

  /** A started stream yields one fragment per step run, never more than the steps
      before IsDone(), and the fragment of iteration i decodes the token that
      iteration appended. */
  lemma RunFragments<D>(b: Backend<D>, cancelled: nat -> bool, input: seq<Token>, i: nat)
    ensures var steps := b.generate(input);
            var r := Run(b, cancelled, input);
      && |r.parts| == StopIndex(steps, cancelled, 0) <= |steps|
      && (i < |r.parts| ==>
            steps[i].Next?
            && r.parts[i] == b.decode(StateAfter(b.decode, b.newStream, Tokens(steps[..i])), steps[i].token).1)
  {
    var steps := b.generate(input);
    var k := StopIndex(steps, cancelled, 0);
    var ts := Tokens(steps[..k]);
    TokensLength(steps[..k]);
    if i < k {
      TokensOfPrefix(steps[..k], i);
      assert steps[..k][..i] == steps[..i];
      DecodeAllAt(b.decode, b.newStream, ts, i);
    }
  }

  /** When every step succeeds, each one contributes a token. */
  lemma {:induction false} TokensLength(steps: seq<Step>)
    requires forall j :: 0 <= j < |steps| ==> steps[j].Next?
    ensures |Tokens(steps)| == |steps|
    decreases |steps|
  {
    if steps != [] {
      TokensLength(steps[..|steps| - 1]);
    }
  }

  /** Over steps that all succeed, token i is step i's token and the first i tokens
      are those of the first i steps. */
  lemma {:induction false} TokensOfPrefix(steps: seq<Step>, i: nat)
    requires forall j :: 0 <= j < |steps| ==> steps[j].Next?
    requires i < |steps|
    ensures |Tokens(steps)| == |steps|
    ensures Tokens(steps)[i] == steps[i].token
    ensures Tokens(steps)[..i] == Tokens(steps[..i])
    decreases |steps|
  {
    var init := steps[..|steps| - 1];
    TokensLength(init);
    if i < |init| {
      TokensOfPrefix(init, i);
      assert init[..i] == steps[..i];
    } else {
      assert init == steps[..i];
    }
  }

  /** If cancellation is first seen at iteration k, whose IsDone() returns normally,
      before any step has thrown, the stream ends as cancelled with exactly the k
      fragments of the earlier iterations. */
  lemma CancelledAt<D>(b: Backend<D>, cancelled: nat -> bool, input: seq<Token>, k: nat)
    requires var steps := b.generate(input);
      && k < |steps| && !steps[k].DoneThrows? && cancelled(k)
      && forall j :: 0 <= j < k ==> !cancelled(j) && steps[j].Next?
    ensures Run(b, cancelled, input).end == Cancelled
    ensures |Run(b, cancelled, input).parts| == k
  {
    var steps := b.generate(input);
    StopIndexIs(steps, cancelled, k);
    TokensLength(steps[..k]);
  }

  /** If the step of iteration k throws, with no cancellation and no failure before,
      the stream ends early with exactly the k fragments of the earlier iterations;
      the exception does not escape. */
  lemma FailedAt<D>(b: Backend<D>, cancelled: nat -> bool, input: seq<Token>, k: nat)
    requires var steps := b.generate(input);
      && k < |steps| && !cancelled(k) && steps[k].Throws?
      && forall j :: 0 <= j < k ==> !cancelled(j) && steps[j].Next?
    ensures Run(b, cancelled, input).end == StepFailed
    ensures |Run(b, cancelled, input).parts| == k
  {
    var steps := b.generate(input);
    StopIndexIs(steps, cancelled, k);
    TokensLength(steps[..k]);
  }

  /** If IsDone() throws at the head of iteration k, with no cancellation and no
      failure before, the k earlier fragments have been yielded and the exception
      escapes to the consumer, whether or not cancellation is requested by then. */
  lemma FaultedAt<D>(b: Backend<D>, cancelled: nat -> bool, input: seq<Token>, k: nat)
    requires var steps := b.generate(input);
      && k < |steps| && steps[k].DoneThrows?
      && forall j :: 0 <= j < k ==> !cancelled(j) && steps[j].Next?
    ensures Run(b, cancelled, input).end == Faulted
    ensures |Run(b, cancelled, input).parts| == k
  {
    var steps := b.generate(input);
    StopIndexIs(steps, cancelled, k);
    TokensLength(steps[..k]);
  }

  /** Without cancellation or failure the stream runs until IsDone() and yields one
      fragment per generated token, the decodes of all of them in order. */
  lemma CompletedRun<D>(b: Backend<D>, cancelled: nat -> bool, input: seq<Token>)
    requires var steps := b.generate(input);
      forall j :: 0 <= j < |steps| ==> !cancelled(j) && steps[j].Next?
    ensures var steps := b.generate(input);
      Run(b, cancelled, input) == Fragments(DecodeAll(b.decode, b.newStream, Tokens(steps)), Completed)
  {
    var steps := b.generate(input);
    StopIndexIs(steps, cancelled, |steps|);
    assert steps[..|steps|] == steps;
  }

  /** A successful step appends its token to those of the earlier steps. */
  lemma TokensOneMore(steps: seq<Step>, i: nat)
    requires i < |steps| && steps[i].Next?
    ensures Tokens(steps[..i + 1]) == Tokens(steps[..i]) + [steps[i].token]
  {
    assert steps[..i + 1][..i] == steps[..i];
  }

  /** The `while (!generator.IsDone())` loop of InferStreaming over a generator
      started on `input`: an IsDone() that throws ends the stream with the exception,
      cancellation is checked at the head of each iteration, a step that throws ends
      the loop quietly, and each successful step yields the decode of the token it
      appended to the generator's sequence. */
  method GenerationLoop<D>(b: Backend<D>, input: seq<Token>, cancelled: nat -> bool)
    returns (parts: seq<string>, end: StreamEnd)
    ensures var steps := b.generate(input);
            var k := StopIndex(steps, cancelled, 0);
      parts == DecodeAll(b.decode, b.newStream, Tokens(steps[..k])) && end == EndAt(steps, cancelled, k)
  {
    var steps := b.generate(input);
    var sequence := input;
    var stream := b.newStream;
    parts := [];
    end := Completed;
    ghost var k := StopIndex(steps, cancelled, 0);
    var i := 0;
    while i < |steps|
      invariant i <= |steps|
      invariant StopIndex(steps, cancelled, i) == k
      invariant sequence == input + Tokens(steps[..i])
      invariant stream == StateAfter(b.decode, b.newStream, Tokens(steps[..i]))
      invariant parts == DecodeAll(b.decode, b.newStream, Tokens(steps[..i]))
    {
      StopIndexStep(steps, cancelled, i);
      if steps[i].DoneThrows? {
        end := Faulted;
        break;
      }
      if cancelled(i) {
        end := Cancelled;
        break;
      }
      if steps[i].Throws? {
        end := StepFailed;
        break;
      }
      TokensOneMore(steps, i);
      DecodeOneMore(b.decode, b.newStream, Tokens(steps[..i]), steps[i].token);
      AppendAssoc(input, Tokens(steps[..i]), [steps[i].token]);
      sequence := sequence + [steps[i].token];
      var decoded := b.decode(stream, sequence[|sequence| - 1]);
      stream := decoded.0;
      parts := parts + [decoded.1];
      i := i + 1;
    }
  }

  /** A model handle (Microsoft.ML.OnnxRuntimeGenAI.Model). */
  class ModelHandle {
    var disposed: bool

    constructor ()
      ensures !disposed
    {
      disposed := false;
    }
  }

  /** A tokenizer handle, made from a model (Microsoft.ML.OnnxRuntimeGenAI.Tokenizer). */
  class TokenizerHandle {
    const model: ModelHandle
    var disposed: bool

    constructor (model: ModelHandle)
      ensures this.model == model && !disposed
    {
      this.model := model;
      disposed := false;
    }
  }

  class ModelRunner {
    var model: ModelHandle?
    var tokenizer: TokenizerHandle?

    /** Both handles start out null. */
    constructor ()
      ensures model == null && tokenizer == null && !IsReady()
    {
      model := null;
      tokenizer := null;
    }

    /** IsReady: both handles are set, so the runner holds two handles. */
    predicate IsReady(): (r: bool)
      reads this
      ensures r <==> |Handles()| == 2
    {
      model != null && tokenizer != null
    }

    /** The handles that are currently set. */
    function Handles(): (hs: set<object>)
      reads this
      ensures model != null ==> model in hs
      ensures tokenizer != null ==> tokenizer in hs
      ensures forall o | o in hs :: o == model || o == tokenizer
      ensures |hs| <= 2
    {
      (if model == null then {} else {model}) + (if tokenizer == null then {} else {tokenizer})
    }

    /** Dispose: disposes whichever handles are set. The fields keep pointing to the
        disposed handles, so IsReady() is unchanged. */
    method Dispose()
      modifies Handles()
      ensures model == old(model) && tokenizer == old(tokenizer)
      ensures model != null ==> model.disposed
      ensures tokenizer != null ==> tokenizer.disposed
    {
      if model != null {
        model.disposed := true;
      }
      if tokenizer != null {
        tokenizer.disposed := true;
      }
    }

    /** The body of InitializeAsync's task. `modelOpens` and `tokenizerOpens` say
        whether the Model and Tokenizer constructors succeed; a constructor that throws
        leaves its field as it was and ends the task. The result says whether
        ModelLoaded was raised, which happens only after both fields are assigned. */
    method InitializeAsync(modelOpens: bool, tokenizerOpens: bool) returns (modelLoaded: bool)
      modifies this
      ensures modelLoaded <==> modelOpens && tokenizerOpens
      ensures modelLoaded ==> IsReady()
      ensures modelOpens ==> fresh(model) && !model.disposed
      ensures !modelOpens ==> model == old(model)
      ensures modelOpens && tokenizerOpens ==> fresh(tokenizer) && tokenizer.model == model && !tokenizer.disposed
      ensures !(modelOpens && tokenizerOpens) ==> tokenizer == old(tokenizer)
    {
      modelLoaded := false;
      if !modelOpens {
        return;
      }
      var m := new ModelHandle();
      model := m;
      if !tokenizerOpens {
        return;
      }
      var t := new TokenizerHandle(m);
      tokenizer := t;
      modelLoaded := true;
    }

    /** InferStreaming(prompt, ct): throws when not ready; otherwise sets up the
        generator, which may throw, and runs the generation loop on the encoded prompt. */
    method InferStreaming<D>(prompt: string, cancelled: nat -> bool, b: Backend<D>) returns (r: Stream)
      ensures !IsReady() ==> r == InvalidOperation(NotReadyMessage)
      ensures IsReady() ==> r == Outcome(b, cancelled, prompt)
    {
      if !IsReady() {
        return InvalidOperation(NotReadyMessage);
      }
      var sequences := b.setup(prompt);
      if sequences.None? {
        return Fragments([], Faulted);
      }
      var parts, end := GenerationLoop(b, sequences.value, cancelled);
      r := Fragments(parts, end);
    }

    /** The single-turn overload: streams the fixed one-question template. */
    method InferStreamingTurn<D>(systemPrompt: string, userPrompt: string, cancelled: nat -> bool, b: Backend<D>)
      returns (r: Stream)
      ensures !IsReady() ==> r == InvalidOperation(NotReadyMessage)
      ensures IsReady() ==> r == Outcome(b, cancelled, SingleTurnPrompt(systemPrompt, userPrompt))
    {
      var prompt := SingleTurnPrompt(systemPrompt, userPrompt);
      r := InferStreaming(prompt, cancelled, b);
    }

    /** The history overload: streams the prompt built from the system prompt and the
        history; the user prompt plays no part in it. */
    method InferStreamingHistory<D>(systemPrompt: string, history: seq<ModelMessage>, userPrompt: string,
                                    cancelled: nat -> bool, b: Backend<D>)
      returns (r: Stream)
      ensures !IsReady() ==> r == InvalidOperation(NotReadyMessage)
      ensures IsReady() ==> r == Outcome(b, cancelled, HistoryPrompt(systemPrompt, history))
    {
      var prompt := BuildHistoryPrompt(systemPrompt, history, userPrompt);
      r := InferStreaming(prompt, cancelled, b);
    }
  }
}
