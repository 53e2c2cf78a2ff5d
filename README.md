# ChatAppGenAI streaming chat session, modelled in Dafny

ChatAppGenAI is a WinUI chat window that sends a conversation to a local
language model through ONNX Runtime GenAI and shows the reply as the model
streams it. This project models the core of that application and proves
properties of it:

- **Prompt building** (`Prompt`, from `ModelRunner.cs`). The two chat templates
  use the Llama 3 markers (`<|begin_of_text|>`, `<|start_header_id|>` …
  `<|end_header_id|>`, `<|eot_id|>`). The history template is built by a
  `foreach` loop (`BuildHistoryPrompt`), which is proved equal to a
  system segment, one segment per message in order, and the assistant header.
  The model keeps three quirks of the code:
  - the `$@` verbatim strings at lines 33 and 39 write `\n` as two characters,
    a backslash and an `n`;
  - the ordinary `$"..."` string at line 42 writes a real line feed;
  - the assistant header at line 44 has no new line after it, and the
    history overload never uses its `userPrompt` argument.
- **The model runner** (`Runner`, from `ModelRunner.cs`). The runner is a
  class with two nullable handle fields. `IsReady` holds when both are set.
  `InitializeAsync` sets them one after the other and raises `ModelLoaded`
  only when both constructors succeed. `Dispose` disposes whichever handles
  are set. The streaming loop `InferStreaming` throws when the runner is not
  ready. Otherwise it sets up the generator and runs it until `IsDone()`.
  Cancellation is checked at the head of each iteration, and a step that
  throws inside the `try` ends the stream quietly. An exception from the setup
  calls or from `IsDone()` is outside the `try`, so it escapes to the consumer.
  The loop is proved equal to `Run`, a function of the abstract generator.
  `Outcome` is `Run` after a setup that succeeds. Lemmas about them show:
  - fragment i decodes the token appended in iteration i;
  - there are never more fragments than steps;
  - cancellation, a failing step or a throwing `IsDone()` at iteration k leaves
    exactly k fragments;
  - an exception escapes exactly when the setup throws or `IsDone()` throws
    where the loop stops.
- **The view model** (`ChatWindow`, from `MainWindow.xaml.cs`).
  - `VM.AddMessage` closes the `AcceptsMessages` gate and appends a user message.
  - `VM.Respond`, the body of `AddMessage`'s background task, snapshots the
    history, appends a `"..."` placeholder reply and streams the reply into it.
    The first fragment replaces the placeholder with its `TrimStart`, and later
    fragments are appended. When the stream ends without an exception, it
    reopens the gate.
  - `VM.Submit` is one whole turn: `AddMessage` followed by its task.
  - The Enter-key handler submits only a non-empty text box, then clears it.

ONNX Runtime GenAI is abstract. A `Backend` holds four parts of one call:
- the setup before the loop (`new GeneratorParams`, the tokenizer's `Encode`,
  the three parameter settings, `CreateStream` and `new Generator`): the
  encoded prompt, or `None` when one of those calls throws;
- the generator's behaviour for an encoded prompt: the list of steps it runs
  before `IsDone()` holds. Each step appends a token, throws inside the `try`,
  or is an `IsDone()` call that throws;
- the initial state of the tokenizer stream;
- the stream's stateful `Decode`.

A cancellation token is a predicate on the iteration number. Whether the
`Model` and `Tokenizer` constructors succeed is a parameter of
`InitializeAsync`. Time stamps are opaque values, and their formatting is a
parameter of `Message.ToString`.

Everything runs in sequence. `AddMessage` returns, then its background task
runs to completion as `VM.Respond`. The dispatcher-queue callbacks run in the
order they were queued.

The model follows the code in five places where a reader might expect otherwise:
- `AddMessage` does not check the gate itself. Nothing in the C# code keeps a
  second message out while a reply is pending; a UI binding of
  `AcceptsMessages` would.
- Only fragment 0 is trimmed, not the first non-empty fragment.
  `OnlyFirstFragmentTrimmed` shows `["", " Hello"]` giving `" Hello"`.
- A not-ready runner throws out of the background task, before the gate is
  reopened. The reply then keeps `"..."` and the gate stays closed (`VM.Respond`).
- The `try` at lines 70-88 of `ModelRunner.cs` covers only the body of an
  iteration. An exception from the setup calls (lines 56-65) or from
  `IsDone()` (line 67) escapes the `await foreach`. The reply then keeps what it
  has received and the gate stays closed (`VM.Respond`, `VM.Submit`).
- The single-turn template writes its user header and its ending with verbatim
  backslash-`n` sequences. So it differs from the history template on the same
  one-message conversation (`SingleTurnIsNotOneMessageHistory`).

## Model

| member | source | states |
|---|---|---|
| Text.TrimStart | ChatAppGenAI/MainWindow.xaml.cs:105 | `TrimStart()` gives a suffix of its input. Everything it removes is white space (.NET `Char.IsWhiteSpace`), and the result does not start with white space. |
| Text.TrimStartUnique | ChatAppGenAI/MainWindow.xaml.cs:105 | Split a string into a white-space head and a rest that does not start with white space. Then `TrimStart` returns exactly that rest. |
| Text.TrimStartIdempotent | ChatAppGenAI/MainWindow.xaml.cs:105 | Trimming a trimmed fragment changes nothing. |
| Text.ToLower | ChatAppGenAI/ModelRunner.cs:42 | `ToLower()` keeps the length. It maps every character to its lower-case form, so no capital letter is left. |
| Text.ConcatAppend | ChatAppGenAI/MainWindow.xaml.cs:108 | Appending fragments group by group gives the same text as appending them one by one. |
| Prompt.RoleTags | ChatAppGenAI/ModelRunner.cs:120-124 | `Type.ToString().ToLower()` gives `"user"` for `User` and `"assistant"` for `Assistant`, and each tag names only its own role. |
| Prompt.BuildHistoryPrompt | ChatAppGenAI/ModelRunner.cs:37-46 | The `foreach` loop gives the system segment, the messages' segments in order and the assistant header. The result does not depend on `userPrompt`. |
| Prompt.SegmentsAppend | ChatAppGenAI/ModelRunner.cs:40-43 | The segments of a joined history are the segments of its two parts, one after the other. |
| Prompt.SegmentAt | ChatAppGenAI/ModelRunner.cs:40-43 | Message i adds exactly its own segment: header, role tag, line feed, text and `<|eot_id|>`. It comes after the segments of earlier messages and before those of later ones. |
| Prompt.HistoryPromptLayout | ChatAppGenAI/ModelRunner.cs:39-44 | The history prompt starts with the verbatim system segment, then the segments, then `<|start_header_id|>assistant<|end_header_id|>`. Its last character is `>`, with no new line after it. |
| Prompt.AppendMessage | ChatAppGenAI/ModelRunner.cs:40-44 | Adding a message to the history inserts exactly its segment just before the assistant header. The text before that point stays the same. |
| Prompt.EmptyHistoryPrompt | ChatAppGenAI/ModelRunner.cs:39-44 | With an empty history, the prompt is the system segment followed by the assistant header. |
| Prompt.SingleTurnLayout | ChatAppGenAI/ModelRunner.cs:33 | The single-turn prompt is the system segment, then a user segment with a verbatim `\n`, then the assistant header followed by a verbatim `\n`. It is 170 characters longer than the two prompts together. |
| Prompt.SingleTurnIsNotOneMessageHistory | ChatAppGenAI/ModelRunner.cs:33-44 | The single-turn prompt for a user text never equals the history prompt for one user message with that text. It is exactly 3 characters longer. |
| Runner.StopIndex | ChatAppGenAI/ModelRunner.cs:67-88 | The loop stops at the first iteration whose `IsDone()` throws, that sees cancellation, or whose step throws. If no iteration does, it stops when the steps run out (`IsDone()`). |
| Runner.StopIndexIs | ChatAppGenAI/ModelRunner.cs:67-88 | Any k before which no iteration stops, and at which one stops or the steps run out, is the stop iteration. |
| Runner.Tokens | ChatAppGenAI/ModelRunner.cs:79-80 | One token is appended per successful step, so there are at most as many tokens as steps. |
| Runner.TokensLength | ChatAppGenAI/ModelRunner.cs:79-80 | When every step succeeds, there are exactly as many tokens as steps. |
| Runner.TokensOfPrefix | ChatAppGenAI/ModelRunner.cs:79-80 | When all steps succeed, token i is step i's token, and the first i tokens come from the first i steps. |
| Runner.DecodeAll | ChatAppGenAI/ModelRunner.cs:80 | The tokenizer stream gives one fragment per token it is fed. |
| Runner.DecodeAllAt | ChatAppGenAI/ModelRunner.cs:80 | Fragment i is the decode of token i, by the stream in the state the first i tokens left it in. |
| Runner.OutcomeFaulted | ChatAppGenAI/ModelRunner.cs:56-67 | A ready runner's stream never gives the not-ready exception. An exception escapes it exactly when a setup call throws, or `IsDone()` throws at the iteration where the loop stops. A setup failure yields no fragment. |
| Runner.RunFragments | ChatAppGenAI/ModelRunner.cs:67-91 | The stream yields as many fragments as iterations finished. That is never more than the steps before `IsDone()`. Each fragment decodes the token appended in its own iteration. |
| Runner.CancelledAt | ChatAppGenAI/ModelRunner.cs:67-75 | Suppose cancellation is first seen at iteration k, whose `IsDone()` returns normally, and no step has thrown before it. Then the stream ends as cancelled, having yielded exactly the k earlier fragments. |
| Runner.FailedAt | ChatAppGenAI/ModelRunner.cs:84-88 | Suppose the step of iteration k throws, with no cancellation or failure before it. Then the stream ends without an exception, having yielded exactly the k earlier fragments. |
| Runner.FaultedAt | ChatAppGenAI/ModelRunner.cs:67 | Suppose `IsDone()` throws at the head of iteration k, with no cancellation or failure before it. Then the k earlier fragments have been yielded and the exception escapes. |
| Runner.CompletedRun | ChatAppGenAI/ModelRunner.cs:67-91 | With no cancellation and no failure, the stream runs until `IsDone()` and yields the decode of every generated token, in order. |
| Runner.ModelHandle.constructor | ChatAppGenAI/ModelRunner.cs:99 | A newly opened model handle is not disposed. |
| Runner.TokenizerHandle.constructor | ChatAppGenAI/ModelRunner.cs:100 | A new tokenizer is made from the given model and is not disposed. |
| Runner.ModelRunner.constructor | ChatAppGenAI/ModelRunner.cs:18-19 | A new runner has both handles null, so it is not ready. |
| Runner.ModelRunner.IsReady | ChatAppGenAI/ModelRunner.cs:22-23 | Holds exactly when both handles are non-null, that is, when the runner holds two handles. |
| Runner.ModelRunner.Handles | ChatAppGenAI/ModelRunner.cs:27-28 | The set of handles holds every handle that is not null, and nothing but the two handle fields. |
| Runner.ModelRunner.Dispose | ChatAppGenAI/ModelRunner.cs:25-29 | `Dispose` disposes every handle that is not null and leaves both fields as they were. |
| Runner.ModelRunner.InitializeAsync | ChatAppGenAI/ModelRunner.cs:94-104 | `ModelLoaded` is raised exactly when both constructors succeed, and then the runner is ready. A model failure changes neither field. A tokenizer failure leaves the new model set and the tokenizer as it was. |
| Runner.GenerationLoop | ChatAppGenAI/ModelRunner.cs:64-91 | The `while (!generator.IsDone())` loop yields the decode of each appended token, in order, up to the stop iteration. It then ends as completed, faulted by `IsDone()`, cancelled or failed, whichever the stop iteration shows, checked in that order. |
| Runner.ModelRunner.InferStreaming | ChatAppGenAI/ModelRunner.cs:49-92 | A runner that is not ready raises `InvalidOperationException("Model is not ready")` and yields nothing. A ready runner yields exactly `Outcome` of the prompt. An exception thrown by a step does not escape, while one thrown by the setup (:56-65) or by `IsDone()` (:67) does. |
| Runner.ModelRunner.InferStreamingTurn | ChatAppGenAI/ModelRunner.cs:31-35 | The single-turn overload streams the fixed single-turn template. |
| Runner.ModelRunner.InferStreamingHistory | ChatAppGenAI/ModelRunner.cs:37-47 | The history overload streams the history prompt. What it yields does not depend on `userPrompt`. |
| ChatWindow.Message.constructor | ChatAppGenAI/MainWindow.xaml.cs:128-133 | A new message holds the given text, time stamp and type. |
| ChatWindow.Message.ToString | ChatAppGenAI/MainWindow.xaml.cs:135-138 | `ToString()` gives the formatted time stamp, then one space, then the text. |
| ChatWindow.Snapshot | ChatAppGenAI/MainWindow.xaml.cs:84 | The history is `Messages` mapped in order to (Text, Type), one entry per message. |
| ChatWindow.ResponseTextFirst | ChatAppGenAI/MainWindow.xaml.cs:101-108 | The first fragment replaces the placeholder with its trimmed self. |
| ChatWindow.ResponseTextStep | ChatAppGenAI/MainWindow.xaml.cs:99-109 | Every fragment after the first is appended unchanged to the text so far. |
| ChatWindow.ResponseTextPrefix | ChatAppGenAI/MainWindow.xaml.cs:99-109 | After each fragment, the reply text is a prefix of the final reply text. |
| ChatWindow.OnlyFirstFragmentTrimmed | ChatAppGenAI/MainWindow.xaml.cs:101-106 | Fragments `""` then `" Hello"` give `" Hello"`: only fragment 0 is trimmed. |
| ChatWindow.HelloWorldReply | ChatAppGenAI/MainWindow.xaml.cs:94-109 | Fragments `""`, `"Hello"` and `" world"` give `"Hello world"`. |
| ChatWindow.ReceiveFragments | ChatAppGenAI/MainWindow.xaml.cs:94-110 | With no fragments the text stays as it was, `"..."` for a reply. Otherwise it ends as `TrimStart(f0) + f1 + … + f(n-1)`: the placeholder is dropped and fragments are applied in order, none lost or repeated. |
| ChatWindow.VM.constructor | ChatAppGenAI/MainWindow.xaml.cs:61-66 | The view model starts with no messages. The gate opens exactly when both handles can be opened, and only while the runner is ready. |
| ChatWindow.VM.Phi3ModelLoaded | ChatAppGenAI/MainWindow.xaml.cs:68-74 | The `ModelLoaded` handler opens the gate and leaves the messages unchanged. |
| ChatWindow.VM.AddMessage | ChatAppGenAI/MainWindow.xaml.cs:76-79 | `AddMessage` closes the gate and appends exactly one new user message with the given text and time. Earlier messages are unchanged. |
| ChatWindow.VM.Respond | ChatAppGenAI/MainWindow.xaml.cs:81-116 | The history passed on is the snapshot taken before the reply is added, so its last entry is the message just added. One assistant reply is appended and earlier texts are untouched. If the runner is ready, the reply ends as the folded stream. The gate is then open, unless an exception escaped the stream, in which case it is unchanged. If the runner is not ready, the reply keeps `"..."` and the gate is unchanged. |
| ChatWindow.VM.Submit | ChatAppGenAI/MainWindow.xaml.cs:76-116 | A whole turn. The history the model sees is the earlier messages followed by the new user message. Earlier messages are unchanged. Two messages are appended: the user message with the given text and its own time stamp, then the assistant reply with the time read in the task (:79 and :86). If the runner is ready, the reply ends as the folded stream; otherwise it keeps `"..."`. The gate ends open exactly when the runner is ready and no exception escaped its stream. |
| ChatWindow.MainWindow.constructor | ChatAppGenAI/MainWindow.xaml.cs:32-36 | The window creates the view model, whose gate opens exactly when loading succeeds. |
| ChatWindow.MainWindow.TextBoxKeyUp | ChatAppGenAI/MainWindow.xaml.cs:38-49 | Enter on a non-empty box submits exactly its text and clears the box. Any other key, or an empty box, changes nothing. |

## Left out

- Threads, `Task.Run` and `DispatcherQueue.TryEnqueue` are modelled as running in sequence. Both delays, `Task.Delay(1000)` and `Task.Delay(0, ct)`, are left out. In the real program the one-second delay lets fragment callbacks, and even the reopening of the gate, run before the placeholder reply is added to `Messages`. The model does not capture that interleaving.
- `IAsyncEnumerable` laziness: a stream is modelled as the complete list of fragments it yields together with why it ended. Consuming it one item at a time is not modelled.
- ONNX Runtime GenAI internals are abstract functions of a `Backend`: `Model`, `Tokenizer`, `Encode`, `ComputeLogits`, `GenerateNextToken` and the tokenizer stream. Of the `GeneratorParams` settings, `max_length` 2048 bounds the generator's step list, and `TryGraphCaptureWithMaxBatchSize(1)` only changes how the generator runs. Neither is modelled separately; a throw from any of the settings is `setup` returning `None`.
- `Dispose` marks handles disposed; releasing native resources, and what a disposed handle would do if used again, are not modelled.
- `Debug.WriteLine`, `Stopwatch`, the never-read `StringBuilder`, and the hard-coded model directory have no effect the model can observe.
- `DateTime.Now` values are opaque, and `DateTime.ToString()` is a formatting parameter because it depends on the current culture.
- Text.ToLower: lower-cases ASCII letters only, not the culture-dependent mappings of `string.ToLower()`; this project only applies it to the enum names `User` and `Assistant`.
- WinUI plumbing: `Window`, `InitializeComponent`, `ObservableObject` change notification, the `sender as TextBox` cast, `KeyRoutedEventArgs` (reduced to the key pressed), and the `MsgAlignment` layout property.
- Subscribing to `ModelLoaded` is modelled as the `VM` constructor calling `Phi3ModelLoaded` when the load raises the event. Other subscribers are not modelled.
- An exception that escapes `InitializeAsync`'s task or `Respond`'s task just ends that task, since nothing awaits it. The model has no separate representation of the faulted task. Which exception escapes is not modelled: a not-ready runner's `InvalidOperationException` is kept apart, and every other escaping exception is the stream end `Faulted`.
