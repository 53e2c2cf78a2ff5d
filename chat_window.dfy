/** The chat window's view model (MainWindow.xaml.cs): the list of messages, the
    flag that says whether a new message is accepted, the turn that streams the
    model's reply into a placeholder message, and the Enter-key handler. Everything
    runs sequentially: the background task of a turn is the method Respond, run
    after AddMessage has returned. */
module ChatWindow {
  import opened Text
  import opened Prompt
  import opened Runner

  /** A point in time (System.DateTime); only passed around and formatted. */
  datatype DateTime = DateTime(ticks: int)

  /** Message: a chat bubble. Its text changes while a reply is streamed into it. */
  class Message {
    var text: string
    const msgDateTime: DateTime
    var messageType: ModelMessageType

    constructor (text: string, dateTime: DateTime, messageType: ModelMessageType)
      ensures this.text == text && msgDateTime == dateTime && this.messageType == messageType
    {
      this.text := text;
      msgDateTime := dateTime;
      this.messageType := messageType;
    }

    /** ToString(): the time stamp as `format` writes it (DateTime.ToString() depends
        on the current culture), a space, then the text. */
    function ToString(format: DateTime -> string): (s: string)
      reads this
      ensures var stamp := format(msgDateTime);
        && |s| == |stamp| + 1 + |text|
        && s[..|stamp|] == stamp && s[|stamp|] == ' ' && s[|stamp| + 1..] == text
    {
      format(msgDateTime) + " " + text
    }
  }

  /** The history handed to the model: each message's text and type, in order. */
  function Snapshot(ms: seq<Message>): (h: seq<ModelMessage>)
    reads ms
    ensures |h| == |ms|
    ensures forall i :: 0 <= i < |ms| ==> h[i] == ModelMessage(ms[i].text, ms[i].messageType)
  {
    if ms == [] then []
    else Snapshot(ms[..|ms| - 1]) + [ModelMessage(ms[|ms| - 1].text, ms[|ms| - 1].messageType)]
  }

  const SystemPrompt := "You are a maths assistant to help students answer homework questions. Do not provide any code  in your response."

  /** The text a reply message shows before its first fragment arrives. */
  const Placeholder := "..."

  /** The call to InferStreaming passes no cancellation token. */
  const NoCancellation: nat -> bool := (k: nat) => false

  /** The text of a reply message once the given fragments have arrived: the
      placeholder while there are none, then the first fragment with its leading
      white space removed followed by the others as they are. */
  function ResponseText(placeholder: string, parts: seq<string>): string {
    if parts == [] then placeholder else TrimStart(parts[0]) + Concat(parts[1..])
  }

  /** The first fragment replaces the placeholder with its trimmed self. */
  lemma ResponseTextFirst(placeholder: string, parts: seq<string>)
    requires parts != []
    ensures ResponseText(placeholder, parts[..1]) == TrimStart(parts[0])
  {
    assert parts[..1][1..] == [];
  }

  lemma ConcatOneMore(parts: seq<string>, i: nat)
    requires 1 <= i < |parts|
    ensures Concat(parts[1..i + 1]) == Concat(parts[1..i]) + parts[i]
  {
    assert parts[1..i + 1][..i - 1] == parts[1..i];
  }

  /** Each fragment after the first is appended as it is, in arrival order. */
  lemma ResponseTextStep(placeholder: string, parts: seq<string>, i: nat)
    requires 1 <= i < |parts|
    ensures ResponseText(placeholder, parts[..i + 1]) == ResponseText(placeholder, parts[..i]) + parts[i]
  {
    var rest := parts[..i + 1][1..];
    assert rest[..|rest| - 1] == parts[..i][1..];
    assert rest[|rest| - 1] == parts[i];
    AppendAssoc(TrimStart(parts[0]), Concat(parts[..i][1..]), parts[i]);
  }

  /** Once a fragment has arrived, the text shown is always a prefix of the final text. */
  lemma ResponseTextPrefix(placeholder: string, parts: seq<string>, i: nat)
    requires 1 <= i <= |parts|
    ensures ResponseText(placeholder, parts[..i]) <= ResponseText(placeholder, parts)
  {
    var rest := parts[1..];
    ConcatPrefix(rest, i - 1);
    assert parts[..i][1..] == rest[..i - 1];
    assert parts[..i][0] == parts[0];
    PrefixAfterHead(TrimStart(parts[0]), Concat(rest[..i - 1]), Concat(rest));
  }

  /** Only the very first fragment is trimmed: an empty first fragment leaves the
      white space at the head of the second one in place. */
  lemma OnlyFirstFragmentTrimmed()
    ensures ResponseText(Placeholder, ["", " Hello"]) == " Hello"
  {
    assert ["", " Hello"][1..] == [" Hello"];
    ConcatTwo(" Hello", "");
  }

  /** Fragments "", "Hello" and " world" give "Hello world". */
  lemma HelloWorldReply()
    ensures ResponseText(Placeholder, ["", "Hello", " world"]) == "Hello world"
  {
    assert ["", "Hello", " world"][1..] == ["Hello", " world"];
    ConcatTwo("Hello", " world");
  }

  /** The await foreach over the stream: the first fragment replaces the text with its
      trimmed self, every later one is appended. */
  method ReceiveFragments(response: Message, parts: seq<string>)
    modifies response
    ensures response.text == ResponseText(old(response.text), parts)
    ensures response.messageType == old(response.messageType)
  {
    ghost var placeholder := response.text;
    var firstPart := true;
    for i := 0 to |parts|
      invariant firstPart <==> i == 0
      invariant i == 0 ==> response.text == placeholder
      invariant i > 0 ==> response.text == TrimStart(parts[0]) + Concat(parts[1..i])
      invariant response.messageType == old(response.messageType)
    {
      var part := parts[i];
      if firstPart {
        response.text := "";
        firstPart := false;
        part := TrimStart(parts[i]);
        assert parts[1..1] == [];
      } else {
        ConcatOneMore(parts, i);
        AppendAssoc(TrimStart(parts[0]), Concat(parts[1..i]), parts[i]);
      }
      response.text := response.text + part;
    }
    if parts != [] {
      assert parts[1..|parts|] == parts[1..];
    }
  }

  /** VM: the messages shown and whether another one is accepted. */
  class VM {
    var messages: seq<Message>
    var acceptsMessages: bool
    const phi3: ModelRunner

    /** The gate is open only while the runner is ready. */
    ghost predicate Valid()
      reads this, phi3
    {
      acceptsMessages ==> phi3.IsReady()
    }

    /** Creates the runner, subscribes to ModelLoaded and runs the load; the gate opens
        exactly when both handles could be opened. */
    constructor (modelOpens: bool, tokenizerOpens: bool)
      ensures Valid() && fresh(phi3) && messages == []
      ensures acceptsMessages <==> modelOpens && tokenizerOpens
      ensures phi3.IsReady() <==> modelOpens && tokenizerOpens
    {
      phi3 := new ModelRunner();
      messages := [];
      acceptsMessages := false;
      new;
      var loaded := phi3.InitializeAsync(modelOpens, tokenizerOpens);
      if loaded {
        Phi3ModelLoaded();
      }
    }

    /** The ModelLoaded handler; ModelLoaded is raised only once both handles are set. */
    method Phi3ModelLoaded()
      requires phi3.IsReady()
      modifies this
      ensures Valid() && acceptsMessages && messages == old(messages)
    {
      acceptsMessages := true;
    }

    /** AddMessage up to the start of its background task: closes the gate and appends
        one user message; it does not look at the gate itself. */
    method AddMessage(text: string, now: DateTime)
      modifies this
      ensures Valid() && !acceptsMessages
      ensures |messages| == |old(messages)| + 1 && messages[..|old(messages)|] == old(messages)
      ensures var m := messages[|messages| - 1];
        fresh(m) && m.text == text && m.messageType == User && m.msgDateTime == now
    {
      acceptsMessages := false;
      var m := new Message(text, now, User);
      messages := messages + [m];
    }

    /** AddMessage's background task: snapshots the history, appends the placeholder
        reply, streams the reply into it and reopens the gate. If the runner is not
        ready the stream throws at once: the reply keeps its placeholder and the gate
        stays as it was. If an exception escapes a ready runner's stream, the
        fragments before it stay in the reply and the gate stays as it was. Earlier
        messages are untouched. */
    method Respond<D>(text: string, now: DateTime, backend: Backend<D>)
      returns (history: seq<ModelMessage>, response: Message)
      requires Valid()
      modifies this
      ensures Valid()
      ensures history == old(Snapshot(messages))
      ensures old(messages) != [] ==>
        history[|history| - 1] == ModelMessage(old(messages[|messages| - 1].text), old(messages[|messages| - 1].messageType))
      ensures fresh(response) && messages == old(messages) + [response]
      ensures forall i :: 0 <= i < |old(messages)| ==> messages[i].text == old(messages[i].text)
      ensures response.messageType == Assistant && response.msgDateTime == now
      ensures phi3.IsReady() ==>
        var s := Outcome(backend, NoCancellation, HistoryPrompt(SystemPrompt, history));
        && response.text == ResponseText(Placeholder, s.parts)
        && (s.end != Faulted ==> acceptsMessages)
        && (s.end == Faulted ==> acceptsMessages == old(acceptsMessages))
      ensures !phi3.IsReady() ==> response.text == Placeholder && acceptsMessages == old(acceptsMessages)
    {
      history := Snapshot(messages);
      response := new Message(Placeholder, now, Assistant);
      messages := messages + [response];
      var stream := phi3.InferStreamingHistory(SystemPrompt, history, text, NoCancellation, backend);
      if stream.InvalidOperation? {
        return;
      }
      ReceiveFragments(response, stream.parts);
      if stream.end == Faulted {
        return;
      }
      acceptsMessages := true;
    }

    /** One whole turn: AddMessage followed by its background task, each reading the
        clock once. The history the model sees ends with the new user message, and the
        gate ends open exactly when the runner is ready and no exception escaped its
        stream. */
    method Submit<D>(text: string, sent: DateTime, answered: DateTime, backend: Backend<D>)
      returns (history: seq<ModelMessage>, response: Message)
      requires Valid()
      modifies this
      ensures Valid()
      ensures history == old(Snapshot(messages)) + [ModelMessage(text, User)]
      ensures fresh(response) && |messages| == |old(messages)| + 2
      ensures messages[..|old(messages)|] == old(messages) && messages[|messages| - 1] == response
      ensures var m := messages[|old(messages)|];
        m.text == text && m.messageType == User && m.msgDateTime == sent
      ensures response.messageType == Assistant && response.msgDateTime == answered
      ensures phi3.IsReady() ==>
        response.text == ResponseText(Placeholder, Outcome(backend, NoCancellation, HistoryPrompt(SystemPrompt, history)).parts)
      ensures !phi3.IsReady() ==> response.text == Placeholder
      ensures acceptsMessages <==>
        phi3.IsReady() && Outcome(backend, NoCancellation, HistoryPrompt(SystemPrompt, history)).end != Faulted
    {
      ghost var before := messages;
      AddMessage(text, sent);
      assert messages[..|before|] == before;
      history, response := Respond(text, answered, backend);
      assert messages[..|before|] == before;
    }
  }

  /** The text box the user types into. */
  class TextBox {
    var text: string
  }

  datatype VirtualKey = Enter | OtherKey(code: int)

  class MainWindow {
    const vm: VM

    constructor (modelOpens: bool, tokenizerOpens: bool)
      ensures fresh(vm) && vm.Valid() && vm.messages == []
      ensures vm.acceptsMessages <==> modelOpens && tokenizerOpens
    {
      vm := new VM(modelOpens, tokenizerOpens);
    }

    /** TextBox_KeyUp: on Enter with a non-empty box, submits the box's text and clears
        the box; any other key, or an empty box, changes nothing. */
    method TextBoxKeyUp(textBox: TextBox, key: VirtualKey, now: DateTime)
      requires vm.Valid()
      modifies textBox, vm
      ensures vm.Valid()
      ensures key.Enter? && |old(textBox.text)| > 0 ==>
        && textBox.text == ""
        && !vm.acceptsMessages
        && |vm.messages| == |old(vm.messages)| + 1
        && vm.messages[..|old(vm.messages)|] == old(vm.messages)
        && vm.messages[|vm.messages| - 1].text == old(textBox.text)
        && vm.messages[|vm.messages| - 1].messageType == User
      ensures !(key.Enter? && |old(textBox.text)| > 0) ==>
        textBox.text == old(textBox.text) && vm.messages == old(vm.messages) && vm.acceptsMessages == old(vm.acceptsMessages)
    {
      if key.Enter? {
        if |textBox.text| > 0 {
          vm.AddMessage(textBox.text, now);
          textBox.text := "";
        }
      }
    }
  }
}
