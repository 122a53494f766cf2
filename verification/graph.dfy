/** The compiled email assistant graph as an explicit transition system:
    configurations are a node plus the graph state, and one `Step` runs the
    node and follows its outgoing edge. The language model and the tool
    executors are an oracle the caller supplies. */
module Graph {
  import opened Wrappers
  import opened Messages
  import opened Router
  import DialogStack

  /** The graph state: the message list and the dialog stack. */
  datatype State = State(messages: seq<Message>, dialog: seq<string>)

  /** The node about to run and the state it will see. */
  datatype Config = Config(node: Node, state: State)

  /** What the outside world decides at one step: the model's reply at an
      assistant node, or at a tool node either the outputs of the tools or the
      representation of the exception one of them raised. */
  datatype Oracle =
    | Reply(content: string, calls: seq<ToolCall>)
    | ToolsRan(outputs: seq<string>)
    | ToolsRaised(errorRepr: string)

  /** Merges a node's update into the state: messages are appended and the
      dialog value goes through the stack reducer. */
  function Apply(st: State, u: Update): State
  {
    State(st.messages + u.messages, DialogStack.UpdateDialogStack(st.dialog, u.dialog))
  }

  /** A tool node (safe or sensitive) followed by its fixed edge back to `back`;
      an exception is caught by `handle_tool_error`. `None` when the node
      would itself fail because the last message is not a model message.
      `None` also for an oracle choice that cannot happen: a `ToolNode` that
      runs returns one output per pending call, so a count that does not match
      is not a raise but an impossible choice, and it yields no step. */
  function ToolStep(st: State, o: Oracle, back: Node): (r: Option<Config>)
    ensures r.Some? <==>
              LastIsAi(st.messages)
              && (o.ToolsRaised? || (o.ToolsRan? && |o.outputs| == |PendingCalls(st.messages)|))
    ensures r.Some? ==>
              && r.value.node == back
              && r.value.state.dialog == st.dialog
              && st.messages <= r.value.state.messages
              && Answers(r.value.state.messages[|st.messages|..], PendingCalls(st.messages))
  {
    if !LastIsAi(st.messages) then None
    else match o
      case ToolsRan(outputs) =>
        if |outputs| == |PendingCalls(st.messages)| then
          var st' := Apply(st, ToolNodeRan(st.messages, outputs));
          assert st'.messages[|st.messages|..] == ToolNodeRan(st.messages, outputs).messages;
          Some(Config(back, st'))
        else None
      case ToolsRaised(e) =>
        var st' := Apply(st, HandleToolError(st.messages, e));
        assert st'.messages[|st.messages|..] == HandleToolError(st.messages, e).messages;
        Some(Config(back, st'))
      case Reply(_, _) => None
  }

  /** One step of the graph: run the node of `c` with the oracle's choice and
      follow the conditional or fixed edge out of it. END is absorbing.
      `None` stands for the program raising. */
  function Step(c: Config, o: Oracle): (r: Option<Config>)
    ensures r.Some? ==> c.state.messages <= r.value.state.messages
    ensures r.Some? && c.node != EnterWriteSequence && c.node != LeaveWriteSequence ==>
              r.value.state.dialog == c.state.dialog
    ensures r.Some? && r.value.node == End ==> r.value.state.dialog == c.state.dialog
    ensures r.Some? && (c.node == Assistant || c.node == AssistantTools) ==>
              r.value.node in {End, AssistantTools, EnterWriteSequence, Assistant}
    ensures r.Some? && (c.node == WriteAssistant || c.node == WriterSensitiveTools) ==>
              r.value.node in {End, WriterSensitiveTools, LeaveWriteSequence, WriteAssistant}
    ensures r.Some? && c.node == EnterWriteSequence ==>
              r.value.node == WriteAssistant
              && r.value.state.dialog == c.state.dialog + [DialogStack.WriterPersona]
    ensures r.Some? && c.node == LeaveWriteSequence ==>
              r.value.node == Assistant
              && (|c.state.dialog| == 0 ==> r.value.state.dialog == [])
              && (|c.state.dialog| > 0 ==>
                    r.value.state.dialog + [c.state.dialog[|c.state.dialog| - 1]] == c.state.dialog)
  {
    var st := c.state;
    match c.node
    case Assistant =>
      if o.Reply? then
        var msgs := st.messages + [Ai(o.content, o.calls)];
        Some(Config(RouteAssistant(msgs), State(msgs, st.dialog)))
      else None
    case AssistantTools => ToolStep(st, o, Assistant)
    case EnterWriteSequence =>
      if PendingCalls(st.messages) != [] then
        Some(Config(WriteAssistant, Apply(st, EnterWriteSequenceNode(st.messages))))
      else None
    case WriteAssistant =>
      if o.Reply? then
        var msgs := st.messages + [Ai(o.content, o.calls)];
        Some(Config(RouteWriter(msgs), State(msgs, st.dialog)))
      else None
    case WriterSensitiveTools => ToolStep(st, o, WriteAssistant)
    case LeaveWriteSequence =>
      if LastIsAi(st.messages) then
        Some(Config(Assistant, Apply(st, PopDialogStateNode(st.messages))))
      else None
    case End => Some(c)
  }

  /** The conditions under which each node is entered by the graph's own edges. */
  predicate Ready(c: Config)
  {
    var calls := PendingCalls(c.state.messages);
    match c.node
    case AssistantTools => calls != []
    case WriterSensitiveTools => calls != []
    case EnterWriteSequence => calls != [] && calls[0].name == WriteAssistantTool
    case LeaveWriteSequence => AnyNamed(calls, CompleteOrEscalateTool)
    case _ => true
  }

  /** The oracle's choice is of the kind the node asks for. */
  predicate Fits(c: Config, o: Oracle)
  {
    match c.node
    case Assistant => o.Reply?
    case WriteAssistant => o.Reply?
    case AssistantTools =>
      o.ToolsRaised? || (o.ToolsRan? && |o.outputs| == |PendingCalls(c.state.messages)|)
    case WriterSensitiveTools =>
      o.ToolsRaised? || (o.ToolsRan? && |o.outputs| == |PendingCalls(c.state.messages)|)
    case _ => true
  }

  /** The graph never gets stuck: from a configuration its edges can produce,
      any fitting oracle choice gives a step, and the step again produces such
      a configuration. */
  lemma StepProgress(c: Config, o: Oracle)
    requires Ready(c) && Fits(c, o)
    ensures Step(c, o).Some?
    ensures Ready(Step(c, o).value)
  {
  }

  /** Every tool call the model issued in the batch a tool node handles gets
      exactly one correlated response, in call order, whether the tools ran
      or raised. */
  lemma ToolNodesAnswerEveryCall(c: Config, o: Oracle)
    requires c.node == AssistantTools || c.node == WriterSensitiveTools
    requires Step(c, o).Some?
    ensures Answers(Step(c, o).value.state.messages[|c.state.messages|..],
                    PendingCalls(c.state.messages))
  {
  }


  /** Leaving the write sequence from a reachable configuration always answers
      the first pending call: the hand-back is only routed when a call exists. */
  lemma LeaveAnswersHandBack(c: Config, o: Oracle)
    requires c.node == LeaveWriteSequence && Ready(c)
    ensures Step(c, o).Some?
    ensures Step(c, o).value.state.messages ==
              c.state.messages + [Tool(ResumeNotice, PendingCalls(c.state.messages)[0].id)]
  {
  }

  /** The main assistant's nodes. */
  predicate MainSide(n: Node)
  {
    n == Assistant || n == AssistantTools || n == EnterWriteSequence
  }

  /** The stack agrees with the node relative to a base stack: one writer entry
      above `base` exactly while the writing assistant is in control, and
      either at END. */
  predicate Aligned(base: seq<string>, c: Config)
  {
    var d := c.state.dialog;
    if c.node == End then d == base || d == base + [DialogStack.WriterPersona]
    else if MainSide(c.node) then d == base
    else d == base + [DialogStack.WriterPersona]
  }

  /** Each step keeps the stack aligned with the node. */
  lemma StepKeepsAligned(base: seq<string>, c: Config, o: Oracle)
    requires Aligned(base, c)
    requires Step(c, o).Some?
    ensures Aligned(base, Step(c, o).value)
  {
    var c' := Step(c, o).value;
    if c.node == LeaveWriteSequence {
      assert c.state.dialog == base + [DialogStack.WriterPersona];
      assert c'.state.dialog + [DialogStack.WriterPersona] == base + [DialogStack.WriterPersona];
      assert c'.state.dialog == (c'.state.dialog + [DialogStack.WriterPersona])[..|base|];
    }
  }

  /** Runs the graph for as many steps as the oracle has choices. */
  function Run(c: Config, os: seq<Oracle>): Option<Config>
    decreases |os|
  {
    if |os| == 0 then Some(c)
    else match Step(c, os[0])
      case None => None
      case Some(c') => Run(c', os[1..])
  }

  /** Any run keeps the stack aligned with the node. */
  lemma {:induction false} RunKeepsAligned(base: seq<string>, c: Config, os: seq<Oracle>)
    requires Aligned(base, c)
    requires Run(c, os).Some?
    ensures Aligned(base, Run(c, os).value)
    decreases |os|
  {
    if |os| > 0 {
      StepKeepsAligned(base, c, os[0]);
      RunKeepsAligned(base, Step(c, os[0]).value, os[1..]);
    }
  }

  /** Any run only appends to the message list. */
  lemma {:induction false} RunOnlyAppends(c: Config, os: seq<Oracle>)
    requires Run(c, os).Some?
    ensures c.state.messages <= Run(c, os).value.state.messages
    decreases |os|
  {
    if |os| > 0 {
      RunOnlyAppends(Step(c, os[0]).value, os[1..]);
    }
  }

  /** Push/pop symmetry: once a delegation has been entered, whenever control
      is back at one of the main assistant's nodes the stack is exactly what
      it was before the delegation. */
  lemma DelegationRestoresStack(st: State, os: seq<Oracle>)
    requires Run(Config(EnterWriteSequence, st), os).Some?
    requires MainSide(Run(Config(EnterWriteSequence, st), os).value.node)
    ensures Run(Config(EnterWriteSequence, st), os).value.state.dialog == st.dialog
  {
    RunKeepsAligned(st.dialog, Config(EnterWriteSequence, st), os);
  }

  /** The node a new turn starts at (`set_conditional_entry_point`): the node
      named by the top of the stack. A top that names no node makes the turn
      fail (`None`), as the compiled graph rejects an unknown branch. */
  function Entry(st: State): (r: Option<Node>)
    ensures |st.dialog| == 0 ==> r == Some(Assistant)
    ensures r.Some? ==> r.value != End && NodeName(r.value) == DialogStack.PickStartingPoint(Some(st.dialog))
    ensures r.None? <==>
              |st.dialog| > 0 && forall n: Node :: n != End ==> NodeName(n) != st.dialog[|st.dialog| - 1]
  {
    var name := DialogStack.PickStartingPoint(Some(st.dialog));
    NodeNamed(name)
  }

  /** A turn: the user's message is appended and the graph runs from the entry point. */
  function Turn(st: State, userText: string, os: seq<Oracle>): (r: Option<Config>)
    ensures Entry(st).None? ==> r.None?
    ensures r.Some? ==> st.messages + [Human(userText)] <= r.value.state.messages
    ensures |os| == 0 && Entry(st).Some? ==>
              r == Some(Config(Entry(st).value, State(st.messages + [Human(userText)], st.dialog)))
  {
    match Entry(st)
    case None => None
    case Some(n) =>
      var c := Config(n, State(st.messages + [Human(userText)], st.dialog));
      if Run(c, os).Some? then RunOnlyAppends(c, os); Run(c, os) else Run(c, os)
  }

  /** A fresh conversation starts with no messages and an empty stack. */
  function Initial(): (st: State)
    ensures Aligned([], Config(End, st))
  {
    State([], [])
  }

  /** Between turns the stack is empty or holds the writer alone, so the entry
      point always names a real node, and it is the writing assistant exactly
      when a delegation is in progress; the next turn keeps this. */
  lemma TurnKeepsStackShallow(st: State, userText: string, os: seq<Oracle>)
    requires Aligned([], Config(End, st))
    ensures Entry(st).Some?
    ensures Entry(st) == Some(WriteAssistant) <==> st.dialog == [DialogStack.WriterPersona]
    ensures Turn(st, userText, os).Some? ==> Aligned([], Turn(st, userText, os).value)
  {
    var n := Entry(st).value;
    var start := Config(n, State(st.messages + [Human(userText)], st.dialog));
    assert Aligned([], start);
    if Turn(st, userText, os).Some? {
      RunKeepsAligned([], start, os);
    }
  }
}
