/** The routing functions and the small bookkeeping nodes of the email
    assistant graph: which node runs next, and which synthetic tool responses
    and dialog-stack updates the hand-off nodes produce. */
module Router {
  import opened Wrappers
  import opened Messages
  import DialogStack

  /** Name of the delegation tool the main assistant calls to hand over to the writer. */
  const WriteAssistantTool: string := "WriteAssistant"

  /** Name of the control tool the writer calls to hand control back. */
  const CompleteOrEscalateTool: string := "CompleteOrEscalate"

  /** Text of the synthetic response that answers the delegation call. */
  const DelegationNotice: string :=
    "Delegating work to the writing assistant. Use your provided tools to assist the user with their request."
    + " Once you have enough information, perform the necessary actions to complete the task."
    + " Note that you will see other tools used in the conversation. Remember you only have access to the tools provided in the prompt."

  /** Text of the synthetic response that answers the hand-back call. */
  const ResumeNotice: string :=
    "Resuming dialog with the assistant. Please reflect on the past conversation and assist the user as needed."

  /** The nodes of the graph, plus the terminal END. */
  datatype Node =
    | Assistant
    | AssistantTools
    | EnterWriteSequence
    | WriteAssistant
    | WriterSensitiveTools
    | LeaveWriteSequence
    | End

  /** The name each node is registered under; END is the framework's "__end__". */
  function NodeName(n: Node): string
  {
    match n
    case Assistant => "assistant"
    case AssistantTools => "assistant_tools"
    case EnterWriteSequence => "enter_write_sequence"
    case WriteAssistant => "write_assistant"
    case WriterSensitiveTools => "writer_sensitive_tools"
    case LeaveWriteSequence => "leave_write_sequence"
    case End => "__end__"
  }

  /** The node a name refers to, if any; the entry point may only name a real node. */
  function NodeNamed(s: string): (r: Option<Node>)
    ensures r.Some? ==> r.value != End && NodeName(r.value) == s
  {
    if s == "assistant" then Some(Assistant)
    else if s == "assistant_tools" then Some(AssistantTools)
    else if s == "enter_write_sequence" then Some(EnterWriteSequence)
    else if s == "write_assistant" then Some(WriteAssistant)
    else if s == "writer_sensitive_tools" then Some(WriterSensitiveTools)
    else if s == "leave_write_sequence" then Some(LeaveWriteSequence)
    else None
  }

  /** Every node other than END is found again by its registered name. */
  lemma NodeNamesRoundTrip(n: Node)
    requires n != End
    ensures NodeNamed(NodeName(n)) == Some(n)
  {
  }

  /** Both values the dialog stack can name lead to a real node: the main
      assistant's name, and the string `enter_write_sequence` pushes. */
  lemma PersonasAreNodeNames()
    ensures NodeNamed(DialogStack.MainPersona) == Some(Assistant)
    ensures NodeNamed(DialogStack.WriterPersona) == Some(WriteAssistant)
  {
  }

  /** Whether some call in `calls` has the given name, scanning left to right as `any(...)` does. */
  function AnyNamed(calls: seq<ToolCall>, name: string): (r: bool)
    ensures r <==> exists i :: 0 <= i < |calls| && calls[i].name == name
  {
    if |calls| == 0 then false
    else if calls[0].name == name then true
    else
      assert forall i :: 1 <= i < |calls| ==> calls[i] == calls[1..][i - 1];
      AnyNamed(calls[1..], name)
  }

  /** `route_assistant`: END without tool calls; the hand-off when the FIRST call
      is the delegation tool; the safe tool node otherwise. */
  function RouteAssistant(msgs: seq<Message>): (r: Node)
    requires |msgs| > 0
    ensures r == End <==> PendingCalls(msgs) == []
    ensures r == EnterWriteSequence <==>
              PendingCalls(msgs) != [] && PendingCalls(msgs)[0].name == WriteAssistantTool
    ensures r == AssistantTools <==>
              PendingCalls(msgs) != [] && PendingCalls(msgs)[0].name != WriteAssistantTool
  {
    var calls := PendingCalls(msgs);
    if |calls| == 0 then End
    else if calls[0].name == WriteAssistantTool then EnterWriteSequence
    else AssistantTools
  }

  /** A delegation call that is not the first call does not hand over: the whole
      batch goes to the safe tool node instead. */
  lemma LateDelegationGoesToTools(msgs: seq<Message>, j: nat)
    requires |msgs| > 0
    requires 0 < j < |PendingCalls(msgs)|
    requires PendingCalls(msgs)[j].name == WriteAssistantTool
    requires PendingCalls(msgs)[0].name != WriteAssistantTool
    ensures RouteAssistant(msgs) == AssistantTools
  {
  }

  /** `route_writer`: END without tool calls; the hand-back node when ANY call is
      the control tool; the sensitive tool node otherwise. */
  function RouteWriter(msgs: seq<Message>): (r: Node)
    requires |msgs| > 0
    ensures r == End <==> PendingCalls(msgs) == []
    ensures r == LeaveWriteSequence <==>
              exists i :: 0 <= i < |PendingCalls(msgs)| && PendingCalls(msgs)[i].name == CompleteOrEscalateTool
    ensures r == WriterSensitiveTools <==>
              PendingCalls(msgs) != [] && !AnyNamed(PendingCalls(msgs), CompleteOrEscalateTool)
  {
    var calls := PendingCalls(msgs);
    if |calls| == 0 then End
    else if AnyNamed(calls, CompleteOrEscalateTool) then LeaveWriteSequence
    else WriterSensitiveTools
  }

  /** What a node returns to the graph: messages to append, and the value fed
      to the dialog-stack reducer (`None` when the node leaves the key out). */
  datatype Update = Update(messages: seq<Message>, dialog: Option<string>)

  /** `enter_write_sequence`: answers the first pending call (the delegation) and
      pushes the writer's node name. */
  function EnterWriteSequenceNode(msgs: seq<Message>): (u: Update)
    requires PendingCalls(msgs) != []
    ensures |u.messages| == 1
    ensures u.messages[0] == Tool(DelegationNotice, PendingCalls(msgs)[0].id)
    ensures u.dialog == Some(DialogStack.WriterPersona)
  {
    var callId := PendingCalls(msgs)[0].id;
    Update([Tool(DelegationNotice, callId)], Some(DialogStack.WriterPersona))
  }

  /** `pop_dialog_state`: always asks for a pop; answers the first pending call
      when there is one and adds no message otherwise. */
  function PopDialogStateNode(msgs: seq<Message>): (u: Update)
    requires LastIsAi(msgs)
    ensures u.dialog == Some(DialogStack.PopRequest)
    ensures |u.messages| == if PendingCalls(msgs) == [] then 0 else 1
    ensures PendingCalls(msgs) != [] ==> u.messages[0] == Tool(ResumeNotice, PendingCalls(msgs)[0].id)
  {
    var calls := msgs[|msgs| - 1].toolCalls;
    if |calls| > 0 then Update([Tool(ResumeNotice, calls[0].id)], Some(DialogStack.PopRequest))
    else Update([], Some(DialogStack.PopRequest))
  }

  /** The text of one error response, given the representation of the exception. */
  function ErrorText(errorRepr: string): string
  {
    "Error: " + errorRepr + "\n please fix your mistakes."
  }

  /** One response per call, in call order, each carrying the same text. */
  function RespondAll(calls: seq<ToolCall>, text: string): (r: seq<Message>)
    ensures Answers(r, calls)
    ensures forall i :: 0 <= i < |r| ==> r[i].content == text
  {
    if |calls| == 0 then []
    else [Tool(text, calls[0].id)] + RespondAll(calls[1..], text)
  }

  /** `handle_tool_error`: the fallback of both tool nodes. Answers every pending
      call with the error text and leaves the dialog stack alone. */
  function HandleToolError(msgs: seq<Message>, errorRepr: string): (u: Update)
    requires LastIsAi(msgs)
    ensures Answers(u.messages, PendingCalls(msgs))
    ensures forall i :: 0 <= i < |u.messages| ==> u.messages[i].content == ErrorText(errorRepr)
    ensures u.dialog.None?
  {
    Update(RespondAll(msgs[|msgs| - 1].toolCalls, ErrorText(errorRepr)), None)
  }

  /** A tool node that ran every call: one response per call, in order, the
      i-th carrying the i-th tool's output. */
  function ToolNodeRan(msgs: seq<Message>, outputs: seq<string>): (u: Update)
    requires LastIsAi(msgs)
    requires |outputs| == |PendingCalls(msgs)|
    ensures Answers(u.messages, PendingCalls(msgs))
    ensures forall i :: 0 <= i < |u.messages| ==> u.messages[i].content == outputs[i]
    ensures u.dialog.None?
  {
    var calls := msgs[|msgs| - 1].toolCalls;
    Update(seq(|calls|, i requires 0 <= i < |calls| => Tool(outputs[i], calls[i].id)), None)
  }

  /** The hand-off nodes answer only the first pending call: with more than one
      pending call, the others get no response at all. */
  lemma HandOffAnswersOnlyFirstCall(msgs: seq<Message>)
    requires LastIsAi(msgs)
    requires |PendingCalls(msgs)| > 1
    ensures !Answers(EnterWriteSequenceNode(msgs).messages, PendingCalls(msgs))
    ensures !Answers(PopDialogStateNode(msgs).messages, PendingCalls(msgs))
  {
  }

  /** With exactly one pending call, the hand-off nodes answer it. */
  lemma HandOffAnswersSingleCall(msgs: seq<Message>)
    requires LastIsAi(msgs)
    requires |PendingCalls(msgs)| == 1
    ensures Answers(EnterWriteSequenceNode(msgs).messages, PendingCalls(msgs))
    ensures Answers(PopDialogStateNode(msgs).messages, PendingCalls(msgs))
  {
  }
}
