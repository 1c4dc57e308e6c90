/** The tool-calling agent: a two-node graph (`llm`, `tools`) over an
    append-only message log, and the two tools it offers. The language model
    and the tool bodies are parameters. */
module Agent {
  import opened Wrappers
  import opened Errors
  import opened Tables
  import opened Reshape
  import opened Batches

  /** A tool call's arguments, left undecoded. */
  datatype ToolArgs = ToolArgs(json: string)

  datatype ToolCall = ToolCall(name: string, args: ToolArgs, id: string)

  datatype Message =
    | SystemMessage(content: string)
    | HumanMessage(content: string)
    | AiMessage(content: string, toolCalls: seq<ToolCall>)
    | ToolMessage(content: string, toolCallId: string)

  /** The `operator.add` reducer of `AgentState.messages`: a node's update
      is appended to the log. */
  function Reduce(state: seq<Message>, update: seq<Message>): (r: seq<Message>)
    ensures |r| == |state| + |update|
    ensures r[..|state|] == state && r[|state|..] == update
  {
    state + update
  }

  /** What `should_continue` decides after an `llm` step. */
  datatype Decision = Continue | End

  /** `should_continue`: only a message that has `tool_calls`, and a
      non-empty list of them, leads on to the tools. */
  function ShouldContinue(messages: seq<Message>): Decision
    requires |messages| > 0
  {
    var last := messages[|messages| - 1];
    if last.AiMessage? && |last.toolCalls| > 0 then Continue else End
  }

  /** `call_llm`: the update is the model's one reply. The model call
      (`model_with_tools.invoke`) may raise, a timeout included; its `Err`
      stands for that and propagates. */
  function CallLlm(llm: seq<Message> -> Result<Message, Fault>, messages: seq<Message>)
    : Result<seq<Message>, Fault>
  {
    var reply :- llm(messages);
    Ok([reply])
  }

  /** A bound tool; `invoke` failing stands for the tool raising. */
  datatype Tool = Tool(name: string, invoke: ToolArgs -> Result<string, Fault>)

  /** `{t.name: t for t in self.tools}`: a later tool of the same name wins. */
  function ToolDict(tools: seq<Tool>): map<string, Tool> {
    if |tools| == 0 then map[]
    else
      var last := tools[|tools| - 1];
      ToolDict(tools[..|tools| - 1])[last.name := last]
  }

  /** The dictionary holds exactly the tools' names, and each name maps to
      the last tool that carries it. */
  lemma {:induction false} ToolDictLastWins(tools: seq<Tool>, name: string)
    ensures name in ToolDict(tools) <==> exists i :: 0 <= i < |tools| && tools[i].name == name
    ensures name in ToolDict(tools) ==>
      exists i :: 0 <= i < |tools| && tools[i] == ToolDict(tools)[name] &&
        forall j :: i < j < |tools| ==> tools[j].name != name
  {
    ToolDictKeys(tools, name);
    ToolDictLast(tools, name);
  }

  lemma {:induction false} ToolDictKeys(tools: seq<Tool>, name: string)
    ensures name in ToolDict(tools) <==> exists i :: 0 <= i < |tools| && tools[i].name == name
  {
    if |tools| > 0 {
      var init := tools[..|tools| - 1];
      var last := tools[|tools| - 1];
      ToolDictKeys(init, name);
      if name != last.name {
        if exists i :: 0 <= i < |tools| && tools[i].name == name {
          var i :| 0 <= i < |tools| && tools[i].name == name;
          assert i < |init| && init[i] == tools[i];
        }
        if exists i :: 0 <= i < |init| && init[i].name == name {
          var i :| 0 <= i < |init| && init[i].name == name;
          assert tools[i] == init[i];
        }
      }
    }
  }

  lemma {:induction false} ToolDictLast(tools: seq<Tool>, name: string)
    ensures name in ToolDict(tools) ==>
      exists i :: 0 <= i < |tools| && tools[i] == ToolDict(tools)[name] &&
        forall j :: i < j < |tools| ==> tools[j].name != name
  {
    if |tools| > 0 {
      var init := tools[..|tools| - 1];
      var last := tools[|tools| - 1];
      if name == last.name {
        assert tools[|tools| - 1] == ToolDict(tools)[name];
      } else if name in ToolDict(tools) {
        assert name in ToolDict(init);
        ToolDictLast(init, name);
        var i :| 0 <= i < |init| && init[i] == ToolDict(init)[name] &&
                 forall j :: i < j < |init| ==> init[j].name != name;
        assert tools[i] == init[i] == ToolDict(tools)[name];
        assert forall j :: i < j < |tools| ==> tools[j].name != name by {
          forall j | i < j < |tools| ensures tools[j].name != name {
            if j < |init| { assert tools[j] == init[j]; }
          }
        }
      }
    }
  }

  function NotFound(name: string): string {
    "Tool " + name + " not found."
  }

  /** One iteration of `tool_node`'s loop: always one message answering the
      call's id; an unknown name is reported without invoking anything. */
  function RunCall(dict: map<string, Tool>, call: ToolCall): (r: Result<Option<Message>, Fault>)
    ensures r.Ok? ==> r.value.Some? && r.value.value.ToolMessage? && r.value.value.toolCallId == call.id
    ensures call.name !in dict ==> r == Ok(Some(ToolMessage(NotFound(call.name), call.id)))
    ensures call.name in dict ==>
      (r.Ok? <==> dict[call.name].invoke(call.args).Ok?) &&
      (r.Ok? ==> r.value.value.content == dict[call.name].invoke(call.args).value)
  {
    if call.name in dict then
      match dict[call.name].invoke(call.args)
      case Err(e) => Err(e)
      case Ok(content) => Ok(Some(ToolMessage(content, call.id)))
    else Ok(Some(ToolMessage(NotFound(call.name), call.id)))
  }

  /** `tool_node`: answers the tool calls of the last message, in order. */
  function ToolNode(tools: seq<Tool>, messages: seq<Message>): Result<seq<Message>, Fault>
    requires |messages| > 0 && messages[|messages| - 1].AiMessage?
  {
    var dict := ToolDict(tools);
    Collect(c => RunCall(dict, c), messages[|messages| - 1].toolCalls)
  }

  /** `tool_node` emits exactly one tool message per call, in call order,
      each carrying that call's id; unknown tools get "Tool <name> not found.". */
  lemma {:induction false} ToolNodeAnswersEachCall(tools: seq<Tool>, messages: seq<Message>)
    requires |messages| > 0 && messages[|messages| - 1].AiMessage?
    requires ToolNode(tools, messages).Ok?
    ensures var calls := messages[|messages| - 1].toolCalls;
            var out := ToolNode(tools, messages).value;
            && |out| == |calls|
            && (forall k :: 0 <= k < |calls| ==> out[k].ToolMessage? && out[k].toolCallId == calls[k].id)
            && (forall k :: 0 <= k < |calls| && calls[k].name !in ToolDict(tools) ==>
                  out[k].content == NotFound(calls[k].name))
  {
    var dict := ToolDict(tools);
    var step := c => RunCall(dict, c);
    var calls := messages[|messages| - 1].toolCalls;
    CollectAllProduce(step, calls);
  }

  datatype Node = LlmNode | ToolsNode | Finish

  /** The graph's edges: `llm` goes to `tools` on "continue" and to END on
      "end"; `tools` always goes back to `llm`. */
  function Successor(node: Node, messages: seq<Message>): Node
    requires node == LlmNode ==> |messages| > 0
  {
    match node
    case LlmNode => if ShouldContinue(messages) == Continue then ToolsNode else Finish
    case ToolsNode => LlmNode
    case Finish => Finish
  }

  /** The `tools` node only ever runs right after a reply with tool calls. */
  predicate Ready(node: Node, messages: seq<Message>) {
    node == ToolsNode ==>
      |messages| > 0 && messages[|messages| - 1].AiMessage? && |messages[|messages| - 1].toolCalls| > 0
  }

  /** `graph.invoke` from `node`, running at most `fuel` node steps. */
  function Run(llm: seq<Message> -> Result<Message, Fault>, tools: seq<Tool>, node: Node, messages: seq<Message>, fuel: nat)
    : Result<seq<Message>, Fault>
    requires Ready(node, messages)
    decreases fuel
  {
    if node == Finish then Ok(messages)
    else if fuel == 0 then Err(StepLimit)
    else if node == LlmNode then
      match CallLlm(llm, messages)
      case Err(e) => Err(e)
      case Ok(reply) =>
        var next := Reduce(messages, reply);
        Run(llm, tools, Successor(LlmNode, next), next, fuel - 1)
    else
      match ToolNode(tools, messages)
      case Err(e) => Err(e)
      case Ok(update) => Run(llm, tools, Successor(ToolsNode, messages), Reduce(messages, update), fuel - 1)
  }

  /** The edges as `should_continue` decides them: `llm` leads to `tools`
      exactly when its reply has pending tool calls, and to END otherwise;
      `tools` always returns to `llm`; END is entered only from `llm`; and
      whenever `tools` is entered its precondition holds. */
  lemma GraphEdges(node: Node, messages: seq<Message>)
    requires |messages| > 0
    ensures var last := messages[|messages| - 1];
            Successor(LlmNode, messages) == ToolsNode <==> last.AiMessage? && |last.toolCalls| > 0
    ensures Successor(LlmNode, messages) != LlmNode
    ensures Successor(ToolsNode, messages) == LlmNode
    ensures Successor(node, messages) == Finish ==> node != ToolsNode
    ensures Ready(Successor(node, messages), messages)
  {
  }

  /** The compiled graph's entry point is `llm`. */
  function Invoke(llm: seq<Message> -> Result<Message, Fault>, tools: seq<Tool>, initial: seq<Message>, fuel: nat)
    : Result<seq<Message>, Fault>
  {
    Run(llm, tools, LlmNode, initial, fuel)
  }

  /** A finished `graph.invoke` extends the initial messages and ends with
      the model's reply, which has no tool calls. */
  lemma InvokeEndsWithReply(llm: seq<Message> -> Result<Message, Fault>, tools: seq<Tool>, initial: seq<Message>, fuel: nat)
    requires Invoke(llm, tools, initial, fuel).Ok?
    ensures var out := Invoke(llm, tools, initial, fuel).value;
            && |out| > |initial| && out[..|initial|] == initial
            && llm(out[..|out| - 1]) == Ok(out[|out| - 1])
            && ShouldContinue(out) == End
  {
    RunAppendOnly(llm, tools, LlmNode, initial, fuel);
    RunEndsWithReply(llm, tools, LlmNode, initial, fuel);
  }

  /** A failing model call ends the run with its fault. */
  lemma ModelFaultFailsInvoke(llm: seq<Message> -> Result<Message, Fault>, tools: seq<Tool>,
                              initial: seq<Message>, fuel: nat)
    requires fuel > 0 && llm(initial).Err?
    ensures Invoke(llm, tools, initial, fuel) == Err(llm(initial).error)
  {
  }

  /** The log only grows: a finished run extends the messages it started from. */
  lemma {:induction false} RunAppendOnly(llm: seq<Message> -> Result<Message, Fault>, tools: seq<Tool>, node: Node,
                                         messages: seq<Message>, fuel: nat)
    requires Ready(node, messages)
    requires Run(llm, tools, node, messages, fuel).Ok?
    ensures var out := Run(llm, tools, node, messages, fuel).value;
            |messages| <= |out| && out[..|messages|] == messages
    decreases fuel
  {
    if node != Finish && fuel > 0 {
      if node == LlmNode {
        var next := Reduce(messages, CallLlm(llm, messages).value);
        RunAppendOnly(llm, tools, Successor(LlmNode, next), next, fuel - 1);
      } else {
        var update := ToolNode(tools, messages).value;
        RunAppendOnly(llm, tools, LlmNode, Reduce(messages, update), fuel - 1);
      }
    }
  }

  /** END is reached only from `llm`: a finished run started at `llm` ends
      with the model's own reply, which has no tool calls, appended to the
      log before it. */
  lemma {:induction false} RunEndsWithReply(llm: seq<Message> -> Result<Message, Fault>, tools: seq<Tool>, node: Node,
                                            messages: seq<Message>, fuel: nat)
    requires node != Finish && Ready(node, messages)
    requires Run(llm, tools, node, messages, fuel).Ok?
    ensures var out := Run(llm, tools, node, messages, fuel).value;
            && |out| > |messages|
            && llm(out[..|out| - 1]) == Ok(out[|out| - 1])
            && ShouldContinue(out) == End
    decreases fuel
  {
    if node == LlmNode {
      var next := Reduce(messages, CallLlm(llm, messages).value);
      var succ := Successor(LlmNode, next);
      if succ != Finish {
        RunEndsWithReply(llm, tools, succ, next, fuel - 1);
      } else {
        assert next[..|next| - 1] == messages;
      }
    } else {
      var update := ToolNode(tools, messages).value;
      RunEndsWithReply(llm, tools, LlmNode, Reduce(messages, update), fuel - 1);
    }
  }

  /** One `llm` step fails exactly when the model call does, with its
      fault, and otherwise appends exactly the reply; one `tools` step
      appends one message per pending tool call. */
  lemma StepGrowth(llm: seq<Message> -> Result<Message, Fault>, tools: seq<Tool>, messages: seq<Message>)
    ensures CallLlm(llm, messages).Ok? <==> llm(messages).Ok?
    ensures llm(messages).Err? ==> CallLlm(llm, messages) == Err(llm(messages).error)
    ensures llm(messages).Ok? ==>
      && |Reduce(messages, CallLlm(llm, messages).value)| == |messages| + 1
      && Reduce(messages, CallLlm(llm, messages).value)[|messages|] == llm(messages).value
    ensures |messages| > 0 && messages[|messages| - 1].AiMessage? && ToolNode(tools, messages).Ok? ==>
      |Reduce(messages, ToolNode(tools, messages).value)| == |messages| + |messages[|messages| - 1].toolCalls|
  {
    if |messages| > 0 && messages[|messages| - 1].AiMessage? && ToolNode(tools, messages).Ok? {
      ToolNodeAnswersEachCall(tools, messages);
    }
  }

  /** A record of `to_dict(orient='records')`: label -> cell, a later
      column of the same label overwriting an earlier one. */
  function RowRecord(header: seq<string>, row: seq<Cell>): map<string, Cell>
    requires |row| == |header|
  {
    if |header| == 0 then map[]
    else RowRecord(header[..|header| - 1], row[..|row| - 1])[header[|header| - 1] := row[|row| - 1]]
  }

  /** A record's keys are exactly the header labels. */
  lemma {:induction false} RowRecordKeys(header: seq<string>, row: seq<Cell>, name: string)
    requires |row| == |header|
    ensures name in RowRecord(header, row) <==> name in header
  {
    if |header| > 0 {
      var n := |header| - 1;
      RowRecordKeys(header[..n], row[..n], name);
      assert header == header[..n] + [header[n]];
    }
  }

  /** Under a label, a record holds the cell of the last column carrying
      that label. */
  lemma {:induction false} RowRecordLastWins(header: seq<string>, row: seq<Cell>, k: nat)
    requires |row| == |header| && k < |header|
    requires forall j :: k < j < |header| ==> header[j] != header[k]
    ensures header[k] in RowRecord(header, row)
    ensures RowRecord(header, row)[header[k]] == row[k]
  {
    var n := |header| - 1;
    if k < n {
      var h0, r0 := header[..n], row[..n];
      assert h0[k] == header[k] && r0[k] == row[k];
      assert forall j :: k < j < |h0| ==> h0[j] != h0[k] by {
        forall j | k < j < |h0| ensures h0[j] != h0[k] {
          assert h0[j] == header[j];
        }
      }
      RowRecordLastWins(h0, r0, k);
    }
  }

  /** The `no_of_rows_to_read` a call without that argument gets. */
  const DefaultRowsToRead: int := 5

  /** `read_excel_file(no_of_rows_to_read)` on the frame pandas read: the
      leading rows as records, as many as asked for while the sheet lasts;
      an absent argument asks for 5. */
  function ReadExcelFile(sheet: Frame, rowsToRead: Option<int>): (records: seq<map<string, Cell>>)
    ensures var n := if rowsToRead.Some? then rowsToRead.value else DefaultRowsToRead;
            && (n >= 0 ==> |records| == (if n <= |sheet.rows| then n else |sheet.rows|))
            && (n < 0 ==> |records| == (if |sheet.rows| + n >= 0 then |sheet.rows| + n else 0))
    ensures |records| <= |sheet.rows|
    ensures forall i :: 0 <= i < |records| ==> records[i] == RowRecord(sheet.header, sheet.rows[i])
  {
    var first := Head(sheet, rowsToRead.GetOr(DefaultRowsToRead));
    seq(|first.rows|, i requires 0 <= i < |first.rows| => RowRecord(first.header, first.rows[i]))
  }

  /** The message pandas attaches to an out-of-bounds `iloc` list. */
  const IlocOutOfBounds: string := "positional indexers are out-of-bounds"

  datatype MapperOutcome = Saved(output: Frame) | Failed(message: string)

  /** `column_mapper`'s select-and-relabel step on the frame read with
      `skiprows`: select the columns, then relabel them with a list that
      the `standard_columns = mapped_df.columns.tolist()` assignment has
      already replaced by the selected columns' own labels, so the source
      labels stay. A selection error becomes a message. */
  function ColumnMapper(df: Frame, cols: seq<int>): (r: MapperOutcome)
    ensures r.Saved? <==> InBounds(cols, |df.header|)
    ensures r.Failed? ==> r.message == "Error during column mapping: " + IlocOutOfBounds
    ensures r.Saved? ==>
      && |r.output.rows| == |df.rows|
      && |r.output.header| == |cols|
      && (forall k :: 0 <= k < |cols| ==>
            r.output.header[k] == df.header[ResolveIndex(cols[k], |df.header|).value])
      && (forall i, k :: 0 <= i < |df.rows| && 0 <= k < |cols| ==>
            r.output.rows[i][k] == df.rows[i][ResolveIndex(cols[k], |df.header|).value])
  {
    match SelectColumns(df, Some(cols))
    case Err(_) => Failed("Error during column mapping: " + IlocOutOfBounds)
    case Ok(mapped) =>
      var standard := mapped.header;
      var labels := if |cols| <= |standard| then standard[..|cols|] else assert false; standard;
      Saved(Relabel(mapped, labels))
  }
}
