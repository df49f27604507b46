/** The ML agent's own logic: which tools it offers the model, and the
    first-in first-out queue of actions it works through one step at a
    time. The model, the condenser and the translation of a completion
    into actions are oracles. */
module AIAgent {
  import opened Common
  import opened Text

  // ---------------------------------------------------------------------
  // Tool selection

  /** The tools; the two built with a description length carry it. */
  datatype Tool =
    | CmdRun(shortDescription: bool)
    | Think
    | Finish
    | WebRead
    | Browser
    | IPython
    | LlmEditor
    | StrReplaceEditor(shortDescription: bool)

  /** The agent-config flags `_get_tools` reads. */
  datatype AgentConfig = AgentConfig(
    enableCmd: bool,
    enableThink: bool,
    enableFinish: bool,
    enableBrowsing: bool,
    enableJupyter: bool,
    enableLlmEditor: bool,
    enableEditor: bool)

  const ShortDescriptionModels: seq<string> := ["gpt-", "o3", "o1", "o4"]

  /** Short descriptions are used when there is a model whose name contains
      one of the markers. */
  predicate UsesShortDescriptions(model: Option<string>)
  {
    model.Some? && exists i :: 0 <= i < |ShortDescriptionModels| && Contains(model.value, ShortDescriptionModels[i])
  }

  /** `sys.platform == 'win32'`. */
  predicate IsWindows(platform: string)
  {
    platform == "win32"
  }

  /** Where each tool sits in the list. */
  function Rank(t: Tool): nat
  {
    match t
    case CmdRun(_) => 0
    case Think => 1
    case Finish => 2
    case WebRead => 3
    case Browser => 4
    case IPython => 5
    case LlmEditor => 6
    case StrReplaceEditor(_) => 7
  }

  /** Which tools the flags ask for, by rank: browsing does nothing on
      Windows, and the LLM editor shuts out the other editor. */
  predicate Wanted(config: AgentConfig, platform: string, rank: nat)
  {
    match rank
    case 0 => config.enableCmd
    case 1 => config.enableThink
    case 2 => config.enableFinish
    case 3 => config.enableBrowsing && !IsWindows(platform)
    case 4 => config.enableBrowsing && !IsWindows(platform)
    case 5 => config.enableJupyter
    case 6 => config.enableLlmEditor
    case 7 => config.enableEditor && !config.enableLlmEditor
    case _ => false
  }

  /** The k-th block of `_get_tools`: what it appends. */
  function Block(config: AgentConfig, short: bool, platform: string, k: nat): seq<Tool>
  {
    match k
    case 0 => if config.enableCmd then [CmdRun(short)] else []
    case 1 => if config.enableThink then [Think] else []
    case 2 => if config.enableFinish then [Finish] else []
    case 3 => if config.enableBrowsing && !IsWindows(platform) then [WebRead, Browser] else []
    case 4 => if config.enableJupyter then [IPython] else []
    case 5 => if config.enableLlmEditor then [LlmEditor] else if config.enableEditor then [StrReplaceEditor(short)] else []
    case _ => []
  }

  /** The list after the first k blocks. */
  function Blocks(config: AgentConfig, short: bool, platform: string, k: nat): seq<Tool>
  {
    if k == 0 then [] else Blocks(config, short, platform, k - 1) + Block(config, short, platform, k - 1)
  }

  /** The list `_get_tools` returns: the six blocks in order. */
  function ToolList(config: AgentConfig, short: bool, platform: string): seq<Tool>
  {
    Block(config, short, platform, 0) + Block(config, short, platform, 1) + Block(config, short, platform, 2)
    + Block(config, short, platform, 3) + Block(config, short, platform, 4) + Block(config, short, platform, 5)
  }

  lemma AllBlocks(config: AgentConfig, short: bool, platform: string)
    ensures Blocks(config, short, platform, 6) == ToolList(config, short, platform)
  {
    assert Blocks(config, short, platform, 1) == Block(config, short, platform, 0);
    assert Blocks(config, short, platform, 2) == Blocks(config, short, platform, 1) + Block(config, short, platform, 1);
    assert Blocks(config, short, platform, 3) == Blocks(config, short, platform, 2) + Block(config, short, platform, 2);
    assert Blocks(config, short, platform, 4) == Blocks(config, short, platform, 3) + Block(config, short, platform, 3);
    assert Blocks(config, short, platform, 5) == Blocks(config, short, platform, 4) + Block(config, short, platform, 4);
    assert Blocks(config, short, platform, 6) == Blocks(config, short, platform, 5) + Block(config, short, platform, 5);
  }

  /** `_get_tools`, appending tool by tool. */
  method GetTools(config: AgentConfig, model: Option<string>, platform: string) returns (tools: seq<Tool>)
    ensures tools == ToolList(config, UsesShortDescriptions(model), platform)
  {
    var short := UsesShortDescriptions(model);
    tools := [];
    ghost var b0, b1, b2 := Block(config, short, platform, 0), Block(config, short, platform, 1), Block(config, short, platform, 2);
    ghost var b3, b4, b5 := Block(config, short, platform, 3), Block(config, short, platform, 4), Block(config, short, platform, 5);
    if config.enableCmd {
      tools := tools + [CmdRun(short)];
    }
    assert tools == b0;
    if config.enableThink {
      tools := tools + [Think];
    }
    assert tools == b0 + b1;
    if config.enableFinish {
      tools := tools + [Finish];
    }
    assert tools == b0 + b1 + b2;
    if config.enableBrowsing {
      if IsWindows(platform) {
        // only a warning is logged
      } else {
        tools := tools + [WebRead];
        tools := tools + [Browser];
      }
    }
    assert tools == b0 + b1 + b2 + b3;
    if config.enableJupyter {
      tools := tools + [IPython];
    }
    assert tools == b0 + b1 + b2 + b3 + b4;
    if config.enableLlmEditor {
      tools := tools + [LlmEditor];
    } else if config.enableEditor {
      tools := tools + [StrReplaceEditor(short)];
    }
    assert tools == b0 + b1 + b2 + b3 + b4 + b5;
  }

  function Ranks(ts: seq<Tool>): (rs: seq<nat>)
    ensures |rs| == |ts|
    ensures forall i :: 0 <= i < |ts| ==> rs[i] == Rank(ts[i])
  {
    seq(|ts|, i requires 0 <= i < |ts| => Rank(ts[i]))
  }

  /** The first rank block k may use. */
  function FirstRank(k: nat): nat
  {
    match k
    case 0 => 0
    case 1 => 1
    case 2 => 2
    case 3 => 3
    case 4 => 5
    case 5 => 6
    case _ => 8
  }

  /** Every rank in `ts` is in `lo..hi-1`. */
  predicate RanksWithin(ts: seq<Tool>, lo: nat, hi: nat)
  {
    forall i :: 0 <= i < |ts| ==> lo <= Rank(ts[i]) < hi
  }

  /** The ranks in `ts` strictly increase. */
  predicate RanksIncrease(ts: seq<Tool>)
  {
    forall i, j :: 0 <= i < j < |ts| ==> Rank(ts[i]) < Rank(ts[j])
  }

  /** Each block holds increasing ranks from its own range. */
  lemma BlockRanks(config: AgentConfig, short: bool, platform: string, k: nat)
    ensures RanksWithin(Block(config, short, platform, k), FirstRank(k), FirstRank(k + 1))
    ensures RanksIncrease(Block(config, short, platform, k))
  {
  }

  /** After k blocks the ranks increase and stay below the next block's. */
  lemma {:induction false} BlocksOrdered(config: AgentConfig, short: bool, platform: string, k: nat)
    ensures RanksWithin(Blocks(config, short, platform, k), 0, FirstRank(k))
    ensures RanksIncrease(Blocks(config, short, platform, k))
  {
    if k > 0 {
      BlocksOrdered(config, short, platform, k - 1);
      BlockRanks(config, short, platform, k - 1);
      var a := Blocks(config, short, platform, k - 1);
      var b := Block(config, short, platform, k - 1);
      var ts := Blocks(config, short, platform, k);
      assert ts == a + b;
      var lo := FirstRank(k - 1);
      assert lo <= FirstRank(k);
      assert RanksWithin(a, 0, lo);
      assert RanksWithin(b, lo, FirstRank(k));
      forall i | 0 <= i < |ts| ensures Rank(ts[i]) < FirstRank(k) {
        if i < |a| {
          assert ts[i] == a[i];
        } else {
          assert ts[i] == b[i - |a|];
        }
      }
      forall i, j | 0 <= i < j < |ts| ensures Rank(ts[i]) < Rank(ts[j]) {
        if j < |a| {
          assert ts[i] == a[i] && ts[j] == a[j];
        } else if i < |a| {
          assert ts[i] == a[i] && ts[j] == b[j - |a|];
          assert Rank(a[i]) < lo <= Rank(b[j - |a|]);
        } else {
          assert ts[i] == b[i - |a|] && ts[j] == b[j - |a|];
        }
      }
    }
  }

  /** The tools are in the fixed order cmd, think, finish, web-read,
      browser, ipython, editor, and each comes at most once. */
  lemma ToolListOrdered(config: AgentConfig, short: bool, platform: string)
    ensures RanksIncrease(ToolList(config, short, platform))
  {
    BlocksOrdered(config, short, platform, 6);
    AllBlocks(config, short, platform);
  }

  /** A tool is in the list exactly when its flag asks for it. */
  lemma ToolListPresence(config: AgentConfig, short: bool, platform: string, r: nat)
    ensures r in Ranks(ToolList(config, short, platform)) <==> Wanted(config, platform, r)
  {
    BlocksPresence(config, short, platform, 6, r);
    AllBlocks(config, short, platform);
  }

  lemma RanksAppend(a: seq<Tool>, b: seq<Tool>)
    ensures Ranks(a + b) == Ranks(a) + Ranks(b)
  {
  }

  lemma RanksSingleton(t: Tool)
    ensures Ranks([t]) == [Rank(t)]
  {
  }

  lemma BlockPresence(config: AgentConfig, short: bool, platform: string, k: nat, r: nat)
    ensures r in Ranks(Block(config, short, platform, k)) <==>
      FirstRank(k) <= r < FirstRank(k + 1) && Wanted(config, platform, r)
  {
    var b := Block(config, short, platform, k);
    if k == 3 && config.enableBrowsing && !IsWindows(platform) {
      RanksAppend([WebRead], [Browser]);
      assert Ranks(b) == [3, 4];
    } else if |b| == 1 {
      RanksSingleton(b[0]);
      assert Ranks(b) == [Rank(b[0])];
    } else {
      assert b == [];
    }
  }

  lemma {:induction false} BlocksPresence(config: AgentConfig, short: bool, platform: string, k: nat, r: nat)
    requires k <= 6
    ensures r in Ranks(Blocks(config, short, platform, k)) <==> r < FirstRank(k) && Wanted(config, platform, r)
  {
    if k > 0 {
      BlocksPresence(config, short, platform, k - 1, r);
      BlockPresence(config, short, platform, k - 1, r);
      RanksAppend(Blocks(config, short, platform, k - 1), Block(config, short, platform, k - 1));
    }
  }

  /** Both tools that take a description length get the same one. */
  predicate DescribedBy(ts: seq<Tool>, short: bool)
  {
    forall i :: 0 <= i < |ts| ==> (ts[i].CmdRun? || ts[i].StrReplaceEditor?) ==> ts[i].shortDescription == short
  }

  lemma {:induction false} BlocksDescriptions(config: AgentConfig, short: bool, platform: string, k: nat)
    ensures DescribedBy(Blocks(config, short, platform, k), short)
  {
    if k > 0 {
      BlocksDescriptions(config, short, platform, k - 1);
      var a := Blocks(config, short, platform, k - 1);
      var b := Block(config, short, platform, k - 1);
      var ts := a + b;
      forall i | 0 <= i < |ts| && (ts[i].CmdRun? || ts[i].StrReplaceEditor?)
        ensures ts[i].shortDescription == short
      {
        if i >= |a| {
          assert ts[i] == b[i - |a|];
        } else {
          assert ts[i] == a[i];
        }
      }
    }
  }

  lemma ToolListDescriptions(config: AgentConfig, short: bool, platform: string)
    ensures DescribedBy(ToolList(config, short, platform), short)
  {
    BlocksDescriptions(config, short, platform, 6);
    AllBlocks(config, short, platform);
  }

  /** Browsing on Windows adds nothing: the list is the one without the
      flag. */
  lemma WindowsIgnoresBrowsing(config: AgentConfig, short: bool)
    ensures ToolList(config, short, "win32") == ToolList(config.(enableBrowsing := false), short, "win32")
    ensures ToolList(config, short, "win32") == ToolList(config.(enableBrowsing := false), short, "linux")
  {
  }

  /** At most one editor is offered, and the LLM editor when both are
      asked for. */
  lemma EditorsExclusive(config: AgentConfig, model: Option<string>, platform: string, tools: seq<Tool>)
    requires tools == ToolList(config, UsesShortDescriptions(model), platform)
    ensures !(LlmEditor in tools && StrReplaceEditor(UsesShortDescriptions(model)) in tools)
    ensures config.enableLlmEditor ==> LlmEditor in tools
  {
    var short := UsesShortDescriptions(model);
    ToolListPresence(config, short, platform, 6);
    ToolListPresence(config, short, platform, 7);
    RankMembers(tools, short);
  }

  /** The editors are found by their ranks. */
  lemma RankMembers(ts: seq<Tool>, short: bool)
    ensures LlmEditor in ts <==> 6 in Ranks(ts)
    ensures StrReplaceEditor(short) in ts ==> 7 in Ranks(ts)
  {
    var rs := Ranks(ts);
    if LlmEditor in ts {
      var i :| 0 <= i < |ts| && ts[i] == LlmEditor;
      assert rs[i] == 6;
    }
    if 6 in rs {
      var i :| 0 <= i < |rs| && rs[i] == 6;
      assert ts[i] == LlmEditor;
    }
    if StrReplaceEditor(short) in ts {
      var i :| 0 <= i < |ts| && ts[i] == StrReplaceEditor(short);
      assert rs[i] == 7;
    }
  }

  // ---------------------------------------------------------------------
  // The step loop

  /** An action is opaque here, apart from the finish action `step` makes
      itself. */
  datatype Action = AgentFinish | Emitted(id: nat)

  /** What the condenser gives: a view of the history (only its size is
      kept), or a condensation whose action is returned at once. */
  datatype Condensed = View(events: nat) | Condensation(action: Action)

  /** What one step sees: the last user message, the condenser's answer,
      and the actions the completion would be turned into. */
  datatype StepInput = StepInput(lastUserMessage: Option<string>, condensed: Condensed, response: seq<Action>)

  /** The completion request: the agent's tools, and whether the copy sent
      has its `default` fields stripped. */
  datatype Completion = Completion(tools: seq<Tool>, defaultsStripped: bool)

  datatype StepResult = Returned(action: Action) | Raised(message: string)

  /** One step: its result, the queue after it, and the completion it
      requested, if any. */
  datatype Outcome = Outcome(result: StepResult, pending: seq<Action>, completion: Option<Completion>)

  const StrippingModel: string := "gemini-2.5-pro" + "-preview-03-25"

  const EmptyDequeError: string := "pop from an empty deque"

  /** A message is the exit command when it strips to "/exit". */
  predicate IsExit(message: Option<string>)
  {
    message.Some? && Strip(message.value) == "/exit"
  }

  /** What `step` does with the queue `pending`. */
  function Next(pending: seq<Action>, tools: seq<Tool>, model: string, input: StepInput): (o: Outcome)
    ensures o.completion.Some? ==> o.completion.value.tools == tools
    ensures o.completion.Some? <==> |pending| == 0 && !IsExit(input.lastUserMessage) && input.condensed.View?
  {
    if |pending| > 0 then Outcome(Returned(pending[0]), pending[1..], None)
    else if IsExit(input.lastUserMessage) then Outcome(Returned(AgentFinish), [], None)
    else match input.condensed
      case Condensation(action) => Outcome(Returned(action), [], None)
      case View(_) =>
        var c := Some(Completion(tools, model == StrippingModel));
        if |input.response| == 0 then Outcome(Raised(EmptyDequeError), [], c)
        else Outcome(Returned(input.response[0]), input.response[1..], c)
  }

  /** A queued action comes first: no exit check and no completion. */
  lemma QueuedActionFirst(pending: seq<Action>, tools: seq<Tool>, model: string, input: StepInput)
    requires |pending| > 0
    ensures Next(pending, tools, model, input) == Outcome(Returned(pending[0]), pending[1..], None)
  {
  }

  /** The actions of one completion are queued in order and the first is
      returned; an empty completion makes `popleft` raise. */
  lemma ResponseQueued(tools: seq<Tool>, model: string, input: StepInput)
    requires !IsExit(input.lastUserMessage) && input.condensed.View?
    ensures var o := Next([], tools, model, input);
      && (|input.response| > 0 ==> o.result == Returned(input.response[0]) && o.pending == input.response[1..])
      && (|input.response| == 0 ==> o.result == Raised(EmptyDequeError) && o.pending == [])
      && o.completion == Some(Completion(tools, model == StrippingModel))
  {
  }

  /** Several steps in a row, each with its own input. */
  function Run(pending: seq<Action>, tools: seq<Tool>, model: string, inputs: seq<StepInput>): (os: seq<Outcome>)
    ensures |os| == |inputs|
    decreases |inputs|
  {
    if |inputs| == 0 then []
    else
      var o := Next(pending, tools, model, inputs[0]);
      [o] + Run(o.pending, tools, model, inputs[1..])
  }

  /** Queued actions come out in the order they went in, whatever the
      steps see, and none of those steps asks for a completion. */
  lemma {:induction false} DrainInOrder(pending: seq<Action>, tools: seq<Tool>, model: string, inputs: seq<StepInput>)
    requires |inputs| <= |pending|
    ensures var os := Run(pending, tools, model, inputs);
      forall i :: 0 <= i < |inputs| ==>
        os[i].result == Returned(pending[i]) && os[i].completion == None && os[i].pending == pending[i + 1..]
    decreases |inputs|
  {
    if |inputs| > 0 {
      var os := Run(pending, tools, model, inputs);
      DrainInOrder(pending[1..], tools, model, inputs[1..]);
      var rest := Run(pending[1..], tools, model, inputs[1..]);
      assert os == [Next(pending, tools, model, inputs[0])] + rest;
      forall i | 0 <= i < |inputs|
        ensures os[i].result == Returned(pending[i]) && os[i].completion == None && os[i].pending == pending[i + 1..]
      {
        if i > 0 {
          assert os[i] == rest[i - 1];
          assert pending[1..][i - 1] == pending[i];
          assert pending[1..][i..] == pending[i + 1..];
        }
      }
    }
  }

  class Agent {
    /** `pending_actions`, oldest first. */
    var pending: seq<Action>
    /** `self.tools`, fixed when the agent is made. */
    var tools: seq<Tool>
    /** The model name of the agent's LLM. */
    const model: string

    constructor (config: AgentConfig, model: string, platform: string)
      ensures pending == [] && this.model == model
      ensures tools == ToolList(config, UsesShortDescriptions(Some(model)), platform)
    {
      var ts := GetTools(config, Some(model), platform);
      this.model := model;
      pending := [];
      tools := ts;
    }

    /** `reset`: the queue is emptied. */
    method Reset()
      modifies this
      ensures pending == [] && tools == old(tools)
    {
      pending := [];
    }

    /** `step`: pop the oldest queued action, or finish on "/exit", or
        return the condenser's action, or ask for a completion, queue all
        its actions and pop the first. `self.tools` is only read (the
        copy sent to the stripping model is a deep copy). */
    method Step(input: StepInput) returns (result: StepResult, completion: Option<Completion>)
      modifies this
      ensures var o := Next(old(pending), old(tools), model, input);
        result == o.result && pending == o.pending && completion == o.completion
      ensures tools == old(tools)
    {
      completion := None;
      if |pending| > 0 {
        result := Returned(pending[0]);
        pending := pending[1..];
        return;
      }
      if IsExit(input.lastUserMessage) {
        result := Returned(AgentFinish);
        return;
      }
      if input.condensed.Condensation? {
        result := Returned(input.condensed.action);
        return;
      }
      completion := Some(Completion(tools, model == StrippingModel));
      var i := 0;
      while i < |input.response|
        invariant 0 <= i <= |input.response|
        invariant pending == input.response[..i]
        invariant tools == old(tools)
      {
        pending := pending + [input.response[i]];
        i := i + 1;
      }
      assert input.response[..|input.response|] == input.response;
      if |pending| == 0 {
        result := Raised(EmptyDequeError);
      } else {
        result := Returned(pending[0]);
        pending := pending[1..];
      }
    }
  }
}
