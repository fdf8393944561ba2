/**
 * The assistant agent (agents/assistant_agent.py): a list of tasks that it
 * either extends with a new task or works through, one selected task per
 * cycle, by planning and executing steps for at most twenty rounds. The
 * model is an oracle that, besides its reply, reports which tools it
 * called; calling `mark_task_completed` while a task runs completes it.
 * Prompt templates, the fixed debug time and the looked-up location are
 * folded into the template parameters.
 */
module Assistant {
  import opened Wrappers
  import opened Strings
  import opened Messages
  import opened Oracles
  import opened Tasks
  import opened OrderedMaps
  import opened AgentContexts
  import opened EmailObjects
  import opened Gmail
  import opened EmailAgents

  /** The transient tool that completes the running task. */
  const MarkTool: string := "mark_task_completed"

  /** `max_iterations` */
  const MaxIterations: nat := 20

  /** The tools the constructor registers itself. */
  const OwnTools: set<string> := {"gen_daily_summary", "get_coffee", "remove_notification", "get_latest_email_summary"}

  /** The last message of a reply (`response_messages[-1]`). */
  function Last(r: Replies): (m: Message)
    ensures m in r
  {
    r[|r| - 1]
  }

  // ---------------------------------------------------------------------------
  // Selecting a task
  // ---------------------------------------------------------------------------

  /** Why the selected index was refused: `int()` failed, or the 1-based
      number is outside the list. */
  datatype SelectError = NotAnInteger | OutOfRange

  /** The index parse and range check of `select_next_task`: the stripped
      reply must be an integer k with 1 <= k <= n, and selects index k - 1. */
  function SelectIndex(text: string, n: nat): (r: Result<nat, SelectError>)
    ensures r.Ok? <==> ParseInt(Strip(text)).Some? && 1 <= ParseInt(Strip(text)).value <= n
    ensures r.Ok? ==> r.value < n && r.value + 1 == ParseInt(Strip(text)).value
    ensures r == Err(NotAnInteger) <==> ParseInt(Strip(text)).None?
  {
    match ParseInt(Strip(text))
    case None => Err(NotAnInteger)
    case Some(k) => if 1 <= k <= n then Ok(k - 1) else Err(OutOfRange)
  }

  /** A reply that is the decimal form of k selects index k - 1 when
      1 <= k <= n, and is out of range otherwise (0 and negatives included). */
  lemma SelectIndexOfNumeral(k: int, n: nat)
    ensures SelectIndex(IntToString(k), n) == if 1 <= k <= n then Ok(k - 1) else Err(OutOfRange)
  {
    var s := IntToString(k);
    NumeralUnpadded(k);
    StripUnpadded(s);
    ParseIntToString(k);
  }

  /** The decimal form of an integer has no white space at either end. */
  lemma NumeralUnpadded(k: int)
    ensures |IntToString(k)| > 0
    ensures !IsSpace(IntToString(k)[0]) && !IsSpace(IntToString(k)[|IntToString(k)| - 1])
  {
    var ds := if k < 0 then NatToString(-k) else NatToString(k);
    assert IsDigit(ds[0]) && IsDigit(ds[|ds| - 1]);
    if k < 0 {
      assert IntToString(k) == "-" + ds;
    }
  }

  /** White space around the reply does not change the selection. */
  lemma SelectIndexIgnoresPadding(text: string, n: nat)
    ensures SelectIndex(Strip(text), n) == SelectIndex(text, n)
  {
    StripIdempotent(text);
  }

  // ---------------------------------------------------------------------------
  // The task list
  // ---------------------------------------------------------------------------

  /** `tasks.remove(task)`: drops the first occurrence. */
  function RemoveFirst(ts: seq<Task>, t: Task): (r: seq<Task>)
    ensures t in ts ==> |r| == |ts| - 1
    ensures t !in ts ==> r == ts
    decreases |ts|
  {
    if ts == [] then []
    else if ts[0] == t then ts[1..]
    else [ts[0]] + RemoveFirst(ts[1..], t)
  }

  /** Where `t` first occurs in `ts`. */
  function FirstIndex(ts: seq<Task>, t: Task): (i: nat)
    requires t in ts
    ensures i < |ts| && ts[i] == t && t !in ts[..i]
    decreases |ts|
  {
    if ts[0] == t then 0 else 1 + FirstIndex(ts[1..], t)
  }

  /** Removing a listed task cuts the list at its first occurrence: what
      came before and after keeps its order. */
  lemma {:induction false} RemoveFirstCut(ts: seq<Task>, t: Task)
    requires t in ts
    ensures RemoveFirst(ts, t) == ts[..FirstIndex(ts, t)] + ts[FirstIndex(ts, t) + 1..]
    decreases |ts|
  {
    if ts[0] != t {
      var i := FirstIndex(ts[1..], t);
      RemoveFirstCut(ts[1..], t);
      assert ts[..i + 1] == [ts[0]] + ts[1..][..i];
      assert ts[i + 2..] == ts[1..][i + 1..];
    }
  }

  /** The goals of the tasks, in order (`tasks_list`). */
  function Goals(ts: seq<Task>): (r: seq<string>)
    reads ts
    ensures |r| == |ts| && forall i :: 0 <= i < |ts| ==> r[i] == ts[i].goal
  {
    seq(|ts|, i reads ts requires 0 <= i < |ts| => ts[i].goal)
  }

  /** Whether a goal asks the assistant to stand by: lower-cased, with full
      stops stripped from both ends, it reads "standby". */
  predicate IsStandby(goal: string) {
    StripChar(Lower(goal), '.') == "standby"
  }

  /** The plain, capitalised, upper-case and dotted spellings of the
      standby goal all count; "stand by" does not. */
  lemma StandbySpellings()
    ensures IsStandby("standby") && IsStandby("Standby.") && IsStandby("STANDBY")
  {
    LowerSpellings();
    StandbyLower("standby");
    StandbyLower("STANDBY");
    StandbyDotted("Standby");
  }

  /** Three spellings that lower-case to "standby". */
  lemma LowerSpellings()
    ensures Lower("standby") == "standby" && Lower("STANDBY") == "standby" && Lower("Standby") == "standby"
  {
    var w, u, c := "standby", "STANDBY", "Standby";
    assert forall i :: 0 <= i < |u| ==> LowerChar(u[i]) == w[i] && LowerChar(c[i]) == w[i] && LowerChar(w[i]) == w[i];
  }

  /** A goal that lower-cases to "standby" is a standby goal. */
  lemma StandbyLower(goal: string)
    requires Lower(goal) == "standby"
    ensures IsStandby(goal)
  {
    StripDotsUnpadded("standby");
  }

  /** A goal that lower-cases to "standby" is a standby goal with a full
      stop after it too. */
  lemma StandbyDotted(goal: string)
    requires Lower(goal) == "standby"
    ensures IsStandby(goal + ".")
  {
    assert Lower(goal + ".") == Lower(goal) + ".";
    StripTrailingDot("standby");
  }

  /** A word with no full stop at either end is its own dot-strip. */
  lemma StripDotsUnpadded(s: string)
    requires |s| > 0 && s[0] != '.' && s[|s| - 1] != '.'
    ensures StripChar(s, '.') == s
  {
    LeadUnique(s, x => x == '.', 0);
    TrailUnique(s[0..], x => x == '.', 0);
  }

  /** One trailing full stop is stripped. */
  lemma StripTrailingDot(s: string)
    requires |s| > 0 && s[0] != '.' && s[|s| - 1] != '.'
    ensures StripChar(s + ".", '.') == s
  {
    var t := s + ".";
    LeadUnique(t, x => x == '.', 0);
    assert t[0..] == t;
    TrailUnique(t, x => x == '.', 1);
    assert t[..|t| - 1] == s;
  }

  // ---------------------------------------------------------------------------
  // The latest thread
  // ---------------------------------------------------------------------------

  /** Python's `<` on strings: code point by code point, a proper prefix
      first. */
  predicate Before(a: string, b: string)
    decreases |a|
  {
    if a == [] then b != []
    else if b == [] then false
    else if a[0] != b[0] then a[0] < b[0]
    else Before(a[1..], b[1..])
  }

  lemma {:induction false} BeforeIrreflexive(a: string)
    ensures !Before(a, a)
    decreases |a|
  {
    if a != [] {
      BeforeIrreflexive(a[1..]);
    }
  }

  lemma {:induction false} BeforeTransitive(a: string, b: string, c: string)
    requires Before(a, b) && Before(b, c)
    ensures Before(a, c)
    decreases |a|
  {
    if a != [] && b != [] && c != [] && a[0] == b[0] && b[0] == c[0] {
      BeforeTransitive(a[1..], b[1..], c[1..]);
    }
  }

  /** `max(threads, key=lambda t: t.timestamp)` over the values of a
      dictionary whose order is not modelled: some thread no other thread
      is later than. */
  method Latest(threads: map<string, EmailThread>) returns (latest: EmailThread)
    requires threads != map[]
    ensures latest in threads.Values
    ensures forall t :: t in threads.Values ==> !Before(latest.timestamp, t.timestamp)
  {
    var k0 :| k0 in threads;
    latest := threads[k0];
    BeforeIrreflexive(latest.timestamp);
    var left := threads.Keys - {k0};
    while left != {}
      invariant left <= threads.Keys
      invariant latest in threads.Values
      invariant forall k :: k in threads.Keys - left ==> !Before(latest.timestamp, threads[k].timestamp)
      decreases |left|
    {
      var k :| k in left;
      if Before(latest.timestamp, threads[k].timestamp) {
        ghost var previous := latest;
        latest := threads[k];
        BeforeIrreflexive(latest.timestamp);
        forall j | j in threads.Keys - left
          ensures !Before(latest.timestamp, threads[j].timestamp)
        {
          if Before(latest.timestamp, threads[j].timestamp) {
            BeforeTransitive(previous.timestamp, latest.timestamp, threads[j].timestamp);
          }
        }
      }
      left := left - {k};
    }
    forall t | t in threads.Values
      ensures !Before(latest.timestamp, t.timestamp)
    {
      var k :| k in threads && threads[k] == t;
    }
  }

  // ---------------------------------------------------------------------------
  // Tools run during a generation
  // ---------------------------------------------------------------------------

  /** The agent's memory as the tools see it: the context items, the
      notifications and the shared id counter. */
  datatype Memory = Memory(items: seq<(nat, string)>, notes: seq<(nat, string)>, next: nat)

  /** The memory of a context object. */
  function MemoryOf(c: AgentContext): Memory
    reads c, c.ids
  {
    Memory(c.contextItems, c.notifications, c.ids.next)
  }

  /** Ids stay increasing and below the counter in both dictionaries (what
      `AgentContext.Valid` says of the object). */
  predicate MemoryValid(m: Memory) {
    Increasing(m.items, m.next) && Increasing(m.notes, m.next)
  }

  /** `add_context` on the memory: the item under the next id, at the end. */
  function Noted(m: Memory, content: string): Memory {
    m.(items := m.items + [(m.next, content)], next := m.next + 1)
  }

  /** What `get_coffee` adds to the context. */
  const CoffeeNote: string := "ACTION TAKEN: Coffee brewed."

  /** The `notification_id` argument as Python's dictionary lookup sees it:
      an integer, or a boolean, which Python hashes and compares as 1 or 0.
      A string or null finds nothing. */
  function NotificationArg(call: ToolCall): Option<int> {
    if "notification_id" !in call.arguments then None
    else match call.arguments["notification_id"]
      case Int(i) => Some(i)
      case Bool(b) => Some(if b then 1 else 0)
      case _ => None
  }

  /** What one call does to the memory when its tool runs: `get_coffee`
      notes the coffee under a fresh id, `remove_notification` drops the
      notification it names if it is stored; the other tools leave the
      memory alone, and a tool that is not registered does not run. */
  function CallEffect(call: ToolCall, tools: set<string>, m: Memory): (r: Memory)
    ensures call.name !in tools ==> r == m
    ensures r.items == m.items || (call.name == "get_coffee" && r.items == m.items + [(m.next, CoffeeNote)])
    ensures r.next == m.next + (|r.items| - |m.items|)
    ensures r.notes == m.notes || call.name == "remove_notification"
    ensures forall p :: p in r.notes ==> p in m.notes
  {
    if call.name !in tools then m
    else if call.name == "get_coffee" then Noted(m, CoffeeNote)
    else if call.name == "remove_notification" then
      var id := NotificationArg(call);
      if id.Some? && id.value >= 0 && HasKey(m.notes, id.value as nat) then
        m.(notes := Remove(m.notes, id.value as nat))
      else m
    else m
  }

  /** The calls of one generation, run in order. The context only gains
      coffee notes, under consecutive fresh ids, and only loses
      notifications. */
  function CallsEffect(calls: seq<ToolCall>, tools: set<string>, m: Memory): (r: Memory)
    ensures m.items <= r.items && r.next == m.next + (|r.items| - |m.items|)
    ensures forall i :: |m.items| <= i < |r.items| ==> r.items[i] == (m.next + (i - |m.items|), CoffeeNote)
    ensures forall p :: p in r.notes ==> p in m.notes
    decreases |calls|
  {
    if calls == [] then m
    else
      var n := |calls| - 1;
      CallEffect(calls[n], tools, CallsEffect(calls[..n], tools, m))
  }

  /** Running the calls keeps the memory valid. */
  lemma {:induction false} CallsEffectValid(calls: seq<ToolCall>, tools: set<string>, m: Memory)
    requires MemoryValid(m)
    ensures MemoryValid(CallsEffect(calls, tools, m))
    decreases |calls|
  {
    if calls != [] {
      var n := |calls| - 1;
      var before := CallsEffect(calls[..n], tools, m);
      CallsEffectValid(calls[..n], tools, m);
      CallEffectValid(calls[n], tools, before);
    }
  }

  /** One call keeps the memory valid. */
  lemma CallEffectValid(call: ToolCall, tools: set<string>, m: Memory)
    requires MemoryValid(m)
    ensures MemoryValid(CallEffect(call, tools, m))
  {
    var id := NotificationArg(call);
    if id.Some? && id.value >= 0 {
      RemoveIncreasing(m.notes, m.next, id.value as nat);
    }
  }

  /** Calls of no memory-changing registered tool leave the memory as it
      was. */
  lemma {:induction false} CallsEffectQuiet(calls: seq<ToolCall>, tools: set<string>, m: Memory)
    requires forall i :: 0 <= i < |calls| ==> calls[i].name !in tools || calls[i].name !in {"get_coffee", "remove_notification"}
    ensures CallsEffect(calls, tools, m) == m
    decreases |calls|
  {
    if calls != [] {
      var n := |calls| - 1;
      CallsEffectQuiet(calls[..n], tools, m);
    }
  }

  /** The calls complete the running task: the completion tool is
      registered and the model called it. */
  predicate Completes(calls: seq<ToolCall>, tools: set<string>) {
    MarkTool in tools && exists i :: 0 <= i < |calls| && calls[i].name == MarkTool
  }

  /** The calls complete the task when the earlier ones did or the last one
      is the registered completion tool. */
  lemma CompletesSnoc(calls: seq<ToolCall>, tools: set<string>)
    requires calls != []
    ensures var n := |calls| - 1;
            Completes(calls, tools) == (Completes(calls[..n], tools) || (calls[n].name == MarkTool && MarkTool in tools))
  {
    var n := |calls| - 1;
    if Completes(calls, tools) && calls[n].name != MarkTool {
      var i :| 0 <= i < |calls| && calls[i].name == MarkTool;
      assert calls[..n][i] == calls[i];
    }
    if Completes(calls[..n], tools) {
      var i :| 0 <= i < n && calls[..n][i].name == MarkTool;
      assert calls[i] == calls[..n][i];
    }
  }

  /** What a run of `execute_task` works on: the task's plan, log and
      completion, the agent's memory, and the requests made so far. */
  datatype RunState = RunState(plan: string, log: seq<Message>, completed: bool, memory: Memory,
                               requests: seq<seq<Message>>)


  /** Memory `b` follows from memory `a` by running tools: validity is
      kept, the context only gains coffee notes and the notifications only
      lose entries. */
  predicate MemoryStep(a: Memory, b: Memory) {
    && (MemoryValid(a) ==> MemoryValid(b))
    && a.items <= b.items
    && (forall i :: |a.items| <= i < |b.items| ==> b.items[i].1 == CoffeeNote)
    && (forall p :: p in b.notes ==> p in a.notes)
  }

  lemma MemoryStepTransitive(a: Memory, b: Memory, c: Memory)
    requires MemoryStep(a, b) && MemoryStep(b, c)
    ensures MemoryStep(a, c)
  {
    forall i | |a.items| <= i < |c.items|
      ensures c.items[i].1 == CoffeeNote
    {
      if i < |b.items| {
        assert c.items[i] == b.items[i];
      }
    }
  }

  // ---------------------------------------------------------------------------
  // The task loop, for any round function
  // ---------------------------------------------------------------------------

  /** `k` rounds, whether or not the loop would have stopped. */
  function Iterate(step: RunState -> RunState, s: RunState, k: nat): RunState
    decreases k
  {
    if k == 0 then s else step(Iterate(step, s, k - 1))
  }

  /** The `while not task.completed and iterations < max_iterations` loop
      with `left` rounds to go. */
  function Loop(step: RunState -> RunState, s: RunState, left: nat): (r: RunState)
    ensures s.completed ==> r == s
    decreases left
  {
    if s.completed || left == 0 then s else Loop(step, step(s), left - 1)
  }

  lemma {:induction false} IterateShift(step: RunState -> RunState, s: RunState, k: nat)
    ensures Iterate(step, step(s), k) == Iterate(step, s, k + 1)
    decreases k
  {
    if k > 0 {
      IterateShift(step, s, k - 1);
    }
  }

  /** The loop is `k` rounds for some `k` up to the bound: it never stops on
      an uncompleted task before the bound, and never goes past a completed
      one. */
  lemma {:induction false} LoopStop(step: RunState -> RunState, s: RunState, left: nat) returns (k: nat)
    ensures k <= left && Loop(step, s, left) == Iterate(step, s, k)
    ensures forall j :: 0 <= j < k ==> !Iterate(step, s, j).completed
    ensures k < left ==> Iterate(step, s, k).completed
    decreases left
  {
    if s.completed || left == 0 {
      return 0;
    }
    var k' := LoopStop(step, step(s), left - 1);
    k := k' + 1;
    IterateShift(step, s, k');
    forall j | 0 <= j < k
      ensures !Iterate(step, s, j).completed
    {
      if j > 0 {
        IterateShift(step, s, j - 1);
      }
    }
  }

  /** Rounds that each send one request send them in order. */
  lemma {:induction false} IterateRequests(step: RunState -> RunState, request: RunState -> seq<Message>,
                                           s: RunState, k: nat)
    requires forall x: RunState :: step(x).requests == x.requests + [request(x)]
    ensures var t := Iterate(step, s, k);
            && |t.requests| == |s.requests| + k && s.requests <= t.requests
            && forall j :: 0 <= j < k ==> t.requests[|s.requests| + j] == request(Iterate(step, s, j))
    decreases k
  {
    if k > 0 {
      IterateRequests(step, request, s, k - 1);
    }
  }

  /** With rounds that each complete the task exactly when it was completed
      or `done` holds, a task completed before or by round `j` stays
      completed. */
  lemma {:induction false} IterateCompletedBy(step: RunState -> RunState, done: RunState -> bool,
                                              s: RunState, k: nat, j: nat)
    requires forall x: RunState :: step(x).completed == (x.completed || done(x))
    requires s.completed || (j < k && done(Iterate(step, s, j)))
    ensures Iterate(step, s, k).completed
    decreases k
  {
    if k > 0 && (s.completed || j < k - 1) {
      IterateCompletedBy(step, done, s, k - 1, j);
    }
  }

  /** With such rounds, a task completed after them was completed before or
      by one of them. */
  lemma {:induction false} IterateCompletedWhy(step: RunState -> RunState, done: RunState -> bool,
                                               s: RunState, k: nat) returns (j: nat)
    requires forall x: RunState :: step(x).completed == (x.completed || done(x))
    requires Iterate(step, s, k).completed && !s.completed
    ensures j < k && done(Iterate(step, s, j))
    decreases k
  {
    assert k > 0;
    if done(Iterate(step, s, k - 1)) {
      j := k - 1;
    } else {
      j := IterateCompletedWhy(step, done, s, k - 1);
    }
  }

  /** Rounds that keep a non-empty plan keep it for good. */
  lemma {:induction false} IteratePlanKept(step: RunState -> RunState, s: RunState, k: nat)
    requires forall x: RunState :: x.plan != "" ==> step(x).plan == x.plan
    requires s.plan != ""
    ensures Iterate(step, s, k).plan == s.plan
    decreases k
  {
    if k > 0 {
      IteratePlanKept(step, s, k - 1);
    }
  }

  /** Rounds that each run tools run tools. */
  lemma {:induction false} IterateMemory(step: RunState -> RunState, s: RunState, k: nat)
    requires forall x: RunState :: MemoryStep(x.memory, step(x).memory)
    ensures MemoryStep(s.memory, Iterate(step, s, k).memory)
    decreases k
  {
    if k > 0 {
      IterateMemory(step, s, k - 1);
      var t := Iterate(step, s, k - 1);
      MemoryStepTransitive(s.memory, t.memory, step(t).memory);
    }
  }

  // ---------------------------------------------------------------------------
  // The agent
  // ---------------------------------------------------------------------------

  class AssistantAgent {
    /** `self.generate`: replies and the tool calls the model made. */
    const oracle: AgentOracle
    const context: AgentContext
    const gmail: GmailHandler
    const emailAgent: EmailAgent
    /** What the Gmail API answers when `get_latest_email_summary` refreshes
        the store: the listed thread ids, each thread's messages and the
        base64url decoder. */
    const mailListing: seq<string>
    const mailFetch: string -> seq<RawMessage>
    const mailDecode: string -> string
    /** `self.make_initial_prompt` */
    const initialPrompt: string -> seq<Message>
    /** `agent_task_gen_prompt`, from the context and the notifications. */
    const taskGenPrompt: (string, string) -> string
    /** `agent_task_selection_prompt`, from the context and the goals. */
    const selectPrompt: (string, seq<string>) -> string
    /** `agent_task_planning_prompt`, from the context and the goal. */
    const planPrompt: (string, string) -> string
    /** `agent_task_step_prompt`, from the context, the goal and the plan. */
    const stepPrompt: (string, string, string) -> string
    var tasks: seq<Task>
    /** The names of the tools registered with the model. */
    var tools: set<string>

    /** The context keeps its ids in order, and the e-mail agent talks to a
        model of its own (the constructor gives it a new one). */
    ghost predicate Valid()
      reads context, context.ids
    {
      context.Valid() && emailAgent.agent != oracle
    }

    constructor (oracle: AgentOracle, context: AgentContext, gmail: GmailHandler, emailAgent: EmailAgent,
                 mailListing: seq<string>, mailFetch: string -> seq<RawMessage>, mailDecode: string -> string,
                 initialPrompt: string -> seq<Message>, taskGenPrompt: (string, string) -> string,
                 selectPrompt: (string, seq<string>) -> string, planPrompt: (string, string) -> string,
                 stepPrompt: (string, string, string) -> string)
      requires context.Valid() && emailAgent.agent != oracle
      ensures this.oracle == oracle && this.context == context && this.gmail == gmail && this.emailAgent == emailAgent
      ensures this.mailListing == mailListing && this.mailFetch == mailFetch && this.mailDecode == mailDecode
      ensures this.initialPrompt == initialPrompt && this.taskGenPrompt == taskGenPrompt
      ensures this.selectPrompt == selectPrompt && this.planPrompt == planPrompt && this.stepPrompt == stepPrompt
      ensures tasks == [] && tools == OwnTools && Valid()
    {
      this.oracle := oracle;
      this.context := context;
      this.gmail := gmail;
      this.emailAgent := emailAgent;
      this.mailListing := mailListing;
      this.mailFetch := mailFetch;
      this.mailDecode := mailDecode;
      this.initialPrompt := initialPrompt;
      this.taskGenPrompt := taskGenPrompt;
      this.selectPrompt := selectPrompt;
      this.planPrompt := planPrompt;
      this.stepPrompt := stepPrompt;
      tasks := [];
      tools := OwnTools;
    }

    /** What a run of `execute_task` works on, read off the objects. */
    function StateOf(task: Task): RunState
      reads task, context, context.ids, oracle
    {
      RunState(task.plan, task.messageLog, task.completed, MemoryOf(context), oracle.requests)
    }

    /** The request of one round of the loop: the planning prompt while the
        plan is empty, otherwise the log followed by the step prompt. */
    function RoundRequest(goal: string, s: RunState): seq<Message> {
      var ctx := Render(s.memory.items, ContextLine);
      if s.plan == "" then initialPrompt(planPrompt(ctx, goal))
      else s.log + [NewMessage("user", stepPrompt(ctx, goal, s.plan))]
    }

    /** One round of the loop (`gen_task_plan` or `execute_task_step`),
        with the tools the model calls carried out. The log only grows, a
        plan once made stays, and the task is completed exactly when it was
        already or the model called the registered completion tool. */
    function Round(goal: string, tools: set<string>, s: RunState): (r: RunState)
      ensures r.requests == s.requests + [RoundRequest(goal, s)]
      ensures s.log < r.log
      ensures s.plan != "" ==> r.plan == s.plan
      ensures r.completed == (s.completed || Completes(oracle.toolCalls(|s.requests|, RoundRequest(goal, s)), tools))
    {
      var p := RoundRequest(goal, s);
      var n := |s.requests|;
      var reply := oracle.reply(n, p);
      var calls := oracle.toolCalls(n, p);
      RunState(if s.plan == "" then Strip(Last(reply).content) else s.plan,
               (if s.plan == "" then s.log + p else p) + reply,
               s.completed || Completes(calls, tools),
               CallsEffect(calls, tools, s.memory),
               s.requests + [p])
    }

    /** One round as a function on states. */
    function Step(goal: string, tools: set<string>): RunState -> RunState {
      (x: RunState) => Round(goal, tools, x)
    }

    /** The state after `k` rounds, whether or not the loop would have
        stopped. */
    function After(goal: string, tools: set<string>, s: RunState, k: nat): RunState {
      Iterate(Step(goal, tools), s, k)
    }

    /** The tool calls of round `j`. */
    function CallsIn(goal: string, tools: set<string>, s: RunState, j: nat): seq<ToolCall> {
      oracle.toolCalls(|s.requests| + j, RoundRequest(goal, After(goal, tools, s, j)))
    }

    /** The loop of `execute_task` with `left` rounds to go. */
    function Rounds(goal: string, tools: set<string>, s: RunState, left: nat): (r: RunState)
      ensures s.completed ==> r == s
    {
      Loop(Step(goal, tools), s, left)
    }

    /** The loop runs `k` rounds of at most `left`: none of the earlier ones
        left the task completed, and it stops short of `left` only on a
        completed task. */
    lemma RoundsStop(goal: string, tools: set<string>, s: RunState, left: nat) returns (k: nat)
      ensures k <= left && Rounds(goal, tools, s, left) == After(goal, tools, s, k)
      ensures forall j :: 0 <= j < k ==> !After(goal, tools, s, j).completed
      ensures k < left ==> After(goal, tools, s, k).completed
    {
      k := LoopStop(Step(goal, tools), s, left);
    }

    /** The loop only adds requests, at most one per round. */
    lemma RoundsRequests(goal: string, tools: set<string>, s: RunState, left: nat)
      ensures var r := Rounds(goal, tools, s, left);
              s.requests <= r.requests && |r.requests| <= |s.requests| + left
    {
      var k := RoundsStop(goal, tools, s, left);
      AfterRequests(goal, tools, s, k);
    }

    /** Round `j` sends the `j`-th new request, built from the state the
        earlier rounds left: the planning prompt while the plan is empty,
        the step prompt after. */
    lemma AfterRequests(goal: string, tools: set<string>, s: RunState, k: nat)
      ensures var t := After(goal, tools, s, k);
              && |t.requests| == |s.requests| + k && s.requests <= t.requests
              && forall j :: 0 <= j < k ==> t.requests[|s.requests| + j] == RoundRequest(goal, After(goal, tools, s, j))
    {
      var step := Step(goal, tools);
      var request := (x: RunState) => RoundRequest(goal, x);
      forall x: RunState
        ensures step(x).requests == x.requests + [request(x)]
      {
      }
      IterateRequests(step, request, s, k);
    }

    /** After `k` rounds the task is completed exactly when it was before or
        the model called the registered completion tool in one of them. */
    lemma AfterCompleted(goal: string, tools: set<string>, s: RunState, k: nat)
      ensures After(goal, tools, s, k).completed
                == (s.completed || exists j :: 0 <= j < k && Completes(CallsIn(goal, tools, s, j), tools))
    {
      var step := Step(goal, tools);
      var done := Done(goal, tools);
      StepCompletes(goal, tools);
      if After(goal, tools, s, k).completed && !s.completed {
        var j := IterateCompletedWhy(step, done, s, k);
        DoneIn(goal, tools, s, j);
      }
      if exists j :: 0 <= j < k && Completes(CallsIn(goal, tools, s, j), tools) {
        var j :| 0 <= j < k && Completes(CallsIn(goal, tools, s, j), tools);
        DoneIn(goal, tools, s, j);
        IterateCompletedBy(step, done, s, k, j);
      }
      if s.completed {
        IterateCompletedBy(step, done, s, k, 0);
      }
    }

    lemma DoneIn(goal: string, tools: set<string>, s: RunState, j: nat)
      ensures Done(goal, tools)(After(goal, tools, s, j)) == Completes(CallsIn(goal, tools, s, j), tools)
    {
      AfterRequests(goal, tools, s, j);
    }

    /** Whether a round's tool calls complete the task. */
    function Done(goal: string, tools: set<string>): RunState -> bool {
      (x: RunState) => Completes(oracle.toolCalls(|x.requests|, RoundRequest(goal, x)), tools)
    }

    lemma StepCompletes(goal: string, tools: set<string>)
      ensures forall x: RunState :: Step(goal, tools)(x).completed == (x.completed || Done(goal, tools)(x))
    {
      forall x: RunState
        ensures Step(goal, tools)(x).completed == (x.completed || Done(goal, tools)(x))
      {
        assert Step(goal, tools)(x) == Round(goal, tools, x);
      }
    }

    /** A plan, once made, is kept: the later rounds are steps. */
    lemma AfterPlanKept(goal: string, tools: set<string>, s: RunState, k: nat)
      requires s.plan != ""
      ensures After(goal, tools, s, k).plan == s.plan
    {
      var step := Step(goal, tools);
      forall x: RunState | x.plan != ""
        ensures step(x).plan == x.plan
      {
      }
      IteratePlanKept(step, s, k);
    }

    /** The rounds keep the memory valid; the context only gains coffee
        notes and the notifications only lose entries. */
    lemma AfterMemory(goal: string, tools: set<string>, s: RunState, k: nat)
      ensures MemoryStep(s.memory, After(goal, tools, s, k).memory)
    {
      var step := Step(goal, tools);
      forall x: RunState
        ensures MemoryStep(x.memory, step(x).memory)
      {
        var calls := oracle.toolCalls(|x.requests|, RoundRequest(goal, x));
        if MemoryValid(x.memory) {
          CallsEffectValid(calls, tools, x.memory);
        }
      }
      IterateMemory(step, s, k);
    }

    /** The tools the model called during one generation, run in order
        (`execute_tool_call` for each): `mark_task_completed` is reported,
        `get_coffee` and `remove_notification` change the memory and
        `get_latest_email_summary` refreshes the Gmail store and asks the
        e-mail agent for a summary. A tool that is not registered does not
        run. */
    method RunToolCalls(calls: seq<ToolCall>) returns (marked: bool)
      requires Valid()
      modifies context, context.ids, gmail, emailAgent.agent
      ensures Valid() && oracle.requests == old(oracle.requests)
      ensures MemoryOf(context) == CallsEffect(calls, tools, old(MemoryOf(context)))
      ensures marked == Completes(calls, tools)
    {
      marked := false;
      var i := 0;
      while i < |calls|
        invariant 0 <= i <= |calls| && Valid() && oracle.requests == old(oracle.requests)
        invariant MemoryOf(context) == CallsEffect(calls[..i], tools, old(MemoryOf(context)))
        invariant marked == Completes(calls[..i], tools)
      {
        var hit := RunToolCall(calls[i]);
        CompletesSnoc(calls[..i + 1], tools);
        assert calls[..i + 1][..i] == calls[..i];
        marked := marked || hit;
        i := i + 1;
      }
      assert calls[..|calls|] == calls;
    }

    /** `execute_tool_call` for one call; `hit` reports a call of the
        registered completion tool. */
    method RunToolCall(call: ToolCall) returns (hit: bool)
      requires Valid()
      modifies context, context.ids, gmail, emailAgent.agent
      ensures Valid() && oracle.requests == old(oracle.requests)
      ensures MemoryOf(context) == CallEffect(call, tools, old(MemoryOf(context)))
      ensures hit == (call.name == MarkTool && MarkTool in tools)
    {
      hit := false;
      if call.name in tools {
        if call.name == MarkTool {
          hit := true;
        } else if call.name == "get_coffee" {
          context.AddContext(CoffeeNote);
        } else if call.name == "remove_notification" {
          var id := NotificationArg(call);
          if id.Some? {
            var _ := RemoveNotificationTool(id.value);
          }
        } else if call.name == "get_latest_email_summary" {
          var _, _ := LatestEmailSummary(mailListing, mailFetch, mailDecode);
        }
      }
    }

    /** `gen_assistant_task`: one new task at the end, whose goal is the
        stripped last message of the reply; the tools called run. */
    method GenAssistantTask()
      requires Valid()
      modifies this, oracle, context, context.ids, gmail, emailAgent.agent
      ensures Valid() && tools == old(tools)
      ensures var p := initialPrompt(taskGenPrompt(old(context.GetContext()), old(context.GetNotifications())));
              var n := |old(oracle.requests)|;
              && oracle.requests == old(oracle.requests) + [p]
              && |tasks| == |old(tasks)| + 1 && tasks[..|old(tasks)|] == old(tasks)
              && fresh(tasks[|old(tasks)|])
              && tasks[|old(tasks)|].goal == Strip(Last(oracle.reply(n, p)).content)
              && tasks[|old(tasks)|].plan == "" && tasks[|old(tasks)|].messageLog == []
              && !tasks[|old(tasks)|].completed
              && MemoryOf(context) == CallsEffect(oracle.toolCalls(n, p), tools, old(MemoryOf(context)))
    {
      var userPrompt := taskGenPrompt(context.GetContext(), context.GetNotifications());
      var promptMessages := initialPrompt(userPrompt);
      var responseMessages, calls := oracle.Generate(promptMessages);
      var _ := RunToolCalls(calls);
      var goal := Strip(Last(responseMessages).content);
      var task := new Task(goal);
      tasks := tasks + [task];
    }

    /** `select_next_task`: the task whose 1-based number the reply gives,
        or the reason it gives none; the tools called run. */
    method SelectNextTask() returns (r: Result<Task, SelectError>)
      requires Valid()
      modifies oracle, context, context.ids, gmail, emailAgent.agent
      ensures Valid()
      ensures var p := initialPrompt(selectPrompt(old(context.GetContext()), Goals(tasks)));
              var n := |old(oracle.requests)|;
              var s := SelectIndex(Last(oracle.reply(n, p)).content, |tasks|);
              && oracle.requests == old(oracle.requests) + [p]
              && (r.Ok? <==> s.Ok?)
              && (r.Ok? ==> r.value == tasks[s.value] && r.value in tasks)
              && (r.Err? ==> r.error == s.error)
              && MemoryOf(context) == CallsEffect(oracle.toolCalls(n, p), tools, old(MemoryOf(context)))
    {
      var userPrompt := selectPrompt(context.GetContext(), Goals(tasks));
      var promptMessages := initialPrompt(userPrompt);
      var responseMessages, calls := oracle.Generate(promptMessages);
      var _ := RunToolCalls(calls);
      var selected := SelectIndex(Last(responseMessages).content, |tasks|);
      if selected.Err? {
        return Err(selected.error);
      }
      r := Ok(tasks[selected.value]);
    }

    /** `gen_task_plan`: one planning round (see `Round`). */
    method GenTaskPlan(task: Task)
      requires Valid()
      modifies task, oracle, context, context.ids, gmail, emailAgent.agent
      ensures Valid() && task.goal == old(task.goal)
      ensures old(task.plan) == "" ==> StateOf(task) == Round(old(task.goal), tools, old(StateOf(task)))
      ensures var p := initialPrompt(planPrompt(old(context.GetContext()), old(task.goal)));
              var n := |old(oracle.requests)|;
              && oracle.requests == old(oracle.requests) + [p]
              && task.plan == Strip(Last(oracle.reply(n, p)).content)
              && task.messageLog == old(task.messageLog) + p + oracle.reply(n, p)
              && task.completed == (old(task.completed) || Completes(oracle.toolCalls(n, p), tools))
              && MemoryOf(context) == CallsEffect(oracle.toolCalls(n, p), tools, old(MemoryOf(context)))
    {
      var userPrompt := planPrompt(context.GetContext(), task.goal);
      var promptMessages := initialPrompt(userPrompt);
      var responseMessages, calls := oracle.Generate(promptMessages);
      var marked := RunToolCalls(calls);
      if marked {
        task.completed := true;
      }
      var plan := Strip(Last(responseMessages).content);
      task.AddPlan(plan);
      task.messageLog := task.messageLog + promptMessages;
      task.messageLog := task.messageLog + responseMessages;
    }

    /** `execute_task_step`: one step round (see `Round`). */
    method ExecuteTaskStep(task: Task)
      requires Valid()
      modifies task, oracle, context, context.ids, gmail, emailAgent.agent
      ensures Valid() && task.goal == old(task.goal) && task.plan == old(task.plan)
      ensures old(task.plan) != "" ==> StateOf(task) == Round(old(task.goal), tools, old(StateOf(task)))
      ensures var m := NewMessage("user", stepPrompt(old(context.GetContext()), old(task.goal), old(task.plan)));
              var p := old(task.messageLog) + [m];
              var n := |old(oracle.requests)|;
              && oracle.requests == old(oracle.requests) + [p]
              && task.messageLog == p + oracle.reply(n, p)
              && task.completed == (old(task.completed) || Completes(oracle.toolCalls(n, p), tools))
              && MemoryOf(context) == CallsEffect(oracle.toolCalls(n, p), tools, old(MemoryOf(context)))
    {
      var userPrompt := stepPrompt(context.GetContext(), task.goal, task.plan);
      var promptMessage := NewMessage("user", userPrompt);
      var messages := task.messageLog + [promptMessage];
      var responseMessages, calls := oracle.Generate(messages);
      var marked := RunToolCalls(calls);
      if marked {
        task.completed := true;
      }
      task.messageLog := task.messageLog + [promptMessage];
      task.messageLog := task.messageLog + responseMessages;
    }

    /** The bounded loop of `execute_task`: exactly the rounds `Rounds`
        takes, at most `MaxIterations` of them (see `RoundsStop`,
        `AfterRequests`, `AfterCompleted`). */
    method RunTask(task: Task)
      requires Valid()
      modifies task, oracle, context, context.ids, gmail, emailAgent.agent
      ensures Valid() && task.goal == old(task.goal)
      ensures StateOf(task) == Rounds(old(task.goal), tools, old(StateOf(task)), MaxIterations)
    {
      var iterations := 0;
      while !task.completed && iterations < MaxIterations
        invariant 0 <= iterations <= MaxIterations && Valid() && task.goal == old(task.goal)
        invariant Rounds(task.goal, tools, StateOf(task), MaxIterations - iterations)
                    == Rounds(task.goal, tools, old(StateOf(task)), MaxIterations)
        decreases MaxIterations - iterations
      {
        if task.plan == "" {
          GenTaskPlan(task);
        } else {
          ExecuteTaskStep(task);
        }
        iterations := iterations + 1;
      }
    }

    /** `execute_task`. A standby task is dropped at once, with nothing
        asked and no tool added. Any other task runs its rounds with the
        completion tool registered; then the tool goes, a completed task
        leaves a note in the context, and the task leaves the list either
        way. */
    method ExecuteTask(task: Task)
      requires task in tasks && Valid()
      modifies this, task, oracle, context, context.ids, gmail, emailAgent.agent
      ensures tasks == RemoveFirst(old(tasks), task) && task.goal == old(task.goal) && Valid()
      ensures old(oracle.requests) <= oracle.requests
      ensures IsStandby(old(task.goal)) ==> tools == old(tools) && StateOf(task) == old(StateOf(task))
      ensures !IsStandby(old(task.goal)) ==>
                var s := Rounds(old(task.goal), old(tools) + {MarkTool}, old(StateOf(task)), MaxIterations);
                && tools == old(tools) - {MarkTool}
                && task.plan == s.plan && task.messageLog == s.log && task.completed == s.completed
                && oracle.requests == s.requests
                && MemoryOf(context) == (if s.completed then Noted(s.memory, "TASK COMPLETED: " + old(task.goal))
                                         else s.memory)
    {
      if IsStandby(task.goal) {
        tasks := RemoveFirst(tasks, task);
        return;
      }
      tools := tools + {MarkTool};
      ghost var s0 := StateOf(task);
      RunTask(task);
      RoundsRequests(task.goal, tools, s0, MaxIterations);
      tools := tools - {MarkTool};
      if task.completed {
        context.AddContext("TASK COMPLETED: " + task.goal);
      }
      tasks := RemoveFirst(tasks, task);
    }

    /** `cycle_step`: with no tasks, make one; otherwise select one and run
        it. A refused selection raises, leaving the list as it was. */
    method CycleStep() returns (failure: Option<SelectError>)
      requires Valid()
      modifies this, oracle, context, context.ids, gmail, emailAgent.agent, set t | t in tasks
      ensures Valid()
      ensures old(tasks) == [] ==>
                var p := initialPrompt(taskGenPrompt(old(context.GetContext()), old(context.GetNotifications())));
                && failure == None && tools == old(tools) && |tasks| == 1 && fresh(tasks[0])
                && oracle.requests == old(oracle.requests) + [p]
                && tasks[0].goal == Strip(Last(oracle.reply(|old(oracle.requests)|, p)).content)
      ensures old(tasks) != [] ==>
                var p := initialPrompt(selectPrompt(old(context.GetContext()), old(Goals(tasks))));
                var s := SelectIndex(Last(oracle.reply(|old(oracle.requests)|, p)).content, |old(tasks)|);
                && old(oracle.requests) + [p] <= oracle.requests
                && (failure.Some? <==> s.Err?)
                && (s.Err? ==> failure == Some(s.error) && tasks == old(tasks) && tools == old(tools)
                               && oracle.requests == old(oracle.requests) + [p])
                && (s.Ok? ==> tasks == RemoveFirst(old(tasks), old(tasks)[s.value])
                              && tools == (if IsStandby(old(tasks[s.value].goal)) then old(tools)
                                           else old(tools) - {MarkTool}))
    {
      if |tasks| == 0 {
        GenAssistantTask();
        return None;
      }
      var selected := SelectNextTask();
      if selected.Err? {
        return Some(selected.error);
      }
      var task := selected.value;
      ExecuteTask(task);
      failure := None;
    }

    /** The `remove_notification` tool: drops the notification and says so,
        or says it was not found and changes nothing. */
    method RemoveNotificationTool(id: int) returns (r: string)
      requires context.Valid()
      modifies context
      ensures id >= 0 && HasKey(old(context.notifications), id as nat) ==>
                (context.notifications == Remove(old(context.notifications), id as nat)
                 && r == "Removed notification " + IntToString(id))
      ensures !(id >= 0 && HasKey(old(context.notifications), id as nat)) ==>
                (context.notifications == old(context.notifications)
                 && r == "Notification " + IntToString(id) + " not found")
      ensures context.contextItems == old(context.contextItems) && context.Valid()
    {
      if id >= 0 && HasKey(context.notifications, id as nat) {
        context.RemoveNotification(id as nat);
        r := "Removed notification " + IntToString(id);
      } else {
        r := "Notification " + IntToString(id) + " not found";
      }
    }

    /** The `get_latest_email_summary` tool: refreshes the store, then
        summarises the last e-mail of a thread no other thread is later
        than. The Gmail listing, fetching and decoding are parameters. */
    method LatestEmailSummary(listed: seq<string>, fetch: string -> seq<RawMessage>, decode: string -> string)
      returns (r: string, ghost latest: Option<EmailThread>)
      modifies gmail, emailAgent.agent
      ensures gmail.threads.Keys == old(gmail.threads).Keys + set i | 0 <= i < |listed| :: listed[i]
      ensures gmail.threads == map[] ==>
                (latest == None && r == "No email threads found."
                 && emailAgent.agent.requests == old(emailAgent.agent.requests))
      ensures gmail.threads != map[] ==>
                && latest.Some? && latest.value in gmail.threads.Values
                && (forall t :: t in gmail.threads.Values ==> !Before(latest.value.timestamp, t.timestamp))
                && (latest.value.messages == [] ==>
                      (r == "No messages in the latest thread."
                       && emailAgent.agent.requests == old(emailAgent.agent.requests)))
                && (latest.value.messages != [] ==>
                      var p := emailAgent.initialPrompt(emailAgent.summaryPrompt(FormatMessage(
                                 latest.value.messages[|latest.value.messages| - 1])));
                      && emailAgent.agent.requests == old(emailAgent.agent.requests) + [p]
                      && r == Strip(emailAgent.agent.reply(|old(emailAgent.agent.requests)|, p)[0].content))
    {
      var _ := gmail.UpdateEmails(listed, fetch, decode);
      if gmail.threads == map[] {
        return "No email threads found.", None;
      }
      var thread := Latest(gmail.threads);
      latest := Some(thread);
      if thread.messages == [] {
        return "No messages in the latest thread.", latest;
      }
      var email := thread.messages[|thread.messages| - 1];
      r := emailAgent.SummarizeEmail(email);
    }
  }
}
