/**
 * The two e-mail agents (agents/email_sorter_agent.py and
 * agents/email_agent.py): sorting threads into categories by asking the
 * model about the first e-mail of each thread, and parsing the model's
 * answer. The prompt templates and `make_initial_prompt` are parameters:
 * only what is sent to the model, and in which order, is modelled.
 */
module EmailAgents {
  import opened Wrappers
  import opened Strings
  import opened Messages
  import opened Oracles
  import opened EmailObjects

  /** `VALID_CATEGORIES`, in the order they are tried. */
  const ValidCategories: seq<string> := ["ADVERTISEMENT", "EMAIL_BLAST", "BUSINESS", "PERSONAL"]

  /** The text a category is looked for in: the reply stripped and upper-cased. */
  function Cleaned(response: string): string {
    Upper(Strip(response))
  }

  /** `EmailSorterAgent._parse_category`: the first valid category, in list
      order, that occurs anywhere in the cleaned reply; none if no category
      occurs. */
  function SorterCategory(response: string): (r: Option<string>)
    ensures r.Some? ==> r.value in ValidCategories && Contains(Cleaned(response), r.value)
    ensures r.Some? ==> exists i :: 0 <= i < |ValidCategories| && ValidCategories[i] == r.value
                          && forall j :: 0 <= j < i ==> !Contains(Cleaned(response), ValidCategories[j])
    ensures r.None? <==> forall c :: c in ValidCategories ==> !Contains(Cleaned(response), c)
  {
    match FirstContained(ValidCategories, Cleaned(response))
    case None => None
    case Some(i) => Some(ValidCategories[i])
  }

  /** Category matching ignores the case of the reply. */
  lemma SorterCategoryIgnoresCase(response: string)
    ensures SorterCategory(Lower(response)) == SorterCategory(response)
    ensures SorterCategory(Upper(response)) == SorterCategory(response)
  {
    CleanedIgnoresCase(response);
  }

  /** Upper-casing after stripping forgets the case of the reply. */
  lemma CleanedIgnoresCase(response: string)
    ensures Cleaned(Lower(response)) == Cleaned(response)
    ensures Cleaned(Upper(response)) == Cleaned(response)
  {
    StripLower(response);
    UpperOfLower(Strip(response));
    StripUpper(response);
    assert Upper(Upper(Strip(response))) == Upper(Strip(response));
  }

  /** White space around the reply does not change its category. */
  lemma SorterCategoryIgnoresPadding(response: string)
    ensures SorterCategory(Strip(response)) == SorterCategory(response)
  {
    StripIdempotent(response);
  }

  /** A reply that is exactly a category name is sorted into that category:
      no valid category occurs inside an earlier one. */
  lemma SorterCategoryOfName(name: string)
    requires name in ValidCategories
    ensures SorterCategory(name) == Some(name)
  {
    StripUnpadded(name);
    assert Upper(name) == name;
    assert OccursAt(name, name, 0);
    NoOtherCategoryIn(name);
    var k := if name == ValidCategories[0] then 0 else if name == ValidCategories[1] then 1
             else if name == ValidCategories[2] then 2 else 3;
    assert ValidCategories[k] == name;
    assert Cleaned(name) == name;
    assert Contains(name, name);
    var r := FirstContained(ValidCategories, name);
    assert r.Some? && r.value <= k;
    assert ValidCategories[r.value] in ValidCategories;
  }

  /** No valid category occurs inside a different one. */
  lemma NoOtherCategoryIn(name: string)
    requires name in ValidCategories
    ensures forall c :: c in ValidCategories && c != name ==> !Contains(name, c)
  {
    forall c, i | c in ValidCategories && c != name && 0 <= i <= |name|
      ensures !OccursAt(name, c, i)
    {
      assert i + |c| > |name| || name[i] != c[0];
    }
  }

  /** `EmailAgent._parse_category`: the cleaned reply cut at commas, each
      piece stripped; the pieces are not checked against any list. */
  function AgentCategories(response: string): (r: seq<string>)
    ensures |r| >= 1
    ensures forall i :: 0 <= i < |r| ==> ',' !in r[i]
  {
    var pieces := Split(Cleaned(response), ',');
    seq(|pieces|, i requires 0 <= i < |pieces| => Strip(pieces[i]))
  }

  /** Each category of the list is stripped, and it is what stands between
      two commas of the cleaned reply. */
  lemma AgentCategoriesPieces(response: string)
    ensures |AgentCategories(response)| == |Split(Cleaned(response), ',')|
    ensures forall i :: 0 <= i < |AgentCategories(response)| ==>
              Strip(AgentCategories(response)[i]) == AgentCategories(response)[i]
              && AgentCategories(response)[i] == Strip(Split(Cleaned(response), ',')[i])
  {
    var r := AgentCategories(response);
    forall i | 0 <= i < |r|
      ensures Strip(r[i]) == r[i]
    {
      StripIdempotent(Split(Cleaned(response), ',')[i]);
    }
  }

  /** A reply without a comma is a single category: the whole cleaned reply. */
  lemma AgentCategoriesSingle(response: string)
    requires ',' !in response
    ensures AgentCategories(response) == [Cleaned(response)]
  {
    var c := Cleaned(response);
    CleanedNoComma(response);
    SplitNoSeparator(c, ',');
    StripIdempotent(response);
    StripUpper(Strip(response));
    assert Strip(c) == c;
  }

  /** Cleaning a reply adds no comma. */
  lemma CleanedNoComma(response: string)
    requires ',' !in response
    ensures ',' !in Cleaned(response)
  {
    var t := Strip(response);
    StripKeepsChars(response);
    assert forall i :: 0 <= i < |t| ==> Upper(t)[i] == UpperChar(t[i]);
  }

  /** Category parsing ignores the case of the reply. */
  lemma AgentCategoriesIgnoreCase(response: string)
    ensures AgentCategories(Lower(response)) == AgentCategories(response)
  {
    CleanedIgnoresCase(response);
  }

  // ---------------------------------------------------------------------------
  // Sorting threads
  // ---------------------------------------------------------------------------

  /** The requests sorting `threads` makes, in order: one per thread that has
      messages, built from its first e-mail. */
  function Requests(threads: seq<EmailThread>, request: EmailMessage -> seq<Message>): (r: seq<seq<Message>>)
    ensures |r| <= |threads|
    decreases |threads|
  {
    if threads == [] then []
    else
      var n := |threads| - 1;
      Requests(threads[..n], request)
        + (if threads[n].messages == [] then [] else [request(threads[n].messages[0])])
  }

  /** The result of sorting `threads` when the model answers the k-th request
      with `reply(k, request)` and `base` requests were made before:
      `none` for a thread without messages, otherwise the parsed answer. */
  function Sorted<T>(threads: seq<EmailThread>, base: nat, reply: (nat, seq<Message>) -> Message,
                     request: EmailMessage -> seq<Message>, parse: string -> T, none: T): (r: seq<T>)
    ensures |r| == |threads|
    decreases |threads|
  {
    if threads == [] then []
    else
      var n := |threads| - 1;
      var t := threads[n];
      Sorted(threads[..n], base, reply, request, parse, none)
        + [if t.messages == [] then none
           else parse(reply(base + |Requests(threads[..n], request)|, request(t.messages[0])).content)]
  }

  /** One category per thread, at the thread's own index: the `none` value for
      an empty thread, otherwise the parsed answer to the request built from
      the thread's first e-mail, which is the request made for that thread. */
  lemma {:induction false} SortedAligned<T>(threads: seq<EmailThread>, base: nat, reply: (nat, seq<Message>) -> Message,
                                            request: EmailMessage -> seq<Message>, parse: string -> T, none: T, i: nat)
    requires i < |threads|
    ensures threads[i].messages == [] ==> Sorted(threads, base, reply, request, parse, none)[i] == none
    ensures threads[i].messages != [] ==>
              var k := |Requests(threads[..i], request)|;
              k < |Requests(threads, request)|
              && Requests(threads, request)[k] == request(threads[i].messages[0])
              && Sorted(threads, base, reply, request, parse, none)[i]
                 == parse(reply(base + k, request(threads[i].messages[0])).content)
    decreases |threads|
  {
    var n := |threads| - 1;
    if i < n {
      SortedAligned(threads[..n], base, reply, request, parse, none, i);
      assert threads[..n][..i] == threads[..i];
      assert threads[..n][i] == threads[i];
    } else {
      assert threads[..i] == threads[..n];
    }
  }

  /** A thread without messages makes no request. */
  lemma {:induction false} RequestsSkipEmpty(threads: seq<EmailThread>, request: EmailMessage -> seq<Message>)
    requires forall i :: 0 <= i < |threads| ==> threads[i].messages == []
    ensures Requests(threads, request) == []
    decreases |threads|
  {
    if threads != [] {
      RequestsSkipEmpty(threads[..|threads| - 1], request);
    }
  }

  /** Every thread with messages makes exactly one request. */
  lemma {:induction false} RequestsAllFull(threads: seq<EmailThread>, request: EmailMessage -> seq<Message>)
    requires forall i :: 0 <= i < |threads| ==> threads[i].messages != []
    ensures |Requests(threads, request)| == |threads|
    decreases |threads|
  {
    if threads != [] {
      RequestsAllFull(threads[..|threads| - 1], request);
    }
  }

  /** The prompt `EmailSorterAgent` builds from an e-mail: sender, recipients
      joined by ", ", subject and body go into its sort template. */
  function SorterRequest(sortPrompt: (string, string, string, string) -> string,
                         initialPrompt: string -> seq<Message>): (f: EmailMessage -> seq<Message>)
    ensures forall m :: f(m) == initialPrompt(sortPrompt(m.sender, RecipientsStr(m), m.subject, m.body))
  {
    (m: EmailMessage) => initialPrompt(sortPrompt(m.sender, RecipientsStr(m), m.subject, m.body))
  }

  /** The prompt `EmailAgent` builds from an e-mail: its formatted text goes
      into the sort template. */
  function AgentRequest(template: string -> string, initialPrompt: string -> seq<Message>): (f: EmailMessage -> seq<Message>)
    ensures forall m :: f(m) == initialPrompt(template(FormatMessage(m)))
  {
    (m: EmailMessage) => initialPrompt(template(FormatMessage(m)))
  }

  /** `EmailAgent._parse_category`, as a value. */
  function AgentParse(): (f: string -> Option<seq<string>>)
    ensures forall s :: f(s) == Some(AgentCategories(s))
  {
    (s: string) => Some(AgentCategories(s))
  }

  /** The loop both agents' `sort_threads` run: a thread without messages
      gets `none` and makes no request; any other thread makes one request
      to the model, built from its first e-mail, and gets the parsed answer. */
  method SortEach<T>(model: ModelOracle, threads: seq<EmailThread>, request: EmailMessage -> seq<Message>,
                     parse: string -> T, none: T) returns (results: seq<T>)
    modifies model
    ensures model.requests == old(model.requests) + Requests(threads, request)
    ensures results == Sorted(threads, |old(model.requests)|, model.reply, request, parse, none)
  {
    ghost var base := |model.requests|;
    results := [];
    var k := 0;
    while k < |threads|
      invariant k <= |threads|
      invariant model.requests == old(model.requests) + Requests(threads[..k], request)
      invariant results == Sorted(threads[..k], base, model.reply, request, parse, none)
    {
      assert threads[..k + 1][..k] == threads[..k];
      var thread := threads[k];
      if thread.messages == [] {
        results := results + [none];
      } else {
        var message := model.Generate(request(thread.messages[0]));
        results := results + [parse(message.content)];
      }
      k := k + 1;
    }
    assert threads[..k] == threads;
  }

  class EmailSorterAgent {
    const model: ModelOracle
    /** `self.email_sort_prompt`, rendered with sender, recipients, subject, body. */
    const sortPrompt: (string, string, string, string) -> string
    /** `self.make_initial_prompt` */
    const initialPrompt: string -> seq<Message>

    constructor (model: ModelOracle, sortPrompt: (string, string, string, string) -> string,
                 initialPrompt: string -> seq<Message>)
      ensures this.model == model && this.sortPrompt == sortPrompt && this.initialPrompt == initialPrompt
    {
      this.model := model;
      this.sortPrompt := sortPrompt;
      this.initialPrompt := initialPrompt;
    }

    /** `sort_threads`: one request per non-empty thread, in order, and one
        category (or none) per thread. */
    method SortThreads(threads: seq<EmailThread>) returns (categories: seq<Option<string>>)
      modifies model
      ensures model.requests == old(model.requests) + Requests(threads, SorterRequest(sortPrompt, initialPrompt))
      ensures categories == Sorted(threads, |old(model.requests)|, model.reply,
                                   SorterRequest(sortPrompt, initialPrompt), SorterCategory, None)
    {
      categories := SortEach(model, threads, SorterRequest(sortPrompt, initialPrompt), SorterCategory, None);
    }
  }

  class EmailAgent {
    const model: ModelOracle
    /** `self.generate`, the agent-level call. */
    const agent: AgentOracle
    /** `self.email_sort_prompt`, rendered with the formatted e-mail. */
    const sortPrompt: string -> string
    /** `prompt_set["email_process_prompt"]` */
    const processPrompt: string -> string
    /** `prompt_set["email_summary_prompt"]` */
    const summaryPrompt: string -> string
    /** `self.make_initial_prompt` */
    const initialPrompt: string -> seq<Message>

    constructor (model: ModelOracle, agent: AgentOracle, sortPrompt: string -> string,
                 processPrompt: string -> string, summaryPrompt: string -> string,
                 initialPrompt: string -> seq<Message>)
      ensures this.model == model && this.agent == agent && this.sortPrompt == sortPrompt
      ensures this.processPrompt == processPrompt && this.summaryPrompt == summaryPrompt
      ensures this.initialPrompt == initialPrompt
    {
      this.model := model;
      this.agent := agent;
      this.sortPrompt := sortPrompt;
      this.processPrompt := processPrompt;
      this.summaryPrompt := summaryPrompt;
      this.initialPrompt := initialPrompt;
    }

    /** The answer to a prompt about one e-mail: the first message the agent
        returns, stripped. */
    method Ask(template: string -> string, email: EmailMessage) returns (r: string)
      modifies agent
      ensures agent.requests == old(agent.requests) + [initialPrompt(template(FormatMessage(email)))]
      ensures r == Strip(agent.reply(|old(agent.requests)|, initialPrompt(template(FormatMessage(email))))[0].content)
      ensures Strip(r) == r
    {
      var userPrompt := template(FormatMessage(email));
      var promptMessages := initialPrompt(userPrompt);
      var responseMessages, _ := agent.Generate(promptMessages);
      r := Strip(responseMessages[0].content);
      StripIdempotent(responseMessages[0].content);
    }

    /** `process_email` */
    method ProcessEmail(email: EmailMessage) returns (r: string)
      modifies agent
      ensures agent.requests == old(agent.requests) + [initialPrompt(processPrompt(FormatMessage(email)))]
      ensures r == Strip(agent.reply(|old(agent.requests)|, initialPrompt(processPrompt(FormatMessage(email))))[0].content)
      ensures Strip(r) == r
    {
      r := Ask(processPrompt, email);
    }

    /** `summarize_email` */
    method SummarizeEmail(email: EmailMessage) returns (r: string)
      modifies agent
      ensures agent.requests == old(agent.requests) + [initialPrompt(summaryPrompt(FormatMessage(email)))]
      ensures r == Strip(agent.reply(|old(agent.requests)|, initialPrompt(summaryPrompt(FormatMessage(email))))[0].content)
      ensures Strip(r) == r
    {
      r := Ask(summaryPrompt, email);
    }

    /** `sort_threads`: as in the sorter, but the prompt holds the formatted
        first e-mail and each answer becomes an unchecked list of categories. */
    method SortThreads(threads: seq<EmailThread>) returns (categories: seq<Option<seq<string>>>)
      modifies model
      ensures model.requests == old(model.requests) + Requests(threads, AgentRequest(sortPrompt, initialPrompt))
      ensures categories == Sorted(threads, |old(model.requests)|, model.reply,
                                   AgentRequest(sortPrompt, initialPrompt), AgentParse(), None)
    {
      categories := SortEach(model, threads, AgentRequest(sortPrompt, initialPrompt), AgentParse(), None);
    }
  }
}
