# aipa core in Dafny

This project models the deterministic core of **aipa**, a personal assistant
built around a large language model. The assistant keeps a list of tasks and
its own working memory: context items and notifications. On each cycle it
asks the model for a task or picks the next one, plans it and runs it step by
step until the model calls `mark_task_completed`. Helper agents sort and
summarise the user's Gmail threads and keep a description of the user
up to date. Around these agents sit:

- a tool registry, which builds JSON tool schemas from Python docstrings and
  dispatches tool calls;
- two model back ends, one for Ollama and one for Hugging Face, which collect
  tool results or pull `<think>` and `<tool_call>` blocks out of the reply
  text;
- prompt sets loaded from template directories;
- a local e-mail store with a JSON database file.

The language model is an oracle. It is an object that records every request
it receives. Its replies are a fixed function of the request's position and
the messages sent, so every proof holds for every possible model. Python
dictionaries whose order matters are sequences of key/value pairs (module
`OrderedMaps`). Other dictionaries are Dafny maps. Python `str` operations
are modelled over `seq<char>` in module `Strings`. Objects whose attributes
the source updates in place are classes, and their methods state the new
state. Loops in the source are `while` loops with invariants, except the
search for the first `text/plain` part (email_handling/gmail_handler.py:140-145),
which only computes a value and is the recursive function `Gmail.PlainText`.
Each loop is proved against a function, and the lemmas next to that function state what
the source promises.

The standby check strips full stops from both ends of the goal
(agents/assistant_agent.py:161). A generated goal is the stripped reply
(agents/assistant_agent.py:104).

Files: `wrappers.dfy` (Option, Result), `json.dfy`, `strings.dfy`,
`ordered_map.dfy`, `counters.dfy`, `message.dfy`, `markup.dfy`, `models.dfy`,
`schema.dfy`, `agent_context.dfy`, `user_context.dfy`, `task.dfy`,
`prompts.dfy`, `oracle.dfy`, `agent.dfy`, `email_objects.dfy`, `gmail.dfy`,
`email_agents.dfy`, `user_descriptor.dfy`, `assistant.dfy`.

## Model

| member | source | states |
|---|---|---|
| Strings.StripByFacts | agents/email_agent.py:28 | `strip` removes exactly the maximal runs of white space at both ends: the result is the slice between them, and it starts and ends with a non-space character unless it is empty |
| Strings.StripKeepsChars | agents/email_agent.py:28 | every character of a stripped string occurs in the original |
| Strings.StripIdempotent | agents/assistant_agent.py:104 | stripping twice is stripping once |
| Strings.StripUnpadded | agents/assistant_agent.py:142 | a string with no white space at either end is its own strip |
| Strings.MapChars | agents/email_agent.py:93 | `upper()`/`lower()` keep the length and map each character in place |
| Strings.UpperOfLower | agents/email_agent.py:93 | upper-casing a lower-cased string equals upper-casing the original |
| Strings.StripMap | agents/email_agent.py:93 | a character mapping that keeps white space white commutes with `strip` |
| Strings.StripUpper | agents/email_sorter_agent.py:63 | `s.strip().upper()` equals `s.upper().strip()` |
| Strings.StripLower | agents/assistant_agent.py:161 | `s.strip().lower()` equals `s.lower().strip()` |
| Strings.IndexOf | utils.py:148 | `find` returns the first position at or after the start where the pattern occurs, and None when there is none |
| Strings.IndexOfContains | utils.py:142 | `pat in s` holds exactly when `find` succeeds |
| Strings.FirstContained | agents/email_sorter_agent.py:66-71 | returns the first key, in list order, that occurs in the text; no earlier key occurs; None exactly when no key occurs |
| Strings.JoinAppend | agents/user_descriptor_agent.py:38-40 | joining one more piece appends the separator and the piece |
| Strings.JoinPieceAt | email_handling/email_objects.py:57 | in `sep.join(xs)` piece i sits at its offset, is followed by exactly one separator unless it is last, and the last piece ends the text |
| Strings.Split | utils.py:35 | `split(c)` gives at least one piece, and no piece holds `c` |
| Strings.JoinSplit | email_handling/gmail_handler.py:136 | joining the pieces of a split with the separator gives back the text |
| Strings.SplitJoin | agents/agent_context.py:34 | splitting a join undoes it when no piece holds the separator |
| Strings.SplitNoSeparator | agents/email_agent.py:96 | a text without the separator splits into itself alone |
| Strings.SplitAfterPiece | agents/email_agent.py:96 | splitting `x + c + t`, where `x` has no `c`, gives `x` and then the pieces of `t` |
| Strings.NatToString | agents/assistant_agent.py:126 | `str(n)` is a non-empty string of decimal digits |
| Strings.DigitsOfNat | agents/assistant_agent.py:142 | the digits of `str(n)` read back as `n` |
| Strings.ParseIntToString | agents/assistant_agent.py:142 | `int(str(n)) == n` for every integer |
| Strings.ParseIntShape | agents/assistant_agent.py:142 | `int()` accepts only a non-empty run of digits, possibly after one sign |
| Messages.NewMessage | messages/message.py:29-34 | a new message has the given role and content, no thinking text and no tool calls |
| Messages.ToolCallToDict | messages/message.py:19-26 | the dictionary always has `name` and `arguments`, has `id` exactly when the call has one, and has no other key |
| Messages.ToolCallRoundTrip | messages/message.py:19-26 | reading the dictionary back gives the same tool call |
| Messages.ToolCallsValue | messages/message.py:41 | `tool_calls` is None exactly when there are none or the list is empty; otherwise it is the list of the calls' dictionaries, in order |
| Messages.MessageToDict | messages/message.py:36-42 | the dictionary has exactly the keys role, content, thinking and tool_calls |
| Messages.ToolCallsRoundTrip | messages/message.py:41 | a list of tool-call dictionaries reads back as the same calls |
| Messages.MessageRoundTrip | messages/message.py:36-42 | reading the dictionary back gives the message, with an empty tool-call list normalised to None |
| OrderedMaps.Keys | agents/agent_context.py:22 | the keys of a dictionary, in insertion order |
| OrderedMaps.Values | agents/agent_context.py:34 | `d.values()`: the values, in insertion order |
| OrderedMaps.Position | agents/agent_context.py:30 | `k in d` finds the only position holding key `k`; no earlier pair has it |
| OrderedMaps.Put | agents/agent_context.py:27 | `d[k] = v` keeps the key order when `k` is present and appends `(k, v)` when it is not |
| OrderedMaps.GetIn | agents/agent_context.py:30 | with distinct keys, `d.get(k) == v` exactly when the pair `(k, v)` is in the dictionary |
| OrderedMaps.HasKeyIn | agents/agent_context.py:30 | `k in d` exactly when some pair has key `k` |
| OrderedMaps.HasKeyKeys | agents/agent_context.py:30 | `k in d` exactly when `k` is in the key list |
| OrderedMaps.PutHasKey | agents/agent_context.py:27 | after `d[k] = v` the keys are `k` and the old keys |
| OrderedMaps.PutGet | agents/agent_context.py:27 | after `d[k] = v` keys stay distinct, `k` maps to `v` and every other key keeps its value |
| OrderedMaps.RemoveDistinct | agents/agent_context.py:29-31 | `del d[k]` keeps keys distinct |
| OrderedMaps.Remove | agents/agent_context.py:29-31 | deletion keeps exactly the pairs whose key is not `k` |
| OrderedMaps.RemoveCut | agents/agent_context.py:29-31 | in a dictionary, deleting a stored key cuts its pair out where it stands: the pairs before it and after it stay, in order |
| OrderedMaps.RemoveCutHead | agents/agent_context.py:29-31 | deleting the first key of a dictionary leaves the rest as it was |
| OrderedMaps.RemoveCutLater | agents/agent_context.py:29-31 | a cut in the rest of the dictionary is a cut one place later in the whole |
| OrderedMaps.RemoveGet | agents/agent_context.py:29-31 | after deletion `k` is absent and every other key keeps its value |
| OrderedMaps.RemoveAbsent | agents/agent_context.py:30 | deleting an absent key changes nothing, which is why the source guards the `del` |
| Counters.IdCounter.constructor | agents/agent_context.py:2 | `NEXT_ID` starts at 1 |
| Counters.IdCounter.Take | agents/agent_context.py:5-6 | an instance takes the current `NEXT_ID`, which then goes up by one |
| AgentContexts.Lines | agents/agent_context.py:34 | one rendered line per item, in dictionary order |
| AgentContexts.RemoveIncreasing | agents/agent_context.py:29-31 | deleting keeps the ids increasing along the dictionary and below the counter |
| AgentContexts.RenderSplit | agents/agent_context.py:33-34 | when no content holds a line break, splitting `get_context()` on line breaks gives one rendered item per line, in order |
| AgentContexts.LineNoBreak | agents/agent_context.py:9-17 | `CONTEXT #id: …` and `NOTIFICATION #id: …` add no line break of their own |
| AgentContexts.AgentContext.constructor | agents/agent_context.py:21-23 | both dictionaries start empty |
| AgentContexts.AgentContext.AddContext | agents/agent_context.py:25-27 | the item takes the shared counter's id, above every id in either dictionary, and is appended; notifications are unchanged; ids stay increasing |
| AgentContexts.AgentContext.AddNotification | agents/agent_context.py:39-41 | the same for notifications, drawing on the counter shared with context items |
| AgentContexts.AgentContext.RemoveContext | agents/agent_context.py:29-31 | the entry with that id is dropped if present; otherwise nothing changes; notifications are unchanged |
| AgentContexts.AgentContext.RemoveNotification | agents/agent_context.py:43-45 | the same for notifications |
| AgentContexts.AgentContext.GetContext | agents/agent_context.py:33-34 | the rendering is empty exactly when there are no context items |
| AgentContexts.AgentContext.GetNotifications | agents/agent_context.py:47-48 | the rendering is empty exactly when there are no notifications |
| AgentContexts.AgentContext.ClearContext | agents/agent_context.py:36-37 | only the context items go |
| AgentContexts.AgentContext.ClearNotifications | agents/agent_context.py:50-51 | only the notifications go |
| UserContexts.Contents | user/user_context.py:34 | the contents of the items, in order |
| UserContexts.UserContext.constructor | user/user_context.py:21-23 | both lists start empty |
| UserContexts.UserContext.AddContext | user/user_context.py:25-27 | appends one item with the next item id; the statements and their counter are unchanged |
| UserContexts.UserContext.AddDescriptiveStatement | user/user_context.py:29-31 | appends one statement with the next statement id and the given confidence; the items and their counter are unchanged |
| UserContexts.UserContext.GetContext | user/user_context.py:33-34 | with no items the context is empty |
| UserContexts.GetContextSplit | user/user_context.py:33-34 | when no content holds a line break, the joined context splits back into the contents |
| Tasks.Task.constructor | tasks/task.py:13-16 | a new task has its goal, an empty plan and an empty log, and is not completed |
| Tasks.Task.AddPlan | tasks/task.py:18-19 | replaces the plan and nothing else |
| Tasks.Task.LogMessage | tasks/task.py:21-22 | appends one entry with that role and content and changes nothing else |
| Tasks.CreateTask | tasks/task.py:24-36 | a fresh task with the goal, as the constructor makes it |
| Tasks.CreateTaskToolSchema | tasks/task.py:38-59 | the schema is named `create_task` and has one required string parameter, `goal` |
| Prompts.Length | agents/prompt.py:16-17 | `len(prompt)` is the length of its text |
| Prompts.EqualMeansSameText | agents/prompt.py:22-25 | two prompts are equal exactly when their texts are; a prompt never equals anything else; equality is reflexive and symmetric and equal prompts have equal lengths |
| Prompts.DirList | agents/prompt.py:38-40 | a single directory becomes a one-element list; a list is kept as given |
| Prompts.DirPrompts | agents/prompt.py:49-52 | one prompt per `*.txt` file of a directory, under the file's stem, holding its text |
| Prompts.LoadedLastWins | agents/prompt.py:43-53 | a name is loaded exactly when some existing directory has a file with that stem, and its prompt is the text from the last such directory |
| Prompts.LoadPrompts | agents/prompt.py:43-53 | the two loops of `_load_prompts` compute the override fold: missing directories skipped, later files replacing earlier ones |
| Prompts.Contents | agents/prompt.py:46-49 | the file system's contents at each directory, in order |
| Prompts.NewPromptSet | agents/prompt.py:28-41 | the set keeps the directory list and loads the prompts of those directories |
| Prompts.GetItem | agents/prompt.py:58-59 | a name that was loaded gives its prompt; any other name is a KeyError |
| Prompts.Size | agents/prompt.py:55-56 | `len(prompt_set)` is the number of distinct names |
| Prompts.LoadPromptsOneDir | agents/prompt_set.py:30-36 | the single-directory loader gives one prompt per file stem, nothing for a missing directory, and agrees with the multi-directory loader on a one-element list |
| EmailObjects.NewEmailMessage | email_handling/email_objects.py:8-24 | the fields are those given, and labels default to the empty list |
| EmailObjects.RecipientsStr | email_handling/email_objects.py:26-28 | no recipients give the empty string; one recipient gives that recipient alone |
| EmailObjects.FormatMessageLines | email_handling/email_objects.py:30-35 | when the header fields hold no line break, the formatted message is, line by line, From, To, Subject, Date, one blank line, then the body's lines |
| EmailObjects.NewEmailThread | email_handling/email_objects.py:45-54 | a new thread has the given id, timestamp and messages and an empty summary |
| EmailObjects.FormattedMessages | email_handling/email_objects.py:57-59 | each message formatted, in thread order |
| EmailObjects.FormatThreadAppend | email_handling/email_objects.py:56-60 | a thread with no messages shows only its id line; one more message appends exactly one separator and that message's text |
| EmailObjects.ThreadStr | email_handling/email_objects.py:62-63 | the reported `messages_count` reads back as the number of messages |
| Gmail.HeaderDictLastWins | email_handling/gmail_handler.py:130-131 | a header name is found exactly when some header has that name in lower case, and of several such headers the last one gives the value |
| Gmail.NonBlank | email_handling/gmail_handler.py:136 | the comprehension keeps at most as many recipients as there are pieces |
| Gmail.NonBlankClean | email_handling/gmail_handler.py:136 | every kept recipient is non-empty, has no white space at either end and holds no character that no piece holds |
| Gmail.Recipients | email_handling/gmail_handler.py:135-136 | there are at most as many recipients as comma-separated pieces of the "To" value |
| Gmail.RecipientsClean | email_handling/gmail_handler.py:136 | every recipient is non-empty, stripped and free of commas |
| Gmail.PlainText | email_handling/gmail_handler.py:140-145 | the body comes from the first `text/plain` part that has data; None exactly when no `text/plain` part has data |
| Gmail.ParseMessage | email_handling/gmail_handler.py:120-159 | the parsed message is filed under the raw message's id, has labels `labelIds` or the empty list, and has the empty timestamp |
| Gmail.ParsedRecipientsRoundTrip | email_handling/gmail_handler.py:136 | the recipients of a parsed message are clean, and parsing their `recipients_str` again gives them back |
| Gmail.StripAfterSpace | email_handling/email_objects.py:28 | a stripped, non-empty name after the space of `", "` strips back to itself |
| Gmail.RecipientsRoundTrip | email_handling/gmail_handler.py:136 | parsing `", ".join(rs)` as a "To" value gives back any list of non-empty, stripped, comma-free names |
| Gmail.JoinCommaSpace | email_handling/email_objects.py:28 | `", ".join(rs)` is `",".join` of the names with a space before every name but the first |
| Gmail.NonBlankStrips | email_handling/gmail_handler.py:136 | stripping those pieces gives the names back, and none is dropped |
| Gmail.FromRecord | email_handling/gmail_handler.py:62-70 | a message rebuilt from its record has the record's fields; labels default to the empty list |
| Gmail.MessageIds | email_handling/gmail_handler.py:103 | the ids of a thread's messages, in order |
| Gmail.Known | email_handling/gmail_handler.py:74-75 | ids not in the store are skipped; when all are stored, the messages are exactly those of the ids, in order |
| Gmail.LoadedMessages | email_handling/gmail_handler.py:62 | the messages loaded are keyed exactly by the records in the file, and by none when it has no "messages" |
| Gmail.LoadedThreads | email_handling/gmail_handler.py:73 | the threads loaded are keyed exactly by the records in the file, and by none when it has no "threads" |
| Gmail.ParserKeepsIds | email_handling/gmail_handler.py:150-158 | the parser files every message under its raw id with no timestamp |
| Gmail.LoadMessages | email_handling/gmail_handler.py:62-70 | the first loop of `_load_database` rebuilds exactly the loaded messages |
| Gmail.LoadThreads | email_handling/gmail_handler.py:73-79 | the second loop rebuilds exactly the loaded threads over those messages |
| Gmail.StoreMessages | email_handling/gmail_handler.py:192-204 | a stored message is reused and never replaced; every new entry is a fetched message parsed under its id; the thread gets one message per fetched id, the stored one, in order |
| Gmail.MergeThreads | email_handling/gmail_handler.py:179-211 | afterwards every listed thread is stored; stored threads and messages are kept as they were; each new thread holds the stored messages of the ids fetched for it, in order, with no summary; each new message was fetched for a new thread and parsed |
| Gmail.GmailHandler.constructor | email_handling/gmail_handler.py:42-53 | without a database file the store is empty; with one, it holds what the file loads to |
| Gmail.GmailHandler.Load | email_handling/gmail_handler.py:55-79 | the store becomes the messages and threads the file loads to |
| Gmail.GmailHandler.Save | email_handling/gmail_handler.py:81-112 | the file written holds every message's record and every thread's message ids |
| Gmail.GmailHandler.GetThread | email_handling/gmail_handler.py:221-231 | the thread when stored, else None |
| Gmail.GmailHandler.GetMessage | email_handling/gmail_handler.py:242-252 | the message when stored, else None |
| Gmail.GmailHandler.UpdateEmails | email_handling/gmail_handler.py:161-214 | the merge above, then the file is saved; a consistent store stays consistent, and a store with no timestamps or summaries stays so |
| Gmail.MergeStep | email_handling/gmail_handler.py:207-211 | storing one new thread keeps both merge properties |
| Gmail.UpdatePreserves | email_handling/gmail_handler.py:179-211 | after a merge, messages stay filed under their ids, threads under theirs, every thread message is the stored one, and no timestamp or summary appears |
| Gmail.SavedMessagesLoad | email_handling/gmail_handler.py:88-96 | the message records the save writes, read back by the first load loop, give the stored messages again when each is keyed by its own id and none has a timestamp |
| Gmail.SavedThreadsLoad | email_handling/gmail_handler.py:100-104 | the thread records the save writes, read back by the second load loop, give the stored threads again when each is keyed by its id, its messages are the stored ones, and it has no timestamp or summary |
| Gmail.SaveLoadRoundTrip | email_handling/gmail_handler.py:55-112 | saving a consistent store with no timestamps or summaries and loading the file again gives back the same store |
| Markup.OccursInSlice | models/hf_auto_model.py:36-37 | an occurrence inside a slice is an occurrence in the whole text at the shifted position |
| Markup.FreeSlice | models/hf_auto_model.py:36-37 | a stretch where no occurrence starts does not contain the delimiter |
| Markup.ContainsStrip | models/hf_auto_model.py:53 | stripping a text never creates an occurrence of a delimiter |
| Markup.CutsStep | models/hf_auto_model.py:36-37 | one leftmost block followed by the cuts of the remainder cuts the whole text the way the non-greedy pattern does |
| Markup.Scan | models/hf_auto_model.py:36-37 | there is one more piece around the blocks than there are blocks |
| Markup.ScanCuts | models/hf_auto_model.py:36-37 | the pieces and blocks put back together with the delimiters give the text; no piece before a block holds the opening delimiter, no block body holds the closing one, and the last piece holds no complete block |
| Markup.ScanFirst | models/hf_auto_model.py:50-51 | a block found at i..j is the first block, and the scan goes on after its closing delimiter |
| Markup.ScanUnclosed | models/hf_auto_model.py:51-52 | text with no complete block is one piece with no block |
| Markup.SplitThinking | models/hf_auto_model.py:49-56 | with no think block the reply is returned unchanged with empty thinking; otherwise the rest is the stripped text with every think block removed |
| Markup.SplitThinkingBlock | models/hf_auto_model.py:50-53 | with a block present, the text is x, `<think>`, t, `</think>`, y with no `<think>` in x and no `</think>` in t, and the thinking is t stripped |
| Markup.ThinkingHasNoCloseTag | agent/agent.py:39-46 | the thinking returned by the legacy copy of `split_thinking` (identical to the model wrapper's) never contains `</think>` |
| Markup.ThinkingMayHoldOpenTag | agent/agent.py:40-43 | the thinking can still contain `<think>`: a second opening tag inside the first block is part of its body |
| Markup.DecodeBlocks | models/hf_auto_model.py:38-44 | no more calls than blocks |
| Markup.DecodeBlocksLast | models/hf_auto_model.py:39-44 | the last block adds its decoded call, if any, after the calls of the earlier blocks |
| Markup.Decoded | models/hf_auto_model.py:39-44 | every listed position is a block position |
| Markup.DecodedPositions | models/hf_auto_model.py:39-44 | the positions of the decoded blocks are strictly increasing and are exactly the blocks whose stripped text decodes |
| Markup.DecodedCalls | models/hf_auto_model.py:39-44 | the i-th tool call is what the i-th decoding block decodes to, so calls keep block order and failing blocks are skipped |
| Markup.DecodeBlocksAll | models/hf_auto_model.py:39-44 | when every block decodes, there is one call per block, in block order |
| Markup.TailHasNoCallOpen | models/hf_auto_model.py:46 | the tail of the witness text holds no `<tool_call>` |
| Markup.FirstCallBlockOfFusing | models/hf_auto_model.py:36-37 | the first tool-call block of the witness text lies at positions 6..18 |
| Markup.RemovalMayFormBlock | models/hf_auto_model.py:46 | the text left after removing the tool-call blocks may itself hold a complete block (a concrete text) |
| Markup.ParseToolCalls | models/hf_auto_model.py:35-47 | the calls decoded from the blocks in order, and the stripped text with every block removed |
| Markup.AssembleReply | models/hf_auto_model.py:91-98 | an assistant message whose thinking is split off first, whose content is the stripped remainder with tool-call blocks removed (and stays stripped), and whose tool calls are None exactly when no block decoded |
| Models.ToolRegistry.constructor | models/model.py:13 | the registry starts empty |
| Models.ToolRegistry.AddTool | models/hf_auto_model.py:28-33 | the entry is filed under the schema's name, replacing an existing one in place, and names stay distinct |
| Models.ToolRegistry.ToolDicts | models/hf_auto_model.py:24-26 | the `tool_dict` of each registered tool, one per tool, in registry order |
| Models.AddToolDicts | models/hf_auto_model.py:24-33 | a new name appends its schema to `tool_dicts`; a known name has its schema replaced where it stood |
| Models.ToolRegistry.ExecuteToolCall | models/ollama_model.py:57-64 | an error exactly when the tool is not registered, with the message "Tool '<name>' not found."; otherwise the registered function applied to the arguments |
| Models.ToolRegistry.CollectToolResults | models/ollama_model.py:47-54 | the results of running the calls in order; a reply without tool calls runs nothing and gives an empty map |
| Models.ToolRegistry.ToolResultsErrorPersists | models/ollama_model.py:52-54 | once a prefix of the calls fails, the whole run fails with the same error |
| Models.ToolRegistry.ToolResultsOk | models/ollama_model.py:52-54 | the run succeeds exactly when every called tool is registered |
| Models.ToolRegistry.ToolResultsKeys | models/ollama_model.py:52-54 | the results hold exactly one key per tool name called |
| Models.ToolRegistry.ToolResultsLastWins | models/ollama_model.py:52-54 | a tool's result is that of the last call with its name |
| Models.ToolRegistry.ToolResultsError | models/ollama_model.py:57-64 | a failed run fails on the first call of an unregistered tool, with its message |
| Models.ToolRegistry.OllamaGenerate | models/ollama_model.py:44-55 | the reasoning text or "", the content stripped and the tool results; fails exactly when a call names an unregistered tool |
| Models.HFCaches.constructor | models/hf_auto_model.py:12-13 | both caches start empty |
| Models.HFCaches.Instantiate | models/hf_auto_model.py:15-22 | a tokenizer and weights are loaded only for a name not cached yet, each name is loaded at most once, and the cached objects are handed out |
| Schemas.ClassType | utils.py:86-97 | each built-in class maps to one of the six JSON type names |
| Schemas.HintType | utils.py:99-115 | the fallback always gives one of the six JSON type names |
| Schemas.JsonType | utils.py:76-115 | every annotation maps to one of the six JSON type names |
| Schemas.HintTypeFirstKeyword | utils.py:100-115 | the fallback picks the type of the first keyword in list order that the annotation's text contains, and "string" when none does |
| Schemas.CleanAll | utils.py:35-36 | one cleaned line per line, in order |
| Schemas.Kept | utils.py:34-40 | no more lines kept than there are |
| Schemas.KeptShape | utils.py:37-40 | every kept line is non-empty, is not a section marker and is one of the lines |
| Schemas.DescriptionLinesShape | utils.py:34-40 | description lines are non-blank, already stripped and not section markers |
| Schemas.KeptStopsAtMarker | utils.py:37-38 | nothing from the first section marker on is kept |
| Schemas.KeptKeepsLine | utils.py:39-40 | a non-empty line before any marker is kept, between what comes before and after it |
| Schemas.KeptStep | utils.py:35-40 | one step of the loop: a marker ends it, an empty line is dropped, any other line is kept |
| Schemas.KeepLines | utils.py:34-40 | the loop keeps exactly the non-empty stripped lines before the first section marker |
| Schemas.Description | utils.py:33-42 | the description is those lines joined by single spaces |
| Schemas.AfterColon | utils.py:148-150 | the text after the first ':' is a proper suffix of the line |
| Schemas.ArgsHit | utils.py:133-146 | the line the scan picks comes after the start of the Args section (or the section had started), names the parameter, and neither opens nor ends the section |
| Schemas.NoArgsNoHit | utils.py:135-140 | without a line that opens the section the scan picks nothing |
| Schemas.NoArgsNoDescription | utils.py:135-158 | without an "Args:" line no parameter description is found |
| Schemas.DescriptionSource | utils.py:135-156 | a description found comes from a line after an "Args:" line that names the parameter and holds ':', is not itself an "Args:" line and does not end the section; it is the text after its first ':' stripped, followed by its indented continuation lines |
| Schemas.ContinuationLines | utils.py:151-155 | the indented lines after the parameter's line, each stripped and preceded by a space |
| Schemas.ExtractParamDescription | utils.py:118-158 | the loop finds the description the scan above defines, None for an empty docstring |
| Schemas.ParamSchemaFor | utils.py:57-67 | a JSON type name and a non-empty description, "The <name> parameter" when none is found |
| Schemas.ParamEntriesError | utils.py:48-55 | the parameters map is built exactly when every parameter other than `self` is annotated; otherwise the error names the first unannotated one |
| Schemas.ParamEntriesContents | utils.py:48-67 | with distinct parameter names the map has distinct keys, none of them `self`, and each other parameter is filed under its name with its entry |
| Schemas.ParamEntriesKeys | utils.py:48-67 | every key of the map is a parameter's name |
| Schemas.ErrorPersists | utils.py:54-55 | the first missing type hint ends the loop with its error |
| Schemas.BuildParamEntries | utils.py:46-67 | the parameter loop builds exactly the map above, or its error |
| Schemas.GenerateToolSchema | utils.py:12-73 | a missing or empty docstring is an error naming the tool; otherwise the name, the description and the parameters map, or the first missing-type-hint error |
| Schemas.SchemaToJson | utils.py:69-73 | the schema dictionary files the tool's name under "name" |
| Oracles.ModelOracle.Generate | models/model.py:15-19 | the request is logged after the earlier ones and the reply is the oracle's answer to it |
| Oracles.AgentOracle.Generate | agents/assistant_agent.py:100-103 | the request is logged and the replies (never empty) and the tool calls the model made, in order and with their arguments, are the oracle's answer to it |
| Agents.SimpleMessages | agent/agent.py:33-37 | exactly two messages: the system prompt, then the user's prompt |
| Agents.Agent.MakeSimpleMessages | agents/agent.py:34-38 | the two messages of the legacy builder, with the agent's own system prompt |
| Agents.AgentHub.constructor | agents/agent.py:12 | the hub starts empty |
| Agents.Agent.constructor | agents/agent.py:14-21 | the new agent is filed in the hub under its class name, and its own tool table is empty |
| Agents.Agent.RegisterAgent | agents/agent.py:31-32 | the hub maps the name to this agent, replacing any earlier one |
| Agents.Agent.AddTool | agents/agent.py:40-41 | the tool is filed in the model's registry; the agent's own table does not change |
| Agents.Agent.ToolDicts | agents/agent.py:23-25 | the agent's own `tool_dicts` is always empty, since tools go to the model |
| EmailAgents.SorterCategory | agents/email_sorter_agent.py:52-71 | the first category in list order that occurs in the stripped, upper-cased reply; None exactly when none occurs |
| EmailAgents.SorterCategoryIgnoresCase | agents/email_sorter_agent.py:63 | lower- or upper-casing the reply does not change its category |
| EmailAgents.CleanedIgnoresCase | agents/email_sorter_agent.py:63 | the cleaned reply does not depend on the reply's case |
| EmailAgents.SorterCategoryIgnoresPadding | agents/email_sorter_agent.py:63 | white space around the reply does not change its category |
| EmailAgents.SorterCategoryOfName | agents/email_sorter_agent.py:6 | a reply that is exactly a category name is sorted into that category |
| EmailAgents.NoOtherCategoryIn | agents/email_sorter_agent.py:66-68 | no valid category occurs inside a different one |
| EmailAgents.AgentCategories | agents/email_agent.py:82-98 | at least one category, none holding a comma |
| EmailAgents.AgentCategoriesPieces | agents/email_agent.py:96 | one category per comma-separated piece of the cleaned reply, each that piece stripped |
| EmailAgents.AgentCategoriesSingle | agents/email_agent.py:93-96 | a reply without a comma gives the single category that is the whole cleaned reply |
| EmailAgents.CleanedNoComma | agents/email_agent.py:93 | cleaning the reply adds no comma |
| EmailAgents.AgentCategoriesIgnoreCase | agents/email_agent.py:93 | lower-casing the reply does not change the categories |
| EmailAgents.Requests | agents/email_sorter_agent.py:26-44 | no more requests than threads |
| EmailAgents.Sorted | agents/email_sorter_agent.py:24-50 | one result per thread |
| EmailAgents.SortedAligned | agents/email_sorter_agent.py:26-48 | result i belongs to thread i: None for an empty thread, otherwise the parsed answer to the request built from that thread's first e-mail, which is the request made for it |
| EmailAgents.RequestsSkipEmpty | agents/email_sorter_agent.py:27-29 | threads without messages make no request |
| EmailAgents.RequestsAllFull | agents/email_sorter_agent.py:31-44 | every thread with messages makes exactly one request |
| EmailAgents.SorterRequest | agents/email_sorter_agent.py:35-43 | the prompt holds sender, the recipients joined by ", ", subject and body of the e-mail |
| EmailAgents.AgentRequest | agents/email_agent.py:70-73 | the prompt holds the formatted e-mail |
| EmailAgents.AgentParse | agents/email_agent.py:82-98 | the parse always gives the category list |
| EmailAgents.SortEach | agents/email_agent.py:59-80 | the loop makes exactly the requests above, in order, and returns the aligned results |
| EmailAgents.EmailSorterAgent.constructor | agents/email_sorter_agent.py:10-12 | the agent keeps its model and sort prompt |
| EmailAgents.EmailSorterAgent.SortThreads | agents/email_sorter_agent.py:14-50 | one request per non-empty thread in order, and one category or None per thread |
| EmailAgents.EmailAgent.constructor | agents/email_agent.py:7-9 | the agent keeps its model and prompts |
| EmailAgents.EmailAgent.Ask | agents/email_agent.py:22-28 | one request built from the formatted e-mail, answered by the first reply message stripped |
| EmailAgents.EmailAgent.ProcessEmail | agents/email_agent.py:11-28 | the process prompt about the e-mail is sent once, and the first reply message, stripped, is returned |
| EmailAgents.EmailAgent.SummarizeEmail | agents/email_agent.py:30-47 | the summary prompt about the e-mail is sent once, and the first reply message, stripped, is returned |
| EmailAgents.EmailAgent.SortThreads | agents/email_agent.py:49-80 | one request per non-empty thread in order, and per thread None or the unchecked category list |
| UserDescriptor.SourceEntry | agents/user_descriptor_agent.py:40 | type, timestamp and content on three lines; a KeyError naming a missing key exactly when one is missing |
| UserDescriptor.SourceEntries | agents/user_descriptor_agent.py:37-40 | one entry per source when all render |
| UserDescriptor.SourceEntriesFacts | agents/user_descriptor_agent.py:35-41 | all sources render exactly when each has the three keys, entry i is source i's; otherwise the error is that of the first incomplete source |
| UserDescriptor.StatementEntry | agents/user_descriptor_agent.py:48 | the entry begins with the statement id's digits and a newline |
| UserDescriptor.StatementEntries | agents/user_descriptor_agent.py:45-48 | one entry per statement, in order |
| UserDescriptor.BlockShort | agents/user_descriptor_agent.py:36-41 | no entries give an empty block; one entry gives that entry stripped |
| UserDescriptor.BlockLayout | agents/user_descriptor_agent.py:37-40 | in the joined text, entry i stands at its offset, followed by the separator unless it is the last entry, which ends the text |
| UserDescriptor.EntriesStopAt | agents/user_descriptor_agent.py:40 | once a source lacks a key, the whole rendering fails with that key |
| UserDescriptor.UserDescriptorAgent.constructor | agents/user_descriptor_agent.py:6-9 | the agent keeps its model, prompts and user context |
| UserDescriptor.UserDescriptorAgent.FormatInformationSourcesBlock | agents/user_descriptor_agent.py:35-41 | the loop gives the stripped block of the source entries joined by the separator, or the first missing key |
| UserDescriptor.UserDescriptorAgent.FormatDescriptiveStatementsBlock | agents/user_descriptor_agent.py:43-49 | the loop gives the stripped block of the statement entries joined by the separator |
| UserDescriptor.UserDescriptorAgent.UpdateDescriptiveStatements | agents/user_descriptor_agent.py:11-33 | a missing key stops it before any request; otherwise exactly one request with both blocks, and the reply's text is returned; the user context is unchanged |
| Assistant.Last | agents/assistant_agent.py:104 | the last message is one of the reply's messages |
| Assistant.SelectIndex | agents/assistant_agent.py:141-149 | an index exactly when the stripped reply is an integer k with 1 <= k <= n, and then the index is k - 1; "not an integer" exactly when parsing fails |
| Assistant.SelectIndexOfNumeral | agents/assistant_agent.py:142-147 | the numeral of k selects index k - 1 when 1 <= k <= n and is out of range otherwise, 0 and negatives included |
| Assistant.NumeralUnpadded | agents/assistant_agent.py:142 | a numeral is non-empty and has no white space at either end |
| Assistant.SelectIndexIgnoresPadding | agents/assistant_agent.py:142 | white space around the reply does not change the selection |
| Assistant.RemoveFirst | agents/assistant_agent.py:162 | removing a listed task shortens the list by one; removing an unlisted one changes nothing |
| Assistant.FirstIndex | agents/assistant_agent.py:162 | the position of the first occurrence of the task |
| Assistant.RemoveFirstCut | agents/assistant_agent.py:183 | the list after removal is what stood before and after the task's first occurrence, in order |
| Assistant.Goals | agents/assistant_agent.py:126 | one goal per task, in order |
| Assistant.StandbySpellings | agents/assistant_agent.py:161 | "standby", "Standby." and "STANDBY" are all standby goals |
| Assistant.LowerSpellings | agents/assistant_agent.py:161 | the three spellings lower-case to "standby" |
| Assistant.StandbyLower | agents/assistant_agent.py:161 | a goal that lower-cases to "standby" is a standby goal |
| Assistant.StandbyDotted | agents/assistant_agent.py:161 | such a goal followed by a full stop is one too |
| Assistant.StripDotsUnpadded | agents/assistant_agent.py:161 | a word with no full stop at either end is its own dot-strip |
| Assistant.StripTrailingDot | agents/assistant_agent.py:161 | a trailing full stop is stripped |
| Assistant.BeforeIrreflexive | agents/assistant_agent.py:348 | no timestamp comes before itself |
| Assistant.BeforeTransitive | agents/assistant_agent.py:348 | the timestamp order is transitive |
| Assistant.Latest | agents/assistant_agent.py:348 | a stored thread that no other thread's timestamp comes after |
| Assistant.CallEffect | agents/assistant_agent.py:292-328 | a call of a tool that is not registered changes nothing; `get_coffee` appends "ACTION TAKEN: Coffee brewed." under the next id; only `remove_notification` touches the notifications, and it only removes |
| Assistant.CallsEffect | models/ollama_model.py:52-54 | the calls of one generation, run in order, only append coffee notes under consecutive fresh ids and only drop notifications |
| Assistant.CallEffectValid | agents/assistant_agent.py:301-325 | one tool call keeps the ids increasing and below the counter |
| Assistant.CallsEffectValid | models/ollama_model.py:52-54 | so do all the calls of a generation |
| Assistant.CallsEffectQuiet | models/ollama_model.py:52-64 | calls of tools that change no memory, or of unregistered names, leave the memory as it was |
| Assistant.CompletesSnoc | agents/assistant_agent.py:195-197 | the calls complete the task exactly when the earlier ones did or the last is the registered completion tool |
| Assistant.MemoryStepTransitive | agents/assistant_agent.py:174-179 | "the memory follows by running tools" composes over rounds |
| Assistant.Loop | agents/assistant_agent.py:174 | the loop leaves a completed task alone |
| Assistant.IterateShift | agents/assistant_agent.py:174-179 | a round followed by `k` rounds is `k + 1` rounds |
| Assistant.LoopStop | agents/assistant_agent.py:172-179 | the loop is `k` rounds with `k` at most the bound; no earlier round left the task completed, and it stops before the bound only on a completed task |
| Assistant.IterateRequests | agents/assistant_agent.py:174-179 | rounds that send one request each send them in order, round `j` the `j`-th |
| Assistant.IterateCompletedBy | agents/assistant_agent.py:174-179 | once a round completes the task it stays completed |
| Assistant.IterateCompletedWhy | agents/assistant_agent.py:174-179 | a task completed after the rounds was completed before them or by one of them |
| Assistant.IteratePlanKept | agents/assistant_agent.py:175 | rounds that keep a non-empty plan keep it for good |
| Assistant.IterateMemory | agents/assistant_agent.py:174-179 | rounds that each only run tools leave memory that follows from the first by running tools |
| Assistant.AssistantAgent.constructor | agents/assistant_agent.py:15-50 | no tasks, and the four tools the agent registers itself |
| Assistant.AssistantAgent.Round | agents/assistant_agent.py:175-178 | one round sends one request (the planning prompt while the plan is empty, the log and a step prompt after), strictly extends the log, keeps a plan once made, and completes the task exactly when the model called the registered completion tool |
| Assistant.AssistantAgent.Rounds | agents/assistant_agent.py:172-179 | the loop leaves a completed task alone |
| Assistant.AssistantAgent.RoundsStop | agents/assistant_agent.py:172-179 | the loop runs `k` rounds, at most twenty; none before the last left the task completed, and it stops early only on a completed task |
| Assistant.AssistantAgent.RoundsRequests | agents/assistant_agent.py:172-179 | the loop only adds requests, at most one per round |
| Assistant.AssistantAgent.AfterRequests | agents/assistant_agent.py:174-179 | round `j` sends the `j`-th new request, built from the state the earlier rounds left |
| Assistant.AssistantAgent.AfterCompleted | agents/assistant_agent.py:174-197 | after the rounds the task is completed exactly when it was before or the model called the registered completion tool in one of them |
| Assistant.AssistantAgent.StepCompletes | agents/assistant_agent.py:195-197 | a round completes the task exactly when it was completed or its calls hold the completion tool |
| Assistant.AssistantAgent.DoneIn | agents/assistant_agent.py:174-179 | the calls checked in round `j` are the model's answer to the `j`-th new request |
| Assistant.AssistantAgent.AfterPlanKept | agents/assistant_agent.py:175-178 | a plan, once made, is kept, so the later rounds are steps |
| Assistant.AssistantAgent.AfterMemory | agents/assistant_agent.py:174-179 | over the rounds the ids stay valid, the context only gains coffee notes and the notifications only lose entries |
| Assistant.AssistantAgent.RunToolCall | models/ollama_model.py:57-64 | one call runs its registered tool: the memory changes as `CallEffect` says and the completion tool is reported; the agent's own requests are untouched |
| Assistant.AssistantAgent.RunToolCalls | models/ollama_model.py:52-54 | the calls run in order: the memory changes as `CallsEffect` says, and the completion tool is reported exactly when one of them called it |
| Assistant.AssistantAgent.GenAssistantTask | agents/assistant_agent.py:82-106 | one request, built from the context and notifications before it; one new uncompleted task at the end with no plan or log, whose goal is the stripped last reply message; earlier tasks unchanged; the tools called run |
| Assistant.AssistantAgent.SelectNextTask | agents/assistant_agent.py:108-149 | one request; the listed task whose 1-based number the reply gives, or the reason there is none; the tools called run |
| Assistant.AssistantAgent.GenTaskPlan | agents/assistant_agent.py:200-231 | one planning round: the plan is the stripped last reply message, the prompt and the whole reply are logged, the tools called run, and the task is completed exactly when it was or the completion tool was called |
| Assistant.AssistantAgent.ExecuteTaskStep | agents/assistant_agent.py:233-264 | one step round: the log plus one user step message is sent; the log grows by that message and the whole reply; the plan is unchanged; the tools called run and completion is as in planning |
| Assistant.AssistantAgent.RunTask | agents/assistant_agent.py:172-179 | the task, the memory and the requests end as the loop `Rounds` leaves them, with twenty rounds at most (see RoundsStop, AfterRequests, AfterCompleted) |
| Assistant.AssistantAgent.ExecuteTask | agents/assistant_agent.py:151-183 | a standby task is dropped with nothing asked and nothing changed; any other runs the loop with the completion tool registered, which is removed afterwards; a completed task leaves one "TASK COMPLETED" note after the loop's memory; the task leaves the list either way; requests are only added |
| Assistant.AssistantAgent.CycleStep | agents/assistant_agent.py:69-80 | with no tasks one new task is made, whose goal is the stripped reply to the task prompt; otherwise the selection prompt is sent first, a refused selection leaves the list and the tools as they were, and a run removes the selected task's first occurrence and leaves the tools as before, less the completion tool |
| Assistant.AssistantAgent.RemoveNotificationTool | agents/assistant_agent.py:312-328 | a stored notification is removed and reported; otherwise nothing changes and "not found" is reported |
| Assistant.AssistantAgent.LatestEmailSummary | agents/assistant_agent.py:338-353 | the store is refreshed first; no threads, or an empty latest thread, give their messages with nothing asked; otherwise the last e-mail of a latest thread is summarised |
| EmailObjects.MissingArguments | email_handling/email_objects.py:8-17 | the required parameters a call leaves out, none exactly when it names them all |
| Gmail.ConstructorCallsAsWritten | email_handling/gmail_handler.py:152-159 | every message and thread the store builds, as written, leaves out the required timestamp |

## Findings

| source | as written | input that shows it | evidently intended | confidence | as-written member | corrected member |
|---|---|---|---|---|---|---|
| email_handling/gmail_handler.py:152-159, 63-70, 76-79, 207-210 | `EmailMessage(...)` and `EmailThread(...)` are called without `timestamp`, which both constructors require (email_handling/email_objects.py:14, 48) | any raw message passed to `_parse_message`, any non-empty database file, any new thread in `update_emails` | each message and thread is built with a timestamp; the model passes the empty one, since the database file does not store it | high; not executed | Gmail.ConstructorCallsAsWritten | Gmail.ParseMessage |

## Left out

- The language model itself: inference with transformers and torch, the `ChatOllama` call and `bind_tools`, and device selection. Every generation is an oracle (`Oracles`). What the tokenizer's chat template does with the tool list is not modelled.
- Prompt templates (Jinja rendering) and the prompt files: each rendered prompt is a function parameter of the agent that uses it. The debug time, the looked-up geolocation and `datetime` formatting are folded into those parameters. `PromptSet` keeps the loaded names and texts (`Prompts`), but reading the directory is a parameter.
- File and network I/O: the JSON database file is a value (`Gmail.Database`). JSON and base64 decoding are the `decode` parameter. The Gmail API calls, `HttpError` handling, `get_credentials`, `_initialize_service` and `get_all_threads` are not modelled. The thread listing and the raw messages are parameters of `UpdateEmails`.
- `print`, `EmailMessage.__str__`, `EmailMessage.__repr__`, `Prompt.__call__` and `Prompt.__iter__` are not modelled.
- Floating point: a statement's confidence is rendered by the `showConfidence` parameter.
- Assistant.Latest: Python's `max` returns the first maximal thread in dictionary order. The model's maps have no order, so it returns some thread that no other thread is later than.
- Assistant.AssistantAgent.LatestEmailSummary: for the same reason, when several threads share the latest timestamp it summarises one of them, not necessarily the first in dictionary order.
- Tools called during a generation run in the model (`Assistant.CallEffect`), but the tools registered by `WeatherAgent` and `WakeupAgent` (`agent_as_tool`) are not: a call of one is treated as a call of an unregistered name and does nothing. `WeatherAgent`, `WakeupAgent` and `explain_tools` are not modelled.
- Assistant.CallEffect: a call of a name that is not registered raises `ValueError` in `execute_tool_call`, and a `remove_notification` call without a `notification_id`, or with a list or dictionary, raises `TypeError`. The model lets such a call do nothing instead of ending the cycle.
- Assistant.AssistantAgent.RunToolCall: `get_latest_email_summary` refreshes the store from fixed Gmail answers (the agent's `mailListing`, `mailFetch` and `mailDecode`), so later calls see the same listing. Nothing is stated about the Gmail store or the e-mail agent's requests after a generation that called it.
- Assistant.AssistantAgent.RunToolCalls: in the source `mark_task_completed` sets `task.completed` while the model is still generating. In the model the flag is set after the calls have run; nothing reads it in between.
- `int()` is modelled for an optional sign and ASCII digits only. Underscores, non-ASCII digits and surrounding white space inside `int()` are not; the stripped reply is what is parsed. `str.strip`, `upper` and `lower` act on ASCII only.
- agents/agent.py defines no `make_initial_prompt`, `generate`, `remove_tool`, `tasks` or `agent_context`, although its subclasses use them. The model treats them as an interface: `make_initial_prompt` is a parameter, `generate` is the agent oracle, and `remove_tool` removes the name from the assistant's tool set.
- UserDescriptor.UserDescriptorAgent.UpdateDescriptiveStatements: `generate_response` unpacks two values from `Model.generate`, which returns one `Message`. The model returns the reply's content instead of failing on the unpacking.
- Assistant.AssistantAgent.ExecuteTask: requires the task to be in the list, as `select_next_task` guarantees. `list.remove` of a task that is not listed would raise `ValueError`.
- Tasks: `Task.__init__` never sets `completed`, which `execute_task` reads. The model initialises it to false.
- Tasks.Task.LogMessage: stores the `Message` itself rather than the dictionary form.
- Gmail.Body: the top-level body is read only when the payload has no `parts` at all, as the code does. The payload is not consulted when it has parts but none of them is plain text.
- Markup.SplitThinking: the thinking may itself contain `<think>` (Markup.ThinkingMayHoldOpenTag), so only the absence of `</think>` is proved. After blocks are removed, the text may still hold a complete block (Markup.RemovalMayFormBlock), so no "no block left" property is stated.
- Timestamps: see Findings. Message and thread timestamps are the empty string throughout. Information-source values and statement ids are rendered as strings, not as arbitrary Python objects.
- Schemas.GenerateToolSchema: `inspect.getdoc` and `inspect.signature` are inputs (the docstring, or None, and the parameter list). An annotation other than the six built-in classes is known by its `str()` text.
- Assistant.AssistantAgent.CycleStep: a refused selection raises in the source. The model returns the reason and leaves the task list unchanged.
- Concurrency is not modelled: the class-wide caches, the agent hub and the id counters are shared objects updated one call at a time.
