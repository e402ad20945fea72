# A verified model of the assistant's brain service

`modules/ai/brain/brain.py` is the local HTTP service behind an operating-system
assistant. It holds two language models, a main one and a fast one, loaded on demand.
It answers three requests:

- `/action` turns a typed query into clickable action records. A shortcut table
  answers first. Otherwise the fast model streams an answer, which the abort signal
  can stop. An answer mentioning `SEARCH:` is re-asked with web results. The final
  text is parsed line by line into link, person, place, calculation and install
  records.
- `/ask` lets the fast model pick a tool: local files, web search, calculator or
  none. It gathers that tool's context and lets the main model answer with it.
- `/install_plan` looks the app up in Nixpkgs and has the fast model choose a
  package. Failing that, it asks the main model for an AppImage download link.

The model covers:

- the smart loader (`ensure_model_loaded`);
- the three endpoints' decision logic;
- the text surgery they rely on: Python's `strip`, `split`, `join`, `replace`,
  `lower`, `upper` and `title` on ASCII text.

Everything the service asks of a foreign party is an input. This covers:

- the web and Nixpkgs searches;
- the navigation, person and place lookups;
- each model's reply or chunk stream;
- the expression evaluator and `json.loads`;
- file existence, path resolution and each model load.

Modules:

- `Wrappers`: `Option` and `Result`.
- `PyStr`: Python string operations.
- `Requests`: request bodies and `dict.get`.
- `Calculator`: `perform_calculation`.
- `WebSearch`: web-search context, the two-result snippet and the `SEARCH:`
  sub-query.
- `Streaming`: chunk accumulation with the abort check.
- `Actions`: the line parser.
- `ActionPipeline`: `/action`.
- `Router`: the decision and context of `/ask`.
- `Installer`: `/install_plan`.
- `Loader`: the loader as a transition on the globals.
- `Server`: the globals as a class `Brain`, whose methods are the loader and the
  three endpoints.

Some behaviours of the code worth knowing, all modelled as written:

- An OPEN line's title is Python's `str.title` of the host, so
  `OPEN:https://example.com/page` is titled "Example.Com".
- The PLACE fallback URL is the place text appended unencoded.
- The OPEN test accepts any letter case, but the split that follows looks for
  upper-case `OPEN:` only. So a line `open:x` without `OPEN:` yields nothing.
- `fast_model_error` is never assigned, so the not-ready status always reads
  "Model Loading...".

## Model

| member | source | states |
|---|---|---|
| Requests.Field | modules/ai/brain/brain.py:543 | `dict.get`: the stored value when the key is present, the default otherwise |
| Calculator.ExpressionOfCases | modules/ai/brain/brain.py:367-371 | a prefix among "calculate ", "what is ", "solve " that matches the lower-cased text is removed from the original text, case kept; with no such prefix the text is unchanged |
| Calculator.PerformCalculation | modules/ai/brain/brain.py:365-378 | the prefix loop and evaluation produce "Expression: e\nResult: r" or "Error calculating 'e': msg" as `CalcMessage` defines |
| Calculator.CalcContent | modules/ai/brain/brain.py:734-738 | a message without "Result: " is the content unchanged |
| Calculator.NoMarkerInHead | modules/ai/brain/brain.py:375-376 | in a success message, "Result: " does not occur before the result line when the expression lacks it |
| Calculator.ContentOfSuccessMessage | modules/ai/brain/brain.py:734-736 | the content of a success message is the stripped result |
| Calculator.CalcContentOfSuccess | modules/ai/brain/brain.py:731-738 | a CALC action whose evaluation succeeds shows the stripped evaluator result |
| Streaming.ConsumeStream | modules/ai/brain/brain.py:650-657 | the chunk loop aborts iff some checked chunk sees the signal; otherwise the text is every delta concatenated (missing content as ""), with a mid-stream failure keeping the partial text |
| Streaming.DeltasAppend | modules/ai/brain/brain.py:656-657 | accumulation distributes over concatenated streams |
| Streaming.DeltasStep | modules/ai/brain/brain.py:656-657 | one more chunk appends its content, or nothing when it has none |
| Streaming.EmptyStreamNotAborted | modules/ai/brain/brain.py:651-652 | a stream without chunks never checks the signal |
| WebSearch.Take | modules/ai/brain/brain.py:195-196 | the first n elements of a list, all of them when it is shorter |
| WebSearch.PerformWebSearch | modules/ai/brain/brain.py:187-205 | the loop over the first three results gives `WebSearchText`: "No search results found." for none, else the entries with content joined by blank lines |
| WebSearch.ContextEntriesCount | modules/ai/brain/brain.py:199-201 | one entry per result with content, never more than the results |
| WebSearch.ContextEntriesAll | modules/ai/brain/brain.py:195-201 | when every result has content, each gives its "Source: … Content: …" entry in order |
| WebSearch.WebSearchFirstThree | modules/ai/brain/brain.py:195-196 | results after the third never change the context |
| WebSearch.NoContentGivesEmpty | modules/ai/brain/brain.py:200-201 | results without content give no entry |
| WebSearch.SnippetLine | modules/ai/brain/brain.py:672 | each snippet line starts with "- " and ends with a newline |
| WebSearch.BuildSnippet | modules/ai/brain/brain.py:670-674 | the snippet loop gives `Snippet` |
| WebSearch.SnippetLinesEnd | modules/ai/brain/brain.py:671-672 | a non-empty snippet ends in a newline |
| WebSearch.SnippetDefault | modules/ai/brain/brain.py:670-674 | the snippet is "No results found." iff there are no results; otherwise it is the lines of the first two |
| WebSearch.SearchQuery | modules/ai/brain/brain.py:665 | the extracted sub-query holds no newline |
| WebSearch.SearchQueryOfFirstLine | modules/ai/brain/brain.py:665 | for "SEARCH:q\n…" with q stripped, the sub-query is exactly q |
| Actions.UrlHostOfParts | modules/ai/brain/brain.py:825 | for every URL made of an optional "https://", an optional "www.", a host without ':', '/' or "www." and nothing or a "/"-path, the host comes out unchanged and the title is the host's `str.title` |
| Actions.UrlTitleShape | modules/ai/brain/brain.py:825 | a URL title never contains '/' |
| Actions.ResolveLine | modules/ai/brain/brain.py:730-827 | a classified line yields an action iff it is not ignored |
| Actions.ParseActions | modules/ai/brain/brain.py:723-828 | the result loop gives `ParseText`: each line's action, in line order |
| Actions.ParseLinesStep | modules/ai/brain/brain.py:726-728 | one more line appends its action, if any |
| Actions.ClassifyByPrecedence | modules/ai/brain/brain.py:730-827 | the first of CALC:, SEARCH:, PERSON:, PLACE:, INSTALL: contained in the line decides; with none, only an OPEN line holding "OPEN:" counts |
| Actions.ResolveNoneIff | modules/ai/brain/brain.py:730-827 | resolution yields nothing iff the line was ignored |
| Actions.MarkerDirectiveNotIgnored | modules/ai/brain/brain.py:730-814 | a line with a marker always yields a directive |
| Actions.LineActionNoneIff | modules/ai/brain/brain.py:726-827 | a line yields no action iff it is blank after stripping, or has no marker and is not an OPEN line holding "OPEN:" |
| Actions.OpenPrefixedIff | modules/ai/brain/brain.py:817 | the OPEN test holds iff the upper-cased line starts with "OPEN:" |
| Actions.LowerCaseOpenDropped | modules/ai/brain/brain.py:817-821 | a line without upper-case "OPEN:" and without a marker yields nothing, even if it starts with "open:" |
| Actions.ParseLinesAppend | modules/ai/brain/brain.py:726 | parsing concatenated lines is concatenating their parses, so order follows the text |
| Actions.AtMostOnePerLine | modules/ai/brain/brain.py:726-728 | at most one action per non-blank line |
| Actions.BlankLineNone | modules/ai/brain/brain.py:727-728 | a blank line yields nothing |
| Actions.SearchAndShortNameFallback | modules/ai/brain/brain.py:741-783 | SEARCH without navigation result gives the duckduckgo redirect titled "Open " + title-case; a PERSON of fewer than two words gives the same redirect |
| Actions.PersonFallback | modules/ai/brain/brain.py:762-775 | a multi-word PERSON whose lookup fails gives the placeholder card with the google search URL and no image |
| Actions.PlaceFallback | modules/ai/brain/brain.py:786-798 | a found place gives its card; otherwise the maps link with the place text unencoded |
| Actions.InstallRecord | modules/ai/brain/brain.py:801-814 | INSTALL always gives a record naming the app, with the navigation URL or none, and content "Install " + app |
| Actions.ExampleComHost | modules/ai/brain/brain.py:825 | the host of "https://example.com/page" is "example.com" |
| Actions.ExampleComTitle | modules/ai/brain/brain.py:825 | "https://example.com/page" is titled "Example.Com" |
| Actions.TitleCasesEachLabel | modules/ai/brain/brain.py:825 | on any host of letters and dots, `str.title` upper-cases the first letter of each dot-separated label and lower-cases the others |
| Actions.TitleOfDomain | modules/ai/brain/brain.py:825 | a lower-case host "a.b" is titled with both labels capitalised |
| Actions.OpenLineOf | modules/ai/brain/brain.py:816-827 | a line "OPEN:" + target, target stripped and without capitals, gives the suggested link to the target titled by its host |
| Actions.OnlyOpenMarker | modules/ai/brain/brain.py:730-816 | no other marker occurs in such an OPEN line, so the OPEN branch decides it |
| Actions.CalcLineOf | modules/ai/brain/brain.py:730-733 | a line "CALC:" + e, e stripped and without a further "CALC:", hands exactly e to the calculator |
| Actions.CalcDirectiveValue | modules/ai/brain/brain.py:731-736 | the expression "12*14" evaluating to 168 gives the calc record "168" |
| Actions.OpenLineExample | modules/ai/brain/brain.py:816-827 | the line "OPEN:https://example.com/page" gives the link to that URL titled "Example.Com", described "Suggested Link" |
| Actions.CalcLineExample | modules/ai/brain/brain.py:730-738 | the line "CALC:12*14" evaluating to 168 gives the calc record "168" |
| ActionPipeline.ShortcutAction | modules/ai/brain/brain.py:549-556 | a shortcut answers with a link to its table URL described as "Direct Shortcut for" the upper-cased query |
| ActionPipeline.ShortcutIgnoresModel | modules/ai/brain/brain.py:543-560 | a shortcut query's response does not depend on the model or any lookup, and `actions == [action]` |
| ActionPipeline.YoutubeShortcut | modules/ai/brain/brain.py:36-37 | "yt" in any case opens https://www.youtube.com titled "Youtube.Com" |
| ActionPipeline.YoutubeTitle | modules/ai/brain/brain.py:554 | the shortcut URL for "yt" is titled "Youtube.Com" |
| ActionPipeline.YoutubeEntry | modules/ai/brain/brain.py:36-37 | the table maps "yt" to https://www.youtube.com |
| ActionPipeline.YoutubeLabelsTitle | modules/ai/brain/brain.py:554 | a "https://www." URL whose host is "youtube" + "." + "com" is titled "Youtube.Com", via the general host and title lemmas |
| ActionPipeline.YoutubeHost | modules/ai/brain/brain.py:554 | its host is "youtube.com", as the general URL lemma gives |
| ActionPipeline.RunStream | modules/ai/brain/brain.py:643-657 | a call that fails at once reports no text; a stream is consumed as `Consume` defines |
| ActionPipeline.HandleAction | modules/ai/brain/brain.py:535-837 | the endpoint's steps give `ActionResponse` |
| ActionPipeline.Infer | modules/ai/brain/brain.py:636-837 | inference, augmentation and parsing give `InferenceReply` |
| ActionPipeline.NotReadyStatus | modules/ai/brain/brain.py:563-565 | without the fast model a non-shortcut query gets the single status "Model Loading..." |
| ActionPipeline.EmptyQueryNoActions | modules/ai/brain/brain.py:540-544 | an unreadable body (400) or blank query (200) gives no actions |
| ActionPipeline.AbortInFirstPass | modules/ai/brain/brain.py:650-654 | a signal seen in the first stream gives the "Aborted" reply |
| ActionPipeline.NoSearchNoSecondPass | modules/ai/brain/brain.py:662 | without "SEARCH:" in the first answer the parsed first answer is the reply |
| ActionPipeline.RefusedSecondPassKeepsFirst | modules/ai/brain/brain.py:708-721 | a second call failing at once keeps the first answer |
| ActionPipeline.PrimaryIsFirst | modules/ai/brain/brain.py:829-830 | `action` is the first of `actions`, none iff the list is empty |
| Router.FileEntry | modules/ai/brain/brain.py:456 | each file row contributes a non-empty block |
| Router.GatherContext | modules/ai/brain/brain.py:445-465 | the tool step gives `ToolContext`; its text is empty iff no tool ran or the file search found no rows |
| Router.BuildFilesContext | modules/ai/brain/brain.py:454-456 | the row loop gives `FilesText`, empty iff there are no rows |
| Router.FilesTextEmpty | modules/ai/brain/brain.py:454-456 | the file context is empty iff there are no rows |
| Router.UnfencedWithoutFence | modules/ai/brain/brain.py:430-433 | text without a fence is left as it is |
| Router.UnfencedJson | modules/ai/brain/brain.py:430-431 | the stripped text between "```json" and the next fence is kept |
| Router.UnfencedPlain | modules/ai/brain/brain.py:432-433 | without "```json", the stripped text between the first two fences is kept |
| Router.DecisionDefaults | modules/ai/brain/brain.py:411-443 | the decision departs from ("knowledge", query) only if the fast model answered with a JSON object, and then its kind is the object's "type" |
| Router.LaunchOnlyWithoutContext | modules/ai/brain/brain.py:445-472 | the launch instruction is included iff the route is neither search nor calc and no file rows were found |
| Router.PromptDataNonEmpty | modules/ai/brain/brain.py:477 | the prompt's data is never empty; without context it is "No context." |
| Router.FilesNeedDatabase | modules/ai/brain/brain.py:449 | local files are never searched without the database and the embedding model |
| Router.AskAnswerShape | modules/ai/brain/brain.py:487-503 | with the main model loaded, the answer is 200 and is stripped text or "Error: …" |
| Installer.NormalizedNamePointwise | modules/ai/brain/brain.py:886 | the normalised name is the lower-cased name, spaces turned into '-', same length, no spaces |
| Installer.ChoiceNames | modules/ai/brain/brain.py:981 | each candidate's name is its text before the first ':' |
| Installer.BuildCandidates | modules/ai/brain/brain.py:937-942 | the hit loop gives `Candidates` |
| Installer.CandidateName | modules/ai/brain/brain.py:942 | a candidate's text before ':' is the package name's |
| Installer.CandidatesOfHits | modules/ai/brain/brain.py:937-942 | every candidate comes from a hit with a name, and every such hit gives one |
| Installer.AcceptedIff | modules/ai/brain/brain.py:981 | a choice is accepted iff non-empty, not "NONE" and the text before ':' of some named hit |
| Installer.NixPlanNeedsAcceptedChoice | modules/ai/brain/brain.py:952-988 | a nix plan needs the fast model and an accepted choice, and installs exactly that choice |
| Installer.ResultLines | modules/ai/brain/brain.py:999 | one context line per result |
| Installer.FirstIndex | modules/ai/brain/brain.py:1023 | the first occurrence of a character, none iff absent |
| Installer.LastIndex | modules/ai/brain/brain.py:1023 | the last occurrence of a character, none iff absent |
| Installer.ExtractObject | modules/ai/brain/brain.py:1023-1024 | the greedy match: none iff no '{' precedes a '}', else the slice from the first '{' to the last '}' |
| Installer.ExtractObjectGreedy | modules/ai/brain/brain.py:1023 | any '{' before a '}' is inside the extracted slice |
| Installer.ShellPlanNeedsAppImage | modules/ai/brain/brain.py:1015-1040 | a shell plan needs the main model, a URL and an AppImage file name or URL, and has three commands |
| Installer.PlanKinds | modules/ai/brain/brain.py:981-1048 | every plan is nix with one command, shell with three, or the failed plan with none |
| Installer.InstallStatus | modules/ai/brain/brain.py:845-849 | 400 iff the body or name is missing; 500 iff no nix plan and a result lacks title or url; otherwise 200 |
| Loader.InitialValid | modules/ai/brain/brain.py:16-30 | the start-up globals satisfy the loader invariant |
| Loader.LoadKeepsValid | modules/ai/brain/brain.py:45-152 | every load keeps the invariant: main handle at 4096, a non-1024 fast handle is the shared one, locks equal iff shared |
| Loader.DistinctKeepsValid | modules/ai/brain/brain.py:118-145 | the distinct branch keeps the invariant |
| Loader.LoadIdempotent | modules/ai/brain/brain.py:50 | with both handles set nothing changes; a second load with the same observations changes nothing |
| Loader.LoadKeepsHandles | modules/ai/brain/brain.py:45-152 | a loaded handle is never dropped |
| Loader.OnlyMainFailureSetsInitError | modules/ai/brain/brain.py:74-77 | `init_error` is never reset: it keeps its value or becomes a recorded error, the import error or a 4096-context load failure |
| Loader.SharedUnifies | modules/ai/brain/brain.py:98-112 | equal paths and a good load put one handle in both slots with the fast lock rebound to the main lock |
| Loader.MissingFastFileShares | modules/ai/brain/brain.py:84-85 | a missing fast file next to an existing main one leads to the shared model |
| Loader.DistinctFastNeedsFile | modules/ai/brain/brain.py:123-130 | with distinct paths a fast model appears only from an existing file at 1024 |
| Loader.DistinctMainTarget | modules/ai/brain/brain.py:134-144 | the main model comes from the main file if it exists, else the fast file; its failure is recorded |
| Loader.ImportFailureLoadsNothing | modules/ai/brain/brain.py:69-77 | a failed import records its message and loads nothing |
| Server.Brain.constructor | modules/ai/brain/brain.py:16-30 | the globals start with nothing loaded and the signal clear |
| Server.Brain.EnsureModelLoaded | modules/ai/brain/brain.py:45-152 | the in-place loader leaves the fields at `Load` of the old ones and keeps the invariant |
| Server.Brain.ResolvePaths | modules/ai/brain/brain.py:80-93 | the fallback and resolution give `Resolved`; a missing fast file next to the main one resolves both alike |
| Server.Brain.LoadOneModel | modules/ai/brain/brain.py:98-116 | the shared branch on the fields |
| Server.Brain.LoadTwoModels | modules/ai/brain/brain.py:119-144 | the distinct branch on the fields |
| Server.Brain.Action | modules/ai/brain/brain.py:535-538 | `/action` loads, then answers as `ActionResponse` with the fast model it finds, its streams seeing the signal as it stands; the signal is left alone |
| Server.Brain.AskAsWritten | modules/ai/brain/brain.py:380-503 | `/ask` as written loads and answers as `AskResponse`; the signal stays raised exactly when the main model is missing or the body unreadable |
| Server.Brain.Ask | modules/ai/brain/brain.py:380-503 | `/ask` corrected: loads, answers as `AskResponse` and leaves the signal clear on every path |
| Server.Brain.AskPrompt | modules/ai/brain/brain.py:394-485 | the routing and tool steps build the prompt from the decided route's context and the query |
| Server.Brain.InstallPlan | modules/ai/brain/brain.py:843-1048 | `/install_plan` loads only past validation, and its answer is `InstallResponse` for the loaded state |
| Server.AbortStuckAfterFailedAsk | modules/ai/brain/brain.py:383-392 | as written: the as-written `/ask` meeting no main model, then `/action` with a non-shortcut query whose stream yields a chunk, answers "Aborted", the signal still raised |
| Server.ActionAfterAsk | modules/ai/brain/brain.py:383-392 | corrected: after the corrected `/ask`, whatever its outcome, `/action` answers as `ActionResponse` and none of its streams aborts |
| Server.ClearedSignalNeverAborts | modules/ai/brain/brain.py:650-657 | with the signal clear, a stream is never aborted |

## Left out

- HTTP, Flask and JSON transport are not modelled. A request body is either unreadable or a map from keys to strings; non-string JSON values are not modelled. Statuses and bodies are values.
- Threads and locks are not modelled; the locks are reduced to identities. The model claims nothing about mutual exclusion. The Nixpkgs choice call at brain.py:969 runs under no lock.
- The abort signal is a boolean per checked chunk. Another request changing it mid-stream is an input, not an interleaving.
- Server.Brain.Action: requires every checked chunk of its streams to see the signal as the request finds it, so it does not capture another request raising or clearing the signal while the fast model streams.
- Server.Brain.InstallPlan: both loader runs see the same observations (`LoadEnv`). In the source the second run (line 1016) observes afresh and can retry a load that failed in the first; the model's second run changes nothing.
- Installer.Download: `json.loads` results keep string values only. A `"filename": null` makes the source's f-string test fail (line 1031, a TypeError caught at 1041), so the plan is the failed one; the model reads a missing or non-string file name as "app.AppImage".
- Router.Decide: a non-string `"query"` in the routing reply (line 439) is read as the original query. In the source the value itself reaches the tool: the calculator fails on it and its error text becomes the context (line 465), and the web search queries its text form.
- The `/search` endpoint (lines 505-533) and the start-up warm-up thread (lines 1051-1074) are not modelled.
- Prompt texts are named, not spelled out, and logging is not modelled. The model keeps only the launch-instruction condition and the context source and data.
- The network calls are inputs: SearXNG, the navigation, person and place lookups, and the Nixpkgs search. The same goes for each model call, the embeddings and vector search, `SimpleEval` and `json.loads`.
- Path strings, file existence, `abspath` and model loading are inputs fixed for one loader run.
- Loader: the re-check of both handles under the main lock (line 101) is not modelled, because sequentially it can never fire there.
- Loader: the `N_GPU_LAYERS` parse (line 95) is not modelled; it raises only on a malformed environment.
- Casing is ASCII only (`lower`, `upper`, `title`, whitespace for `strip` and `split`), because Unicode tables are outside the model.
- Router.BuildFilesContext: a vector-search failure part-way through the rows is modelled as no rows. The source keeps the blocks appended before the failure.

## Findings

| source | as written | input that shows it | evidently intended | confidence | as-written member | corrected member |
|---|---|---|---|---|---|---|
| modules/ai/brain/brain.py:383-392 | `/ask` sets the abort signal first and clears it only at line 490. The returns for a missing main model (389) and an unreadable body (392) leave it set. | one `/ask` while the main model fails to load; then any `/action` with a non-shortcut query whose stream yields a chunk | the signal is cleared on every way out of `/ask`, so later actions run | high (not executed) | Server.Brain.AskAsWritten, Server.AbortStuckAfterFailedAsk | Server.Brain.Ask, Server.ActionAfterAsk |
