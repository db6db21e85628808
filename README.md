# council_cycle in Dafny

council_cycle finds decisions about cycling and active-travel schemes in the published
papers of UK council committees. It contains two generations of crawler, and this project
models the core of both.

**The orchestrator** (package `orchestrator`, with `scraper` and `processor`) is the newer one.
It walks a council's web site in four phases, each driven by a language model:

1. find the pages of the requested committees;
2. find the meetings of each committee in a date range;
3. triage a meeting's agenda into per-item extracts;
4. analyse the extracts into schemes.

Some conventions apply throughout:

- Pages are converted from HTML to annotated Markdown before they are shown to the model.
  Every link in a page is replaced by a short token `@n` from a `UrlRegistry`.
- Each reply is a JSON object whose `"type"` property selects a variant of `LlmResponse`.
- The URLs in a reply are resolved back through the registry.
- The schemes that are found are written to a text file per committee.

**The earlier pipeline** (package `uk.co.councilcycle`) works differently:

- it crawls breadth-first from a council's meetings page;
- it asks an analyser for the decisions on each page;
- it follows the pages the analyser suggests, up to a depth limit;
- it posts the relevant decisions to Bluesky, with an emoji per category and a 300-character cap;
- a scheduler runs it once a day at a fixed time.

The model has four layers:

- **Data:** datatypes model the records and replies. JSON is an abstract value, so parsing is not modelled.
- **Pure code:** functions model expressions, recursion and calls. Each has lemmas that relate it to a partner: an inverse, a reference definition or a preserved invariant.
- **Stateful objects:** `UrlRegistry`, jsoup's `Document`, the Markdown `StringBuilder` and the Bluesky publisher are classes whose methods update their fields.
- **Loops:** the source's navigation and triage loops, its crawl loop and its report writer are methods with loop invariants, proved against specification functions.

Everything outside the process is a parameter of the model:

- a fetcher, `url -> Option<page>`;
- the language model, which gives the reply to the n-th call, or `None` where parsing the reply throws;
- the analyser;
- the HTML parser's text accessors;
- the clock.

## Model

| member | source | states |
|---|---|---|
| Registry.TokenInjective | src/main/kotlin/orchestrator/UrlRegistry.kt:10 | two counter values that give the same token "@n" are equal, so no token is handed out twice |
| Registry.TokenMapAt | src/main/kotlin/orchestrator/UrlRegistry.kt:8-12 | after URLs are registered in order, the token "@k" maps to the k-th of them |
| Registry.TokenMapKeys | src/main/kotlin/orchestrator/UrlRegistry.kt:8-12 | after n registrations, the tokens are exactly "@1" through "@n" |
| Registry.UrlMapAt | src/main/kotlin/orchestrator/UrlRegistry.kt:8-12 | the (k+1)-th distinct URL registered holds the token "@(k+1)" |
| Registry.UrlMapKeys | src/main/kotlin/orchestrator/UrlRegistry.kt:8-12 | the URLs with a token are exactly the URLs that were registered |
| Registry.UrlMapSize | src/main/kotlin/orchestrator/UrlRegistry.kt:4-12 | the URL-to-token map has one entry per distinct URL, i.e. nextId - 1 entries |
| Registry.MapsAreInverse | src/main/kotlin/orchestrator/UrlRegistry.kt:4-12 | urlToToken and tokenToUrl are mutual inverses, checked in both directions |
| Registry.RegisterFresh | src/main/kotlin/orchestrator/UrlRegistry.kt:8-12 | registering a URL not seen before adds one entry to each map under a token that was not yet in use, and the URLs stay distinct |
| Registry.ResolveRoundTrip | src/main/kotlin/orchestrator/UrlRegistry.kt:8-14 | resolving the token of the k-th registered URL gives that URL back |
| Registry.ResolvePassThrough | src/main/kotlin/orchestrator/UrlRegistry.kt:14 | a string that is not one of the tokens handed out (an absolute URL, an unknown token, plain text) resolves to itself |
| Registry.ResolveNonToken | src/main/kotlin/orchestrator/UrlRegistry.kt:14 | a string that does not start with '@' is never rewritten |
| Registry.UrlRegistry.constructor | src/main/kotlin/orchestrator/UrlRegistry.kt:3-6 | a new registry has both maps empty, nextId = 1, and satisfies the invariant |
| Registry.UrlRegistry.Register | src/main/kotlin/orchestrator/UrlRegistry.kt:8-12 | a known URL keeps its token and nothing changes. A new URL gets "@nextId" and the counter advances. Both cases keep every earlier pair, keep the invariant, and resolve the returned token to the URL |
| Registry.ValidRegistry | src/main/kotlin/orchestrator/UrlRegistry.kt:4-12 | the class invariant, read off the fields: the maps are mutual inverses with nextId - 1 entries, and the tokens are exactly "@1" .. "@(nextId-1)" |
| Text.RemovePrefix | src/main/kotlin/orchestrator/phase/Phase.kt:30 | `removePrefix` drops the prefix exactly when the text starts with it, and otherwise leaves the text unchanged |
| Text.RemoveSuffix | src/main/kotlin/orchestrator/phase/Phase.kt:31 | `removeSuffix` drops the suffix exactly when the text ends with it, and otherwise leaves the text unchanged |
| Text.Trim | src/main/kotlin/orchestrator/phase/Phase.kt:32 | `trim()` keeps the infix between a blank prefix and a blank suffix, with no whitespace at either end. The result is empty exactly when the text is blank |
| Text.TrimIdempotent | src/main/kotlin/orchestrator/phase/Phase.kt:32 | trimming twice is trimming once |
| Text.Lines | src/main/kotlin/scraper/AnnotatedMarkdownConverter.kt:142 | `lines()` gives at least one line, and no line holds a line break |
| Prompts.CommitteeLines | src/main/kotlin/orchestrator/Prompts.kt:50 | one "- name" line per committee, in order |
| Prompts.Phase1Prompt | src/main/kotlin/orchestrator/Prompts.kt:17-53 | uses the phase 1 instructions; the user text opens with "Committees:\n" and ends with a blank line followed by the page |
| Prompts.Phase1Lines | src/main/kotlin/orchestrator/Prompts.kt:50-51 | split at newlines, the phase 1 user text gives back the heading, the committee lines in order, a blank line, and then the page's own lines |
| Prompts.Phase2Prompt | src/main/kotlin/orchestrator/Prompts.kt:55-98 | uses the phase 2 instructions; the user text ends with a blank line followed by the page |
| Prompts.Phase2Lines | src/main/kotlin/orchestrator/Prompts.kt:96 | split at newlines, the phase 2 user text gives back the committee line, the date-range line, a blank line, and then the page's lines |
| Prompts.ItemBlocks | src/main/kotlin/orchestrator/Prompts.kt:177 | one "## title\nextract" block per item, in order |
| Prompts.BuildPhase3Prompt | src/main/kotlin/orchestrator/Prompts.kt:100-184 | the loop that collects the optional parts produces the specified user text; the phase 3 instructions interpolate the topic lists |
| Prompts.Phase3PartsShape | src/main/kotlin/orchestrator/Prompts.kt:170-183 | the reason part is present iff a reason is given, and comes first. The items part is present iff there are items, and comes just before the page. The page is always last, and there are no other parts |
| Prompts.PartsDiffer | src/main/kotlin/orchestrator/Prompts.kt:173-178 | the reason part can never be mistaken for the items part |
| Prompts.Phase3BarePage | src/main/kotlin/orchestrator/Prompts.kt:170-183 | with no reason and no items, the phase 3 user text is exactly the page |
| Prompts.SystemTextIndependentOfPage | src/main/kotlin/orchestrator/Prompts.kt:21-48 | the system text of phases 1, 2 and 4 does not depend on the page |
| Prompts.Phase4Prompt | src/main/kotlin/orchestrator/Prompts.kt:186-217 | the user text is the extract unchanged; the phase 4 instructions interpolate both topic lists joined by ", " |
| Responses.FetchRoundTrip | src/main/kotlin/orchestrator/LlmResponse.kt:9-14 | a `fetch` reply, encoded as JSON and decoded, is the same reply |
| Responses.CommitteesRoundTrip | src/main/kotlin/orchestrator/LlmResponse.kt:16-20 | a `committee_pages_found` reply survives encoding and decoding |
| Responses.MeetingRoundTrip | src/main/kotlin/orchestrator/LlmResponse.kt:57-62 | a meeting survives encoding and decoding, with its URL present or null |
| Responses.MeetingsRoundTrip | src/main/kotlin/orchestrator/LlmResponse.kt:22-26 | a `meetings_found` reply survives encoding and decoding |
| Responses.AgendaFetchRoundTrip | src/main/kotlin/orchestrator/LlmResponse.kt:28-34 | an `agenda_item_fetch` reply survives encoding and decoding |
| Responses.TriagedRoundTrip | src/main/kotlin/orchestrator/LlmResponse.kt:36-42 | an `agenda_triaged` reply survives encoding and decoding, with its summary present or null |
| Responses.AnalyzedRoundTrip | src/main/kotlin/orchestrator/LlmResponse.kt:44-48 | an `agenda_analyzed` reply survives encoding and decoding, every scheme property included |
| Responses.DecodeEncode | src/main/kotlin/orchestrator/LlmResponse.kt:6-78 | every reply of every variant decodes back from its encoding |
| Responses.DecodedTag | src/main/kotlin/orchestrator/LlmResponse.kt:6-49 | a JSON value that decodes is an object whose "type" is the serial name of the variant it decoded to |
| Responses.TriagedDefaults | src/main/kotlin/orchestrator/LlmResponse.kt:36-42 | a triage verdict given with only "type" and "relevant" decodes, with no items and a null summary |
| Responses.NullItemsRejected | src/main/kotlin/orchestrator/LlmResponse.kt:28-34 | an explicit null for a property that is not nullable is refused, even where the property has a default |
| Responses.DecodeReadsTopKeys | src/main/kotlin/orchestrator/LlmResponse.kt:6-49 | two objects that agree on the discriminator and on every top-level property a variant reads decode alike |
| Responses.UnknownKeyIgnored | src/main/kotlin/orchestrator/LlmResponse.kt:6-49 | adding a key that no variant reads does not change the outcome of decoding |
| Responses.ResolveUrls | src/main/kotlin/orchestrator/LlmResponse.kt:80-91 | `resolveUrls` keeps the variant. Every URL-valued property goes through the resolver; an absent meeting URL stays absent. Every other property is unchanged, and triage and analysis replies are returned as they are |
| Responses.ResolveIdentity | src/main/kotlin/orchestrator/LlmResponse.kt:80-91 | resolving with a resolver that changes nothing leaves the reply unchanged |
| Responses.ResolveTwice | src/main/kotlin/orchestrator/LlmResponse.kt:80-91 | with an idempotent resolver, resolving twice is the same as resolving once |
| Phase.ParseResponse | src/main/kotlin/orchestrator/phase/Phase.kt:28-40 | a reply parses iff the cleaned text reads as JSON and decodes as a reply, and the result is then that decoding. Every failure gives null |
| Phase.CleanupFencedJson | src/main/kotlin/orchestrator/phase/Phase.kt:29-32 | a reply fenced as a ```json code block comes out as its trimmed body |
| Phase.CleanupPlain | src/main/kotlin/orchestrator/phase/Phase.kt:29-32 | text with no fences and no surrounding whitespace is left unchanged |
| Phase.NavigationLoop | src/main/kotlin/orchestrator/phase/Phase.kt:42-86 | the loop's result and its trace of visits are those of the specification `Nav`: the queue is seeded with the start URL, and `maxIterations` iterations are allowed (none when it is not positive) |
| Phase.NavVisit | src/main/kotlin/orchestrator/phase/Phase.kt:52-82 | one iteration either ends the run with its visit, or leaves the queue and call count from which the rest of the specified run goes on; it calls the generator iff the fetch succeeded |
| Phase.NavAnswer | src/main/kotlin/orchestrator/phase/Phase.kt:61-82 | once the page is fetched, exactly one generator call is made, and the reply either ends the run or leaves the queue from which the specified run goes on |
| Phase.NavFetchFailed | src/main/kotlin/orchestrator/phase/Phase.kt:56-60 | a failed fetch records a visit with no prompt, then goes on with the rest of the queue, one iteration spent |
| Phase.NavFetched | src/main/kotlin/orchestrator/phase/Phase.kt:56-62 | a successful fetch goes on to prompt the generator about the page |
| Phase.AnswerFollows | src/main/kotlin/orchestrator/phase/Phase.kt:66-76 | a plain fetch request that is not a result appends its resolved URLs to the back of the queue and continues, one generator call later |
| Phase.NavStep | src/main/kotlin/orchestrator/phase/Phase.kt:52-82 | each iteration visits the head of the queue and prompts iff its fetch succeeded. It either stops there, having appended nothing, or continues from the rest of the queue followed by what it appended |
| Phase.NavPrompts | src/main/kotlin/orchestrator/phase/Phase.kt:62-64 | every prompt sent is the phase's prompt for the text of the page just fetched |
| Phase.NavBounds | src/main/kotlin/orchestrator/phase/Phase.kt:52-64 | there is at most one fetch per iteration and at most one generator call per fetch |
| Phase.NavFifo | src/main/kotlin/orchestrator/phase/Phase.kt:50-53 | URLs are fetched in the order they entered the queue: the start URL first, then each appended batch in turn |
| Phase.NavAllFetchesFail | src/main/kotlin/orchestrator/phase/Phase.kt:53-60 | when every fetch fails, nothing is returned and the generator is never called; the run visits min(queue, budget) URLs |
| Phase.NavEndlessFetch | src/main/kotlin/orchestrator/phase/Phase.kt:52-85 | a generator that always asks for more pages never gives a result: the whole budget is spent, with one call per iteration |
| Phase.NavResult | src/main/kotlin/orchestrator/phase/Phase.kt:66-70 | a returned result is what `extractResult` made of the run's last reply, resolved against the registry of the page that reply answered; nothing was appended after it |
| Phase.EnqueuedAreResolved | src/main/kotlin/orchestrator/phase/Phase.kt:66-75 | the URLs a fetch request appends are its URLs, each resolved through the page's registry, in order |
| ItemMap.Titles | src/main/kotlin/orchestrator/phase/TriageAgendaPhase.kt:30 | one title per accumulated item, in the map's key order |
| ItemMap.Lookup | src/main/kotlin/orchestrator/phase/TriageAgendaPhase.kt:30 | a title has an entry iff it is one of the keys, and that entry carries the title |
| ItemMap.Put | src/main/kotlin/orchestrator/phase/TriageAgendaPhase.kt:58 | `put` either keeps the map's size (an existing key) or appends the item (a new key) |
| ItemMap.AssociateByTitle | src/main/kotlin/orchestrator/phase/TriageAgendaPhase.kt:58 | the `associateByTo` loop yields the specified merge of the items into the map |
| ItemMap.PutLookup | src/main/kotlin/orchestrator/phase/TriageAgendaPhase.kt:58 | after `put`, the item's title maps to the item and every other title is unchanged |
| ItemMap.PutPositions | src/main/kotlin/orchestrator/phase/TriageAgendaPhase.kt:58 | an existing title keeps its position in the key order; a new title goes at the end |
| ItemMap.PutUnique | src/main/kotlin/orchestrator/phase/TriageAgendaPhase.kt:30 | `put` keeps at most one entry per title |
| ItemMap.MergeLookup | src/main/kotlin/orchestrator/phase/TriageAgendaPhase.kt:58 | last write wins: after merging, a title maps to the last item given for it, or to its old entry when no item has it |
| ItemMap.MergeKeepsOrder | src/main/kotlin/orchestrator/phase/TriageAgendaPhase.kt:58 | the titles already present keep their order, as a prefix of the titles after the merge |
| ItemMap.MergeUnique | src/main/kotlin/orchestrator/phase/TriageAgendaPhase.kt:58 | merging keeps at most one entry per title |
| ItemMap.LastWithTitleFound | src/main/kotlin/orchestrator/phase/TriageAgendaPhase.kt:58 | the last item with a title exists iff some item has that title, and it is one of the items |
| ItemMap.MergeTitles | src/main/kotlin/orchestrator/phase/TriageAgendaPhase.kt:58 | the titles after a merge are exactly those before it plus those of the items |
| Triage.TriageLoop | src/main/kotlin/orchestrator/phase/TriageAgendaPhase.kt:28-93 | the triage loop's outcome and trace of visits are those of the specification `Tri`, started from the agenda URL with an empty accumulator and no reason |
| Triage.VisitStep | src/main/kotlin/orchestrator/phase/TriageAgendaPhase.kt:34-81 | one iteration of the loop either ends the run with its visit, or leaves the queue, accumulator and reason from which the rest of the specified run goes on |
| Triage.AnswerStep | src/main/kotlin/orchestrator/phase/TriageAgendaPhase.kt:43-81 | once the page is fetched, one prompt and one reply either end the run or leave the state from which the specified run goes on |
| Triage.TriFetchFailed | src/main/kotlin/orchestrator/phase/TriageAgendaPhase.kt:37-41 | a failed fetch records an unprompted visit and moves on, one iteration spent |
| Triage.TriFetched | src/main/kotlin/orchestrator/phase/TriageAgendaPhase.kt:37-54 | a successful fetch goes on to prompt with the page, the carried reason and the accumulated items |
| Triage.TriVerdictGoesOn | src/main/kotlin/orchestrator/phase/TriageAgendaPhase.kt:57-66 | a verdict while URLs are still queued merges its items and continues, keeping the reason |
| Triage.TriMoreDocuments | src/main/kotlin/orchestrator/phase/TriageAgendaPhase.kt:67-75 | a document request merges its items, becomes the reason carried forward, and queues its URLs |
| Triage.TriStep | src/main/kotlin/orchestrator/phase/TriageAgendaPhase.kt:33-81 | each iteration visits the queue's head and prompts iff its fetch succeeded. It either ends the run, with a verdict and the merged items, or continues. The accumulator only grows and stays a map |
| Triage.MergeGrows | src/main/kotlin/orchestrator/phase/TriageAgendaPhase.kt:58 | merging only adds titles and keeps one entry per title |
| Triage.TriBounds | src/main/kotlin/orchestrator/phase/TriageAgendaPhase.kt:33-54 | there is at most one generator call per iteration, and none for a failed fetch |
| Triage.TriItems | src/main/kotlin/orchestrator/phase/TriageAgendaPhase.kt:58-88 | any returned outcome carries the final accumulator, which holds every title seen before, in first-seen order, once each. An exhausted run returns a non-empty accumulator |
| Triage.TriAnsweredIsVerdict | src/main/kotlin/orchestrator/phase/TriageAgendaPhase.kt:56-61 | the run answers only with a reply it read as a verdict |
| Triage.TriExhausted | src/main/kotlin/orchestrator/phase/TriageAgendaPhase.kt:83-92 | a run that has used up its URLs or its budget returns the accumulated items as a relevant verdict, or null when nothing was accumulated |
| Triage.TriVerdictReturns | src/main/kotlin/orchestrator/phase/TriageAgendaPhase.kt:57-61 | a verdict for the last queued URL returns it, with its items replaced by the merged accumulator |
| Triage.TriRejects | src/main/kotlin/orchestrator/phase/TriageAgendaPhase.kt:53-54 | an unparsable reply ends the run with null after one visit, whatever was accumulated |
| Triage.TriFirstVisit | src/main/kotlin/orchestrator/phase/TriageAgendaPhase.kt:34-49 | a run whose first queued page is fetched starts by visiting it with the prompt built from that page, the current reason and the current items |
| Triage.TriReasonCarried | src/main/kotlin/orchestrator/phase/TriageAgendaPhase.kt:43-49 | a document request's reason and merged items shape the prompt for the next page fetched |
| PhaseResponses.MeetingRoundTrip | src/main/kotlin/orchestrator/PhaseResponse.kt:35-40 | a meeting of the older reply type, whose link is `agendaUrl`, survives encoding and decoding |
| PhaseResponses.MeetingsRoundTrip | src/main/kotlin/orchestrator/PhaseResponse.kt:22-26 | a `meetings_found` reply survives encoding and decoding |
| PhaseResponses.AnalyzedRoundTrip | src/main/kotlin/orchestrator/PhaseResponse.kt:28-32 | an `agenda_analyzed` reply with all five scheme properties survives encoding and decoding |
| PhaseResponses.CommitteesRoundTrip | src/main/kotlin/orchestrator/Orchestrator.kt:79-90 | the `committee_pages_found` variant, which the orchestrator uses but the file does not declare, survives encoding and decoding |
| PhaseResponses.AgendaFetchRoundTrip | src/main/kotlin/orchestrator/Orchestrator.kt:138-142 | the undeclared `agenda_item_fetch` variant survives encoding and decoding |
| PhaseResponses.TriagedRoundTrip | src/main/kotlin/orchestrator/Orchestrator.kt:134-137 | the undeclared `agenda_triaged` variant survives encoding and decoding |
| PhaseResponses.DecodeEncode | src/main/kotlin/orchestrator/PhaseResponse.kt:6-49 | every reply of the older type survives encoding and decoding |
| PhaseResponses.DecodedTag | src/main/kotlin/orchestrator/PhaseResponse.kt:6-33 | a JSON value that decodes is an object whose "type" names the variant it decoded to |
| PhaseResponses.InstructedAnalysisRefused | src/main/kotlin/orchestrator/PhaseResponse.kt:42-49 | as declared, a scheme with only the title, topic and summary that the phase 4 text asks for is refused, because its meeting date and committee are required |
| PhaseResponses.InstructedAnalysisAccepted | src/main/kotlin/orchestrator/PhaseResponse.kt:42-49 | with defaults for those two properties, such a reply decodes to the scheme with empty meeting date and committee |
| PhaseResponses.ResolveUrls | src/main/kotlin/orchestrator/Orchestrator.kt:204 | resolving keeps the variant and sends every URL-valued property through the resolver, keeping an absent meeting link absent. Everything else is untouched |
| InstructionChecks.TagIsReplyTag | src/main/kotlin/orchestrator/LlmResponse.kt:9-48 | every reply has one of the six serial names |
| InstructionChecks.UnknownTypeRejected | src/main/kotlin/orchestrator/LlmResponse.kt:6-49 | an object whose "type" is not a known serial name never decodes, whatever its other properties |
| InstructionChecks.Phase3InstructedFetchRejected | src/main/kotlin/orchestrator/Prompts.kt:140-150 | the phase 3 system text asks for "agenda_fetch", which is not a serial name, so a reply that follows it is refused |
| InstructionChecks.CorrectedReplyTypesDecodable | src/main/kotlin/orchestrator/Prompts.kt:140-150 | with "agenda_item_fetch", every reply type a system text describes is a known variant, and a reply of that type survives encoding and decoding |
| InstructionChecks.InstructedMeetingLosesUrl | src/main/kotlin/orchestrator/Prompts.kt:82-92 | a meeting written with the "agendaUrl" key that the phase 2 text names decodes without its URL |
| InstructionChecks.CorrectedMeetingKeepsUrl | src/main/kotlin/orchestrator/LlmResponse.kt:58-62 | written with "meetingUrl", the key `Meeting` reads, the meeting keeps its URL |
| FindCommitteePages.AssociateLookup | src/main/kotlin/orchestrator/phase/FindCommitteePagesPhase.kt:33 | `associate` maps a name iff some committee has that name, and then to the URL of the last committee with that name |
| FindCommitteePages.ExtractCommittees | src/main/kotlin/orchestrator/phase/FindCommitteePagesPhase.kt:30-34 | a reply gives a result iff it is `committee_pages_found` |
| FindCommitteePages.Execute | src/main/kotlin/orchestrator/phase/FindCommitteePagesPhase.kt:23-36 | phase 1 is the navigation loop from the start URL, with the phase 1 prompt and the committee extraction |
| FindCommitteePages.ExtractResolved | src/main/kotlin/orchestrator/phase/FindCommitteePagesPhase.kt:30-34 | the extracted map's names are those of the reply, and each maps to the last URL given for it, resolved through the page's registry |
| FindCommitteePages.CommitteesResult | src/main/kotlin/orchestrator/phase/FindCommitteePagesPhase.kt:23-36 | a returned map is built from the run's last reply, resolved against the page it answered |
| FindCommitteePages.ResolvedLastUrl | src/main/kotlin/orchestrator/phase/FindCommitteePagesPhase.kt:33 | resolving every URL and then taking a name's last URL is the same as resolving the name's last URL |
| FindCommitteePages.CommitteePrompts | src/main/kotlin/orchestrator/phase/FindCommitteePagesPhase.kt:29 | every prompt is the phase 1 prompt for the committee names and the fetched page |
| FindCommitteePages.EmptyListIsResult | src/main/kotlin/orchestrator/phase/FindCommitteePagesPhase.kt:30-34 | an empty committee list is a result (an empty map), not a failure, and ends the run after one visit |
| FindCommitteePages.OtherReplyStops | src/main/kotlin/orchestrator/phase/FindCommitteePagesPhase.kt:30-34 | a reply of any other variant than `committee_pages_found` or `fetch` ends the phase with null |
| FindCommitteePages.TokenResolvedScenario | src/main/kotlin/orchestrator/phase/FindCommitteePagesPhase.kt:23-36 | a committee link given as the token "@1" comes back as the registered absolute URL |
| FindMeetings.ExtractMeetings | src/main/kotlin/orchestrator/phase/FindMeetingsPhase.kt:34 | a reply gives a result iff it is `meetings_found`, and that result is its meetings |
| FindMeetings.Execute | src/main/kotlin/orchestrator/phase/FindMeetingsPhase.kt:25-36 | phase 2 is the navigation loop from the committee URL, with the phase 2 prompt and the meetings extraction |
| FindMeetings.ExtractResolvedMeetings | src/main/kotlin/orchestrator/phase/FindMeetingsPhase.kt:34 | the extracted meetings are the reply's, in order, with each present link resolved through the registry |
| FindMeetings.MeetingsResult | src/main/kotlin/orchestrator/phase/FindMeetingsPhase.kt:25-36 | a returned list is the meetings of the run's last reply, resolved against the page it answered |
| FindMeetings.MeetingPrompts | src/main/kotlin/orchestrator/phase/FindMeetingsPhase.kt:31-33 | every prompt is the phase 2 prompt for the committee, the date range and the fetched page |
| FindMeetings.EmptyMeetingsIsResult | src/main/kotlin/orchestrator/phase/FindMeetingsPhase.kt:34 | an empty meeting list is a result, ending the run after one visit |
| FindMeetings.MeetingUrlsScenario | src/main/kotlin/orchestrator/phase/FindMeetingsPhase.kt:25-36 | a meeting link given as a token is resolved, and a meeting without a link keeps none |
| AnalyzeExtract.StampAll | src/main/kotlin/orchestrator/AnalyzeExtractPhase.kt:28-34 | one stamped scheme per scheme, in order |
| AnalyzeExtract.Execute | src/main/kotlin/orchestrator/AnalyzeExtractPhase.kt:23-35 | phase 4 gives schemes iff the reply parses as `agenda_analyzed`. Each scheme keeps its title, topic and summary, and gets the meeting's date, the committee's name and the meeting's URL (or "") |
| AnalyzeExtract.CallPrompt | src/main/kotlin/orchestrator/AnalyzeExtractPhase.kt:25 | the prompt's user text is the extract |
| AnalyzeExtract.OneCall | src/main/kotlin/orchestrator/AnalyzeExtractPhase.kt:26 | the result depends only on the one generator reply the phase asks for |
| AnalyzeExtract.StampOverrides | src/main/kotlin/orchestrator/AnalyzeExtractPhase.kt:29-33 | whatever the reply gave for the meeting date, the committee or the agenda URL is overridden |
| AnalyzeExtract.StampIdempotent | src/main/kotlin/orchestrator/AnalyzeExtractPhase.kt:29-33 | stamping twice is stamping once |
| AnalyzeExtract.NoUrlEmptyAgenda | src/main/kotlin/orchestrator/AnalyzeExtractPhase.kt:32 | a meeting without a URL gives every scheme an empty agenda URL |
| TriageAgenda.ReadReply | src/main/kotlin/orchestrator/phase/TriageAgendaPhase.kt:56-80 | `agenda_triaged` is read as a verdict with its items, `agenda_item_fetch` as a document request with its URLs, reason and items; every other variant, a plain fetch included, is unexpected |
| TriageAgenda.Finish | src/main/kotlin/orchestrator/phase/TriageAgendaPhase.kt:60-92 | the phase returns a triage verdict exactly when the loop answered with one or ran out with items. An answer keeps its relevance and summary, with the accumulated items. Running out gives a relevant verdict of the accumulated items |
| TriageAgenda.Execute | src/main/kotlin/orchestrator/phase/TriageAgendaPhase.kt:28-93 | phase 3 is the triage loop, draining the queue before a verdict is returned |
| TriageAgenda.TriageResult | src/main/kotlin/orchestrator/phase/TriageAgendaPhase.kt:28-93 | the result's items have one entry per title. A run that ran out is relevant and non-empty. There is at most one generator call per iteration |
| TriageAgenda.ReasonReachesNextPrompt | src/main/kotlin/orchestrator/phase/TriageAgendaPhase.kt:43-70 | after a document request, the next page's prompt carries the request's reason and its items |
| TriageAgenda.PlainFetchRejected | src/main/kotlin/orchestrator/phase/TriageAgendaPhase.kt:76-79 | a plain `fetch` reply is unexpected and the phase returns null |
| TriageAgenda.IndexOf | src/main/kotlin/orchestrator/phase/TriageAgendaPhase.kt:34 | the index found holds the URL |
| TriageAgenda.NewerExtractWins | src/main/kotlin/orchestrator/phase/TriageAgendaPhase.kt:58-68 | a later extract of the same item replaces the earlier one, and the item is still counted once |
| TriageAgenda.AccumulatedOnExhaustion | src/main/kotlin/orchestrator/phase/TriageAgendaPhase.kt:83-89 | a generator that keeps requesting documents runs out of iterations, and the accumulated item comes back as a relevant verdict |
| TriageAgenda.EarlyVerdictRun | src/main/kotlin/orchestrator/phase/TriageAgendaPhase.kt:57-70 | a verdict on the first of two requested reports does not end the run: both reports are triaged, with the reason carried |
| TriageAgenda.ThreeTitlesMerge | src/main/kotlin/orchestrator/phase/TriageAgendaPhase.kt:58 | items with distinct titles are accumulated in the order given |
| TriageAgenda.EarlyVerdictContinues | src/main/kotlin/orchestrator/phase/TriageAgendaPhase.kt:57-66 | three replies give three calls, and the items of all three come back in first-seen order |
| TriageAgenda.PlainFetchScenario | src/main/kotlin/orchestrator/phase/TriageAgendaPhase.kt:76-79 | a plain fetch in answer to the agenda gives null |
| Orchestrator.ParseResponse | src/main/kotlin/orchestrator/Orchestrator.kt:225-237 | a reply parses iff the cleaned text reads as JSON and decodes as the older reply type, and the result is then that decoding. A scheme is decoded with "" defaults for `meetingDate` and `committeeName`, as `LlmResponse.kt`'s `Scheme` declares them |
| Orchestrator.FencedReplyParses | src/main/kotlin/orchestrator/Orchestrator.kt:226-229 | a reply fenced as a ```json code block is parsed from its trimmed body |
| Orchestrator.ExtractCommittees | src/main/kotlin/orchestrator/Orchestrator.kt:84-88 | a reply yields a committee map iff it is `committee_pages_found` |
| Orchestrator.ExtractMeetings | src/main/kotlin/orchestrator/Orchestrator.kt:105 | a reply yields meetings iff it is `meetings_found`, and they are its meetings |
| Orchestrator.ReadReply | src/main/kotlin/orchestrator/Orchestrator.kt:133-151 | `agenda_triaged` is a verdict with its items; `agenda_item_fetch` is a document request; anything else is unexpected |
| Orchestrator.FinishTriage | src/main/kotlin/orchestrator/Orchestrator.kt:136-163 | a verdict is returned with the accumulated items, and a run that ran out returns them as a relevant verdict. Otherwise the result is null |
| Orchestrator.AnalysisPrompt | src/main/kotlin/orchestrator/Orchestrator.kt:172 | the phase 4 prompt's user text is the extract |
| Orchestrator.AnalyzeExtract | src/main/kotlin/orchestrator/Orchestrator.kt:166-178 | schemes come back iff the reply is `agenda_analyzed`. Each keeps its title, topic and summary and gets this meeting's date and this committee. The agenda URL is not stamped here |
| Orchestrator.TriageAgenda | src/main/kotlin/orchestrator/Orchestrator.kt:109-164 | the early-return triage loop's result and its number of generator calls are those of the specification run |
| Orchestrator.ProcessMeeting | src/main/kotlin/orchestrator/Orchestrator.kt:55-67 | one meeting's schemes and calls are those of the specification step |
| Orchestrator.ProcessMeetings | src/main/kotlin/orchestrator/Orchestrator.kt:53-68 | the meeting loop concatenates every meeting's schemes, in order |
| Orchestrator.MeetingsCons | src/main/kotlin/orchestrator/Orchestrator.kt:54 | the meeting loop's result splits at any meeting into that meeting's schemes followed by the rest |
| Orchestrator.ProcessCommittee | src/main/kotlin/orchestrator/Orchestrator.kt:36-71 | one committee's sink call and generator calls are those of the specification step |
| Orchestrator.ProcessCouncil | src/main/kotlin/orchestrator/Orchestrator.kt:25-72 | the council's sink calls, and its calls on the generator, are those of the specification |
| Orchestrator.ProcessCommittees | src/main/kotlin/orchestrator/Orchestrator.kt:36-71 | the committee loop's sink calls and generator calls are those of the specification, committee by committee in configuration order |
| Orchestrator.CommitteesCons | src/main/kotlin/orchestrator/Orchestrator.kt:36 | the committee loop's output splits at any committee into that committee's sink call followed by the rest |
| Orchestrator.TriageStopsAtFirstVerdict | src/main/kotlin/orchestrator/Orchestrator.kt:134-136 | unlike phase 3, this triage returns the first verdict at once, with the items merged, after one visit |
| Orchestrator.TriageResult | src/main/kotlin/orchestrator/Orchestrator.kt:109-164 | a triage result is a verdict keyed by title; an exhausted run is relevant and non-empty; calls never exceed the phase 3 budget |
| Orchestrator.MeetingStepFacts | src/main/kotlin/orchestrator/Orchestrator.kt:55-67 | a meeting contributes schemes only when it has an agenda URL and its triage is relevant and non-empty. They are then the analysis of the joined extracts, one call after the triage, stamped with the committee and the meeting date |
| Orchestrator.MeetingsSchemesOwners | src/main/kotlin/orchestrator/Orchestrator.kt:53-68 | every collected scheme carries the committee and the date of one of its meetings |
| Orchestrator.MeetingStepCalls | src/main/kotlin/orchestrator/Orchestrator.kt:55-67 | one meeting makes at most one triage run and one analysis call |
| Orchestrator.MeetingsSchemesCalls | src/main/kotlin/orchestrator/Orchestrator.kt:53-68 | the meeting loop makes at most the number of meetings times (phase 3 budget + 1) generator calls |
| Orchestrator.CommitteeStepSinks | src/main/kotlin/orchestrator/Orchestrator.kt:38-71 | a committee makes at most one sink call, for the council and that committee, which the lookup found, carrying only that committee's schemes |
| Orchestrator.CommitteeStepFacts | src/main/kotlin/orchestrator/Orchestrator.kt:38-71 | a committee reaches the result processor iff it was found and has a non-empty meeting list, and its schemes are those the meeting loop collects |
| Orchestrator.CommitteesSinksFacts | src/main/kotlin/orchestrator/Orchestrator.kt:36-71 | at most one sink call per committee. Each call is for a configured and found committee of this council, and every scheme in it names that committee |
| Orchestrator.CouncilSinksFacts | src/main/kotlin/orchestrator/Orchestrator.kt:30-34 | when phase 1 finds nothing, no sink call is made. Otherwise every sink call is for a configured committee that phase 1 found |
| ContentExtractor.SkipSpaces | src/main/kotlin/scraper/ContentExtractor.kt:17-18 | the `\\s*` of the style patterns: the position after a run of whitespace, which is either the end of the text or a character that is not whitespace |
| ContentExtractor.PruneNode | src/main/kotlin/scraper/ContentExtractor.kt:15-19 | removing matches inside an element keeps the element's tag and attributes |
| ContentExtractor.Document.constructor | src/main/kotlin/scraper/ContentExtractor.kt:9 | the parsed document holds the parsed nodes |
| ContentExtractor.Document.RemoveMatching | src/main/kotlin/scraper/ContentExtractor.kt:15-19 | one `select(...).remove()` removes every element the rule matches, with its subtree, and keeps everything else in place |
| ContentExtractor.RemoveInvisibleElements | src/main/kotlin/scraper/ContentExtractor.kt:14-20 | the five removals in turn leave the document pruned of every element matched by any of the five rules |
| ContentExtractor.Extract | src/main/kotlin/scraper/ContentExtractor.kt:8-12 | `extract` returns a new document: the parsed nodes with every invisible element removed |
| ContentExtractor.MatchedByUnion | src/main/kotlin/scraper/ContentExtractor.kt:15-19 | an element matches a union of rules iff it matches one of them |
| ContentExtractor.PruneCompose | src/main/kotlin/scraper/ContentExtractor.kt:15-19 | removing by one rule and then another is removing by both at once, so the five removals compose into one |
| ContentExtractor.SurvivorsAppend | src/main/kotlin/scraper/ContentExtractor.kt:15 | the survivors of two runs of elements in document order are the survivors of each, concatenated |
| ContentExtractor.NoneSurvive | src/main/kotlin/scraper/ContentExtractor.kt:15-19 | no descendant of a removed element survives |
| ContentExtractor.NoneSurviveFound | src/main/kotlin/scraper/ContentExtractor.kt:15-19 | elements found below a matched ancestor do not survive |
| ContentExtractor.PruneKeepsSurvivors | src/main/kotlin/scraper/ContentExtractor.kt:15-19 | the elements left after removal are exactly, in document order, those that neither match nor lie under a match |
| ContentExtractor.NothingMatchedRemains | src/main/kotlin/scraper/ContentExtractor.kt:14-20 | no element left in the document matches any removal rule |
| ContentExtractor.PruneUnchangedIff | src/main/kotlin/scraper/ContentExtractor.kt:14-20 | removal leaves a document unchanged iff none of its elements matches |
| ContentExtractor.PruneNothingMatched | src/main/kotlin/scraper/ContentExtractor.kt:14-20 | a document with no matching element is left as it is |
| ContentExtractor.StyleRuleFound | src/main/kotlin/scraper/ContentExtractor.kt:17 | the style pattern is case-insensitive and allows whitespace around the colon: "color: red; DISPLAY :  None" declares display none |
| MarkdownConverter.ListItems | src/main/kotlin/scraper/AnnotatedMarkdownConverter.kt:99 | the list's items are exactly its `li` children, in order |
| MarkdownConverter.Select | src/main/kotlin/scraper/AnnotatedMarkdownConverter.kt:110-121 | a table query selects elements; the row queries select only `tr` elements |
| MarkdownConverter.TableRows | src/main/kotlin/scraper/AnnotatedMarkdownConverter.kt:113-116 | the rows rendered are elements |
| MarkdownConverter.LabelledCells | src/main/kotlin/scraper/AnnotatedMarkdownConverter.kt:123-131 | one labelled value per cell |
| MarkdownConverter.Body | src/main/kotlin/scraper/AnnotatedMarkdownConverter.kt:12 | `document.body()` is an element |
| MarkdownConverter.CollapseNewlines | src/main/kotlin/scraper/AnnotatedMarkdownConverter.kt:13 | replacing each run of three or more newlines by two leaves no three newlines in a row |
| MarkdownConverter.Builder.constructor | src/main/kotlin/scraper/AnnotatedMarkdownConverter.kt:11 | a new builder is empty |
| MarkdownConverter.Builder.Append | src/main/kotlin/scraper/AnnotatedMarkdownConverter.kt:11 | `append` adds the string at the end and changes nothing else |
| MarkdownConverter.Convert | src/main/kotlin/scraper/AnnotatedMarkdownConverter.kt:10-14 | `convert` yields the specification text: the body rendered, newline runs collapsed, then trimmed |
| MarkdownConverter.ConvertChildren | src/main/kotlin/scraper/AnnotatedMarkdownConverter.kt:16-20 | the builder gains the children's renderings, in order |
| MarkdownConverter.ConvertNode | src/main/kotlin/scraper/AnnotatedMarkdownConverter.kt:22-32 | the builder gains the node's rendering. A text node outside `pre` contributes its normalised text, inside `pre` its whole text, and nothing when blank |
| MarkdownConverter.ConvertElement | src/main/kotlin/scraper/AnnotatedMarkdownConverter.kt:34-68 | the builder gains the rendering the element's tag selects |
| MarkdownConverter.AppendWrapped | src/main/kotlin/scraper/AnnotatedMarkdownConverter.kt:50-64 | the children are wrapped in the given marker on both sides |
| MarkdownConverter.AppendHeading | src/main/kotlin/scraper/AnnotatedMarkdownConverter.kt:70-76 | the builder gains the heading's rendering: a blank line, the prefix, a space, the children, a blank line |
| MarkdownConverter.AppendBlock | src/main/kotlin/scraper/AnnotatedMarkdownConverter.kt:78-82 | the builder gains the paragraph set off by blank lines |
| MarkdownConverter.AppendLink | src/main/kotlin/scraper/AnnotatedMarkdownConverter.kt:84-95 | the builder gains the link's rendering: its children alone when the absolute href is blank, otherwise "[children](transformUrl(href))" |
| MarkdownConverter.AppendList | src/main/kotlin/scraper/AnnotatedMarkdownConverter.kt:97-107 | the items loop adds one prefixed line per `li` child: "1. ", "2. ", ... for `ol` and "- " for `ul` |
| MarkdownConverter.AppendItem | src/main/kotlin/scraper/AnnotatedMarkdownConverter.kt:101-104 | one item line: the prefix, the item's children, a newline |
| MarkdownConverter.AppendTable | src/main/kotlin/scraper/AnnotatedMarkdownConverter.kt:109-136 | the loop over rows adds the table's rendering: the "[Table]" marker, then one labelled line per row |
| MarkdownConverter.AppendRow | src/main/kotlin/scraper/AnnotatedMarkdownConverter.kt:120-133 | the loop over cells adds "Row n:" and the cells, separated by a space and a bar |
| MarkdownConverter.AppendCell | src/main/kotlin/scraper/AnnotatedMarkdownConverter.kt:124-131 | one cell: its column's header when there is a non-blank one, otherwise "Column k", then the trimmed text |
| MarkdownConverter.AppendBlockquote | src/main/kotlin/scraper/AnnotatedMarkdownConverter.kt:138-148 | the builder gains the quote: the children rendered apart, trimmed, split into lines, and each line prefixed with "> " |
| MarkdownConverter.AppendQuoted | src/main/kotlin/scraper/AnnotatedMarkdownConverter.kt:142-146 | the `forEach` loop adds each line with its "> " prefix and a newline |
| MarkdownConverter.AppendPreformatted | src/main/kotlin/scraper/AnnotatedMarkdownConverter.kt:150-154 | the builder gains the element's whole text inside a code fence |
| MarkdownConverter.MarkdownShape | src/main/kotlin/scraper/AnnotatedMarkdownConverter.kt:13 | the result has no three newlines in a row and neither starts nor ends with whitespace |
| MarkdownConverter.TrimmedShape | src/main/kotlin/scraper/AnnotatedMarkdownConverter.kt:13 | trimming the collapsed text keeps it free of three newlines in a row, and leaves no whitespace at either end |
| MarkdownConverter.CollapseKeeps | src/main/kotlin/scraper/AnnotatedMarkdownConverter.kt:13 | text without three newlines in a row is not changed by the collapsing |
| MarkdownConverter.CollapseIdempotent | src/main/kotlin/scraper/AnnotatedMarkdownConverter.kt:13 | collapsing twice is collapsing once |
| MarkdownConverter.CollapseKeepsText | src/main/kotlin/scraper/AnnotatedMarkdownConverter.kt:13 | the collapsing removes only line feeds: with every line feed removed, the input and the output are the same text |
| MarkdownConverter.CollapseRun | src/main/kotlin/scraper/AnnotatedMarkdownConverter.kt:13 | a maximal run of k line feeds becomes two line feeds when k is three or more and stays as it is otherwise; the text on each side of the run is collapsed independently |
| MarkdownConverter.CollapseRunAlone | src/main/kotlin/scraper/AnnotatedMarkdownConverter.kt:13 | a text of k line feeds alone collapses to min(k, 2) line feeds |
| MarkdownConverter.HeadingLevel | src/main/kotlin/scraper/AnnotatedMarkdownConverter.kt:36-76 | `hn` renders as a paragraph led by a prefix of exactly n '#' characters, for every n from 1 to 6 |
| MarkdownConverter.FixedMarkers | src/main/kotlin/scraper/AnnotatedMarkdownConverter.kt:42-65 | p, br, hr, pre, strong/b, em/i and code render with their fixed markers around the children |
| MarkdownConverter.LinkRendering | src/main/kotlin/scraper/AnnotatedMarkdownConverter.kt:84-95 | a link with a blank href renders like a span; otherwise it is "[text](url)" with the transformed URL |
| MarkdownConverter.UnknownTransparent | src/main/kotlin/scraper/AnnotatedMarkdownConverter.kt:66 | an element of an unknown tag renders as its children |
| MarkdownConverter.RenderAllAppend | src/main/kotlin/scraper/AnnotatedMarkdownConverter.kt:16-20 | rendering two runs of siblings is rendering each, concatenated |
| MarkdownConverter.RenderAllParent | src/main/kotlin/scraper/AnnotatedMarkdownConverter.kt:25 | a parent's tag matters to its text children only through whether it is `pre` |
| MarkdownConverter.UnwrapUnknown | src/main/kotlin/scraper/AnnotatedMarkdownConverter.kt:66 | replacing an unknown-tag wrapper by its children does not change the rendering |
| MarkdownConverter.RenderSingle | src/main/kotlin/scraper/AnnotatedMarkdownConverter.kt:16-20 | rendering a single child is rendering that node |
| MarkdownConverter.BlankTextSilent | src/main/kotlin/scraper/AnnotatedMarkdownConverter.kt:26-28 | a blank text node contributes nothing |
| MarkdownConverter.ListItemsIdempotent | src/main/kotlin/scraper/AnnotatedMarkdownConverter.kt:99 | filtering the `li` children twice is filtering once |
| MarkdownConverter.ListIgnoresOthers | src/main/kotlin/scraper/AnnotatedMarkdownConverter.kt:99 | a list's children other than `li` elements do not affect its rendering |
| MarkdownConverter.ListLines | src/main/kotlin/scraper/AnnotatedMarkdownConverter.kt:97-107 | a list renders as a blank line, one part per `li` child, and a newline. Each part starts with its number (ordered) or "- " and ends with a newline |
| MarkdownConverter.TableIgnoresLinks | src/main/kotlin/scraper/AnnotatedMarkdownConverter.kt:47-136 | tables are rendered from the text of their cells alone, never as links, and start with the "[Table]" marker |
| MarkdownConverter.TableRowsChoice | src/main/kotlin/scraper/AnnotatedMarkdownConverter.kt:113-116 | the body rows are rendered when there are some. Otherwise all rows are, minus the first exactly when there are headers |
| MarkdownConverter.CellsJoined | src/main/kotlin/scraper/AnnotatedMarkdownConverter.kt:123-131 | a row's cells are the labelled cells joined by a space and a bar |
| MarkdownConverter.QuoteLinesSplit | src/main/kotlin/scraper/AnnotatedMarkdownConverter.kt:142-146 | quoted lines read back, line by line, as the lines each prefixed with "> " |
| MarkdownConverter.QuoteEveryLine | src/main/kotlin/scraper/AnnotatedMarkdownConverter.kt:138-148 | a blockquote renders every line of its trimmed content prefixed with "> " |
| FileResultProcessor.Sanitize | src/main/kotlin/processor/impl/FileResultProcessor.kt:39-40 | the sanitised name has the same length, and every character of it is a letter, a digit, a space, '.', '_' or '-' |
| FileResultProcessor.SanitizeFixed | src/main/kotlin/processor/impl/FileResultProcessor.kt:39-40 | a name is left unchanged iff all its characters are already allowed |
| FileResultProcessor.SanitizeIdempotent | src/main/kotlin/processor/impl/FileResultProcessor.kt:39-40 | sanitising twice is sanitising once |
| FileResultProcessor.FileNameSafe | src/main/kotlin/processor/impl/FileResultProcessor.kt:16 | the file name has no path separator and ends with ".txt"; a name made only of allowed characters is used as it stands |
| FileResultProcessor.SanitizeKeepsSimpleName | src/test/kotlin/processor/impl/FileResultProcessorTest.kt:80-85 | "simple name" is kept |
| FileResultProcessor.SanitizeKeepsDotsAndDashes | src/test/kotlin/processor/impl/FileResultProcessorTest.kt:80-85 | "dots.and-dashes" is kept |
| FileResultProcessor.SanitizeReplacesExample | src/test/kotlin/processor/impl/FileResultProcessorTest.kt:82 | each disallowed character of "Council/Name - Committee<A>B" becomes '_' |
| FileResultProcessor.Blocks | src/main/kotlin/processor/impl/FileResultProcessor.kt:24-31 | six lines per scheme |
| FileResultProcessor.AppendLine | src/main/kotlin/processor/impl/FileResultProcessor.kt:20-30 | `appendLine` adds the line and a newline, so the text stays the lines written so far, each ended by a newline |
| FileResultProcessor.AppendScheme | src/main/kotlin/processor/impl/FileResultProcessor.kt:25-30 | the six lines of one scheme's block are added |
| FileResultProcessor.Process | src/main/kotlin/processor/impl/FileResultProcessor.kt:14-36 | the file name is the sanitised "council - committee" plus ".txt", and the content is the header lines followed by one block per scheme, each line ended by a newline |
| FileResultProcessor.OccurrencesAppend | src/main/kotlin/processor/impl/FileResultProcessor.kt:24-31 | counting lines is additive over concatenation |
| FileResultProcessor.OccurrencesNone | src/main/kotlin/processor/impl/FileResultProcessor.kt:20-22 | lines of which none is the given line count zero of it |
| FileResultProcessor.SeparatorPerScheme | src/main/kotlin/processor/impl/FileResultProcessor.kt:20-31 | the report has exactly one "---" line per scheme |
| FileResultProcessor.SeparatorsOfBlocks | src/main/kotlin/processor/impl/FileResultProcessor.kt:24-31 | the scheme blocks hold exactly one "---" per scheme |
| FileResultProcessor.ReportReadsBack | src/main/kotlin/processor/impl/FileResultProcessor.kt:19-32 | when no field contains a newline, the report splits at newlines into the three header lines, the six lines of each scheme in order, and a final empty string |
| FileResultProcessor.ReportLinesExclude | src/main/kotlin/processor/impl/FileResultProcessor.kt:19-32 | with single-line fields, no report line contains a newline |
| FileResultProcessor.BlocksExclude | src/main/kotlin/processor/impl/FileResultProcessor.kt:24-31 | with single-line fields, no block line contains a newline |
| FileResultProcessor.BlockAt | src/main/kotlin/processor/impl/FileResultProcessor.kt:24-31 | lines 6i to 6i+5 of the blocks are the i-th scheme's block: a blank line, "---", its title, topic, meeting date and summary |
| Decisions.ValueOf | src/main/kotlin/uk/co/councilcycle/model/Decision.kt:17-28 | `valueOf` finds the constant with exactly the given name; it fails only when no constant has that name |
| Decisions.ValueOfName | src/main/kotlin/uk/co/councilcycle/model/Decision.kt:17-28 | `valueOf(c.name) == c` for every constant, so distinct constants have distinct names |
| Decisions.EntriesComplete | src/main/kotlin/uk/co/councilcycle/model/Decision.kt:17-28 | the enum has exactly the ten entries, each listed once in declaration order |
| Decisions.EntriesNames | src/main/kotlin/uk/co/councilcycle/model/Decision.kt:18-27 | the constants' names are exactly the ten upper-case names of the declaration |
| Analyzer.Content | src/main/kotlin/uk/co/councilcycle/llm/DefaultLlmAnalyzer.kt:107-117 | `jsonPrimitive.content` is the text of a string and "null" for JSON null; arrays and objects have none |
| Analyzer.BooleanOf | src/main/kotlin/uk/co/councilcycle/llm/DefaultLlmAnalyzer.kt:99 | `jsonPrimitive.boolean` is true or false exactly for the texts "true" or "false", in any letter case |
| Analyzer.BooleanOfLiteral | src/main/kotlin/uk/co/councilcycle/llm/DefaultLlmAnalyzer.kt:99 | JSON literals read as their value, "TRUE" and "False" are accepted, and "yes", 1 and null are not booleans |
| Analyzer.SignedValue | src/main/kotlin/uk/co/councilcycle/llm/DefaultLlmAnalyzer.kt:113 | a signed value is read only when it fits a Kotlin `Int` |
| Analyzer.ParseInt | src/main/kotlin/uk/co/councilcycle/llm/DefaultLlmAnalyzer.kt:113 | `jsonPrimitive.int` gives only values within the 32-bit range, and refuses a text that starts with '+' |
| Analyzer.DigitsOfNat | src/main/kotlin/uk/co/councilcycle/llm/DefaultLlmAnalyzer.kt:113 | the decimal text of a natural number is all digits and reads back as that number |
| Analyzer.DigitCharValue | src/main/kotlin/uk/co/councilcycle/llm/DefaultLlmAnalyzer.kt:113 | each digit character reads as its value |
| Analyzer.ParseIntRoundTrip | src/main/kotlin/uk/co/councilcycle/llm/DefaultLlmAnalyzer.kt:113 | every `Int` reads back from its decimal text; the same text with a '+' in front is refused, since a JSON number has no '+' sign |
| Analyzer.ParseIntRefuses | src/main/kotlin/uk/co/councilcycle/llm/DefaultLlmAnalyzer.kt:113 | "7.5", "high", "", "-", "+" and "null" are not `Int`s |
| Analyzer.ParseIntOverflow | src/main/kotlin/uk/co/councilcycle/llm/DefaultLlmAnalyzer.kt:113 | "2147483648", one past the largest `Int`, is not an `Int` |
| Analyzer.NatToStringExample | src/main/kotlin/uk/co/councilcycle/llm/DefaultLlmAnalyzer.kt:113 | the decimal text of 214748364 |
| Analyzer.CategoryOf | src/main/kotlin/uk/co/councilcycle/llm/DefaultLlmAnalyzer.kt:108-112 | the category is the constant the property names. It is OTHER_ACTIVE_TRAVEL when the property is missing, names no constant, or is not a primitive |
| Analyzer.DecodeDecision | src/main/kotlin/uk/co/councilcycle/llm/DefaultLlmAnalyzer.kt:100-114 | a decision read from an element carries the council's id and name, an empty meeting title, the page URL, and a score within the `Int` range |
| Analyzer.ParseResponse | src/main/kotlin/uk/co/councilcycle/llm/DefaultLlmAnalyzer.kt:96-129 | every decision is stamped with the council and the page; an answer that is not JSON, or any failure while reading it, gives the empty result |
| Analyzer.DecodedStamped | src/main/kotlin/uk/co/councilcycle/llm/DefaultLlmAnalyzer.kt:100-106 | every decision of a decoded answer is stamped with the council and the page |
| Analyzer.AnalyzePage | src/main/kotlin/uk/co/councilcycle/llm/DefaultLlmAnalyzer.kt:20-26 | the result exists iff the generator call returns; its decisions come from the page analysed |
| Analyzer.EmptyObjectDefaults | src/main/kotlin/uk/co/councilcycle/llm/DefaultLlmAnalyzer.kt:99-118 | an empty object reads as nothing relevant, no decisions and no follow-ups |
| Analyzer.MissingPropertiesDefault | src/main/kotlin/uk/co/councilcycle/llm/DefaultLlmAnalyzer.kt:99-118 | each missing top-level property takes its own default while the others are read as given |
| Analyzer.DecisionDefaults | src/main/kotlin/uk/co/councilcycle/llm/DefaultLlmAnalyzer.kt:107-113 | a missing summary, category or score reads as "", OTHER_ACTIVE_TRAVEL and 0. An unknown category name, or a non-primitive category, also reads as OTHER_ACTIVE_TRAVEL |
| Analyzer.DecisionsInOrder | src/main/kotlin/uk/co/councilcycle/llm/DefaultLlmAnalyzer.kt:100 | the decisions keep the array's length and order |
| Analyzer.BadInputLosesAll | src/main/kotlin/uk/co/councilcycle/llm/DefaultLlmAnalyzer.kt:113-128 | a single score that is not an `Int` loses the whole answer, and so does an answer that is not an object |
| Analyzer.DecisionRoundTrip | src/main/kotlin/uk/co/councilcycle/llm/DefaultLlmAnalyzer.kt:49-114 | a decision written as the prompt asks reads back with the council and page stamped |
| Analyzer.DecisionsRoundTrip | src/main/kotlin/uk/co/councilcycle/llm/DefaultLlmAnalyzer.kt:100-114 | an array of decisions written as the prompt asks reads back element by element, each stamped with the council and the page |
| Analyzer.UrlsRoundTrip | src/main/kotlin/uk/co/councilcycle/llm/DefaultLlmAnalyzer.kt:115-117 | an array of follow-up URLs reads back unchanged |
| Analyzer.DecodeEncodedResult | src/main/kotlin/uk/co/councilcycle/llm/DefaultLlmAnalyzer.kt:97-124 | the object of an answer decodes to its decisions stamped with the council and the page, its follow-up URLs and its relevance flag |
| Analyzer.ParseEncodedResult | src/main/kotlin/uk/co/councilcycle/llm/DefaultLlmAnalyzer.kt:49-124 | a whole answer written as the prompt asks reads back unchanged, each decision stamped |
| Bluesky.EncodeChar | src/main/kotlin/uk/co/councilcycle/publisher/DefaultBlueskyPublisher.kt:95 | each character is one or two UTF-16 code units, as Kotlin's `String` stores it |
| Bluesky.Utf16 | src/main/kotlin/uk/co/councilcycle/publisher/DefaultBlueskyPublisher.kt:95 | a text is at least as many code units as characters |
| Bluesky.DecodeUtf16 | src/main/kotlin/uk/co/councilcycle/publisher/DefaultBlueskyPublisher.kt:95 | UTF-16 encoding is undone by decoding, so a post's code units determine its text |
| Bluesky.Utf16Concat | src/main/kotlin/uk/co/councilcycle/publisher/DefaultBlueskyPublisher.kt:87-92 | encoding distributes over concatenation, as `append` does |
| Bluesky.Emoji | src/main/kotlin/uk/co/councilcycle/publisher/DefaultBlueskyPublisher.kt:76-85 | every category's emoji is two code units long |
| Bluesky.EmojiSpells | src/main/kotlin/uk/co/councilcycle/publisher/DefaultBlueskyPublisher.kt:76-85 | each emoji's escape sequence spells the intended character, e.g. the bicycle for cycle lanes and the warning sign with its variation selector for speed limits |
| Bluesky.EmojiClasses | src/main/kotlin/uk/co/councilcycle/publisher/DefaultBlueskyPublisher.kt:76-85 | traffic filters and LTNs share the construction sign; road closures, pavement widening and other active travel share the default scooter. No other two categories share one |
| Bluesky.FormatPost | src/main/kotlin/uk/co/councilcycle/publisher/DefaultBlueskyPublisher.kt:94-95 | a post is never longer than 300 UTF-16 code units |
| Bluesky.Truncation | src/main/kotlin/uk/co/councilcycle/publisher/DefaultBlueskyPublisher.kt:95 | a draft within 300 units is posted as it is. A longer one keeps its first 297 units, followed by "..." |
| Bluesky.PostLayout | src/main/kotlin/uk/co/councilcycle/publisher/DefaultBlueskyPublisher.kt:87-92 | a post within the limit reads as the emoji, a space, the council name, a blank line, the summary, a blank line and the meeting URL |
| Bluesky.RelevantConcat | src/main/kotlin/uk/co/councilcycle/publisher/DefaultBlueskyPublisher.kt:30-31 | the relevance filter distributes over concatenation |
| Bluesky.RelevantMembers | src/main/kotlin/uk/co/councilcycle/publisher/DefaultBlueskyPublisher.kt:31 | a decision passes the filter iff it is in the list and its score reaches the minimum |
| Bluesky.Publisher.constructor | src/main/kotlin/uk/co/councilcycle/publisher/DefaultBlueskyPublisher.kt:20 | a new publisher has no access token and has posted nothing |
| Bluesky.Publisher.EnsureAuthenticated | src/main/kotlin/uk/co/councilcycle/publisher/DefaultBlueskyPublisher.kt:37-53 | a held token is kept; otherwise the token becomes the session's `accessJwt` when there is one. Nothing is posted |
| Bluesky.Publisher.CreatePost | src/main/kotlin/uk/co/councilcycle/publisher/DefaultBlueskyPublisher.kt:55-73 | a post is created exactly when a token is held; otherwise the call fails and nothing is posted |
| Bluesky.Publisher.Publish | src/main/kotlin/uk/co/councilcycle/publisher/DefaultBlueskyPublisher.kt:22-27 | the formatted post is created iff the publisher can authenticate; otherwise nothing is posted |
| Bluesky.Publisher.PublishAll | src/main/kotlin/uk/co/councilcycle/publisher/DefaultBlueskyPublisher.kt:29-35 | when the publisher can authenticate, every decision that passes the relevance filter is posted in order. When it cannot, nothing is posted, and the call fails unless no decision is relevant. A session token is taken only when a decision is relevant and none is held yet; a held token is kept |
| Scheduler.Delay | src/main/kotlin/uk/co/councilcycle/pipeline/Scheduler.kt:30-35 | the delay is within (0, 24 h], and waiting it lands exactly on the target time of day |
| Scheduler.DelayCases | src/main/kotlin/uk/co/councilcycle/pipeline/Scheduler.kt:30-35 | before the target, the delay is the difference; at or after it, the difference plus a day. At the target itself the delay is a full day |
| Scheduler.DelayIsFirst | src/main/kotlin/uk/co/councilcycle/pipeline/Scheduler.kt:30-35 | no shorter positive wait reaches the target time of day: the delay is to its next occurrence |
| CouncilPipeline.Unvisited | src/main/kotlin/uk/co/councilcycle/pipeline/CouncilPipeline.kt:43-45 | the follow-ups queued are exactly those not yet visited, each taken from the analyser's list |
| CouncilPipeline.Step | src/main/kotlin/uk/co/councilcycle/pipeline/CouncilPipeline.kt:32-50 | an iteration either leaves the depth and shortens the queue (a visited URL or a failure) or raises the depth by one (a page analysed) |
| CouncilPipeline.Run | src/main/kotlin/uk/co/councilcycle/pipeline/CouncilPipeline.kt:31 | the crawl stops exactly when the queue is empty or the depth limit is reached |
| CouncilPipeline.StartGood | src/main/kotlin/uk/co/councilcycle/pipeline/CouncilPipeline.kt:23-30 | the initial state satisfies the crawl invariant |
| CouncilPipeline.StepGood | src/main/kotlin/uk/co/councilcycle/pipeline/CouncilPipeline.kt:32-50 | each iteration keeps the invariant. No URL is processed twice, the visited set is the set of processed URLs, the depth counts the pages analysed, and the decisions are theirs |
| CouncilPipeline.RunGood | src/main/kotlin/uk/co/councilcycle/pipeline/CouncilPipeline.kt:31-51 | the whole loop keeps the crawl invariant |
| CouncilPipeline.RunDepth | src/main/kotlin/uk/co/councilcycle/pipeline/CouncilPipeline.kt:31-47 | the depth never exceeds the limit |
| CouncilPipeline.CrawlFacts | src/main/kotlin/uk/co/councilcycle/pipeline/CouncilPipeline.kt:20-55 | no URL is fetched twice, at most maxFollowUpDepth pages are analysed, and a non-positive limit fetches nothing. The decisions are those of the analysed pages, in the order they were analysed |
| CouncilPipeline.FailureChangesNothing | src/main/kotlin/uk/co/councilcycle/pipeline/CouncilPipeline.kt:36-50 | a fetch or analysis that throws marks the URL visited and changes nothing else: no decisions, no depth |
| CouncilPipeline.SuccessQueuesUnvisited | src/main/kotlin/uk/co/councilcycle/pipeline/CouncilPipeline.kt:40-47 | a successful analysis appends exactly the unvisited follow-ups to the back of the queue, and the URL is visited |
| CouncilPipeline.DefaultAnalyzerStamps | src/main/kotlin/uk/co/councilcycle/pipeline/CouncilPipeline.kt:38 | with the language-model analyser, every decision collected carries this council's id and the URL of one of the pages crawled |
| CouncilPipeline.ProcessCouncil | src/main/kotlin/uk/co/councilcycle/pipeline/CouncilPipeline.kt:20-55 | the while loop returns the decisions of the specified crawl |
| CouncilPipeline.Enqueue | src/main/kotlin/uk/co/councilcycle/pipeline/CouncilPipeline.kt:43-45 | the queue gains the unvisited follow-ups, in order |
| CouncilPipeline.PublishedConcat | src/main/kotlin/uk/co/councilcycle/pipeline/CouncilPipeline.kt:60-70 | the councils' published lists distribute over concatenation |
| CouncilPipeline.PublishedNonEmpty | src/main/kotlin/uk/co/councilcycle/pipeline/CouncilPipeline.kt:64 | only councils with decisions are handed to the publisher |
| CouncilPipeline.PublishedSnoc | src/main/kotlin/uk/co/councilcycle/pipeline/CouncilPipeline.kt:60-70 | one more council adds its decision list to what is published exactly when the list is non-empty |
| CouncilPipeline.ProcessOneCouncil | src/main/kotlin/uk/co/councilcycle/pipeline/CouncilPipeline.kt:61-69 | one iteration hands the council's decisions to `publishAll` only when there are some. The publisher's posts stay the relevant decisions of every list handed over so far, or none when it cannot authenticate |
| CouncilPipeline.ProcessAllCouncils | src/main/kotlin/uk/co/councilcycle/pipeline/CouncilPipeline.kt:57-73 | each council with decisions is published, in order. The posts are the relevant decisions of each in turn when the publisher can authenticate, and none otherwise. A failure never stops the loop. The publisher takes a session token only when some relevant decision was handed over and it held none |

## Left out

- JSON text: tokenising and printing are not modelled. A reply enters as an abstract `Json` value, or as None where it is not JSON at all. Objects are maps, so a duplicate key cannot be expressed.
- HTTP and PDF: fetching pages and extracting PDF text happen outside the process, so the fetcher is an oracle from a URL to an optional page.
- The language-model clients and `callLlm`: the generator is an oracle that gives the already-decoded reply to the n-th call, because the model's output cannot be predicted.
- Prompts.Phase1Prompt, Prompts.Phase2Prompt, Prompts.BuildPhase3Prompt, Prompts.Phase4Prompt: the fixed system texts of `Prompts.kt` are not modelled word for word. They are abstracted to the `Instructions` datatype, which keeps only the reply types each text names, the property name of a meeting's URL and the interpolated topic lists. Only the user texts are assembled character for character.
- The analyser's prompt text in `DefaultLlmAnalyzer.buildPrompt`: the earlier pipeline's analyser is an oracle over the council, the page content and the URL.
- jsoup parsing: the tree enters as a `Node` value. `text()`, `wholeText()`, `absUrl("href")` and a text node's whitespace normalisation are parameters, because they belong to the parser.
- The body element: `MarkdownConverter.Body` finds the body as jsoup's `body()` does. When there is none, the empty `body` jsoup creates is not attached to the document. Selector matches above the root are not modelled either; the walk starts at a given node.
- UTF-16: Dafny characters are Unicode scalar values, not UTF-16 units. Only the Bluesky post length is counted in UTF-16 units, because only there does the count matter.
- Analyzer.ParseInt: `JsonPrimitive.int` in kotlinx-serialization-json 1.6.3 reads the primitive's text with the library's JSON number lexer, and that lexer's source is not part of this model. The model keeps the lexer's core rule: an optional '-', then ASCII digits only, then the `Int` range check. Anything else the lexer may accept is not modelled: leading whitespace, an exponent, quotation marks around the number, or a number followed by whitespace or a JSON delimiter. A score written as a JSON number never takes these forms, so only a score given as a JSON string could be read differently.
- Analyzer.BooleanOf: Unicode case folding beyond ASCII letters (such as U+017F) is not modelled.
- Bluesky HTTP: `createSession` is replaced by the token it would return, a constant per publisher, and `createRecord` by appending the post. HTTP errors and the `Instant.now` timestamp are not modelled.
- Logging: log calls change nothing the model observes.
- Files and wiring: the Koin modules, the command line, the configuration files, `createDirectories` and `writeText` are not modelled. `FileResultProcessor.Process` returns the file name and the text instead.
- The logging and composite result processors only forward their calls, so they are not modelled.
- The second copies of `FindCommitteePagesPhase.kt` and `FindMeetingsPhase.kt` in package `orchestrator` have the same logic as the ones in `orchestrator/phase`, which the model covers.
- The clock: the `LocalDate.now()` defaults of the date range are parameters. So is the scheduler's time of day. The scheduler's endless loop, its `delay` call and the millisecond conversion are not modelled.
- Coroutines: every suspend call is modelled as a plain call in program order.
- The `Meeting` record of package `uk.co.councilcycle` is never used by the pipeline, so it is not modelled.

Some source declarations do not fit together, and the model resolves them as follows:

- `Orchestrator.kt` uses `PhaseResponse` variants that `PhaseResponse.kt` does not declare: `CommitteePagesFound`, `AgendaFetch` and `AgendaTriaged`. The model adds them to `PhaseResponses.PhaseResponse` with the fields that `Orchestrator.kt` reads.
- `AnalyzeExtractPhase.kt` casts to `PhaseResponse.AgendaAnalyzed` but reads fields that only `LlmResponse`'s schemes have, so it is modelled on `LlmResponse`.
- `buildPhase3Prompt` is called with different numbers of arguments in different places, so the triage phases take the prompt builder as a parameter.
- `Meeting` and `Scheme` are declared twice in package `orchestrator`: the model keeps one per reply type. The orchestrator decodes its replies with `PhaseResponses.DecodeResponse`. That decoder reads a scheme with the "" defaults for `meetingDate` and `committeeName` that `LlmResponse.kt` declares; `PhaseResponses.DecodeResponseAsDeclared` reads it with those two properties required, as `PhaseResponse.kt` declares them.

## Findings

| source | as written | input that shows it | evidently intended | confidence | as-written member | corrected member |
|---|---|---|---|---|---|---|
| src/main/kotlin/orchestrator/Prompts.kt:142 | the phase 3 system text tells the model to request documents with type "agenda_fetch" | a reply `{"type": "agenda_fetch", "urls": ["@1"], "reason": "r", "items": []}` is refused by the decoder, so the triage returns null | the serial name "agenda_item_fetch" of `AgendaFetch` | not executed | InstructionChecks.Phase3InstructedFetchRejected | InstructionChecks.CorrectedReplyTypesDecodable |
| src/main/kotlin/orchestrator/Prompts.kt:88 | the phase 2 system text names a meeting's link "agendaUrl" | a meeting `{"date": "d", "title": "t", "agendaUrl": "@1"}` decodes with no URL, so the meetings phase returns it with a null `meetingUrl` | the property name "meetingUrl" that `LlmResponse.Meeting` reads | not executed | InstructionChecks.InstructedMeetingLosesUrl | InstructionChecks.CorrectedMeetingKeepsUrl |
| src/main/kotlin/orchestrator/PhaseResponse.kt:42-49 | `Scheme` requires `meetingDate` and `committeeName`, which the phase 4 system text (Prompts.kt:200-211) never asks for | a reply `{"type": "agenda_analyzed", "schemes": [{"title": "a", "topic": "b", "summary": "c"}]}` is refused | both properties default to "", and the orchestrator stamps them afterwards | not executed | PhaseResponses.InstructedAnalysisRefused | PhaseResponses.InstructedAnalysisAccepted |
