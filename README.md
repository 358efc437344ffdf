# DermaVisionXR server, modelled in Dafny

This project models the deterministic core of the DermaVisionXR server. That server analyses a photo of a skin lesion and then asks a panel of language-model "specialists" for a consultation. The model covers five parts:

- **Specialist and coordinator parsers.** `parseResponse` and the parsing step of `coordinateConsensus` turn free model text into structured opinions. Each regular expression is written as a small scanner over `seq<char>` that uses ASCII case folding and the backtracking of `[:\s]+` (modules `Text`, `Scan`, `ResponseParser`, `CoordinatorParser`).
- **Prompt formatter.** `formatInputForAgent` and the persona table `AGENT_PROMPTS` (module `Prompts`).
- **Consultation orchestration.** This covers the lazily built model client (`getAnthropicClient`), the fixed-order, all-or-nothing join of the five specialists, the coordinator call, and the agreement score computed from the population variance of the confidences (modules `Consultation`, `Agreement`).
- **Analysis endpoints of the server.** The server normalises the embedding to 1024 values and maps diagnosis codes with an `nv` fallback. It returns at most five similar cases and a fixed reply when nothing matches. For base64 input it strips the data-URL prefix, and it guards the consultation request (modules `Embedding`, `Server`).
- **Dataset vectorizer.** This covers the model load with its three attempts, doubling delay and shared in-flight load, the same length normalisation, metadata defaulting, and the batch loop of 20 records with its processed, failed and skipped counters and upserts (module `Vectorize`).

The language model, the vector index, the file system, the image pipeline and the clock are all parameters. They are abstract functions that return a `Result` or a value. Embedding values have an abstract type `T`: `scale` stands for multiplying by 0.1 and `zero` for the number 0.

Where the code keeps state, the model keeps state too:

- the client slot is a `class ClientSlot`;
- the server's model cache is a `class ModelCache`;
- the vectorizer's model and its in-flight promise are a `class ModelLoader`;
- the retry loop and the batch loop are `while` and `for` loops with invariants;
- the server's step-by-step `embedding` reassignment is a method.

Each of these methods is proved against a specification function, and the lemmas are proved about those functions.

A specialist's confidence is clamped to [0,100] (server/src/agents/consultationAgents.ts:115). The coordinator's confidence is not clamped: its digits are used as they stand (lines 206-207). The model follows the code. `CoordinatorParser.UnclampedConfidence` shows the difference: "Confidence: 150" reads as 150 for the coordinator and as 100 for a specialist.

## Model

| member | source | states |
|---|---|---|
| ResponseParser.ParseResponse | server/src/agents/consultationAgents.ts:77-119 | Total on every string. The confidence is in [0,100]. There are at most 5 findings and 4 recommendations, each non-empty, trimmed and on one line. The assessment is trimmed. |
| ResponseParser.AssessmentAt | server/src/agents/consultationAgents.ts:84 | Definition of the Assessment pattern tried at one position: the label in any case, a separator run, the first line, and the continuation lines that do not start with Confidence, Key Findings or Recommendations. `ReadAssessment` and `AssessmentReadBack` state what it yields. |
| ResponseParser.ConfidenceAt | server/src/agents/consultationAgents.ts:90-91 | Definition of the Confidence pattern tried at one position: the label in any case, a separator run and then a digit run, read as its decimal value. `FirstConfidence` and `ConfidenceReadBack` state what it yields. |
| ResponseParser.ListAt | server/src/agents/consultationAgents.ts:94-111 | Definition of the Key Findings and Recommendations patterns tried at one position: the label with its optional `s`, a separator run, and the greedy run of marker items. `ParseListLeftmost` and `ListReadBack` state what it yields. |
| ResponseParser.ReadConfidence | server/src/agents/consultationAgents.ts:90-91 | With no "Confidence" label followed by `[:\s]+` and digits, the result is 75. Otherwise it is the clamped value of the digits at the leftmost match. |
| ResponseParser.FirstConfidence | server/src/agents/consultationAgents.ts:90 | None exactly when no position matches. Otherwise it is the match at the leftmost matching position. |
| ResponseParser.ConfidenceReadBack | server/src/agents/consultationAgents.ts:90-91 | A text with "Confidence", a separator run and a digit run (and no earlier label) reads back as the clamped value of those digits. This holds in any letter case. |
| ResponseParser.Clamp | server/src/agents/consultationAgents.ts:115 | The result is in [0,100], and a value already in range is unchanged. |
| ResponseParser.ReadAssessment | server/src/agents/consultationAgents.ts:84-87 | The trimmed block at the leftmost "Assessment" match. With no match, it is the trimmed text before the first blank line. |
| ResponseParser.AssessmentReadBack | server/src/agents/consultationAgents.ts:84-87 | An "Assessment" label, a separator and a clean one-line text `a`, followed by a stop label or the end, reads back as exactly `a`. |
| ResponseParser.ListEntries | server/src/agents/consultationAgents.ts:96-100 | Every entry of a list section is non-empty, trimmed and free of newlines. |
| ResponseParser.StripMarker | server/src/agents/consultationAgents.ts:99 | Exactly one leading marker character (`-`, `•`, a digit or `.`) is removed, with the white space after it and nothing more: the removed characters but the first are all white space, and the result does not start with white space. A line without a marker is unchanged. |
| ResponseParser.NumberedMarker | server/src/agents/consultationAgents.ts:99 | A numbered line `<digit>. <text>` loses only its digit and keeps `. <text>`, because the `.` is no white space. |
| ResponseParser.NumberedLineKeepsDot | server/src/agents/consultationAgents.ts:96-100 | Such a line on its own is read as the single entry `. <text>`, so "1. x" gives ". x". |
| ResponseParser.StripDash | server/src/agents/consultationAgents.ts:99 | "- " followed by a clean entry gives back that entry. |
| ResponseParser.ListEntriesOfBullets | server/src/agents/consultationAgents.ts:96-100 | A section of "- item" lines gives back exactly the items, in order. |
| ResponseParser.ParseList | server/src/agents/consultationAgents.ts:94-111 | At most `cap` entries, each clean. |
| ResponseParser.ParseListAbsent | server/src/agents/consultationAgents.ts:95-101 | With no "Key Finding(s)" or "Recommendation(s)" match, the list is empty. |
| ResponseParser.ParseListLeftmost | server/src/agents/consultationAgents.ts:94-117 | The list is the capped entries of the section at the leftmost match. |
| ResponseParser.ListReadBack | server/src/agents/consultationAgents.ts:94-117 | A rendered bullet list after the label (and no earlier label) reads back as the same items, capped. |
| ResponseParser.Capped | server/src/agents/consultationAgents.ts:116-117 | The result is a prefix of at most `cap` entries, and a shorter list is kept whole. |
| Scan.FirstMatch | server/src/agents/consultationAgents.ts:90 | The leftmost position where the matcher succeeds, with every earlier position failing. None means no position in range matches. |
| Scan.BlockEnd | server/src/agents/consultationAgents.ts:84 | The block ends at the first newline that is not followed by a non-empty line starting with none of the stop labels. |
| Scan.ItemsEndMaximal | server/src/agents/consultationAgents.ts:94 | The `(?:[-•\d.]\s*[^\n]+\n?)+` repetition stops only where no further item matches. |
| Scan.LabelledLineAtLine | server/src/agents/consultationAgents.ts:203 | A label, a separator run and a one-line text capture exactly that text. |
| Text.Trim | server/src/agents/consultationAgents.ts:86 | The result is trimmed and no longer than the input. It is empty exactly when the input is all whitespace, and a trimmed input is unchanged. |
| Text.JoinSplit | server/src/agents/consultationAgents.ts:97 | Joining the pieces of `split(d)` with `d` gives the original string. |
| Text.SplitJoin | server/src/agents/consultationAgents.ts:97 | Splitting a join of pieces that are free of `d` gives the pieces back. |
| Text.FirstParagraph | server/src/agents/consultationAgents.ts:87 | The prefix before the first "\n\n", or the whole string when there is none. |
| Text.ParseRendered | server/src/agents/consultationAgents.ts:91 | Parsing the decimal rendering of a number gives that number back. |
| CoordinatorParser.DiagnosisAt | server/src/agents/consultationAgents.ts:203 | Definition of the diagnosis pattern tried at one position: the `Consensus ` prefix is taken first when the rest then matches, and otherwise the bare `Diagnosis` label. `ConsensusPrefixTransparent` and `DiagnosisReadBack` state what it yields. |
| CoordinatorParser.SummaryAt | server/src/agents/consultationAgents.ts:209 | Definition of the Summary pattern tried at one position: the first line and the continuation lines that do not start with Urgency. `SummaryReadBack` states what it yields. |
| CoordinatorParser.UrgencyAt | server/src/agents/consultationAgents.ts:214 | Definition of the Urgency pattern tried at one position: after a separator run, the first of low, medium, high and immediate that matches in any case. `UrgencyReadBack` states what it yields. |
| CoordinatorParser.ReadDiagnosis | server/src/agents/consultationAgents.ts:203-204 | The trimmed line at the leftmost `(?:Consensus )?Diagnosis` match. With no match it is the original diagnosis. |
| CoordinatorParser.DiagnosisReadBack | server/src/agents/consultationAgents.ts:203-204 | A (Consensus) Diagnosis line reads back as its text. |
| CoordinatorParser.ConsensusPrefixTransparent | server/src/agents/consultationAgents.ts:203 | At a "Consensus " label, the match is the one of the "Diagnosis" that follows it. |
| CoordinatorParser.ReadConfidence | server/src/agents/consultationAgents.ts:206-207 | The unclamped digits at the leftmost match. With no match it is the original confidence. |
| CoordinatorParser.ConfidenceReadBack | server/src/agents/consultationAgents.ts:206-207 | The digits after the label read back as their value, without clamping. |
| CoordinatorParser.UnclampedConfidence | server/src/agents/consultationAgents.ts:207 | "Confidence: 150" gives 150 for the coordinator and 100 for a specialist. |
| CoordinatorParser.DefaultSummary | server/src/agents/consultationAgents.ts:212 | The fallback sentence names the chosen diagnosis. |
| CoordinatorParser.ReadSummary | server/src/agents/consultationAgents.ts:209-212 | The trimmed block at the leftmost "Summary" match, stopping at an "Urgency" line. With no match it is the sentence naming the diagnosis. |
| CoordinatorParser.SummaryReadBack | server/src/agents/consultationAgents.ts:209-211 | A Summary line reads back as its text. |
| CoordinatorParser.ReadUrgency | server/src/agents/consultationAgents.ts:214-215 | The level named at the leftmost "Urgency" match, in any case. With no match it is medium. |
| CoordinatorParser.UrgencyReadBack | server/src/agents/consultationAgents.ts:214-215 | "Urgency", a separator and a level word in any letter case read back as that level. |
| CoordinatorParser.ParseConsensus | server/src/agents/consultationAgents.ts:202-217 | The summary names the parsed diagnosis, and each missing field takes its own fallback. |
| Agreement.Variance | server/src/agents/consultationAgents.ts:247-249 | The population variance is never negative. |
| Agreement.SpreadFrom | server/src/agents/consultationAgents.ts:250 | The least d with variance <= (d + 1/2)^2, capped at 100. |
| Agreement.BoundIsSquare | server/src/agents/consultationAgents.ts:250 | The threshold the spread is compared with is exactly (d + 1/2)^2. |
| Agreement.AgreementScore | server/src/agents/consultationAgents.ts:247-257 | The score is in [0,100]. |
| Agreement.AgreementScoreOfRoot | server/src/agents/consultationAgents.ts:250-257 | For the exact square root r of the variance, the score is floor(max(0, 100 - r) + 1/2), which is `Math.round(Math.max(0, 100 - sqrt(variance)))`. |
| Agreement.RoundedDistance | server/src/agents/consultationAgents.ts:250-257 | 100 minus the integer spread rounds `100 - sqrt(v)` as `Math.round(Math.max(0, ...))` does. |
| Agreement.FullAgreement | server/src/agents/consultationAgents.ts:247-257 | The score is 100 exactly when the variance is at most 1/4. |
| Agreement.EqualConfidences | server/src/agents/consultationAgents.ts:247-257 | Equal confidences score 100. |
| Agreement.AgreementScorePermutation | server/src/agents/consultationAgents.ts:247-257 | Reordering the confidences does not change the score. |
| Agreement.SumByPermutation | server/src/agents/consultationAgents.ts:248-249 | The sums in the mean and the variance do not depend on order. |
| Prompts.OpeningInjective | server/src/agents/prompts.ts:3-64 | The six opening sentences differ (already in their letters at positions 8 and 12), and each starts with "You are ". |
| Prompts.SystemPromptInjective | server/src/agents/prompts.ts:3-64 | No two personas share a system prompt. |
| Prompts.SystemPromptOpens | server/src/agents/prompts.ts:3-64 | Every system prompt starts with "You are ". |
| Prompts.SystemPrompt | server/src/agents/prompts.ts:3-64 | Definition of `AGENT_PROMPTS[p]`: the persona's opening sentence followed by its brief (`Opening` and `Brief`). `SystemPromptInjective` and `SystemPromptOpens` state its properties. |
| Prompts.Opening | server/src/agents/prompts.ts:3-64 | Definition of the opening sentence of each of the six prompts. |
| Prompts.Brief | server/src/agents/prompts.ts:4-63 | Definition of the rest of each of the six prompts, word for word. |
| Prompts.OrDefault | server/src/agents/prompts.ts:79-88 | `x \|\| d`: a present, non-empty value is kept; a missing or empty one gives the default. |
| Prompts.NumberOrDefault | server/src/agents/prompts.ts:84 | A numeric age of 0 or a missing age gives the default. Any other value gives its decimal rendering. |
| Prompts.Interpolate | server/src/agents/prompts.ts:78 | A missing value interpolates as "undefined". |
| Prompts.CaseEntry | server/src/agents/prompts.ts:77-81 | Definition of one similar-case entry: its number, diagnosis and similarity, then age, sex and location with their `Unknown` and `Not specified` defaults. `CaseEntriesAt` and `CaseEntryPlaced` state where the entries go. |
| Prompts.CaseEntriesAt | server/src/agents/prompts.ts:77-80 | Entry i is the case at position i, numbered from n + i. |
| Prompts.CaseEntryPlaced | server/src/agents/prompts.ts:77-81 | The entries appear in the joined text in input order, each after the ones before it. |
| Prompts.ConcatEntriesEmpty | server/src/agents/prompts.ts:77-81 | The joined entries are empty exactly when there are no cases. |
| Prompts.CasesTextNone | server/src/agents/prompts.ts:77-81 | "None available" exactly when the case list is missing or empty. Otherwise the text is the joined entries. |
| Prompts.CasesText | server/src/agents/prompts.ts:77-81 | Definition of the similar-cases text: the joined entries, or "None available" when the list is absent or the join is empty. `CasesTextNone` states when the default is used. |
| Prompts.ContextBlock | server/src/agents/prompts.ts:83-89 | The block is empty exactly when there is no patient context. When there is one, the block opens with the "PATIENT CONTEXT:" header. |
| Prompts.EmptyContextBlock | server/src/agents/prompts.ts:83-89 | An empty context object still gives the block, every field "Not provided". |
| Prompts.FormatInputForAgent | server/src/agents/prompts.ts:66-97 | Definition of `formatInputForAgent`: the diagnosis section, the cases text, a blank line, the context block, a blank line and the fixed instructions. `FormatMentionsDiagnosis`, `FormatCasesThenContext`, `FormatContextHeader` and `FormatEndsWithInstructions` state its layout. |
| Prompts.FormatMentionsDiagnosis | server/src/agents/prompts.ts:71-74 | The message contains the condition line, the confidence followed by `%`, and the recommendation line. |
| Prompts.FormatCasesThenContext | server/src/agents/prompts.ts:76-89 | Right after the diagnosis section come the cases text, a blank line and the context block. |
| Prompts.FormatContextHeader | server/src/agents/prompts.ts:83 | With a context, the header sits right after the cases text. |
| Prompts.FormatEndsWithInstructions | server/src/agents/prompts.ts:91-96 | The message always ends with the fixed instruction block. |
| Consultation.Acquire | server/src/agents/consultationAgents.ts:15-26 | Succeeds exactly when a client exists or the key is set. A new client uses the key and is kept. A failure leaves the slot empty and throws "ANTHROPIC_API_KEY is not configured". |
| Consultation.AcquireOnce | server/src/agents/consultationAgents.ts:16-25 | Once a client is built, later calls return it whatever the key. |
| Consultation.AcquireRetry | server/src/agents/consultationAgents.ts:16-25 | After a failure, a later call with a key succeeds. |
| Consultation.ClientSlot.GetClient | server/src/agents/consultationAgents.ts:15-26 | The new slot and the result are exactly those of `Acquire`. |
| Consultation.Ask | server/src/agents/consultationAgents.ts:42-54 | Without a client the call throws the missing-key error. Otherwise it returns what the model answers. |
| Consultation.AskSpecialist | server/src/agents/consultationAgents.ts:42-54 | One specialist's call: the model is called exactly when a client exists or the key is set, the reply is `Ask` under that persona, and the slot changes as `Acquire` says. |
| Consultation.Analyze | server/src/agents/consultationAgents.ts:56-70 | The answer carries the agent's role and name and a parsed, bounded opinion. |
| Consultation.Replies | server/src/agents/consultationAgents.ts:233-239 | Five replies, reply i being specialist i asked with the same message. |
| Consultation.JoinStep | server/src/agents/consultationAgents.ts:233-239 | Definition of adding one reply to the texts gathered so far: an earlier failure stays, and a failing reply replaces the list by its error. |
| Consultation.Gather | server/src/agents/consultationAgents.ts:233-239 | Definition of `Promise.all` over the replies taken in order, by `JoinStep`. A success has one text per reply; `GatherSuccess` and `GatherFailure` state the rest. |
| Consultation.GatherSuccess | server/src/agents/consultationAgents.ts:233-239 | The join succeeds exactly when every reply does, and then keeps their texts in order. |
| Consultation.GatherFailure | server/src/agents/consultationAgents.ts:233-239 | The join fails with the error of the first failing reply. |
| Consultation.AnalyzeAll | server/src/agents/consultationAgents.ts:61-70 | One parsed answer per profile, in order. |
| Consultation.Opinions | server/src/agents/consultationAgents.ts:167-173 | One opinion block per specialist, in order. |
| Consultation.CoordinatorInput | server/src/agents/consultationAgents.ts:163-182 | Definition of `coordinatorInput`: the original diagnosis, the opinion blocks joined by line feeds, and the fixed request. `CoordinatorInputMentions` states what it contains. |
| Consultation.CoordinatorInputMentions | server/src/agents/consultationAgents.ts:163-182 | The coordinator's message opens with the original diagnosis and contains each specialist's header and confidence line. |
| Consultation.Confidences | server/src/agents/consultationAgents.ts:247 | The confidences of the specialists, in order. |
| Consultation.Respond | server/src/agents/consultationAgents.ts:244-259 | The response carries the specialists as given, the elapsed time, and a score in [0,100]. |
| Consultation.RunSpecialists | server/src/agents/consultationAgents.ts:233-239 | The join of the replies under the five personas in order. Without a client no call is made. |
| Consultation.RunCoordinator | server/src/agents/consultationAgents.ts:184-217 | The coordinator's step, asked only when a client exists. |
| Consultation.RunConsultation | server/src/agents/consultationAgents.ts:221-264 | The whole consultation on the formatted message, with the personas called in order and the client slot kept. |
| Consultation.RunOn | server/src/agents/consultationAgents.ts:233-263 | On a given formatted message, the outcome and the calls are those of `Consult` and `Calls`, and the slot changes as `Acquire` says. |
| Consultation.Conclude | server/src/agents/consultationAgents.ts:244-259 | Definition of the coordinator's step once every specialist has answered: the coordinator's error, or the response built by `Respond`. |
| Consultation.Consult | server/src/agents/consultationAgents.ts:227-263 | Definition of the whole consultation: the first failing specialist's error, else `Conclude` over the parsed answers. `ConsultSpecialists`, `ConsultAllOrNothing` and `SpecialistFailure` state its outcomes. |
| Consultation.Calls | server/src/agents/consultationAgents.ts:233-244 | Definition of the personas the model is called under: none without a client, else the five specialists, then the coordinator when they all answered. `NoKeyNoCalls` states the first case. |
| Consultation.ConsultSpecialists | server/src/agents/consultationAgents.ts:233-257 | A finished consultation has exactly five specialists in the fixed order. Each is the parsed reply under its persona, and the score is in [0,100]. |
| Consultation.ConsultAllOrNothing | server/src/agents/consultationAgents.ts:233-263 | Succeeds exactly when the client exists, all five specialists answer and then the coordinator answers. |
| Consultation.SpecialistFailure | server/src/agents/consultationAgents.ts:233-263 | The first failing specialist's error is the outcome, whatever the coordinator would say. The coordinator is never called. |
| Consultation.NoKeyNoCalls | server/src/agents/consultationAgents.ts:15-26 | Without a key the consultation throws the missing-key error and no model is called. |
| Embedding.Normalized | server/src/server.ts:72-85 | The result has exactly 1024 values. |
| Embedding.NormalizeForServer | server/src/server.ts:62-85 | The step-by-step reassignment of `embedding` gives the normalised vector. |
| Embedding.NormalizedDoubles | server/src/server.ts:72-76 | 512 values are kept in order and followed by their scaled copies in the same order. |
| Embedding.NormalizedPads | server/src/server.ts:79-80 | A shorter vector (not 512 long) is kept as a prefix and zero-padded. |
| Embedding.NormalizedCuts | server/src/server.ts:81-82 | A longer vector keeps its first 1024 values. |
| Embedding.NormalizedIdempotent | server/src/server.ts:72-85 | Normalising twice changes nothing. |
| Server.DiagnosisMap | server/src/server.ts:131-167 | Definition of the seven entries of the diagnosis map, with their names, colours and advice word for word. `DiagnosisCodes` states its keys. |
| Server.LookUp | server/src/server.ts:171 | Definition of `diagnosisMap[code] || diagnosisMap['nv']`. `AnalysisOfTop` and `UnknownCodeShownAsNevus` state the fallback. |
| Server.NoMatch | server/src/server.ts:115-123 | Definition of the fixed reply when the index finds nothing. `Analysis` states when it is given. |
| Server.DiagnosisCode | server/src/server.ts:170 | A code is never empty. |
| Server.DiagnosisCodes | server/src/server.ts:131-167 | The map knows exactly the seven codes nv, bkl, df, vasc, bcc, akiec and mel. |
| Server.Percent | server/src/server.ts:128 | `Math.round(x * 100)`: the integer p with p <= 100x + 1/2 < p + 1. |
| Server.PercentBounds | server/src/server.ts:128 | A score in [0,1] gives a percentage in [0,100]. |
| Server.CaseOf | server/src/server.ts:174-181 | A similar case carries the match id, the rounded score (0 when missing) and the match's diagnosis. |
| Server.Shape | server/src/server.ts:174-181 | One case per match, in order. |
| Server.TopCases | server/src/server.ts:174 | The first min(5, n) matches, in rank order. |
| Server.Analysis | server/src/server.ts:115-194 | The fixed "Unable to determine" reply exactly when the matches are missing or empty. Otherwise the reply has the top match's rounded confidence, its id, code and raw score as metadata, and the top five cases. |
| Server.AnalysisOfTop | server/src/server.ts:169-193 | Name, colour and advice are those of the looked-up code. A missing or empty diagnosis gives code "nv". A present code is reported as found. |
| Server.UnknownCodeShownAsNevus | server/src/server.ts:171 | An unknown code is shown with nv's name, colour and advice, while the metadata reports the code itself. |
| Server.SimilarCasesRanked | server/src/server.ts:174-181 | Case i is match i, at most five cases are returned, and an unscored match is 0% similar. |
| Server.WordEnd | server/src/server.ts:215 | The end of the `\w` run that starts at i. |
| Server.StripDataUrl | server/src/server.ts:215 | The result is a suffix of the input. |
| Server.StripsDataUrl | server/src/server.ts:215 | A leading `data:image/<word>;base64,` is removed and the rest is kept. |
| Server.StripChangesOnlyDataUrls | server/src/server.ts:215 | A string that changes had such a prefix at its very start; every other string is unchanged. |
| Server.AnalysisReply | server/src/server.ts:183-202 | A finished search gives the analysis as JSON. A thrown error gives 500 "Analysis failed" with the error's message. |
| Server.AnalyzeUpload | server/src/server.ts:94-113 | Definition of `POST /api/analyze`: 400 without a file, else the reply for searching the file. `NoImageRefused` states the refusal. |
| Server.AnalyzeBase64 | server/src/server.ts:206-215 | Definition of `POST /api/analyze-base64`: 400 without a non-empty image, else the reply for searching it after the prefix strip. `NoImageRefused` and `Base64Searched` state both branches. |
| Server.NoImageRefused | server/src/server.ts:96-98 | For both analysis routes, 400 "No image provided" exactly when the upload is missing or the base64 image is missing or empty. |
| Server.Base64Searched | server/src/server.ts:208-215 | A non-empty image is searched after the prefix strip. |
| Server.ConsultationReply | server/src/server.ts:315-323 | The consultation as JSON, or 500 "Consultation failed" with the error's message. |
| Server.HandleConsultation | server/src/server.ts:295-324 | Without a diagnosis result the reply is 400, no model is called and the client slot is untouched. Otherwise it is the consultation's reply. |
| Server.ModelCache.Load | server/src/server.ts:26-39 | A cached model is returned as it is. Otherwise the built model is returned and kept, and a failed build leaves the cache empty. |
| Server.GenerateEmbedding | server/src/server.ts:42-86 | The load error, the model error, or the normalised vector of exactly 1024 values. |
| Vectorize.Retry | server/src/scripts/vectorizeDataset.ts:59-83 | Definition of the retry loop from attempt k on: the attempt's outcome when it succeeds, is the third, or is not a rate limit; else a wait of 5000·2^k ms and the next attempt. `RetryFacts` states its properties. |
| Vectorize.LoadWithRetries | server/src/scripts/vectorizeDataset.ts:59-83 | The retry loop's outcome and its waits are those of `Retry`. |
| Vectorize.RetryFacts | server/src/scripts/vectorizeDataset.ts:59-83 | At most three attempts. Every attempt but the last failed with a rate limit and was followed by a wait of 5000·2^j ms. The last attempt is the outcome, and a failure there was the third attempt or was not a rate limit. |
| Vectorize.PersistentRateLimit | server/src/scripts/vectorizeDataset.ts:72-78 | Three rate limits wait 5000 and 10000 ms, and the third error is thrown. |
| Vectorize.OtherErrorThrown | server/src/scripts/vectorizeDataset.ts:79-81 | Any other error is thrown at once, without a wait. |
| Vectorize.ModelLoader.Load | server/src/scripts/vectorizeDataset.ts:39-92 | The cached model, else the load in flight, else a new load. Success caches the model and clears the slot. A failure stays in the slot, so every later load gives the same outcome. |
| Vectorize.NormalizeForVectorizer | server/src/scripts/vectorizeDataset.ts:118-134 | The result is the same normalised vector as the server's. |
| Vectorize.GenerateEmbedding | server/src/scripts/vectorizeDataset.ts:95-139 | The embedding from the loader's current outcome, with the loader's outcome unchanged. |
| Vectorize.Nulled | server/src/scripts/vectorizeDataset.ts:219-262 | One entry per record, present exactly when the record became a vector. |
| Vectorize.ProcessBatch | server/src/scripts/vectorizeDataset.ts:219-262 | The batch's results, failures and skips are those of its records' outcomes. |
| Vectorize.RecordOutcome | server/src/scripts/vectorizeDataset.ts:220-260 | Definition of what becomes of one record: skipped without its image, failed when the embedding throws or has the wrong length, else a vector with its metadata. `RecordFates` states the cases. |
| Vectorize.MetadataOf | server/src/scripts/vectorizeDataset.ts:241-249 | Definition of the metadata stored with a vector. `MetadataDefaults` states its defaults. |
| Vectorize.RecordFates | server/src/scripts/vectorizeDataset.ts:223-259 | A record is skipped exactly when its image is missing. It fails exactly when the load or the model throws, so the length check never fires. A vector keeps the image id, the metadata and 1024 values. |
| Vectorize.MetadataDefaults | server/src/scripts/vectorizeDataset.ts:241-255 | Empty age, sex or localization become "unknown". dx and dx_type are copied as diagnosis and diagnosis_type, and the id is the image id. |
| Vectorize.Upload | server/src/scripts/vectorizeDataset.ts:264-276 | The end of a batch is one `BatchStep`. |
| Vectorize.RunBatch | server/src/scripts/vectorizeDataset.ts:212-276 | The loop body for batch k, which exists: its result is the `BatchStep` of that batch's outcomes with upload k + 1, and the loader's outcome is unchanged. |
| Vectorize.Vectorize | server/src/scripts/vectorizeDataset.ts:204-280 | The counters and upserts after the loop are those of all ceil(n/20) batch steps over the records' outcomes. |
| Vectorize.BatchCount | server/src/scripts/vectorizeDataset.ts:215 | Definition of `Math.ceil(records.length / 20)`. |
| Vectorize.Batch | server/src/scripts/vectorizeDataset.ts:212-213 | Definition of `records.slice(i, i + 20)` for `i = 20 k`. `BatchesPartition` states that the batches cover the records in order. |
| Vectorize.BatchStep | server/src/scripts/vectorizeDataset.ts:219-276 | Definition of one batch's bookkeeping: the callbacks' failures and skips, then the upsert of the valid vectors when there is one, adding them to processed or failed. `StepFacts` states its effect. |
| Vectorize.RunAfter | server/src/scripts/vectorizeDataset.ts:204-280 | Definition of the state after the first k batches, by `BatchStep`. `TallyAfter` and `AllCounted` state its counters. |
| Vectorize.BatchesBound | server/src/scripts/vectorizeDataset.ts:212-215 | Batch k exists exactly when 20k is less than n. |
| Vectorize.BatchesPartition | server/src/scripts/vectorizeDataset.ts:212-215 | The batches concatenate to the records in order, and there are ceil(n/20) of them. |
| Vectorize.OutcomesOfBatch | server/src/scripts/vectorizeDataset.ts:213-220 | The outcomes of a batch are the batch of the outcomes. |
| Vectorize.StepFacts | server/src/scripts/vectorizeDataset.ts:223-276 | One batch adds its size to processed + failed + skipped. It adds at most one upsert, which is non-empty, and keeps the earlier ones. |
| Vectorize.TallyAfter | server/src/scripts/vectorizeDataset.ts:205-280 | After k batches, processed + failed + skipped = min(20k, n). |
| Vectorize.AllCounted | server/src/scripts/vectorizeDataset.ts:205-280 | At the end every record is counted exactly once. |
| Vectorize.UpsertsNonEmpty | server/src/scripts/vectorizeDataset.ts:265-269 | An upsert is issued only with at least one vector. |
| Vectorize.OutcomesCounted | server/src/scripts/vectorizeDataset.ts:223-265 | Valid vectors, failures and skips add up to the batch size. |
| Vectorize.PresentValues | server/src/scripts/vectorizeDataset.ts:265 | The valid vectors are exactly the non-null results. |
| Vectorize.CountsAppend | server/src/scripts/vectorizeDataset.ts:223-259 | One more record adds its result and one to exactly one of its counters. |

## Left out

- Network and foreign calls become parameters: the model call `messages.create`, `index.query` and `upsert`, `fs.existsSync`, the CSV parser, `sharp`, the transformers pipeline, `Buffer.from(..., 'base64')`, and the extraction of the pipeline's output (`data`, `Array.flat`, `Object.values`).
- Floating point:
  - Scores and confidences are exact reals or integers. `Math.round(x * 100)` is floor(100x + 1/2) on exact reals, without binary rounding error.
  - Agreement.AgreementScore does not call a square root. It computes the least d with variance <= (d + 1/2)^2, and `Agreement.AgreementScoreOfRoot` proves this equals `Math.round(Math.max(0, 100 - sqrt(variance)))` for the exact root.
  - The 0.1 scaling of embeddings is the abstract `scale`.
- Concurrency: `Promise.all` over the five specialists is sequential, in profile order. A failure rejects with the error of the first failing specialist in that order, whereas JavaScript takes the first failure in time.
- Vectorize.ProcessBatch: the callbacks of one batch run one after another. With concurrent callbacks, the counters would be the same and the in-flight model load would be shared; the loader's `Outcome` invariant states that every caller gets the same result.
- Server.ModelCache.Load: the server's cache has no in-flight promise, so two concurrent first requests would each build a pipeline. The model has no concurrency, so it cannot show this.
- Time: `Date.now()` gives `processingTime`, which is a parameter. The retry waits of `setTimeout` are recorded as values. The 100 ms pause between batches is left out.
- Consultation.Analyze: a specialist's reply is parsed after all five have answered, not inside each `analyze` call. Parsing cannot throw, so the outcome is the same.
- Process and environment: `dotenv`, `process.exit`, environment reads (other than the API key check), console logging, the `/health` route, the server start-up, and the vectorizer's index creation, statistics and CSV reading.
- The nested similar-case `metadata` of `server/src/agents/types.ts` is not modelled. The model follows the flat age, sex and localization fields that the server produces and the prompt reads.
- `LookUp` looks a code up in a Dafny map. JavaScript object keys inherited from the prototype (for example "constructor") are not modelled.
- The response content is the text of the first block, or "" for another block type (`ReplyText`). The SDK's other response fields are left out.
- The React front end is not part of this model.
