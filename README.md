# Clausia compliance core in Dafny

This project models the parts of the Clausia privacy-compliance app that make decisions:

- **Compliance scan** (`run-compliance-scan`). The scan function:
  - picks a prompt by scan type;
  - cuts a brace-delimited span out of the AI reply;
  - reads its `findings`;
  - tallies a four-bucket severity summary, falling back to one synthetic finding when parsing or tallying throws;
  - projects the recommendations;
  - drives the `compliance_scans` row from `running` to `completed`.
- **Browser extension.** The background script keeps an issue log, fed by cookie and request rules and emptied by `clearIssues`. The devtools panel counts issues by severity and lists them.
- **Compliance mapping page.** Its form edits the data-type and clause lists, validates and saves a mapping, and normalises stored mappings into display flows.
- **Dashboard.** It adds up stored severity summaries, counts active policies, and chooses wording, labels and badges.

Modules:

- `Wrappers`, `Text`, `Json` and `Counting` hold shared helpers:
  - `Option`;
  - JavaScript string operations: `trim`, first-occurrence `replace`, `includes` and `indexOf`;
  - a JSON value with JavaScript truthiness and member lookup;
  - occurrence counts.
- `ScanPrompt`, `ScanAnalysis` and `ScanHandler` model the scan function.
- `ExtensionBackground` and `ExtensionPanel` model the extension.
- `ComplianceMapping` and `EnhancedDashboard` model the two pages.

Modelling choices:

- Parts that mutate state are classes whose methods are proved against pure step functions:
  - the scan table;
  - the extension's background state;
  - the mapping form.
- The loops become methods with loop invariants:
  - the severity tally in the scan function;
  - the severity count in the panel.
- `JSON.parse` is an input `parse: string -> Option<Json>`, where `None` means it throws.
- The following are inputs too:
  - the AI gateway reply;
  - the Supabase auth lookup;
  - the insert and update errors;
  - request hostnames;
  - timestamps.

Where the code behaves surprisingly, the model follows it:

- Text with no `{`…`}` span yields zero findings, not the fallback.
- A tally that throws part-way keeps the counts made so far next to the fallback's `medium = 1`, so the summary can count more issues than there are findings (`ScanAnalysis.PartialTallyOutlivesFallback`).
- The stored copy of the extension's issue log is only ever written with `[]`, and `getIssues` answers from it. The panel therefore never shows an appended issue (`ExtensionPanel.PanelShowsNothingAppended`).
- No code path writes the scan status `failed`. An AI or update error leaves the row `running`.

## Model

| member | source | states |
|---|---|---|
| ScanPrompt.EmptyPromptIffUnknownType | supabase/functions/run-compliance-scan/index.ts:71-135 | the user prompt is empty exactly when the scan type is none of `code_scan`, `policy_drift`, `live_scan` |
| ScanPrompt.CodeScanEmbedsContext | supabase/functions/run-compliance-scan/index.ts:73-97 | the code-scan prompt carries the code context, or "No code context provided" when the context is empty |
| ScanPrompt.CodeScanPromptInjective | supabase/functions/run-compliance-scan/index.ts:73-97 | two different non-empty code contexts give different code-scan prompts |
| ScanPrompt.LiveScanNamesTargetIffGiven | supabase/functions/run-compliance-scan/index.ts:109-110 | the live-scan prompt begins with its intro followed by " for: " and the context exactly when the context is non-empty |
| ScanPrompt.PolicyDriftIgnoresContext | supabase/functions/run-compliance-scan/index.ts:98-108 | the policy-drift prompt is the same fixed text whatever the context |
| ScanAnalysis.BraceSpan | supabase/functions/run-compliance-scan/index.ts:166 | a span exists iff some `{` precedes some `}`; it starts at the first `{` and ends just after the last `}` |
| ScanAnalysis.NoSpanNoFindings | supabase/functions/run-compliance-scan/index.ts:161-169 | text without a span gives no findings and an all-zero summary, never the fallback |
| ScanAnalysis.ParsedFindingsVerbatim | supabase/functions/run-compliance-scan/index.ts:167-176 | a parsed object whose `findings` is an array without nulls gives exactly that array, in order, and its tally |
| ScanAnalysis.FalsyFindingsFieldGivesNone | supabase/functions/run-compliance-scan/index.ts:169 | a parsed value with a missing or falsy `findings` field gives no findings and an all-zero summary |
| ScanAnalysis.EmptyFindingsIff | supabase/functions/run-compliance-scan/index.ts:161-188 | findings are empty exactly when there is no span or the parsed findings are empty; empty findings go with a zero summary |
| ScanAnalysis.SummaryCountsExactMatches | supabase/functions/run-compliance-scan/index.ts:172-176 | each bucket counts the findings whose severity is exactly that lower-case key |
| ScanAnalysis.SummaryTotalCountsRecognised | supabase/functions/run-compliance-scan/index.ts:172-176 | the summary total counts the findings with a recognised severity, so it is at most the number of findings |
| ScanAnalysis.TallySeverities | supabase/functions/run-compliance-scan/index.ts:172-176 | the `forEach` loop computes the specified tally; it throws exactly when some finding is null |
| ScanAnalysis.AnalyzeText | supabase/functions/run-compliance-scan/index.ts:161-188 | the try/catch block yields the findings and summary of the specification `AnalysisOf` |
| ScanAnalysis.ThrowGivesFallback | supabase/functions/run-compliance-scan/index.ts:178-188 | a throwing parse or tally gives exactly the one fallback finding; `medium` becomes 1 and the other buckets keep what was counted |
| ScanAnalysis.FallbackContents | supabase/functions/run-compliance-scan/index.ts:180-186 | the fallback has the fixed title, medium severity, location and recommendation, and a description equal to the first min(500, length) characters |
| ScanAnalysis.SummaryWithinFindings | supabase/functions/run-compliance-scan/index.ts:161-188 | unless the tally throws part-way, the summary total is at most the number of findings |
| ScanAnalysis.PartialTallyOutlivesFallback | supabase/functions/run-compliance-scan/index.ts:172-188 | findings `[{severity: "high"}, null]` give one fallback finding but a summary of high 1 and medium 1 |
| ScanAnalysis.FindingsNeverNull | supabase/functions/run-compliance-scan/index.ts:169-188 | no finding that survives the analysis is null |
| ScanAnalysis.Recommendations | supabase/functions/run-compliance-scan/index.ts:197 | one entry per finding, in order: that finding's `recommendation` member |
| ScanHandler.ScanTable.Insert | supabase/functions/run-compliance-scan/index.ts:55-64 | appends a `running` row for the user, policy and scan type, and returns its id |
| ScanHandler.ScanTable.Complete | supabase/functions/run-compliance-scan/index.ts:191-200 | sets that row to `completed` with the results, and changes no other row |
| ScanHandler.HandleScanRequest | supabase/functions/run-compliance-scan/index.ts:15-233 | the handler's reply and the new table agree with the specification `ScanOutcome` |
| ScanHandler.RejectedCallerLeavesNoRow | supabase/functions/run-compliance-scan/index.ts:18-48 | a missing key, a missing header or a failed user lookup gives a 500 with its message, and no row is written |
| ScanHandler.BearerTokenIsLookedUp | supabase/functions/run-compliance-scan/index.ts:24-48 | with a key and a "Bearer " header, the caller is the user the token resolves to, if any |
| ScanHandler.LifecycleWritesRunningOrCompleted | supabase/functions/run-compliance-scan/index.ts:55-202 | a request adds at most one row, whose status is `running` or `completed`; earlier rows are unchanged; every failure is a 500 |
| ScanHandler.CompletedIffSuccess | supabase/functions/run-compliance-scan/index.ts:191-214 | the reply is a success exactly when the new row is `completed`; the row then holds the reply's findings, summary, recommendations and time |
| ScanHandler.AiErrorLeavesRowRunning | supabase/functions/run-compliance-scan/index.ts:153-155 | an AI HTTP error gives a 500 "AI API error: status" and leaves the new row `running` |
| ScanHandler.UpdateErrorLeavesRowRunning | supabase/functions/run-compliance-scan/index.ts:191-202 | a failed update gives a 500 with the error's message and leaves the row `running` |
| ExtensionBackground.CookieRules | public/chrome-extension/background.js:5-31 | a removed cookie adds nothing; otherwise one high issue for a non-secure dot-domain cookie, then one medium issue for a missing or `no_restriction` SameSite |
| ExtensionBackground.TrackingRule | public/chrome-extension/background.js:34-57 | a request adds one medium tracking issue iff its hostname contains one of the four tracking domains, and nothing otherwise |
| ExtensionBackground.StoredCopyStaysEmpty | public/chrome-extension/background.js:60-73 | the stored copy stays `[]` through any events, so every `getIssues` reply is empty |
| ExtensionBackground.OnlyAppendsWithoutClear | public/chrome-extension/background.js:11-53 | without a clear, the issue list only grows at the end and its existing entries are unchanged |
| ExtensionBackground.Background.OnCookieChanged | public/chrome-extension/background.js:5-31 | the in-memory list becomes the step function's list for the cookie event |
| ExtensionBackground.Background.OnBeforeRequest | public/chrome-extension/background.js:34-57 | the in-memory list becomes the step function's list for the request event |
| ExtensionBackground.Background.OnMessage | public/chrome-extension/background.js:63-74 | the state and reply follow the step function: clear empties both lists and replies success; `getIssues` replies with `[]` |
| ExtensionPanel.CountSeverities | public/chrome-extension/panel.js:23-28 | the counting loop yields, per bucket, the number of issues with exactly that severity |
| ExtensionPanel.CountsWithinIssues | public/chrome-extension/panel.js:24-28 | the three counters add up to the number of critical, high or medium issues, at most the number of issues |
| ExtensionPanel.ListShowsEveryIssue | public/chrome-extension/panel.js:34-49 | the empty state is shown exactly for no issues; otherwise there is one entry per issue |
| ExtensionPanel.DisplayIssues | public/chrome-extension/panel.js:16-49 | the view shows the counts and the entry list of the issues |
| ExtensionPanel.RefreshIssues | public/chrome-extension/panel.js:2-8 | the view is redrawn only for a response carrying `issues`, and is otherwise left as it was |
| ExtensionPanel.PanelShowsNothingAppended | public/chrome-extension/panel.js:2-8 | after any events, the panel's refresh shows zero counts and the empty state |
| ComplianceMapping.AddKeepsClean | src/pages/ComplianceMapping.tsx:74-86 | a blank draft changes nothing; otherwise the trimmed draft is appended after the earlier items and the draft is cleared; the list stays trimmed and non-blank |
| ComplianceMapping.WithoutIndexDeletesOne | src/pages/ComplianceMapping.tsx:88-94 | removing index i deletes exactly element i and keeps the order; an index out of range changes nothing |
| ComplianceMapping.RemoveKeepsClean | src/pages/ComplianceMapping.tsx:88-94 | removing keeps the list trimmed and non-blank |
| ComplianceMapping.SaveValidation | src/pages/ComplianceMapping.tsx:96-113 | save is refused exactly for a blank name or no data types, with the name message first |
| ComplianceMapping.SavedRowAndReset | src/pages/ComplianceMapping.tsx:115-140 | the inserted row holds the signed-in user, the name, the description as typed (null when empty), `{dataTypes}`, the clauses and `compliant`; the form is then reset and the dialog closed |
| ComplianceMapping.MappingForm.AddDataType | src/pages/ComplianceMapping.tsx:74-79 | the data-type list and its draft change as the add step says, and nothing else changes |
| ComplianceMapping.MappingForm.AddClause | src/pages/ComplianceMapping.tsx:81-86 | the clause list and its draft change as the add step says, and nothing else changes |
| ComplianceMapping.MappingForm.RemoveDataType | src/pages/ComplianceMapping.tsx:88-90 | the data-type list loses the given index, and nothing else changes |
| ComplianceMapping.MappingForm.RemoveClause | src/pages/ComplianceMapping.tsx:92-94 | the clause list loses the given index, and nothing else changes |
| ComplianceMapping.MappingForm.SaveFlow | src/pages/ComplianceMapping.tsx:96-153 | the form state and result follow the specification `Save` |
| ComplianceMapping.FlowClauses | src/pages/ComplianceMapping.tsx:194-196 | an array of clauses is kept; a truthy non-array becomes a one-element list; a falsy value becomes empty |
| ComplianceMapping.DataFlows | src/pages/ComplianceMapping.tsx:187-206 | with no mappings, the four default flows; otherwise one flow per mapping in order, icon and colour by index mod 4 |
| ComplianceMapping.FlowStylesCycle | src/pages/ComplianceMapping.tsx:200-203 | each flow has the icon and colour of one of the four styles, and both repeat every four flows |
| ComplianceMapping.DataTypesFallbacks | src/pages/ComplianceMapping.tsx:190-201 | data types come from `dataTypes`, else `data_types`, else none; a truthy non-array `dataTypes`, a non-array `data_types` reached as the fallback, and a non-object flow all give none |
| ComplianceMapping.SavedMappingShowsBack | src/pages/ComplianceMapping.tsx:187-205 | a saved mapping is displayed with the form's name, data types and clauses |
| EnhancedDashboard.ReduceAddsScanTotals | src/pages/EnhancedDashboard.tsx:76-79 | the reduce from any accumulator adds the per-scan totals to it |
| EnhancedDashboard.TotalIssuesIsSumOfScanTotals | src/pages/EnhancedDashboard.tsx:76-79 | total issues equal the sum of the per-scan `totalFindings` |
| EnhancedDashboard.ScanWithoutSummaryAddsNothing | src/pages/EnhancedDashboard.tsx:77 | a scan without a severity summary contributes 0, wherever it stands |
| EnhancedDashboard.ActivePolicies | src/pages/EnhancedDashboard.tsx:81 | at most the number of policies; equal iff all are `active`; 0 iff none is |
| EnhancedDashboard.ActiveCountMatchesBadges | src/pages/EnhancedDashboard.tsx:183 | the active count equals the number of policies shown with the default badge |
| EnhancedDashboard.IssueWord | src/pages/EnhancedDashboard.tsx:220 | "issue" exactly for 1, "issues" otherwise |
| EnhancedDashboard.TypeLabelReplacesFirstUnderscore | src/pages/EnhancedDashboard.tsx:218 | a label without underscores is unchanged; otherwise only the first underscore becomes a space, so the length is kept and there is one underscore fewer |
| EnhancedDashboard.LabelAtFirstUnderscore | src/pages/EnhancedDashboard.tsx:172 | when the first underscore is at position i, the label is the type with exactly position i turned into a space |
| EnhancedDashboard.ScanBadges | src/pages/EnhancedDashboard.tsx:223-232 | a Critical or High badge appears iff its count is positive, Critical first; no other badge and no duplicate appears |
| EnhancedDashboard.ScanRowVariant | src/pages/EnhancedDashboard.tsx:238 | the row a scan request writes gets the default badge exactly when the request succeeded |
| Text.TrimEmptyIff | src/pages/ComplianceMapping.tsx:75 | a trimmed string is empty exactly when every character is JavaScript whitespace |
| Text.TrimIdempotent | src/pages/ComplianceMapping.tsx:76 | trimming an already trimmed string changes nothing |
| Text.ReplacePrefixWithNothing | supabase/functions/run-compliance-scan/index.ts:31 | removing the first "Bearer " from "Bearer " + token leaves the token |
| Json.Or | supabase/functions/run-compliance-scan/index.ts:169 | JavaScript's or-operator yields its left operand when that is present and truthy, and its right operand otherwise |

## Left out

- HTTP serving, CORS headers, `OPTIONS` requests and a failing `req.json()` are not modelled. The request arrives as a `ScanRequest`.
- The Supabase client, the auth lookup, the AI gateway `fetch` and `JSON.parse` are inputs to the model. The model does not decide how they fail. Environment variables are inputs too.
- An AI reply whose `choices[0].message.content` is missing or not a string is not modelled. The reply text is a string.
- A `codeContext` that is null or not a string, and a non-string `Authorization` header, are not modelled. Both are strings, with "" for absent.
- `$` patterns in replacement strings are not modelled. No replacement in the source uses one.
- Strings are sequences of characters, not UTF-16 code units. `substring(0, 500)` may differ for characters outside the Basic Multilingual Plane.
- JavaScript's `in` also accepts prototype keys such as `toString`; the model matches only the listed buckets. The tally and the panel count also ignore coercion of non-string severities, such as a one-element array.
- A stored severity summary missing a bucket gives NaN in the dashboard. The model assumes all four buckets are present.
- Row ids are positions in the table rather than database-generated uuids. `completed_at` is an input string.
- URL parsing is not modelled. A request event carries its hostname.
- DOM rendering, the 2-second polling, Chrome listener registration, `Date.now()` and the asynchronous `storage.local.get` callback are not modelled. Timestamps are parameters, and replies are immediate.
- `clearIssues` in the panel only sends a message and refreshes. Its effect is `ExtensionBackground.Background.OnMessage`.
- Loading mappings, scans and policies, and database ordering and limits, are not modelled. `loadMappings` after a save is not modelled either.
- The save button disabled while `saving` is true, and the loading spinners, are not modelled. Toasts appear only as the refusal message of `Save`.
- Logging is not modelled: the `console.log` and `console.error` calls. Neither are two reply fields: `success: true` in the success reply and `details` (the error's stack) in the 500 reply.
