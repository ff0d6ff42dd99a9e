# Refine.new entitlement, picker, admin table and rebranding logic in Dafny

This project models the decision-making core of the Refine.new web front-end and proves
properties of it:

- **Usage** — the client-side entitlement ledger (`app/lib/stores/usage.ts`). It holds one
  record: plan tier, free AI credits, total credits granted, billing period, and optional
  subscription and customer ids. The record is persisted to browser storage after every
  change. The store is a class whose mutators are proved against pure specification
  functions: `Merge` (the `{...current, ...partial}` spread) and the partial each mutator
  builds. The ledger invariant (credits within the grant, grant equal to the plan's
  allotment, non-empty period) is proved to survive decrements, plan changes and period
  resets.
- **Gate** — the server-side `canUseAI(userId)` of `app/lib/supabase/client.ts`. It is a
  pure three-way decision over the fetched profile row. A failed fetch is rethrown and
  never turned into a decision.
- **Admin** — the user table of `app/components/admin/UserTable.tsx`:
  - filtering by case-insensitive e-mail search and plan, then sorting by a chosen column;
  - the plan badge colour;
  - the header click that flips or resets the sort.
- **Selector** — the provider and model comboboxes of `app/components/chat/ModelSelector.tsx`:
  - the filtered candidate lists;
  - keyboard navigation with wrap-around;
  - commit by keyboard or click, including the provider-to-first-model cascade;
  - the "free models only" toggle;
  - the outside-click listener;
  - the effects that reset focus and the free toggle;
  - the self-heal that repairs a selection whose provider is no longer enabled.

  The component is a class: its `useState` cells and its props are fields. Each event
  handler is a method that applies the handler's updates and then the effects they
  trigger.
- **Branding** — the rebranding script `scripts/update-branding.js`. `findFiles` is a loop
  with recursion over an input directory tree, proved equal to a depth-first
  specification. That specification is proved sound and complete with respect to
  reachability. `replaceInFile` is a loop over the replacement list, proved equal to the
  list applied in order; the `changed` flag is proved to hold exactly when some pattern
  matched. The whole script is proved to apply every replacement, in order, to each found
  file that can be read and is found once, and to leave every file it does not find alone.
- **Text**, **Seqs**, **Wrappers** — the string and list operations the source relies on:
  - `toLowerCase`, `includes`, a global literal `replace`, decimal number formatting;
  - `Array.prototype.filter`;
  - `Option` and `Result`.

## Model

| member | source | states |
|---|---|---|
| Usage.Allot | Refine.new/app/lib/stores/usage.ts:62-66 | the per-plan grant: 0 exactly for Basic, 150 for Standard, 750 for Premium |
| Usage.DefaultUsage | Refine.new/app/lib/stores/usage.ts:13-19 | Basic, no credits, no ids; the period is 30 days plus the time between the two clock reads, hence valid when the clock does not go backwards |
| Usage.Merge | Refine.new/app/lib/stores/usage.ts:37-39 | every key present in the partial wins and every absent key keeps the current value, field by field |
| Usage.MergeNoChange | Refine.new/app/lib/stores/usage.ts:39 | an empty partial leaves the record unchanged |
| Usage.Decremented | Refine.new/app/lib/stores/usage.ts:48-59 | one `decrementUsage()` on a record: one credit fewer when a credit is left, otherwise the record as it was; its properties are in `DecrementedTimesSpec` and `GateClosedMeansNoCredit` |
| Usage.DecrementedTimesSpec | Refine.new/app/lib/stores/usage.ts:48-59 | after k decrements the credits are max(remaining - k, 0), nothing else in the record moves, and the ledger invariant survives |
| Usage.SetPlanValid | Refine.new/app/lib/stores/usage.ts:61-80 | a plan change lands in a valid record from any record |
| Usage.SetPlanGrants | Refine.new/app/lib/stores/usage.ts:61-80 | `setPlan('standard')` leaves 150 remaining of 150, and `setPlan('premium')` 750 of 750, from any record |
| Usage.ResetValid | Refine.new/app/lib/stores/usage.ts:82-99 | a period reset lands in a valid record and is idempotent for a fixed clock reading |
| Usage.CanUseAI | Refine.new/app/lib/stores/usage.ts:101-104 | `canUseAI()`: Basic, or a paid plan with a free credit left; tied to the displayed text by `MessageMatchesGate` and to the ledger by `GateClosedMeansNoCredit` |
| Usage.UsageMessage | Refine.new/app/lib/stores/usage.ts:106-118 | Basic shows the own-keys text; a paid plan shows the credit count with its suffix while credits remain, else the exhausted text |
| Usage.MessageMatchesGate | Refine.new/app/lib/stores/usage.ts:101-118 | the exhausted text is shown exactly when `canUseAI()` is false, and a shown count consists of digits that read back as the remaining credits |
| Usage.GateClosedMeansNoCredit | Refine.new/app/lib/stores/usage.ts:48-59 | on a valid record a closed gate means a paid plan with zero credits, where a decrement changes nothing |
| Usage.InitUsage | Refine.new/app/lib/stores/usage.ts:23-35 | outside server rendering a stored parseable record is used as is; server rendering, an empty slot or a parse error give the default |
| Usage.ReloadRoundTrip | Refine.new/app/lib/stores/usage.ts:28-44 | outside server rendering, a store in sync with its slot, as every mutator leaves it, reloads at the next startup the record it holds |
| Usage.UsageStore.constructor | Refine.new/app/lib/stores/usage.ts:21-35 | the store starts from the startup record and does not write the slot |
| Usage.UsageStore.UpdateUsage | Refine.new/app/lib/stores/usage.ts:37-46 | the new record is the merge; the slot then holds it unless server-rendering, when the slot is untouched |
| Usage.UsageStore.DecrementUsage | Refine.new/app/lib/stores/usage.ts:48-59 | returns true exactly when a credit was left; then one credit is spent and persisted, otherwise record and slot are unchanged; under server rendering the slot is never written; the invariant is kept |
| Usage.UsageStore.SetPlan | Refine.new/app/lib/stores/usage.ts:61-80 | plan, full grant, a 30-day period from now, both ids as given (absent ids overwrite); the result is valid, opens the gate and is persisted, except under server rendering, where the slot is untouched |
| Usage.UsageStore.ResetUsageForNewPeriod | Refine.new/app/lib/stores/usage.ts:82-99 | full grant for the unchanged plan, a fresh 30-day period from now, ids kept; valid, gate open, persisted, except under server rendering, where the slot is untouched |
| Gate.Decide | Refine.new/app/lib/supabase/client.ts:83-91 | allowed exactly for Basic or usage below the limit; the reason is basic_plan exactly for Basic and within_limit exactly for a paid plan under its limit |
| Gate.CanUseAI | Refine.new/app/lib/supabase/client.ts:80-92 | a fetch error is propagated unchanged; a fetched profile gets the decision |
| Gate.BasicIgnoresCounters | Refine.new/app/lib/supabase/client.ts:83-85 | a Basic profile is allowed whatever its counters |
| Gate.MoreUsageNeverOpens | Refine.new/app/lib/supabase/client.ts:87-91 | raising the usage count of a refused profile keeps it refused |
| Admin.Compare | Refine.new/app/components/admin/UserTable.tsx:22-31 | the comparator answers 1 or -1, and 1 exactly when the first row's key is strictly later in the chosen order |
| Admin.CompareTiesInconsistent | Refine.new/app/components/admin/UserTable.tsx:26-30 | two rows with equal keys each compare as before the other |
| Admin.CompareWithTies | Refine.new/app/components/admin/UserTable.tsx:22-31 | the corrected comparator answers 0 exactly on equal keys and otherwise agrees with the written one |
| Admin.CompareWithTiesAntisymmetric | Refine.new/app/components/admin/UserTable.tsx:22-31 | swapping the rows negates the corrected comparator |
| Admin.Insert | Refine.new/app/components/admin/UserTable.tsx:22-31 | inserting a row into a sorted table keeps it sorted and adds exactly that row |
| Admin.SortUsers | Refine.new/app/components/admin/UserTable.tsx:22-31 | the sort returns a sorted permutation of its input |
| Admin.FilteredUsers | Refine.new/app/components/admin/UserTable.tsx:16-31 | every shown row matches search and plan, every matching row is shown, shown rows are exactly the filtered rows re-ordered, and they are sorted |
| Admin.DistinctKeysOrdered | Refine.new/app/components/admin/UserTable.tsx:22-31 | in a sorted table, of two rows with different keys the one earlier in the chosen direction comes first, and conversely |
| Admin.EmptySearchMatchesAll | Refine.new/app/components/admin/UserTable.tsx:18-19 | the empty search with `all` matches every row |
| Admin.Matches | Refine.new/app/components/admin/UserTable.tsx:16-21 | a row passes the lower-cased e-mail search and the plan selector; `FilteredUsers` shows exactly the rows that pass |
| Admin.InitialShowsEveryone | Refine.new/app/components/admin/UserTable.tsx:11-31 | in the initial state every loaded row is shown, each exactly as often as loaded |
| Admin.UnknownPlanBadge | Refine.new/app/components/admin/UserTable.tsx:40-47 | an unknown plan is badged like basic, and the three known plans get three different badges |
| Admin.PlanBadgeColor | Refine.new/app/components/admin/UserTable.tsx:40-47 | `getPlanBadgeColor(plan)`: the badge classes of the three known plans, and basic's for any other plan |
| Admin.ToggledSort | Refine.new/app/components/admin/UserTable.tsx:49-56 | the clicked column becomes the sort column; the same column flips the direction, a new column starts descending |
| Admin.ToggleTwice | Refine.new/app/components/admin/UserTable.tsx:49-56 | clicking the same header twice restores the sort |
| Admin.UserTableState.constructor | Refine.new/app/components/admin/UserTable.tsx:11-14 | empty search, all plans, sorted by total spent, descending |
| Admin.UserTableState.SetSearchTerm | Refine.new/app/components/admin/UserTable.tsx:91 | sets the search term and nothing else |
| Admin.UserTableState.SetPlanFilter | Refine.new/app/components/admin/UserTable.tsx:97 | sets the plan filter and nothing else |
| Admin.UserTableState.HandleSort | Refine.new/app/components/admin/UserTable.tsx:49-56 | the new sort is the toggled sort; search and filter are unchanged |
| Selector.FreeMarkers | Refine.new/app/components/chat/ModelSelector.tsx:19-31 | "free" in the name or label marks a model free for any provider; without such a marker only OpenRouter's zero price label can |
| Selector.IsModelLikelyFree | Refine.new/app/components/chat/ModelSelector.tsx:19-31 | `isModelLikelyFree`: OpenRouter's zero input and output prices in the label, or "free" in the name or label ignoring case; characterised by `FreeMarkers` |
| Selector.FilteredModelsSpec | Refine.new/app/components/chat/ModelSelector.tsx:74-87 | the rendered models are exactly the named models of the selected provider passing the toggle and the case-insensitive search, in list order and as often as listed; none without a provider |
| Selector.FilteredModels | Refine.new/app/components/chat/ModelSelector.tsx:74-87 | `filteredModels`: the model list filtered by provider, name, free toggle and search; characterised by `FilteredModelsSpec` |
| Selector.FilteredProvidersSpec | Refine.new/app/components/chat/ModelSelector.tsx:89-91 | the rendered providers are exactly those whose name contains the query ignoring case, in list order and as often as listed; the empty query shows all |
| Selector.FilteredProviders | Refine.new/app/components/chat/ModelSelector.tsx:89-91 | `filteredProviders`: the provider list filtered by the search ignoring case; characterised by `FilteredProvidersSpec` |
| Selector.GptScenario | Refine.new/app/components/chat/ModelSelector.tsx:74-87 | searching "gpt" under OpenAI keeps gpt-4 and drops another provider's model |
| Selector.NextIndex | Refine.new/app/components/chat/ModelSelector.tsx:124-127 | ArrowDown moves to the next option and wraps to 0 from the last index or beyond; from a valid focus on a non-empty list it stays in range |
| Selector.PrevIndex | Refine.new/app/components/chat/ModelSelector.tsx:128-131 | ArrowUp moves to the previous option and wraps from the first (or none) to the last |
| Selector.FirstModelOf | Refine.new/app/components/chat/ModelSelector.tsx:218-233 | the first model of the provider in the unfiltered list, or none exactly when the provider has no model |
| Selector.CascadeModel | Refine.new/app/components/chat/ModelSelector.tsx:360-364 | with a model setter and a model of the provider, the provider's first model; otherwise the current model |
| Selector.Healed | Refine.new/app/components/chat/ModelSelector.tsx:218-233 | no change with no providers, no selection or a listed provider; otherwise, with a provider setter, the selected provider ends up listed |
| Selector.HealedIdempotent | Refine.new/app/components/chat/ModelSelector.tsx:218-233 | running the repair again on its own result changes nothing |
| Selector.HealScenario | Refine.new/app/components/chat/ModelSelector.tsx:223-231 | a vanished provider is replaced by the first enabled one and the model by its first model, or kept when it has none |
| Selector.KeyStep | Refine.new/app/components/chat/ModelSelector.tsx:118-204 | a closed box ignores keys; Enter commits exactly the valid focused option and closes with the query cleared; Escape closes and clears; Tab closes exactly without shift at the last index, keeping the query; ArrowDown and ArrowUp move the focus to the next and previous index with wrap-around and change nothing else |
| Selector.Settle | Refine.new/app/components/chat/ModelSelector.tsx:98-104 | a box whose open flag or query changed loses its focus, any other box is taken as it is; a valid box stays valid |
| Selector.ArrowsInverse | Refine.new/app/components/chat/ModelSelector.tsx:124-131 | from a focused option, down then up (or up then down) comes back to it |
| Selector.InListOf | Refine.new/app/components/chat/ModelSelector.tsx:223 | a provider taken from the list has its name in the list |
| Selector.OfferedIsListed | Refine.new/app/components/chat/ModelSelector.tsx:175-185 | a provider offered in the provider box, the only kind a commit takes, is in the enabled list |
| Selector.ModelSelector.constructor | Refine.new/app/components/chat/ModelSelector.tsx:42-54 | both boxes closed and empty, toggle off, the selection repaired on mount |
| Selector.ModelSelector.SetModelBox | Refine.new/app/components/chat/ModelSelector.tsx:98-100 | the model box takes the new cells, then the focus-reset effect |
| Selector.ModelSelector.SetProviderBox | Refine.new/app/components/chat/ModelSelector.tsx:102-104 | the provider box takes the new cells, then the focus-reset effect |
| Selector.ModelSelector.ProviderNameEffect | Refine.new/app/components/chat/ModelSelector.tsx:94-100 | a new provider name turns the free toggle off, and the model focus resets when the toggle changed |
| Selector.ModelSelector.ReceiveProps | Refine.new/app/components/chat/ModelSelector.tsx:218-233 | new props, repaired when provider or either list changed; the free toggle survives only when neither the received provider name nor the repaired one differs from the old name, and the model focus resets when the toggle changed; the invariant is kept |
| Selector.ModelSelector.CommitProvider | Refine.new/app/components/chat/ModelSelector.tsx:175-185 | with a provider setter, the provider and its cascaded model; without one, nothing; the selection stays healthy |
| Selector.ModelSelector.ToggleModelOpen | Refine.new/app/components/chat/ModelSelector.tsx:393-398 | the model box flips open or closed, keeps its query and loses its focus |
| Selector.ModelSelector.ToggleProviderOpen | Refine.new/app/components/chat/ModelSelector.tsx:262-267 | the provider box flips open or closed, keeps its query and loses its focus |
| Selector.ModelSelector.TypeModelQuery | Refine.new/app/components/chat/ModelSelector.tsx:458 | the query is set; the focus resets when it changed |
| Selector.ModelSelector.TypeProviderQuery | Refine.new/app/components/chat/ModelSelector.tsx:299 | the query is set; the focus resets when it changed |
| Selector.ModelSelector.ToggleFreeOnly | Refine.new/app/components/chat/ModelSelector.tsx:425-432 | the toggle flips and the model focus resets |
| Selector.ModelSelector.MouseDown | Refine.new/app/components/chat/ModelSelector.tsx:56-72 | each rendered box the press is outside of ends closed, cleared and unfocused; the box pressed in, or both when none is rendered, are unchanged |
| Selector.ModelSelector.ModelKeyDown | Refine.new/app/components/chat/ModelSelector.tsx:118-155 | the model box follows the key step over the rendered models and the focus reset; a commit sets the focused model when there is a setter |
| Selector.ModelSelector.ProviderKeyDown | Refine.new/app/components/chat/ModelSelector.tsx:157-204 | the provider box follows the key step and the focus reset; a commit applies the cascade; the toggle resets on a new provider name |
| Selector.ModelSelector.ClickModelOption | Refine.new/app/components/chat/ModelSelector.tsx:516-521 | the clicked model is set when there is a setter; the box closes, cleared and unfocused |
| Selector.ModelSelector.ClickProviderOption | Refine.new/app/components/chat/ModelSelector.tsx:354-369 | the clicked provider is committed with its cascade; the box closes, cleared and unfocused |
| Branding.LastDot | Refine.new/scripts/update-branding.js:20 | the index of the last '.', or -1 when there is none |
| Branding.Extname | Refine.new/scripts/update-branding.js:20 | the extension is empty or a '.' followed by no other '.', and is a proper suffix of the name; a dot-file without another dot has none, and a name other than ".." with a '.' after its first character has one |
| Branding.FoundAppend | Refine.new/scripts/update-branding.js:11-25 | the result over a concatenated listing is the concatenation of the results |
| Branding.Found | Refine.new/scripts/update-branding.js:7-28 | the depth-first result of `findFiles` over a listing; characterised by `FoundSound`, `FoundComplete`, `FoundShape` and `FoundAppend` |
| Branding.FoundSound | Refine.new/scripts/update-branding.js:7-28 | every returned path is a wanted file reached without entering an excluded directory |
| Branding.FoundComplete | Refine.new/scripts/update-branding.js:7-28 | every wanted file reached without entering an excluded directory is returned |
| Branding.FoundShape | Refine.new/scripts/update-branding.js:7-28 | every returned path extends the start directory, ends in a wanted extension and crosses no excluded directory name |
| Branding.FindFiles | Refine.new/scripts/update-branding.js:7-28 | the loop-and-recursion walk returns exactly the depth-first result |
| Branding.ReplacementsArePlainText | Refine.new/scripts/update-branding.js:54-76 | every pattern is non-empty and contains no regular-expression metacharacter, so `new RegExp(from, 'g')` matches it literally; no replacement text contains '$', so `replace` inserts it as it is |
| Branding.CssPatternsPlain | Refine.new/scripts/update-branding.js:56-68 | the CSS-variable, class, icon and storage-key patterns consist of letters, '-', '_' and ':' only |
| Branding.CodePatternsPlain | Refine.new/scripts/update-branding.js:71-75 | the identifier patterns consist of letters only |
| Branding.ReplacementsNonEmpty | Refine.new/scripts/update-branding.js:54-76 | no pattern is empty |
| Branding.CssReplacementsPlain | Refine.new/scripts/update-branding.js:56-68 | the CSS-variable, class, icon and storage-key replacement texts consist of letters, '-', '_' and ':' only |
| Branding.CodeReplacementsPlain | Refine.new/scripts/update-branding.js:71-75 | the identifier replacement texts consist of letters only |
| Branding.ApplyAll | Refine.new/scripts/update-branding.js:36-42 | the content after every replacement in list order, each replacing all occurrences when its pattern is found; `UnchangedContent` and `ProcessedAllApplies` relate it to the script |
| Branding.Changed | Refine.new/scripts/update-branding.js:34-42 | the `changed` flag after the loop; characterised by `ChangedIffSomeMatch` |
| Branding.ChangedIffSomeMatch | Refine.new/scripts/update-branding.js:34-42 | `changed` holds exactly when some pattern occurred in the content as it stood when that pattern's turn came |
| Branding.UnchangedContent | Refine.new/scripts/update-branding.js:36-44 | when nothing matched, the content comes out unchanged |
| Branding.Processed | Refine.new/scripts/update-branding.js:31-51 | `replaceInFile` on the disk: an unreadable file is logged as failed, a changed file is rewritten and logged as written, any other file is left alone |
| Branding.ProcessedAll | Refine.new/scripts/update-branding.js:85-92 | the script's final loop over the found files; characterised by `ProcessedAllUntouched` and `ProcessedAllApplies` |
| Branding.ProcessedAllUntouched | Refine.new/scripts/update-branding.js:85-92 | a path not found keeps its content and is neither written nor logged as failed; no file is created or removed; earlier logs are kept |
| Branding.ProcessedAllApplies | Refine.new/scripts/update-branding.js:85-92 | a readable file found once ends with every replacement applied in order |
| Branding.Disk.ReplaceInFile | Refine.new/scripts/update-branding.js:31-51 | an unreadable file is logged; otherwise the file is rewritten with the replacements applied exactly when some pattern matched |
| Branding.Disk.UpdateBranding | Refine.new/scripts/update-branding.js:79-92 | the disk ends as every file found under `app` processed in turn |
| Text.ToLower | Refine.new/app/components/admin/UserTable.tsx:18 | lower-casing keeps the length and lower-cases each character |
| Text.ContainsAt | Refine.new/app/components/admin/UserTable.tsx:18 | `includes` holds exactly when the pattern occurs at some index |
| Text.Contains | Refine.new/app/components/admin/UserTable.tsx:18 | `s.includes(t)`; characterised by `ContainsAt` |
| Text.ContainsLowered | Refine.new/app/components/chat/ModelSelector.tsx:26 | a lower-case pattern found in a string is still found after lower-casing it |
| Text.ReplaceAllAbsent | Refine.new/scripts/update-branding.js:38-39 | replacing an absent pattern changes nothing |
| Text.ReplaceAll | Refine.new/scripts/update-branding.js:38-39 | `content.replace(new RegExp(from, 'g'), to)` for a plain-text pattern: every non-overlapping occurrence, left to right, replaced; characterised by `ReplaceAllAbsent`, `ReplaceAllLength` and `ReplaceAllSelf` |
| Text.OccurrencesPositive | Refine.new/scripts/update-branding.js:38 | the pattern has an occurrence exactly when it is found |
| Text.ReplaceAllLength | Refine.new/scripts/update-branding.js:39 | the length changes by the occurrence count times the length difference |
| Text.ReplaceAllSelf | Refine.new/scripts/update-branding.js:39 | replacing a pattern by itself changes nothing |
| Text.NatToString | Refine.new/app/lib/stores/usage.ts:114 | the decimal text is non-empty, all digits, with no leading zero for a positive number |
| Text.NatToStringRoundTrip | Refine.new/app/lib/stores/usage.ts:114 | reading the decimal text back gives the number |
| Seqs.FilterSubsequence | Refine.new/app/components/chat/ModelSelector.tsx:74-91 | the kept elements keep their order |
| Seqs.FilterSound | Refine.new/app/components/admin/UserTable.tsx:16-21 | every kept element passes the test and comes from the input |
| Seqs.FilterComplete | Refine.new/app/components/admin/UserTable.tsx:16-21 | every input element that passes the test is kept |
| Seqs.FilterKeepsCount | Refine.new/app/components/admin/UserTable.tsx:16-21 | an element that passes the test is kept as often as the input holds it |
| Seqs.FilterAll | Refine.new/app/components/admin/UserTable.tsx:16-21 | a test everything passes keeps the input as is |
| Seqs.FilterNone | Refine.new/app/components/chat/ModelSelector.tsx:75 | a test nothing passes keeps nothing |
| Seqs.FilterMultiset | Refine.new/app/components/admin/UserTable.tsx:16-21 | filtering never adds an element or raises its count |
| Seqs.Filter | Refine.new/app/components/admin/UserTable.tsx:16-21 | `Array.prototype.filter`: never longer than its input; characterised by `FilterSound`, `FilterComplete`, `FilterKeepsCount` and `FilterSubsequence` |

## Left out

- Clocks: `new Date()` and `Date.now()` are parameters (`t0`, `t1`, `now`), and timestamps are integer milliseconds rather than ISO strings.
- Browser storage: reading the slot at startup is an input (`Slot`). `JSON.parse` of text that parses to something other than a record is not modelled, nor are storage quota errors on write.
- Usage.UsageData: the credit counts are JavaScript numbers in the source and integers here. A fractional count, written through `updateUsage` or found in storage, is not representable; 0.5, for example, would pass the `> 0` test and be shown as "0.5 free uses remaining".
- Usage.InitUsage: a stored record is taken as is, so a tampered record need not satisfy `Usage.Valid`; the model does not claim it does.
- `usageStore` subscribers (the nanostores atom) are not modelled; the store is the class's `usage` field.
- Gate.CanUseAI: the profile fetch is a call into the hosted backend and is an input; `plan`, `usage_count` and `usage_limit` are the only columns read.
- Text.ToLower: lower-cases ASCII letters only; JavaScript's full Unicode case mapping is not modelled.
- Admin.UserEngagement: `created_at` is integer milliseconds; the source compares ISO timestamp strings, which order the same way when they share a format.
- Admin.SortUsers: `Array.prototype.sort` with an inconsistent comparator leaves the order of equal keys to the engine; the model is one insertion order (see Findings). The row order among equal keys is therefore not claimed.
- Admin: loading, refetching, currency formatting and rendering are not modelled.
- Selector: DOM focus, `scrollIntoView`, `preventDefault`, rendering and the loading spinner are not modelled.
- Selector.ModelSelector.ToggleModelOpen: Enter or Space on a trigger also bubbles to the box's key handler; the model treats the toggle and the key as separate events.
- Selector.ModelSelector: React batches a handler's state updates and runs effects after the render; the model applies the updates and then the effects they trigger within the same method.
- Selector.ModelSelector.ReceiveProps: React compares the repair's dependencies by identity, the model by value. In the source a new setter, or a new but equal provider object or list, re-runs the repair; the model runs it only when the provider or a list differs in value. With no provider setter and an unlisted provider, such a re-run resets the model to the first model of the first listed provider, which the model does not do.
- Branding: the directory listing is an input tree (`Entry`); `fs.statSync` failures and symbolic links are not modelled, and paths are component lists rather than `path.join` strings.
- Branding: every pattern is matched as a literal string and every replacement inserted as it is. The script builds regular expressions from the patterns, and `replace` reads '$' sequences in replacement texts. `ReplacementsArePlainText` proves that no pattern contains a metacharacter and no replacement text a '$', so the two readings agree.
- Branding.Disk.ReplaceInFile: a failing `writeFileSync` (caught with the read failure) is not modelled; only a file that cannot be read is recorded in `failures`, and every write succeeds.
- Branding: console logging and the text of thrown errors are not modelled.

Behaviour of the code that the model keeps as written:

- Selector.NextIndex: ArrowDown on an empty list moves the focus to 0, which is not a valid index. Enter then commits nothing, because of its range check.
- Selector.ModelSelector.ReceiveProps: a props change that shrinks a list does not reset the focus, so the focus can exceed the rendered list until the next reset; Enter's range check covers it.
- Selector.ModelSelector.ToggleModelOpen: opening or closing from the trigger keeps the search query, and so does a Tab close, so a box can reopen with its old query.
- Selector.Healed: the repair sets the first model even when there is no provider setter, and leaves the model as it was when the new provider has none. It runs whenever the provider or either list changes.

## Findings

| source | as written | input that shows it | evidently intended | confidence | as-written member | corrected member |
|---|---|---|---|---|---|---|
| Refine.new/app/components/admin/UserTable.tsx:26-30 | the comparator answers -1 when the two keys are equal, so each of two tied rows compares as before the other | two rows with `total_spent_cents` 500, sorted by total spent descending | ties compare as 0, so that swapping the arguments negates the answer, as `sort` requires | medium, not executed | Admin.CompareTiesInconsistent | Admin.CompareWithTies |
