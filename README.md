# A verified model of the pie optimisation-data scripts

The `optm_generation` scripts of the pie repository turn a dataset of slow/fast C++ program pairs into
optimisation training data. They run in stages:

- `featuregen.py` asks a chat-completion service for an analysis of each pair.
- `extract_feature.py` asks it for the features of each program.
- `sumgen.py` asks it for a summary of each program.
- `match.py` looks up, for each extracted feature, the most similar entry of the knowledge base and writes
  the matches back as a fenced JSON list. Along the way it repairs the JSON the service produced.
- `optmgen.py` (and the older `optm_generation_old/optmgen.py`) asks for the optimised program and keeps
  the last fenced code block of the answer.
- `k4gen.py` and `optm_generation_old/k4post.py` do the same for few-shot prompts, and split the answer
  into `cpp` blocks.
- `viewer.py` is a curses browser over the results.
- The two `zzz.py` scripts count records in a statistics file.

This project models what these scripts compute, in Dafny, and proves what they promise. It models the
retry loops, the bookkeeping that restores input order after concurrent completion, the JSON repair and
extraction chain, the fenced-block extraction, the knowledge-base flattening and matching, the viewer's
line layout, scrolling and navigation, and the two counting scripts.

Things outside the scripts are parameters:

- `json.loads`, `json.dumps`, `str()` and tenacity's `RetryError` text are fields of a `Runtime` value. The
  proofs assume of them only what `Python.Sound` states: parses yield keyed dicts, a dump of a float-free
  value (`Python.Dumpable`) parses back to it, and an indented dump is not empty and has no whitespace at
  either end. Floats are left out of the round trip, because a real in general has no finite decimal form
  that reads back as exactly that real.
- The service is an oracle from the attempt number to an answer or an error.
- The order in which concurrent tasks complete is an arbitrary permutation.
- The similarity of two texts (the embedding model) is a function to reals.
- A prompt template is a function of the record.
- Files are sequences of lines, and what a script writes is the sequence of lines it writes, or the
  exception that ends it.

Python values are the `Json` datatype. A dict is an insertion-ordered list of pairs, and `Get`, `Put` and
`Pop` follow Python's dict semantics.

Modules:

- `Text` and `Python` hold the string and dict operations the scripts use.
- `Retry` holds the shared retry loop.
- `Stage` holds the shared loading, tagging and writing.
- `Reorder` holds the sort by `__idx`.
- `Writer` holds the line-by-line writer.
- `CodeBlock` holds `extract_code_block` and the `cpp` block search.
- `JsonRepair` holds `fix_and_parse_json` and `extract_json_from_string`.
- One module per script: `Match`, `OptmGen`, `OptmGenOld`, `FeatureGen`, `ExtractFeature`, `SumGen`,
  `K4Gen`, `K4Post`, `Viewer`, `Zzz` and `ZzzOld`.

## Model

| member | source | states |
|---|---|---|
| Text.TrimStart | optm_generation/featuregen.py:48 | `lstrip` keeps a suffix of the text that does not start with whitespace |
| Text.TrimStartBlank | optm_generation/featuregen.py:48 | what `lstrip` drops is all whitespace |
| Text.TrimEnd | optm_generation/featuregen.py:48 | `rstrip` keeps a prefix of the text that does not end with whitespace |
| Text.TrimEndBlank | optm_generation/featuregen.py:48 | what `rstrip` drops is all whitespace |
| Text.StripShape | optm_generation/featuregen.py:48 | `strip` keeps an infix, removes only whitespace on both sides, and leaves neither end blank |
| Text.TightStrip | optm_generation/optmgen.py:27-28 | a text whose ends are not whitespace is unchanged by `strip` |
| Text.StripIdempotent | optm_generation/optmgen.py:27-28 | stripping twice is stripping once |
| Text.StripEmptyIffBlank | optm_generation/viewer.py:25-27 | `line.strip()` is empty exactly when the line is all whitespace |
| Text.Find | optm_generation/match.py:54 | the search gives the first occurrence at or after a position, or there is none |
| Text.StripKeepsAbsence | optm_generation/optmgen.py:27 | stripping never creates an occurrence of a pattern |
| Text.ReplaceChar | optm_generation/match.py:31 | `replace("'", '"')` swaps exactly the single quotes and leaves none |
| Text.SplitLines | optm_generation/viewer.py:61 | `splitlines` gives no pieces for the empty text and pieces without line breaks otherwise |
| Text.LJust | optm_generation/viewer.py:135 | `ljust` pads with spaces to the width and keeps the text as a prefix |
| Python.Get | optm_generation/viewer.py:30 | `dict.get` finds a value exactly for keys of the dict |
| Python.GetOr | optm_generation/viewer.py:30-33 | `dict.get(k, default)` is the stored value when the key is present and the default otherwise |
| Python.Put | optm_generation/featuregen.py:49 | `d[k] = v` stores `v`, keeps the key order and appends a new key last |
| Python.PutKeyed | optm_generation/featuregen.py:49 | assigning a key keeps the dict's keys distinct |
| Python.PutOther | optm_generation/featuregen.py:49 | assigning one key leaves every other key's value as it was |
| Python.PopOther | optm_generation/featuregen.py:101 | `pop` leaves every other key's value as it was |
| Python.PopKeys | optm_generation/featuregen.py:101 | after `pop` the key is gone and no key was added |
| Python.PopPutNew | optm_generation/optmgen.py:150-152 | popping a key just added to a dict that lacked it gives the dict back |
| Python.PopPutCommute | optm_generation/optmgen.py:99-104 | popping `__idx` and assigning another field can be done in either order |
| Python.PyJoin | optm_generation/match.py:92 | `sep.join(v)` joins a list of strings, and raises TypeError for any other element or a non-iterable |
| Retry.RunRetries | optm_generation/optmgen.py:88-122 | the attempt loop computes the run the recursive definition `Retries` gives |
| Retry.RetriesShape | optm_generation/optmgen.py:88-122 | the loop calls attempts 1 to the first answer (or to the last attempt), sleeps between them, and falls through with no call when `max_retries < 1` |
| Retry.RetriesBound | optm_generation/optmgen.py:88 | between 1 and `max_retries` calls are made, and none when `max_retries < 1` |
| Retry.RetriesFirstAnswer | optm_generation/optmgen.py:96-106 | the first answering attempt's text is the outcome |
| Retry.RetriesAllFail | optm_generation/optmgen.py:108-122 | when every attempt fails, the outcome is the last error and nothing is raised |
| Retry.RetriesSleeps | optm_generation/optmgen.py:110-113 | a sleep follows only a failed attempt that is not the last |
| Retry.AttemptsShape | optm_generation/optmgen.py:88-113 | from any attempt on, the loop runs to the stopping attempt, calling each attempt and sleeping between them, and ends with that attempt's reply |
| Retry.LastAttempt | optm_generation/optmgen.py:88-110 | the attempt where the loop stops answers, or is the last, and every earlier attempt fails |
| Stage.ErrorAfter | optm_generation/featuregen.py:60 | the exhaustion message ends with the last error's text |
| Stage.TagIdx | optm_generation/featuregen.py:81 | a record tagged with `__idx = i` carries index `i` |
| Stage.LoadedLength | optm_generation/featuregen.py:77-84 | loading keeps at most one record per line |
| Stage.LoadedBounds | optm_generation/featuregen.py:77-84 | every loaded record's `__idx` is the number of a line of the file |
| Stage.LoadedIncreasing | optm_generation/featuregen.py:77-84 | the loaded records' `__idx` values strictly increase |
| Stage.LoadedFromLine | optm_generation/featuregen.py:78-82 | each loaded record is line `__idx` of the file, parsed and tagged |
| Stage.LoadedComplete | optm_generation/featuregen.py:78-84 | every line that parses to a dict is loaded |
| Stage.LoadRecords | optm_generation/featuregen.py:76-84 | the loading loop computes `Loaded`, skipping lines that do not parse |
| Stage.LoadFirstRecords | optm_generation/extract_feature.py:67-77 | the loop with the break at 100 loads exactly the records of the first 100 lines |
| Stage.Stored | optm_generation/featuregen.py:48-61 | the stored field is the stripped answer or the exhaustion message, and none is stored only when the loop falls through |
| Stage.Reported | optm_generation/featuregen.py:48-61 | with at least one attempt, some text is always stored |
| Stage.ReportedFirstAnswer | optm_generation/featuregen.py:48-50 | the first answer, stripped, is stored |
| Stage.ReportedAllFail | optm_generation/featuregen.py:59-61 | `"Error after N attempts: <last error>"` is stored when every attempt fails |
| Stage.Untag | optm_generation/featuregen.py:99-102 | popping `__idx` after storing the field gives the input record with just the field stored |
| Stage.WriteRecords | optm_generation/featuregen.py:99-102 | one dumped line per result, in order |
| Stage.FirstLines | optm_generation/extract_feature.py:69-71 | the break keeps the first 100 lines, or all of them when there are fewer |
| Reorder.Insert | optm_generation/featuregen.py:96 | inserting adds exactly the one record, and the new head is whichever of it and the old head has the smaller `__idx` |
| Reorder.InsertSorted | optm_generation/featuregen.py:96 | insertion keeps the list sorted by `__idx` |
| Reorder.SortByIdx | optm_generation/featuregen.py:96 | `sort(key=__idx)` gives a sorted permutation of the results |
| Reorder.SortedUnique | optm_generation/featuregen.py:96 | a strictly increasing list is the only sorted permutation of itself |
| Reorder.Pick | optm_generation/featuregen.py:88-93 | the results in completion order are the records taken in the permutation's order |
| Reorder.PickMultiset | optm_generation/featuregen.py:88-93 | completion order is a permutation of the records |
| Reorder.RestoreOrder | optm_generation/featuregen.py:88-96 | sorting the results in any completion order gives back the records in input order |
| Reorder.Build | optm_generation/optmgen.py:135-138 | one task per input line |
| Reorder.BuildAt | optm_generation/optmgen.py:135-138 | task `i` is built from line `i` |
| Writer.EmitStep | optm_generation/match.py:140-157 | writing one more line appends it, a raising line ends the run, and a skipped line adds nothing |
| Writer.EmitStays | optm_generation/match.py:140-157 | after an exception, the later lines change nothing |
| Writer.EmitLines | optm_generation/match.py:140-157 | the run ends normally exactly when no line raises, and then writes every kept line in order |
| Writer.EmitRaised | optm_generation/match.py:140-157 | a run that raises has written exactly the lines before the first raising line |
| Writer.KeptAll | optm_generation_old/k4post.py:9-24 | when every line writes, one output line per input line, in order |
| CodeBlock.SkipSpace | optm_generation/optmgen.py:24 | the regex `\s*` after the tag consumes the whole run of whitespace |
| CodeBlock.TagEnd | optm_generation/optmgen.py:24 | the optional `cpp`/`json` tag after a fence holds no backtick |
| CodeBlock.ContentStart | optm_generation/optmgen.py:24 | no fence starts between an opening fence and where its content starts |
| CodeBlock.FencedBlocks | optm_generation/optmgen.py:24-25 | none of the block contents `findall` returns contains a fence |
| CodeBlock.FencedBlocksExist | optm_generation/optmgen.py:25-26 | `findall` finds a block exactly when the text has an opening and a closing fence |
| CodeBlock.ExtractWithoutFences | optm_generation/optmgen.py:28 | with no fenced pair, the result is `text.strip()` |
| CodeBlock.ExtractWithFences | optm_generation/optmgen.py:26-27 | with a fenced pair, the result is the stripped last block, which contains no fence |
| CodeBlock.ExtractTight | optm_generation/optmgen.py:27-28 | the result never starts or ends with whitespace |
| CodeBlock.StripKeepsNoPair | optm_generation/optmgen.py:28 | stripping a text without a fenced pair does not create one |
| CodeBlock.ExtractIdempotent | optm_generation/optmgen.py:19-28 | extracting twice is extracting once |
| CodeBlock.CppStart | optm_generation_old/k4post.py:7 | the `\s*` after a `cpp` fence consumes only whitespace |
| CodeBlock.CppBlocks | optm_generation_old/k4post.py:7-18 | the `cpp` blocks `findall` returns contain no fence |
| CodeBlock.TrimEndKeepsAbsence | optm_generation_old/k4post.py:7 | the trailing `\s*` of the pattern never creates a fence |
| CodeBlock.CppBlocksExist | optm_generation_old/k4post.py:18-19 | blocks are found exactly when the answer holds a `cpp` fence and a closing fence |
| JsonRepair.EscapeNulPlain | optm_generation/match.py:26 | text without a backslash-zero pair or a quoted NUL is unchanged by the first rewrite |
| JsonRepair.ReplaceAbsent | optm_generation/match.py:26 | `str.replace` leaves text without the pattern unchanged |
| JsonRepair.RejoinPair | optm_generation/match.py:27 | two strings split by whitespace holding a newline are joined by `",\n"` |
| JsonRepair.RejoinKeeps | optm_generation/match.py:27 | rejoining changes only commas and whitespace: every other character is kept, in order |
| JsonRepair.DoubleShape | optm_generation/match.py:28 | every character is kept in order, and each backslash not followed by `n t r " \ u 0` (one at the end included) is doubled |
| JsonRepair.DoubleLength | optm_generation/match.py:28 | the text grows by exactly the number of stray backslashes |
| JsonRepair.StrayBetweenFront | optm_generation/match.py:28 | stray backslashes are counted position by position |
| JsonRepair.UncommaPair | optm_generation/match.py:29 | a comma followed only by whitespace and a closing bracket is removed with the whitespace, and the bracket stays |
| JsonRepair.UncommaKeeps | optm_generation/match.py:29 | removing trailing commas changes only commas and whitespace |
| JsonRepair.Requote | optm_generation/match.py:30-31 | quotes are swapped only when the text has a `'` and no `"`; then no `'` remains, and text with a `"` is untouched |
| JsonRepair.FixAndParse | optm_generation/match.py:9-37 | text that parses is returned with no repair; otherwise the repaired text's parse; otherwise ValueError with the line's message; a `null` parse counts as failure |
| JsonRepair.FindJsonTag | optm_generation/match.py:54 | the case-insensitive search finds the first ```` ```json ```` tag |
| JsonRepair.ExtractUnchanged | optm_generation/match.py:46-51 | non-strings and blank strings come back unchanged |
| JsonRepair.ExtractLastResort | optm_generation/match.py:53-75 | the fallback order: the first block (or the whole stripped text), its repair, the whole stripped text, then the raw value |
| JsonRepair.ExtractBlock | optm_generation/match.py:54-62 | when the first block parses once stripped, its value is the result |
| JsonRepair.FencedBlock | optm_generation/match.py:54-58 | the block of a fenced dump is the dump between two newlines, when the dump holds no fence |
| JsonRepair.FencedTight | optm_generation/match.py:49-51 | stripping leaves the fenced dump alone |
| JsonRepair.FencedParses | optm_generation/match.py:49-62 | a fenced text whose dump parses comes back as the parsed value |
| JsonRepair.FencedRoundTrip | optm_generation/match.py:39-75 | the `analysis` that `main` writes reads back as the list of float-free matches it wrote, when the dump holds no fence |
| Match.ReadLine | optm_generation/match.py:133-134 | the jsonlines reader yields a line's value, and refuses text that does not parse and a bare `null` |
| Match.GatheredOk | optm_generation/match.py:86-102 | a run of steps ends normally exactly when no step raises, with every value in order; otherwise with the first step's exception |
| Match.GatheredStep | optm_generation/match.py:87-102 | one more step appends its value or raises |
| Match.GatheredStays | optm_generation/match.py:87-102 | after an exception, later steps change nothing |
| Match.EntryResults | optm_generation/match.py:91-96 | one entry per element of a list analysis |
| Match.LoadDatabase | optm_generation/match.py:83-105 | the loops over lines and list elements compute `Database` |
| Match.DatabaseLine | optm_generation/match.py:87-102 | a line's entries, or JSONDecodeError or AttributeError for that line |
| Match.AddAnalysis | optm_generation/match.py:90-102 | the inner loop appends the entries of one analysis |
| Match.EntryOfCases | optm_generation/match.py:91-96 | an entry joins its conditions with single spaces (missing gives `""`), defaults the operation to `""`, and a non-dict element raises AttributeError |
| Match.AnalysisEntriesShape | optm_generation/match.py:90-102 | a list analysis gives one entry per element, and any other analysis exactly one entry `str(analysis)` with operation `""` |
| Match.DatabaseShape | optm_generation/match.py:83-105 | the database is every line's entries in file order, or the first line's exception |
| Match.Best | optm_generation/match.py:115-118 | `topk(1)` picks an index of maximal score |
| Match.Scores | optm_generation/match.py:109-115 | one score per database entry, the similarity of the feature's text to the entry's text |
| Match.TopMatchShape | optm_generation/match.py:107-123 | a result copies the feature's conditions and lists the operation of a best-scoring entry |
| Match.TopMatchErrors | optm_generation/match.py:107-118 | a lookup raises exactly when the conditions are missing (KeyError), cannot be joined, or the database is empty |
| Match.Eligibles | optm_generation/match.py:149-150 | the features looked up are a selection of the extracted items, at most one per item |
| Match.Lookups | optm_generation/match.py:151 | one lookup per eligible feature |
| Match.MatchesAreLookups | optm_generation/match.py:147-152 | the matches are the lookups of the eligible features, in order, up to the first exception |
| Match.MatchesShape | optm_generation/match.py:147-152 | one match per eligible feature, each copying that feature's conditions |
| Match.NoEligibleNoMatches | optm_generation/match.py:147-152 | with no eligible feature the matches are `[]` |
| Match.FindMatches | optm_generation/match.py:147-152 | the loop over the features computes `MatchesOf` |
| Match.MatchesStay | optm_generation/match.py:147-152 | after a lookup raises, later features change nothing |
| Match.RecordLines | optm_generation/match.py:141-157 | one effect per record |
| Match.Parsed | optm_generation/match.py:133-134 | `list(reader)` reads every line, or refuses at a line the reader rejects |
| Match.RunMatching | optm_generation/match.py:127-157 | the script computes `Matching`: nothing is written when loading fails, and otherwise records are written one by one until one raises |
| Match.RecordAt | optm_generation/match.py:141-157 | the body of the main loop handles record `i` |
| Match.ProcessRecord | optm_generation/match.py:142-157 | a record gets its fenced matches in `analysis`, or raises |
| Match.RefusedRecordWritesNothing | optm_generation/match.py:133-140 | a record line the reader refuses (`null` included) ends the script with nothing written |
| Match.MatchingWritesAll | optm_generation/match.py:140-157 | every record is written exactly once, in order, when none raises; otherwise exactly the records before the first raising one are written |
| Match.RecordLinesSome | optm_generation/match.py:141-157 | every record writes a line or raises: none is skipped |
| Match.EmitCount | optm_generation/match.py:140-157 | one output line per record |
| OptmGen.ReadInputsOk | optm_generation/optmgen.py:34-39 | reading a line succeeds exactly when it parses to a dict, the summary line parses to a dict, and `analysis` is a string |
| OptmGen.Around | optm_generation/optmgen.py:57-85 | the prompt holds the strategies after their heading, then the summary, and ends with the source code |
| OptmGen.FillFields | optm_generation/optmgen.py:99-104 | the output record has the summary, prompt, completion and answers, and every other field of the input |
| OptmGen.FillUntag | optm_generation/optmgen.py:99-104 | popping `__idx` from the output gives the input plus the four fields |
| OptmGen.FillIdx | optm_generation/optmgen.py:100 | the output record carries the line's index |
| OptmGen.Answered | optm_generation/optmgen.py:96-122 | success stores the completion and `[extract_code_block(completion)]`; exhaustion stores `"Error: …"` and `[]` |
| OptmGen.ProcessLine | optm_generation/optmgen.py:31-122 | the attempt loop computes `LineAfter`: the record and the calls and sleeps it made |
| OptmGen.LineCalls | optm_generation/optmgen.py:34-113 | a line that does not parse raises with no call; otherwise 1 to `max_retries` calls, sleeps only after a failed non-final attempt, and None when `max_retries < 1` |
| OptmGen.LineFinished | optm_generation/optmgen.py:31-122 | with 100 attempts a readable line always gives a record |
| OptmGen.LineAnswered | optm_generation/optmgen.py:96-106 | the first answer's completion and extracted block are stored |
| OptmGen.LineExhausted | optm_generation/optmgen.py:114-122 | when all attempts fail, the record is returned with `"Error: <last error>"` and no answers |
| OptmGen.Finished | optm_generation/optmgen.py:99-122 | a finished record carries its index |
| OptmGen.Tasks | optm_generation/optmgen.py:135-138 | one task per line pair |
| OptmGen.TasksAt | optm_generation/optmgen.py:135-138 | task `i` processes line `i` with summary `i` |
| OptmGen.Processed | optm_generation/optmgen.py:135-145 | one result per line |
| OptmGen.TaskRead | optm_generation/optmgen.py:135-143 | a task raises exactly when its line cannot be read, and otherwise finishes with its index |
| OptmGen.AllTasksOk | optm_generation/optmgen.py:135-145 | every task finishes exactly when every line can be read |
| OptmGen.ProcessedIncreasing | optm_generation/optmgen.py:148 | the results' indices strictly increase in input order |
| OptmGen.TaskResult | optm_generation/optmgen.py:142-143 | awaiting task `i` is processing line `i` |
| OptmGen.AwaitTask | optm_generation/optmgen.py:143 | `await coro` gives the task's result |
| OptmGen.Complete | optm_generation/optmgen.py:140-145 | results are collected in completion order, and the first exception in that order ends `main` |
| OptmGen.ProcessFile | optm_generation/optmgen.py:125-153 | a count mismatch raises ValueError before any task; otherwise one record per line is written in input order with `__idx` removed, or an unreadable line's exception is raised |
| OptmGen.OptmFileLines | optm_generation/optmgen.py:125-153 | output line `k` is the dump of input record `k` plus the four fields, whatever the completion order |
| OptmGenOld.ProcessLine | optm_generation_old/optmgen.py:24-60 | a line is processed with one call and no retry; a failing call propagates |
| OptmGenOld.LineFields | optm_generation_old/optmgen.py:35-58 | the output copies the input plus summary, prompt, completion and `[extracted]`, and the prompt places the strategies, then the summary, and ends with the source |
| OptmGenOld.Steps | optm_generation_old/optmgen.py:72-74 | one step per line pair |
| OptmGenOld.StepsAt | optm_generation_old/optmgen.py:72-74 | step `i` processes line `i` with summary `i` |
| OptmGenOld.RunLine | optm_generation_old/optmgen.py:73 | the loop body processes line `i` |
| OptmGenOld.SequentialOk | optm_generation_old/optmgen.py:71-74 | the sequential loop ends normally exactly when no line fails, with one result per line, in order |
| OptmGenOld.SequentialErr | optm_generation_old/optmgen.py:71-74 | a failing line stops the loop, and no later line is called |
| OptmGenOld.SequentialOkCalls | optm_generation_old/optmgen.py:71-74 | a run with no failure makes one call per readable line |
| OptmGenOld.SequentialStays | optm_generation_old/optmgen.py:71-74 | after a failure, later lines change nothing |
| Stage.Dumped | optm_generation_old/optmgen.py:76-78 | one written line per result |
| OptmGenOld.ProcessFile | optm_generation_old/optmgen.py:62-78 | a count mismatch raises ValueError with no call; otherwise the sequential results are written in order, or the first failure propagates |
| FeatureGen.ProcessItem | optm_generation/featuregen.py:23-61 | the attempt loop computes `ItemAfter`: the record, and the semaphore, calls and sleeps it made |
| FeatureGen.ItemCalls | optm_generation/featuregen.py:31-38 | with both codes empty, no call and no semaphore; otherwise every call lies inside one acquire/release, with 1 to `max_retries` calls |
| FeatureGen.ItemAnalysis | optm_generation/featuregen.py:31-61 | the record gets its `analysis` field |
| FeatureGen.Finished | optm_generation/featuregen.py:48-61 | the finished record is the input with `analysis` stored, and it keeps its index |
| FeatureGen.Processed | optm_generation/featuregen.py:86 | one result per record |
| FeatureGen.ProcessedIncreasing | optm_generation/featuregen.py:96 | the results keep the records' increasing indices |
| FeatureGen.Complete | optm_generation/featuregen.py:88-93 | results are collected in completion order |
| FeatureGen.ProcessFile | optm_generation/featuregen.py:64-102 | unparsable lines are skipped, every parsed record is written once in file order, and `__idx` is removed |
| FeatureGen.FeatureFileLines | optm_generation/featuregen.py:77-102 | output line `k` is the `k`-th parsed line with its `analysis` stored |
| ExtractFeature.SingleUserMessage | optm_generation/extract_feature.py:32-35 | the duplicate keys leave one message, role `user`, content the prompt |
| ExtractFeature.ProcessProgram | optm_generation/extract_feature.py:16-50 | the attempt loop computes `ProgramAfter` |
| ExtractFeature.ProgramCalls | optm_generation/extract_feature.py:22-28 | an empty `src_code` makes no call; otherwise 1 to `max_retries` calls |
| ExtractFeature.ProgramFeatures | optm_generation/extract_feature.py:22-50 | the record gets its `optimized_features` field |
| ExtractFeature.Finished | optm_generation/extract_feature.py:37-50 | the finished record is the input with the features stored, and it keeps its index |
| ExtractFeature.Processed | optm_generation/extract_feature.py:80 | one result per record |
| ExtractFeature.ProcessedIncreasing | optm_generation/extract_feature.py:91 | the results keep the records' increasing indices |
| ExtractFeature.Complete | optm_generation/extract_feature.py:82-88 | results are collected in completion order |
| ExtractFeature.ProcessFile | optm_generation/extract_feature.py:59-98 | only lines 0–99 are read and unparsable ones skipped; each record is written once in file order without `__idx` |
| ExtractFeature.FeatureFileLines | optm_generation/extract_feature.py:67-98 | at most 100 lines are written, and line `k` is the `k`-th parsed line of the first 100 with its features stored |
| SumGen.SummaryPrompt | optm_generation/sumgen.py:17-27 | the request is the instruction followed by the snippet, and a missing `src_code` still sends the instruction alone |
| SumGen.SummarizeCode | optm_generation/sumgen.py:15-45 | the attempt loop computes `SummaryAfter` |
| SumGen.SummaryCalls | optm_generation/sumgen.py:17-22 | every record is sent (no short-circuit), with 1 to `max_retries` calls |
| SumGen.SummaryStored | optm_generation/sumgen.py:31-45 | the record gets its `summary` field |
| SumGen.Finished | optm_generation/sumgen.py:31-45 | the finished record is the input with `summary` stored, and it keeps its index |
| SumGen.Processed | optm_generation/sumgen.py:61 | one result per record |
| SumGen.ProcessedIncreasing | optm_generation/sumgen.py:72 | the results keep the records' increasing indices |
| SumGen.FirstBad | optm_generation/sumgen.py:54-59 | the first of the lines that does not parse to a dict, or none |
| SumGen.LoadStrictErr | optm_generation/sumgen.py:57-58 | the first bad line raises JSONDecodeError, or TypeError when it parses to a non-dict |
| SumGen.LoadStrictOk | optm_generation/sumgen.py:52-59 | when every line parses, all of them are loaded |
| SumGen.LoadRecords | optm_generation/sumgen.py:52-59 | the loop with the break at 100 loads the first 100 lines and raises at the first bad one |
| SumGen.Complete | optm_generation/sumgen.py:63-69 | results are collected in completion order |
| SumGen.ProcessFile | optm_generation/sumgen.py:47-76 | the script's output: the records in input order, or the first bad line's exception |
| Stage.DumpRecords | optm_generation/sumgen.py:74-76 | each result is dumped as it is, `__idx` included |
| SumGen.SummaryFileLines | optm_generation/sumgen.py:52-76 | when the first 100 lines parse, output line `k` is line `k` tagged with `__idx = k` and its summary stored |
| SumGen.SummaryKeepsIdx | optm_generation/sumgen.py:58-76 | `__idx` stays in every written record |
| SumGen.IdxIsPosition | optm_generation/sumgen.py:72 | after the sort, record `k` is the one with `__idx = k` |
| K4Gen.BuildPrompt | optm_generation/k4gen.py:14-29 | two messages, system then user, and the user content is the fixed instruction followed by `user_input` |
| K4Gen.ProcessLine | optm_generation/k4gen.py:45-54 | a line is sent once (with tenacity's retries) and gets `generated_answers`; a malformed line raises before any call |
| K4Gen.AnswerReported | optm_generation/k4gen.py:33-53 | 1 to 5 attempts; the stripped answer, or `"ERROR: …"` with the RetryError text, and never an exception |
| K4Gen.RetriesFirstAnswerAny | optm_generation/k4gen.py:33 | any answer within the 5 attempts makes the call succeed |
| K4Gen.LineContained | optm_generation/k4gen.py:47-54 | a parseable line is always written back, with `generated_answers` set and every other field kept |
| K4Gen.MissingInput | optm_generation/k4gen.py:48 | a missing `input` is treated as `""` |
| K4Gen.Results | optm_generation/k4gen.py:70-74 | one result per line |
| K4Gen.AwaitLine | optm_generation/k4gen.py:65-67 | a task gives the result of its line |
| K4Gen.Gather | optm_generation/k4gen.py:70-74 | `gather` returns the results in input order whatever the completion order, or the first exception in completion order |
| K4Gen.ProcessFile | optm_generation/k4gen.py:57-79 | one written line per input line, in input order, or the exception of a malformed line |
| K4Post.Stripped | optm_generation_old/k4post.py:20 | each block is stripped |
| K4Post.Outs | optm_generation_old/k4post.py:10-24 | one effect per line |
| K4Post.LineAt | optm_generation_old/k4post.py:10-24 | the loop body handles line `i` |
| K4Post.ConvertLine | optm_generation_old/k4post.py:11-24 | a line is skipped, converted and written, or raises |
| K4Post.Rewrite | optm_generation_old/k4post.py:15-22 | the assignment to `generated_answers` computes `Converted` |
| K4Post.ProcessFile | optm_generation_old/k4post.py:9-24 | the loop writes converted lines in order until one raises |
| K4Post.LineOutCases | optm_generation_old/k4post.py:11-24 | blank lines are skipped, a line that does not parse raises JSONDecodeError, a non-dict raises AttributeError, and a dict is written converted |
| K4Post.ConvertedFields | optm_generation_old/k4post.py:15-24 | a non-string answer is left as it is; a string becomes the non-empty list of stripped `cpp` blocks, one per block in order, or `[ans.strip()]`; other fields are kept |
| K4Post.AnswersFromBlocks | optm_generation_old/k4post.py:18-22 | the list always has an element, and blocks are found exactly when the answer has a `cpp` fenced pair |
| Viewer.Map | optm_generation/viewer.py:24-52 | one item per record, each the item of that record |
| Viewer.ReadJsonl | optm_generation/viewer.py:20-55 | the reading loop computes `ReadItems` |
| Viewer.ParseLine | optm_generation/viewer.py:25-30 | a stripped line is skipped when blank or invalid, raises AttributeError for a non-dict, and otherwise gives the record |
| Viewer.ReadItem | optm_generation/viewer.py:30-52 | the normalisation of one record computes `ItemOf` |
| Viewer.ReadObjectsStep | optm_generation/viewer.py:24-54 | one more line adds its record, is skipped, or raises |
| Viewer.ReadObjectsStays | optm_generation/viewer.py:24-54 | after an exception, later lines change nothing |
| Viewer.ReadObjectsOk | optm_generation/viewer.py:24-54 | the records are read to the end exactly when no line parses to a non-dict, and the only exception is AttributeError |
| Viewer.ReadItemsOk | optm_generation/viewer.py:24-54 | reading ends normally exactly when no line parses to a non-dict, and the only exception is AttributeError |
| Viewer.LineObjectRaises | optm_generation/viewer.py:28-30 | a line raises exactly when it parses to something other than a dict |
| Viewer.ReadItemsObjects | optm_generation/viewer.py:24-55 | one item per record of the file, in order |
| Viewer.ReadObjectsValues | optm_generation/viewer.py:24-54 | the records read are exactly the file's dict lines, in order |
| Viewer.GenNotBlank | optm_generation/viewer.py:36-41 | the answer shown is never blank: a blank answer becomes `<EMPTY>` |
| Viewer.GenString | optm_generation/viewer.py:32-41 | a missing answer shows `<EMPTY>`, and a non-blank string is shown as it is |
| Viewer.GenList | optm_generation/viewer.py:36-37 | a list of strings is joined with newlines |
| Viewer.MetricsExact | optm_generation/viewer.py:50 | the metrics hold exactly the listed fields present in the record, with their values |
| Viewer.AnaShape | optm_generation/viewer.py:33-47 | a dict or list analysis is dumped with indent 2, a string is kept, and a missing one is `""` |
| Viewer.WrapText | optm_generation/viewer.py:58-66 | the loops compute `Wrapped` |
| Viewer.PyRest | optm_generation/viewer.py:64 | `line[width:]` with Python's negative indices is a suffix of the line |
| Viewer.WrapStalls | optm_generation/viewer.py:62-64 | as written, a width of zero or less never shortens a non-empty line, and a negative width never ends on an empty line either, so the loop never ends |
| Viewer.ChunksSizes | optm_generation/viewer.py:62-65 | each line gives at least one piece, none longer than the width, and all but the last exactly the width |
| Viewer.ChunksJoin | optm_generation/viewer.py:62-65 | a line's pieces concatenate back to it |
| Viewer.ChunksNoBreak | optm_generation/viewer.py:62-65 | pieces of a line hold no line break |
| Viewer.WrapLinesShape | optm_generation/viewer.py:61-65 | every output line fits the width, and each input line gives at least one |
| Viewer.WrappedShape | optm_generation/viewer.py:58-66 | the output is empty exactly for the empty text, has at least one line per source line, and every line fits |
| Viewer.WrappedLine | optm_generation/viewer.py:61-65 | the output of a single line joins back to it |
| Viewer.MetricPieces | optm_generation/viewer.py:157-160 | one group of lines per metric field |
| Viewer.Clamp | optm_generation/viewer.py:168-172 | the scroll is clamped into `[0, max(0, len(lines) - visible_height)]`, and a scroll already in range is kept |
| Viewer.RenderItem | optm_generation/viewer.py:124-180 | the page's lines are `Rendered`, and the returned scroll is the clamp of the requested one |
| Viewer.SectionsPart | optm_generation/viewer.py:148-165 | the answers, metrics and analysis sections |
| Viewer.CodePart | optm_generation/viewer.py:129-146 | the code part of each view |
| Viewer.SplitPart | optm_generation/viewer.py:130-140 | the split view's header and rows |
| Viewer.SplitRows | optm_generation/viewer.py:136-140 | the loop builds the side-by-side rows |
| Viewer.MetricPart | optm_generation/viewer.py:157-160 | the metrics loop in field order |
| Viewer.RowShape | optm_generation/viewer.py:140 | a row is the left part padded to `col_width`, then two spaces, then the right part |
| Viewer.SplitAligned | optm_generation/viewer.py:130-140 | the split view is one header plus `max(len(src_lines), len(tgt_lines))` rows, row `i` holding line `i` of each side or `""` |
| Viewer.TableAligned | optm_generation/viewer.py:136-140 | each row of the table pairs line `i` of each column |
| Viewer.MetricLinesShape | optm_generation/viewer.py:157-160 | no metric lines exactly when no listed field is present |
| Viewer.MetricsShown | optm_generation/viewer.py:154-160 | the metrics section appears exactly when the record has one of the listed fields |
| Viewer.WideRenders | optm_generation/viewer.py:130-165 | a screen at least five columns wide renders every item in every view |
| Viewer.Press | optm_generation/viewer.py:199-214 | a key keeps the view within the items, the scroll and the three modes |
| Viewer.PageSizes | optm_generation/viewer.py:198 | one page length per item and view: the length of the page `render_item` builds, for every view that renders |
| Viewer.Browse | optm_generation/viewer.py:182-214 | an empty list draws no frame; otherwise the loop draws the frames `Frames` gives for the keys, whenever the views those keys reach render (`Visits`) |
| Viewer.Draw | optm_generation/viewer.py:198 | drawing the current item in the current view returns its clamped scroll; only that item and view must render |
| Viewer.QuitAtOnce | optm_generation/viewer.py:197-201 | with a quit key first, the loop returns exactly when the first item renders in the split view; the other items do not matter |
| Viewer.WideVisits | optm_generation/viewer.py:197-214 | on a screen at least five columns wide every view the keys reach renders |
| Viewer.FramesNext | optm_generation/viewer.py:197-214 | a frame is drawn, then a quit key ends the loop, or the key moves the view |
| Viewer.OnKey | optm_generation/viewer.py:200-214 | the key dispatch computes `Press` |
| Viewer.FirstQuit | optm_generation/viewer.py:200-201 | the position of the first `q` or `Q` |
| Viewer.FramesCount | optm_generation/viewer.py:197-201 | one frame per key up to the first quit key, plus the first frame |
| Viewer.FramesInRange | optm_generation/viewer.py:197-214 | every frame shows a valid item, a valid mode and a scroll within its page |
| Viewer.RightLeft | optm_generation/viewer.py:202-207 | right then left returns to the same item with the scroll reset |
| Viewer.WrapAround | optm_generation/viewer.py:202-207 | left from the first item goes to the last, and right from the last goes to the first |
| Viewer.TabCycle | optm_generation/viewer.py:212-214 | three Tabs return to the same view with the scroll reset |
| Zzz.Count | optm_generation/zzz.py:12-29 | the loop computes `Script`, the tally of lines 1 to 100 |
| Zzz.TallyStops | optm_generation/zzz.py:13-29 | after an exception, later lines change nothing |
| Zzz.TallyOk | optm_generation/zzz.py:16-21 | the tally ends normally exactly when no line raises, and the only exception is AttributeError |
| Zzz.TallyConsistent | optm_generation/zzz.py:24-29 | each counter is its list's length, both lists strictly increase, and they hold line numbers of lines read |
| Zzz.TallyListed | optm_generation/zzz.py:24-29 | a list holds exactly the numbers of the lines of its category |
| Zzz.ScriptReport | optm_generation/zzz.py:13-29 | lines 1 to 100, numbered from 1, are listed exactly by category, the categories are disjoint, and the counters match the lists |
| Zzz.ScriptOk | optm_generation/zzz.py:16-21 | invalid JSON is skipped, and a JSON line that is not a dict raises AttributeError |
| Zzz.WindowOnly | optm_generation/zzz.py:14-15 | lines after the 100th change nothing |
| Zzz.FlagExact | optm_generation/zzz.py:24-29 | a flag of 0, 1 or a missing flag counts in neither category |
| Zzz.SpeedupTypes | optm_generation/zzz.py:27 | with the flag `True`, a bool speedup counts, an int counts exactly when it is at most 1, and a missing, string or null speedup does not count |
| ZzzOld.ValueCount | optm_generation_old/zzz.py:10-13 | a record adds at most one; the only exceptions are AttributeError and TypeError |
| ZzzOld.LineCount | optm_generation_old/zzz.py:10-13 | a line adds at most one; the only exceptions are AttributeError and TypeError |
| ZzzOld.Examined | optm_generation_old/zzz.py:6-8 | the loop reads `max_lines` lines, none when it is not positive, and all when there are fewer |
| ZzzOld.CountPrintfInAnalysis | optm_generation_old/zzz.py:3-16 | the loop with its break computes `CountPrintf` |
| ZzzOld.CountThrough | optm_generation_old/zzz.py:9-15 | the loop body adds line `i` to the count |
| ZzzOld.CheckLine | optm_generation_old/zzz.py:10-13 | parsing one stripped line and testing its prompt computes `LineFn`, whose properties `LineFnShape` and `PromptOnly` state |
| ZzzOld.CountNext | optm_generation_old/zzz.py:12-13 | a line that counts adds its count |
| ZzzOld.CountFails | optm_generation_old/zzz.py:10-13 | a raising line ends the count with its exception |
| ZzzOld.CountStops | optm_generation_old/zzz.py:6-15 | after an exception, later lines change nothing |
| ZzzOld.CountInBounds | optm_generation_old/zzz.py:6-15 | the count is produced exactly when no line raises, the exception is a raising line's, and the count is at most the number of lines |
| ZzzOld.LineFnShape | optm_generation_old/zzz.py:10-13 | a line adds at most one and raises only AttributeError or TypeError |
| ZzzOld.CountBound | optm_generation_old/zzz.py:3-16 | the count is at most `min(max_lines, number of lines)`, and the only exceptions are AttributeError and TypeError |
| ZzzOld.CountSplit | optm_generation_old/zzz.py:6-13 | counts add up over consecutive parts of the file |
| ZzzOld.WindowOnly | optm_generation_old/zzz.py:6-8 | lines after the first `max_lines` change nothing |
| ZzzOld.PromptOnly | optm_generation_old/zzz.py:11-12 | a string prompt counts exactly when it contains the needle, a missing prompt counts as `""`, and a null prompt raises TypeError |

## Left out

- The service's replies are an oracle of answer or error per attempt. What the service answers is not modelled.
- Backoff sleep lengths (`base_delay * 2 ** (attempt - 1) + random.uniform(0, 0.5)`) and tenacity's `wait_exponential` are left out. Sleeps are events in a trace; only when they happen is modelled.
- asyncio, the semaphore's concurrency, `as_completed` and `gather` are left out. Completion order is an arbitrary permutation. In `featuregen.py` the semaphore is a pair of events around the attempts; the `Semaphore(5)` that `k4gen.py` holds around `process_line` leaves no event in `K4Gen.ProcessLine`.
- Records are values. `featuregen.py` and its siblings return the same mutated dict object, and `sort` and `pop` work in place. The model returns updated values, so object identity and aliasing are not captured. The scripts never read a record again after its task, so the written output is the same.
- `string.Template.safe_substitute` is a template function passed as a parameter. `OptmGen.Around` states where the strategies, the summary and the source code sit in the prompt.
- `json.loads`, `json.dumps`, `str()` of non-strings and tenacity's `RetryError` text are fields of `Runtime`. Their content is not modelled beyond `Python.Sound`, which promises the dump-then-parse round trip only for float-free values, and does not model the digit limit Python puts on converting very long integers to text.
- JSON floats are reals. NaN and infinities are not modelled, and the literal `1.1` of `zzz.py` is taken as exactly 11/10.
- Match.Best: `topk(1)` over equal scores picks the first best entry here; torch does not promise which one. Embeddings and cosine similarity are an abstract `sim` function.
- Viewer.Browse: the screen size is fixed across frames, although `getmaxyx` is read again for every frame.
- Viewer.Browse and Viewer.Draw: require that every view the keys reach renders (`Visits`, `Shows`), because the source stalls forever inside the first `render_item` call whose `wrap_text` does not end (see Findings). Views the keys never reach are not constrained.
- Viewer.RenderItem: requires `Renders` (the screen is wide enough for every `wrap_text` call it makes), because the source loops forever otherwise (see Findings). `WideRenders` shows that five columns suffice.
- curses drawing is left out: `addstr` and its `line[:max_x-1]` cut, the footer, `curs_set`, `refresh` and the "no fields" message. The model gives the page's lines and the frames shown.
- The first `render_item` of `viewer.py` (lines 68-122) is shadowed by the second and never called, so it is not modelled.
- OptmGen.OptmFileLines, FeatureGen.FeatureFileLines and ExtractFeature.FeatureFileLines: the exact output line is stated for input records that have no `__idx` field of their own. A record that already has one would lose it on `pop`.
- JsonRepair.FencedRoundTrip: holds only when the indented dump holds no ```` ``` ````. A condition text that quotes a fence ends the block early, and then the matches do not read back. It also holds only for matches with no float in them, since a float's text need not read back as the same real.
- The print diagnostics, tqdm progress bars and the final messages of every script are left out, and so are the two counters and lists `zzz.py` prints (the model returns them instead).
- File opening, reading and writing are left out. A file is a sequence of lines; an output file is the lines written to it.
- `optm_generation_old/featuregen.py` and `optm_generation_old/sumgen.py` are earlier versions of two stages and are not part of this model. Each makes one call per record, with no retry and no empty-source short-circuit. It gathers the results in input order and appends them to its output file. The old `sumgen.py` stores `"Error: {e}"` when the call fails and writes only the records that are truthy; the old `featuregen.py` lets a failing call raise.

## Findings

| source | as written | input that shows it | evidently intended | confidence | as-written member | corrected member |
|---|---|---|---|---|---|---|
| optm_generation/viewer.py:58-66 | `wrap_text` never returns when `width <= 0` and a line is non-empty, or when `width < 0` and a line is empty: `line[width:]` gives the line back (or its last characters, then the same again) | split view on a screen 3 columns wide: `col_width = 3 // 2 - 1 = 0`, any non-empty source code | wrap only at positive widths, or clamp the width to at least 1 | not executed | Viewer.WrapStalls | Viewer.WrapText |
