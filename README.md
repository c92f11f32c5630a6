# fact_checker_bot in Dafny

A model of the fact-checking core of fact_checker_bot, with proofs about it.

## The pipeline being modelled

`FactChecker.fact_check(claim)` first validates the claim. It then runs five steps against a chat model:
1. It asks for an initial response.
2. It extracts one stripped assumption per line of the model's answer that is non-empty after `strip()`, so blank and whitespace-only lines are dropped.
3. For each assumption, it searches the web (SerpAPI when the key is truthy, i.e. neither `None` nor empty; DuckDuckGo otherwise, including for a key set to `""`), asks the model to judge the evidence, and reads the text after `Verdict:`. It also scores the evidence's credibility by domain suffix.
4. It asks for a final report and classifies it by keyword.
5. It asks for the claim's category.

A failing call in steps 1, 2, 4 or 5 ends the run with an error report carrying that call's error. A failing verification call in step 3 is stored as that assumption's "Error" entry, and the loop goes on with the next assumption.

## How the model is built

The model follows the repository's modules:

- `text.dfy` (`Text`): the Python `str` operations the code relies on. This covers `strip`, `split(sep)`, `split()`, `join`, `in`, `find` and `lower`, stated over `seq<char>`, with the lemmas relating them (split/join round trips, what `strip` leaves).
- `ordered_dict.dfy` (`OrderedDict`): a Python `dict` as an insertion-ordered list of entries. Storing under a present key replaces that key's value in its first position.
- `utils.dfy` (`Utils`): `validate_claim`, `clean_text`, and `calculate_credibility`, which is a loop proved against the mean of the per-source scores.
- `prompt_chains.dfy` (`PromptChains`): the four templates as literal text and named fields, Python's `str.format` on such text (including its error messages), and `get_initial_response_chain`.
- `search_tools.dfy` (`SearchTools`): the class `WebSearchTool`, its provider dispatch, the two result-normalising loops, and `_extract_domain`.
- `fact_checker.dfy` (`FactChecking`):
  - the answer parsers and the credibility table;
  - a pure specification of a whole run (`FactCheckRun` and its step functions);
  - the class `FactChecker`, whose methods are proved to follow that specification.

### How the outside world appears

- The Groq chat service and the two search providers are function-valued parameters (oracles).
- An oracle receives its call's position in a log, so repeated prompts may get different answers.
- Each answer is a result or a failure. A failure stands for any exception the call raises.
- Both classes log every external call: `FactChecker.chats` holds the chat requests and `WebSearchTool.requests` holds the provider requests.
- Method contracts state the new logs as well as the returned value.

### Behaviour worth knowing

- The verification template (`src/prompt_chains.py:35`) asks the model for `Verdict: [True/False/Uncertain]`. The code does not check for those three words. It keeps the text after the first `Verdict:`, cut at the first newline or the next `Verdict:`, whichever comes first, and stripped (`FactChecking.MarkerVerdictCut`).
- `_score_credibility` does not lower-case domains, while `calculate_credibility` does. An upper-case `.GOV` domain therefore scores 0.5 in the first and 0.9 in the second (`FactChecking.ScorersDiffer`).
- Assumptions repeated in the model's answer are verified once per occurrence, and the last verification's entry is kept (`FactChecking.LastWriteWins`).

## Model

| member | source | states |
|---|---|---|
| Text.IndexOfSpec | src/fact_checker.py:130-131 | `find` gives the leftmost occurrence, and reports absence exactly when the pattern does not occur |
| Text.ContainsChar | src/fact_checker.py:130 | for a one-character pattern, `in` is character membership |
| Text.Split | src/fact_checker.py:131 | `split(sep)` always yields at least one piece |
| Text.SplitPieces | src/fact_checker.py:131 | no piece of a split contains the separator |
| Text.JoinSplit | src/utils.py:100 | joining the pieces of a split with the same separator gives the text back |
| Text.SplitJoin | src/fact_checker.py:110 | splitting a join gives the parts back when no part holds the separator |
| Text.SplitCharCount | src/fact_checker.py:110 | `s.split(c)` has one more piece than `s` has occurrences of `c` |
| Text.SplitFirst | src/fact_checker.py:131 | the first piece of a split runs up to the first separator |
| Text.SplitSecond | src/fact_checker.py:131 | a text holding the separator has a second piece, which starts right after the first separator |
| Text.SplitCharAppend | src/fact_checker.py:110 | `(a + c + b).split(c)` is `a.split(c) + b.split(c)` |
| Text.StripFacts | src/utils.py:21 | `strip()` leaves no whitespace at either end; it leaves nothing exactly when the text is all whitespace; it leaves stripped text unchanged |
| Text.StripSlice | src/fact_checker.py:131 | what `strip()` keeps is a contiguous piece of the text |
| Text.WordsFacts | src/utils.py:76 | every word of `split()` is non-empty and free of whitespace |
| Text.WordsStrip | src/utils.py:75-76 | `s.strip().split()` equals `s.split()` |
| Text.WordsJoin | src/utils.py:76 | `' '.join(words).split()` gives the words back |
| Text.JoinWordsTrimmed | src/utils.py:76 | a space-joined list of words has no whitespace at either end |
| Text.JoinWordsSingleSpaced | src/utils.py:76 | each whitespace character of a space-joined list of words is one space between two non-space characters |
| Text.LowerAppend | src/fact_checker.py:192 | `lower()` distributes over concatenation |
| Text.LowerIdempotent | src/fact_checker.py:192 | lower-casing twice is lower-casing once |
| OrderedDict.Find | src/fact_checker.py:182-185 | a found position holds the key; no position is found only when no entry holds it |
| OrderedDict.GetKeys | src/fact_checker.py:182-185 | `d.get(k)` finds a value exactly for the keys of `d` |
| OrderedDict.GetAt | src/fact_checker.py:182-185 | the entry after which a key is not stored again is the one `get` returns |
| OrderedDict.GetAbsent | src/fact_checker.py:182-185 | a key stored nowhere is not found |
| OrderedDict.Set | src/fact_checker.py:133 | `d[k] = v` keeps every key stored once |
| OrderedDict.SetFacts | src/fact_checker.py:133-145 | after `d[k] = v`: `k` maps to `v`, other keys keep their values, and `k` is appended to the keys only if it was new |
| OrderedDict.Distinct | src/fact_checker.py:114-147 | the keys without repeats, in first-appearance order: same members, no duplicates |
| OrderedDict.SetEach | src/fact_checker.py:114-145 | the dictionary a loop of stores builds keeps each key once |
| OrderedDict.SetEachKeys | src/fact_checker.py:114-147 | the loop's dictionary has the distinct keys in order of first appearance |
| OrderedDict.SetEachLast | src/fact_checker.py:133-145 | a key's entry is the value computed at its last occurrence |
| OrderedDict.SetEachOther | src/fact_checker.py:133-145 | the last store leaves all other keys' entries alone |
| Utils.ValidateClaimSpec | src/utils.py:20-21 | a claim is valid exactly when it is a string with at least one non-whitespace character |
| Utils.CleanText | src/utils.py:62-77 | a non-string gives ""; otherwise the result has no whitespace at either end, every whitespace in it is one space between words, and its words are the input's words |
| Utils.CleanTextIdempotent | src/utils.py:62-77 | cleaning cleaned text changes nothing |
| Utils.LastLabel | src/utils.py:100 | `domain.split('.')[-1]` is the dot-free suffix after the last dot, or the whole domain |
| Utils.JoinSnoc | src/utils.py:100 | a join of two or more parts is the join of all but the last, then the separator, then the last part |
| Utils.LastLabelAfterDot | src/utils.py:100 | the label after the last dot is the text that follows that dot |
| Utils.LastLabelNoDot | src/utils.py:100 | a domain without dots is its own last label |
| Utils.CalculateCredibility | src/utils.py:79-103 | the loop's result is the mean of the sources' table scores, and 0.0 for no sources |
| Utils.SumScoresSnoc | src/utils.py:98-101 | scoring one more source adds its score to the running total |
| Utils.SumAppend | src/utils.py:97-101 | the total of two lists of scores is the sum of their totals |
| Utils.SumBounds | src/utils.py:97-101 | scores within [lo, hi] give a total within [lo·n, hi·n] |
| Utils.MeanBounds | src/utils.py:103 | the mean of scores within [lo, hi] lies within [lo, hi] |
| Utils.SumScoresPermutation | src/utils.py:97-101 | reordering the sources leaves the total unchanged |
| Utils.MeanPermutation | src/utils.py:97-103 | reordering the sources leaves the credibility unchanged |
| Utils.CredibilityRange | src/utils.py:79-103 | 0.0 for no sources; otherwise between 0.5 and 0.9 whatever the order |
| Utils.SourceScoreRange | src/utils.py:92-100 | a single source scores between 0.5 and 0.9 |
| Utils.SuffixScoreStored | src/utils.py:100 | a lookup gives a stored entry: the suffix key's entry when the table has that key, otherwise the entry of "other" |
| Utils.SuffixScoreRange | src/utils.py:100 | a lookup in a table whose scores lie in [lo, hi] lies in [lo, hi] |
| Utils.GovScore | src/utils.py:92-95 | ".gov" is stored at 0.9 |
| Utils.DotAbsent | src/utils.py:92-100 | an empty last label (the key ".") is not in the table |
| Utils.SourceScoreCases | src/utils.py:99-100 | "X.GOV" and "X.gov" both score 0.9 (lower-casing comes first); a source without a domain scores 0.5 |
| PromptChains.FormatLit | src/fact_checker.py:103 | in a format string, `{{` and `}}` produce single braces and other characters are copied |
| PromptChains.FormatField | src/fact_checker.py:103 | `{name}` becomes the supplied value, and a missing name raises `KeyError` naming it |
| PromptChains.FormatSource | src/fact_checker.py:103 | formatting a well-formed template's text is filling in its fields |
| PromptChains.RenderSucceeds | src/fact_checker.py:103 | filling in succeeds exactly when every field name is supplied |
| PromptChains.InitialResponseFields | src/prompt_chains.py:8-13 | the initial-response template has the single field `claim` |
| PromptChains.AssumptionExtractionFields | src/prompt_chains.py:15-21 | the extraction template has the single field `response` |
| PromptChains.VerificationFields | src/prompt_chains.py:23-37 | the verification template has the fields `assumption` and `evidence`, in that order |
| PromptChains.FinalSynthesisFields | src/prompt_chains.py:39-52 | the synthesis template has the fields `claim`, `initial_response` and `verification_results`, in that order |
| PromptChains.InitialResponsePrompt | src/prompt_chains.py:8-13 | the initial prompt holds the claim verbatim |
| PromptChains.AssumptionExtractionPrompt | src/prompt_chains.py:15-21 | the extraction prompt holds the text verbatim |
| PromptChains.VerificationPrompt | src/prompt_chains.py:23-37 | the verification prompt asks for a `Verdict:` line |
| PromptChains.InitialResponseRendered | src/prompt_chains.py:8-13 | filling in the claim gives the initial prompt |
| PromptChains.AssumptionExtractionRendered | src/prompt_chains.py:15-21 | filling in the response gives the extraction prompt |
| PromptChains.VerificationRendered | src/prompt_chains.py:23-37 | filling in the assumption and the evidence gives the verification prompt |
| PromptChains.FinalSynthesisRendered | src/prompt_chains.py:39-52 | filling in the three values gives the synthesis prompt |
| PromptChains.InitialResponseFormatted | src/fact_checker.py:103 | `INITIAL_RESPONSE_TEMPLATE.format(claim=c)` succeeds and gives the initial prompt for `c` |
| PromptChains.AssumptionExtractionFormatted | src/fact_checker.py:108 | `ASSUMPTION_EXTRACTION_TEMPLATE.format(response=t)` succeeds and gives the extraction prompt for `t` |
| PromptChains.VerificationFormatted | src/fact_checker.py:122-125 | `VERIFICATION_TEMPLATE.format(...)` succeeds and gives the verification prompt |
| PromptChains.FinalSynthesisFormatted | src/fact_checker.py:151-155 | `FINAL_SYNTHESIS_TEMPLATE.format(...)` succeeds and gives the synthesis prompt |
| PromptChains.InitialResponseFormatsAll | src/prompt_chains.py:58-61 | formatting the initial-response text with any claim gives that claim's prompt |
| PromptChains.GetInitialResponseChain | src/prompt_chains.py:58-61 | the returned raw template, formatted with any claim, gives that claim's initial prompt |
| SearchTools.SlashSlashCount | src/search_tools.py:86 | a text containing "//" has at least two slashes |
| SearchTools.ThirdSegment | src/search_tools.py:86 | a URL containing "//" has a third '/'-separated segment, so `[2]` cannot fail |
| SearchTools.ExtractDomain | src/search_tools.py:82-86 | a missing or empty URL gives ""; the result never contains '/' |
| SearchTools.HostSegment | src/search_tools.py:86 | the first '/'-separated segment of `host + path` is the host |
| SearchTools.ExtractDomainUrl | src/search_tools.py:82-86 | `scheme//host/path` yields its host |
| SearchTools.SlashSplit | src/search_tools.py:86 | the segment before the first '/' comes off first |
| SearchTools.ExtractDomainBare | src/search_tools.py:82-86 | a URL without "//" yields everything before its first '/' |
| SearchTools.ProcessApiResults | src/search_tools.py:58-68 | the first five organic results, in order, each as title/link/snippet plus the link's domain; none when "organic_results" is absent |
| SearchTools.ProcessDdgResults | src/search_tools.py:70-80 | one record per DuckDuckGo result, in order, each as title/href/body plus the href's domain |
| SearchTools.RecordDomains | src/search_tools.py:58-80 | every normalised record's domain is free of '/' |
| SearchTools.RequestFor | src/search_tools.py:16-24 | SerpAPI is called exactly when the key is truthy, with the query, key, count and headers; DuckDuckGo gets the query and count otherwise |
| SearchTools.SearchOutcome | src/search_tools.py:16-27 | a failing provider gives []; the SerpAPI path gives at most five records; the DuckDuckGo path gives one per raw result |
| SearchTools.WebSearchTool.constructor | src/search_tools.py:10-14 | stores the key; headers carry the bot's User-Agent; no requests made yet |
| SearchTools.WebSearchTool.Search | src/search_tools.py:16-27 | exactly one provider request is logged; the result is that provider's normalised answer, or [] if it fails |
| FactChecking.NonEmptyStrippedLines | src/fact_checker.py:110 | at most one kept line per line, each non-empty and stripped |
| FactChecking.NonEmptyStrippedAppend | src/fact_checker.py:110 | the comprehension distributes over concatenation of line lists |
| FactChecking.NonEmptyStrippedSelf | src/fact_checker.py:110 | lines that are already non-empty and stripped are kept as they are |
| FactChecking.AssumptionLinesFacts | src/fact_checker.py:110 | at most one assumption per line of the answer, each non-empty and stripped |
| FactChecking.AssumptionLinesAppend | src/fact_checker.py:110 | lines are read independently: joining two answers at a newline concatenates their assumptions |
| FactChecking.AssumptionLinesJoin | src/fact_checker.py:110 | non-empty, stripped, single-line claims written one per line are extracted back exactly |
| FactChecking.ThreeClaims | tests/test_fact_checker.py:18-22 | "Claim 1\nClaim 2\nClaim 3" gives the three claims |
| FactChecking.ThreeClaimsJoined | tests/test_fact_checker.py:19 | the test's answer is the three claims joined by newlines |
| FactChecking.ThreeClaimsSingleLines | tests/test_fact_checker.py:19 | each of the test's claims is non-empty, stripped and one line |
| FactChecking.MarkerVerdictFacts | src/fact_checker.py:128-131 | "Uncertain" without the marker; otherwise a stripped, single-line text |
| FactChecking.FirstLine | src/fact_checker.py:131 | the first line of a split at newlines contains no newline |
| FactChecking.StripNoNewline | src/fact_checker.py:131 | stripping a single line keeps it single-line |
| FactChecking.MarkerVerdictCut | src/fact_checker.py:130-131 | the verdict is the text after the first marker, cut at the next marker or newline, whichever comes first, then stripped |
| FactChecking.MarkerAfter | src/fact_checker.py:130-131 | after a marker-free prefix, the first marker is the one that follows it |
| FactChecking.LineEnd | src/fact_checker.py:131 | in a marker-free line followed by a newline, the cut stops at that newline |
| FactChecking.MarkerVerdictLine | src/fact_checker.py:128-131 | "…Verdict: v\n…" yields `v.strip()` for a single-line `v` |
| FactChecking.ParseVerdict | src/fact_checker.py:190-197 | "True" iff "true" but not "false" occurs case-insensitively; "False" iff "false" occurs; "Uncertain" iff neither |
| FactChecking.EstimateConfidence | src/fact_checker.py:199-206 | "High" iff "high confidence" occurs; "Medium" iff only "medium confidence" does; "Low" iff neither |
| FactChecking.ClassifiersIgnoreCase | src/fact_checker.py:190-206 | both classifiers give the same answer on the lower-cased text |
| FactChecking.FalseWins | src/fact_checker.py:192-196 | any text containing "false" somewhere is "False", whatever surrounds it |
| FactChecking.HighWins | src/fact_checker.py:201-203 | any text containing "high confidence" somewhere is "High" |
| FactChecking.CheckerOther | src/fact_checker.py:35-38 | the table's "other" entry is 0.5 |
| FactChecking.CheckerScoreRange | src/fact_checker.py:180-186 | every source scores between 0.5 and 0.9 |
| FactChecking.CheckerCredibilityRange | src/fact_checker.py:174-188 | 0.0 for no sources; otherwise between 0.5 and 0.9, independent of the sources' order |
| FactChecking.SameTable | src/fact_checker.py:35-38 | the checker's table equals the table of `calculate_credibility` |
| FactChecking.OtherScore | src/fact_checker.py:181-185 | a missing domain is looked up as "other", whose key ".other" is absent, so it gets the fallback score |
| FactChecking.UpperGovScore | src/fact_checker.py:182-185 | without lower-casing, a ".GOV" suffix misses the table and falls back to "other" |
| FactChecking.CheckerOtherScore | src/fact_checker.py:181-185 | a source without a domain scores 0.5 |
| FactChecking.CheckerUpperGovScore | src/fact_checker.py:182-185 | a domain ending in ".GOV" scores 0.5 |
| FactChecking.ScorersAgree | src/fact_checker.py:180-186 | the checker's scorer and `calculate_credibility`'s agree on lower-case domains and on a missing domain |
| FactChecking.ScorersDiffer | src/fact_checker.py:180-186 | on "X.GOV" the checker's scorer gives 0.5 and `calculate_credibility` gives 0.9 |
| FactChecking.ClassifyText | src/fact_checker.py:167-171 | the classification prompt starts with its fixed header and holds the claim |
| FactChecking.SearchRequests | src/fact_checker.py:116-119 | one search request per assumption |
| FactChecking.VerificationChats | src/fact_checker.py:116-126 | one verification chat request per assumption |
| FactChecking.LastWriteWins | src/fact_checker.py:133-145 | an assumption's entry is the outcome of its last verification, made with that pass's search and chat call |
| FactChecking.VerifyAllSnoc | src/fact_checker.py:116-145 | verifying one more assumption is one more pass: one search, one chat call, and a store under the assumption |
| FactChecking.AskFailed | src/fact_checker.py:88-99 | a failing chat call is logged, and the error it raises is the one reported |
| FactChecking.FromSynthesisFacts | src/fact_checker.py:68-82 | a failing synthesis call gives its error report; otherwise a failing classification call gives its error report; otherwise the report holds the synthesis answer as summary, its parsed verdict and confidence, and the stripped classification answer as claim type; exactly the two requests are appended and the earlier parts are unchanged |
| FactChecking.FromExtractionFacts | src/fact_checker.py:62-86 | a failing extraction call gives its error report; otherwise the answer's lines are verified and steps 4-5 decide the report, which then holds those assumptions and their verification; calls are only appended, and an error report carries the last chat call's failure |
| FactChecking.LoopGrows | src/fact_checker.py:112-147 | the verification loop only appends calls |
| FactChecking.ExtractionAnswers | src/fact_checker.py:62-82 | a report that steps 2-5 decided holds the verification of the extracted lines, the synthesis answer and the stripped classification answer |
| FactChecking.FromExtractionSucceeded | src/fact_checker.py:62-82 | a successful run from step 2 holds the answer's lines, their verification dictionary (each distinct assumption once), the synthesis answer as summary and the stripped classification answer, after exactly the expected searches and chat calls in order |
| FactChecking.FromInitialFacts | src/fact_checker.py:59-86 | a failing initial call gives its error report; otherwise steps 2-5 decide the report as above, and a report holds the claim and the initial answer; calls are only appended |
| FactChecking.FromInitialSucceeded | src/fact_checker.py:59-82 | a successful run's initial response is the model's first answer, followed by a successful extraction outcome holding the later answers |
| FactChecking.FactCheckFacts | src/fact_checker.py:55-86 | an invalid claim is reported as "Invalid claim" without any call; for a valid claim, the first failing call of steps 1, 2, 4 and 5 gives its error report and otherwise the report holds the answers; calls are only appended |
| FactChecking.FactCheckSucceeded | src/fact_checker.py:59-82 | a successful report holds the claim, the model's initial answer, the extracted lines, their verification, the synthesis answer and the stripped classification, after calls for the initial response, the assumptions, one verification per assumption, the synthesis and the classification, in that order |
| FactChecking.FactChecker.constructor | src/fact_checker.py:22-38 | a fresh search tool with the given key and the bot's headers; no calls made yet |
| FactChecking.FactChecker.QueryModel | src/fact_checker.py:88-99 | one chat request with the model name, the user message and temperature 0.3, logged whether or not it fails; the answer is the service's |
| FactChecking.FactChecker.GetInitialResponse | src/fact_checker.py:101-104 | asks once with the initial prompt for the claim |
| FactChecking.FactChecker.ExtractAssumptions | src/fact_checker.py:106-110 | asks once and returns the non-empty stripped lines of the answer |
| FactChecking.FactChecker.ScoreCredibility | src/fact_checker.py:174-188 | the loop's result is the mean of the evidence records' table scores, 0.0 for none |
| FactChecking.FactChecker.VerifyOne | src/fact_checker.py:117-145 | one search, then one chat call on its evidence, giving the marker verdict and credibility, or the call's error |
| FactChecking.FactChecker.VerifyAssumptions | src/fact_checker.py:112-147 | the dictionary and the calls are those of one pass per assumption in order, each stored under its assumption |
| FactChecking.FactChecker.SynthesizeFinal | src/fact_checker.py:149-163 | asks once; the summary is the answer, with its parsed verdict and confidence |
| FactChecking.FactChecker.ClassifyClaim | src/fact_checker.py:165-172 | asks once with the classification prompt and returns the stripped answer |
| FactChecking.FactChecker.FactCheck | src/fact_checker.py:40-86 | the report and every call made are those of the pipeline specification: a failing call in steps 1, 2, 4 or 5 ends the run with its error, while a failing verification is stored as an "Error" entry |

## Left out

- The Groq service, SerpAPI's HTTP endpoint and DuckDuckGo's client are oracles given to the constructors. `response.raise_for_status()`, JSON decoding and `response.choices[0].message.content` are folded into those oracles' success or failure.
- SearchTools.WebSearchTool.Search: the copy of DuckDuckGo's result iterator into a list (`src/search_tools.py:48-55`) is folded into the DuckDuckGo oracle, which returns the list or fails.
- Python's `str()` of the evidence list and of the results dictionary (`src/fact_checker.py:124`, `:154`) are parameters (`showEvidence`, `showResults`). Python's repr format is not modelled.
- Utils.CalculateCredibility: returns the exact mean, not `round(x, 2)`, because floating-point rounding is not modelled. Scores are whole hundredths.
- FactChecking.FactChecker.ScoreCredibility: returns the exact mean, not `round(x, 2)`, because floating-point rounding is not modelled.
- Text.Lower: lower-cases ASCII letters only; Unicode case mapping is not modelled.
- Text.IsSpace: Python's `isspace()` is modelled on the Latin-1 range only.
- Text.Words: the Unicode whitespace beyond Latin-1 that `split()` also treats as a separator is not modelled.
- Utils.CalculateCredibility: a source is given by its "domain" entry as an optional string, so the model cannot express a source whose "domain" is present but `None` or not a string. On such a source `src/utils.py:99` raises `AttributeError`. The function has no caller in the program, so nothing rules out such a source.
- SearchTools.Get: provider JSON values other than strings, such as numbers and nested objects, are not modelled. Every raw record maps strings to strings.
- Chat prompts are recorded in the request log by the values filled into them (`Prompt`). `PromptText` gives the exact text sent.
- The LangChain builders `get_assumption_extraction_chain`, `get_verification_chain` and `get_final_synthesis_chain` (`src/prompt_chains.py:63-76`) construct third-party objects and are not modelled.
- PromptChains.Format: conversion flags (`!r`), format specs (`:>10`), attribute and index lookups in field names, and positional fields beyond the empty one are not modelled. None of the templates uses them.
- Logging (`log_error`, `setup_logging`) is not modelled; its only effect is output.
- The cache functions `save_to_cache` and `load_from_cache` are not modelled; they do file I/O and nothing in the core calls them.
- The Streamlit UI, the CLI, `main.py`, `config/settings.py` and `src/groq_client.py` are not part of this model.
- The model name and temperature are constants. The API keys, which in the application come from the environment, are constructor arguments.
