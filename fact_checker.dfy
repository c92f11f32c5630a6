/** The fact-checking pipeline of `src/fact_checker.py`: the text parsers that
    turn model answers into structure, the per-evidence credibility score, a
    pure specification of a whole run, and the `FactChecker` class whose
    methods are proved to follow that specification. The language model is an
    oracle that answers a prompt or fails. */
module FactChecking {
  import opened Wrappers
  import opened Text
  import opened OrderedDict
  import Utils
  import opened PromptChains
  import opened SearchTools

  // ---------------------------------------------------------------- assumption lines

  /** One line of the comprehension: kept, stripped, when something is left. */
  function KeptLine(line: string): seq<string> {
    var s := Strip(line);
    if s != [] then [s] else []
  }

  /** The lines that are non-empty once stripped, stripped, in order. */
  function NonEmptyStripped(lines: seq<string>): seq<string> {
    if lines == [] then [] else KeptLine(lines[0]) + NonEmptyStripped(lines[1..])
  }

  /** At most one kept line per input line, each non-empty and stripped. */
  lemma {:induction false} NonEmptyStrippedLines(lines: seq<string>)
    ensures var r := NonEmptyStripped(lines);
            |r| <= |lines| && forall k :: 0 <= k < |r| ==> r[k] != [] && Trimmed(r[k])
  {
    if lines != [] {
      NonEmptyStrippedLines(lines[1..]);
      StripFacts(lines[0]);
      var line, rest := Strip(lines[0]), NonEmptyStripped(lines[1..]);
      if line == [] {
        assert NonEmptyStripped(lines) == rest;
      } else {
        var r := [line] + rest;
        assert NonEmptyStripped(lines) == r;
        forall k | 1 <= k < |r| ensures r[k] != [] && Trimmed(r[k]) {
          assert r[k] == rest[k - 1];
        }
      }
    }
  }

  lemma {:induction false} NonEmptyStrippedAppend(a: seq<string>, b: seq<string>)
    ensures NonEmptyStripped(a + b) == NonEmptyStripped(a) + NonEmptyStripped(b)
  {
    if a != [] {
      var ab := a + b;
      assert ab[0] == a[0] && ab[1..] == a[1..] + b;
      NonEmptyStrippedAppend(a[1..], b);
      Assoc(KeptLine(a[0]), NonEmptyStripped(a[1..]), NonEmptyStripped(b));
    } else {
      assert a + b == b;
    }
  }

  lemma Assoc<T>(x: seq<T>, y: seq<T>, z: seq<T>)
    ensures x + (y + z) == x + y + z
  {
  }

  /** `[line.strip() for line in result.split('\n') if line.strip()]`. */
  function AssumptionLines(text: string): seq<string> {
    NonEmptyStripped(Split(text, "\n"))
  }

  /** At most one assumption per line of the answer, each non-empty and stripped. */
  lemma AssumptionLinesFacts(text: string)
    ensures var r := AssumptionLines(text);
            |r| <= |Split(text, "\n")| && forall k :: 0 <= k < |r| ==> r[k] != [] && Trimmed(r[k])
  {
    NonEmptyStrippedLines(Split(text, "\n"));
  }

  predicate NoNewline(s: string) {
    forall i | 0 <= i < |s| :: s[i] != '\n'
  }

  /** Lines are read independently: text joined at a newline gives the assumptions of
      each side, in order. */
  lemma AssumptionLinesAppend(a: string, b: string)
    ensures AssumptionLines(a + "\n" + b) == AssumptionLines(a) + AssumptionLines(b)
  {
    SplitCharAppend(a, '\n', b);
    NonEmptyStrippedAppend(Split(a, "\n"), Split(b, "\n"));
  }

  /** Writing stripped, non-empty, single-line claims one per line and extracting them
      gives the claims back. */
  lemma {:induction false} AssumptionLinesJoin(ws: seq<string>)
    requires forall k :: 0 <= k < |ws| ==> ws[k] != [] && Trimmed(ws[k]) && NoNewline(ws[k])
    ensures AssumptionLines(Join(ws, "\n")) == ws
  {
    if |ws| == 0 {
      assert Split("", "\n") == [""];
    } else {
      forall k | 0 <= k < |ws| ensures !Contains(ws[k], "\n") {
        ContainsChar(ws[k], '\n');
      }
      SplitJoin(ws, "\n");
      NonEmptyStrippedSelf(ws);
    }
  }

  lemma {:induction false} NonEmptyStrippedSelf(ws: seq<string>)
    requires forall k :: 0 <= k < |ws| ==> ws[k] != [] && Trimmed(ws[k])
    ensures NonEmptyStripped(ws) == ws
  {
    if ws != [] {
      NonEmptyStrippedSelf(ws[1..]);
      StripFacts(ws[0]);
      assert KeptLine(ws[0]) == [ws[0]];
      assert ws == [ws[0]] + ws[1..];
    }
  }

  /** Three claims on three lines give three assumptions. */
  lemma ThreeClaims()
    ensures AssumptionLines("Claim 1\nClaim 2\nClaim 3") == ["Claim 1", "Claim 2", "Claim 3"]
  {
    ThreeClaimsJoined();
    ThreeClaimsSingleLines();
    AssumptionLinesJoin(["Claim 1", "Claim 2", "Claim 3"]);
  }

  lemma ThreeClaimsJoined()
    ensures Join(["Claim 1", "Claim 2", "Claim 3"], "\n") == "Claim 1\nClaim 2\nClaim 3"
  {
    var ws := ["Claim 1", "Claim 2", "Claim 3"];
    assert ws[1..] == ["Claim 2", "Claim 3"];
    assert ws[1..][1..] == ["Claim 3"];
  }

  lemma ThreeClaimsSingleLines()
    ensures var ws := ["Claim 1", "Claim 2", "Claim 3"];
            forall k :: 0 <= k < |ws| ==> ws[k] != [] && Trimmed(ws[k]) && NoNewline(ws[k])
  {
  }

  // ---------------------------------------------------------------- the verdict marker

  /** The verdict inside one verification answer: "Uncertain" without the marker,
      otherwise `analysis.split("Verdict:")[1].split("\n")[0].strip()`. */
  function MarkerVerdict(analysis: string): string {
    if Contains(analysis, VerdictMarker) then
      SplitSecond(analysis, VerdictMarker);
      Strip(Split(Split(analysis, VerdictMarker)[1], "\n")[0])
    else "Uncertain"
  }

  /** "Uncertain" without the marker; otherwise a stripped text of one line. */
  lemma MarkerVerdictFacts(analysis: string)
    ensures !Contains(analysis, VerdictMarker) ==> MarkerVerdict(analysis) == "Uncertain"
    ensures Contains(analysis, VerdictMarker) ==>
              Trimmed(MarkerVerdict(analysis)) && NoNewline(MarkerVerdict(analysis))
  {
    if Contains(analysis, VerdictMarker) {
      SplitSecond(analysis, VerdictMarker);
      FirstLine(Split(analysis, VerdictMarker)[1]);
      StripNoNewline(Split(Split(analysis, VerdictMarker)[1], "\n")[0]);
      StripFacts(Split(Split(analysis, VerdictMarker)[1], "\n")[0]);
    }
  }

  /** The first line holds no newline. */
  lemma FirstLine(s: string)
    ensures NoNewline(Split(s, "\n")[0])
  {
    SplitPieces(s, "\n");
    ContainsChar(Split(s, "\n")[0], '\n');
  }

  /** Stripping keeps a piece of the text, so a one-line text stays one line. */
  lemma StripNoNewline(line: string)
    requires NoNewline(line)
    ensures NoNewline(Strip(line))
  {
    var j := StripSlice(line);
    var v := Strip(line);
    forall i | 0 <= i < |v| ensures v[i] != '\n' {
      assert v[i] == line[j + i];
    }
  }

  /** The marker verdict is the text after the first "Verdict:", cut at the next
      "Verdict:" or newline, whichever comes first, then stripped. */
  lemma MarkerVerdictCut(analysis: string)
    requires Contains(analysis, VerdictMarker)
    ensures IndexOf(analysis, VerdictMarker).Some?
    ensures var after := analysis[IndexOf(analysis, VerdictMarker).value + |VerdictMarker|..];
            var m := Upto(after, VerdictMarker);
            var n := Upto(after, "\n");
            MarkerVerdict(analysis) == Strip(after[..if n < m then n else m])
  {
    SplitSecond(analysis, VerdictMarker);
    var after := analysis[IndexOf(analysis, VerdictMarker).value + |VerdictMarker|..];
    var m := Upto(after, VerdictMarker);
    SplitFirst(after, VerdictMarker);
    var piece := after[..m];
    SplitFirst(piece, "\n");
    UptoPrefix(after, m, '\n');
    var k := Upto(piece, "\n");
    assert piece[..k] == after[..k];
  }

  lemma MarkerShape()
    ensures VerdictMarker != [] && FirstCharUnique(VerdictMarker) && '\n' !in VerdictMarker
  {
  }

  /** The first marker after a marker-free prefix is the one it is followed by. */
  lemma MarkerAfter(before: string, after: string)
    requires !Contains(before, VerdictMarker)
    ensures var s := before + VerdictMarker + after;
            Contains(s, VerdictMarker) && IndexOf(s, VerdictMarker) == Some(|before|) &&
            s[|before| + |VerdictMarker|..] == after
  {
    MarkerShape();
    ContainsInside(before, VerdictMarker, after);
    FirstOccurrence(before, VerdictMarker, after);
  }

  /** In a one-line `v` before a newline, the cut stops at that newline. */
  lemma LineEnd(v: string, rest: string)
    requires !Contains(v, VerdictMarker) && NoNewline(v)
    ensures Upto(v + "\n" + rest, "\n") == |v|
    ensures Upto(v + "\n" + rest, VerdictMarker) >= |v|
  {
    MarkerShape();
    ContainsChar(v, '\n');
    FirstOccurrence(v, "\n", rest);
    UptoPastChar(v, '\n', rest, VerdictMarker);
  }

  /** The marker followed by a one-line verdict yields that verdict, stripped. */
  lemma MarkerVerdictLine(before: string, v: string, rest: string)
    requires !Contains(before, VerdictMarker) && !Contains(v, VerdictMarker) && NoNewline(v)
    ensures MarkerVerdict(before + VerdictMarker + v + "\n" + rest) == Strip(v)
  {
    var after := v + "\n" + rest;
    var s := before + VerdictMarker + after;
    assert before + VerdictMarker + v + "\n" + rest == s;
    MarkerAfter(before, after);
    MarkerVerdictCut(s);
    LineEnd(v, rest);
    assert after[..|v|] == v;
  }

  // ---------------------------------------------------------------- report classifiers

  /** `_parse_verdict`: keywords searched in the lower-cased report. */
  function ParseVerdict(text: string): (v: string)
    ensures v == "True" <==> Contains(Lower(text), "true") && !Contains(Lower(text), "false")
    ensures v == "False" <==> Contains(Lower(text), "false")
    ensures v == "Uncertain" <==> !Contains(Lower(text), "true") && !Contains(Lower(text), "false")
  {
    var low := Lower(text);
    if Contains(low, "true") && !Contains(low, "false") then "True"
    else if Contains(low, "false") then "False"
    else "Uncertain"
  }

  /** `_estimate_confidence`: "High" wins over "Medium", and "Low" is the default. */
  function EstimateConfidence(text: string): (c: string)
    ensures c == "High" <==> Contains(Lower(text), "high confidence")
    ensures c == "Medium" <==> !Contains(Lower(text), "high confidence") && Contains(Lower(text), "medium confidence")
    ensures c == "Low" <==> !Contains(Lower(text), "high confidence") && !Contains(Lower(text), "medium confidence")
  {
    var low := Lower(text);
    if Contains(low, "high confidence") then "High"
    else if Contains(low, "medium confidence") then "Medium"
    else "Low"
  }

  /** Both classifiers ignore letter case. */
  lemma ClassifiersIgnoreCase(text: string)
    ensures ParseVerdict(Lower(text)) == ParseVerdict(text)
    ensures EstimateConfidence(Lower(text)) == EstimateConfidence(text)
  {
    LowerIdempotent(text);
  }

  /** Text that mentions "false" stays "False" whatever is written around it, so a
      report that reads true in one part and false in another is "False". */
  lemma FalseWins(a: string, b: string, c: string)
    requires Contains(Lower(b), "false")
    ensures ParseVerdict(a + b + c) == "False"
  {
    LowerAppend(a + b, c);
    LowerAppend(a, b);
    ContainsAppendRight(Lower(a), Lower(b), "false");
    ContainsAppendLeft(Lower(a) + Lower(b), Lower(c), "false");
  }

  /** A "high confidence" anywhere makes the estimate "High", whatever else is said. */
  lemma HighWins(a: string, b: string, c: string)
    requires Contains(Lower(b), "high confidence")
    ensures EstimateConfidence(a + b + c) == "High"
  {
    LowerAppend(a + b, c);
    LowerAppend(a, b);
    ContainsAppendRight(Lower(a), Lower(b), "high confidence");
    ContainsAppendLeft(Lower(a) + Lower(b), Lower(c), "high confidence");
  }

  // ---------------------------------------------------------------- credibility

  /** `self.domain_scores`, in hundredths. */
  const CheckerDomainScores: Dict<nat> :=
    Dict([(".gov", 90), (".edu", 85), (".org", 80), (".com", 70), (".net", 60), ("other", 50)])

  /** "other" is the last key, at 0.5. */
  lemma CheckerOther()
    ensures OrderedDict.Get(CheckerDomainScores, "other") == Some(50)
  {
    OrderedDict.GetAt(CheckerDomainScores, 5);
  }

  /** One source's score: the table entry for "." + the domain's last label, looked up
      without changing case; a missing domain reads as "other". */
  function CheckerScore(domain: Option<string>): nat {
    CheckerOther();
    Utils.SuffixScore(CheckerDomainScores, if domain.Some? then domain.value else "other")
  }

  lemma CheckerScoreRange(domain: Option<string>)
    ensures 50 <= CheckerScore(domain) <= 90
  {
    CheckerOther();
    Utils.SuffixScoreRange(CheckerDomainScores, if domain.Some? then domain.value else "other", 50, 90);
  }

  /** The value `_score_credibility` returns, before rounding. */
  function CheckerCredibility(sources: seq<Option<string>>): real {
    Utils.Mean(Utils.ScoresOf(CheckerScore, sources))
  }

  /** 0.0 without sources, otherwise between 0.5 and 0.9, whatever the sources' order. */
  lemma CheckerCredibilityRange(sources: seq<Option<string>>)
    ensures sources == [] ==> CheckerCredibility(sources) == 0.0
    ensures sources != [] ==> 0.5 <= CheckerCredibility(sources) <= 0.9
    ensures forall other :: multiset(other) == multiset(sources) ==>
      CheckerCredibility(other) == CheckerCredibility(sources)
  {
    var xs := Utils.ScoresOf(CheckerScore, sources);
    forall k | 0 <= k < |xs| ensures 50 <= xs[k] <= 90 {
      CheckerScoreRange(sources[k]);
    }
    if sources != [] {
      Utils.MeanBounds(xs, 50, 90);
    }
    forall other | multiset(other) == multiset(sources)
      ensures CheckerCredibility(other) == CheckerCredibility(sources)
    {
      Utils.MeanPermutation(CheckerScore, other, sources);
    }
  }

  /** The two tables hold the same scores. */
  lemma SameTable()
    ensures CheckerDomainScores == Utils.DomainScores
  {
  }

  /** A missing domain is looked up as "other", whose key ".other" the table lacks. */
  lemma OtherScore(table: Dict<nat>)
    requires OrderedDict.Get(table, "other").Some? && OrderedDict.Get(table, ".other").None?
    ensures Utils.SuffixScore(table, "other") == OrderedDict.Get(table, "other").value
  {
    assert '.' !in "other";
    Utils.LastLabelNoDot("other");
    assert "." + "other" == ".other";
  }

  /** An upper-case ".GOV" is not found in a table that lacks it. */
  lemma UpperGovScore(table: Dict<nat>, prefix: string)
    requires OrderedDict.Get(table, "other").Some? && OrderedDict.Get(table, ".GOV").None?
    ensures Utils.SuffixScore(table, prefix + ".GOV") == OrderedDict.Get(table, "other").value
  {
    assert '.' !in "GOV";
    assert prefix + ".GOV" == prefix + "." + "GOV";
    Utils.LastLabelAfterDot(prefix, "GOV");
    assert "." + "GOV" == ".GOV";
  }

  lemma CheckerOtherScore()
    ensures CheckerScore(None) == 50
  {
    CheckerOther();
    var items := CheckerDomainScores.items;
    assert forall i :: 0 <= i < |items| ==> |items[i].0| != 6;
    OrderedDict.GetAbsent(CheckerDomainScores, ".other");
    OtherScore(CheckerDomainScores);
  }

  lemma CheckerUpperGovScore(prefix: string)
    ensures CheckerScore(Some(prefix + ".GOV")) == 50
  {
    CheckerOther();
    var items := CheckerDomainScores.items;
    assert ".GOV"[1] == 'G';
    assert forall i :: 0 <= i < |items| ==> |items[i].0| != 4 || items[i].0[1] != 'G';
    OrderedDict.GetAbsent(CheckerDomainScores, ".GOV");
    UpperGovScore(CheckerDomainScores, prefix);
  }

  /** The two scorers agree on lower-case domains and on a missing domain. */
  lemma ScorersAgree(domain: string)
    ensures Lower(domain) == domain ==> CheckerScore(Some(domain)) == Utils.SourceScore(Some(domain))
    ensures CheckerScore(None) == Utils.SourceScore(None) == 50
  {
    Utils.SourceScoreCases("");
    CheckerOtherScore();
    SameTable();
  }

  /** Only `calculate_credibility` lower-cases: a domain ending in ".GOV" scores 0.5
      here and 0.9 there. */
  lemma ScorersDiffer(prefix: string)
    ensures CheckerScore(Some(prefix + ".GOV")) == 50
    ensures Utils.SourceScore(Some(prefix + ".GOV")) == 90
  {
    Utils.SourceScoreCases(prefix);
    CheckerUpperGovScore(prefix);
  }

  // ---------------------------------------------------------------- model calls

  /** The prompt of `_classify_claim`, indentation included. */
  const ClassifyHead := "Classify this claim:\n        Categories: Factual, Opinion, Mixed, Unverifiable\n        \n        Claim: "
  const ClassifyTail := "\n        Category:"

  function ClassifyText(claim: string): (p: string)
    ensures ClassifyHead <= p && Contains(p, claim)
  {
    ContainsInside(ClassifyHead, claim, ClassifyTail);
    ClassifyHead + claim + ClassifyTail
  }

  /** The five prompts the checker sends, by the values filled into them. */
  datatype Prompt =
    | InitialPrompt(claim: string)
    | ExtractionPrompt(response: string)
    | CheckPrompt(assumption: string, evidence: string)
    | SynthesisPrompt(claim: string, initialResponse: string, results: string)
    | ClassifyPrompt(claim: string)

  /** The text of a prompt, as it is sent. */
  function PromptText(p: Prompt): string {
    match p
    case InitialPrompt(claim) => InitialResponsePrompt(claim)
    case ExtractionPrompt(response) => AssumptionExtractionPrompt(response)
    case CheckPrompt(assumption, evidence) => VerificationPrompt(assumption, evidence)
    case SynthesisPrompt(claim, initial, results) => FinalSynthesisPrompt(claim, initial, results)
    case ClassifyPrompt(claim) => ClassifyText(claim)
  }

  /** One chat message of the Groq request; its text is `PromptText(content)`. */
  datatype Message = Message(role: string, content: Prompt)

  /** The arguments of `client.chat.completions.create`. */
  datatype ChatRequest = ChatRequest(model: string, messages: seq<Message>, temperature: real)

  /** The Groq service: answers the n-th request with the first choice's content, or
      fails with the exception's message. */
  type ChatModel = (nat, ChatRequest) -> Result<string>

  const ModelName := "openai/gpt-oss-20b"
  const Temperature := 0.3

  /** The request `_query_groq` sends for a prompt. */
  function Request(prompt: Prompt): ChatRequest {
    ChatRequest(ModelName, [Message("user", prompt)], Temperature)
  }

  /** Every external call made so far: chat requests and search-provider requests. */
  datatype Logs = Logs(chats: seq<ChatRequest>, searches: seq<SearchRequest>)

  /** What one verification produced: the checked dictionary, or the one whose
      "verdict" is "Error". */
  datatype VerificationResult =
    | Checked(verdict: string, evidence: seq<EvidenceRecord>, credibility: real, analysis: string)
    | Errored(error: string)

  /** The dictionary `_synthesize_final` returns. */
  datatype FinalAnswer = FinalAnswer(verdict: string, summary: string, confidence: string)

  /** The dictionary `fact_check` returns: status "success" with six entries, or
      status "error" with the message. */
  datatype Report =
    | Reported(claim: string, claimType: string, initialResponse: string, assumptions: seq<string>,
               verificationResults: Dict<VerificationResult>, finalAnswer: FinalAnswer)
    | ErrorReport(error: string)

  /** The checker's collaborators: the chat service, the search tool's settings and
      providers, and `str()` of the evidence list and of the results dictionary. */
  datatype Env = Env(
    model: ChatModel,
    apiKey: Option<string>,
    headers: map<string, string>,
    serpApi: SerpApi,
    ddg: DdgSearch,
    showEvidence: seq<EvidenceRecord> -> string,
    showResults: Dict<VerificationResult> -> string)

  /** `_query_groq(prompt)`: one logged chat call. */
  function Ask(env: Env, logs: Logs, prompt: Prompt): (Result<string>, Logs) {
    (env.model(|logs.chats|, Request(prompt)), logs.(chats := logs.chats + [Request(prompt)]))
  }

  // ---------------------------------------------------------------- verifying assumptions

  /** `search_tool.search(assumption)` as the `call`-th provider call. */
  function Evidence(env: Env, call: nat, assumption: string): seq<EvidenceRecord> {
    SearchResult(env.apiKey, env.headers, env.serpApi, env.ddg, call, assumption, DefaultNumResults)
  }

  /** Each evidence record's "domain" entry. */
  function Domains(evidence: seq<EvidenceRecord>): (r: seq<Option<string>>)
    ensures |r| == |evidence|
    ensures forall k :: 0 <= k < |r| ==> r[k] == Some(evidence[k].domain)
  {
    seq(|evidence|, k requires 0 <= k < |evidence| => Some(evidence[k].domain))
  }

  /** The entry stored for one assumption, given its evidence and the model's answer. */
  function Outcome(evidence: seq<EvidenceRecord>, answer: Result<string>): VerificationResult {
    match answer
    case Failure(e) => Errored(e)
    case Success(analysis) =>
      Checked(MarkerVerdict(analysis), evidence, CheckerCredibility(Domains(evidence)), analysis)
  }

  /** The verification prompt for an assumption searched as the `call`-th provider call. */
  function CheckRequest(env: Env, call: nat, assumption: string): ChatRequest {
    Request(CheckPrompt(assumption, env.showEvidence(Evidence(env, call, assumption))))
  }

  /** The entry stored for an assumption searched as the `search`-th provider call and
      verified by the `chat`-th chat call. */
  function Entry(env: Env, search: nat, chat: nat, assumption: string): VerificationResult {
    Outcome(Evidence(env, search, assumption), env.model(chat, CheckRequest(env, search, assumption)))
  }

  /** The entry of the k-th pass of a loop started with `logs`: its search is the k-th
      provider call and its chat the k-th chat call since the start. */
  function PassEntry(env: Env, logs: Logs): (nat, string) -> VerificationResult {
    (k: nat, a: string) => Entry(env, |logs.searches| + k, |logs.chats| + k, a)
  }

  lemma PassEntryAt(env: Env, logs: Logs, k: nat, assumption: string)
    ensures PassEntry(env, logs)(k, assumption) == Entry(env, |logs.searches| + k, |logs.chats| + k, assumption)
  {
  }

  /** The search requests the loop makes for `assumptions`. */
  function SearchRequests(env: Env, assumptions: seq<string>): (r: seq<SearchRequest>)
    ensures |r| == |assumptions|
  {
    if assumptions == [] then []
    else
      var n := |assumptions|;
      SearchRequests(env, assumptions[..n - 1]) +
        [RequestFor(env.apiKey, env.headers, assumptions[n - 1], DefaultNumResults)]
  }

  /** The chat requests the loop makes for `assumptions` when the search log held
      `base` requests before it. */
  function VerificationChats(env: Env, base: nat, assumptions: seq<string>): (r: seq<ChatRequest>)
    ensures |r| == |assumptions|
  {
    if assumptions == [] then []
    else
      var n := |assumptions|;
      VerificationChats(env, base, assumptions[..n - 1]) + [CheckRequest(env, base + (n - 1), assumptions[n - 1])]
  }

  /** The calls the loop of `_verify_assumptions` makes: one search and then one chat
      call per assumption, in order. */
  function LoopLogs(env: Env, logs: Logs, assumptions: seq<string>): Logs {
    Logs(logs.chats + VerificationChats(env, |logs.searches|, assumptions),
         logs.searches + SearchRequests(env, assumptions))
  }

  /** `_verify_assumptions(assumptions)`: the dictionary and the calls made. */
  function VerifyAll(env: Env, logs: Logs, assumptions: seq<string>): (Dict<VerificationResult>, Logs) {
    (SetEach(assumptions, PassEntry(env, logs)), LoopLogs(env, logs, assumptions))
  }

  /** The entry of an assumption is the outcome of its last verification, the j-th,
      which used the j-th search and the j-th chat call of the loop. */
  lemma LastWriteWins(env: Env, logs: Logs, assumptions: seq<string>, j: nat)
    requires j < |assumptions|
    requires forall k :: j < k < |assumptions| ==> assumptions[k] != assumptions[j]
    ensures OrderedDict.Get(VerifyAll(env, logs, assumptions).0, assumptions[j])
              == Some(Entry(env, |logs.searches| + j, |logs.chats| + j, assumptions[j]))
  {
    SetEachLast(assumptions, PassEntry(env, logs), j);
    PassEntryAt(env, logs, j, assumptions[j]);
  }

  // ---------------------------------------------------------------- the pipeline

  /** `_get_initial_response(claim)`. */
  function InitialStep(env: Env, logs: Logs, claim: string): (Result<string>, Logs) {
    Ask(env, logs, InitialPrompt(claim))
  }

  /** `_extract_assumptions(text)`. */
  function ExtractionStep(env: Env, logs: Logs, text: string): (Result<seq<string>>, Logs) {
    var (answer, asked) := Ask(env, logs, ExtractionPrompt(text));
    (if answer.Failure? then Failure(answer.error) else Success(AssumptionLines(answer.value)), asked)
  }

  /** `_synthesize_final(claim, initial, verification)`. */
  function SynthesisStep(env: Env, logs: Logs, claim: string, initial: string,
                         verification: Dict<VerificationResult>): (Result<FinalAnswer>, Logs) {
    var (answer, asked) := Ask(env, logs, SynthesisPrompt(claim, initial, env.showResults(verification)));
    (if answer.Failure? then Failure(answer.error)
     else Success(FinalAnswer(ParseVerdict(answer.value), answer.value, EstimateConfidence(answer.value))),
     asked)
  }

  /** `_classify_claim(claim)`. */
  function ClassifyStep(env: Env, logs: Logs, claim: string): (Result<string>, Logs) {
    var (answer, asked) := Ask(env, logs, ClassifyPrompt(claim));
    (if answer.Failure? then Failure(answer.error) else Success(Strip(answer.value)), asked)
  }

  /** `fact_check(claim)`: the report and every call made on the way. */
  function FactCheckRun(env: Env, claim: Utils.PyValue, logs: Logs): (Report, Logs) {
    if !Utils.ValidateClaim(claim) then (ErrorReport("Invalid claim"), logs)
    else FromInitial(env, claim.s, logs)
  }

  /** Step 1, the initial response, and what follows it. */
  function FromInitial(env: Env, claim: string, logs: Logs): (Report, Logs) {
    var step := InitialStep(env, logs, claim);
    if step.0.Failure? then (ErrorReport(step.0.error), step.1)
    else FromExtraction(env, claim, step.0.value, step.1)
  }

  /** Steps 2 and 3, extracting and verifying the assumptions, and what follows them. */
  function FromExtraction(env: Env, claim: string, initial: string, logs: Logs): (Report, Logs) {
    var step := ExtractionStep(env, logs, initial);
    if step.0.Failure? then (ErrorReport(step.0.error), step.1)
    else
      var verified := VerifyAll(env, step.1, step.0.value);
      FromSynthesis(env, claim, initial, step.0.value, verified.0, verified.1)
  }

  /** Steps 4 and 5, the synthesis and the classification, and the report. */
  function FromSynthesis(env: Env, claim: string, initial: string, assumptions: seq<string>,
                         verification: Dict<VerificationResult>, logs: Logs): (Report, Logs) {
    var synthesis := SynthesisStep(env, logs, claim, initial, verification);
    if synthesis.0.Failure? then (ErrorReport(synthesis.0.error), synthesis.1)
    else
      var kind := ClassifyStep(env, synthesis.1, claim);
      if kind.0.Failure? then (ErrorReport(kind.0.error), kind.1)
      else (Reported(claim, kind.0.value, initial, assumptions, verification, synthesis.0.value), kind.1)
  }

  /** Calls are only ever appended to the logs. */
  predicate Grows(before: Logs, after: Logs) {
    before.chats <= after.chats && before.searches <= after.searches
  }

  /** An error report carries the error of the last chat call, which failed. */
  predicate FailedLast(env: Env, before: Logs, r: (Report, Logs)) {
    r.0.ErrorReport? ==>
      |r.1.chats| > |before.chats| &&
      env.model(|r.1.chats| - 1, r.1.chats[|r.1.chats| - 1]) == Failure(r.0.error)
  }

  /** The parts of a report that are parsed from the synthesis and classify answers. */
  predicate ParsedAnswers(report: Report)
    requires report.Reported?
  {
    report.finalAnswer.verdict == ParseVerdict(report.finalAnswer.summary) &&
    report.finalAnswer.confidence == EstimateConfidence(report.finalAnswer.summary) &&
    Trimmed(report.claimType)
  }

  /** How steps 4 and 5 decide the report, when the synthesis is the `call`-th chat
      call: a failing synthesis or classification call is reported with its error;
      otherwise the report holds the synthesis answer as its summary and the stripped
      classification answer as the claim type. */
  predicate SynthesisDecides(env: Env, call: nat, claim: string, initial: string,
                             verification: Dict<VerificationResult>, report: Report) {
    var s := env.model(call, Request(SynthesisPrompt(claim, initial, env.showResults(verification))));
    var k := env.model(call + 1, Request(ClassifyPrompt(claim)));
    && (s.Failure? ==> report == ErrorReport(s.error))
    && (s.Success? && k.Failure? ==> report == ErrorReport(k.error))
    && (s.Success? && k.Success? ==>
          report.Reported? && report.finalAnswer.summary == s.value && report.claimType == Strip(k.value))
  }

  /** How steps 2 to 5 decide the report, from `logs` on: a failing extraction call is
      reported with its error; otherwise the answer's lines are verified and steps 4
      and 5 decide, and a report holds those assumptions and their verification. */
  predicate ExtractionDecides(env: Env, claim: string, initial: string, logs: Logs, report: Report) {
    var e := env.model(|logs.chats|, Request(ExtractionPrompt(initial)));
    && (e.Failure? ==> report == ErrorReport(e.error))
    && (e.Success? ==>
          var assumptions := AssumptionLines(e.value);
          var v := VerifyAll(env, Logs(logs.chats + [Request(ExtractionPrompt(initial))], logs.searches), assumptions);
          && SynthesisDecides(env, |logs.chats| + 1 + |assumptions|, claim, initial, v.0, report)
          && (report.Reported? ==> report.assumptions == assumptions && report.verificationResults == v.0))
  }

  /** How the whole run decides the report, from `logs` on: a failing initial call is
      reported with its error; otherwise steps 2 to 5 decide, and a report holds the
      claim and the initial answer. */
  predicate InitialDecides(env: Env, claim: string, logs: Logs, report: Report) {
    var a := env.model(|logs.chats|, Request(InitialPrompt(claim)));
    && (a.Failure? ==> report == ErrorReport(a.error))
    && (a.Success? ==>
          && ExtractionDecides(env, claim, a.value, Logs(logs.chats + [Request(InitialPrompt(claim))], logs.searches), report)
          && (report.Reported? ==> report.claim == claim && report.initialResponse == a.value))
  }

  lemma FromSynthesisFacts(env: Env, claim: string, initial: string, assumptions: seq<string>,
                           verification: Dict<VerificationResult>, logs: Logs)
    ensures var r := FromSynthesis(env, claim, initial, assumptions, verification, logs);
            Grows(logs, r.1) && FailedLast(env, logs, r)
    ensures SynthesisDecides(env, |logs.chats|, claim, initial, verification,
                             FromSynthesis(env, claim, initial, assumptions, verification, logs).0)
    ensures var r := FromSynthesis(env, claim, initial, assumptions, verification, logs);
            r.0.Reported? ==>
              r.0.claim == claim && r.0.initialResponse == initial && r.0.assumptions == assumptions &&
              r.0.verificationResults == verification && ParsedAnswers(r.0) &&
              r.1.searches == logs.searches &&
              r.1.chats == logs.chats + [Request(SynthesisPrompt(claim, initial, env.showResults(verification))),
                                         Request(ClassifyPrompt(claim))]
  {
    var prompt := SynthesisPrompt(claim, initial, env.showResults(verification));
    var (answer, asked) := Ask(env, logs, prompt);
    if answer.Failure? {
      AskFailed(env, logs, prompt);
      assert FromSynthesis(env, claim, initial, assumptions, verification, logs) == (ErrorReport(answer.error), asked);
    } else {
      var (kind, classified) := Ask(env, asked, ClassifyPrompt(claim));
      if kind.Failure? {
        AskFailed(env, asked, ClassifyPrompt(claim));
        assert FromSynthesis(env, claim, initial, assumptions, verification, logs) == (ErrorReport(kind.error), classified);
      } else {
        StripFacts(kind.value);
        assert classified.chats == logs.chats + [Request(prompt), Request(ClassifyPrompt(claim))];
      }
    }
  }

  /** The chat requests from step 2 on, for a report with these parts, when the search
      log held `base` requests before step 3. */
  function ChatsFromExtraction(env: Env, base: nat, report: Report): seq<ChatRequest>
    requires report.Reported?
  {
    [Request(ExtractionPrompt(report.initialResponse))]
      + VerificationChats(env, base, report.assumptions)
      + [Request(SynthesisPrompt(report.claim, report.initialResponse, env.showResults(report.verificationResults))),
         Request(ClassifyPrompt(report.claim))]
  }

  /** What a successful run from step 2 on, starting from `logs`, has done. */
  predicate ExtractionOutcome(env: Env, claim: string, initial: string, logs: Logs, r: (Report, Logs))
    requires r.0.Reported?
  {
    var answer := env.model(|logs.chats|, Request(ExtractionPrompt(initial)));
    answer.Success? && r.0.assumptions == AssumptionLines(answer.value) &&
    r.0.claim == claim && r.0.initialResponse == initial &&
    Keys(r.0.verificationResults) == Distinct(r.0.assumptions) && ParsedAnswers(r.0) &&
    r.1.searches == logs.searches + SearchRequests(env, r.0.assumptions) &&
    r.1.chats == logs.chats + ChatsFromExtraction(env, |logs.searches|, r.0)
  }

  /** A failed call, reported, is a report of the last chat call's failure. */
  lemma AskFailed(env: Env, logs: Logs, prompt: Prompt)
    requires Ask(env, logs, prompt).0.Failure?
    ensures var (answer, asked) := Ask(env, logs, prompt);
            Grows(logs, asked) && FailedLast(env, logs, (ErrorReport(answer.error), asked))
  {
    var asked := Ask(env, logs, prompt).1;
    assert asked.chats[|asked.chats| - 1] == Request(prompt);
  }

  /** Step 2 asks once and keeps the answer's non-empty stripped lines. */
  lemma ExtractionStepFacts(env: Env, logs: Logs, text: string)
    ensures var answer := env.model(|logs.chats|, Request(ExtractionPrompt(text)));
            var step := ExtractionStep(env, logs, text);
            step.1 == Logs(logs.chats + [Request(ExtractionPrompt(text))], logs.searches) &&
            (answer.Failure? ==> step.0 == Failure(answer.error)) &&
            (answer.Success? ==> step.0 == Success(AssumptionLines(answer.value)))
  {
  }

  lemma FromExtractionFacts(env: Env, claim: string, initial: string, logs: Logs)
    ensures var r := FromExtraction(env, claim, initial, logs);
            Grows(logs, r.1) && FailedLast(env, logs, r)
    ensures ExtractionDecides(env, claim, initial, logs, FromExtraction(env, claim, initial, logs).0)
  {
    var answer := env.model(|logs.chats|, Request(ExtractionPrompt(initial)));
    var step := ExtractionStep(env, logs, initial);
    ExtractionStepFacts(env, logs, initial);
    if answer.Success? {
      var verified := VerifyAll(env, step.1, step.0.value);
      var r := FromSynthesis(env, claim, initial, step.0.value, verified.0, verified.1);
      FromSynthesisFacts(env, claim, initial, step.0.value, verified.0, verified.1);
      assert FromExtraction(env, claim, initial, logs) == r;
      LoopGrows(env, step.1, step.0.value);
      GrowsTrans(logs, step.1, verified.1);
      GrowsTrans(logs, verified.1, r.1);
      FailedLastFrom(env, logs, verified.1, r);
    } else {
      assert FromExtraction(env, claim, initial, logs) == (ErrorReport(answer.error), step.1);
      AskFailed(env, logs, ExtractionPrompt(initial));
    }
  }

  lemma GrowsTrans(a: Logs, b: Logs, c: Logs)
    requires Grows(a, b) && Grows(b, c)
    ensures Grows(a, c)
  {
  }

  /** The loop of step 3 only appends calls. */
  lemma LoopGrows(env: Env, logs: Logs, assumptions: seq<string>)
    ensures Grows(logs, LoopLogs(env, logs, assumptions))
  {
  }

  lemma FailedLastFrom(env: Env, a: Logs, b: Logs, r: (Report, Logs))
    requires |a.chats| <= |b.chats| && FailedLast(env, b, r)
    ensures FailedLast(env, a, r)
  {
  }

  /** Sequence concatenation regrouped. */
  lemma Regroup<T>(a: seq<T>, b: seq<T>, c: seq<T>, d: seq<T>)
    ensures a + b + c + d == a + (b + c + d)
  {
  }

  /** A successful run from step 2 on, starting from `logs`, holds the answers the
      model gave: the verification of the extracted assumptions, the synthesis answer
      as its summary and the stripped classification answer as the claim type. */
  predicate ExtractionAnswered(env: Env, claim: string, initial: string, logs: Logs, report: Report)
    requires report.Reported?
  {
    var n := |logs.chats| + 1 + |report.assumptions|;
    var kind := env.model(n + 1, Request(ClassifyPrompt(claim)));
    && report.verificationResults ==
         VerifyAll(env, Logs(logs.chats + [Request(ExtractionPrompt(initial))], logs.searches), report.assumptions).0
    && env.model(n, Request(SynthesisPrompt(claim, initial, env.showResults(report.verificationResults))))
         == Success(report.finalAnswer.summary)
    && kind.Success? && report.claimType == Strip(kind.value)
  }

  /** A report decided by steps 2 to 5 holds their successful answers. */
  lemma ExtractionAnswers(env: Env, claim: string, initial: string, logs: Logs, report: Report)
    requires ExtractionDecides(env, claim, initial, logs, report) && report.Reported?
    ensures ExtractionAnswered(env, claim, initial, logs, report)
  {
  }

  lemma FromExtractionSucceeded(env: Env, claim: string, initial: string, logs: Logs)
    requires FromExtraction(env, claim, initial, logs).0.Reported?
    ensures ExtractionOutcome(env, claim, initial, logs, FromExtraction(env, claim, initial, logs))
    ensures ExtractionAnswered(env, claim, initial, logs, FromExtraction(env, claim, initial, logs).0)
  {
    var answer := env.model(|logs.chats|, Request(ExtractionPrompt(initial)));
    var step := ExtractionStep(env, logs, initial);
    ExtractionStepFacts(env, logs, initial);
    var assumptions := step.0.value;
    var verified := VerifyAll(env, step.1, assumptions);
    var r := FromSynthesis(env, claim, initial, assumptions, verified.0, verified.1);
    assert FromExtraction(env, claim, initial, logs) == r;
    FromSynthesisFacts(env, claim, initial, assumptions, verified.0, verified.1);
    SetEachKeys(assumptions, PassEntry(env, step.1));
    Regroup(logs.chats, [Request(ExtractionPrompt(initial))], VerificationChats(env, |logs.searches|, assumptions),
            [Request(SynthesisPrompt(claim, initial, env.showResults(verified.0))), Request(ClassifyPrompt(claim))]);
    FromExtractionFacts(env, claim, initial, logs);
    ExtractionAnswers(env, claim, initial, logs, r.0);
  }

  lemma FromInitialFacts(env: Env, claim: string, logs: Logs)
    ensures var r := FromInitial(env, claim, logs);
            Grows(logs, r.1) && FailedLast(env, logs, r)
    ensures InitialDecides(env, claim, logs, FromInitial(env, claim, logs).0)
  {
    var step := InitialStep(env, logs, claim);
    if step.0.Success? {
      FromExtractionFacts(env, claim, step.0.value, step.1);
    }
  }

  lemma FromInitialSucceeded(env: Env, claim: string, logs: Logs)
    requires FromInitial(env, claim, logs).0.Reported?
    ensures var r := FromInitial(env, claim, logs);
            env.model(|logs.chats|, Request(InitialPrompt(claim))) == Success(r.0.initialResponse) &&
            ExtractionOutcome(env, claim, r.0.initialResponse,
                              Logs(logs.chats + [Request(InitialPrompt(claim))], logs.searches), r)
    ensures var r := FromInitial(env, claim, logs);
            ExtractionAnswered(env, claim, r.0.initialResponse,
                               Logs(logs.chats + [Request(InitialPrompt(claim))], logs.searches), r.0)
  {
    var step := InitialStep(env, logs, claim);
    FromExtractionSucceeded(env, claim, step.0.value, step.1);
  }

  /** An invalid claim is reported without any call being made; otherwise the logs
      only grow, an error report carries the error of the last chat call, and the
      model's answers decide the report: the first failing call of steps 1, 2, 4 and
      5 gives its error report, and when none fails the report holds the answers. */
  lemma FactCheckFacts(env: Env, claim: Utils.PyValue, logs: Logs)
    ensures !Utils.ValidateClaim(claim) ==> FactCheckRun(env, claim, logs) == (ErrorReport("Invalid claim"), logs)
    ensures var r := FactCheckRun(env, claim, logs);
            Grows(logs, r.1) && (Utils.ValidateClaim(claim) ==> FailedLast(env, logs, r))
    ensures Utils.ValidateClaim(claim) ==> InitialDecides(env, claim.s, logs, FactCheckRun(env, claim, logs).0)
  {
    if Utils.ValidateClaim(claim) {
      FromInitialFacts(env, claim.s, logs);
    }
  }

  /** A successful check asked the model, in order, for the initial response, the
      assumptions, one verification per assumption (each after its search), the
      synthesis and the classification, and its report holds their parsed answers. */
  lemma FactCheckSucceeded(env: Env, claim: Utils.PyValue, logs: Logs)
    requires FactCheckRun(env, claim, logs).0.Reported?
    ensures var r := FactCheckRun(env, claim, logs);
            claim == Utils.Str(r.0.claim) &&
            env.model(|logs.chats|, Request(InitialPrompt(r.0.claim))) == Success(r.0.initialResponse) &&
            ExtractionOutcome(env, r.0.claim, r.0.initialResponse,
                              Logs(logs.chats + [Request(InitialPrompt(r.0.claim))], logs.searches), r) &&
            r.1.chats == logs.chats + [Request(InitialPrompt(r.0.claim))] + ChatsFromExtraction(env, |logs.searches|, r.0)
    ensures var r := FactCheckRun(env, claim, logs);
            ExtractionAnswered(env, r.0.claim, r.0.initialResponse,
                               Logs(logs.chats + [Request(InitialPrompt(r.0.claim))], logs.searches), r.0)
  {
    FromInitialSucceeded(env, claim.s, logs);
  }

  /** One pass of the loop of step 3, started with `logs`: the entry it stores for the
      assumption, and the logs with its search and its chat call appended. */
  function VerifyPass(env: Env, logs: Logs, assumption: string): (VerificationResult, Logs) {
    (Entry(env, |logs.searches|, |logs.chats|, assumption),
     Logs(logs.chats + [CheckRequest(env, |logs.searches|, assumption)],
          logs.searches + [RequestFor(env.apiKey, env.headers, assumption, DefaultNumResults)]))
  }

  /** The loop of step 3 with one more assumption is one more pass, whose entry is
      stored under the assumption. */
  lemma VerifyAllSnoc(env: Env, logs: Logs, assumptions: seq<string>, i: nat)
    requires i < |assumptions|
    ensures var before := VerifyAll(env, logs, assumptions[..i]);
            var pass := VerifyPass(env, before.1, assumptions[i]);
            VerifyAll(env, logs, assumptions[..i + 1]) == (Set(before.0, assumptions[i], pass.0), pass.1)
  {
    var p := assumptions[..i + 1];
    var a := assumptions[i];
    assert p[..i] == assumptions[..i] && p[i] == a;
    var before := VerifyAll(env, logs, assumptions[..i]);
    var pass := VerifyPass(env, before.1, a);
    var after := VerifyAll(env, logs, p);
    var chats := VerificationChats(env, |logs.searches|, assumptions[..i]);
    var searches := SearchRequests(env, assumptions[..i]);
    assert before.1 == Logs(logs.chats + chats, logs.searches + searches);
    assert |before.1.searches| == |logs.searches| + i && |before.1.chats| == |logs.chats| + i;
    PassEntryAt(env, logs, i, a);
    assert pass.0 == PassEntry(env, logs)(i, a);
    assert after.0 == Set(before.0, a, pass.0);
    var check := CheckRequest(env, |logs.searches| + i, a);
    var search := RequestFor(env.apiKey, env.headers, a, DefaultNumResults);
    assert VerificationChats(env, |logs.searches|, p) == chats + [check];
    assert SearchRequests(env, p) == searches + [search];
    Assoc(logs.chats, chats, [check]);
    Assoc(logs.searches, searches, [search]);
    assert after.1 == Logs(logs.chats + chats + [check], logs.searches + searches + [search]);
    assert pass.1 == Logs(logs.chats + chats + [check], logs.searches + searches + [search]);
  }

  // ---------------------------------------------------------------- the checker object

  /** `FactChecker`: the chat client, the search tool it owns, the model name and
      the credibility table, and the log of chat requests sent so far. */
  class FactChecker {
    const client: ChatModel
    const searchTool: WebSearchTool
    const model: string := ModelName
    const domainScores: Dict<nat> := CheckerDomainScores
    /** `str()` of an evidence list and of a results dictionary. */
    const showEvidence: seq<EvidenceRecord> -> string
    const showResults: Dict<VerificationResult> -> string
    /** Every chat request sent so far, in order. */
    var chats: seq<ChatRequest>

    /** The collaborators, as the pipeline functions take them. */
    function Environment(): Env {
      Env(client, searchTool.apiKey, searchTool.headers, searchTool.serpApi, searchTool.ddg,
          showEvidence, showResults)
    }

    /** Every external call made so far, by the checker and by its search tool. */
    function Calls(): Logs
      reads this, searchTool
    {
      Logs(chats, searchTool.requests)
    }

    /** `FactChecker(groq_api_key, search_api_key)`: a fresh search tool and no calls yet. */
    constructor(client: ChatModel, searchApiKey: Option<string>, serpApi: SerpApi, ddg: DdgSearch,
                showEvidence: seq<EvidenceRecord> -> string, showResults: Dict<VerificationResult> -> string)
      ensures this.client == client && this.showEvidence == showEvidence && this.showResults == showResults
      ensures fresh(searchTool) && searchTool.apiKey == searchApiKey
      ensures searchTool.serpApi == serpApi && searchTool.ddg == ddg
      ensures searchTool.headers == map["User-Agent" := "FactCheckerBot/1.0"]
      ensures Calls() == Logs([], [])
    {
      this.client := client;
      this.searchTool := new WebSearchTool(searchApiKey, serpApi, ddg);
      this.showEvidence := showEvidence;
      this.showResults := showResults;
      chats := [];
    }

    /** `_query_groq(prompt)`: one chat request, logged whether or not it fails. */
    method QueryModel(prompt: Prompt) returns (answer: Result<string>)
      modifies this
      ensures (answer, Calls()) == Ask(Environment(), old(Calls()), prompt)
    {
      var request := ChatRequest(model, [Message("user", prompt)], Temperature);
      answer := client(|chats|, request);
      chats := chats + [request];
    }

    /** `_get_initial_response(claim)`. */
    method GetInitialResponse(claim: string) returns (initial: Result<string>)
      modifies this
      ensures (initial, Calls()) == InitialStep(Environment(), old(Calls()), claim)
    {
      initial := QueryModel(InitialPrompt(claim));
    }

    /** `_extract_assumptions(text)`. */
    method ExtractAssumptions(text: string) returns (assumptions: Result<seq<string>>)
      modifies this
      ensures (assumptions, Calls()) == ExtractionStep(Environment(), old(Calls()), text)
    {
      var result := QueryModel(ExtractionPrompt(text));
      if result.Failure? {
        return Failure(result.error);
      }
      assumptions := Success(AssumptionLines(result.value));
    }

    /** `_score_credibility(sources)`: each source's score appended to a list in a
        loop, then the mean of the list. */
    method ScoreCredibility(sources: seq<EvidenceRecord>) returns (score: real)
      ensures score == CheckerCredibility(Domains(sources))
    {
      if |sources| == 0 {
        return 0.0;
      }
      var domains := Domains(sources);
      var scores: seq<nat> := [];
      CheckerOther();
      for i := 0 to |sources|
        invariant scores == Utils.ScoresOf(CheckerScore, domains[..i])
      {
        var domain := sources[i].domain;
        var s := Utils.SuffixScore(domainScores, domain);
        assert s == CheckerScore(domains[i]);
        assert domains[..i + 1] == domains[..i] + [domains[i]];
        scores := scores + [s];
      }
      assert domains[..|sources|] == domains;
      score := (Utils.Sum(scores) as real) / ((100 * |scores|) as real);
    }

    /** One pass of the loop of `_verify_assumptions`: the search, then the chat call
        on its evidence; the entry is the parsed answer, or the error when the call fails. */
    method VerifyOne(assumption: string) returns (entry: VerificationResult)
      modifies this, searchTool
      ensures (entry, Calls()) == VerifyPass(Environment(), old(Calls()), assumption)
    {
      ghost var env := Environment();
      ghost var start := Calls();
      var evidence := searchTool.Search(assumption, DefaultNumResults);
      assert evidence == Evidence(env, |start.searches|, assumption);
      var analysis := QueryModel(CheckPrompt(assumption, showEvidence(evidence)));
      if analysis.Failure? {
        return Errored(analysis.error);
      }
      var verdict := "Uncertain";
      if Contains(analysis.value, VerdictMarker) {
        SplitSecond(analysis.value, VerdictMarker);
        verdict := Strip(Split(Split(analysis.value, VerdictMarker)[1], "\n")[0]);
      }
      var credibility := ScoreCredibility(evidence);
      entry := Checked(verdict, evidence, credibility, analysis.value);
    }

    /** `_verify_assumptions(assumptions)`: one pass per assumption in order, each
        storing its entry under the assumption. */
    method VerifyAssumptions(assumptions: seq<string>) returns (results: Dict<VerificationResult>)
      modifies this, searchTool
      ensures (results, Calls()) == VerifyAll(Environment(), old(Calls()), assumptions)
    {
      ghost var env := Environment();
      ghost var start := Calls();
      results := Empty();
      assert assumptions[..0] == [];
      assert start.chats + [] == start.chats && start.searches + [] == start.searches;
      for i := 0 to |assumptions|
        invariant results == VerifyAll(env, start, assumptions[..i]).0
        invariant Calls() == VerifyAll(env, start, assumptions[..i]).1
      {
        ghost var before := VerifyAll(env, start, assumptions[..i]);
        VerifyAllSnoc(env, start, assumptions, i);
        var assumption := assumptions[i];
        var entry := VerifyOne(assumption);
        ghost var pass := VerifyPass(env, before.1, assumption);
        assert entry == pass.0 && Calls() == pass.1;
        results := Set(results, assumption, entry);
      }
      assert assumptions[..|assumptions|] == assumptions;
    }

    /** `_synthesize_final(claim, initial, verification)`. */
    method SynthesizeFinal(claim: string, initial: string, verification: Dict<VerificationResult>)
      returns (final: Result<FinalAnswer>)
      modifies this
      ensures (final, Calls()) == SynthesisStep(Environment(), old(Calls()), claim, initial, verification)
    {
      var result := QueryModel(SynthesisPrompt(claim, initial, showResults(verification)));
      if result.Failure? {
        return Failure(result.error);
      }
      final := Success(FinalAnswer(ParseVerdict(result.value), result.value, EstimateConfidence(result.value)));
    }

    /** `_classify_claim(claim)`. */
    method ClassifyClaim(claim: string) returns (claimType: Result<string>)
      modifies this
      ensures (claimType, Calls()) == ClassifyStep(Environment(), old(Calls()), claim)
    {
      var result := QueryModel(ClassifyPrompt(claim));
      if result.Failure? {
        return Failure(result.error);
      }
      claimType := Success(Strip(result.value));
    }

    /** `fact_check(claim)`: the five steps in order; a failing call in steps 1, 2, 4
        or 5 ends the run with its error, one in step 3 becomes an "Error" entry. */
    method FactCheck(claim: Utils.PyValue) returns (report: Report)
      modifies this, searchTool
      ensures (report, Calls()) == FactCheckRun(Environment(), claim, old(Calls()))
    {
      if !Utils.ValidateClaim(claim) {
        return ErrorReport("Invalid claim");
      }
      ghost var env := Environment();
      var initial := GetInitialResponse(claim.s);
      if initial.Failure? {
        return ErrorReport(initial.error);
      }
      ghost var afterInitial := Calls();
      var assumptions := ExtractAssumptions(initial.value);
      if assumptions.Failure? {
        return ErrorReport(assumptions.error);
      }
      var verification := VerifyAssumptions(assumptions.value);
      ghost var verified := Calls();
      var final := SynthesizeFinal(claim.s, initial.value, verification);
      if final.Failure? {
        report := ErrorReport(final.error);
        assert (report, Calls()) == FromSynthesis(env, claim.s, initial.value, assumptions.value, verification, verified);
        return;
      }
      var claimType := ClassifyClaim(claim.s);
      if claimType.Failure? {
        report := ErrorReport(claimType.error);
      } else {
        report := Reported(claim.s, claimType.value, initial.value, assumptions.value, verification, final.value);
      }
      assert (report, Calls()) == FromSynthesis(env, claim.s, initial.value, assumptions.value, verification, verified);
    }
  }
}
