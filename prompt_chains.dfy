/** The prompt templates of `src/prompt_chains.py`. A template is fixed text
    around named fields; `Format` models Python's `str.format` with keyword
    arguments on the template's source text, and `FormatSource` shows that
    formatting that text is the same as filling in the template's fields. */
module PromptChains {
  import opened Wrappers
  import opened Text

  /** A template, read left to right: literal text and named fields. */
  datatype Template =
    | End
    | Text(text: string, rest: Template)
    | Hole(name: string, rest: Template)

  /** Literal text as written inside a format string: braces doubled. */
  function Escape(x: string): string {
    if x == [] then ""
    else (if x[0] == '{' then "{{" else if x[0] == '}' then "}}" else [x[0]]) + Escape(x[1..])
  }

  /** The template as written in the source: each field as `{name}`. */
  function Source(t: Template): string {
    match t
    case End => ""
    case Text(x, r) => Escape(x) + Source(r)
    case Hole(n, r) => "{" + n + "}" + Source(r)
  }

  /** The field names, in the order they occur. */
  function Fields(t: Template): seq<string> {
    match t
    case End => []
    case Text(_, r) => Fields(r)
    case Hole(n, r) => [n] + Fields(r)
  }

  function Cons(prefix: string, r: Result<string>): Result<string> {
    match r
    case Success(v) => Success(prefix + v)
    case Failure(e) => Failure(e)
  }

  /** The message of Python's `KeyError` for a keyword that was not supplied. */
  function MissingKey(name: string): string {
    "'" + name + "'"
  }

  /** Filling in the fields: one whose name is not supplied raises `KeyError`. */
  function Render(t: Template, args: map<string, string>): Result<string> {
    match t
    case End => Success("")
    case Text(x, r) => Cons(x, Render(r, args))
    case Hole(n, r) => if n in args then Cons(args[n], Render(r, args)) else Failure(MissingKey(n))
  }

  /** Python's `s.format(**args)`: `{{` and `}}` stand for single braces and
      `{name}` for the keyword argument `name`. */
  function Format(s: string, args: map<string, string>): Result<string>
    decreases |s|
  {
    if s == [] then Success("")
    else if s[0] == '{' then
      if |s| >= 2 && s[1] == '{' then Cons("{", Format(s[2..], args))
      else if |s| == 1 then Failure("Single '{' encountered in format string")
      else match IndexOf(s[1..], "}")
        case None => Failure("expected '}' before end of string")
        case Some(k) =>
          var name := s[1..1 + k];
          if '{' in name then Failure("unexpected '{' in field name")
          else if name == "" then Failure("Replacement index 0 out of range for positional args tuple")
          else if name !in args then Failure(MissingKey(name))
          else Cons(args[name], Format(s[k + 2..], args))
    else if s[0] == '}' then
      if |s| >= 2 && s[1] == '}' then Cons("}", Format(s[2..], args))
      else Failure("Single '}' encountered in format string")
    else Cons([s[0]], Format(s[1..], args))
  }

  predicate NoBrace(s: string) {
    forall i | 0 <= i < |s| :: s[i] != '{' && s[i] != '}'
  }

  /** Every field has a plain non-empty name. */
  predicate WellFormed(t: Template) {
    match t
    case End => true
    case Text(_, r) => WellFormed(r)
    case Hole(n, r) => n != [] && NoBrace(n) && WellFormed(r)
  }

  lemma ConsAppend(a: string, b: string, r: Result<string>)
    ensures Cons(a, Cons(b, r)) == Cons(a + b, r)
  {
    if r.Success? {
      assert a + (b + r.value) == (a + b) + r.value;
    }
  }

  lemma {:induction false} FormatLit(x: string, rest: string, args: map<string, string>)
    ensures Format(Escape(x) + rest, args) == Cons(x, Format(rest, args))
    decreases |x|
  {
    if x == [] {
      assert Escape(x) + rest == rest;
      match Format(rest, args)
      case Success(v) => assert x + v == v;
      case Failure(_) =>
    } else {
      var e := if x[0] == '{' then "{{" else if x[0] == '}' then "}}" else [x[0]];
      var s := Escape(x) + rest;
      assert s == e + (Escape(x[1..]) + rest);
      assert s[|e|..] == Escape(x[1..]) + rest;
      FormatLit(x[1..], rest, args);
      ConsAppend([x[0]], x[1..], Format(rest, args));
      assert [x[0]] + x[1..] == x;
    }
  }

  lemma FormatField(n: string, rest: string, args: map<string, string>)
    requires n != [] && NoBrace(n)
    ensures Format("{" + n + "}" + rest, args)
      == if n in args then Cons(args[n], Format(rest, args)) else Failure(MissingKey(n))
  {
    var s := "{" + n + "}" + rest;
    var t := n + "}" + rest;
    assert s == "{" + t;
    assert s[1..] == t && s[0] == '{' && s[1] == n[0];
    assert n[0] != '{' && '{' !in n && '}' !in n;
    ContainsChar(n, '}');
    FirstOccurrence(n, "}", rest);
    assert s[1..1 + |n|] == t[..|n|] == n;
    assert s[|n| + 2..] == rest;
  }

  /** Formatting a well-formed template's source text is filling in its fields. */
  lemma {:induction false} FormatSource(t: Template, args: map<string, string>)
    requires WellFormed(t)
    ensures Format(Source(t), args) == Render(t, args)
  {
    match t
    case End =>
    case Text(x, r) =>
      FormatSource(r, args);
      FormatLit(x, Source(r), args);
    case Hole(n, r) =>
      FormatSource(r, args);
      FormatField(n, Source(r), args);
  }

  /** Rendering succeeds exactly when every field is supplied. */
  lemma {:induction false} RenderSucceeds(t: Template, args: map<string, string>)
    ensures Render(t, args).Success? <==> forall n :: n in Fields(t) ==> n in args
  {
    match t
    case End =>
    case Text(_, r) =>
      RenderSucceeds(r, args);
    case Hole(n, r) =>
      RenderSucceeds(r, args);
      assert Fields(t) == [n] + Fields(r);
  }

  // The fields of the three template shapes, for any literal text.

  lemma ShapeOne(h: string, n: string, t: string)
    ensures Fields(Text(h, Hole(n, Text(t, End)))) == [n]
    ensures WellFormed(Text(h, Hole(n, Text(t, End)))) <==> n != [] && NoBrace(n)
  {
    assert Fields(Text(t, End)) == [];
    assert Fields(Hole(n, Text(t, End))) == [n] + [];
    assert WellFormed(Text(t, End));
    assert WellFormed(Hole(n, Text(t, End))) <==> n != [] && NoBrace(n);
  }

  lemma ShapeTwo(h: string, n1: string, m: string, n2: string, t: string)
    ensures Fields(Text(h, Hole(n1, Text(m, Hole(n2, Text(t, End)))))) == [n1, n2]
    ensures WellFormed(Text(h, Hole(n1, Text(m, Hole(n2, Text(t, End))))))
      <==> n1 != [] && NoBrace(n1) && n2 != [] && NoBrace(n2)
  {
    ShapeOne(m, n2, t);
    assert Fields(Hole(n1, Text(m, Hole(n2, Text(t, End))))) == [n1] + [n2];
  }

  lemma ShapeThree(h: string, n1: string, m1: string, n2: string, m2: string, n3: string, t: string)
    ensures Fields(Text(h, Hole(n1, Text(m1, Hole(n2, Text(m2, Hole(n3, Text(t, End)))))))) == [n1, n2, n3]
    ensures WellFormed(Text(h, Hole(n1, Text(m1, Hole(n2, Text(m2, Hole(n3, Text(t, End))))))))
      <==> n1 != [] && NoBrace(n1) && n2 != [] && NoBrace(n2) && n3 != [] && NoBrace(n3)
  {
    ShapeTwo(m1, n2, m2, n3, t);
    assert Fields(Hole(n1, Text(m1, Hole(n2, Text(m2, Hole(n3, Text(t, End))))))) == [n1] + [n2, n3];
  }

  // Filling in the three template shapes used below, for any literal text.

  lemma RenderOne(h: string, n: string, t: string, args: map<string, string>, v: string)
    requires n in args && args[n] == v
    ensures Render(Text(h, Hole(n, Text(t, End))), args) == Success(h + v + t)
  {
    assert t + "" == t;
    assert Render(Text(t, End), args) == Success(t);
    assert Render(Hole(n, Text(t, End)), args) == Success(v + t);
    assert h + (v + t) == h + v + t;
  }

  lemma RenderTwo(h: string, n1: string, m: string, n2: string, t: string, args: map<string, string>,
                  v1: string, v2: string)
    requires n1 in args && n2 in args && args[n1] == v1 && args[n2] == v2
    ensures Render(Text(h, Hole(n1, Text(m, Hole(n2, Text(t, End))))), args)
      == Success(h + v1 + m + v2 + t)
  {
    var r3 := Hole(n2, Text(t, End));
    assert t + "" == t;
    assert Render(Text(t, End), args) == Success(t);
    assert Render(r3, args) == Success(v2 + t);
    assert Render(Text(m, r3), args) == Success(m + (v2 + t));
    assert Render(Hole(n1, Text(m, r3)), args) == Success(v1 + (m + (v2 + t)));
    assert h + (v1 + (m + (v2 + t))) == h + v1 + m + v2 + t;
  }

  lemma RenderThree(h: string, n1: string, m1: string, n2: string, m2: string, n3: string, t: string,
                    args: map<string, string>, v1: string, v2: string, v3: string)
    requires n1 in args && n2 in args && n3 in args
    requires args[n1] == v1 && args[n2] == v2 && args[n3] == v3
    ensures Render(Text(h, Hole(n1, Text(m1, Hole(n2, Text(m2, Hole(n3, Text(t, End))))))), args)
      == Success(h + v1 + m1 + v2 + m2 + v3 + t)
  {
    var r5 := Hole(n3, Text(t, End));
    assert t + "" == t;
    assert Render(Text(t, End), args) == Success(t);
    assert Render(r5, args) == Success(v3 + t);
    var r3 := Hole(n2, Text(m2, r5));
    assert Render(Text(m2, r5), args) == Success(m2 + (v3 + t));
    assert Render(r3, args) == Success(v2 + (m2 + (v3 + t)));
    assert Render(Text(m1, r3), args) == Success(m1 + (v2 + (m2 + (v3 + t))));
    assert Render(Hole(n1, Text(m1, r3)), args) == Success(v1 + (m1 + (v2 + (m2 + (v3 + t)))));
    assert h + (v1 + (m1 + (v2 + (m2 + (v3 + t)))))
      == h + v1 + m1 + v2 + m2 + v3 + t;
  }

  /** Filling in two distinct fields from a map display of their values. */
  lemma RenderTwoMap(h: string, n1: string, m: string, n2: string, t: string, v1: string, v2: string)
    requires n1 != n2
    ensures Render(Text(h, Hole(n1, Text(m, Hole(n2, Text(t, End))))), map[n1 := v1, n2 := v2])
      == Success(h + v1 + m + v2 + t)
  {
    var args := map[n1 := v1, n2 := v2];
    assert n1 in args && n2 in args && args[n1] == v1 && args[n2] == v2;
    RenderTwo(h, n1, m, n2, t, args, v1, v2);
  }

  /** Filling in three distinct fields from a map display of their values. */
  lemma RenderThreeMap(h: string, n1: string, m1: string, n2: string, m2: string, n3: string, t: string,
                       v1: string, v2: string, v3: string)
    requires n1 != n2 && n1 != n3 && n2 != n3
    ensures Render(Text(h, Hole(n1, Text(m1, Hole(n2, Text(m2, Hole(n3, Text(t, End))))))),
                   map[n1 := v1, n2 := v2, n3 := v3])
      == Success(h + v1 + m1 + v2 + m2 + v3 + t)
  {
    var args := map[n1 := v1, n2 := v2, n3 := v3];
    assert n1 in args && n2 in args && n3 in args;
    assert args[n1] == v1 && args[n2] == v2 && args[n3] == v3;
    RenderThree(h, n1, m1, n2, m2, n3, t, args, v1, v2, v3);
  }

  lemma ContainsMiddle(f: string, a: string, m: string, b: string)
    ensures Contains(f + (a + m + b), m)
  {
    ContainsInside(f + a, m, b);
    assert f + (a + m + b) == (f + a) + m + b;
  }

  // ---------------------------------------------------------------- the four templates

  /** The line of the verification answer that carries the verdict. */
  const VerdictMarker := "Verdict:"

  const InitialHead := "\n[INST] You are a fact-checking assistant. Provide a concise preliminary answer to:\nClaim: "
  const InitialTail := "\n[/INST]\nPreliminary Answer:\n"

  /** `INITIAL_RESPONSE_TEMPLATE`. */
  const InitialResponseTemplate := Text(InitialHead, Hole("claim", Text(InitialTail, End)))

  const ExtractionHead := "\nAnalyze this text and extract all factual claims that could be independently verified.\nList each claim on a new line. Be specific.\n\nText: "
  const ExtractionTail := "\nVerifiable Claims:\n"

  /** `ASSUMPTION_EXTRACTION_TEMPLATE`. */
  const AssumptionExtractionTemplate := Text(ExtractionHead, Hole("response", Text(ExtractionTail, End)))

  const VerificationHead := "\nBased on the provided evidence, determine if this assumption is:\n- True (supported by evidence)\n- False (contradicted by evidence)\n- Uncertain (insufficient evidence)\n\nProvide your verdict and reasoning.\n\nAssumption: "
  const VerificationMid := "\nEvidence: "
  const StructureLine := "\n\nStructure your response as:\n"
  const VerdictLineRest := " [True/False/Uncertain]\nReasoning: [Your analysis]\n"
  const VerificationTail := StructureLine + VerdictMarker + VerdictLineRest

  /** `VERIFICATION_TEMPLATE`. */
  const VerificationTemplate :=
    Text(VerificationHead, Hole("assumption", Text(VerificationMid, Hole("evidence", Text(VerificationTail, End)))))

  const SynthesisHead := "\nCreate a comprehensive fact-check report for this claim based on the verification results.\nInclude:\n1. Final verdict (True/False/Mixed/Unverifiable)\n2. Confidence level (Low/Medium/High)\n3. Summary of findings\n4. Key supporting/contradictory evidence\n\nClaim: "
  const SynthesisInitial := "\nInitial Assessment: "
  const SynthesisResults := "\nVerification Results: "
  const SynthesisTail := "\n\nFinal Report:\n"

  /** `FINAL_SYNTHESIS_TEMPLATE`. */
  const FinalSynthesisTemplate :=
    Text(SynthesisHead, Hole("claim", Text(SynthesisInitial, Hole("initial_response",
      Text(SynthesisResults, Hole("verification_results", Text(SynthesisTail, End)))))))

  // The placeholders of each template, in order; all of them are plain names.

  lemma InitialResponseFields()
    ensures Fields(InitialResponseTemplate) == ["claim"] && WellFormed(InitialResponseTemplate)
  {
    FieldNamesPlain();
    ShapeOne(InitialHead, "claim", InitialTail);
  }

  lemma AssumptionExtractionFields()
    ensures Fields(AssumptionExtractionTemplate) == ["response"] && WellFormed(AssumptionExtractionTemplate)
  {
    FieldNamesPlain();
    ShapeOne(ExtractionHead, "response", ExtractionTail);
  }

  lemma VerificationFields()
    ensures Fields(VerificationTemplate) == ["assumption", "evidence"] && WellFormed(VerificationTemplate)
  {
    FieldNamesPlain();
    ShapeTwo(VerificationHead, "assumption", VerificationMid, "evidence", VerificationTail);
  }

  lemma FinalSynthesisFields()
    ensures Fields(FinalSynthesisTemplate) == ["claim", "initial_response", "verification_results"]
    ensures WellFormed(FinalSynthesisTemplate)
  {
    FieldNamesPlain();
    ShapeThree(SynthesisHead, "claim", SynthesisInitial, "initial_response", SynthesisResults,
               "verification_results", SynthesisTail);
  }

  /** The field names hold no brace. */
  lemma FieldNamesPlain()
    ensures NoBrace("claim") && NoBrace("response") && NoBrace("assumption") && NoBrace("evidence")
    ensures NoBrace("initial_response") && NoBrace("verification_results")
  {
  }

  /** `INITIAL_RESPONSE_TEMPLATE.format(claim=claim)`: the claim verbatim between fixed text. */
  function InitialResponsePrompt(claim: string): (p: string)
    ensures Contains(p, claim)
  {
    ContainsInside(InitialHead, claim, InitialTail);
    InitialHead + claim + InitialTail
  }

  /** `ASSUMPTION_EXTRACTION_TEMPLATE.format(response=text)`: holds the text verbatim. */
  function AssumptionExtractionPrompt(response: string): (p: string)
    ensures Contains(p, response)
  {
    ContainsInside(ExtractionHead, response, ExtractionTail);
    ExtractionHead + response + ExtractionTail
  }

  /** `VERIFICATION_TEMPLATE.format(assumption=..., evidence=...)`: the assumption, then the
      evidence, then the answer format with its "Verdict:" line. */
  function VerificationPrompt(assumption: string, evidence: string): (p: string)
    ensures Contains(p, VerdictMarker)
  {
    var front := VerificationHead + assumption + VerificationMid + evidence;
    ContainsMiddle(front, StructureLine, VerdictMarker, VerdictLineRest);
    front + VerificationTail
  }

  /** `FINAL_SYNTHESIS_TEMPLATE.format(claim=..., initial_response=..., verification_results=...)`. */
  function FinalSynthesisPrompt(claim: string, initial: string, results: string): string {
    SynthesisHead + claim + SynthesisInitial + initial + SynthesisResults + results + SynthesisTail
  }

  // Each prompt is its template with the arguments in place of the fields.

  lemma InitialResponseRendered(claim: string)
    ensures Render(InitialResponseTemplate, map["claim" := claim]) == Success(InitialResponsePrompt(claim))
  {
    RenderOne(InitialHead, "claim", InitialTail, map["claim" := claim], claim);
  }

  lemma AssumptionExtractionRendered(response: string)
    ensures Render(AssumptionExtractionTemplate, map["response" := response])
      == Success(AssumptionExtractionPrompt(response))
  {
    RenderOne(ExtractionHead, "response", ExtractionTail, map["response" := response], response);
  }

  lemma VerificationRendered(assumption: string, evidence: string)
    ensures Render(VerificationTemplate, map["assumption" := assumption, "evidence" := evidence])
      == Success(VerificationPrompt(assumption, evidence))
  {
    assert |"assumption"| == 10 && |"evidence"| == 8;
    RenderTwoMap(VerificationHead, "assumption", VerificationMid, "evidence", VerificationTail,
                 assumption, evidence);
  }

  lemma FinalSynthesisRendered(claim: string, initial: string, results: string)
    ensures Render(FinalSynthesisTemplate,
                   map["claim" := claim, "initial_response" := initial, "verification_results" := results])
      == Success(FinalSynthesisPrompt(claim, initial, results))
  {
    assert |"claim"| == 5 && |"initial_response"| == 16 && |"verification_results"| == 20;
    RenderThreeMap(SynthesisHead, "claim", SynthesisInitial, "initial_response", SynthesisResults,
                   "verification_results", SynthesisTail, claim, initial, results);
  }

  // Each prompt is what Python's `str.format` makes of its template's text.

  lemma InitialResponseFormatted(claim: string)
    ensures Format(Source(InitialResponseTemplate), map["claim" := claim])
      == Success(InitialResponsePrompt(claim))
  {
    InitialResponseFields();
    InitialResponseRendered(claim);
    FormatSource(InitialResponseTemplate, map["claim" := claim]);
  }

  lemma AssumptionExtractionFormatted(response: string)
    ensures Format(Source(AssumptionExtractionTemplate), map["response" := response])
      == Success(AssumptionExtractionPrompt(response))
  {
    AssumptionExtractionFields();
    AssumptionExtractionRendered(response);
    FormatSource(AssumptionExtractionTemplate, map["response" := response]);
  }

  lemma VerificationFormatted(assumption: string, evidence: string)
    ensures Format(Source(VerificationTemplate), map["assumption" := assumption, "evidence" := evidence])
      == Success(VerificationPrompt(assumption, evidence))
  {
    VerificationFields();
    VerificationRendered(assumption, evidence);
    FormatSource(VerificationTemplate, map["assumption" := assumption, "evidence" := evidence]);
  }

  lemma FinalSynthesisFormatted(claim: string, initial: string, results: string)
    ensures Format(Source(FinalSynthesisTemplate),
                   map["claim" := claim, "initial_response" := initial, "verification_results" := results])
      == Success(FinalSynthesisPrompt(claim, initial, results))
  {
    FinalSynthesisFields();
    FinalSynthesisRendered(claim, initial, results);
    FormatSource(FinalSynthesisTemplate,
                 map["claim" := claim, "initial_response" := initial, "verification_results" := results]);
  }

  /** Formatting the initial-response template's text with any claim gives that claim's prompt. */
  lemma InitialResponseFormatsAll()
    ensures forall claim ::
      Format(Source(InitialResponseTemplate), map["claim" := claim]) == Success(InitialResponsePrompt(claim))
  {
    forall claim
      ensures Format(Source(InitialResponseTemplate), map["claim" := claim]) == Success(InitialResponsePrompt(claim))
    {
      InitialResponseFormatted(claim);
    }
  }

  /** `get_initial_response_chain()`: the template itself, unformatted; formatting it
      with a claim gives that claim's initial prompt. */
  function GetInitialResponseChain(): (template: string)
    ensures forall claim :: Format(template, map["claim" := claim]) == Success(InitialResponsePrompt(claim))
  {
    InitialResponseFormatsAll();
    Source(InitialResponseTemplate)
  }
}
