/** The pure helpers of `src/utils.py`, and the domain-suffix credibility
    arithmetic that `calculate_credibility` shares with `FactChecker._score_credibility`.
    Scores are whole hundredths (0.9 is 90); a mean is an exact `real`. */
module Utils {
  import opened Wrappers
  import opened Text
  import OrderedDict

  /** A Python value as these helpers see it: a `str`, or any other object. */
  datatype PyValue = Str(s: string) | NotStr

  /** `validate_claim`: a string with at least one non-whitespace character. */
  function ValidateClaim(claim: PyValue): bool {
    claim.Str? && |Strip(claim.s)| > 0
  }

  /** A claim is valid exactly when it is a string with a non-whitespace character. */
  lemma ValidateClaimSpec(claim: PyValue)
    ensures ValidateClaim(claim) <==> claim.Str? && exists i :: 0 <= i < |claim.s| && !IsSpace(claim.s[i])
  {
    if claim.Str? {
      StripFacts(claim.s);
    }
  }

  /** `clean_text`: `' '.join(text.strip().split())`, or "" for a non-string. */
  function CleanText(text: PyValue): (r: string)
    ensures text.NotStr? ==> r == ""
    ensures Trimmed(r)
    ensures forall i :: 0 <= i < |r| && IsSpace(r[i]) ==>
      r[i] == ' ' && 0 < i < |r| - 1 && !IsSpace(r[i - 1]) && !IsSpace(r[i + 1])
    ensures text.Str? ==> Words(r) == Words(text.s)
  {
    match text
    case NotStr => ""
    case Str(s) =>
      var ws := Words(Strip(s));
      WordsFacts(Strip(s));
      var r := Join(ws, " ");
      WordsStrip(s);
      WordsJoin(ws);
      JoinWordsTrimmed(ws);
      assert forall i :: 0 <= i < |r| && IsSpace(r[i]) ==>
        r[i] == ' ' && 0 < i < |r| - 1 && !IsSpace(r[i - 1]) && !IsSpace(r[i + 1]) by {
        forall i | 0 <= i < |r| && IsSpace(r[i])
          ensures r[i] == ' ' && 0 < i < |r| - 1 && !IsSpace(r[i - 1]) && !IsSpace(r[i + 1])
        {
          JoinWordsSingleSpaced(ws, i);
        }
      }
      r
  }

  /** Cleaning cleaned text changes nothing. */
  lemma CleanTextIdempotent(text: PyValue)
    ensures CleanText(Str(CleanText(text))) == CleanText(text)
  {
    var r := CleanText(text);
    WordsStrip(r);
    if text.Str? {
      WordsStrip(text.s);
    }
  }

  // ---------------------------------------------------------------- credibility

  /** `domain.split('.')[-1]`: the text after the last dot, or all of it. */
  function LastLabel(domain: string): (r: string)
    ensures '.' !in r
    ensures |r| <= |domain| && r == domain[|domain| - |r|..]
    ensures |r| == |domain| || domain[|domain| - |r| - 1] == '.'
  {
    var parts := Split(domain, ".");
    var r := parts[|parts| - 1];
    SplitPieces(domain, ".");
    ContainsChar(r, '.');
    JoinSplit(domain, ".");
    JoinSnoc(parts, ".");
    r
  }

  lemma {:induction false} JoinSnoc(parts: seq<string>, sep: string)
    requires |parts| >= 1
    ensures |parts| == 1 ==> Join(parts, sep) == parts[0]
    ensures |parts| >= 2 ==>
      Join(parts, sep) == Join(parts[..|parts| - 1], sep) + sep + parts[|parts| - 1]
    decreases |parts|
  {
    var n := |parts|;
    if n == 2 {
      assert parts[1..] == [parts[1]];
      assert parts[..1] == [parts[0]];
    } else if n >= 3 {
      var init := parts[..n - 1];
      JoinSnoc(parts[1..], sep);
      assert parts[1..][..n - 2] == init[1..];
      assert parts[1..][n - 2] == parts[n - 1];
      assert Join(parts, sep) == parts[0] + sep + Join(parts[1..], sep);
      assert Join(init, sep) == init[0] + sep + Join(init[1..], sep);
    }
  }

  /** The label after the last dot is determined by the text that follows that dot. */
  lemma LastLabelAfterDot(prefix: string, tail: string)
    requires '.' !in tail
    ensures LastLabel(prefix + "." + tail) == tail
  {
    var d := prefix + "." + tail;
    var r := LastLabel(d);
    assert d[|prefix|] == '.';
    assert |r| == |tail|;
    assert d[|d| - |tail|..] == tail;
  }

  lemma LastLabelNoDot(domain: string)
    requires '.' !in domain
    ensures LastLabel(domain) == domain
  {
    var r := LastLabel(domain);
    assert domain[|domain| - |r|..] == domain[0..] == domain;
  }

  /** `table.get('.' + domain.split('.')[-1], table['other'])`. */
  function SuffixScore(table: OrderedDict.Dict<nat>, domain: string): nat
    requires OrderedDict.Get(table, "other").Some?
  {
    match OrderedDict.Get(table, "." + LastLabel(domain))
    case Some(score) => score
    case None => OrderedDict.Get(table, "other").value
  }

  /** Every score a table holds lies in [lo, hi]. */
  predicate ScoresIn(table: OrderedDict.Dict<nat>, lo: nat, hi: nat) {
    forall i :: 0 <= i < |table.items| ==> lo <= table.items[i].1 <= hi
  }

  /** The table of `calculate_credibility`, in hundredths. */
  const DomainScores: OrderedDict.Dict<nat> :=
    OrderedDict.Dict([(".gov", 90), (".edu", 85), (".org", 80), (".com", 70), (".net", 60), ("other", 50)])

  /** One source's score in `calculate_credibility`: the "domain" entry (absent
      reads as ""), lower-cased, looked up by its last label. */
  function SourceScore(domain: Option<string>): nat {
    SuffixScore(DomainScores, Lower(if domain.Some? then domain.value else ""))
  }

  function Sum(xs: seq<nat>): nat {
    if xs == [] then 0 else Sum(xs[..|xs| - 1]) + xs[|xs| - 1]
  }

  /** The per-source scores, in source order. A source is given by its "domain" entry. */
  function ScoresOf(score: Option<string> -> nat, sources: seq<Option<string>>): seq<nat> {
    seq(|sources|, i requires 0 <= i < |sources| => score(sources[i]))
  }

  /** The mean of scores given in hundredths; 0.0 for none. */
  function Mean(xs: seq<nat>): real {
    if xs == [] then 0.0 else (Sum(xs) as real) / ((100 * |xs|) as real)
  }

  /** The value `calculate_credibility` computes, before rounding to two places. */
  function Credibility(sources: seq<Option<string>>): real {
    Mean(ScoresOf(SourceScore, sources))
  }

  /** `calculate_credibility`: sums the scores in a loop, then divides by the count. */
  method CalculateCredibility(sources: seq<Option<string>>) returns (score: real)
    ensures score == Credibility(sources)
  {
    if |sources| == 0 {
      return 0.0;
    }
    var total: nat := 0;
    for i := 0 to |sources|
      invariant total == Sum(ScoresOf(SourceScore, sources[..i]))
    {
      var s := SourceScore(sources[i]);
      SumScoresSnoc(SourceScore, sources, i);
      total := total + s;
    }
    CredibilityTotal(sources);
    score := (total as real) / ((100 * |sources|) as real);
  }

  /** Scoring one more source adds its score to the total. */
  lemma SumScoresSnoc(score: Option<string> -> nat, sources: seq<Option<string>>, i: nat)
    requires i < |sources|
    ensures Sum(ScoresOf(score, sources[..i + 1])) == Sum(ScoresOf(score, sources[..i])) + score(sources[i])
  {
    var xs := ScoresOf(score, sources[..i]);
    assert ScoresOf(score, sources[..i + 1]) == xs + [score(sources[i])];
    SumSnoc(xs, score(sources[i]));
  }

  /** For some sources, the credibility is the total over all of them divided by their count. */
  lemma CredibilityTotal(sources: seq<Option<string>>)
    requires sources != []
    ensures Credibility(sources) == (Sum(ScoresOf(SourceScore, sources[..|sources|])) as real) / ((100 * |sources|) as real)
  {
    assert sources[..|sources|] == sources;
  }

  /** Summing one more score adds it. */
  lemma SumSnoc(xs: seq<nat>, x: nat)
    ensures Sum(xs + [x]) == Sum(xs) + x
  {
    assert (xs + [x])[..|xs|] == xs;
  }

  lemma {:induction false} SumAppend(xs: seq<nat>, ys: seq<nat>)
    ensures Sum(xs + ys) == Sum(xs) + Sum(ys)
    decreases |ys|
  {
    if ys != [] {
      var init := ys[..|ys| - 1];
      assert (xs + ys)[..|xs + ys| - 1] == xs + init;
      assert (xs + ys)[|xs + ys| - 1] == ys[|ys| - 1];
      SumAppend(xs, init);
      assert Sum(xs + ys) == Sum(xs + init) + ys[|ys| - 1];
      assert Sum(ys) == Sum(init) + ys[|ys| - 1];
    } else {
      assert xs + ys == xs;
    }
  }

  lemma {:induction false} SumBounds(xs: seq<nat>, lo: nat, hi: nat)
    requires forall k :: 0 <= k < |xs| ==> lo <= xs[k] <= hi
    ensures lo * |xs| <= Sum(xs) <= hi * |xs|
    decreases |xs|
  {
    if xs != [] {
      var n := |xs| - 1;
      SumBounds(xs[..n], lo, hi);
      assert lo * (n + 1) == lo * n + lo && hi * (n + 1) == hi * n + hi;
    }
  }

  lemma DivBounds(t: nat, n: nat, lo: nat, hi: nat)
    requires n > 0 && lo * n <= t <= hi * n
    ensures (lo as real) / 100.0 <= (t as real) / ((100 * n) as real) <= (hi as real) / 100.0
  {
    var d := (100 * n) as real;
    var q := (t as real) / d;
    assert q * d == t as real;
    assert (lo as real) / 100.0 * d == (lo * n) as real;
    assert (hi as real) / 100.0 * d == (hi * n) as real;
  }

  /** The mean of scores in `[lo, hi]` hundredths lies in `[lo/100, hi/100]`. */
  lemma MeanBounds(xs: seq<nat>, lo: nat, hi: nat)
    requires xs != []
    requires forall k :: 0 <= k < |xs| ==> lo <= xs[k] <= hi
    ensures (lo as real) / 100.0 <= Mean(xs) <= (hi as real) / 100.0
  {
    SumBounds(xs, lo, hi);
    DivBounds(Sum(xs), |xs|, lo, hi);
  }

  /** Reordering the sources leaves the total unchanged. */
  lemma {:induction false} SumScoresPermutation(score: Option<string> -> nat, a: seq<Option<string>>, b: seq<Option<string>>)
    requires multiset(a) == multiset(b)
    ensures Sum(ScoresOf(score, a)) == Sum(ScoresOf(score, b))
    decreases |a|
  {
    if a == [] {
      assert |b| == |multiset(b)| == 0;
    } else {
      var n := |a| - 1;
      var j := MatchLast(a, b);
      SumScoresPermutation(score, a[..n], b[..j] + b[j + 1..]);
      SumScoresSplit(score, a, n);
      MultisetRemove(a, n);
      SumScoresSplit(score, b, j);
    }
  }

  /** Where the last source of `a` sits in a reordering `b`, and what is left on both
      sides once it is taken out. */
  lemma MatchLast(a: seq<Option<string>>, b: seq<Option<string>>) returns (j: nat)
    requires a != [] && multiset(a) == multiset(b)
    ensures j < |b| && b[j] == a[|a| - 1]
    ensures multiset(a[..|a| - 1]) == multiset(b[..j] + b[j + 1..])
  {
    var x := a[|a| - 1];
    assert x in multiset(b) by {
      assert x in multiset(a);
    }
    j :| 0 <= j < |b| && b[j] == x;
    MultisetRemove(a, |a| - 1);
    MultisetRemove(b, j);
  }

  /** Taking one source out of the total takes its score out. */
  lemma SumScoresSplit(score: Option<string> -> nat, s: seq<Option<string>>, j: nat)
    requires j < |s|
    ensures Sum(ScoresOf(score, s)) == Sum(ScoresOf(score, s[..j] + s[j + 1..])) + score(s[j])
  {
    SumScoresRemove(score, s[..j], [s[j]], s[j + 1..]);
    assert s[..j] + [s[j]] + s[j + 1..] == s;
    SumSingle(score, s[j]);
  }

  lemma SumSingle(score: Option<string> -> nat, x: Option<string>)
    ensures Sum(ScoresOf(score, [x])) == score(x)
  {
    assert ScoresOf(score, [x]) == [score(x)];
    assert [score(x)][..0] == [];
  }

  lemma MultisetRemove<T>(s: seq<T>, j: nat)
    requires j < |s|
    ensures multiset(s[..j] + s[j + 1..]) == multiset(s) - multiset{s[j]}
    ensures s[..|s| - 1] + s[|s|..] == s[..|s| - 1]
  {
    assert s == s[..j] + [s[j]] + s[j + 1..];
  }

  /** Taking a block out of the sources takes its scores out of the total. */
  lemma SumScoresRemove(score: Option<string> -> nat, u: seq<Option<string>>, m: seq<Option<string>>, v: seq<Option<string>>)
    ensures Sum(ScoresOf(score, u + m + v)) == Sum(ScoresOf(score, u + v)) + Sum(ScoresOf(score, m))
  {
    var su, sm, sv := ScoresOf(score, u), ScoresOf(score, m), ScoresOf(score, v);
    assert ScoresOf(score, u + m + v) == su + sm + sv;
    assert ScoresOf(score, u + v) == su + sv;
    SumAppend(su + sm, sv);
    SumAppend(su, sm);
    SumAppend(su, sv);
  }

  /** The mean does not depend on the order of the sources. */
  lemma MeanPermutation(score: Option<string> -> nat, a: seq<Option<string>>, b: seq<Option<string>>)
    requires multiset(a) == multiset(b)
    ensures Mean(ScoresOf(score, a)) == Mean(ScoresOf(score, b))
  {
    assert |a| == |multiset(a)| == |multiset(b)| == |b|;
    SumScoresPermutation(score, a, b);
  }

  /** `calculate_credibility` gives 0.0 for no sources, otherwise a value in [0.5, 0.9]
      that does not depend on the order of the sources. */
  lemma CredibilityRange(sources: seq<Option<string>>)
    ensures sources == [] ==> Credibility(sources) == 0.0
    ensures sources != [] ==> 0.5 <= Credibility(sources) <= 0.9
    ensures forall other :: multiset(other) == multiset(sources) ==>
      Credibility(other) == Credibility(sources)
  {
    var xs := ScoresOf(SourceScore, sources);
    forall k | 0 <= k < |xs| ensures 50 <= xs[k] <= 90 {
      SourceScoreRange(sources[k]);
    }
    if sources != [] {
      MeanBounds(xs, 50, 90);
    }
    forall other | multiset(other) == multiset(sources)
      ensures Credibility(other) == Credibility(sources)
    {
      MeanPermutation(SourceScore, other, sources);
    }
  }

  lemma SourceScoreRange(domain: Option<string>)
    ensures 50 <= SourceScore(domain) <= 90
  {
    SuffixScoreRange(DomainScores, Lower(if domain.Some? then domain.value else ""), 50, 90);
  }

  /** A lookup gives one of the table's stored scores: the entry of the domain's
      suffix key when the table has one, otherwise the entry of "other". */
  lemma SuffixScoreStored(table: OrderedDict.Dict<nat>, domain: string) returns (i: nat)
    requires OrderedDict.Get(table, "other").Some?
    ensures i < |table.items| && table.items[i].1 == SuffixScore(table, domain)
    ensures OrderedDict.Get(table, "." + LastLabel(domain)).Some? ==> table.items[i].0 == "." + LastLabel(domain)
    ensures OrderedDict.Get(table, "." + LastLabel(domain)).None? ==> table.items[i].0 == "other"
  {
    var key := "." + LastLabel(domain);
    match OrderedDict.Find(table.items, key)
    case Some(j) => i := j;
    case None => i := OrderedDict.Find(table.items, "other").value;
  }

  /** A lookup in a table whose scores lie in [lo, hi] lies in [lo, hi]. */
  lemma SuffixScoreRange(table: OrderedDict.Dict<nat>, domain: string, lo: nat, hi: nat)
    requires OrderedDict.Get(table, "other").Some? && ScoresIn(table, lo, hi)
    ensures lo <= SuffixScore(table, domain) <= hi
  {
    var i := SuffixScoreStored(table, domain);
  }

  /** ".gov" is stored once, first, at 0.9. */
  lemma GovScore()
    ensures OrderedDict.Get(DomainScores, ".gov") == Some(90)
  {
    var items := DomainScores.items;
    assert ".gov"[1] == 'g';
    assert forall i :: 0 < i < |items| ==> |items[i].0| != 4 || items[i].0[1] != 'g';
    OrderedDict.GetAt(DomainScores, 0);
  }

  /** A bare "." is no key: every key is longer. */
  lemma DotAbsent()
    ensures OrderedDict.Get(DomainScores, ".") == None
  {
    var items := DomainScores.items;
    assert forall i :: 0 <= i < |items| ==> |items[i].0| != 1;
    OrderedDict.GetAbsent(DomainScores, ".");
  }

  /** Lower-casing comes first: "X.GOV" scores as a .gov source, and a missing
      domain scores as an unknown suffix. */
  lemma SourceScoreCases(prefix: string)
    ensures SourceScore(Some(prefix + ".GOV")) == 90
    ensures SourceScore(Some(prefix + ".gov")) == 90
    ensures SourceScore(None) == 50
  {
    var low := Lower(prefix) + "." + "gov";
    LastLabelAfterDot(Lower(prefix), "gov");
    assert "." + LastLabel(low) == ".gov";
    GovScore();
    assert Lower(prefix + ".GOV") == low by {
      LowerAppend(prefix, ".GOV");
      assert Lower(".GOV") == ".gov";
    }
    assert Lower(prefix + ".gov") == low by {
      LowerAppend(prefix, ".gov");
      assert Lower(".gov") == ".gov";
    }
    assert Lower("") == "";
    LastLabelNoDot("");
    assert "." + "" == ".";
    DotAbsent();
  }
}
