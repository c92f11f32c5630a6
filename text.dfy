/** The Python `str` operations the fact checker relies on, over `seq<char>`:
    `in`, `find`, `split(sep)`, `sep.join`, `strip()`, `split()` and `lower()`. */
module Text {
  import opened Wrappers

  /** Python's `str.isspace()` on the Latin-1 range. */
  predicate IsSpace(c: char) {
    c == ' ' || c == '\t' || c == '\n' || c == '\r' || c == '\U{0B}' || c == '\U{0C}'
    || ('\U{1C}' <= c <= '\U{1F}') || c == '\U{85}' || c == '\U{A0}'
  }

  predicate AllSpace(s: string) {
    forall i :: 0 <= i < |s| ==> IsSpace(s[i])
  }

  predicate NoSpace(s: string) {
    forall i :: 0 <= i < |s| ==> !IsSpace(s[i])
  }

  /** Neither end of `s` is whitespace: what `strip()` leaves behind. */
  predicate Trimmed(s: string) {
    s == [] || (!IsSpace(s[0]) && !IsSpace(s[|s| - 1]))
  }

  // ---------------------------------------------------------------- substring search

  predicate OccursAt(s: string, p: string, i: nat) {
    i + |p| <= |s| && s[i..i + |p|] == p
  }

  /** Python's `p in s`. */
  predicate Contains(s: string, p: string) {
    exists i: nat | i <= |s| :: OccursAt(s, p, i)
  }

  lemma OccursShift(s: string, p: string, j: nat)
    requires s != []
    ensures OccursAt(s, p, j + 1) <==> OccursAt(s[1..], p, j)
  {
    if j + 1 + |p| <= |s| {
      assert s[j + 1..j + 1 + |p|] == s[1..][j..j + |p|];
    }
  }

  /** Python's `s.find(p)`, with `None` for -1. */
  function IndexOf(s: string, p: string): (r: Option<nat>)
    ensures r.Some? ==> r.value + |p| <= |s|
    decreases |s|
  {
    if p <= s then Some(0)
    else if s == [] then None
    else
      match IndexOf(s[1..], p)
      case None => None
      case Some(i) => Some(i + 1)
  }

  /** `find` gives the leftmost occurrence, and -1 exactly when the pattern is absent. */
  lemma {:induction false} IndexOfSpec(s: string, p: string)
    ensures var r := IndexOf(s, p);
            && (r.Some? ==> OccursAt(s, p, r.value))
            && (r.Some? ==> forall j: nat :: j < r.value ==> !OccursAt(s, p, j))
            && (r.None? <==> !Contains(s, p))
    decreases |s|
  {
    if p <= s {
      assert OccursAt(s, p, 0);
    } else if s != [] {
      IndexOfSpec(s[1..], p);
      var rest := IndexOf(s[1..], p);
      assert forall j: nat :: OccursAt(s, p, j + 1) <==> OccursAt(s[1..], p, j) by {
        forall j: nat ensures OccursAt(s, p, j + 1) <==> OccursAt(s[1..], p, j) {
          OccursShift(s, p, j);
        }
      }
      assert !OccursAt(s, p, 0);
      if rest.None? {
        assert forall i: nat :: !OccursAt(s, p, i) by {
          forall i: nat ensures !OccursAt(s, p, i) {
            if i > 0 { assert OccursAt(s, p, (i - 1) + 1) <==> OccursAt(s[1..], p, i - 1); }
          }
        }
      } else {
        assert forall j: nat :: j < rest.value + 1 ==> !OccursAt(s, p, j) by {
          forall j: nat | j < rest.value + 1 ensures !OccursAt(s, p, j) {
            if j > 0 { assert OccursAt(s, p, (j - 1) + 1) <==> OccursAt(s[1..], p, j - 1); }
          }
        }
      }
    }
  }

  lemma OccursInPrefix(s: string, p: string, n: nat, j: nat)
    requires n <= |s| && OccursAt(s[..n], p, j)
    ensures OccursAt(s, p, j)
  {
    assert s[..n][j..j + |p|] == s[j..j + |p|];
  }

  lemma OccursInSuffix(s: string, p: string, n: nat, j: nat)
    requires n <= |s| && OccursAt(s[n..], p, j)
    ensures OccursAt(s, p, n + j)
  {
    assert s[n..][j..j + |p|] == s[n + j..n + j + |p|];
  }

  /** For a one-character pattern, `in` is sequence membership. */
  lemma ContainsChar(s: string, c: char)
    ensures Contains(s, [c]) <==> c in s
  {
    if c in s {
      var i :| 0 <= i < |s| && s[i] == c;
      assert OccursAt(s, [c], i);
    }
    if Contains(s, [c]) {
      var i: nat :| i <= |s| && OccursAt(s, [c], i);
      assert i + 1 <= |s|;
      assert s[i] == s[i..i + 1][0];
    }
  }

  lemma ContainsWitness(s: string, p: string, i: nat)
    requires OccursAt(s, p, i)
    ensures Contains(s, p)
  {
  }

  /** Appending text on either side keeps an occurrence. */
  lemma ContainsInside(a: string, p: string, b: string)
    ensures Contains(a + p + b, p)
  {
    assert (a + p + b)[|a|..|a| + |p|] == p;
    assert OccursAt(a + p + b, p, |a|);
  }

  lemma ContainsAppendRight(a: string, b: string, p: string)
    requires Contains(b, p)
    ensures Contains(a + b, p)
  {
    var i: nat :| OccursAt(b, p, i);
    assert (a + b)[|a|..] == b;
    OccursInSuffix(a + b, p, |a|, i);
  }

  lemma ContainsAppendLeft(a: string, b: string, p: string)
    requires Contains(a, p)
    ensures Contains(a + b, p)
  {
    var i: nat :| OccursAt(a, p, i);
    assert (a + b)[..|a|] == a;
    OccursInPrefix(a + b, p, |a|, i);
  }

  /** A text that lacks the pattern's first character cannot contain it. */
  lemma MissingFirstChar(s: string, p: string)
    requires p != [] && p[0] !in s
    ensures !Contains(s, p)
  {
    forall i: nat ensures !OccursAt(s, p, i) {
      if i + |p| <= |s| {
        assert s[i..i + |p|][0] == s[i];
      }
    }
  }

  /** No character after the first repeats the first one, so two occurrences never overlap. */
  predicate FirstCharUnique(p: string) {
    forall k :: 0 < k < |p| ==> p[k] != p[0]
  }

  /** In `a + p + b`, when `a` does not contain `p`, the first `p` is the one after `a`. */
  lemma FirstOccurrence(a: string, p: string, b: string)
    requires p != [] && FirstCharUnique(p) && !Contains(a, p)
    ensures IndexOf(a + p + b, p) == Some(|a|)
  {
    var s := a + p + b;
    assert s[|a|..|a| + |p|] == p;
    assert OccursAt(s, p, |a|);
    forall j: nat | j < |a| ensures !OccursAt(s, p, j) {
      if j + |p| <= |a| {
        assert a[j..j + |p|] == s[j..j + |p|];
        assert !OccursAt(a, p, j);
      } else if j + |p| <= |s| {
        var k := |a| - j;
        assert s[j..j + |p|][k] == s[|a|] == p[0];
        assert p[k] != p[0];
      }
    }
    IndexOfSpec(s, p);
    var r := IndexOf(s, p);
    assert r.Some?;
    assert r.value <= |a|;
  }

  // ---------------------------------------------------------------- split(sep) and join

  /** Python's `s.split(sep)` for a non-empty separator: scan left to right,
      cutting at each non-overlapping occurrence of `sep`. */
  function Split(s: string, sep: string): (r: seq<string>)
    requires sep != []
    ensures |r| >= 1
    decreases |s|
  {
    match IndexOf(s, sep)
    case None => [s]
    case Some(i) => [s[..i]] + Split(s[i + |sep|..], sep)
  }

  /** No piece of a split holds the separator. */
  lemma {:induction false} SplitPieces(s: string, sep: string)
    requires sep != []
    ensures forall k :: 0 <= k < |Split(s, sep)| ==> !Contains(Split(s, sep)[k], sep)
    decreases |s|
  {
    IndexOfSpec(s, sep);
    match IndexOf(s, sep)
    case None =>
    case Some(i) =>
      var head := s[..i];
      assert !Contains(head, sep) by {
        forall j: nat | OccursAt(head, sep, j) ensures false {
          OccursInPrefix(s, sep, i, j);
        }
      }
      SplitPieces(s[i + |sep|..], sep);
      SplitAt(s, sep);
  }

  /** Python's `sep.join(parts)`. */
  function Join(parts: seq<string>, sep: string): string {
    if |parts| == 0 then ""
    else if |parts| == 1 then parts[0]
    else parts[0] + sep + Join(parts[1..], sep)
  }

  /** Joining the pieces of a split with the same separator gives the text back. */
  lemma {:induction false} JoinSplit(s: string, sep: string)
    requires sep != []
    ensures Join(Split(s, sep), sep) == s
    decreases |s|
  {
    if IndexOf(s, sep).Some? {
      var i := IndexOf(s, sep).value;
      var head, rest := s[..i], s[i + |sep|..];
      JoinSplit(rest, sep);
      SplitAt(s, sep);
      JoinCons(head, Split(rest, sep), sep);
      IndexOfOccurs(s, sep);
      Cut3(s, i, i + |sep|);
    }
  }

  /** A position `find` reports is an occurrence. */
  lemma IndexOfOccurs(s: string, p: string)
    requires IndexOf(s, p).Some?
    ensures s[IndexOf(s, p).value..IndexOf(s, p).value + |p|] == p
  {
    IndexOfSpec(s, p);
  }

  lemma Cut3<T>(s: seq<T>, i: nat, j: nat)
    requires i <= j <= |s|
    ensures s == s[..i] + s[i..j] + s[j..]
  {
  }

  lemma JoinCons(p: string, tail: seq<string>, sep: string)
    requires tail != []
    ensures Join([p] + tail, sep) == p + sep + Join(tail, sep)
  {
    assert ([p] + tail)[1..] == tail;
  }

  /** Splitting `a + sep + b` when `a` holds no separator cuts right after `a`. */
  lemma SplitAfterFirst(a: string, sep: string, b: string)
    requires sep != [] && FirstCharUnique(sep) && !Contains(a, sep)
    ensures Split(a + sep + b, sep) == [a] + Split(b, sep)
  {
    FirstOccurrence(a, sep, b);
    var s := a + sep + b;
    assert s[..|a|] == a;
    assert s[|a| + |sep|..] == b;
  }

  lemma SplitNone(s: string, sep: string)
    requires sep != [] && !Contains(s, sep)
    ensures Split(s, sep) == [s]
  {
    IndexOfSpec(s, sep);
  }

  /** Splitting a join gives back the parts, when no part holds the separator. */
  lemma {:induction false} SplitJoin(parts: seq<string>, sep: string)
    requires sep != [] && FirstCharUnique(sep) && |parts| >= 1
    requires forall k :: 0 <= k < |parts| ==> !Contains(parts[k], sep)
    ensures Split(Join(parts, sep), sep) == parts
    decreases |parts|
  {
    if |parts| == 1 {
      SplitNone(parts[0], sep);
    } else {
      SplitAfterFirst(parts[0], sep, Join(parts[1..], sep));
      SplitJoin(parts[1..], sep);
    }
  }

  /** Number of pieces `s.split(c)` yields for a one-character separator. */
  lemma {:induction false} SplitCharCount(s: string, c: char)
    ensures |Split(s, [c])| == multiset(s)[c] + 1
    decreases |s|
  {
    IndexOfSpec(s, [c]);
    match IndexOf(s, [c])
    case None =>
      ContainsChar(s, c);
    case Some(i) =>
      var rest := s[i + 1..];
      SplitCharCount(rest, c);
      assert s == s[..i] + [s[i]] + rest;
      assert s[i] == s[i..i + 1][0];
      assert !Contains(s[..i], [c]) by {
        forall j: nat | OccursAt(s[..i], [c], j) ensures false {
          OccursInPrefix(s, [c], i, j);
        }
      }
      ContainsChar(s[..i], c);
      assert multiset(s) == multiset(s[..i]) + multiset([s[i]]) + multiset(rest);
  }

  // ---------------------------------------------------------------- strip()

  /** How many whitespace characters `s` starts with. */
  function LeadingSpace(s: string): (n: nat)
    ensures n <= |s|
    decreases |s|
  {
    if s != [] && IsSpace(s[0]) then 1 + LeadingSpace(s[1..]) else 0
  }

  /** How many whitespace characters `s` ends with. */
  function TrailingSpace(s: string): (n: nat)
    ensures n <= |s|
    decreases |s|
  {
    if s != [] && IsSpace(s[|s| - 1]) then 1 + TrailingSpace(s[..|s| - 1]) else 0
  }

  /** The leading run is all whitespace and stops before a non-space character. */
  lemma {:induction false} LeadingSpaceFacts(s: string)
    ensures var n := LeadingSpace(s);
            AllSpace(s[..n]) && (n < |s| ==> !IsSpace(s[n]))
    decreases |s|
  {
    if s != [] && IsSpace(s[0]) {
      var t := s[1..];
      LeadingSpaceFacts(t);
      var k := LeadingSpace(t);
      assert LeadingSpace(s) == k + 1;
      forall i | 1 <= i <= k ensures IsSpace(s[i]) {
        assert s[i] == t[..k][i - 1];
      }
      if k + 1 < |s| {
        assert s[k + 1] == t[k];
      }
    }
  }

  /** The trailing run is all whitespace and follows a non-space character. */
  lemma {:induction false} TrailingSpaceFacts(s: string)
    ensures var n := TrailingSpace(s);
            AllSpace(s[|s| - n..]) && (n < |s| ==> !IsSpace(s[|s| - n - 1]))
    decreases |s|
  {
    if s != [] && IsSpace(s[|s| - 1]) {
      var m := |s| - 1;
      var t := s[..m];
      TrailingSpaceFacts(t);
      var k := TrailingSpace(t);
      assert TrailingSpace(s) == k + 1;
      forall i | m - k <= i < m ensures IsSpace(s[i]) {
        assert s[i] == t[m - k..][i - (m - k)];
      }
      if k < m {
        assert s[m - k - 1] == t[m - k - 1];
      }
    }
  }

  /** Python's `s.strip()`: `s` without its leading and trailing whitespace. */
  function Strip(s: string): string {
    var t := s[LeadingSpace(s)..];
    t[..|t| - TrailingSpace(t)]
  }

  /** `strip()` leaves no whitespace at either end, leaves nothing exactly of an
      all-whitespace text, and leaves a stripped text alone. */
  lemma StripFacts(s: string)
    ensures Trimmed(Strip(s))
    ensures Strip(s) == [] <==> AllSpace(s)
    ensures Trimmed(s) ==> Strip(s) == s
  {
    var i := LeadingSpace(s);
    var t := s[i..];
    var j := TrailingSpace(t);
    var r := t[..|t| - j];
    LeadingSpaceFacts(s);
    TrailingSpaceFacts(t);
    if r != [] {
      assert r[0] == s[i];
      assert r[|r| - 1] == t[|t| - j - 1];
    } else {
      assert s == s[..i] + t[|t| - j..];
    }
    if i < |s| {
      assert !IsSpace(s[i]);
    }
    if Trimmed(s) && s != [] {
      assert i == 0;
      assert t == s;
    }
  }

  /** What `strip()` keeps is one piece of the text. */
  lemma StripSlice(s: string) returns (i: nat)
    ensures i + |Strip(s)| <= |s| && Strip(s) == s[i..i + |Strip(s)|]
  {
    i := LeadingSpace(s);
  }

  // ---------------------------------------------------------------- split() and lower()

  /** Length of the run of non-space characters at the front of `s`. */
  function WordEnd(s: string): (n: nat)
    ensures n <= |s| && NoSpace(s[..n])
    ensures n < |s| ==> IsSpace(s[n])
    decreases |s|
  {
    if s == [] || IsSpace(s[0]) then 0
    else
      var n := 1 + WordEnd(s[1..]);
      assert s[..n] == [s[0]] + s[1..][..n - 1];
      n
  }

  /** Python's `s.split()` with no argument: the maximal runs of non-space characters. */
  function Words(s: string): seq<string>
    decreases |s|
  {
    if s == [] then []
    else if IsSpace(s[0]) then Words(s[1..])
    else
      var n := WordEnd(s);
      [s[..n]] + Words(s[n..])
  }

  /** Every word is non-empty and free of whitespace. */
  lemma {:induction false} WordsFacts(s: string)
    ensures forall k :: 0 <= k < |Words(s)| ==> Words(s)[k] != [] && NoSpace(Words(s)[k])
    decreases |s|
  {
    if s == [] {
    } else if IsSpace(s[0]) {
      WordsFacts(s[1..]);
    } else {
      var n := WordEnd(s);
      WordsFacts(s[n..]);
      var r := [s[..n]] + Words(s[n..]);
      assert Words(s) == r;
      forall k | 1 <= k < |r| ensures r[k] != [] && NoSpace(r[k]) {
        assert r[k] == Words(s[n..])[k - 1];
      }
    }
  }

  lemma {:induction false} WordEndAppend(a: string, b: string)
    ensures WordEnd(a) < |a| ==> WordEnd(a + b) == WordEnd(a)
    ensures WordEnd(a) == |a| && (b == [] || IsSpace(b[0])) ==> WordEnd(a + b) == |a|
    decreases |a|
  {
    if a == [] {
    } else if IsSpace(a[0]) {
    } else {
      assert (a + b)[1..] == a[1..] + b;
      WordEndAppend(a[1..], b);
    }
  }

  lemma {:induction false} WordsAllSpace(s: string)
    requires AllSpace(s)
    ensures Words(s) == []
    decreases |s|
  {
    if s != [] { WordsAllSpace(s[1..]); }
  }

  /** Trailing whitespace does not change the words. */
  lemma {:induction false} WordsAppendSpace(a: string, sp: string)
    requires AllSpace(sp)
    ensures Words(a + sp) == Words(a)
    decreases |a|
  {
    if a == [] {
      assert a + sp == sp;
      WordsAllSpace(sp);
    } else if IsSpace(a[0]) {
      assert (a + sp)[1..] == a[1..] + sp;
      WordsAppendSpace(a[1..], sp);
    } else {
      var n := WordEnd(a);
      WordEndAppend(a, sp);
      assert (a + sp)[..n] == a[..n];
      assert (a + sp)[n..] == a[n..] + sp;
      WordsAppendSpace(a[n..], sp);
    }
  }

  /** Leading whitespace does not change the words. */
  lemma {:induction false} WordsDropSpace(s: string, k: nat)
    requires k <= |s| && AllSpace(s[..k])
    ensures Words(s[k..]) == Words(s)
    decreases k
  {
    if k > 0 {
      assert s[1..][k - 1..] == s[k..];
      assert s[1..][..k - 1] == s[..k][1..];
      assert IsSpace(s[..k][0]);
      WordsDropSpace(s[1..], k - 1);
    }
  }

  /** `s.strip().split() == s.split()`. */
  lemma WordsStrip(s: string)
    ensures Words(Strip(s)) == Words(s)
  {
    var i := LeadingSpace(s);
    var t := s[i..];
    var n := |t| - TrailingSpace(t);
    var r := Strip(s);
    assert r == t[..n];
    LeadingSpaceFacts(s);
    TrailingSpaceFacts(t);
    WordsDropSpace(s, i);
    assert t == r + t[n..];
    WordsAppendSpace(r, t[n..]);
  }

  /** `' '.join(words).split() == words` for non-empty words without whitespace. */
  lemma {:induction false} WordsJoin(ws: seq<string>)
    requires forall k :: 0 <= k < |ws| ==> ws[k] != [] && NoSpace(ws[k])
    ensures Words(Join(ws, " ")) == ws
    decreases |ws|
  {
    if |ws| == 0 {
    } else if |ws| == 1 {
      var w := ws[0];
      assert WordEnd(w + []) == |w| by {
        WordEndAppend(w, []);
        WordEndFull(w);
      }
      assert w + [] == w;
      assert w[|w|..] == [];
    } else {
      var w, rest := ws[0], Join(ws[1..], " ");
      var s := w + " " + rest;
      WordEndFull(w);
      WordEndAppend(w, " " + rest);
      assert s == w + (" " + rest);
      assert s[..|w|] == w;
      assert s[|w|..] == " " + rest;
      assert (" " + rest)[1..] == rest;
      WordsJoin(ws[1..]);
    }
  }

  lemma {:induction false} WordEndFull(w: string)
    requires NoSpace(w)
    ensures WordEnd(w) == |w|
    decreases |w|
  {
    if w != [] { WordEndFull(w[1..]); }
  }

  /** A space-joined list of words has no whitespace at either end. */
  lemma JoinWordsTrimmed(ws: seq<string>)
    requires forall k :: 0 <= k < |ws| ==> ws[k] != [] && NoSpace(ws[k])
    ensures Trimmed(Join(ws, " "))
  {
    if |ws| > 0 {
      JoinFirst(ws, " ");
      JoinLast(ws, " ");
    }
  }

  lemma {:induction false} JoinFirst(ws: seq<string>, sep: string)
    requires |ws| > 0 && ws[0] != []
    ensures Join(ws, sep) != [] && Join(ws, sep)[0] == ws[0][0]
  {
  }

  lemma {:induction false} JoinLast(ws: seq<string>, sep: string)
    requires |ws| > 0 && ws[|ws| - 1] != []
    ensures var j := Join(ws, sep); j != [] && j[|j| - 1] == ws[|ws| - 1][|ws[|ws| - 1]| - 1]
    decreases |ws|
  {
    if |ws| > 1 {
      JoinLast(ws[1..], sep);
    }
  }

  /** Every whitespace character of a space-joined list of words is a single
      space with a non-space character on each side. */
  lemma {:induction false} JoinWordsSingleSpaced(ws: seq<string>, i: nat)
    requires forall k :: 0 <= k < |ws| ==> ws[k] != [] && NoSpace(ws[k])
    requires i < |Join(ws, " ")| && IsSpace(Join(ws, " ")[i])
    ensures var j := Join(ws, " ");
      j[i] == ' ' && 0 < i < |j| - 1 && !IsSpace(j[i - 1]) && !IsSpace(j[i + 1])
    decreases |ws|
  {
    var j := Join(ws, " ");
    if |ws| == 1 {
      assert false;
    } else {
      var w, rest := ws[0], Join(ws[1..], " ");
      assert j == w + " " + rest;
      if i == |w| {
        JoinFirst(ws[1..], " ");
        assert j[i + 1] == rest[0];
        assert j[i - 1] == w[|w| - 1];
      } else if i > |w| {
        var i' := i - |w| - 1;
        assert j[i] == rest[i'];
        JoinWordsSingleSpaced(ws[1..], i');
        assert j[i - 1] == rest[i' - 1];
        assert j[i + 1] == rest[i' + 1];
      }
    }
  }

  function LowerChar(c: char): char {
    if 'A' <= c <= 'Z' then (c as int + 32) as char else c
  }

  /** Python's `s.lower()` on ASCII letters. */
  function Lower(s: string): string {
    seq(|s|, i requires 0 <= i < |s| => LowerChar(s[i]))
  }

  lemma LowerAppend(a: string, b: string)
    ensures Lower(a + b) == Lower(a) + Lower(b)
  {
  }

  lemma LowerIdempotent(s: string)
    ensures Lower(Lower(s)) == Lower(s)
  {
  }

  // ---------------------------------------------------------------- more on split(sep)

  /** Position of the first `p` in `s`, or `|s|` when there is none. */
  function Upto(s: string, p: string): (n: nat)
    ensures n <= |s|
  {
    match IndexOf(s, p)
    case None => |s|
    case Some(i) => i
  }

  /** The first piece of a split runs up to the first separator. */
  lemma SplitFirst(s: string, sep: string)
    requires sep != []
    ensures Split(s, sep)[0] == s[..Upto(s, sep)]
  {
  }

  /** A text holding the separator splits into at least two pieces; the second starts
      right after the first separator. */
  lemma SplitSecond(s: string, sep: string)
    requires sep != [] && Contains(s, sep)
    ensures IndexOf(s, sep).Some? && IndexOf(s, sep).value + |sep| <= |s|
    ensures |Split(s, sep)| >= 2
    ensures Split(s, sep)[1] == Split(s[IndexOf(s, sep).value + |sep|..], sep)[0]
  {
    IndexOfSpec(s, sep);
    var i := IndexOf(s, sep).value;
    assert OccursAt(s, sep, i);
    SplitAt(s, sep);
  }

  /** Where the separator occurs, the split is the text before it and the split of
      the rest. */
  lemma SplitAt(s: string, sep: string)
    requires sep != [] && IndexOf(s, sep).Some?
    ensures var i := IndexOf(s, sep).value;
            i + |sep| <= |s| && Split(s, sep) == [s[..i]] + Split(s[i + |sep|..], sep)
  {
  }

  /** The first `c` in a prefix of `s` is the first `c` of `s`, if it lies in the prefix. */
  lemma UptoPrefix(s: string, n: nat, c: char)
    requires n <= |s|
    ensures Upto(s[..n], [c]) == if Upto(s, [c]) < n then Upto(s, [c]) else n
  {
    IndexOfSpec(s, [c]);
    IndexOfSpec(s[..n], [c]);
    var j := Upto(s, [c]);
    forall i: nat | OccursAt(s[..n], [c], i) ensures OccursAt(s, [c], i) && i >= j {
      OccursInPrefix(s, [c], n, i);
    }
    if j < n {
      assert OccursAt(s, [c], j);
      assert s[..n][j..j + 1] == s[j..j + 1];
      assert OccursAt(s[..n], [c], j);
      assert Contains(s[..n], [c]);
    }
  }

  /** Cutting `a` at its first `c`. */
  lemma SplitCharCut(a: string, c: char) returns (a1: string, a2: string)
    requires Contains(a, [c])
    ensures a == a1 + [c] + a2 && !Contains(a1, [c])
    ensures Split(a, [c]) == [a1] + Split(a2, [c])
  {
    IndexOfSpec(a, [c]);
    var i := IndexOf(a, [c]).value;
    a1 := a[..i];
    a2 := a[i + 1..];
    assert a == a1 + [c] + a2 by {
      assert OccursAt(a, [c], i);
      assert a[i..i + 1] == [c];
      assert a == a[..i] + a[i..i + 1] + a[i + 1..];
    }
    assert !Contains(a1, [c]) by {
      forall j: nat | OccursAt(a1, [c], j) ensures j >= i {
        OccursInPrefix(a, [c], i, j);
      }
    }
    SplitAfterFirst(a1, [c], a2);
  }

  /** Splitting at a one-character separator: `(a + c + b).split(c) == a.split(c) + b.split(c)`. */
  lemma {:induction false} SplitCharAppend(a: string, c: char, b: string)
    ensures Split(a + [c] + b, [c]) == Split(a, [c]) + Split(b, [c])
    decreases |a|
  {
    if !Contains(a, [c]) {
      SplitCharAppendFree(a, c, b);
    } else {
      var a1, a2 := SplitCharCut(a, c);
      SplitCharAppend(a2, c, b);
      SplitCharAppendCut(a1, a2, c, b);
    }
  }

  lemma SplitCharAppendFree(a: string, c: char, b: string)
    requires !Contains(a, [c])
    ensures Split(a + [c] + b, [c]) == Split(a, [c]) + Split(b, [c])
  {
    SplitAfterFirst(a, [c], b);
    SplitNone(a, [c]);
  }

  lemma SplitCharAppendCut(a1: string, a2: string, c: char, b: string)
    requires !Contains(a1, [c])
    requires Split(a2 + [c] + b, [c]) == Split(a2, [c]) + Split(b, [c])
    ensures Split(a1 + [c] + a2 + [c] + b, [c]) == [a1] + Split(a2, [c]) + Split(b, [c])
  {
    assert a1 + [c] + a2 + [c] + b == a1 + [c] + (a2 + [c] + b);
    SplitAfterFirst(a1, [c], a2 + [c] + b);
  }

  /** A pattern without `c` that is absent from `v` first occurs, if at all, after the
      `c` that follows `v`. */
  lemma UptoPastChar(v: string, c: char, rest: string, p: string)
    requires !Contains(v, p) && c !in p
    ensures Upto(v + [c] + rest, p) >= |v|
  {
    var s := v + [c] + rest;
    IndexOfSpec(s, p);
    forall j: nat | j < |v| ensures !OccursAt(s, p, j) {
      if j + |p| <= |v| {
        assert s[j..j + |p|] == v[j..j + |p|];
        assert !OccursAt(v, p, j);
      } else if j + |p| <= |s| {
        assert s[j..j + |p|][|v| - j] == c;
      }
    }
  }
}
