/** The personal-data scrubber every respondent turn passes through before it is persisted.

    `harness/policies/pii.py` replaced a regular expression by a cursor-based scan. The reference here is
    declarative (`Match`, `IsScan`): the scan must return exactly the leftmost, longest, non-overlapping
    tokens. Unicode word classes stay abstract: an `AlnumClass` is any set of characters without the
    four punctuation marks on which the proofs rest. */
module Pii {

  type AlnumClass = w: set<char> | w !! {'@', '[', ']', '.'} witness {}

  predicate IsWord(alnum: AlnumClass, c: char) { c == '_' || c in alnum }

  predicate IsLocal(alnum: AlnumClass, c: char) { IsWord(alnum, c) || c == '.' || c == '+' || c == '-' }

  predicate IsHead(alnum: AlnumClass, c: char) { IsWord(alnum, c) || c == '-' }

  predicate IsTail(alnum: AlnumClass, c: char) { IsWord(alnum, c) || c == '.' || c == '-' }

  datatype Span = Span(start: nat, end: nat)

  /** `text[s..e]` reads local+ '@' head+ '.' tail+, with the '@' at `at` and the first dot at `dot`. */
  ghost predicate Shape(alnum: AlnumClass, text: string, s: nat, at: nat, dot: nat, e: nat) {
    && s < at && at + 1 < dot && dot + 1 < e <= |text|
    && (forall i | s <= i < at :: IsLocal(alnum, text[i]))
    && text[at] == '@'
    && (forall i | at < i < dot :: IsHead(alnum, text[i]))
    && text[dot] == '.'
    && (forall i | dot < i < e :: IsTail(alnum, text[i]))
  }

  ghost predicate Match(alnum: AlnumClass, text: string, s: nat, e: nat) {
    exists at: nat, dot: nat :: Shape(alnum, text, s, at, dot, e)
  }

  /** No email-shaped token starts in `[from, to)`. */
  ghost predicate NoMatchIn(alnum: AlnumClass, text: string, from: nat, to: nat) {
    forall s: nat, e: nat | from <= s < to :: !Match(alnum, text, s, e)
  }

  ghost predicate Clean(alnum: AlnumClass, text: string) {
    NoMatchIn(alnum, text, 0, |text|)
  }

  /** `sp` is what a leftmost-longest matcher returns when it resumes at `cursor`. */
  ghost predicate LeftmostLongest(alnum: AlnumClass, text: string, cursor: nat, sp: Span) {
    && cursor <= sp.start
    && Match(alnum, text, sp.start, sp.end)
    && NoMatchIn(alnum, text, cursor, sp.start)
    && (forall e: nat | e > sp.end :: !Match(alnum, text, sp.start, e))
  }

  /** Where the matcher resumes before span `k`. */
  function Resume(spans: seq<Span>, k: nat): nat
    requires k <= |spans|
  {
    if k == 0 then 0 else spans[k - 1].end
  }

  ghost predicate ScanPrefix(alnum: AlnumClass, text: string, spans: seq<Span>) {
    forall k {:trigger Resume(spans, k)} | 0 <= k < |spans| :: LeftmostLongest(alnum, text, Resume(spans, k), spans[k])
  }

  ghost predicate IsScan(alnum: AlnumClass, text: string, spans: seq<Span>) {
    && ScanPrefix(alnum, text, spans)
    && NoMatchIn(alnum, text, Resume(spans, |spans|), |text|)
  }

  /** Spans in increasing order, disjoint, non-empty and inside the text. */
  predicate Ordered(text: string, spans: seq<Span>) {
    forall k {:trigger Resume(spans, k)} | 0 <= k < |spans| :: Resume(spans, k) <= spans[k].start < spans[k].end <= |text|
  }

  lemma ScanIsOrdered(alnum: AlnumClass, text: string, spans: seq<Span>)
    requires ScanPrefix(alnum, text, spans)
    ensures Ordered(text, spans)
    ensures forall sp | sp in spans :: sp.start <= sp.end <= |text|
  {
    forall k | 0 <= k < |spans| ensures Resume(spans, k) <= spans[k].start < spans[k].end <= |text| {
      assert LeftmostLongest(alnum, text, Resume(spans, k), spans[k]);
    }
    forall sp | sp in spans ensures sp.start <= sp.end <= |text| {
      var k :| 0 <= k < |spans| && spans[k] == sp;
      assert Resume(spans, k) <= spans[k].start;
    }
  }

  /** The reference matcher has one answer: two scans of one text are equal. */
  lemma ScanIsUnique(alnum: AlnumClass, text: string, xs: seq<Span>, ys: seq<Span>)
    requires IsScan(alnum, text, xs) && IsScan(alnum, text, ys)
    ensures xs == ys
  {
    ScanPrefixesAgree(alnum, text, xs, ys, if |xs| <= |ys| then |xs| else |ys|);
    ScanIsOrdered(alnum, text, xs);
    ScanIsOrdered(alnum, text, ys);
    NoFurtherSpan(alnum, text, xs, ys);
    NoFurtherSpan(alnum, text, ys, xs);
  }

  lemma NoFurtherSpan(alnum: AlnumClass, text: string, xs: seq<Span>, ys: seq<Span>)
    requires IsScan(alnum, text, xs) && ScanPrefix(alnum, text, ys) && Ordered(text, ys)
    requires |xs| <= |ys| ==> ys[..|xs|] == xs
    ensures |ys| <= |xs|
  {
    assert |xs| <= |ys| ==> Resume(ys, |xs|) == Resume(xs, |xs|);
  }

  lemma {:induction false} ScanPrefixesAgree(alnum: AlnumClass, text: string, xs: seq<Span>, ys: seq<Span>, k: nat)
    requires ScanPrefix(alnum, text, xs) && ScanPrefix(alnum, text, ys)
    requires k <= |xs| && k <= |ys|
    ensures xs[..k] == ys[..k]
  {
    if k > 0 {
      ScanPrefixesAgree(alnum, text, xs, ys, k - 1);
      var x, y := xs[k - 1], ys[k - 1];
      assert k > 1 ==> xs[k - 2] == xs[..k - 1][k - 2] == ys[..k - 1][k - 2] == ys[k - 2];
      assert LeftmostLongest(alnum, text, Resume(xs, k - 1), x);
      assert LeftmostLongest(alnum, text, Resume(ys, k - 1), y);
      assert x == y;
      assert xs[..k] == xs[..k - 1] + [x] && ys[..k] == ys[..k - 1] + [y];
    }
  }

  /** Inside a match there are no brackets, one '@', and no dot before the first one of the domain. */
  lemma ShapeCharacters(alnum: AlnumClass, text: string, s: nat, at: nat, dot: nat, e: nat)
    requires Shape(alnum, text, s, at, dot, e)
    ensures forall i | s <= i < e :: text[i] != '[' && text[i] != ']' && (text[i] == '@' ==> i == at)
  {
    forall i | s <= i < e ensures text[i] != '[' && text[i] != ']' && (text[i] == '@' ==> i == at) {
      if i < at {
        assert IsLocal(alnum, text[i]);
      } else if at < i < dot {
        assert IsHead(alnum, text[i]);
      } else if dot < i {
        assert IsTail(alnum, text[i]);
      }
    }
  }

  /** Where the pieces of a match must lie when `at` is the first '@' at or after `cursor`, `start` the
      beginning of the local run before it and `headEnd` the end of the head run after it. */
  lemma MatchIsForced(alnum: AlnumClass, text: string, cursor: nat, at: nat, start: nat, headEnd: nat, s: nat, e: nat)
    requires cursor <= start <= at < headEnd <= |text| && text[at] == '@'
    requires forall i | cursor <= i < at :: text[i] != '@'
    requires start == cursor || !IsLocal(alnum, text[start - 1])
    requires forall i | at < i < headEnd :: IsHead(alnum, text[i])
    requires headEnd == |text| || !IsHead(alnum, text[headEnd])
    requires cursor <= s <= at && Match(alnum, text, s, e)
    ensures start <= s < at && at + 1 < headEnd < |text| && text[headEnd] == '.'
    ensures headEnd + 1 < e <= |text| && forall i | headEnd < i < e :: IsTail(alnum, text[i])
  {
    var at': nat, dot: nat :| Shape(alnum, text, s, at', dot, e);
    ShapeCharacters(alnum, text, s, at', dot, e);
    assert at' == at;
    assert dot == headEnd by {
      assert !IsHead(alnum, text[dot]);
    }
  }

  /** Python's `text.find("@", cursor)`; `ghost steps` counts the characters looked at. */
  method FindAt(text: string, cursor: nat) returns (at: int, ghost steps: nat)
    requires cursor <= |text|
    ensures at == -1 || cursor <= at < |text|
    ensures at == -1 ==> (forall i | cursor <= i < |text| :: text[i] != '@') && steps == |text| - cursor
    ensures at >= 0 ==> text[at] == '@' && (forall i | cursor <= i < at :: text[i] != '@') && steps == at - cursor + 1
  {
    var i := cursor;
    steps := 0;
    while i < |text|
      invariant cursor <= i <= |text|
      invariant forall j | cursor <= j < i :: text[j] != '@'
      invariant steps == i - cursor
    {
      steps := steps + 1;
      if text[i] == '@' {
        return i, steps;
      }
      i := i + 1;
    }
    return -1, steps;
  }

  function AtCount(text: string): (n: nat)
    ensures n <= |text|
  {
    if text == "" then 0 else AtCount(text[..|text| - 1]) + if text[|text| - 1] == '@' then 1 else 0
  }

  lemma {:induction false} AtCountGrows(text: string, i: nat, at: nat, j: nat)
    requires i <= at < j <= |text|
    ensures AtCount(text[..j]) >= AtCount(text[..i]) + if text[at] == '@' then 1 else 0
    decreases j
  {
    assert text[..j][..j - 1] == text[..j - 1];
    if at < j - 1 {
      AtCountGrows(text, i, at, j - 1);
    } else if i < at {
      AtCountGrows(text, i, i, at);
    }
  }

  /** The three inner loops: back over local characters, on over head characters, on over tail characters. */
  method SkipLocal(alnum: AlnumClass, text: string, cursor: nat, at: nat) returns (start: nat, ghost steps: nat)
    requires cursor <= at < |text|
    ensures cursor <= start <= at && (forall i | start <= i < at :: IsLocal(alnum, text[i]))
    ensures start > cursor ==> !IsLocal(alnum, text[start - 1])
    ensures steps <= at - cursor
  {
    start, steps := at, 0;
    while start > cursor && IsLocal(alnum, text[start - 1])
      invariant cursor <= start <= at && steps == at - start
      invariant forall i | start <= i < at :: IsLocal(alnum, text[i])
    {
      start := start - 1;
      steps := steps + 1;
    }
    if start > cursor {
      steps := steps + 1;
    }
  }

  method SkipHead(alnum: AlnumClass, text: string, from: nat) returns (end: nat, ghost steps: nat)
    requires from <= |text|
    ensures from <= end <= |text| && (forall i | from <= i < end :: IsHead(alnum, text[i]))
    ensures end < |text| ==> !IsHead(alnum, text[end])
    ensures steps <= end - from + 1
  {
    end, steps := from, 0;
    while end < |text| && IsHead(alnum, text[end])
      invariant from <= end <= |text| && steps == end - from
      invariant forall i | from <= i < end :: IsHead(alnum, text[i])
    {
      end := end + 1;
      steps := steps + 1;
    }
    if end < |text| {
      steps := steps + 1;
    }
  }

  method SkipTail(alnum: AlnumClass, text: string, from: nat) returns (end: nat, ghost steps: nat)
    requires from <= |text|
    ensures from <= end <= |text| && (forall i | from <= i < end :: IsTail(alnum, text[i]))
    ensures end < |text| ==> !IsTail(alnum, text[end])
    ensures steps <= end - from + 1
  {
    end, steps := from, 0;
    while end < |text| && IsTail(alnum, text[end])
      invariant from <= end <= |text| && steps == end - from
      invariant forall i | from <= i < end :: IsTail(alnum, text[i])
    {
      end := end + 1;
      steps := steps + 1;
    }
    if end < |text| {
      steps := steps + 1;
    }
  }

  /** `_email_spans`. The result is the reference scan. `steps` counts every test of a character, those that fail
      included: three for each character, and two more for each `@`. */
  method EmailSpans(alnum: AlnumClass, text: string) returns (spans: seq<Span>, ghost steps: nat)
    ensures IsScan(alnum, text, spans)
    ensures steps <= 3 * |text| + 2 * AtCount(text)
  {
    hide AtCount;
    spans := [];
    var cursor := 0;
    steps := 0;
    // Head characters below this mark have been looked at once; none of them from `cursor` on is an '@'.
    ghost var headMark := 0;
    while cursor < |text|
      invariant Resume(spans, |spans|) <= cursor <= |text| && headMark <= |text|
      invariant ScanPrefix(alnum, text, spans)
      invariant NoMatchIn(alnum, text, Resume(spans, |spans|), cursor)
      invariant forall i | cursor <= i < headMark :: text[i] != '@'
      invariant steps <= 2 * cursor + headMark + 2 * AtCount(text[..cursor])
      decreases |text| - cursor
    {
      var at, findSteps := FindAt(text, cursor);
      steps := steps + findSteps;
      if at < 0 {
        assert text[..|text|] == text;
        if cursor < |text| {
          AtCountGrows(text, cursor, cursor, |text|);
        }
        assert NoMatchIn(alnum, text, cursor, |text|);
        break;
      }
      var start, leftSteps := SkipLocal(alnum, text, cursor, at);
      var domainStart := at + 1;
      var domainEnd, headSteps := SkipHead(alnum, text, domainStart);
      steps := steps + leftSteps + headSteps;
      var tailStart := domainEnd + 1;
      var tailEnd := tailStart;
      var found := false;
      if start < at && domainEnd > domainStart && domainEnd < |text| {
        steps := steps + 1;
        if text[domainEnd] == '.' {
          ghost var tailSteps;
          tailEnd, tailSteps := SkipTail(alnum, text, tailStart);
          steps := steps + tailSteps;
          found := tailEnd > tailStart;
        }
      }
      AtCountGrows(text, cursor, at, if found then tailEnd else at + 1);
      forall s: nat, e: nat | cursor <= s <= at && Match(alnum, text, s, e)
        ensures found && start <= s && e <= tailEnd
      {
        MatchIsForced(alnum, text, cursor, at, start, domainEnd, s, e);
      }
      if found {
        assert Shape(alnum, text, start, at, domainEnd, tailEnd);
        assert LeftmostLongest(alnum, text, Resume(spans, |spans|), Span(start, tailEnd));
        ghost var was := spans;
        spans := spans + [Span(start, tailEnd)];
        assert forall k | 0 <= k <= |was| :: Resume(spans, k) == Resume(was, k);
        cursor := tailEnd;
        headMark := tailEnd;
      } else {
        assert forall s: nat, e: nat | cursor <= s <= at :: !Match(alnum, text, s, e);
        cursor := at + 1;
        headMark := domainEnd;
      }
    }
    assert text[..|text|] == text;
  }

  /** The text from `cursor` on with every span exchanged for `put(span)`; a span that starts before the
      cursor is skipped, as the source does. */
  ghost function Splice(text: string, spans: seq<Span>, cursor: nat, put: Span -> string): string
    requires cursor <= |text| && forall sp | sp in spans :: sp.start <= sp.end <= |text|
    decreases |spans|
  {
    if spans == [] then text[cursor..]
    else if spans[0].start < cursor then Splice(text, spans[1..], cursor, put)
    else text[cursor..spans[0].start] + put(spans[0]) + Splice(text, spans[1..], spans[0].end, put)
  }

  /** Nothing outside the spans is lost, moved or altered: putting every span's own text back restores
      the text. */
  lemma {:induction false} SpliceRestores(text: string, spans: seq<Span>, cursor: nat)
    requires cursor <= |text| && forall sp | sp in spans :: sp.start <= sp.end <= |text|
    ensures Splice(text, spans, cursor, (sp: Span) => if sp.start <= sp.end <= |text| then text[sp.start..sp.end] else "")
            == text[cursor..]
    decreases |spans|
  {
    if spans != [] {
      var sp := spans[0];
      if sp.start < cursor {
        SpliceRestores(text, spans[1..], cursor);
      } else {
        SpliceRestores(text, spans[1..], sp.end);
        assert text[cursor..sp.start] + text[sp.start..sp.end] + text[sp.end..] == text[cursor..];
      }
    }
  }

  /** `_replace_spans`. */
  method ReplaceSpans(text: string, spans: seq<Span>, replacement: string) returns (r: string)
    requires forall sp | sp in spans :: sp.start <= sp.end <= |text|
    ensures r == Splice(text, spans, 0, (sp: Span) => replacement)
  {
    var parts: string := "";
    var cursor: nat := 0;
    ghost var put := (sp: Span) => replacement;
    assert spans[0..] == spans;
    for i := 0 to |spans|
      invariant cursor <= |text|
      invariant parts + Splice(text, spans[i..], cursor, put) == Splice(text, spans, 0, put)
    {
      var sp := spans[i];
      assert spans[i..][1..] == spans[i + 1..];
      if sp.start < cursor {
        continue;
      }
      parts := parts + (text[cursor..sp.start] + replacement);
      cursor := sp.end;
    }
    r := parts + text[cursor..];
  }

  /** A redaction marker: bracketed, without an '@' inside. */
  predicate IsMarker(t: string) {
    |t| >= 2 && t[0] == '[' && t[|t| - 1] == ']' && '@' !in t
  }

  /** A match in a concatenation around a marker lies wholly before or wholly after the marker. */
  lemma MatchAvoidsMarker(alnum: AlnumClass, x: string, marker: string, y: string, s: nat, e: nat)
    requires IsMarker(marker)
    requires Match(alnum, x + marker + y, s, e)
    ensures Match(alnum, x, s, e) || (s >= |x| + |marker| && Match(alnum, y, s - |x| - |marker|, e - |x| - |marker|))
  {
    var t := x + marker + y;
    var at: nat, dot: nat :| Shape(alnum, t, s, at, dot, e);
    var first, n := |x|, |x| + |marker|;
    ShapeCharacters(alnum, t, s, at, dot, e);
    assert t[first] == '[' && t[n - 1] == ']';
    assert forall i | first <= i < n :: t[i] == marker[i - first] && t[i] != '@';
    assert e <= first || n <= s;
    if e <= first {
      assert forall i | 0 <= i < e :: t[i] == x[i];
      assert Shape(alnum, x, s, at, dot, e);
    } else {
      assert t[n..] == y;
      UnshiftShape(alnum, t, n, s, at, dot, e);
    }
  }

  lemma UnshiftShape(alnum: AlnumClass, t: string, n: nat, s: nat, at: nat, dot: nat, e: nat)
    requires n <= s && n <= |t| && Shape(alnum, t, s, at, dot, e)
    ensures Shape(alnum, t[n..], s - n, at - n, dot - n, e - n)
  {
    var y := t[n..];
    assert forall i | 0 <= i < |y| :: y[i] == t[i + n];
    forall i | s - n <= i < at - n ensures IsLocal(alnum, y[i]) { assert IsLocal(alnum, t[i + n]); }
    forall i | at - n < i < dot - n ensures IsHead(alnum, y[i]) { assert IsHead(alnum, t[i + n]); }
    forall i | dot - n < i < e - n ensures IsTail(alnum, y[i]) { assert IsTail(alnum, t[i + n]); }
  }

  /** A match that survives a splice with a marker comes from an equal match in an untouched gap. */
  lemma {:induction false} SurvivorComesFromGap(alnum: AlnumClass, text: string, spans: seq<Span>, cursor: nat,
                                                marker: string, s: nat, e: nat)
      returns (s': nat, e': nat)
    requires cursor <= |text| && forall sp | sp in spans :: sp.start <= sp.end <= |text|
    requires IsMarker(marker)
    requires Match(alnum, Splice(text, spans, cursor, (sp: Span) => marker), s, e)
    ensures cursor <= s' && Match(alnum, text, s', e')
    ensures forall sp | sp in spans && Ordered(text, spans) && cursor <= spans[0].start :: e' <= sp.start || sp.end <= s'
    decreases |spans|
  {
    var put := (sp: Span) => marker;
    if spans == [] {
      assert text[cursor..|text|] == text[cursor..] == Splice(text, spans, cursor, put);
      s', e' := ShiftMatch(alnum, text, cursor, |text|, s, e);
    } else if spans[0].start < cursor {
      s', e' := SurvivorComesFromGap(alnum, text, spans[1..], cursor, marker, s, e);
    } else {
      var sp0 := spans[0];
      var x, y := text[cursor..sp0.start], Splice(text, spans[1..], sp0.end, put);
      assert Splice(text, spans, cursor, put) == x + marker + y;
      MatchAvoidsMarker(alnum, x, marker, y, s, e);
      if Match(alnum, x, s, e) {
        s', e' := ShiftMatch(alnum, text, cursor, sp0.start, s, e);
        forall sp | sp in spans && Ordered(text, spans) && cursor <= sp0.start ensures e' <= sp.start {
          LaterSpansStartLater(text, spans);
        }
      } else {
        s', e' := SurvivorComesFromGap(alnum, text, spans[1..], sp0.end, marker, s - |x| - |marker|, e - |x| - |marker|);
        forall sp | sp in spans && Ordered(text, spans) && cursor <= sp0.start ensures e' <= sp.start || sp.end <= s' {
          if sp != sp0 {
            var rest := spans[1..];
            assert sp in rest;
            assert Ordered(text, rest) by {
              forall k | 0 <= k < |rest| ensures Resume(rest, k) <= rest[k].start < rest[k].end <= |text| {
                assert Resume(spans, k + 1) <= spans[k + 1].start < spans[k + 1].end <= |text|;
              }
            }
            assert Resume(spans, 1) <= spans[1].start;
          }
        }
      }
    }
  }

  lemma ShiftMatch(alnum: AlnumClass, text: string, from: nat, to: nat, s: nat, e: nat) returns (s': nat, e': nat)
    requires from <= to <= |text| && Match(alnum, text[from..to], s, e)
    ensures s' == s + from && e' == e + from && e' <= to && Match(alnum, text, s', e')
  {
    var at: nat, dot: nat :| Shape(alnum, text[from..to], s, at, dot, e);
    s', e' := s + from, e + from;
    var sub := text[from..to];
    assert forall i | 0 <= i < |sub| :: sub[i] == text[i + from];
    forall i | s' <= i < at + from ensures IsLocal(alnum, text[i]) { assert IsLocal(alnum, sub[i - from]); }
    forall i | at + from < i < dot + from ensures IsHead(alnum, text[i]) { assert IsHead(alnum, sub[i - from]); }
    forall i | dot + from < i < e' ensures IsTail(alnum, text[i]) { assert IsTail(alnum, sub[i - from]); }
    assert Shape(alnum, text, s', at + from, dot + from, e');
  }

  lemma {:induction false} LaterSpansStartLater(text: string, spans: seq<Span>)
    requires spans != [] && Ordered(text, spans)
    ensures forall sp | sp in spans :: spans[0].start <= sp.start
  {
    if |spans| > 1 {
      var rest := spans[1..];
      forall k | 0 <= k < |rest| ensures Resume(rest, k) <= rest[k].start < rest[k].end <= |text| {
        assert Resume(spans, k + 1) <= spans[k + 1].start < spans[k + 1].end <= |text|;
      }
      LaterSpansStartLater(text, rest);
      assert Resume(spans, 1) <= spans[1].start && Resume(spans, 0) <= spans[0].start;
    }
  }

  /** Redaction is complete: after the scanned spans are exchanged for a marker no email token is left, so a
      second scan finds nothing. */
  lemma RedactionIsComplete(alnum: AlnumClass, text: string, spans: seq<Span>, marker: string)
    requires IsScan(alnum, text, spans) && IsMarker(marker)
    ensures forall sp | sp in spans :: sp.start <= sp.end <= |text|
    ensures Clean(alnum, Splice(text, spans, 0, (sp: Span) => marker))
  {
    ScanIsOrdered(alnum, text, spans);
    var r := Splice(text, spans, 0, (sp: Span) => marker);
    forall s: nat, e: nat | 0 <= s < |r| ensures !Match(alnum, r, s, e) {
      if Match(alnum, r, s, e) {
        var s', e' := SurvivorComesFromGap(alnum, text, spans, 0, marker, s, e);
        forall i | 0 <= i < |spans| ensures e' <= spans[i].start || spans[i].end <= s' {
          assert spans[i] in spans;
          assert Resume(spans, 0) <= spans[0].start;
        }
        GapHasNoMatch(alnum, text, spans, s', e', |spans|);
      }
    }
  }

  /** A match of the text that avoids all scanned spans would have to start in a gap the scan found empty. */
  lemma {:induction false} GapHasNoMatch(alnum: AlnumClass, text: string, spans: seq<Span>, s: nat, e: nat, k: nat)
    requires IsScan(alnum, text, spans) && s < |text|
    requires forall i | 0 <= i < |spans| :: e <= spans[i].start || spans[i].end <= s
    requires k <= |spans| && (k == |spans| || s < spans[k].start)
    ensures !Match(alnum, text, s, e)
  {
    if Resume(spans, k) <= s {
      if k < |spans| {
        assert LeftmostLongest(alnum, text, Resume(spans, k), spans[k]);
      }
    } else {
      assert s < spans[k - 1].end;
      assert e <= spans[k - 1].start;
      if s < e {
        GapHasNoMatch(alnum, text, spans, s, e, k - 1);
      }
    }
  }

  /** Later substitutions cannot bring an address back: exchanging any spans of an email-free text for a
      marker leaves it email-free. */
  lemma MarkersCreateNoEmail(alnum: AlnumClass, text: string, spans: seq<Span>, marker: string)
    requires Clean(alnum, text) && IsMarker(marker) && forall sp | sp in spans :: sp.start <= sp.end <= |text|
    ensures Clean(alnum, Splice(text, spans, 0, (sp: Span) => marker))
  {
    var r := Splice(text, spans, 0, (sp: Span) => marker);
    forall s: nat, e: nat | 0 <= s < |r| ensures !Match(alnum, r, s, e) {
      if Match(alnum, r, s, e) {
        var s', e' := SurvivorComesFromGap(alnum, text, spans, 0, marker, s, e);
      }
    }
  }

  /** What a compiled pattern's substitution sees of a text: the spans it matches. */
  type Finder = f: string -> seq<Span> | forall t, sp | sp in f(t) :: sp.start <= sp.end <= |t|
    witness (t: string) => []

  datatype Field = EmailField | CnIdField | PhoneField

  const EMAIL_MARKER := "[email]"
  const ID_MARKER := "[id]"
  const PHONE_MARKER := "[phone]"

  ghost predicate InText(text: string, spans: seq<Span>) {
    forall sp | sp in spans :: sp.start <= sp.end <= |text|
  }

  /** The text with every span exchanged for the marker. */
  ghost function Marked(text: string, spans: seq<Span>, marker: string): string
    requires InText(text, spans)
  {
    Splice(text, spans, 0, (sp: Span) => marker)
  }

  /** The three stages of a redaction, in order, with what each stage reports. */
  ghost predicate IsRedaction(alnum: AlnumClass, cnId: Finder, phone: Finder, text: string, emails: seq<Span>,
                              cleaned: string, fields: seq<Field>) {
    && IsScan(alnum, text, emails) && InText(text, emails)
    && var t1 := Marked(text, emails, EMAIL_MARKER);
    && InText(t1, cnId(t1))
    && var t2 := Marked(t1, cnId(t1), ID_MARKER);
    && InText(t2, phone(t2))
    && cleaned == Marked(t2, phone(t2), PHONE_MARKER)
    && fields == (if emails != [] then [EmailField] else [])
               + (if cnId(t1) != [] then [CnIdField] else [])
               + (if phone(t2) != [] then [PhoneField] else [])
  }

  /** Every redaction is clean, and one that reports nothing has changed nothing. */
  lemma RedactedIsClean(alnum: AlnumClass, cnId: Finder, phone: Finder, text: string, emails: seq<Span>,
                        cleaned: string, fields: seq<Field>)
    requires IsRedaction(alnum, cnId, phone, text, emails, cleaned, fields)
    ensures Clean(alnum, cleaned) && (fields == [] ==> cleaned == text)
  {
    RedactionIsComplete(alnum, text, emails, EMAIL_MARKER);
    var t1 := Marked(text, emails, EMAIL_MARKER);
    MarkersCreateNoEmail(alnum, t1, cnId(t1), ID_MARKER);
    var t2 := Marked(t1, cnId(t1), ID_MARKER);
    MarkersCreateNoEmail(alnum, t2, phone(t2), PHONE_MARKER);
  }

  /** `redact`: emails by the scan, then the national-id and phone patterns (any two span finders). No email
      token is left whatever the two patterns match, and a text in which nothing is found comes back as it was. */
  method Redact(alnum: AlnumClass, cnId: Finder, phone: Finder, text: string)
        returns (cleaned: string, fields: seq<Field>)
    ensures exists emails :: IsRedaction(alnum, cnId, phone, text, emails, cleaned, fields)
    ensures Clean(alnum, cleaned)
    ensures EmailField in fields <==> !Clean(alnum, text)
    ensures fields == [] ==> cleaned == text
  {
    hide Splice, Clean;
    fields := [];
    cleaned := text;
    var spans, _ := EmailSpans(alnum, text);
    EmptyScanIffClean(alnum, text, spans);
    NothingMarked(text, EMAIL_MARKER);
    if spans != [] {
      fields := fields + [EmailField];
      cleaned := ReplaceSpans(text, spans, EMAIL_MARKER);
    }
    ghost var t1 := cleaned;
    assert t1 == Marked(text, spans, EMAIL_MARKER);
    var ids := cnId(cleaned);
    NothingMarked(t1, ID_MARKER);
    if ids != [] {
      fields := fields + [CnIdField];
      cleaned := ReplaceSpans(cleaned, ids, ID_MARKER);
    }
    ghost var t2 := cleaned;
    assert t2 == Marked(t1, ids, ID_MARKER);
    var phones := phone(cleaned);
    NothingMarked(t2, PHONE_MARKER);
    if phones != [] {
      fields := fields + [PhoneField];
      cleaned := ReplaceSpans(cleaned, phones, PHONE_MARKER);
    }
    assert IsRedaction(alnum, cnId, phone, text, spans, cleaned, fields);
    RedactedIsClean(alnum, cnId, phone, text, spans, cleaned, fields);
  }

  lemma NothingMarked(text: string, marker: string)
    ensures Marked(text, [], marker) == text
  {
  }

  lemma EmptyScanIffClean(alnum: AlnumClass, text: string, spans: seq<Span>)
    requires IsScan(alnum, text, spans)
    ensures spans == [] <==> Clean(alnum, text)
    ensures InText(text, spans)
  {
    ScanIsOrdered(alnum, text, spans);
    if spans == [] {
      assert Resume(spans, 0) == 0;
    } else {
      assert LeftmostLongest(alnum, text, Resume(spans, 0), spans[0]);
    }
  }
}
