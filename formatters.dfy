/**
 * Turning the model's Markdown answer into the Slack message body: URLs in
 * parentheses are cleaned up, citation markers `[(n)](url)` get a space before
 * them and every `)` a space after it, repeated runs of markers are removed, and
 * (when inline citations are off) markers are stripped. A separate sources block
 * lists the links. Each regular expression of the original is an explicit scanner.
 */
module Formatters {
  import opened Wrappers
  import opened Text
  import opened Schemas
  import opened Libraries

  /** The character classes the scanners skip over. */
  datatype CharClass = NoChars | Blank | HorizontalSpace | AnySpace | Digit | NotCloseParen | UrlChar

  predicate InClass(c: char, cls: CharClass) {
    match cls
    case NoChars => false
    case Blank => c == ' '
    case HorizontalSpace => IsHorizontalSpace(c)
    case AnySpace => IsSpace(c)
    case Digit => IsDigit(c)
    case NotCloseParen => c != ')'
    case UrlChar => c != ')' && !IsLineTerminator(c)
  }

  /** The end of the longest stretch of `cls` characters starting at `i`. */
  function SkipClass(s: string, i: nat, cls: CharClass): (j: nat)
    requires i <= |s|
    ensures i <= j <= |s|
    decreases |s| - i
  {
    if i < |s| && InClass(s[i], cls) then SkipClass(s, i + 1, cls) else i
  }

  /**
   * The three spellings of a citation marker the code matches:
   * `Tight` is `\[\(\d+\)\]\([^)]+\)`, `Spaced` is `\[\(\d+\)[ ]*\][ ]*\([^)]+\)[^\S\r\n]*`
   * (one element of a run) and `Loose` is `\[\(\d+\)\s*\]\([^)]+\)`.
   */
  datatype Shape = Tight | Spaced | Loose

  /** Where a marker of the given shape that starts at `i` ends; `None` when none starts there. */
  function MarkerEnd(s: string, i: nat, shape: Shape): (r: Option<nat>)
    requires i <= |s|
    ensures r.Some? ==> i + 8 <= r.value <= |s| && s[i] == '[' && s[i + 1] == '('
  {
    var inner := match shape case Tight => NoChars case Spaced => Blank case Loose => AnySpace;
    var between := if shape == Spaced then Blank else NoChars;
    var trailing := if shape == Spaced then HorizontalSpace else NoChars;
    if !(i + 2 <= |s| && s[i] == '[' && s[i + 1] == '(') then None
    else
      var d := SkipClass(s, i + 2, Digit);
      if d == i + 2 || d == |s| || s[d] != ')' then None
      else
        var a := SkipClass(s, d + 1, inner);
        if a == |s| || s[a] != ']' then None
        else
          var b := SkipClass(s, a + 1, between);
          if b == |s| || s[b] != '(' then None
          else
            var u := SkipClass(s, b + 1, NotCloseParen);
            if u == b + 1 || u == |s| then None
            else Some(SkipClass(s, u + 1, trailing))
  }

  /** `processUrl`: emojis removed, decoded when it decodes (so it is not encoded twice), encoded, trimmed. */
  function ProcessUrl(url: string, lib: Libraries): string {
    var noEmoji := lib.stripEmojis(url);
    var decoded := lib.decodeUri(noEmoji).GetOr(noEmoji);
    Trim(lib.encodeUri(decoded))
  }

  /** `processTitle`. */
  function ProcessTitle(title: string, lib: Libraries): (r: string)
    ensures r == [] || (!IsSpace(r[0]) && !IsSpace(r[|r| - 1]))
  {
    Trim(lib.stripEmojis(title))
  }

  /**
   * For `\((https?:\/\/.*?)\)`: the index of the `)` closing a parenthesised URL that
   * opens at the start of `s`. The lazy `.*?` stops at the first `)` and cannot
   * cross a line break.
   */
  function UrlClose(s: string): (r: Option<nat>)
    ensures r.Some? ==> 1 <= r.value < |s| && s[0] == '(' && s[r.value] == ')'
  {
    if |s| > 0 && s[0] == '(' && (OccursAt(s, "http://", 1) || OccursAt(s, "https://", 1)) then
      var j := SkipClass(s, 1, UrlChar);
      if j < |s| && s[j] == ')' then Some(j) else None
    else None
  }

  /** First pass: every parenthesised URL is replaced by its processed form, still in parentheses. */
  function RewriteUrls(s: string, lib: Libraries): string
    decreases |s|
  {
    if s == [] then []
    else match UrlClose(s)
      case Some(j) => "(" + ProcessUrl(Trim(s[1..j]), lib) + ")" + RewriteUrls(s[j + 1..], lib)
      case None => [s[0]] + RewriteUrls(s[1..], lib)
  }

  /** Without an opening parenthesis there is no URL to rewrite. */
  lemma {:induction false} RewriteUrlsNoParen(s: string, lib: Libraries)
    requires '(' !in s
    ensures RewriteUrls(s, lib) == s
    decreases |s|
  {
    if s != [] {
      assert s[0] != '(';
      assert '(' !in s[1..];
      RewriteUrlsNoParen(s[1..], lib);
      assert s == [s[0]] + s[1..];
    }
  }

  /**
   * Second pass, `(?<!\s)\[\((\d+)\)\]\([^)]+\)` replaced by `" $&"` scanning from `i`:
   * a marker gets a space in front unless the character before it in the input is
   * whitespace (a marker at the very start counts as not preceded by whitespace).
   */
  function SpaceBeforeFrom(s: string, i: nat): string
    requires i <= |s|
    decreases |s| - i
  {
    if i == |s| then []
    else
      var m := MarkerEnd(s, i, Tight);
      if m.Some? && !(i > 0 && IsSpace(s[i - 1])) then " " + s[i..m.value] + SpaceBeforeFrom(s, m.value)
      else [s[i]] + SpaceBeforeFrom(s, i + 1)
  }

  function SpaceBeforeCitations(s: string): string {
    SpaceBeforeFrom(s, 0)
  }

  /** Without a `[(` there is no marker to space out. */
  lemma {:induction false} SpaceBeforeNoMarker(s: string, i: nat)
    requires i <= |s|
    requires !Contains(s, "[(")
    ensures SpaceBeforeFrom(s, i) == s[i..]
    decreases |s| - i
  {
    if i < |s| {
      MarkerNeedsBracket(s, i, Tight);
      SpaceBeforeNoMarker(s, i + 1);
      assert s[i..] == [s[i]] + s[i + 1..];
    }
  }

  /** Every marker begins with `[(`. */
  lemma {:induction false} MarkerNeedsBracket(s: string, i: nat, shape: Shape)
    requires i <= |s|
    ensures MarkerEnd(s, i, shape).Some? ==> Contains(s, "[(")
  {
    if MarkerEnd(s, i, shape).Some? {
      assert s[i..i + 2] == "[(";
      assert OccursAt(s, "[(", i);
    }
  }

  /** The character `(?!\s)` lets through after a `)`: none at the end, otherwise a non-space. */
  predicate NeedsSpaceAfter(s: string, i: nat)
    requires i < |s|
  {
    s[i] == ')' && (i + 1 == |s| || !IsSpace(s[i + 1]))
  }

  /** Third pass, `\)(?!\s)` replaced by `") "`: every `)` in the result is followed by whitespace. */
  function SpaceAfterParens(s: string): (r: string)
    ensures s == [] <==> r == []
    ensures s != [] ==> r[0] == s[0]
    ensures forall i :: 0 <= i < |r| && r[i] == ')' ==> i + 1 < |r| && IsSpace(r[i + 1])
    ensures ')' !in s ==> r == s
    decreases |s|
  {
    if s == [] then []
    else
      var rest := SpaceAfterParens(s[1..]);
      var head := if NeedsSpaceAfter(s, 0) then ") " else [s[0]];
      var r := head + rest;
      assert forall i :: |head| <= i < |r| ==> r[i] == rest[i - |head|];
      assert ')' !in s ==> head == [s[0]] && ')' !in s[1..];
      r
  }

  /** `processedContent`: the three rewriting passes in order. */
  function ProcessedContent(message: string, lib: Libraries): string {
    SpaceAfterParens(SpaceBeforeCitations(RewriteUrls(message, lib)))
  }

  /** `replace(/[^\S\r\n]+/g, "")`: horizontal whitespace deleted. */
  function RemoveHorizontalSpace(s: string): string
    decreases |s|
  {
    if s == [] then []
    else if IsHorizontalSpace(s[0]) then RemoveHorizontalSpace(s[1..])
    else [s[0]] + RemoveHorizontalSpace(s[1..])
  }

  /** No horizontal whitespace is left, and nothing is added. */
  lemma {:induction false} RemoveHorizontalSpaceClean(s: string)
    ensures var r := RemoveHorizontalSpace(s);
      (forall i :: 0 <= i < |r| ==> !IsHorizontalSpace(r[i])) && IsSubsequence(r, s)
    decreases |s|
  {
    if s != [] {
      RemoveHorizontalSpaceClean(s[1..]);
      var rest := RemoveHorizontalSpace(s[1..]);
      if IsHorizontalSpace(s[0]) {
        SubsequenceSkip(rest, [s[0]], s[1..]);
        assert [s[0]] + s[1..] == s;
      } else {
        var r := [s[0]] + rest;
        assert r[0] == s[0] && r[1..] == rest;
        assert forall i :: 1 <= i < |r| ==> r[i] == rest[i - 1];
      }
    }
  }

  lemma {:induction false} RemoveHorizontalSpaceConcat(a: string, b: string)
    ensures RemoveHorizontalSpace(a + b) == RemoveHorizontalSpace(a) + RemoveHorizontalSpace(b)
    decreases |a|
  {
    if a == [] {
      assert a + b == b;
    } else {
      assert (a + b)[0] == a[0];
      assert (a + b)[1..] == a[1..] + b;
      RemoveHorizontalSpaceConcat(a[1..], b);
    }
  }

  lemma {:induction false} NoHorizontalSpaceKept(s: string)
    requires forall i :: 0 <= i < |s| ==> !IsHorizontalSpace(s[i])
    ensures RemoveHorizontalSpace(s) == s
    decreases |s|
  {
    if s != [] {
      NoHorizontalSpaceKept(s[1..]);
      assert [s[0]] + s[1..] == s;
    }
  }

  /** The end of the maximal run of spaced markers starting at `i` (`i` itself when none starts there). */
  function RunEnd(s: string, i: nat): (j: nat)
    requires i <= |s|
    ensures i <= j <= |s|
    decreases |s| - i
  {
    match MarkerEnd(s, i, Spaced)
    case None => i
    case Some(e) => RunEnd(s, e)
  }

  /**
   * What `citationRegex.exec` finds from `k`: the leftmost position at which a marker
   * starts, and the length of the maximal run of markers there.
   */
  function FindRun(s: string, k: nat): (r: Option<(nat, nat)>)
    requires k <= |s|
    ensures r.Some? ==> k <= r.value.0 && r.value.1 >= 8 && r.value.0 + r.value.1 <= |s|
    ensures r.Some? ==> s[r.value.0] == '[' && s[r.value.0 + 1] == '('
    decreases |s| - k
  {
    if k == |s| then None
    else match MarkerEnd(s, k, Spaced)
      case Some(e) => Some((k, RunEnd(s, e) - k))
      case None => FindRun(s, k + 1)
  }

  /**
   * The deduplication scan from `k`, `previous` being the last retained run with its
   * horizontal whitespace removed. A run equal to it is cut out and the scan resumes
   * where the run began; any other run is kept and becomes the new `previous`. Prose
   * between runs does not reset `previous`.
   */
  function Dedup(s: string, k: nat, previous: string): string
    requires k <= |s|
    decreases |s| - k, 1
  {
    match FindRun(s, k)
    case None => s
    case Some(run) => DedupAt(s, run.0, run.1, previous)
  }

  /** The step of the scan at the run of length `n` found at `p`. */
  function DedupAt(s: string, p: nat, n: nat, previous: string): string
    requires 0 < n && p + n <= |s|
    decreases |s| - p, 0
  {
    var current := RemoveHorizontalSpace(s[p..p + n]);
    if current == previous then Dedup(s[..p] + s[p + n..], p, previous)
    else Dedup(s, p + n, current)
  }

  /** The scan stops, leaving the text as it is, when no run is left. */
  lemma {:induction false} DedupDone(s: string, k: nat, previous: string)
    requires k <= |s| && FindRun(s, k).None?
    ensures Dedup(s, k, previous) == s
  {
  }

  /** When a run is found, the scan goes on at that run. */
  lemma {:induction false} DedupFound(s: string, k: nat, previous: string, p: nat, n: nat)
    requires k <= |s| && FindRun(s, k) == Some((p, n))
    ensures 0 < n && p + n <= |s|
    ensures Dedup(s, k, previous) == DedupAt(s, p, n, previous)
  {
  }

  /** A run equal to the last one kept is cut out, and the scan resumes where it began. */
  lemma {:induction false} DedupCut(s: string, k: nat, previous: string, p: nat, n: nat)
    requires k <= |s| && FindRun(s, k) == Some((p, n))
    requires RemoveHorizontalSpace(s[p..p + n]) == previous
    ensures Dedup(s, k, previous) == Dedup(s[..p] + s[p + n..], p, previous)
  {
    DedupFound(s, k, previous, p, n);
  }

  /** Any other run is kept, and becomes the one later runs are compared with. */
  lemma {:induction false} DedupKeep(s: string, k: nat, previous: string, p: nat, n: nat)
    requires k <= |s| && FindRun(s, k) == Some((p, n))
    requires RemoveHorizontalSpace(s[p..p + n]) != previous
    ensures Dedup(s, k, previous) == Dedup(s, p + n, RemoveHorizontalSpace(s[p..p + n]))
  {
    DedupFound(s, k, previous, p, n);
  }

  /** Cutting a repeated run keeps the scan's outcome and leaves a subsequence of the input. */
  lemma {:induction false} DedupCutStep(s: string, k: nat, previous: string, p: nat, n: nat, input: string, target: string)
    requires k <= |s| && FindRun(s, k) == Some((p, n))
    requires RemoveHorizontalSpace(s[p..p + n]) == previous
    requires Dedup(s, k, previous) == target && IsSubsequence(s, input)
    ensures p <= |s[..p] + s[p + n..]| < |s|
    ensures Dedup(s[..p] + s[p + n..], p, previous) == target
    ensures IsSubsequence(s[..p] + s[p + n..], input)
  {
    DedupCut(s, k, previous, p, n);
    CutIsSubsequence(s, p, p + n);
    SubsequenceTrans(s[..p] + s[p + n..], s, input);
  }

  /**
   * One turn of the loop in `streamTextDeduplicateCitations`: the run `m` found from
   * `lastIndex` is cut out when it repeats `previous`, otherwise kept. The scan's
   * outcome and the subsequence relation are kept.
   */
  method DedupTurn(result: string, lastIndex: nat, previous: string, m: Option<(nat, nat)>, ghost input: string, ghost target: string)
    returns (result': string, lastIndex': nat, previous': string)
    requires lastIndex <= |result| && m == FindRun(result, lastIndex) && m.Some?
    requires Dedup(result, lastIndex, previous) == target && IsSubsequence(result, input)
    ensures lastIndex' <= |result'|
    ensures Dedup(result', lastIndex', previous') == target && IsSubsequence(result', input)
    ensures |result'| - lastIndex' < |result| - lastIndex
  {
    var p := m.value.0;
    var n := m.value.1;
    var current := RemoveHorizontalSpace(result[p..p + n]);
    if current == previous {
      DedupCutStep(result, lastIndex, previous, p, n, input, target);
      result' := result[..p] + result[p + n..];
      lastIndex' := p;
      previous' := previous;
    } else {
      DedupKeepStep(result, lastIndex, previous, p, n, target);
      result' := result;
      previous' := current;
      lastIndex' := p + n;
    }
  }

  /** Keeping a run keeps the scan's outcome. */
  lemma {:induction false} DedupKeepStep(s: string, k: nat, previous: string, p: nat, n: nat, target: string)
    requires k <= |s| && FindRun(s, k) == Some((p, n))
    requires RemoveHorizontalSpace(s[p..p + n]) != previous
    requires Dedup(s, k, previous) == target
    ensures Dedup(s, p + n, RemoveHorizontalSpace(s[p..p + n])) == target
  {
    DedupKeep(s, k, previous, p, n);
  }

  /** Where the next run from `k` begins, or the end of the text when none is left. */
  function RunStart(s: string, k: nat): (q: nat)
    requires k <= |s|
    ensures k <= q <= |s|
  {
    match FindRun(s, k)
    case None => |s|
    case Some(run) => run.0
  }

  /**
   * One turn of the scan as a jump: the scan is done, or it goes on from a later
   * position of a text that agrees with this one up to the run it found.
   */
  lemma {:induction false} DedupNext(s: string, k: nat, previous: string)
    returns (done: bool, s': string, k': nat, previous': string)
    requires k <= |s|
    ensures done ==> Dedup(s, k, previous) == s && RunStart(s, k) == |s|
    ensures !done ==> var q := RunStart(s, k);
      q <= k' <= |s'| && |s'| - k' < |s| - k && s'[..q] == s[..q]
    ensures !done ==> Dedup(s, k, previous) == Dedup(s', k', previous')
  {
    var r := FindRun(s, k);
    if r.None? {
      DedupDone(s, k, previous);
      return true, s, k, previous;
    }
    var p := r.value.0;
    var n := r.value.1;
    if RemoveHorizontalSpace(s[p..p + n]) == previous {
      s' := DedupCutJump(s, k, previous, p, n);
      k', previous' := p, previous;
    } else {
      DedupKeepJump(s, k, previous, p, n);
      s', k', previous' := s, p + n, RemoveHorizontalSpace(s[p..p + n]);
    }
    done := false;
  }

  /** A repeated run: the scan jumps to where the run began, in the text without it. */
  lemma {:induction false} DedupCutJump(s: string, k: nat, previous: string, p: nat, n: nat) returns (cut: string)
    requires k <= |s| && FindRun(s, k) == Some((p, n))
    requires RemoveHorizontalSpace(s[p..p + n]) == previous
    ensures RunStart(s, k) == p <= |cut| && |cut| - p < |s| - k && cut[..p] == s[..p]
    ensures Dedup(s, k, previous) == Dedup(cut, p, previous)
  {
    DedupCut(s, k, previous, p, n);
    cut := s[..p] + s[p + n..];
  }

  /** A new run: the scan jumps past it, with it as the run to compare with. */
  lemma {:induction false} DedupKeepJump(s: string, k: nat, previous: string, p: nat, n: nat)
    requires k <= |s| && FindRun(s, k) == Some((p, n))
    requires RemoveHorizontalSpace(s[p..p + n]) != previous
    ensures RunStart(s, k) <= p + n <= |s| && |s| - (p + n) < |s| - k
    ensures Dedup(s, k, previous) == Dedup(s, p + n, RemoveHorizontalSpace(s[p..p + n]))
  {
    DedupKeep(s, k, previous, p, n);
  }

  /** The scan never changes the text before the position it starts from. */
  lemma {:induction false} DedupKeepsBefore(s: string, k: nat, previous: string)
    requires k <= |s|
    ensures StartsWith(Dedup(s, k, previous), s[..k])
    decreases |s| - k
  {
    var done, s', k', previous' := DedupNext(s, k, previous);
    if !done {
      DedupKeepsBefore(s', k', previous');
      StartsWithPrefix(Dedup(s', k', previous'), s'[..k'], k);
      assert s'[..k'][..k] == s'[..RunStart(s, k)][..k];
    }
  }

  /**
   * Nor does it change the prose from its starting position up to the first run
   * after it.
   */
  lemma {:induction false} DedupKeepsFront(s: string, k: nat, previous: string)
    requires k <= |s|
    ensures StartsWith(Dedup(s, k, previous), s[..RunStart(s, k)])
  {
    var q := RunStart(s, k);
    var done, s', k', previous' := DedupNext(s, k, previous);
    if done {
      assert s[..q] == s;
    } else {
      DedupKeepsBefore(s', k', previous');
      StartsWithPrefix(Dedup(s', k', previous'), s'[..k'], q);
      assert s'[..k'][..q] == s[..q];
    }
  }

  /**
   * A turn that keeps its run, lifted to the whole result: the run stays, with the
   * prose after it up to the next run.
   */
  lemma {:induction false} DedupKeptRunStays(s: string, k: nat, previous: string, p: nat, n: nat)
    requires k <= |s| && FindRun(s, k) == Some((p, n))
    requires RemoveHorizontalSpace(s[p..p + n]) != previous
    ensures StartsWith(Dedup(s, k, previous), s[..RunStart(s, p + n)])
  {
    var current := RemoveHorizontalSpace(s[p..p + n]);
    DedupKeep(s, k, previous, p, n);
    DedupKeepsFront(s, p + n, current);
  }

  /**
   * A turn that cuts its run, lifted to the whole result: the text before the run
   * is followed directly by the prose after it, up to the next run.
   */
  lemma {:induction false} DedupCutRunGoes(s: string, k: nat, previous: string, p: nat, n: nat)
    requires k <= |s| && FindRun(s, k) == Some((p, n))
    requires RemoveHorizontalSpace(s[p..p + n]) == previous
    ensures var cut := s[..p] + s[p + n..];
      StartsWith(Dedup(s, k, previous), s[..p] + s[p + n..RunStart(cut, p) + n])
  {
    var cut := s[..p] + s[p + n..];
    DedupCut(s, k, previous, p, n);
    DedupKeepsFront(cut, p, previous);
    var q := RunStart(cut, p);
    assert cut[..q] == s[..p] + s[p + n..q + n];
  }

  /** `streamTextDeduplicateCitations`, the in-place loop over `result` and `lastIndex`. */
  method DeduplicateCitations(input: string) returns (result: string)
    ensures result == Dedup(input, 0, "")
    ensures IsSubsequence(result, input)
  {
    ghost var target := Dedup(input, 0, "");
    result := input;
    var previous := "";
    var lastIndex: nat := 0;
    var m := FindRun(result, lastIndex);
    SubsequenceRefl(input);
    while m.Some?
      invariant lastIndex <= |result|
      invariant m == FindRun(result, lastIndex)
      invariant Dedup(result, lastIndex, previous) == target
      invariant IsSubsequence(result, input)
      decreases |result| - lastIndex
    {
      result, lastIndex, previous := DedupTurn(result, lastIndex, previous, m, input, target);
      m := FindRun(result, lastIndex);
    }
    DedupDone(result, lastIndex, previous);
  }

  lemma {:induction false} SubsequenceTrans(a: string, b: string, c: string)
    requires IsSubsequence(a, b) && IsSubsequence(b, c)
    ensures IsSubsequence(a, c)
    decreases |c|
  {
    if c != [] {
      if b != [] && b[0] == c[0] && IsSubsequence(b[1..], c[1..]) {
        if a != [] && a[0] == b[0] && IsSubsequence(a[1..], b[1..]) {
          SubsequenceTrans(a[1..], b[1..], c[1..]);
        } else {
          SubsequenceTrans(a, b[1..], c[1..]);
        }
      } else {
        SubsequenceTrans(a, b, c[1..]);
      }
    }
  }

  /** Cutting a slice out of a string leaves a subsequence of it. */
  lemma {:induction false} CutIsSubsequence(s: string, p: nat, q: nat)
    requires p <= q <= |s|
    ensures IsSubsequence(s[..p] + s[q..], s)
  {
    SubsequenceRefl(s[q..]);
    SubsequenceSkip(s[q..], s[p..q], s[q..]);
    SubsequenceKeep(s[..p], s[q..], s[p..q] + s[q..]);
    assert s[..p] + (s[p..q] + s[q..]) == s;
  }

  /** Every run begins with `[(`. */
  lemma {:induction false} RunNeedsBracket(s: string, k: nat)
    requires k <= |s|
    ensures FindRun(s, k).Some? ==> Contains(s, "[(")
  {
    var r := FindRun(s, k);
    if r.Some? {
      var p := r.value.0;
      assert s[p..p + 2] == "[(";
      assert OccursAt(s, "[(", p);
    }
  }

  /** Text without `[(` holds no marker, so deduplication leaves it alone. */
  lemma {:induction false} DedupNoMarker(s: string, k: nat, previous: string)
    requires k <= |s|
    requires !Contains(s, "[(")
    ensures Dedup(s, k, previous) == s
  {
    RunNeedsBracket(s, k);
  }

  /** `streamTextStripInlineCitations`: one left-to-right pass deleting every loose marker. */
  function StripInlineCitations(s: string): string
    decreases |s|
  {
    if s == [] then []
    else match MarkerEnd(s, 0, Loose)
      case Some(j) => StripInlineCitations(s[j..])
      case None => [s[0]] + StripInlineCitations(s[1..])
  }

  /** Stripping only deletes characters. */
  lemma {:induction false} StripSubsequence(s: string)
    ensures IsSubsequence(StripInlineCitations(s), s)
    decreases |s|
  {
    if s != [] {
      match MarkerEnd(s, 0, Loose)
      case Some(j) =>
        StripSubsequence(s[j..]);
        SubsequenceSkip(StripInlineCitations(s[j..]), s[..j], s[j..]);
        assert s[..j] + s[j..] == s;
      case None =>
        StripSubsequence(s[1..]);
        SubsequenceKeep([s[0]], StripInlineCitations(s[1..]), s[1..]);
        assert [s[0]] + s[1..] == s;
    }
  }

  /** Text without `[(` is not changed by stripping. */
  lemma {:induction false} StripNoMarker(s: string)
    requires !Contains(s, "[(")
    ensures StripInlineCitations(s) == s
    decreases |s|
  {
    if s != [] {
      MarkerNeedsBracket(s, 0, Loose);
      assert !Contains(s[1..], "[(") by {
        forall i: nat | OccursAt(s[1..], "[(", i)
          ensures false
        {
          assert s[1..][i..i + 2] == s[i + 1..i + 3];
          assert OccursAt(s, "[(", i + 1);
        }
      }
      StripNoMarker(s[1..]);
      assert [s[0]] + s[1..] == s;
    }
  }

  /** Text without `[` is not changed by stripping. */
  lemma {:induction false} StripNoOpenBracket(s: string)
    requires '[' !in s
    ensures StripInlineCitations(s) == s
    decreases |s|
  {
    if s != [] {
      assert s[0] != '[';
      assert '[' !in s[1..];
      StripNoOpenBracket(s[1..]);
      assert [s[0]] + s[1..] == s;
    }
  }

  /** The body: the processed content, deduplicated, and stripped when inline citations are off. */
  function Body(message: string, areInlineCitationsEnabled: bool, lib: Libraries): string {
    var deduped := Dedup(ProcessedContent(message, lib), 0, "");
    if !areInlineCitationsEnabled then StripInlineCitations(deduped) else deduped
  }

  /** How a possibly missing string prints inside a template literal. */
  function Show(v: Nullish<string>): string {
    match v
    case Undefined => "undefined"
    case Null => "null"
    case Defined(s) => s
  }

  /** One line of the sources block: `[[label] title](url)`. */
  function LinkLine(l: Link): string {
    "[[" + Show(l.linkLabel) + "] " + Show(l.title) + "](" + l.url + ")\n"
  }

  /** The link lines in list order. */
  function LinkLines(links: seq<Link>): string
    decreases |links|
  {
    if links == [] then "" else LinkLines(links[..|links| - 1]) + LinkLine(links[|links| - 1])
  }

  /** The lines of two lists are the lines of the first followed by those of the second. */
  lemma {:induction false} LinkLinesConcat(a: seq<Link>, b: seq<Link>)
    ensures LinkLines(a + b) == LinkLines(a) + LinkLines(b)
    decreases |b|
  {
    if b == [] {
      assert a + b == a;
    } else {
      var c := a + b;
      var b' := b[..|b| - 1];
      var last := LinkLine(b[|b| - 1]);
      assert c[..|c| - 1] == a + b';
      assert c[|c| - 1] == b[|b| - 1];
      LinkLinesConcat(a, b');
      assert LinkLines(c) == LinkLines(a + b') + last;
      assert LinkLines(b) == LinkLines(b') + last;
      SeqAssoc(LinkLines(a), LinkLines(b'), last);
    }
  }

  /** Every link has its own line in the block. */
  lemma {:induction false} LinkLinesContain(links: seq<Link>, i: nat)
    requires i < |links|
    ensures Contains(LinkLines(links), LinkLine(links[i]))
    decreases |links|
  {
    var init := links[..|links| - 1];
    var last := LinkLine(links[|links| - 1]);
    assert LinkLines(links) == LinkLines(init) + last;
    if i == |links| - 1 {
      ContainsMiddle(LinkLines(init), last, "");
      assert LinkLines(init) + last + "" == LinkLines(links);
    } else {
      LinkLinesContain(init, i);
      assert init[i] == links[i];
      ContainsExtended(LinkLines(init), LinkLine(links[i]), last);
    }
  }

  /** The untrimmed sources block: the label on its own line, then one line per link. */
  function SourcesText(sourcesLabel: string, links: seq<Link>): string {
    "\n" + sourcesLabel + "\n" + LinkLines(links)
  }

  datatype Markdown = Markdown(body: string, sources: Option<string>)

  /** `!links?.length`. */
  predicate NoLinks(links: Nullish<seq<Link>>) {
    links.IsNullish() || links.value == []
  }

  /** `botMessageToMarkdown`, with its defaults: label `**Sources**`, inline citations on. */
  function MessageToMarkdown(message: string, links: Nullish<seq<Link>>, sourcesLabel: Option<string>,
                             areInlineCitationsEnabled: Option<bool>, lib: Libraries): Markdown
  {
    var body := Body(message, areInlineCitationsEnabled.GetOr(true), lib);
    if NoLinks(links) then Markdown(body, None)
    else Markdown(body, Some(Trim(SourcesText(sourcesLabel.GetOr("**Sources**"), links.value))))
  }

  /** The body half of `botMessageToMarkdown`: the rewriting passes, the deduplication loop, the optional strip. */
  method MessageBody(message: string, areInlineCitationsEnabled: Option<bool>, lib: Libraries) returns (body: string)
    ensures body == Body(message, areInlineCitationsEnabled.GetOr(true), lib)
  {
    var processedContent := ProcessedContent(message, lib);
    body := DeduplicateCitations(processedContent);
    if !areInlineCitationsEnabled.GetOr(true) {
      body := StripInlineCitations(body);
    }
  }

  /** The loop of `botMessageToMarkdown` that appends one line per link after the heading. */
  method SourcesBlock(heading: string, ls: seq<Link>) returns (markdownSources: string)
    ensures markdownSources == SourcesText(heading, ls)
  {
    ghost var head := "\n" + heading + "\n";
    markdownSources := "\n" + heading + "\n";
    for i := 0 to |ls|
      invariant markdownSources == head + LinkLines(ls[..i])
    {
      assert ls[..i + 1][..i] == ls[..i];
      assert LinkLines(ls[..i + 1]) == LinkLines(ls[..i]) + LinkLine(ls[i]);
      SeqAssoc(head, LinkLines(ls[..i]), LinkLine(ls[i]));
      markdownSources := markdownSources + LinkLine(ls[i]);
    }
    assert ls[..|ls|] == ls;
  }

  /** `botMessageToMarkdown` as the code runs it: the deduplication loop, then the loop over the links. */
  method BotMessageToMarkdown(message: string, links: Nullish<seq<Link>>, sourcesLabel: Option<string>,
                              areInlineCitationsEnabled: Option<bool>, lib: Libraries) returns (md: Markdown)
    ensures md == MessageToMarkdown(message, links, sourcesLabel, areInlineCitationsEnabled, lib)
  {
    var dedupedMessage := MessageBody(message, areInlineCitationsEnabled, lib);
    if NoLinks(links) {
      return Markdown(dedupedMessage, None);
    }
    var markdownSources := SourcesBlock(sourcesLabel.GetOr("**Sources**"), links.value);
    md := Markdown(dedupedMessage, Some(Trim(markdownSources)));
  }

  /** There is a sources block exactly when there is at least one link. */
  lemma {:induction false} SourcesPresence(message: string, links: Nullish<seq<Link>>, sourcesLabel: Option<string>,
                        areInlineCitationsEnabled: Option<bool>, lib: Libraries)
    ensures MessageToMarkdown(message, links, sourcesLabel, areInlineCitationsEnabled, lib).sources.None?
            <==> links.IsNullish() || links.value == []
  {
  }

  /** The body depends on neither the links nor the sources label. */
  lemma {:induction false} BodyIgnoresLinks(message: string, links1: Nullish<seq<Link>>, links2: Nullish<seq<Link>>,
                         label1: Option<string>, label2: Option<string>, flag: Option<bool>, lib: Libraries)
    ensures MessageToMarkdown(message, links1, label1, flag, lib).body
         == MessageToMarkdown(message, links2, label2, flag, lib).body
  {
  }

  /** A sources block whose label does not start with whitespace starts with the label. */
  lemma {:induction false} SourcesBlockStartsWithLabel(sourcesLabel: string, links: seq<Link>)
    requires sourcesLabel != [] && !IsSpace(sourcesLabel[0]) && !IsSpace(sourcesLabel[|sourcesLabel| - 1])
    ensures StartsWith(Trim(SourcesText(sourcesLabel, links)), sourcesLabel)
  {
    var t := SourcesText(sourcesLabel, links);
    var rest := sourcesLabel + ("\n" + LinkLines(links));
    assert t == "\n" + rest;
    assert t[1..] == rest;
    assert TrimStart(t) == TrimStart(rest);
    TrimStartNoSpace(rest);
    assert rest[..|sourcesLabel|] == sourcesLabel;
    TrimEndKeepsPrefix(rest, sourcesLabel);
    assert Trim(t) == TrimEnd(TrimStart(t));
    assert Trim(t) == TrimEnd(rest);
  }

  /** The sources block names every link, each on its own line. */
  lemma {:induction false} SourcesBlockNamesLinks(sourcesLabel: string, links: seq<Link>, i: nat)
    requires i < |links|
    ensures Contains(SourcesText(sourcesLabel, links), LinkLine(links[i]))
  {
    var t := SourcesText(sourcesLabel, links);
    var lines := LinkLines(links);
    var line := LinkLine(links[i]);
    LinkLinesContain(links, i);
    var k: nat :| k <= |lines| && OccursAt(lines, line, k);
    var off := |t| - |lines|;
    assert t[off..] == lines;
    assert t[off + k..off + k + |line|] == lines[k..k + |line|];
    assert OccursAt(t, line, off + k);
  }

  /** Trimming the end keeps a prefix that ends in a non-space character. */
  lemma {:induction false} TrimEndKeepsPrefix(s: string, p: string)
    requires StartsWith(s, p) && p != [] && !IsSpace(p[|p| - 1])
    ensures StartsWith(TrimEnd(s), p)
    decreases |s|
  {
    if s != [] && IsSpace(s[|s| - 1]) {
      assert |p| < |s|;
      assert s[..|s| - 1][..|p|] == p;
      TrimEndKeepsPrefix(s[..|s| - 1], p);
    }
  }

  /** Text with no parenthesis of either kind comes back as the body unchanged, whatever the flag. */
  lemma {:induction false} NoParenthesesUnchanged(message: string, areInlineCitationsEnabled: bool, lib: Libraries)
    requires '(' !in message && ')' !in message
    ensures Body(message, areInlineCitationsEnabled, lib) == message
  {
    RewriteUrlsNoParen(message, lib);
    assert !Contains(message, "[(") by {
      forall i: nat | i <= |message|
        ensures !OccursAt(message, "[(", i)
      {
        if i + 2 <= |message| {
          assert message[i..i + 2][1] == message[i + 1];
        }
      }
    }
    SpaceBeforeNoMarker(message, 0);
    assert message[0..] == message;
    DedupNoMarker(message, 0, "");
    StripNoMarker(message);
  }

  /** `SkipClass` stops at the first character outside the class. */
  lemma {:induction false} SkipClassStops(s: string, i: nat, j: nat, cls: CharClass)
    requires i <= j <= |s|
    requires forall k :: i <= k < j ==> InClass(s[k], cls)
    requires j == |s| || !InClass(s[j], cls)
    ensures SkipClass(s, i, cls) == j
    decreases j - i
  {
    if i < j {
      SkipClassStops(s, i + 1, j, cls);
    }
  }

  /** The citation `[(d)](u)` for a one-digit number and a one-character URL. */
  function Citation(d: char, u: char): string {
    ['[', '(', d, ')', ']', '(', u, ')']
  }

  /** The eight characters of a citation found at `i`. */
  lemma {:induction false} CitationChars(s: string, i: nat, d: char, u: char)
    requires i + 8 <= |s| && s[i..i + 8] == Citation(d, u)
    ensures s[i] == '[' && s[i + 1] == '(' && s[i + 2] == d && s[i + 3] == ')'
    ensures s[i + 4] == ']' && s[i + 5] == '(' && s[i + 6] == u && s[i + 7] == ')'
  {
    var c := s[i..i + 8];
    assert c[0] == s[i] && c[1] == s[i + 1] && c[2] == s[i + 2] && c[3] == s[i + 3];
    assert c[4] == s[i + 4] && c[5] == s[i + 5] && c[6] == s[i + 6] && c[7] == s[i + 7];
  }

  lemma {:induction false} CitationIsMarker(s: string, i: nat, d: char, u: char, shape: Shape)
    requires IsDigit(d) && u != ')'
    requires i + 8 <= |s| && s[i..i + 8] == Citation(d, u)
    requires shape != Spaced
    ensures MarkerEnd(s, i, shape) == Some(i + 8)
  {
    CitationChars(s, i, d, u);
    SkipClassStops(s, i + 2, i + 3, Digit);
    var inner := match shape case Tight => NoChars case Spaced => Blank case Loose => AnySpace;
    SkipClassStops(s, i + 4, i + 4, inner);
    SkipClassStops(s, i + 5, i + 5, NoChars);
    SkipClassStops(s, i + 6, i + 7, NotCloseParen);
    SkipClassStops(s, i + 8, i + 8, NoChars);
  }

  /** The same citation as one element of a run, with the horizontal whitespace that follows it. */
  lemma {:induction false} CitationIsRunElement(s: string, i: nat, d: char, u: char, e: nat)
    requires IsDigit(d) && u != ')'
    requires i + 8 <= e <= |s| && s[i..i + 8] == Citation(d, u)
    requires forall k :: i + 8 <= k < e ==> IsHorizontalSpace(s[k])
    requires e == |s| || !IsHorizontalSpace(s[e])
    ensures MarkerEnd(s, i, Spaced) == Some(e)
  {
    CitationChars(s, i, d, u);
    SkipClassStops(s, i + 2, i + 3, Digit);
    SkipClassStops(s, i + 4, i + 4, Blank);
    SkipClassStops(s, i + 5, i + 5, Blank);
    SkipClassStops(s, i + 6, i + 7, NotCloseParen);
    SkipClassStops(s, i + 8, e, HorizontalSpace);
  }

  /** `[(d)](u) x [(d)](u)`: a citation, a word, and the same citation again. */
  function RepeatedCitation(d: char, u: char, x: char): string {
    Citation(d, u) + [' ', x, ' '] + Citation(d, u)
  }

  lemma {:induction false} RepeatedCitationFirstRun(d: char, u: char, x: char)
    requires IsDigit(d) && u != ')' && x != '[' && !IsHorizontalSpace(x)
    ensures FindRun(RepeatedCitation(d, u, x), 0) == Some((0, 9))
  {
    var s := RepeatedCitation(d, u, x);
    assert s[0..8] == Citation(d, u);
    CitationIsRunElement(s, 0, d, u, 9);
    assert MarkerEnd(s, 9, Spaced).None?;
    assert RunEnd(s, 9) == 9;
  }

  lemma {:induction false} RepeatedCitationSecondRun(d: char, u: char, x: char)
    requires IsDigit(d) && u != ')' && x != '[' && !IsHorizontalSpace(x)
    ensures FindRun(RepeatedCitation(d, u, x), 9) == Some((11, 8))
  {
    var s := RepeatedCitation(d, u, x);
    assert s[11..19] == Citation(d, u);
    CitationIsRunElement(s, 11, d, u, 19);
    assert MarkerEnd(s, 19, Spaced).None?;
    assert RunEnd(s, 19) == 19;
    assert FindRun(s, 11) == Some((11, 8));
    assert s[10] == ' ' && MarkerEnd(s, 10, Spaced).None?;
    assert FindRun(s, 10) == Some((11, 8));
    assert s[9] == x && MarkerEnd(s, 9, Spaced).None?;
  }

  /** With its trailing space removed, the first run reads the same as the second. */
  lemma {:induction false} RepeatedCitationRunsEqual(d: char, u: char, x: char)
    requires IsDigit(d) && !IsHorizontalSpace(u)
    ensures var s := RepeatedCitation(d, u, x);
      RemoveHorizontalSpace(s[0..9]) == Citation(d, u) && RemoveHorizontalSpace(s[11..19]) == Citation(d, u)
  {
    var s := RepeatedCitation(d, u, x);
    var c := Citation(d, u);
    assert s[0..9] == c + [' '];
    assert s[11..19] == c;
    RemoveHorizontalSpaceConcat(c, [' ']);
    assert RemoveHorizontalSpace([' ']) == [];
    NoHorizontalSpaceKept(c);
  }

  /**
   * A duplicate run is removed even when prose separates it from the retained one:
   * `[(d)](u) x [(d)](u)` becomes `[(d)](u) x `.
   */
  lemma {:induction false} NonAdjacentDuplicateRemoved(d: char, u: char, x: char)
    requires IsDigit(d) && u != ')' && !IsHorizontalSpace(u) && x != '[' && !IsHorizontalSpace(x)
    ensures Dedup(RepeatedCitation(d, u, x), 0, "") == Citation(d, u) + [' ', x, ' ']
  {
    var s := RepeatedCitation(d, u, x);
    var c := Citation(d, u);
    RepeatedCitationFirstRun(d, u, x);
    RepeatedCitationRunsEqual(d, u, x);
    DedupKeep(s, 0, "", 0, 9);
    RepeatedCitationSecondRun(d, u, x);
    DedupCut(s, 9, c, 11, 8);
    var t := s[..11] + s[19..];
    assert t == c + [' ', x, ' '];
    assert FindRun(t, 11).None?;
    DedupDone(t, 11, c);
  }

  function NestedMarkers(d1: char, d2: char, u: char, v: char): string {
    ['[', '(', d1] + Citation(d2, u) + [')', ']', '(', v, ')']
  }

  /** None of the first three positions of the nested text starts a marker. */
  lemma {:induction false} NestedFrontNoMarker(d1: char, d2: char, u: char, v: char)
    requires IsDigit(d1) && IsDigit(d2) && u != ')' && v != ')' && v != '['
    ensures var s := NestedMarkers(d1, d2, u, v);
      && MarkerEnd(s, 0, Loose).None? && MarkerEnd(s[1..], 0, Loose).None? && MarkerEnd(s[2..], 0, Loose).None?
  {
    var s := NestedMarkers(d1, d2, u, v);
    SkipClassStops(s, 2, 3, Digit);
    assert MarkerEnd(s, 0, Loose).None?;
    assert s[1..][0] != '[';
    assert s[2..][0] != '[';
  }

  /** The inner marker is deleted, leaving the tail of the outer one. */
  lemma {:induction false} NestedInnerStripped(d1: char, d2: char, u: char, v: char)
    requires IsDigit(d2) && u != ')' && v != '['
    ensures StripInlineCitations(NestedMarkers(d1, d2, u, v)[3..]) == [')', ']', '(', v, ')']
  {
    var inner := NestedMarkers(d1, d2, u, v)[3..];
    assert inner[0..8] == Citation(d2, u);
    CitationIsMarker(inner, 0, d2, u, Loose);
    var rest := inner[8..];
    assert rest == [')', ']', '(', v, ')'];
    assert '[' !in rest;
    StripNoOpenBracket(rest);
  }

  /**
   * A marker hidden inside an unfinished one: removing the inner marker
   * completes the outer one, which the single pass does not revisit.
   */
  lemma {:induction false} NestedMarkerSurvivesStrip(d1: char, d2: char, u: char, v: char)
    requires IsDigit(d1) && IsDigit(d2) && u != ')' && v != ')' && v != '['
    ensures var s := NestedMarkers(d1, d2, u, v);
      && StripInlineCitations(s) == Citation(d1, v)
      && MarkerEnd(Citation(d1, v), 0, Loose) == Some(8)
  {
    var s := NestedMarkers(d1, d2, u, v);
    NestedFrontNoMarker(d1, d2, u, v);
    NestedInnerStripped(d1, d2, u, v);
    StripKeepsThree(s, [')', ']', '(', v, ')']);
    assert s[..3] + [')', ']', '(', v, ')'] == Citation(d1, v);
    CitationAloneIsMarker(d1, v);
  }

  /** A citation on its own is one whole marker. */
  lemma {:induction false} CitationAloneIsMarker(d: char, u: char)
    requires IsDigit(d) && u != ')'
    ensures MarkerEnd(Citation(d, u), 0, Loose) == Some(8)
  {
    var m := Citation(d, u);
    assert m[0..8] == m;
    CitationIsMarker(m, 0, d, u, Loose);
  }

  /** Three characters at none of which a marker starts are kept in front of the stripped rest. */
  lemma {:induction false} StripKeepsThree(s: string, rest: string)
    requires |s| >= 3 && MarkerEnd(s, 0, Loose).None? && MarkerEnd(s[1..], 0, Loose).None?
    requires MarkerEnd(s[2..], 0, Loose).None? && StripInlineCitations(s[3..]) == rest
    ensures StripInlineCitations(s) == s[..3] + rest
  {
    assert s[1..][1..] == s[2..] && s[2..][1..] == s[3..];
    assert StripInlineCitations(s[2..]) == [s[2]] + rest;
    assert StripInlineCitations(s[1..]) == [s[1]] + ([s[2]] + rest);
    assert StripInlineCitations(s) == [s[0]] + ([s[1]] + ([s[2]] + rest));
    assert s[..3] == [s[0], s[1], s[2]];
  }
}
