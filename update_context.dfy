/**
 * The context updater rewrites one section of a notes file in place. The section runs
 * from the first "- if i type FNA" to the next section marker found at least twenty
 * characters after the section start, or to the end of the file. The updater also
 * counts the route registrations in the server source.
 */
module UpdateContext {
  import opened Wrappers
  import opened Strings

  /** The start of the section. */
  const SectionMarker := "- if i type FNA"

  /** How far past the section start the search for the next section begins. */
  const Skip := 20

  /** What starts the next section: a rule line or another "- if i type" section. */
  const NextMarkers: seq<string> := ["\n---\n", "\n- if i type "]

  // ---------------------------------------------------------------------------
  // The next section
  // ---------------------------------------------------------------------------

  /**
   * The earliest position in `s` where one of `markers` occurs, or -1: the value of
   * `next_section` after the loop has looked at `markers` in order.
   */
  function EarliestAmong(s: string, markers: seq<string>): (r: int)
    ensures r == -1 <==> forall k :: 0 <= k < |markers| ==> Find(s, markers[k]) == -1
    ensures r != -1 ==> exists k :: 0 <= k < |markers| && OccursAt(s, markers[k], r)
    ensures forall k, j :: 0 <= k < |markers| && 0 <= j && (r == -1 || j < r) ==> !OccursAt(s, markers[k], j)
    decreases |markers|
  {
    if markers == [] then -1
    else
      var before := EarliestAmong(s, markers[..|markers| - 1]);
      var pos := Find(s, markers[|markers| - 1]);
      assert forall k :: 0 <= k < |markers| - 1 ==> markers[..|markers| - 1][k] == markers[k];
      if pos != -1 && (before == -1 || pos < before) then pos else before
  }

  /** The loop over the section markers that keeps the earliest position found. */
  method NextSection(remaining: string) returns (nextSection: int)
    ensures nextSection == EarliestAmong(remaining, NextMarkers)
  {
    nextSection := -1;
    var i := 0;
    while i < |NextMarkers|
      invariant 0 <= i <= |NextMarkers|
      invariant nextSection == EarliestAmong(remaining, NextMarkers[..i])
    {
      var pos := Find(remaining, NextMarkers[i]);
      assert NextMarkers[..i + 1][..i] == NextMarkers[..i];
      if pos != -1 && (nextSection == -1 || pos < nextSection) {
        nextSection := pos;
      }
      i := i + 1;
    }
    assert NextMarkers[..i] == NextMarkers;
  }

  /** An occurrence in the whole string after `from` is an occurrence in its tail. */
  lemma OccursInTail(s: string, pat: string, from: nat, j: int)
    requires from <= |s| && from <= j && OccursAt(s, pat, j)
    ensures OccursAt(s[from..], pat, j - from)
  {
    assert s[from..][j - from..j - from + |pat|] == s[j..j + |pat|];
  }

  /** Python's slice `content[start + Skip:]`, which is empty when that index is past the end. */
  function SkipFrom(content: string, start: nat): (from: nat)
    ensures from <= |content|
  {
    if start + Skip <= |content| then start + Skip else |content|
  }

  /** `fna_end`: the position of the next section, or the end of the file. */
  function SectionEnd(content: string, start: nat): (e: nat)
    requires start <= |content|
    ensures e <= |content|
  {
    var next := EarliestAmong(content[SkipFrom(content, start)..], NextMarkers);
    if next == -1 then |content| else SkipFrom(content, start) + next
  }

  /** A marker found in a tail of the content is a marker of the content, wholly inside it. */
  lemma EarliestInTail(content: string, from: nat, next: int)
    requires from <= |content| && next == EarliestAmong(content[from..], NextMarkers) && next != -1
    ensures from + next < |content|
    ensures exists k :: 0 <= k < |NextMarkers| && OccursAt(content, NextMarkers[k], from + next)
  {
    var rest := content[from..];
    var k :| 0 <= k < |NextMarkers| && OccursAt(rest, NextMarkers[k], next);
    assert |NextMarkers[k]| >= 5 by {
      assert k == 0 || k == 1;
    }
    assert rest == content[from..|content|];
    OccursInSlice(content, from, |content|, NextMarkers[k], next);
    assert OccursAt(content, NextMarkers[k], from + next);
  }

  /**
   * The section ends at the end of the file or at a marker that starts at least
   * twenty characters after the section start, so it always covers the section start.
   */
  lemma SectionEndBounds(content: string, start: nat)
    requires OccursAt(content, SectionMarker, start)
    ensures start + |SectionMarker| <= SectionEnd(content, start) <= |content|
    ensures SectionEnd(content, start) == |content| ||
            (start + Skip <= SectionEnd(content, start) &&
             exists k :: 0 <= k < |NextMarkers| && OccursAt(content, NextMarkers[k], SectionEnd(content, start)))
  {
    var from := SkipFrom(content, start);
    var next := EarliestAmong(content[from..], NextMarkers);
    if next != -1 {
      EarliestInTail(content, from, next);
    }
  }

  /**
   * No marker starts between twenty characters past the section start and the section
   * end; markers that start within the first twenty characters are not looked at.
   */
  lemma SectionEndIsFirstMarker(content: string, start: nat)
    requires OccursAt(content, SectionMarker, start)
    ensures forall k, j :: 0 <= k < |NextMarkers| && start + Skip <= j < SectionEnd(content, start) ==>
              !OccursAt(content, NextMarkers[k], j)
  {
    var from := SkipFrom(content, start);
    var e := SectionEnd(content, start);
    forall k, j | 0 <= k < |NextMarkers| && start + Skip <= j < e
      ensures !OccursAt(content, NextMarkers[k], j)
    {
      if OccursAt(content, NextMarkers[k], j) {
        OccursInTail(content, NextMarkers[k], from, j);
      }
    }
  }

  // ---------------------------------------------------------------------------
  // The splice
  // ---------------------------------------------------------------------------

  /**
   * The rewritten file, or None when the section start is missing and the file is
   * left alone: the text before the section, the new context, and the text from the
   * next section on.
   */
  function Spliced(content: string, newContext: string): Option<string> {
    var start := Find(content, SectionMarker);
    if start == -1 then None
    else Some(content[..start] + newContext + content[SectionEnd(content, start)..])
  }

  /**
   * `update_claude_md` on the file's content (None when the file does not exist): the
   * content it writes back, or None when it writes nothing.
   */
  method UpdateNotes(file: Option<string>, newContext: string) returns (written: Option<string>)
    ensures file.None? ==> written.None?
    ensures file.Some? ==> written == Spliced(file.value, newContext)
  {
    if file.None? {
      return None;
    }
    var content := file.value;
    var fnaStart := Find(content, SectionMarker);
    if fnaStart == -1 {
      return None;
    }
    var remaining := content[SkipFrom(content, fnaStart)..];
    var nextSection := NextSection(remaining);
    var fnaEnd: int;
    if nextSection == -1 {
      fnaEnd := |content|;
    } else {
      fnaEnd := SkipFrom(content, fnaStart) + nextSection;
    }
    SplicedAt(content, newContext, fnaStart, nextSection, fnaEnd);
    written := Some(content[..fnaStart] + newContext + content[fnaEnd..]);
  }

  lemma SplicedAt(content: string, newContext: string, start: nat, next: int, end: int)
    requires start == Find(content, SectionMarker)
    requires next == EarliestAmong(content[SkipFrom(content, start)..], NextMarkers)
    requires end == if next == -1 then |content| else SkipFrom(content, start) + next
    ensures start <= |content| && 0 <= end <= |content|
    ensures Spliced(content, newContext) == Some(content[..start] + newContext + content[end..])
  {
    assert end == SectionEnd(content, start);
  }

  /** Without the section start the file is not rewritten. */
  lemma NoSectionNoRewrite(content: string, newContext: string)
    requires !Contains(content, SectionMarker)
    ensures Spliced(content, newContext).None?
  {
  }

  /** The text before the first section start holds no section start. */
  lemma BeforeFirstSection(content: string)
    requires Contains(content, SectionMarker)
    ensures OccursAt(content, SectionMarker, Find(content, SectionMarker))
    ensures !Contains(content[..Find(content, SectionMarker)], SectionMarker)
  {
    var start := Find(content, SectionMarker);
    if Contains(content[..start], SectionMarker) {
      var j := Find(content[..start], SectionMarker);
      OccursInSlice(content, 0, start, SectionMarker, j);
      assert false;
    }
  }

  lemma StartsWithSlice(s: string, pat: string, i: nat, e: nat)
    requires OccursAt(s, pat, i) && i + |pat| <= e <= |s|
    ensures StartsWith(s[i..e], pat)
  {
    assert s[i..e][..|pat|] == s[i..i + |pat|];
  }

  /**
   * With a section, the file is rewritten as the text before the first section start
   * (which holds no section start), the new context, and a tail of the old file that
   * is empty or begins with a marker; the replaced text begins with the old section start.
   */
  lemma SpliceKeepsTheRest(content: string, newContext: string)
    requires Contains(content, SectionMarker)
    ensures Spliced(content, newContext).Some?
    ensures exists start: nat, e: nat {:trigger content[start..e]} ::
              && start <= e <= |content|
              && Spliced(content, newContext).value == content[..start] + newContext + content[e..]
              && !Contains(content[..start], SectionMarker)
              && StartsWith(content[start..e], SectionMarker)
              && (e == |content| || exists k :: 0 <= k < |NextMarkers| && OccursAt(content, NextMarkers[k], e))
  {
    var start := Find(content, SectionMarker);
    BeforeFirstSection(content);
    SectionEndBounds(content, start);
    var e := SectionEnd(content, start);
    StartsWithSlice(content, SectionMarker, start, e);
    assert content[start..e] == content[start..e];
  }

  /**
   * A rule line that starts within the first twenty characters of the section does
   * not end it: here the whole file is the section and is replaced.
   */
  lemma EarlyRuleIgnored(newContext: string)
    ensures Spliced("- if i type FNA\n---\nrest", newContext) == Some(newContext)
  {
    var c := "- if i type FNA\n---\nrest";
    assert OccursAt(c, SectionMarker, 0) by {
      assert c[0..15] == SectionMarker;
    }
    assert Find(c, SectionMarker) == 0;
    assert c[SkipFrom(c, 0)..] == "rest";
    assert EarliestAmong("rest", NextMarkers) == -1 by {
      assert forall k :: 0 <= k < |NextMarkers| ==> |NextMarkers[k]| > 4;
    }
    assert c[..0] + newContext + c[|c|..] == newContext;
  }

  /** A usual file: the text before and the next section after are kept exactly. */
  lemma SectionBetweenOthers(newContext: string)
    ensures Spliced("A\n" + SectionMarker + " - old\n---\nB", newContext) == Some("A\n" + newContext + "\n---\nB")
  {
    var c := "A\n" + SectionMarker + " - old\n---\nB";
    SectionFoundAfterTwo(c);
    var rest := c[22..];
    assert rest == "d\n---\nB";
    RuleFoundInTail(rest);
    assert c[..2] == "A\n";
    assert c[23..] == "\n---\nB";
  }

  lemma SectionFoundAfterTwo(c: string)
    requires c == "A\n" + SectionMarker + " - old\n---\nB"
    ensures Find(c, SectionMarker) == 2
  {
    assert c[0] == 'A' && c[1] == '\n' && SectionMarker[0] == '-';
    assert c[0..15][0] == c[0] && c[1..16][0] == c[1];
    assert !OccursAt(c, SectionMarker, 0) && !OccursAt(c, SectionMarker, 1);
    assert OccursAt(c, SectionMarker, 2);
    assert FindFrom(c, SectionMarker, 0) == FindFrom(c, SectionMarker, 1) == FindFrom(c, SectionMarker, 2);
  }

  lemma RuleFoundInTail(rest: string)
    requires rest == "d\n---\nB"
    ensures EarliestAmong(rest, NextMarkers) == 1
  {
    assert rest[0] == 'd';
    assert Find(rest, "\n---\n") == 1 by {
      assert !OccursAt(rest, "\n---\n", 0);
      assert OccursAt(rest, "\n---\n", 1);
      assert FindFrom(rest, "\n---\n", 0) == FindFrom(rest, "\n---\n", 1);
    }
    assert Find(rest, "\n- if i type ") == -1 by {
      assert |"\n- if i type "| > |rest|;
    }
    assert NextMarkers[..1][..0] == [] && NextMarkers[..1] == ["\n---\n"];
    assert EarliestAmong(rest, NextMarkers[..1]) == 1;
  }

  // ---------------------------------------------------------------------------
  // count_endpoints
  // ---------------------------------------------------------------------------

  /** What starts a route registration. */
  const RouteCalls: seq<string> := ["app.get(", "app.post(", "app.put(", "app.delete("]

  /** The sum of the non-overlapping counts of `patterns` in `s`. */
  function TotalCount(s: string, patterns: seq<string>): nat
    requires forall k :: 0 <= k < |patterns| ==> |patterns[k]| > 0
    decreases |patterns|
  {
    if patterns == [] then 0
    else TotalCount(s, patterns[..|patterns| - 1]) + Count(s, patterns[|patterns| - 1])
  }

  /** The number of route registrations in the server source, 0 when the file does not exist. */
  method CountEndpoints(server: Option<string>) returns (count: nat)
    ensures server.None? ==> count == 0
    ensures server.Some? ==> count == TotalCount(server.value, RouteCalls)
  {
    if server.None? {
      return 0;
    }
    var content := server.value;
    count := 0;
    var i := 0;
    while i < |RouteCalls|
      invariant 0 <= i <= |RouteCalls|
      invariant count == TotalCount(content, RouteCalls[..i])
    {
      assert RouteCalls[..i + 1][..i] == RouteCalls[..i];
      count := count + Count(content, RouteCalls[i]);
      i := i + 1;
    }
    assert RouteCalls[..i] == RouteCalls;
  }

  lemma MulSucc(c: nat, p: nat)
    ensures (1 + c) * p == p + c * p
  {
  }

  lemma MulMono(c: nat, a: nat, b: nat)
    requires a <= b
    ensures c * a <= c * b
  {
  }

  /** The characters taken up by the occurrences `CountFrom` counts, `|pat|` each. */
  ghost function Covered(s: string, pat: string, from: nat): nat
    requires |pat| > 0
    decreases |s| - from
  {
    var i := FindFrom(s, pat, from);
    if i < 0 then 0 else |pat| + Covered(s, pat, i + |pat|)
  }

  lemma {:induction false} CoveredBound(s: string, pat: string, from: nat)
    requires |pat| > 0 && from <= |s|
    ensures Covered(s, pat, from) <= |s| - from
    decreases |s| - from
  {
    var i := FindFrom(s, pat, from);
    if i >= 0 {
      assert from <= i && i + |pat| <= |s|;
      CoveredBound(s, pat, i + |pat|);
    }
  }

  lemma {:induction false} CoveredIsCount(s: string, pat: string, from: nat)
    requires |pat| > 0
    ensures Covered(s, pat, from) == CountFrom(s, pat, from) * |pat|
    decreases |s| - from
  {
    var i := FindFrom(s, pat, from);
    if i >= 0 {
      CoveredIsCount(s, pat, i + |pat|);
      OneMoreOccurrence(s, pat, from, i);
      CountStep(CountFrom(s, pat, from), CountFrom(s, pat, i + |pat|), |pat|,
                Covered(s, pat, from), Covered(s, pat, i + |pat|));
    } else {
      MulCongruence(CountFrom(s, pat, from), 0, |pat|);
    }
  }

  /** One more occurrence adds `p` characters to the covered length. */
  lemma CountStep(n: nat, c: nat, p: nat, covered: nat, coveredNext: nat)
    requires n == 1 + c && covered == p + coveredNext && coveredNext == c * p
    ensures covered == n * p
  {
    MulSucc(c, p);
    MulCongruence(n, 1 + c, p);
  }

  /** Both counts take one step at the occurrence found at `i`. */
  lemma OneMoreOccurrence(s: string, pat: string, from: nat, i: nat)
    requires |pat| > 0 && i == FindFrom(s, pat, from)
    ensures CountFrom(s, pat, from) == 1 + CountFrom(s, pat, i + |pat|)
    ensures Covered(s, pat, from) == |pat| + Covered(s, pat, i + |pat|)
  {
    CountUnfolds(s, pat, from, i);
    CoveredUnfolds(s, pat, from, i);
  }

  lemma CountUnfolds(s: string, pat: string, from: nat, i: nat)
    requires |pat| > 0 && i == FindFrom(s, pat, from)
    ensures CountFrom(s, pat, from) == 1 + CountFrom(s, pat, i + |pat|)
  {
  }

  lemma CoveredUnfolds(s: string, pat: string, from: nat, i: nat)
    requires |pat| > 0 && i == FindFrom(s, pat, from)
    ensures Covered(s, pat, from) == |pat| + Covered(s, pat, i + |pat|)
  {
  }

  lemma MulCongruence(a: nat, b: nat, p: nat)
    requires a == b
    ensures a * p == b * p
  {
  }

  /** Non-overlapping occurrences: each one counted uses up `|pat|` characters. */
  lemma CountBound(s: string, pat: string, from: nat)
    requires |pat| > 0 && from <= |s|
    ensures CountFrom(s, pat, from) * |pat| <= |s| - from
  {
    CoveredBound(s, pat, from);
    CoveredIsCount(s, pat, from);
  }

  /** The loop's sum written out over the four registration calls. */
  lemma RouteCallsTotal(s: string)
    ensures TotalCount(s, RouteCalls) ==
            Count(s, "app.get(") + Count(s, "app.post(") + Count(s, "app.put(") + Count(s, "app.delete(")
  {
    var p1, p2, p3 := ["app.get("], ["app.get(", "app.post("], ["app.get(", "app.post(", "app.put("];
    assert TotalCount(s, p1) == Count(s, "app.get(") by {
      assert p1[..0] == [];
    }
    assert TotalCount(s, p2) == TotalCount(s, p1) + Count(s, "app.post(") by {
      assert p2[..1] == p1;
    }
    assert TotalCount(s, p3) == TotalCount(s, p2) + Count(s, "app.put(") by {
      assert p3[..2] == p2;
    }
    assert RouteCalls[..3] == p3;
  }

  /** A pattern starting with "app." does not occur in source without "app.". */
  lemma NoAppNoCall(s: string, rest: string)
    requires !Contains(s, "app.")
    ensures Count(s, "app." + rest) == 0
  {
    if Count(s, "app." + rest) != 0 {
      ContainsPrefixOfPattern(s, "app.", rest);
    }
  }

  /** No registration can be counted in source without "app.". */
  lemma NoAppNoEndpoints(s: string)
    requires !Contains(s, "app.")
    ensures TotalCount(s, RouteCalls) == 0
  {
    RouteCallsTotal(s);
    RouteCallsStartWithApp();
    NoAppNoCall(s, "get(");
    NoAppNoCall(s, "post(");
    NoAppNoCall(s, "put(");
    NoAppNoCall(s, "delete(");
  }

  lemma RouteCallsStartWithApp()
    ensures "app.get(" == "app." + "get(" && "app.post(" == "app." + "post("
    ensures "app.put(" == "app." + "put(" && "app.delete(" == "app." + "delete("
  {
  }

  /** A pattern of at least eight characters occurs at most |s| / 8 times. */
  lemma CountOfLongPattern(s: string, pat: string)
    requires |pat| >= 8
    ensures Count(s, pat) <= |s| / 8
  {
    var c := Count(s, pat);
    CountBound(s, pat, 0);
    MulMono(c, 8, |pat|);
  }

  /** Each registration takes at least eight characters, so a file holds at most |s| / 8 of each kind. */
  lemma EndpointBound(s: string)
    ensures TotalCount(s, RouteCalls) <= 4 * (|s| / 8)
  {
    RouteCallsTotal(s);
    CountOfLongPattern(s, "app.get(");
    CountOfLongPattern(s, "app.post(");
    CountOfLongPattern(s, "app.put(");
    CountOfLongPattern(s, "app.delete(");
  }
}
