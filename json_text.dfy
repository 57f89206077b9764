/**
 * The two ways the server cuts a JSON text out of a model reply before parsing it:
 * the body of the first fenced code block (/```(?:json)?\s*([\s\S]*?)```/, trimmed),
 * and the span from the first `{` to the last `}` (/\{[\s\S]*\}/). JSON parsing
 * itself is not part of this model.
 */
module JsonText {
  import opened Strings

  const Fence := "```"
  const JsonTag := "json"

  /** An opening fence at `i` and a closing one that starts at least three characters later. */
  predicate HasFencePair(s: string) {
    exists i, j :: 0 <= i < j < |s| && i + 3 <= j && OccursAt(s, Fence, i) && OccursAt(s, Fence, j)
  }

  /** Where the optional `json` tag after an opening fence at `i` ends. */
  function TagEnd(s: string, i: nat): (t: nat)
    requires OccursAt(s, Fence, i)
    ensures t == i + 3 || (t == i + 7 && OccursAt(s, JsonTag, i + 3))
    ensures t <= |s| && forall k :: i + 3 <= k < t ==> s[k] != '`'
  {
    if OccursAt(s, JsonTag, i + 3) then
      assert forall k :: i + 3 <= k < i + 7 ==> s[k] == JsonTag[k - i - 3];
      i + 7
    else i + 3
  }

  /**
   * Where the captured group begins for an opening fence at `i`: after the fence, the
   * optional `json` tag and all the white space that follows it. None of the skipped
   * characters is a backtick.
   */
  function CaptureStart(s: string, i: nat): (c: nat)
    requires OccursAt(s, Fence, i)
    ensures i + 3 <= c <= |s|
    ensures forall k :: i + 3 <= k < c ==> s[k] != '`'
    ensures var t := TagEnd(s, i);
      t <= c && AllSpace(s[t..c]) && (c == |s| || !IsJsSpace(s[c]))
  {
    var t := TagEnd(s, i);
    SpaceRunAt(s, t);
    t + SpanLen(s[t..], IsJsSpace)
  }

  /** The white space run that starts at `t`, as positions of `s`. */
  lemma SpaceRunAt(s: string, t: nat)
    requires t <= |s|
    ensures var w := SpanLen(s[t..], IsJsSpace);
      && t + w <= |s| && AllSpace(s[t..t + w]) && (t + w == |s| || !IsJsSpace(s[t + w]))
      && forall k :: t <= k < t + w ==> IsJsSpace(s[k])
  {
    var w := SpanLen(s[t..], IsJsSpace);
    assert forall k :: t <= k < t + w ==> s[k] == s[t..][k - t];
    assert s[t..t + w] == s[t..][..w];
  }

  /**
   * The text parsed from a reply: the trimmed body of the first fenced block, up to the
   * next fence, or the whole reply when it has no complete fence pair.
   */
  function ExtractFenced(content: string): string {
    var i := Find(content, Fence);
    if i < 0 then content
    else
      var c := CaptureStart(content, i);
      var j := FindFrom(content, Fence, c);
      if j < 0 then content else Trim(content[c..j])
  }

  /** A reply without a complete fence pair is parsed as it stands. */
  lemma FencedWithoutPair(s: string)
    requires !HasFencePair(s)
    ensures ExtractFenced(s) == s
  {
    var i := Find(s, Fence);
    if i >= 0 {
      var j := FindFrom(s, Fence, CaptureStart(s, i));
      assert j < 0;
    }
  }

  /** With a fence pair the first pair is found: some closing fence follows the first opening one. */
  lemma FencePairFound(s: string)
    requires HasFencePair(s)
    ensures Find(s, Fence) >= 0
    ensures FindFrom(s, Fence, CaptureStart(s, Find(s, Fence))) >= 0
  {
    var i', j' :| 0 <= i' < j' < |s| && i' + 3 <= j' && OccursAt(s, Fence, i') && OccursAt(s, Fence, j');
    var i := Find(s, Fence);
    var c := CaptureStart(s, i);
    assert s[j'] == Fence[0];
    assert c <= j';
  }

  /** The body cut out of a fenced reply has no white space at either end and no fence in it. */
  lemma FencedBody(s: string)
    requires HasFencePair(s)
    ensures IsTrimmed(ExtractFenced(s)) && !Contains(ExtractFenced(s), Fence)
  {
    FencePairFound(s);
    var i := Find(s, Fence);
    var c := CaptureStart(s, i);
    var j := FindFrom(s, Fence, c);
    SliceBeforeFence(s, c, j);
    TrimKeepsNoFence(s[c..j]);
  }

  /** The text between a position and the first fence after it holds no fence. */
  lemma SliceBeforeFence(s: string, c: nat, j: int)
    requires j >= 0 && j == FindFrom(s, Fence, c)
    ensures !Contains(s[c..j], Fence)
  {
    if Contains(s[c..j], Fence) {
      OccursInSlice(s, c, j, Fence, Find(s[c..j], Fence));
    }
  }

  /** Trimming cannot create a fence. */
  lemma TrimKeepsNoFence(b: string)
    requires !Contains(b, Fence)
    ensures !Contains(Trim(b), Fence)
  {
    var t := TrimStart(b);
    SliceKeepsNoFence(b, |b| - |t|, |b|);
    assert b[|b| - |t|..|b|] == t;
    SliceKeepsNoFence(t, 0, |TrimEnd(t)|);
    assert Trim(b) == TrimEnd(t) == t[..|TrimEnd(t)|];
  }

  /** A slice of text without a fence has no fence either. */
  lemma SliceKeepsNoFence(b: string, a: nat, e: nat)
    requires a <= e <= |b| && !Contains(b, Fence)
    ensures !Contains(b[a..e], Fence)
  {
    if Contains(b[a..e], Fence) {
      var k := Find(b[a..e], Fence);
      OccursInSlice(b, a, e, Fence, k);
      ContainsWhenOccurs(b, Fence, a + k);
    }
  }

  /** Extracting twice gives what extracting once gives. */
  lemma FencedIdempotent(s: string)
    ensures ExtractFenced(ExtractFenced(s)) == ExtractFenced(s)
  {
    var r := ExtractFenced(s);
    if HasFencePair(s) {
      FencedBody(s);
      FencedWithoutPair(r);
    } else {
      FencedWithoutPair(s);
      FencedWithoutPair(r);
    }
  }

  /** No backtick occurs in `s`. */
  predicate NoBacktick(s: string) {
    forall k :: 0 <= k < |s| ==> s[k] != '`'
  }

  /** No fence starts before the first backtick. */
  lemma FirstFenceAt(s: string, n: nat)
    requires n <= |s| && NoBacktick(s[..n]) && OccursAt(s, Fence, n)
    ensures Find(s, Fence) == n
  {
    forall k | 0 <= k < n ensures !OccursAt(s, Fence, k) {
      assert s[..n][k] == s[k];
    }
  }

  /** The first fence at or after `from` is at `n` when no backtick lies in between. */
  lemma NextFenceAt(s: string, from: nat, n: nat)
    requires from <= n <= |s| && NoBacktick(s[from..n]) && OccursAt(s, Fence, n)
    ensures FindFrom(s, Fence, from) == n
  {
    forall k | from <= k < n ensures !OccursAt(s, Fence, k) {
      assert s[from..n][k - from] == s[k];
    }
  }

  /** The white space after the tag ends inside a body that has no backtick. */
  lemma SpaceBeforeFence(body: string, post: string)
    requires NoBacktick(body)
    ensures var w := SpanLen(body + Fence + post, IsJsSpace);
            w <= |body| && AllSpace(body[..w])
  {
    var t := body + Fence + post;
    var w := SpanLen(t, IsJsSpace);
    assert t[|body|] == '`';
    forall k | 0 <= k < w && k < |body| ensures IsJsSpace(body[..w][k]) {
      assert body[..w][k] == t[k];
    }
  }

  /** Where the pieces of a fenced reply stand. */
  lemma FencedLayout(s: string, pre: string, tail: string)
    requires NoBacktick(pre) && s == pre + Fence + JsonTag + tail
    ensures Find(s, Fence) == |pre|
    ensures CaptureStart(s, |pre|) == |pre| + 7 + SpanLen(tail, IsJsSpace)
  {
    var n := |pre|;
    assert s[..n] == pre;
    assert s[n..n + 3] == Fence;
    FirstFenceAt(s, n);
    assert s[n + 3..n + 7] == JsonTag;
    assert s[n + 7..] == tail;
  }

  /** The extraction once the opening fence, the capture start and the closing fence are known. */
  lemma FencedAt(s: string, i: nat, c: nat, j: nat)
    requires Find(s, Fence) == i && CaptureStart(s, i) == c && FindFrom(s, Fence, c) == j
    ensures c <= j && ExtractFenced(s) == Trim(s[c..j])
  {
  }

  /** The closing fence of a fenced reply and the text before it. */
  lemma FencedClose(s: string, pre: string, tag: string, body: string, post: string, w: nat, c: nat, e: nat)
    requires s == pre + Fence + tag + body + Fence + post
    requires NoBacktick(body) && w <= |body| && c == |pre| + 3 + |tag| + w && e == |pre| + 3 + |tag| + |body|
    ensures c <= e <= |s| && s[c..e] == body[w..] && FindFrom(s, Fence, c) == e
  {
    var n := |pre| + 3 + |tag|;
    assert s[n..e] == body;
    assert s[c..e] == body[w..];
    assert s[e..e + 3] == Fence;
    NextFenceAt(s, c, e);
  }

  /**
   * A reply that wraps a JSON body in a ```json fence yields the trimmed body, whatever
   * text stands before and after, as long as neither the leading text nor the body
   * holds a backtick.
   */
  lemma FencedJsonBlock(pre: string, body: string, post: string)
    requires NoBacktick(pre) && NoBacktick(body)
    ensures ExtractFenced(pre + Fence + JsonTag + body + Fence + post) == Trim(body)
  {
    var tail := body + Fence + post;
    var s := pre + Fence + JsonTag + body + Fence + post;
    assert s == pre + Fence + JsonTag + tail;
    FencedLayout(s, pre, tail);
    SpaceBeforeFence(body, post);
    var w := SpanLen(tail, IsJsSpace);
    var c, e := |pre| + 7 + w, |pre| + 7 + |body|;
    FencedClose(s, pre, JsonTag, body, post, w, c, e);
    FencedAt(s, |pre|, c, e);
    FencedTrimmedBody(s, body, c, e, w);
  }

  /** Where the pieces of a fenced reply without the `json` tag stand. */
  lemma FencedPlainLayout(s: string, pre: string, tail: string)
    requires NoBacktick(pre) && s == pre + Fence + tail && !StartsWith(tail, JsonTag)
    ensures Find(s, Fence) == |pre|
    ensures CaptureStart(s, |pre|) == |pre| + 3 + SpanLen(tail, IsJsSpace)
  {
    var n := |pre|;
    assert s[..n] == pre;
    assert s[n..n + 3] == Fence;
    FirstFenceAt(s, n);
    assert s[n + 3..] == tail;
    if n + 7 <= |s| {
      assert s[n + 3..n + 7] == tail[..4];
    }
  }

  /**
   * The same for a plain ``` fence: the reply yields the trimmed body when neither the
   * leading text nor the body holds a backtick and the body does not begin with `json`.
   */
  lemma FencedPlainBlock(pre: string, body: string, post: string)
    requires NoBacktick(pre) && NoBacktick(body) && !StartsWith(body, JsonTag)
    ensures ExtractFenced(pre + Fence + body + Fence + post) == Trim(body)
  {
    var tail := body + Fence + post;
    var s := pre + Fence + body + Fence + post;
    assert s == pre + Fence + tail;
    assert s == pre + Fence + "" + body + Fence + post;
    if |tail| >= 4 {
      if |body| >= 4 {
        assert tail[..4] == body[..4];
      } else {
        assert tail[..4][|body|] == '`';
      }
    }
    FencedPlainLayout(s, pre, tail);
    SpaceBeforeFence(body, post);
    var w := SpanLen(tail, IsJsSpace);
    var c, e := |pre| + 3 + w, |pre| + 3 + |body|;
    FencedClose(s, pre, "", body, post, w, c, e);
    FencedAt(s, |pre|, c, e);
    FencedTrimmedBody(s, body, c, e, w);
  }

  lemma FencedTrimmedBody(s: string, body: string, c: nat, j: nat, w: nat)
    requires c <= j <= |s| && w <= |body|
    requires ExtractFenced(s) == Trim(s[c..j]) && s[c..j] == body[w..] && AllSpace(body[..w])
    ensures ExtractFenced(s) == Trim(body)
  {
    TrimDropSpaces(body, w);
  }

  // ---------------------------------------------------------------------------
  // Brace span
  // ---------------------------------------------------------------------------

  /** Some `{` comes before some `}`. */
  predicate HasBracePair(s: string) {
    exists i, j :: 0 <= i < j < |s| && s[i] == '{' && s[j] == '}'
  }

  /**
   * The greedy match of /\{[\s\S]*\}/: from the first `{` to the last `}` after it, or the
   * whole text when there is no such pair.
   */
  function ExtractBraces(content: string): string {
    SpanOf(content, IndexOf(content, '{'), LastIndexOf(content, '}'))
  }

  /** The match for a first `{` at `i` and a last `}` at `j` (-1 for none). */
  function SpanOf(content: string, i: int, j: int): string
    requires j < |content|
  {
    if i < 0 || j <= i then content else content[i..j + 1]
  }

  lemma SpanOfPair(content: string, i: int, j: int)
    requires 0 <= i < j < |content|
    ensures SpanOf(content, i, j) == content[i..j + 1]
  {
  }

  /** Text without a `{` before a `}` is parsed as it stands. */
  lemma BracesWithoutPair(s: string)
    requires !HasBracePair(s)
    ensures ExtractBraces(s) == s
  {
  }

  /**
   * With such a pair, the span opens at the first `{` of the text and closes at its
   * last `}`.
   */
  lemma {:induction false} BracesSpan(s: string)
    requires HasBracePair(s)
    ensures 0 <= IndexOf(s, '{') < LastIndexOf(s, '}') < |s|
    ensures ExtractBraces(s) == s[IndexOf(s, '{')..LastIndexOf(s, '}') + 1]
  {
    var i := IndexOf(s, '{');
    var j := LastIndexOf(s, '}');
    BracePairOrder(s, i, j);
    SpanOfPair(s, i, j);
  }

  /** The span then opens with `{` and closes with `}`, and no `{` precedes it nor `}` follows it. */
  lemma BracesEnds(s: string)
    requires HasBracePair(s)
    ensures |ExtractBraces(s)| >= 2
    ensures ExtractBraces(s)[0] == '{' && ExtractBraces(s)[|ExtractBraces(s)| - 1] == '}'
    ensures '{' !in s[..IndexOf(s, '{')] && '}' !in s[LastIndexOf(s, '}') + 1..]
  {
    var i := IndexOf(s, '{');
    var j := LastIndexOf(s, '}');
    BracesSpan(s);
    BracesAt(s, i, j);
    var r := ExtractBraces(s);
    assert r == s[i..j + 1] && |r| == j + 1 - i;
  }

  /** The span between a `{` at `i` with none before it and a `}` at `j` with none after it. */
  lemma BracesAt(s: string, i: nat, j: nat)
    requires i < j < |s| && s[i] == '{' && s[j] == '}'
    requires forall k :: 0 <= k < i ==> s[k] != '{'
    requires forall k :: j < k < |s| ==> s[k] != '}'
    ensures |s[i..j + 1]| == j + 1 - i
    ensures s[i..j + 1][0] == '{' && s[i..j + 1][j - i] == '}'
    ensures '{' !in s[..i] && '}' !in s[j + 1..]
  {
    NoCharBefore(s, '{', i);
    NoCharAfter(s, '}', j);
  }

  lemma BracePairOrder(s: string, i: int, j: int)
    requires HasBracePair(s) && i == IndexOf(s, '{') && j == LastIndexOf(s, '}')
    ensures 0 <= i < j < |s|
  {
    var i', j' :| 0 <= i' < j' < |s| && s[i'] == '{' && s[j'] == '}';
  }

  lemma NoCharBefore(s: string, c: char, i: nat)
    requires i <= |s| && forall k :: 0 <= k < i ==> s[k] != c
    ensures c !in s[..i]
  {
    forall k | 0 <= k < i ensures s[..i][k] != c {
      assert s[..i][k] == s[k];
    }
  }

  lemma NoCharAfter(s: string, c: char, j: nat)
    requires j < |s| && forall k :: j < k < |s| ==> s[k] != c
    ensures c !in s[j + 1..]
  {
    var t := s[j + 1..];
    forall k | 0 <= k < |t| ensures t[k] != c {
      assert t[k] == s[j + 1 + k];
    }
  }

  /** The first position of `c` is `n` when `c` stands there and not before. */
  lemma IndexOfAt(s: string, c: char, n: nat)
    requires n < |s| && s[n] == c && c !in s[..n]
    ensures IndexOf(s, c) == n
  {
  }

  /** The last position of `c` is `n` when `c` stands there and not after. */
  lemma LastIndexOfAt(s: string, c: char, n: nat)
    requires n < |s| && s[n] == c && c !in s[n + 1..]
    ensures LastIndexOf(s, c) == n
  {
  }

  /** The span is its own span: extracting twice gives what extracting once gives. */
  lemma BracesIdempotent(s: string)
    ensures ExtractBraces(ExtractBraces(s)) == ExtractBraces(s)
  {
    var i := IndexOf(s, '{');
    var j := LastIndexOf(s, '}');
    if 0 <= i < j {
      var r := s[i..j + 1];
      assert r[0] == '{' && r[|r| - 1] == '}';
      assert r[0..|r|] == r;
    }
  }

  /**
   * An object written between text without braces is cut out exactly, braces inside
   * it included.
   */
  lemma BracesAroundObject(pre: string, body: string, post: string)
    requires '{' !in pre && '}' !in post
    ensures ExtractBraces(pre + "{" + body + "}" + post) == "{" + body + "}"
  {
    var obj := "{" + body + "}";
    var s := pre + obj + post;
    assert s == pre + "{" + body + "}" + post;
    var n := |pre|;
    var e := n + |obj| - 1;
    assert s[..n] == pre;
    assert s[n] == '{';
    IndexOfAt(s, '{', n);
    assert s[e] == '}';
    assert s[e + 1..] == post;
    LastIndexOfAt(s, '}', e);
    assert s[n..e + 1] == obj;
  }
}
