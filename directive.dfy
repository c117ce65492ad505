/** The tool directive at the end of an assistant reply: a JSON object, either in a
    fenced "```json" block anywhere in the reply or, failing that, trailing the reply.
    Both searches are written out as the regular expressions of the turn handler
    behave: a fenced block `` ```json\s*(\{.*?\})\s*``` `` (dot matching newlines),
    then a trailing object `(\{[\s\S]*?\})\s*$`. The object is removed from the text
    that is spoken, and an `"action": "hangup"` member ends the call. */
module Directive {
  import opened Common

  const Fence: string := "```"
  const JsonFence: string := "```json"

  /** A regular-expression match: the whole match (group 0) and the object (group 1). */
  datatype Match = Match(whole: string, obj: string)

  /** The first index at or after `k` that is not whitespace (`\s*` is greedy). */
  function SkipSpace(s: string, k: nat): (m: nat)
    requires k <= |s|
    ensures k <= m <= |s|
    ensures m == |s| || !IsSpace(s[m])
    decreases |s| - k
  {
    if k < |s| && IsSpace(s[k]) then SkipSpace(s, k + 1) else k
  }

  /** What `SkipSpace` skips is whitespace. */
  lemma {:induction false} SkipSpaceBlank(s: string, k: nat)
    requires k <= |s|
    ensures AllSpace(s[k..SkipSpace(s, k)])
    decreases |s| - k
  {
    if k < |s| && IsSpace(s[k]) {
      var m := SkipSpace(s, k + 1);
      SkipSpaceBlank(s, k + 1);
      assert s[k..m] == [s[k]] + s[k + 1..m];
    }
  }

  /** The closing fence, three backticks, at `m`. */
  predicate FenceAt(s: string, m: nat) {
    m + |Fence| <= |s| && s[m] == '`' && s[m + 1] == '`' && s[m + 2] == '`'
  }

  /** `\}\s*` followed by a closing fence, with the brace at `e`. */
  predicate ClosesAt(s: string, e: nat)
    requires e < |s|
  {
    s[e] == '}' && FenceAt(s, SkipSpace(s, e + 1))
  }

  /** The lazy `.*?\}\s*```` : the first `e >= from` that closes the block. */
  function FirstClose(s: string, from: nat): (r: Option<nat>)
    requires from <= |s|
    ensures r.Some? ==> from <= r.value < |s| && ClosesAt(s, r.value)
    decreases |s| - from
  {
    if from == |s| then None
    else if ClosesAt(s, from) then Some(from)
    else FirstClose(s, from + 1)
  }

  /** `FirstClose` finds the first closing position, and misses none. */
  lemma {:induction false} FirstCloseSpec(s: string, from: nat)
    requires from <= |s|
    ensures FirstClose(s, from).Some? ==> forall e :: from <= e < FirstClose(s, from).value ==> !ClosesAt(s, e)
    ensures FirstClose(s, from).None? ==> forall e :: from <= e < |s| ==> !ClosesAt(s, e)
    decreases |s| - from
  {
    if from < |s| && !ClosesAt(s, from) {
      FirstCloseSpec(s, from + 1);
    }
  }

  /** Where a fenced match starting at `i` sits: the object's `{` at `obj`, its
      closing brace at `close`, and the closing fence at `fence`. */
  datatype Span = Span(obj: nat, close: nat, fence: nat)

  /** The fenced pattern tried at start position `i`, as positions. */
  function FencedSpanAt(s: string, i: nat): (r: Option<Span>)
    requires i <= |s|
    ensures r.Some? ==> i <= r.value.obj < r.value.close < r.value.fence && r.value.fence + |Fence| <= |s|
  {
    if !OccursAt(s, JsonFence, i) then None
    else
      var k := SkipSpace(s, i + |JsonFence|);
      if k == |s| || s[k] != '{' then None
      else match FirstClose(s, k + 1)
        case None => None
        case Some(e) => Some(Span(k, e, SkipSpace(s, e + 1)))
  }

  /** The fenced pattern tried at start position `i`: the whole match runs through the
      closing fence, the object from its `{` through its closing brace. */
  function FencedAt(s: string, i: nat): (r: Option<Match>)
    requires i <= |s|
  {
    match FencedSpanAt(s, i)
    case None => None
    case Some(p) => Some(Match(s[i..p.fence + |Fence|], s[p.obj..p.close + 1]))
  }

  /** The match the fenced pattern makes at each start position, the end included. */
  function Candidates(s: string): (c: seq<Option<Match>>)
    ensures |c| == |s| + 1
  {
    seq(|s| + 1, j requires 0 <= j <= |s| => FencedAt(s, j))
  }

  /** The first match at or after position `i`. */
  function Leftmost<T>(c: seq<Option<T>>, i: nat): Option<T>
    requires i <= |c|
    decreases |c| - i
  {
    if i == |c| then None
    else if c[i].Some? then c[i]
    else Leftmost(c, i + 1)
  }

  /** `re.search` of the fenced pattern: the leftmost start position that matches. */
  function FencedSearch(s: string, i: nat): Option<Match>
    requires i <= |s|
  {
    Leftmost(Candidates(s), i)
  }

  /** `re.search` of the trailing pattern: from the first `{` of the reply through its
      last non-whitespace character, when that is a `}`. */
  function TrailingSearch(s: string): (r: Option<Match>)
    ensures r.Some? ==> |r.value.obj| >= 2 && r.value.obj[0] == '{' && r.value.obj[|r.value.obj| - 1] == '}'
  {
    var t := RStrip(s);
    if t == [] || t[|t| - 1] != '}' then None
    else match IndexOf(t, "{")
      case None => None
      case Some(b) =>
        assert t[b..b + 1] == "{";
        assert t[b] == '{';
        Some(Match(s[b..], t[b..]))
  }

  /** The directive the reply carries, if any. */
  function FindDirective(s: string): Option<Match> {
    var fenced := FencedSearch(s, 0);
    if fenced.Some? then fenced else TrailingSearch(s)
  }

  /** The result of `json.loads` on the object: unparsable, or an object with the given
      `action` member. */
  datatype Command = Unparsable | Parsed(action: Field)

  /** The text to speak and whether to hang up afterwards. */
  datatype Decision = Decision(spoken: string, hangup: bool)

  /** A parsed directive is stripped out of the spoken text, first with its fences and
      then on its own; an unparsable one leaves the reply as it is. */
  function ExtractDirective(reply: string, parse: string -> Command): (d: Decision)
    ensures FindDirective(reply).None? ==> d == Decision(reply, false)
    ensures FindDirective(reply).Some? && parse(FindDirective(reply).value.obj).Unparsable? ==> d == Decision(reply, false)
    ensures d.hangup <==> FindDirective(reply).Some? && parse(FindDirective(reply).value.obj) == Parsed(Str("hangup"))
    ensures FindDirective(reply).Some? && parse(FindDirective(reply).value.obj).Parsed? ==>
      Stripped(d.spoken) && |d.spoken| <= |reply|
  {
    match FindDirective(reply)
    case None => Decision(reply, false)
    case Some(m) =>
      match parse(m.obj)
      case Unparsable => Decision(reply, false)
      case Parsed(action) =>
        Decision(Strip(Remove(Strip(Remove(reply, m.whole)), m.obj)), action == Str("hangup"))
  }

  /** A directive found in a reply is never empty text. */
  lemma DirectiveNonEmpty(reply: string)
    requires FindDirective(reply).Some?
    ensures FindDirective(reply).value.whole != []
  {
    if FencedSearch(reply, 0).Some? {
      FencedSearchLeftmost(reply);
      var t :| 0 <= t <= |reply| && FencedAt(reply, t) == FencedSearch(reply, 0);
      var sp := FencedSpanAt(reply, t).value;
      assert |reply[t..sp.fence + |Fence|]| > 0;
    }
  }

  /** Whatever the reply's shape: when the matched block occurs in it only once, and
      the object does not occur in the text around the block, the spoken text is that
      text with the block cut out, stripped. */
  lemma ExtractDirectiveCuts(reply: string, m: Match, pre: string, post: string, parse: string -> Command)
    requires FindDirective(reply) == Some(m)
    requires reply == pre + m.whole + post && forall i :: OccursAt(reply, m.whole, i) ==> i == |pre|
    requires !Contains(pre + post, m.obj) && parse(m.obj).Parsed?
    ensures ExtractDirective(reply, parse).spoken == Strip(pre + post)
  {
    DirectiveNonEmpty(reply);
    ExtractParsed(reply, m, parse);
    CutSole(pre, m.whole, post, m.obj);
  }

  /** A parsed directive is removed with its fences, then on its own. */
  lemma ExtractParsed(reply: string, m: Match, parse: string -> Command)
    requires FindDirective(reply) == Some(m) && parse(m.obj).Parsed?
    ensures ExtractDirective(reply, parse).spoken == Strip(Remove(Strip(Remove(reply, m.whole)), m.obj))
  {
  }

  /** The two removals of the source on a block that occurs once. */
  lemma CutSole(pre: string, whole: string, post: string, obj: string)
    requires whole != [] && forall i :: OccursAt(pre + whole + post, whole, i) ==> i == |pre|
    requires !Contains(pre + post, obj)
    ensures Strip(Remove(Strip(Remove(pre + whole + post, whole)), obj)) == Strip(pre + post)
  {
    RemoveSole(pre, whole, post);
    NotContainsStrip(pre + post, obj);
    StripOfStripped(Strip(pre + post));
  }

  // ---------------------------------------------------------------------
  // The shapes a reply takes

  predicate NoChar(s: string, c: char) {
    forall i :: 0 <= i < |s| ==> s[i] != c
  }

  lemma NoCharNoOccurrence(s: string, p: string, c: char)
    requires NoChar(s, c) && p != [] && p[0] == c
    ensures forall i :: 0 <= i <= |s| ==> !OccursAt(s, p, i)
  {
    forall i | 0 <= i <= |s| ensures !OccursAt(s, p, i) {
      if i + |p| <= |s| {
        assert s[i..i + |p|][0] == s[i] != c;
      }
    }
  }

  /** A reply with no `{` has no directive: it is spoken as it is, and never hangs up. */
  lemma NoBraceNoDirective(reply: string, parse: string -> Command)
    requires NoChar(reply, '{')
    ensures ExtractDirective(reply, parse) == Decision(reply, false)
  {
    forall j | 0 <= j <= |reply| ensures FencedAt(reply, j).None? {
      NoBraceNoFence(reply, j);
    }
    FencedSearchNone(reply, 0);
    NoBraceNoTrailing(reply);
  }

  lemma NoBraceNoFence(reply: string, j: nat)
    requires NoChar(reply, '{') && j <= |reply|
    ensures FencedAt(reply, j).None?
  {
    if OccursAt(reply, JsonFence, j) {
      var k := SkipSpace(reply, j + |JsonFence|);
      assert k < |reply| ==> reply[k] != '{';
    }
  }

  lemma NoBraceNoTrailing(reply: string)
    requires NoChar(reply, '{')
    ensures TrailingSearch(reply).None?
  {
    var t := RStrip(reply);
    NoCharSlice(reply, 0, |t|, '{');
    assert t == reply[0..|t|];
    NoCharNoOccurrence(t, "{", '{');
  }

  /** The fenced block the instructions ask for, written after the spoken part. */
  function FencedBlock(ws1: string, obj: string, ws2: string): string {
    JsonFence + (ws1 + (obj + (ws2 + Fence)))
  }

  /** The fenced pattern, read off positions: the fence at `i`, the object from `k` to
      its first closing brace `e` that whitespace and a fence follow, the fence at `m`. */
  lemma FencedAtIndices(s: string, i: nat, k: nat, e: nat, m: nat)
    requires i + |JsonFence| <= k < e < m && m + |Fence| <= |s|
    requires s[i..i + |JsonFence|] == JsonFence && AllSpace(s[i + |JsonFence|..k])
    requires s[k] == '{' && s[e] == '}' && AllSpace(s[e + 1..m]) && s[m..m + |Fence|] == Fence
    requires forall x :: k < x < e ==> s[x] != '}'
    ensures FencedAt(s, i) == Some(Match(s[i..m + |Fence|], s[k..e + 1]))
  {
    FenceOpens(s, i, k);
    FirstCloseAt(s, k + 1, e, m);
    SpanAt(s, i, k, e, m);
  }

  /** The opening fence at `i`, then whitespace up to the brace at `k`. */
  lemma FenceOpens(s: string, i: nat, k: nat)
    requires i + |JsonFence| <= k < |s|
    requires s[i..i + |JsonFence|] == JsonFence && AllSpace(s[i + |JsonFence|..k]) && s[k] == '{'
    ensures OccursAt(s, JsonFence, i) && SkipSpace(s, i + |JsonFence|) == k
  {
    assert !IsSpace(s[k]);
    SkipSpaceOver(s, i + |JsonFence|, k);
  }

  /** The positions of a fenced match, from the parts of the pattern. */
  lemma SpanAt(s: string, i: nat, k: nat, e: nat, m: nat)
    requires i + |JsonFence| <= k < |s| && OccursAt(s, JsonFence, i) && SkipSpace(s, i + |JsonFence|) == k
    requires s[k] == '{' && FirstClose(s, k + 1) == Some(e) && SkipSpace(s, e + 1) == m
    ensures FencedSpanAt(s, i) == Some(Span(k, e, m))
  {
  }

  /** The first closing brace after `from` is `e` when followed by whitespace and a fence. */
  lemma FirstCloseAt(s: string, from: nat, e: nat, m: nat)
    requires from <= e < m && m + |Fence| <= |s|
    requires s[e] == '}' && AllSpace(s[e + 1..m]) && s[m..m + |Fence|] == Fence
    requires forall x :: from <= x < e ==> s[x] != '}'
    ensures FirstClose(s, from) == Some(e) && SkipSpace(s, e + 1) == m
  {
    assert s[m] == s[m..m + |Fence|][0];
    SkipSpaceOver(s, e + 1, m);
    FirstCloseSpec(s, from);
    assert s[m + 1] == s[m..m + |Fence|][1] && s[m + 2] == s[m..m + |Fence|][2];
    assert ClosesAt(s, e);
  }

  /** Where the parts of a block that starts at `a` sit. */
  lemma FencedLayout(s: string, a: nat, ws1: string, obj: string, ws2: string)
    requires a <= |s| && s[a..] == FencedBlock(ws1, obj, ws2)
    ensures var k := a + |JsonFence| + |ws1|;
      var m := k + |obj| + |ws2|;
      m + |Fence| == |s| &&
      s[a..a + |JsonFence|] == JsonFence && s[a + |JsonFence|..k] == ws1 &&
      s[k..k + |obj|] == obj && s[k + |obj|..m] == ws2 && s[m..] == Fence
  {
    Layout(s, a, JsonFence, ws1, obj, ws2, Fence);
  }

  /** The positions of five consecutive parts of a sequence. */
  lemma Layout<T>(s: seq<T>, a: nat, p1: seq<T>, p2: seq<T>, p3: seq<T>, p4: seq<T>, p5: seq<T>)
    requires a <= |s| && s[a..] == p1 + (p2 + (p3 + (p4 + p5)))
    ensures var b := a + |p1|; var c := b + |p2|; var d := c + |p3|; var e := d + |p4|;
      e + |p5| == |s| && s[a..b] == p1 && s[b..c] == p2 && s[c..d] == p3 && s[d..e] == p4 && s[e..] == p5
  {
    var b := a + |p1|;
    var c := b + |p2|;
    var d := c + |p3|;
    Split(s, a, p1, p2 + (p3 + (p4 + p5)));
    Split(s, b, p2, p3 + (p4 + p5));
    Split(s, c, p3, p4 + p5);
    Split(s, d, p4, p5);
  }

  /** A sequence that continues with `p` at `a`, then `rest`. */
  lemma Split<T>(s: seq<T>, a: nat, p: seq<T>, rest: seq<T>)
    requires a <= |s| && s[a..] == p + rest
    ensures a + |p| <= |s| && s[a..a + |p|] == p && s[a + |p|..] == rest
  {
    assert s[a..a + |p|] == s[a..][..|p|];
    assert s[a + |p|..] == s[a..][|p|..];
  }

  /** A JSON object with no `}` before its final one, as the lazy `.*?\}` captures it. */
  predicate FlatObject(obj: string) {
    |obj| >= 2 && obj[0] == '{' && obj[|obj| - 1] == '}' &&
    forall x :: 0 < x < |obj| - 1 ==> obj[x] != '}'
  }

  /** The fenced pattern matches the requested block where it starts. */
  lemma FencedAtBlock(s: string, a: nat, ws1: string, obj: string, ws2: string)
    requires a <= |s| && s[a..] == FencedBlock(ws1, obj, ws2)
    requires FlatObject(obj) && AllSpace(ws1) && AllSpace(ws2)
    ensures FencedAt(s, a) == Some(Match(s[a..], obj))
  {
    BlockIndices(s, a, ws1, obj, ws2);
    FencedAtWhole(s, a, a + |JsonFence| + |ws1|, obj, |ws2|);
  }

  /** The fenced pattern at `a` when the object `obj` starts at `k` and the tail of
      the string is whitespace of length `w`, then the closing fence. */
  lemma FencedAtWhole(s: string, a: nat, k: nat, obj: string, w: nat)
    requires |obj| >= 2 && a + |JsonFence| <= k && k + |obj| + w + |Fence| == |s|
    requires s[a..a + |JsonFence|] == JsonFence && AllSpace(s[a + |JsonFence|..k])
    requires s[k] == '{' && s[k + |obj| - 1] == '}' && AllSpace(s[k + |obj|..k + |obj| + w])
    requires s[k + |obj| + w..k + |obj| + w + |Fence|] == Fence
    requires forall x :: k < x < k + |obj| - 1 ==> s[x] != '}'
    requires s[k..k + |obj|] == obj
    ensures FencedAt(s, a) == Some(Match(s[a..], obj))
  {
    var e := k + |obj| - 1;
    var m := k + |obj| + w;
    FencedAtIndices(s, a, k, e, m);
    assert s[a..m + |Fence|] == s[a..];
  }

  /** The requested block at `a`, described by the positions of its parts. */
  lemma BlockIndices(s: string, a: nat, ws1: string, obj: string, ws2: string)
    requires a <= |s| && s[a..] == FencedBlock(ws1, obj, ws2)
    requires FlatObject(obj) && AllSpace(ws1) && AllSpace(ws2)
    ensures var k := a + |JsonFence| + |ws1|;
      var e := k + |obj| - 1;
      var m := k + |obj| + |ws2|;
      && a + |JsonFence| <= k < e < m && m + |Fence| == |s|
      && s[a..a + |JsonFence|] == JsonFence && AllSpace(s[a + |JsonFence|..k])
      && s[k] == '{' && s[e] == '}' && AllSpace(s[e + 1..m]) && s[m..m + |Fence|] == Fence
      && (forall x :: k < x < e ==> s[x] != '}')
      && s[k..k + |obj|] == obj
  {
    FencedLayout(s, a, ws1, obj, ws2);
    var k := a + |JsonFence| + |ws1|;
    var m := k + |obj| + |ws2|;
    ObjectInPlace(s, k, obj);
    assert s[m..m + |Fence|] == s[m..];
  }

  /** A flat object found at `k`: its braces and its interior, by position. */
  lemma ObjectInPlace(s: string, k: nat, obj: string)
    requires k + |obj| <= |s| && s[k..k + |obj|] == obj && FlatObject(obj)
    ensures s[k] == '{' && s[k + |obj| - 1] == '}' && s[k..k + |obj| - 1 + 1] == obj
    ensures forall x :: k < x < k + |obj| - 1 ==> s[x] != '}'
  {
    assert s[k] == s[k..k + |obj|][0];
    assert s[k + |obj| - 1] == s[k..k + |obj|][|obj| - 1];
    forall x | k < x < k + |obj| - 1 ensures s[x] != '}' {
      assert s[x] == s[k..k + |obj|][x - k];
    }
  }

  /** No fenced match starts inside text without backticks. */
  lemma NoFenceBefore(spoken: string, rest: string)
    requires NoChar(spoken, '`')
    ensures forall j :: 0 <= j < |spoken| ==> FencedAt(spoken + rest, j).None?
  {
    var reply := spoken + rest;
    forall j | 0 <= j < |spoken| ensures !OccursAt(reply, JsonFence, j) {
      if j + |JsonFence| <= |reply| {
        assert reply[j..j + |JsonFence|][0] == reply[j] == spoken[j] != '`';
      }
    }
  }

  /** Removing a directive that follows brace-free text leaves that text, stripped. */
  lemma RemoveDirectiveAfter(spoken: string, whole: string, obj: string)
    requires whole != [] && NoChar(spoken, whole[0])
    requires NoChar(spoken, '{') && obj != [] && obj[0] == '{'
    ensures Strip(Remove(Strip(Remove(spoken + whole, whole)), obj)) == Strip(spoken)
  {
    RemoveFirstAt(spoken, whole);
    var st := Strip(spoken);
    NoCharStrip(spoken, '{');
    NoCharNoOccurrence(st, obj, '{');
    NoOccurrenceNotContains(st, obj);
    StripOfStripped(st);
  }

  /** A reply that is spoken text followed by the requested fenced block is spoken as
      the text alone, stripped, and hangs up exactly when the object says so. */
  lemma FencedReply(spoken: string, ws1: string, obj: string, ws2: string, parse: string -> Command)
    requires NoChar(spoken, '`') && NoChar(spoken, '{') && FlatObject(obj)
    requires AllSpace(ws1) && AllSpace(ws2)
    requires parse(obj).Parsed?
    ensures var d := ExtractDirective(spoken + FencedBlock(ws1, obj, ws2), parse);
      d.spoken == Strip(spoken) && (d.hangup <==> parse(obj) == Parsed(Str("hangup")))
  {
    var block := FencedBlock(ws1, obj, ws2);
    FencedReplyFinds(spoken, ws1, obj, ws2);
    ExtractParsed(spoken + block, Match(block, obj), parse);
    assert block[0] == '`';
    RemoveDirectiveAfter(spoken, block, obj);
  }

  /** The search finds the block after text without backticks. */
  lemma FencedReplyFinds(spoken: string, ws1: string, obj: string, ws2: string)
    requires NoChar(spoken, '`') && FlatObject(obj) && AllSpace(ws1) && AllSpace(ws2)
    ensures FindDirective(spoken + FencedBlock(ws1, obj, ws2)) == Some(Match(FencedBlock(ws1, obj, ws2), obj))
  {
    var block := FencedBlock(ws1, obj, ws2);
    var reply := spoken + block;
    assert reply[|spoken|..] == block;
    FencedAtBlock(reply, |spoken|, ws1, obj, ws2);
    NoFenceBefore(spoken, block);
    FencedSearchFrom(reply, 0, |spoken|);
  }

  /** Without backticks there is no fenced match anywhere. */
  lemma NoBacktickNoFence(s: string)
    requires NoChar(s, '`')
    ensures FencedSearch(s, 0).None?
  {
    forall j | 0 <= j <= |s| ensures FencedAt(s, j).None? {
      if j + |JsonFence| <= |s| {
        assert s[j..j + |JsonFence|][0] == s[j] != '`';
      }
    }
    FencedSearchNone(s, 0);
  }

  /** The first `{` of brace-free text followed by an object is the object's. */
  lemma FirstBraceOfObject(spoken: string, obj: string)
    requires NoChar(spoken, '{') && obj != [] && obj[0] == '{'
    ensures IndexOf(spoken + obj, "{") == Some(|spoken|)
  {
    var t := spoken + obj;
    assert t[|spoken|..|spoken| + 1] == "{";
    forall x | 0 <= x < |spoken| ensures !OccursAt(t, "{", x) {
      assert t[x..x + 1][0] == t[x] == spoken[x] != '{';
    }
    IndexOfAt(t, "{", |spoken|);
  }

  /** The trailing pattern finds the object after brace-free text. */
  lemma TrailingAtObject(spoken: string, obj: string, ws: string)
    requires NoChar(spoken, '{') && |obj| >= 2 && obj[0] == '{' && obj[|obj| - 1] == '}'
    requires AllSpace(ws)
    ensures TrailingSearch(spoken + (obj + ws)) == Some(Match(obj + ws, obj))
  {
    var reply := spoken + (obj + ws);
    var t := spoken + obj;
    assert reply == t + ws;
    assert t[|t| - 1] == '}';
    RStripOverSpace(t, ws);
    FirstBraceOfObject(spoken, obj);
    TrailingAt(reply, |spoken|);
    assert t[|spoken|..] == obj;
    assert reply[|spoken|..] == obj + ws;
  }

  /** The trailing pattern, read off its first brace `b` in the stripped reply. */
  lemma TrailingAt(s: string, b: nat)
    requires RStrip(s) != [] && RStrip(s)[|RStrip(s)| - 1] == '}'
    requires IndexOf(RStrip(s), "{") == Some(b)
    ensures b <= |RStrip(s)| <= |s| && TrailingSearch(s) == Some(Match(s[b..], RStrip(s)[b..]))
  {
  }

  /** A reply that ends with a bare object (no backticks anywhere) is spoken without it. */
  lemma TrailingReply(spoken: string, obj: string, ws: string, parse: string -> Command)
    requires NoChar(spoken, '`') && NoChar(spoken, '{') && NoChar(obj, '`')
    requires |obj| >= 2 && obj[0] == '{' && obj[|obj| - 1] == '}' && AllSpace(ws)
    requires parse(obj).Parsed?
    ensures var d := ExtractDirective(spoken + (obj + ws), parse);
      d.spoken == Strip(spoken) && (d.hangup <==> parse(obj) == Parsed(Str("hangup")))
  {
    var reply := spoken + (obj + ws);
    NoBacktickReply(spoken, obj, ws);
    NoBacktickNoFence(reply);
    TrailingAtObject(spoken, obj, ws);
    assert FindDirective(reply) == Some(Match(obj + ws, obj));
    ExtractParsed(reply, Match(obj + ws, obj), parse);
    RemoveDirectiveAfter(spoken, obj + ws, obj);
  }

  lemma NoBacktickReply(spoken: string, obj: string, ws: string)
    requires NoChar(spoken, '`') && NoChar(obj, '`') && AllSpace(ws)
    ensures NoChar(spoken + (obj + ws), '`')
  {
    var reply := spoken + (obj + ws);
    forall x | 0 <= x < |reply| ensures reply[x] != '`' {
      if x < |spoken| {
        assert reply[x] == spoken[x];
      } else if x < |spoken| + |obj| {
        assert reply[x] == obj[x - |spoken|];
      } else {
        assert reply[x] == ws[x - |spoken| - |obj|];
      }
    }
  }

  // ---------------------------------------------------------------------
  // Helpers

  lemma {:induction false} SkipSpaceOver(s: string, k: nat, m: nat)
    requires k <= m <= |s| && AllSpace(s[k..m]) && (m == |s| || !IsSpace(s[m]))
    ensures SkipSpace(s, k) == m
    decreases m - k
  {
    if k < m {
      assert s[k..m][0] == s[k];
      assert s[k + 1..m] == s[k..m][1..];
      SkipSpaceOver(s, k + 1, m);
    }
  }

  lemma FencedSearchFrom(s: string, i: nat, target: nat)
    requires i <= target <= |s|
    requires forall j :: i <= j < target ==> FencedAt(s, j).None?
    requires FencedAt(s, target).Some?
    ensures FencedSearch(s, i) == FencedAt(s, target)
  {
    var c := Candidates(s);
    forall j | i <= j < target ensures c[j].None? {
      assert c[j] == FencedAt(s, j);
    }
    LeftmostAt(c, i, target);
  }

  /** The first match at or after `i` is the one at `t` when none comes before it. */
  lemma {:induction false} LeftmostAt<T>(c: seq<Option<T>>, i: nat, t: nat)
    requires i <= t < |c| && c[t].Some?
    requires forall j :: i <= j < t ==> c[j].None?
    ensures Leftmost(c, i) == c[t]
    decreases t - i
  {
    if i < t {
      LeftmostAt(c, i + 1, t);
    }
  }

  /** Without a match at or after `i`, there is none to find. */
  lemma {:induction false} LeftmostNone<T>(c: seq<Option<T>>, i: nat)
    requires i <= |c|
    requires forall j :: i <= j < |c| ==> c[j].None?
    ensures Leftmost(c, i).None?
    decreases |c| - i
  {
    if i < |c| {
      LeftmostNone(c, i + 1);
    }
  }

  /** The first match found is a match, and no position before it matches. */
  lemma {:induction false} LeftmostFirst<T>(c: seq<Option<T>>, i: nat)
    requires i <= |c|
    ensures Leftmost(c, i).Some? ==>
      exists t :: i <= t < |c| && c[t] == Leftmost(c, i) && forall j :: i <= j < t ==> c[j].None?
    decreases |c| - i
  {
    if i < |c| && c[i].None? {
      LeftmostFirst(c, i + 1);
      if Leftmost(c, i).Some? {
        var t :| i + 1 <= t < |c| && c[t] == Leftmost(c, i + 1) && forall j :: i + 1 <= j < t ==> c[j].None?;
        assert forall j :: i <= j < t ==> c[j].None?;
      }
    }
  }

  /** `re.search` of the fenced pattern returns the match at its leftmost start, and
      none exactly when no position matches. */
  lemma FencedSearchLeftmost(s: string)
    ensures FencedSearch(s, 0).Some? ==>
      exists t :: 0 <= t <= |s| && FencedAt(s, t) == FencedSearch(s, 0) &&
        forall j :: 0 <= j < t ==> FencedAt(s, j).None?
    ensures FencedSearch(s, 0).None? <==> forall j :: 0 <= j <= |s| ==> FencedAt(s, j).None?
  {
    var c := Candidates(s);
    LeftmostFirst(c, 0);
    if FencedSearch(s, 0).Some? {
      var t :| 0 <= t < |c| && c[t] == Leftmost(c, 0) && forall j :: 0 <= j < t ==> c[j].None?;
      assert FencedAt(s, t) == c[t];
      forall j | 0 <= j < t ensures FencedAt(s, j).None? {
        assert c[j] == FencedAt(s, j);
      }
    } else {
      forall j | 0 <= j <= |s| ensures FencedAt(s, j).None? {
        if FencedAt(s, j).Some? {
          assert c[j] == FencedAt(s, j);
          LeftmostFound(c, 0, j);
        }
      }
    }
    if forall j :: 0 <= j <= |s| ==> FencedAt(s, j).None? {
      forall j | 0 <= j < |c| ensures c[j].None? {
        assert c[j] == FencedAt(s, j);
      }
      LeftmostNone(c, 0);
    }
  }

  /** A match at `t` means the search from before it finds one. */
  lemma {:induction false} LeftmostFound<T>(c: seq<Option<T>>, i: nat, t: nat)
    requires i <= t < |c| && c[t].Some?
    ensures Leftmost(c, i).Some?
    decreases t - i
  {
    if i < t && c[i].None? {
      LeftmostFound(c, i + 1, t);
    }
  }

  lemma NoOccurrenceNotContains(s: string, p: string)
    requires forall i :: 0 <= i <= |s| ==> !OccursAt(s, p, i)
    ensures !Contains(s, p)
  {
  }

  /** `p` occurring first right after `t` is removed to leave `t`. */
  lemma RemoveFirstAt(t: string, p: string)
    requires p != [] && NoChar(t, p[0])
    ensures Remove(t + p, p) == t
  {
    var s := t + p;
    assert s[|t|..|t| + |p|] == p;
    assert OccursAt(s, p, |t|);
    forall i | 0 <= i < |t| ensures !OccursAt(s, p, i) {
      if i + |p| <= |s| {
        assert s[i..i + |p|][0] == s[i] == t[i] != p[0];
      }
    }
    var r := IndexOf(s, p);
    assert r.Some? && r.value == |t|;
    RemoveTrailing(t, p);
  }

  lemma NoCharStrip(s: string, c: char)
    requires NoChar(s, c)
    ensures NoChar(Strip(s), c)
  {
    var l := LStrip(s);
    NoCharSlice(s, |s| - |l|, |s|, c);
    assert l == s[|s| - |l|..|s|];
    var r := RStrip(l);
    NoCharSlice(l, 0, |r|, c);
    assert r == l[0..|r|];
  }

  lemma NoCharSlice(s: string, a: nat, b: nat, c: char)
    requires a <= b <= |s| && NoChar(s, c)
    ensures NoChar(s[a..b], c)
  {
    forall i | 0 <= i < b - a ensures s[a..b][i] != c {
      assert s[a..b][i] == s[a + i];
    }
  }

  lemma FencedSearchNone(s: string, i: nat)
    requires i <= |s|
    requires forall j :: i <= j <= |s| ==> FencedAt(s, j).None?
    ensures FencedSearch(s, i).None?
  {
    var c := Candidates(s);
    forall j | i <= j < |c| ensures c[j].None? {
      assert c[j] == FencedAt(s, j);
    }
    LeftmostNone(c, i);
  }

  lemma {:induction false} RStripOverSpace(t: string, ws: string)
    requires AllSpace(ws) && t != [] && !IsSpace(t[|t| - 1])
    ensures RStrip(t + ws) == t
    decreases |ws|
  {
    if ws == [] {
      assert t + ws == t;
    } else {
      var s := t + ws;
      assert s[|s| - 1] == ws[|ws| - 1];
      assert s[..|s| - 1] == t + ws[..|ws| - 1];
      RStripOverSpace(t, ws[..|ws| - 1]);
    }
  }
}
