/** Values shared by every module: optional values, bytes, and the handful of
    Python `str` operations the gateway relies on (prefix and substring tests,
    `split(sep)[0]`, `replace(p, "")`, `strip()`, `rstrip(c)`, `lower()`,
    `isdigit()`, `int()` and `str()` on integers, `"\n".join`). */
module Common {

  datatype Option<+T> = None | Some(value: T)

  newtype byte = x: int | 0 <= x < 256

  /** Python truthiness of an `Optional[str]`: present and non-empty. */
  predicate Truthy(s: Option<string>) {
    s.Some? && s.value != ""
  }

  /** `x or default` for an optional string. */
  function OrDefault(s: Option<string>, default: string): (r: string)
    ensures Truthy(s) ==> r == s.value
    ensures !Truthy(s) ==> r == default
  {
    if Truthy(s) then s.value else default
  }

  /** The text an f-string renders for an optional string (`None` for a missing value). */
  function Render(s: Option<string>): string {
    match s
    case None => "None"
    case Some(v) => v
  }

  /** A string member of a JSON object: missing, `null`, or a string. */
  datatype Field = Absent | Null | Str(s: string)

  /** How an `Optional[str]` is serialised as a JSON member value. */
  function FieldOf(v: Option<string>): (f: Field)
    ensures v.None? <==> f == Null
    ensures v.Some? ==> f == Str(v.value)
  {
    match v
    case None => Null
    case Some(s) => Str(s)
  }

  /** A `{"event": "media", ...}` frame sent to the carrier: the encoded audio before
      base64 and the `stream_id` member. */
  datatype MediaFrame = MediaFrame(payload: seq<byte>, streamId: Field)

  function Repeat<T>(x: T, n: nat): (r: seq<T>)
    ensures |r| == n
    ensures forall i :: 0 <= i < n ==> r[i] == x
  {
    if n == 0 then [] else Repeat(x, n - 1) + [x]
  }

  /** Concatenation of a sequence of byte strings, in order. */
  function Concat(parts: seq<seq<byte>>): (r: seq<byte>)
  {
    if parts == [] then [] else Concat(parts[..|parts| - 1]) + parts[|parts| - 1]
  }

  lemma {:induction false} ConcatAppend(a: seq<seq<byte>>, b: seq<seq<byte>>)
    ensures Concat(a + b) == Concat(a) + Concat(b)
    decreases |b|
  {
    if b == [] {
      assert a + b == a;
    } else {
      var b' := b[..|b| - 1];
      assert (a + b)[..|a + b| - 1] == a + b';
      ConcatAppend(a, b');
    }
  }

  // ---------------------------------------------------------------------
  // Substrings

  predicate OccursAt(s: string, p: string, i: int) {
    0 <= i && i + |p| <= |s| && s[i..i + |p|] == p
  }

  predicate StartsWith(s: string, p: string) {
    p <= s
  }

  predicate EndsWith(s: string, p: string) {
    |p| <= |s| && s[|s| - |p|..] == p
  }

  /** Position of the first occurrence of `p` in `s` (Python `s.find(p)`, with `None` for -1). */
  function IndexOf(s: string, p: string): (r: Option<nat>)
    ensures r.Some? ==> OccursAt(s, p, r.value)
    ensures r.Some? ==> forall i :: 0 <= i < r.value ==> !OccursAt(s, p, i)
    ensures r.None? ==> forall i :: 0 <= i <= |s| ==> !OccursAt(s, p, i)
    decreases |s|
  {
    if |s| < |p| then None
    else if s[..|p|] == p then Some(0)
    else
      var rest := IndexOf(s[1..], p);
      ShiftOccurs(s, p);
      match rest
      case None => None
      case Some(k) => Some(k + 1)
  }

  /** The first occurrence is at `i` when `p` occurs there and nowhere before. */
  lemma IndexOfAt(s: string, p: string, i: nat)
    requires OccursAt(s, p, i)
    requires forall j :: 0 <= j < i ==> !OccursAt(s, p, j)
    ensures IndexOf(s, p) == Some(i)
  {
    var r := IndexOf(s, p);
    assert r.Some?;
    assert !(r.value < i);
    assert !(i < r.value);
  }

  /** An occurrence in `s[1..]` at `i` is an occurrence in `s` at `i + 1`. */
  lemma ShiftOccurs(s: string, p: string)
    requires s != []
    ensures forall i :: 0 <= i ==> (OccursAt(s[1..], p, i) <==> OccursAt(s, p, i + 1))
    ensures forall j :: 1 <= j ==> (OccursAt(s, p, j) <==> OccursAt(s[1..], p, j - 1))
    ensures OccursAt(s, p, 0) <==> (|p| <= |s| && s[..|p|] == p)
  {
    forall i | 0 <= i
      ensures OccursAt(s[1..], p, i) <==> OccursAt(s, p, i + 1)
    {
      if i + |p| <= |s| - 1 {
        assert s[1..][i..i + |p|] == s[i + 1..i + 1 + |p|];
      }
    }
    forall j | 1 <= j
      ensures OccursAt(s, p, j) <==> OccursAt(s[1..], p, j - 1)
    {
      assert OccursAt(s[1..], p, j - 1) <==> OccursAt(s, p, j - 1 + 1);
    }
  }

  /** Python `p in s`. */
  predicate Contains(s: string, p: string) {
    IndexOf(s, p).Some?
  }

  lemma ContainsMeans(s: string, p: string)
    ensures Contains(s, p) <==> exists i :: OccursAt(s, p, i)
  {
    if Contains(s, p) {
      assert OccursAt(s, p, IndexOf(s, p).value);
    }
  }

  /** Python `s.split(sep)[0]`: everything before the first occurrence of `sep`. */
  function SplitFirst(s: string, sep: string): (r: string)
    requires sep != ""
    ensures r <= s
    ensures !Contains(r, sep)
    ensures Contains(s, sep) ==> OccursAt(s, sep, |r|)
    ensures !Contains(s, sep) ==> r == s
  {
    match IndexOf(s, sep)
    case None => s
    case Some(i) =>
      var r := s[..i];
      forall j | 0 <= j <= |r| ensures !OccursAt(r, sep, j) {
        if OccursAt(r, sep, j) {
          assert s[j..j + |sep|] == r[j..j + |sep|];
          assert OccursAt(s, sep, j);
        }
      }
      r
  }

  /** Python `s.replace(p, "")`: removes the non-overlapping occurrences of `p`,
      scanning left to right. */
  function Remove(s: string, p: string): (r: string)
    ensures |r| <= |s|
    ensures !Contains(s, p) ==> r == s
    ensures p != "" && Contains(s, p) ==> |r| <= |s| - |p|
    decreases |s|
  {
    if p == "" || |s| < |p| then s
    else if s[..|p|] == p then Remove(s[|p|..], p)
    else
      ShiftOccurs(s, p);
      [s[0]] + Remove(s[1..], p)
  }

  /** When the first occurrence of `p` is the end of `s`, removing `p` leaves what came before. */
  lemma {:induction false} RemoveTrailing(t: string, p: string)
    requires p != ""
    requires IndexOf(t + p, p) == Some(|t|)
    ensures Remove(t + p, p) == t
    decreases |t|
  {
    var s := t + p;
    if t == [] {
      assert s[..|p|] == p;
      assert s[|p|..] == [];
    } else {
      assert !OccursAt(s, p, 0);
      assert s[..|p|] != p;
      ShiftOccurs(s, p);
      assert s[1..] == t[1..] + p;
      // `IndexOf` steps over the first character, so the occurrence moves back by one.
      assert IndexOf(s[1..], p) == Some(|t| - 1);
      RemoveTrailing(t[1..], p);
      assert [s[0]] + t[1..] == t;
    }
  }

  /** An occurrence in `y` is one in `x + y`, moved by `|x|`. */
  lemma OccursShifted(x: string, y: string, p: string, i: int)
    requires OccursAt(y, p, i)
    ensures OccursAt(x + y, p, |x| + i)
  {
    assert (x + y)[|x| + i..|x| + i + |p|] == y[i..i + |p|];
  }

  /** Removing a pattern that does not occur changes nothing. */
  lemma RemoveAbsent(s: string, p: string)
    requires forall i :: !OccursAt(s, p, i)
    ensures Remove(s, p) == s
  {
    ContainsMeans(s, p);
  }

  /** `replace` keeps a first character that does not start an occurrence. */
  lemma RemoveStep(s: string, p: string)
    requires p != "" && |p| <= |s| && !OccursAt(s, p, 0)
    ensures Remove(s, p) == [s[0]] + Remove(s[1..], p)
  {
    assert s[..|p|] != p;
  }

  /** When `p + post` holds `p` only at its start, removing `p` leaves `post`. */
  lemma RemoveSoleFirst(p: string, post: string)
    requires p != ""
    requires forall i :: OccursAt(p + post, p, i) ==> i == 0
    ensures Remove(p + post, p) == post
  {
    var s := p + post;
    assert s[..|p|] == p && s[|p|..] == post;
    forall i | OccursAt(post, p, i) ensures false {
      OccursShifted(p, post, p, i);
    }
    RemoveAbsent(post, p);
  }

  /** When `p` occurs in `pre + p + post` only where it was put, removing `p` leaves
      `pre + post`. */
  lemma {:induction false} RemoveSole(pre: string, p: string, post: string)
    requires p != ""
    requires forall i :: OccursAt(pre + p + post, p, i) ==> i == |pre|
    ensures Remove(pre + p + post, p) == pre + post
    decreases |pre|
  {
    var s := pre + p + post;
    if pre == [] {
      assert s == p + post;
      RemoveSoleFirst(p, post);
    } else {
      var t := pre[1..] + p + post;
      assert s == [s[0]] + t;
      RemoveStep(s, p);
      forall i | OccursAt(t, p, i) ensures i == |pre[1..]| {
        OccursShifted([s[0]], t, p, i);
      }
      RemoveSole(pre[1..], p, post);
      assert [s[0]] + (pre[1..] + post) == pre + post;
    }
  }

  /** An absent pattern is absent from every slice. */
  lemma NotContainsSlice(s: string, p: string, a: nat, b: nat)
    requires a <= b <= |s| && !Contains(s, p)
    ensures !Contains(s[a..b], p)
  {
    ContainsMeans(s, p);
    ContainsMeans(s[a..b], p);
    forall i | OccursAt(s[a..b], p, i) ensures false {
      var t := s[a..b];
      assert i + |p| <= |t| == b - a;
      var w, u := s[a + i..a + i + |p|], t[i..i + |p|];
      forall k | 0 <= k < |p| ensures w[k] == u[k] {
        assert t[i + k] == s[a + i + k];
      }
      assert w == u;
      assert OccursAt(s, p, a + i);
    }
  }

  /** `strip` keeps an absent pattern absent. */
  lemma NotContainsStrip(s: string, p: string)
    requires !Contains(s, p)
    ensures !Contains(Strip(s), p)
  {
    var l := LStrip(s);
    NotContainsSuffix(s, l, p);
    NotContainsPrefix(l, RStrip(l), p);
  }

  lemma NotContainsSuffix(s: string, t: string, p: string)
    requires |t| <= |s| && t == s[|s| - |t|..] && !Contains(s, p)
    ensures !Contains(t, p)
  {
    assert t == s[|s| - |t|..|s|];
    NotContainsSlice(s, p, |s| - |t|, |s|);
  }

  lemma NotContainsPrefix(s: string, t: string, p: string)
    requires t <= s && !Contains(s, p)
    ensures !Contains(t, p)
  {
    assert t == s[0..|t|];
    NotContainsSlice(s, p, 0, |t|);
  }

  /** The first position at which `p` or `q` occurs, or `|s|` when neither does. */
  function FirstOfEither(s: string, p: string, q: string): (k: nat)
    requires p != "" && q != ""
    ensures k <= |s|
    ensures forall j :: 0 <= j < k ==> !OccursAt(s, p, j) && !OccursAt(s, q, j)
    ensures k < |s| ==> OccursAt(s, p, k) || OccursAt(s, q, k)
    decreases |s|
  {
    if s == [] || OccursAt(s, p, 0) || OccursAt(s, q, 0) then 0
    else
      ShiftOccurs(s, p);
      ShiftOccurs(s, q);
      1 + FirstOfEither(s[1..], p, q)
  }

  /** A cut with no occurrence of `p` or `q` before it and one at it (or at the end) is
      the one `FirstOfEither` finds. */
  lemma FirstOfEitherUnique(s: string, p: string, q: string, k: nat)
    requires p != "" && q != "" && k <= |s|
    requires forall j :: 0 <= j < k ==> !OccursAt(s, p, j) && !OccursAt(s, q, j)
    requires k < |s| ==> OccursAt(s, p, k) || OccursAt(s, q, k)
    ensures FirstOfEither(s, p, q) == k
  {
    var f := FirstOfEither(s, p, q);
    assert !(k < f);
    assert !(f < k);
  }

  /** A character inside an occurrence of `q`, past its start, is one of `q[1..]`. */
  lemma InsideOccurrence(s: string, q: string, j: nat, a: nat)
    requires OccursAt(s, q, j) && j < a < j + |q|
    ensures s[a] in q[1..]
  {
    assert s[a] == s[j..j + |q|][a - j] == q[a - j] == q[1..][a - j - 1];
  }

  /** No occurrence of `q` lies before the cut of `s.split(p)[0].split(q)[0]`. */
  lemma SplitTwiceNoEarlier(s: string, p: string, q: string, j: nat)
    requires p != "" && q != "" && p[0] !in q[1..] && OccursAt(s, q, j)
    ensures |SplitFirst(SplitFirst(s, p), q)| <= j
  {
    var t := SplitFirst(s, p);
    var a := |t|;
    if j < a {
      if a < |s| {
        assert OccursAt(s, p, a) && s[a] == p[0];
        if a < j + |q| {
          InsideOccurrence(s, q, j, a);
          assert false;
        }
      }
      assert t[j..j + |q|] == s[j..j + |q|];
      assert OccursAt(t, q, j);
    }
  }

  /** Python `s.split(p)[0].split(q)[0]` is `s` up to the first occurrence of either
      pattern, when `q` has the first character of `p` only at its start. */
  lemma SplitTwiceCut(s: string, p: string, q: string)
    requires p != "" && q != "" && p[0] !in q[1..]
    ensures SplitFirst(SplitFirst(s, p), q) == s[..FirstOfEither(s, p, q)]
  {
    var t := SplitFirst(s, p);
    var c := SplitFirst(t, q);
    var a, k := |t|, |c|;
    assert t == s[..a] && c == s[..k];
    forall j | 0 <= j && OccursAt(s, q, j) ensures k <= j {
      SplitTwiceNoEarlier(s, p, q, j);
    }
    if k < |s| && k < a {
      assert OccursAt(t, q, k);
      assert t[k..k + |q|] == s[k..k + |q|];
    }
    FirstOfEitherUnique(s, p, q, k);
  }

  // ---------------------------------------------------------------------
  // Whitespace

  /** Python `str.isspace()` for one character. */
  predicate IsSpace(c: char) {
    c == ' ' || c == '\t' || c == '\n' || c == '\r' || c == '\U{000B}' || c == '\U{000C}'
    || ('\U{001C}' <= c <= '\U{001F}') || c == '\U{0085}' || c == '\U{00A0}' || c == '\U{1680}'
    || ('\U{2000}' <= c <= '\U{200A}') || c == '\U{2028}' || c == '\U{2029}' || c == '\U{202F}'
    || c == '\U{205F}' || c == '\U{3000}'
  }

  predicate AllSpace(s: string) {
    forall i :: 0 <= i < |s| ==> IsSpace(s[i])
  }

  /** Neither end of `s` is whitespace. */
  predicate Stripped(s: string) {
    s == [] || (!IsSpace(s[0]) && !IsSpace(s[|s| - 1]))
  }

  function LStrip(s: string): (r: string)
    ensures |r| <= |s| && r == s[|s| - |r|..]
    ensures r == [] || !IsSpace(r[0])
    ensures AllSpace(s[..|s| - |r|])
  {
    if s != [] && IsSpace(s[0]) then
      var r := LStrip(s[1..]);
      assert s[..|s| - |r|] == [s[0]] + s[1..][..|s| - 1 - |r|];
      r
    else s
  }

  function RStrip(s: string): (r: string)
    ensures |r| <= |s| && r == s[..|r|]
    ensures r == [] || !IsSpace(r[|r| - 1])
    ensures AllSpace(s[|r|..])
  {
    if s != [] && IsSpace(s[|s| - 1]) then
      var r := RStrip(s[..|s| - 1]);
      assert s[|r|..] == s[..|s| - 1][|r|..] + [s[|s| - 1]];
      r
    else s
  }

  /** Python `s.strip()`: `s` without leading and trailing whitespace. */
  function Strip(s: string): (r: string)
    ensures Stripped(r)
    ensures |r| <= |s|
  {
    RStrip(LStrip(s))
  }

  lemma {:induction false} LStripBlank(s: string)
    requires AllSpace(s)
    ensures LStrip(s) == []
  {
    if s != [] {
      LStripBlank(s[1..]);
    }
  }

  lemma StripEmptyIffBlank(s: string)
    ensures Strip(s) == "" <==> AllSpace(s)
  {
    if AllSpace(s) {
      LStripBlank(s);
      assert Strip(s) == RStrip([]);
    }
    if Strip(s) == "" {
      StripBlankOnly(s);
    }
  }

  /** Text with a non-blank character keeps something when stripped. */
  lemma StripBlankOnly(s: string)
    requires Strip(s) == ""
    ensures AllSpace(s)
  {
    var l := LStrip(s);
    assert RStrip(l) == [];
    assert AllSpace(l[0..]);
    assert l[0..] == l;
    assert l == [];
    assert s[..|s|] == s;
  }

  /** Python `s.rstrip(c)` for one character `c`. */
  function RStripChar(s: string, c: char): (r: string)
    ensures r <= s
    ensures r == [] || r[|r| - 1] != c
    ensures forall k :: |r| <= k < |s| ==> s[k] == c
  {
    if s != [] && s[|s| - 1] == c then RStripChar(s[..|s| - 1], c) else s
  }

  lemma {:induction false} RStripCharIdempotent(s: string, c: char)
    ensures RStripChar(RStripChar(s, c), c) == RStripChar(s, c)
  {
  }

  lemma {:induction false} RStripCharSuffix(s: string, c: char)
    ensures RStripChar(s + [c], c) == RStripChar(s, c)
  {
    assert (s + [c])[..|s|] == s;
  }

  // ---------------------------------------------------------------------
  // Case and digits

  function LowerChar(c: char): char {
    if 'A' <= c <= 'Z' then (c as int + 32) as char else c
  }

  /** Python `s.lower()` on ASCII letters. */
  function Lower(s: string): (r: string)
    ensures |r| == |s|
    ensures forall i :: 0 <= i < |s| ==> r[i] == LowerChar(s[i])
  {
    if s == [] then [] else [LowerChar(s[0])] + Lower(s[1..])
  }

  predicate IsDigit(c: char) {
    '0' <= c <= '9'
  }

  /** Python `s.isdigit()` on ASCII digits: non-empty and digits only. */
  predicate IsDigits(s: string) {
    |s| > 0 && forall i :: 0 <= i < |s| ==> IsDigit(s[i])
  }

  /** The value of a string of decimal digits. */
  function DigitsValue(s: string): (v: nat)
    requires forall i :: 0 <= i < |s| ==> IsDigit(s[i])
  {
    if s == [] then 0
    else
      assert IsDigit(s[|s| - 1]);
      DigitsValue(s[..|s| - 1]) * 10 + (s[|s| - 1] as int - '0' as int)
  }

  function DigitChar(d: nat): (c: char)
    requires d < 10
    ensures IsDigit(c) && c as int - '0' as int == d
  {
    ('0' as int + d) as char
  }

  /** Python `str(n)` for a natural number. */
  function NatToString(n: nat): (r: string)
    ensures IsDigits(r)
    ensures DigitsValue(r) == n
    ensures r[0] == '0' ==> r == "0"
  {
    if n < 10 then [DigitChar(n)]
    else
      var r := NatToString(n / 10) + [DigitChar(n % 10)];
      assert r[..|r| - 1] == NatToString(n / 10);
      r
  }

  /** Python `str(i)` for any integer. */
  function IntToString(i: int): (r: string)
    ensures r != ""
  {
    if i < 0 then "-" + NatToString(-i) else NatToString(i)
  }

  /** Python `int(s)` for optional surrounding whitespace, an optional sign and ASCII
      decimal digits; `None` where Python raises `ValueError`. */
  function ParseInt(s: string): (r: Option<int>)
    ensures r.Some? ==> Strip(s) != ""
  {
    ParseStripped(Strip(s))
  }

  /** `int` of text without surrounding whitespace. */
  function ParseStripped(t: string): (r: Option<int>)
    ensures r.Some? ==> t != ""
  {
    if t == "" then None
    else if (t[0] == '-' || t[0] == '+') && IsDigits(t[1..]) then
      var v: int := DigitsValue(t[1..]);
      Some(if t[0] == '-' then -v else v)
    else if IsDigits(t) then Some(DigitsValue(t))
    else None
  }

  lemma StripOfStripped(s: string)
    requires Stripped(s)
    ensures Strip(s) == s
  {
  }

  lemma DigitNotSpace(c: char)
    requires IsDigit(c)
    ensures !IsSpace(c)
  {
  }

  lemma ParseDigits(r: string)
    requires IsDigits(r)
    ensures ParseInt(r) == Some(DigitsValue(r))
  {
    DigitNotSpace(r[0]);
    DigitNotSpace(r[|r| - 1]);
    StripOfStripped(r);
    assert !(r[0] == '-' || r[0] == '+');
  }

  lemma ParseNegativeDigits(d: string)
    requires IsDigits(d)
    ensures ParseInt("-" + d) == Some(-(DigitsValue(d) as int))
  {
    var r := "-" + d;
    assert r[|r| - 1] == d[|d| - 1];
    DigitNotSpace(d[|d| - 1]);
    StripOfStripped(r);
    NegativeDigits(d);
  }

  lemma NegativeDigits(d: string)
    requires IsDigits(d)
    ensures ParseStripped("-" + d) == Some(-(DigitsValue(d) as int))
  {
    assert ("-" + d)[1..] == d;
  }

  /** `int(str(i)) == i`. */
  lemma ParseIntOfIntToString(i: int)
    ensures ParseInt(IntToString(i)) == Some(i)
  {
    if i < 0 {
      ParseNegativeDigits(NatToString(-i));
    } else {
      ParseDigits(NatToString(i));
    }
  }

  /** Python `sep.join(lines)`. */
  function Join(lines: seq<string>, sep: string): (r: string)
    ensures lines == [] ==> r == ""
    ensures |lines| == 1 ==> r == lines[0]
  {
    if lines == [] then ""
    else if |lines| == 1 then lines[0]
    else Join(lines[..|lines| - 1], sep) + sep + lines[|lines| - 1]
  }

  lemma JoinAppend(lines: seq<string>, sep: string, x: string)
    requires lines != []
    ensures Join(lines + [x], sep) == Join(lines, sep) + sep + x
  {
    assert (lines + [x])[..|lines|] == lines;
  }
}
