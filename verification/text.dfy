/** The string operations of the Rust standard library that the modelled code relies on. A string
    is a sequence of Unicode scalar values. */
module Text {
  import opened Wrappers

  // ---- letter case ----

  function LowerChar(c: char): char {
    if 'A' <= c <= 'Z' then ((c as int) + 32) as char else c
  }

  /** `to_ascii_lowercase` */
  function Lower(s: string): (r: string)
    ensures |r| == |s| && forall i :: 0 <= i < |s| ==> r[i] == LowerChar(s[i])
  {
    seq(|s|, i requires 0 <= i < |s| => LowerChar(s[i]))
  }

  lemma LowerConcat(s: string, t: string)
    ensures Lower(s + t) == Lower(s) + Lower(t)
  {
  }

  // ---- searching ----

  predicate OccursAt(s: string, pattern: string, i: int) {
    0 <= i && i + |pattern| <= |s| && s[i..i + |pattern|] == pattern
  }

  predicate Contains(s: string, pattern: string) {
    exists i :: 0 <= i <= |s| && OccursAt(s, pattern, i)
  }

  /** `find`: the first occurrence at or after `from`. */
  function FindFrom(s: string, pattern: string, from: nat): (r: Option<nat>)
    requires from <= |s|
    ensures r.Some? ==> from <= r.value && OccursAt(s, pattern, r.value)
    ensures r.Some? ==> forall i :: from <= i < r.value ==> !OccursAt(s, pattern, i)
    ensures r.None? ==> forall i :: from <= i ==> !OccursAt(s, pattern, i)
    decreases |s| - from
  {
    if OccursAt(s, pattern, from) then Some(from)
    else if from == |s| then None
    else FindFrom(s, pattern, from + 1)
  }

  /** `replace(pattern, "")`: removes the occurrences met from left to right. */
  function RemoveAll(s: string, pattern: string): string
    requires |pattern| > 0
    decreases |s|
  {
    if |s| < |pattern| then s
    else if pattern <= s then RemoveAll(s[|pattern|..], pattern)
    else [s[0]] + RemoveAll(s[1..], pattern)
  }

  // ---- white space ----

  /** The Unicode `White_Space` property. */
  predicate IsWhitespace(c: char) {
    || '\t' <= c <= '\r' || c == ' ' || c == '\U{0085}' || c == '\U{00A0}' || c == '\U{1680}'
    || '\U{2000}' <= c <= '\U{200A}' || c == '\U{2028}' || c == '\U{2029}' || c == '\U{202F}'
    || c == '\U{205F}' || c == '\U{3000}'
  }

  predicate IsBlank(s: string) {
    forall i :: 0 <= i < |s| ==> IsWhitespace(s[i])
  }

  lemma BlankConcat(s: string, t: string)
    ensures IsBlank(s + t) <==> IsBlank(s) && IsBlank(t)
  {
    hide IsWhitespace;
    if IsBlank(s + t) {
      assert forall i :: 0 <= i < |s| ==> s[i] == (s + t)[i];
      assert forall i :: 0 <= i < |t| ==> t[i] == (s + t)[|s| + i];
    }
  }

  function TrimStart(s: string): (r: string)
    ensures |r| <= |s| && (r != "" ==> !IsWhitespace(r[0]))
    ensures forall c | c in r :: c in s
  {
    if s == "" || !IsWhitespace(s[0]) then s else TrimStart(s[1..])
  }

  lemma {:induction false} TrimStartIs(s: string)
    ensures IsBlank(s[..|s| - |TrimStart(s)|]) && s == s[..|s| - |TrimStart(s)|] + TrimStart(s)
  {
    hide IsWhitespace;
    if s != "" && IsWhitespace(s[0]) {
      TrimStartIs(s[1..]);
      var n := |s| - |TrimStart(s)|;
      assert s[..n] == [s[0]] + s[1..][..n - 1];
    }
  }

  lemma TrimStartOfBlank(s: string)
    ensures TrimStart(s) == "" <==> IsBlank(s)
  {
    hide IsWhitespace;
    TrimStartIs(s);
    BlankConcat(s[..|s| - |TrimStart(s)|], TrimStart(s));
  }

  function TrimEnd(s: string): (r: string)
    ensures |r| <= |s| && s[..|r|] == r && IsBlank(s[|r|..])
    ensures r != "" ==> !IsWhitespace(r[|r| - 1])
  {
    hide IsWhitespace;
    if s == "" || !IsWhitespace(s[|s| - 1]) then s
    else
      var n := |s| - 1;
      var r := TrimEnd(s[..n]);
      assert s[|r|..] == s[..n][|r|..] + [s[n]];
      r
  }

  lemma TrimEndOfBlank(s: string)
    ensures TrimEnd(s) == "" <==> IsBlank(s)
  {
    hide IsWhitespace;
    var r := TrimEnd(s);
    if r == "" {
      assert s[|r|..] == s;
    } else {
      assert s[|r| - 1] == r[|r| - 1];
    }
  }

  /** `trim` */
  function Trim(s: string): (r: string)
    ensures r != "" ==> !IsWhitespace(r[0]) && !IsWhitespace(r[|r| - 1])
    ensures r == "" <==> IsBlank(s)
    ensures forall c | c in r :: c in s
  {
    var start := TrimStart(s);
    TrimStartOfBlank(s);
    TrimStartOfBlank(start);
    TrimEndOfBlank(start);
    hide IsWhitespace, IsBlank, TrimStart;
    TrimEnd(start)
  }

  predicate IsTrimmed(s: string) {
    s != "" ==> !IsWhitespace(s[0]) && !IsWhitespace(s[|s| - 1])
  }

  lemma TrimOfTrimmed(s: string)
    requires IsTrimmed(s)
    ensures Trim(s) == s
  {
  }

  lemma {:induction false} TrimStartAfter(blank: string, s: string)
    requires IsBlank(blank)
    ensures TrimStart(blank + s) == TrimStart(s)
  {
    hide IsWhitespace;
    if blank == "" {
      assert blank + s == s;
    } else {
      TrimStartAfter(blank[1..], s);
      assert (blank + s)[1..] == blank[1..] + s;
    }
  }

  lemma {:induction false} TrimEndBefore(s: string, blank: string)
    requires IsBlank(blank)
    ensures TrimEnd(s + blank) == TrimEnd(s)
    decreases |blank|
  {
    hide IsWhitespace;
    if blank == "" {
      assert s + blank == s;
    } else {
      var n := |blank| - 1;
      TrimEndBefore(s, blank[..n]);
      assert (s + blank)[..|s + blank| - 1] == s + blank[..n];
    }
  }

  lemma {:induction false} TrimStartGoesOn(s: string, t: string)
    requires TrimStart(s) != ""
    ensures TrimStart(s + t) == TrimStart(s) + t
  {
    hide IsWhitespace, IsBlank;
    if IsWhitespace(s[0]) {
      TrimStartGoesOn(s[1..], t);
      assert (s + t)[1..] == s[1..] + t;
    }
  }

  /** White space around a string does not change its trimmed form. */
  lemma TrimOfPadded(before: string, s: string, after: string)
    requires IsBlank(before) && IsBlank(after)
    ensures Trim(before + s + after) == Trim(s)
  {
    hide IsWhitespace, IsBlank, TrimStart;
    assert before + s + after == before + (s + after);
    TrimStartAfter(before, s + after);
    if IsBlank(s) {
      BlankConcat(before, s);
      BlankConcat(before + s, after);
    } else {
      TrimStartOfBlank(s);
      TrimStartGoesOn(s, after);
      TrimEndBefore(TrimStart(s), after);
    }
  }

  /** What trimming takes away. */
  lemma TrimParts(s: string) returns (before: string, after: string)
    ensures s == before + Trim(s) + after && IsBlank(before) && IsBlank(after)
  {
    hide IsWhitespace, IsBlank, TrimStart, TrimEnd;
    TrimStartIs(s);
    var start := TrimStart(s);
    before := s[..|s| - |start|];
    after := start[|Trim(s)|..];
  }

  lemma LowerKeepsWhitespace(s: string)
    ensures forall i :: 0 <= i < |s| ==> (IsWhitespace(Lower(s)[i]) <==> IsWhitespace(s[i]))
  {
  }

  lemma {:induction false} LowerOfTrimStart(s: string)
    ensures Lower(TrimStart(s)) == TrimStart(Lower(s))
  {
    LowerKeepsWhitespace(s);
    hide IsWhitespace, LowerChar;
    if s != "" && IsWhitespace(s[0]) {
      LowerOfTrimStart(s[1..]);
      assert Lower(s)[1..] == Lower(s[1..]);
    }
  }

  lemma {:induction false} LowerOfTrimEnd(s: string)
    ensures Lower(TrimEnd(s)) == TrimEnd(Lower(s))
    decreases |s|
  {
    LowerKeepsWhitespace(s);
    hide IsWhitespace, LowerChar;
    var n := |s| - 1;
    if s != "" && IsWhitespace(s[n]) {
      LowerOfTrimEnd(s[..n]);
      assert Lower(s)[..n] == Lower(s[..n]);
    }
  }

  lemma LowerOfTrim(s: string)
    ensures Lower(Trim(s)) == Trim(Lower(s))
  {
    LowerOfTrimStart(s);
    LowerOfTrimEnd(TrimStart(s));
  }

  // ---- lines ----

  function LineEnd(s: string): (n: nat)
    ensures n <= |s| && '\n' !in s[..n] && (n < |s| ==> s[n] == '\n')
  {
    if s == "" || s[0] == '\n' then 0
    else
      var n := 1 + LineEnd(s[1..]);
      assert s[..n] == [s[0]] + s[1..][..n - 1];
      n
  }

  function WithoutReturn(line: string): string {
    if line != "" && line[|line| - 1] == '\r' then line[..|line| - 1] else line
  }

  /** `lines` */
  function Lines(s: string): seq<string>
    decreases |s|
  {
    if s == "" then []
    else
      var n := LineEnd(s);
      if n == |s| then [s] else [WithoutReturn(s[..n])] + Lines(s[n + 1..])
  }

  lemma {:induction false} LineEndIs(line: string, rest: string)
    requires '\n' !in line
    ensures LineEnd(line + "\n" + rest) == |line|
  {
    if line != "" {
      assert line[0] in line;
      LineEndIs(line[1..], rest);
      assert (line + "\n" + rest)[1..] == line[1..] + "\n" + rest;
    }
  }

  lemma FirstLine(line: string, rest: string)
    requires '\n' !in line
    ensures Lines(line + "\n" + rest) == [WithoutReturn(line)] + Lines(rest)
  {
    var s := line + "\n" + rest;
    LineEndIs(line, rest);
    assert s[..|line|] == line && s[|line| + 1..] == rest;
  }

  // ---- tags ----

  /** What stands between the first opening tag and the next closing one, trimmed. */
  function ExtractTag(text: string, tag: string): Option<string> {
    var open, close := "<" + tag + ">", "</" + tag + ">";
    match FindFrom(text, open, 0)
    case None => None
    case Some(i) =>
      match FindFrom(text, close, i + |open|)
      case None => None
      case Some(j) => Some(Trim(text[i + |open|..j]))
  }

  /** It is found exactly if a closing tag comes somewhere after an opening one. */
  lemma TagIsFoundExactly(text: string, tag: string)
    ensures var open, close := "<" + tag + ">", "</" + tag + ">";
      ExtractTag(text, tag).Some? <==> exists i, j :: i + |open| <= j && OccursAt(text, open, i) && OccursAt(text, close, j)
  {
    hide FindFrom, Trim;
    var open, close := "<" + tag + ">", "</" + tag + ">";
    var first := FindFrom(text, open, 0);
    if i, j :| i + |open| <= j && OccursAt(text, open, i) && OccursAt(text, close, j) {
      assert first.Some? && first.value <= i;
    }
  }

  function Tagged(tag: string, body: string): string {
    "<" + tag + ">" + body + "</" + tag + ">"
  }

  /** Where the body ends for a reader of the tag: at the first closing tag. */
  function BodyEnd(tag: string, body: string): (n: nat)
    ensures n <= |body|
  {
    match FindFrom(body, "</" + tag + ">", 0)
    case Some(n) => n
    case None => |body|
  }

  /** A reader gets the body up to the first closing tag in it. */
  lemma TaggedIsRead(tag: string, body: string)
    requires '<' !in tag
    ensures ExtractTag(Tagged(tag, body), tag) == Some(Trim(body[..BodyEnd(tag, body)]))
  {
    hide Trim, FindFrom;
    var text, open, close := Tagged(tag, body), "<" + tag + ">", "</" + tag + ">";
    var n := BodyEnd(tag, body);
    assert text == open + body + close;
    hide Tagged;
    assert OccursAt(text, open, 0);
    forall k | |open| <= k < |open| + n ensures !OccursAt(text, close, k) {
      CloseInBody(tag, open, body, k);
    }
    ClosesAtEnd(tag, open, body);
    assert text[|open|..|open| + n] == body[..n];
    FindFromIs(text, close, |open|, |open| + n);
  }

  lemma FindFromIs(s: string, pattern: string, from: nat, n: nat)
    requires from <= n <= |s| && OccursAt(s, pattern, n) && forall i :: from <= i < n ==> !OccursAt(s, pattern, i)
    ensures FindFrom(s, pattern, from) == Some(n)
  {
  }

  lemma ClosesAtEnd(tag: string, open: string, body: string)
    ensures OccursAt(open + body + ("</" + tag + ">"), "</" + tag + ">", |open| + BodyEnd(tag, body))
  {
    hide FindFrom;
    var close := "</" + tag + ">";
    var text, n := open + body + close, BodyEnd(tag, body);
    if n < |body| || OccursAt(body, close, n) {
      assert text[|open| + n..|open| + n + |close|] == body[n..n + |close|];
    } else {
      assert text[|open| + n..|open| + n + |close|] == close;
    }
  }

  lemma OnlyOneAngle(tag: string, k: nat)
    requires '<' !in tag && 1 <= k < |tag| + 3
    ensures ("</" + tag + ">")[k] != '<'
  {
    assert ("</" + tag + ">")[k] == if k == 1 then '/' else if k < 2 + |tag| then tag[k - 2] else '>';
  }

  /** No closing tag begins in the body and ends after it. */
  lemma CloseInBody(tag: string, open: string, body: string, k: nat)
    requires '<' !in tag && |open| <= k < |open| + |body|
    ensures OccursAt(open + body + ("</" + tag + ">"), "</" + tag + ">", k) ==> OccursAt(body, "</" + tag + ">", k - |open|)
  {
    var close := "</" + tag + ">";
    var text, i := open + body + close, k - |open|;
    if OccursAt(text, close, k) {
      var found := text[k..k + |close|];
      if i + |close| <= |body| {
        assert found == body[i..i + |close|];
      } else {
        assert false by {
          assert found[|body| - i] == text[|open| + |body|];
          OnlyOneAngle(tag, |body| - i);
        }
      }
    }
  }

  lemma TaggedBody(tag: string, body: string)
    requires '<' !in body && '<' !in tag
    ensures ExtractTag(Tagged(tag, body), tag) == Some(Trim(body))
  {
    hide Trim, FindFrom, ExtractTag;
    TaggedIsRead(tag, body);
    var close := "</" + tag + ">";
    forall i | 0 <= i < |body| ensures !OccursAt(body, close, i) {
      StartsLike(body, close, i);
    }
    assert body[..|body|] == body;
  }

  lemma StartsLike(text: string, pattern: string, i: nat)
    requires pattern != "" && i < |text|
    ensures OccursAt(text, pattern, i) ==> text[i] == pattern[0]
    ensures OccursAt(text, pattern, i) && |pattern| > 1 ==> i + 1 < |text| && text[i + 1] == pattern[1]
  {
    if OccursAt(text, pattern, i) {
      assert text[i..i + |pattern|][0] == text[i];
      assert |pattern| > 1 ==> text[i..i + |pattern|][1] == text[i + 1];
    }
  }

  lemma NoOtherTag(tag: string, body: string, other: string)
    requires '<' !in body && '<' !in tag && tag != "" && other != "" && other[0] != tag[0] && other[0] != '/'
    ensures ExtractTag(Tagged(tag, body), other).None?
  {
    hide Trim, FindFrom;
    var text, open := Tagged(tag, body), "<" + other + ">";
    forall i | 0 <= i ensures !OccursAt(text, open, i) {
      if i < |text| {
        StartsLike(text, open, i);
        if i + 1 < |text| {
          OnlyTwoAngles(tag, body, i);
        }
      }
    }
  }

  lemma OnlyTwoAngles(tag: string, body: string, i: nat)
    requires '<' !in body && '<' !in tag && tag != "" && i + 1 < |Tagged(tag, body)|
    ensures Tagged(tag, body)[i] == '<' ==> Tagged(tag, body)[i + 1] == tag[0] || Tagged(tag, body)[i + 1] == '/'
  {
    var text := Tagged(tag, body);
    var end := 2 + |tag| + |body|;
    assert 1 <= i < 1 + |tag| ==> text[i] == tag[i - 1];
    assert 2 + |tag| <= i < end ==> text[i] == body[i - 2 - |tag|];
    assert end + 2 <= i < end + 2 + |tag| ==> text[i] == tag[i - end - 2];
  }
}
