/** The sanitiser applied to the AI's alternate layout before parsing it:
    `text.replace(/```json|```/g, '').trim()`. The global regular expression
    is matched leftmost first, trying "```json" before "```" at each
    position and resuming after each match; `trim` removes ECMAScript white
    space and line terminators from both ends. */
module Fences {
  const Fence: string := "```"
  const JsonFence: string := "```json"

  /** Three backticks start at position `i`. */
  predicate FenceAt(s: string, i: nat) {
    i + 3 <= |s| && s[i] == '`' && s[i + 1] == '`' && s[i + 2] == '`'
  }

  /** "```json" starts the text. */
  predicate OpensJsonFence(s: string) {
    FenceAt(s, 0) && |s| >= 7 && s[3] == 'j' && s[4] == 's' && s[5] == 'o' && s[6] == 'n'
  }

  /** Two backticks start the text. */
  predicate OpensTwoBackticks(s: string) {
    |s| >= 2 && s[0] == '`' && s[1] == '`'
  }

  /** `replace(/```json|```/g, '')` */
  function StripFences(s: string): (r: string)
    ensures |r| <= |s|
    ensures forall c :: c in r ==> c in s
    decreases |s|
  {
    if |s| == 0 then []
    else if OpensJsonFence(s) then StripFences(s[|JsonFence|..])
    else if FenceAt(s, 0) then StripFences(s[|Fence|..])
    else [s[0]] + StripFences(s[1..])
  }

  /** ECMAScript WhiteSpace and LineTerminator code points. */
  predicate IsJsSpace(c: char) {
    c == '\t' || c == '\n' || c == '\U{000B}' || c == '\U{000C}' || c == '\r' || c == ' '
    || c == '\U{00A0}' || c == '\U{1680}' || ('\U{2000}' <= c <= '\U{200A}')
    || c == '\U{2028}' || c == '\U{2029}' || c == '\U{202F}' || c == '\U{205F}'
    || c == '\U{3000}' || c == '\U{FEFF}'
  }

  function TrimStart(s: string): string {
    if |s| > 0 && IsJsSpace(s[0]) then TrimStart(s[1..]) else s
  }

  function TrimEnd(s: string): string {
    if |s| > 0 && IsJsSpace(s[|s| - 1]) then TrimEnd(s[..|s| - 1]) else s
  }

  /** `trim()` */
  function Trim(s: string): (r: string)
    ensures |r| <= |s|
  {
    TrimStartSuffix(s);
    TrimEndPrefix(TrimStart(s));
    TrimEnd(TrimStart(s))
  }

  /** `optimal_layout.replace(/```json|```/g, '').trim()` */
  function Sanitize(s: string): (r: string)
    ensures |r| <= |s|
  {
    Trim(StripFences(s))
  }

  /** No three consecutive backticks. */
  predicate NoFence(s: string) {
    forall i :: 0 <= i < |s| ==> !FenceAt(s, i)
  }

  /** Trimmed: no white space at either end. */
  predicate Trimmed(s: string) {
    |s| == 0 || (!IsJsSpace(s[0]) && !IsJsSpace(s[|s| - 1]))
  }

  /*** Stripping ***/

  /** No fence survives stripping, and a text that does not open with two
      backticks does not after stripping either: a kept backtick is never
      followed by a removed fence, so removals do not join backticks into a
      new fence. */
  lemma {:induction false} StripLeavesNoFence(s: string)
    ensures NoFence(StripFences(s))
    ensures !OpensTwoBackticks(s) ==> !OpensTwoBackticks(StripFences(s))
    decreases |s|
  {
    if |s| == 0 {
    } else if OpensJsonFence(s) {
      StripLeavesNoFence(s[|JsonFence|..]);
    } else if FenceAt(s, 0) {
      StripLeavesNoFence(s[|Fence|..]);
    } else {
      var rest := StripFences(s[1..]);
      StripLeavesNoFence(s[1..]);
      var r := StripFences(s);
      assert r == [s[0]] + rest;
      forall i | 0 <= i < |r| ensures !FenceAt(r, i) {
        if i > 0 {
          assert !FenceAt(rest, i - 1);
          assert r[i] == rest[i - 1];
        }
      }
      if !OpensTwoBackticks(s) && s[0] == '`' && |s| > 1 {
        assert s[1..][0] != '`';
        assert rest[0] == s[1];
      }
    }
  }

  /** A text without a fence is left as it is. */
  lemma {:induction false} StripWithoutFence(s: string)
    requires NoFence(s)
    ensures StripFences(s) == s
    decreases |s|
  {
    if |s| > 0 {
      assert !FenceAt(s, 0);
      assert NoFence(s[1..]) by {
        forall i | 0 <= i < |s[1..]| ensures !FenceAt(s[1..], i) {
          assert !FenceAt(s, i + 1);
        }
      }
      StripWithoutFence(s[1..]);
    }
  }

  /** Stripping a backtick-free head keeps it and goes on with the rest. */
  lemma {:induction false} StripPlainHead(a: string, b: string)
    requires '`' !in a
    ensures StripFences(a + b) == a + StripFences(b)
    decreases |a|
  {
    if |a| > 0 {
      assert (a + b)[0] == a[0] && (a + b)[1..] == a[1..] + b;
      assert !FenceAt(a + b, 0);
      assert '`' !in a[1..];
      StripPlainHead(a[1..], b);
    } else {
      assert a + b == b;
    }
  }

  /*** Trimming ***/

  lemma {:induction false} TrimStartSuffix(s: string)
    ensures |TrimStart(s)| <= |s|
    ensures TrimStart(s) == s[|s| - |TrimStart(s)|..]
    ensures |TrimStart(s)| == 0 || !IsJsSpace(TrimStart(s)[0])
    decreases |s|
  {
    if |s| > 0 && IsJsSpace(s[0]) {
      TrimStartSuffix(s[1..]);
    }
  }

  lemma {:induction false} TrimEndPrefix(s: string)
    ensures |TrimEnd(s)| <= |s|
    ensures TrimEnd(s) == s[..|TrimEnd(s)|]
    ensures |TrimEnd(s)| == 0 || !IsJsSpace(TrimEnd(s)[|TrimEnd(s)| - 1])
    decreases |s|
  {
    if |s| > 0 && IsJsSpace(s[|s| - 1]) {
      TrimEndPrefix(s[..|s| - 1]);
    }
  }

  /** `trim` returns a piece of its input with no white space at either end. */
  lemma TrimSlice(s: string)
    ensures exists a, b :: 0 <= a <= b <= |s| && Trim(s) == s[a..b]
    ensures Trimmed(Trim(s))
  {
    TrimStartSuffix(s);
    var t := TrimStart(s);
    TrimEndPrefix(t);
    var a := |s| - |t|;
    assert Trim(s) == s[a..a + |TrimEnd(t)|];
    if |TrimEnd(t)| > 0 {
      assert TrimEnd(t)[0] == t[0];
    }
  }

  /** Trimming a trimmed text changes nothing. */
  lemma TrimTrimmed(s: string)
    requires Trimmed(s)
    ensures Trim(s) == s
  {
  }

  /** White space appended at the end does not survive `trim`. */
  lemma {:induction false} TrimDropsTrailing(s: string, c: char)
    requires IsJsSpace(c)
    ensures Trim(s + [c]) == Trim(s)
    decreases |s|
  {
    if |s| == 0 {
      assert TrimStart([c]) == TrimStart([]);
    } else if IsJsSpace(s[0]) {
      assert (s + [c])[1..] == s[1..] + [c];
      TrimDropsTrailing(s[1..], c);
    } else {
      assert (s + [c])[..|s|] == s;
    }
  }

  /** A slice of a text without a fence has none either. */
  lemma NoFenceSlice(s: string, a: nat, b: nat)
    requires a <= b <= |s| && NoFence(s)
    ensures NoFence(s[a..b])
  {
    forall i | 0 <= i < |s[a..b]| ensures !FenceAt(s[a..b], i) {
      assert !FenceAt(s, a + i);
    }
  }

  /*** The sanitiser ***/

  /** The sanitised text has no fence and no white space at either end. */
  lemma SanitizedShape(s: string)
    ensures NoFence(Sanitize(s))
    ensures Trimmed(Sanitize(s))
  {
    StripLeavesNoFence(s);
    TrimSlice(StripFences(s));
    var a, b :| 0 <= a <= b <= |StripFences(s)| && Sanitize(s) == StripFences(s)[a..b];
    NoFenceSlice(StripFences(s), a, b);
  }

  /** Sanitising twice is sanitising once. */
  lemma SanitizeIdempotent(s: string)
    ensures Sanitize(Sanitize(s)) == Sanitize(s)
  {
    SanitizedShape(s);
    StripWithoutFence(Sanitize(s));
    TrimTrimmed(Sanitize(s));
  }

  /** A text without backticks is only trimmed. */
  lemma SanitizeNoBackticks(s: string)
    requires '`' !in s
    ensures Sanitize(s) == Trim(s)
  {
    StripPlainHead(s, []);
    assert s + [] == s;
  }

  /** A fenced payload "```json\n<body>\n```" sanitises to the same text as
      its body, when the body has no backticks. */
  lemma SanitizeFenced(body: string)
    requires '`' !in body
    ensures Sanitize(JsonFence + "\n" + body + "\n" + Fence) == Sanitize(body)
  {
    var s := JsonFence + "\n" + body + "\n" + Fence;
    var inner := "\n" + body + "\n";
    assert s == JsonFence + (inner + Fence);
    assert OpensJsonFence(s);
    assert s[|JsonFence|..] == inner + Fence;
    assert '`' !in inner;
    StripPlainHead(inner, Fence);
    assert StripFences(Fence) == StripFences([]);
    assert StripFences(s) == inner + [] == inner;
    assert inner == ("\n" + body) + ['\n'];
    TrimDropsTrailing("\n" + body, '\n');
    assert ("\n" + body)[1..] == body;
    assert TrimStart("\n" + body) == TrimStart(body);
    assert Sanitize(s) == Trim(body);
    SanitizeNoBackticks(body);
  }
}
