/** String helpers with the semantics of the JavaScript built-ins the application uses. */
module Strings {
  import opened Wrappers

  /** The WhiteSpace and LineTerminator code points that String.prototype.trim removes. */
  predicate IsJsWhitespace(c: char) {
    || c == '\t' || c == '\n' || c == '\U{B}' || c == '\U{C}' || c == '\r' || c == ' '
    || c == '\U{A0}' || c == '\U{1680}' || ('\U{2000}' <= c <= '\U{200A}')
    || c == '\U{2028}' || c == '\U{2029}' || c == '\U{202F}' || c == '\U{205F}'
    || c == '\U{3000}' || c == '\U{FEFF}'
  }

  predicate AllWhitespace(s: string) {
    forall i :: 0 <= i < |s| ==> IsJsWhitespace(s[i])
  }

  /** Drops leading whitespace: the result is a suffix of s and only whitespace was dropped. */
  function TrimStart(s: string): (r: string)
    ensures |r| <= |s| && r == s[|s| - |r|..]
    ensures AllWhitespace(s[..|s| - |r|])
    ensures r == [] || !IsJsWhitespace(r[0])
  {
    if s != [] && IsJsWhitespace(s[0]) then
      var r := TrimStart(s[1..]);
      DropFirst(s, r);
      r
    else
      s
  }

  /** One more whitespace character in front of what TrimStart dropped. */
  lemma DropFirst(s: string, r: string)
    requires s != [] && IsJsWhitespace(s[0])
    requires |r| <= |s| - 1 && r == s[1..][|s| - 1 - |r|..] && AllWhitespace(s[1..][..|s| - 1 - |r|])
    ensures r == s[|s| - |r|..] && AllWhitespace(s[..|s| - |r|])
  {
    var d := |s| - 1 - |r|;
    assert s[1..][d..] == s[d + 1..];
    assert s[..d + 1] == [s[0]] + s[1..][..d];
  }

  /** Drops trailing whitespace: the result is a prefix of s and only whitespace was dropped. */
  function TrimEnd(s: string): (r: string)
    ensures |r| <= |s| && r == s[..|r|]
    ensures AllWhitespace(s[|r|..])
    ensures r == [] || !IsJsWhitespace(r[|r| - 1])
  {
    if s != [] && IsJsWhitespace(s[|s| - 1]) then
      var r := TrimEnd(s[..|s| - 1]);
      DropLast(s, r);
      r
    else
      s
  }

  /** One more whitespace character after what TrimEnd dropped. */
  lemma DropLast(s: string, r: string)
    requires s != [] && IsJsWhitespace(s[|s| - 1])
    requires |r| <= |s| - 1 && r == s[..|s| - 1][..|r|] && AllWhitespace(s[..|s| - 1][|r|..])
    ensures r == s[..|r|] && AllWhitespace(s[|r|..])
  {
    assert s[..|s| - 1][..|r|] == s[..|r|];
    assert s[|r|..] == s[..|s| - 1][|r|..] + [s[|s| - 1]];
  }

  /** String.prototype.trim: the trimmed string sits at offset LeadingWhitespace(s) of s, and only
      whitespace lies before and after it. */
  function Trim(s: string): (r: string)
    ensures |r| <= |s|
    ensures r == [] || (!IsJsWhitespace(r[0]) && !IsJsWhitespace(r[|r| - 1]))
    ensures LeadingWhitespace(s) + |r| <= |s|
    ensures r == s[LeadingWhitespace(s)..LeadingWhitespace(s) + |r|]
    ensures AllWhitespace(s[..LeadingWhitespace(s)])
    ensures AllWhitespace(s[LeadingWhitespace(s) + |r|..])
  {
    var t := TrimStart(s);
    var r := TrimEnd(t);
    SliceOfSuffix(s, t, r, LeadingWhitespace(s));
    r
  }

  /** A prefix r of a suffix t of s, with only whitespace cut off either side. */
  lemma SliceOfSuffix(s: string, t: string, r: string, k: nat)
    requires |t| <= |s| && k == |s| - |t| && t == s[k..] && AllWhitespace(s[..k])
    requires |r| <= |t| && r == t[..|r|] && AllWhitespace(t[|r|..])
    requires t == [] || !IsJsWhitespace(t[0])
    ensures k + |r| <= |s| && r == s[k..k + |r|] && AllWhitespace(s[k + |r|..]) && (r == [] || r[0] == t[0])
  {
    assert s[k..k + |r|] == t[..|r|];
    assert s[k + |r|..] == t[|r|..];
  }

  /** How many characters TrimStart drops. */
  function LeadingWhitespace(s: string): (k: nat)
    ensures k <= |s|
  {
    |s| - |TrimStart(s)|
  }

  /** Leading whitespace never survives trimming, whatever follows it. */
  lemma {:induction false} TrimStartSkips(w: string, t: string)
    requires AllWhitespace(w)
    ensures TrimStart(w + t) == TrimStart(t)
  {
    if w != [] {
      assert IsJsWhitespace(w[0]);
      assert AllWhitespace(w[1..]) by {
        forall i | 0 <= i < |w[1..]| ensures IsJsWhitespace(w[1..][i]) {
          assert w[1..][i] == w[i + 1];
        }
      }
      assert (w + t)[0] == w[0];
      assert (w + t)[1..] == w[1..] + t;
      TrimStartSkips(w[1..], t);
    } else {
      assert w + t == t;
    }
  }

  /** A string with no whitespace at either end is its own trim. */
  lemma TrimNoOp(s: string)
    requires s == [] || (!IsJsWhitespace(s[0]) && !IsJsWhitespace(s[|s| - 1]))
    ensures Trim(s) == s
  {
  }

  /** Trimming is idempotent. */
  lemma TrimIdempotent(s: string)
    ensures Trim(Trim(s)) == Trim(s)
  {
    TrimNoOp(Trim(s));
  }

  function DigitChar(d: nat): (c: char)
    requires d < 10
    ensures '0' <= c <= '9'
  {
    ('0' as int + d) as char
  }

  /** The decimal notation of n, as a template literal prints it. */
  function NatToString(n: nat): (r: string)
    ensures |r| >= 1
    ensures forall i :: 0 <= i < |r| ==> '0' <= r[i] <= '9'
    ensures n >= 10 ==> |r| >= 2
  {
    if n < 10 then [DigitChar(n)] else NatToString(n / 10) + [DigitChar(n % 10)]
  }

  /** Distinct numbers print differently. */
  lemma {:induction false} NatToStringInjective(a: nat, b: nat)
    requires NatToString(a) == NatToString(b)
    ensures a == b
  {
    if a >= 10 && b >= 10 {
      var sa, sb := NatToString(a), NatToString(b);
      assert sa[|sa| - 1] == sb[|sb| - 1];
      assert a % 10 == b % 10;
      assert sa[..|sa| - 1] == NatToString(a / 10);
      assert sb[..|sb| - 1] == NatToString(b / 10);
      NatToStringInjective(a / 10, b / 10);
    }
  }

  /** The decimal notation of an integer, with a leading minus sign when negative. */
  function IntToString(i: int): (r: string)
    ensures |r| >= 1
    ensures i < 0 <==> r[0] == '-'
  {
    if i < 0 then "-" + NatToString(-i) else NatToString(i)
  }

  /** String.prototype.startsWith. */
  predicate StartsWith(s: string, prefix: string) {
    |prefix| <= |s| && s[..|prefix|] == prefix
  }

  /** String.prototype.includes. */
  predicate Contains(s: string, sub: string)
    decreases |s|
  {
    StartsWith(s, sub) || (s != [] && Contains(s[1..], sub))
  }

  lemma {:induction false} ContainsAt(s: string, sub: string, i: nat)
    requires i + |sub| <= |s| && s[i..i + |sub|] == sub
    ensures Contains(s, sub)
  {
    if i > 0 {
      assert s[1..][i - 1..i - 1 + |sub|] == s[i..i + |sub|];
      ContainsAt(s[1..], sub, i - 1);
    }
  }

  /** String.prototype.indexOf for a one-character needle. */
  function IndexOf(s: string, c: char): (r: Option<nat>)
    ensures r.None? <==> c !in s
    ensures r.Some? ==> r.value < |s| && s[r.value] == c && c !in s[..r.value]
  {
    if s == [] then None
    else if s[0] == c then Some(0)
    else match IndexOf(s[1..], c)
      case None => None
      case Some(i) =>
        assert s[..i + 1] == [s[0]] + s[1..][..i];
        Some(i + 1)
  }

  /** String.prototype.split with a one-character separator. */
  function Split(s: string, sep: char): (parts: seq<string>)
    ensures |parts| >= 1
    ensures forall k :: 0 <= k < |parts| ==> sep !in parts[k]
    decreases |s|
  {
    match IndexOf(s, sep)
    case None => [s]
    case Some(i) => [s[..i]] + Split(s[i + 1..], sep)
  }

  /** Array.prototype.join. */
  function Join(parts: seq<string>, sep: string): string {
    if |parts| == 0 then ""
    else if |parts| == 1 then parts[0]
    else parts[0] + sep + Join(parts[1..], sep)
  }

  /** Splitting on a character and joining with it again gives back the original string. */
  lemma {:induction false} SplitJoin(s: string, sep: char)
    ensures Join(Split(s, sep), [sep]) == s
    decreases |s|
  {
    match IndexOf(s, sep)
    case None =>
    case Some(i) =>
      var rest := Split(s[i + 1..], sep);
      SplitJoin(s[i + 1..], sep);
      assert Split(s, sep) == [s[..i]] + rest;
      assert s == s[..i] + [sep] + s[i + 1..];
  }

  /** The first piece of a split is the text before the first separator, and the later pieces
      joined back are the text after it. */
  lemma SplitFirst(s: string, sep: char)
    ensures IndexOf(s, sep).None? ==> Split(s, sep) == [s]
    ensures IndexOf(s, sep).Some? ==>
      var i := IndexOf(s, sep).value;
      Split(s, sep)[0] == s[..i] && Join(Split(s, sep)[1..], [sep]) == s[i + 1..]
  {
    if IndexOf(s, sep).Some? {
      var i := IndexOf(s, sep).value;
      SplitJoin(s[i + 1..], sep);
      assert Split(s, sep)[1..] == Split(s[i + 1..], sep);
    }
  }

  /** Number of occurrences of c in s. */
  function Count(s: string, c: char): nat {
    if s == [] then 0 else (if s[0] == c then 1 else 0) + Count(s[1..], c)
  }

  lemma {:induction false} CountSplit(s: string, a: string, b: string, c: char)
    requires s == a + b
    ensures Count(s, c) == Count(a, c) + Count(b, c)
  {
    if a != [] {
      assert s[0] == a[0];
      assert s[1..] == a[1..] + b;
      CountSplit(s[1..], a[1..], b, c);
    } else {
      assert s == b;
    }
  }

  lemma NoneCount(s: string, c: char)
    requires c !in s
    ensures Count(s, c) == 0
  {
  }

  /** Counting from the first occurrence of c. */
  lemma {:induction false} CountFirst(s: string, c: char, i: nat)
    requires i < |s| && s[i] == c && c !in s[..i]
    ensures Count(s, c) == 1 + Count(s[i + 1..], c)
  {
    if i > 0 {
      assert s[0] == s[..i][0];
      assert s[1..][..i - 1] == s[1..i];
      assert s[1..][i - 1..] == s[i..];
      assert s[1..][i - 1 + 1..] == s[i + 1..];
      CountFirst(s[1..], c, i - 1);
    }
  }

  /** A split has exactly one more piece than the string has separators. */
  lemma {:induction false} SplitLength(s: string, sep: char)
    ensures |Split(s, sep)| == Count(s, sep) + 1
    decreases |s|
  {
    match IndexOf(s, sep)
    case None => NoneCount(s, sep);
    case Some(i) =>
      SplitLength(s[i + 1..], sep);
      CountFirst(s, sep, i);
  }
}
