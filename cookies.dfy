/** parseCookieHeader (src/db/supabase.client.ts): the Cookie request header read loosely, in the
    manner of section 4.2.1 of RFC 6265: pairs separated by ";", a name up to the first "=". */
module Cookies {
  import opened Wrappers
  import opened Strings

  datatype Cookie = Cookie(name: string, value: string)

  /** One segment: `cookie.trim().split("=")`, the first piece as the name, the others joined
      back with "=" as the value. */
  function ParseSegment(segment: string): (c: Cookie)
    ensures IndexOf(Trim(segment), '=').None? ==> c == Cookie(Trim(segment), "")
    ensures IndexOf(Trim(segment), '=').Some? ==>
              var t, i := Trim(segment), IndexOf(Trim(segment), '=').value;
              c.name == t[..i] && c.value == t[i + 1..]
  {
    var pieces := Split(Trim(segment), '=');
    SplitFirst(Trim(segment), '=');
    Cookie(pieces[0], Join(pieces[1..], "="))
  }

  function ParseCookieHeader(header: string): (cs: seq<Cookie>)
    ensures |cs| == |Split(header, ';')|
    ensures forall k :: 0 <= k < |cs| ==> cs[k] == ParseSegment(Split(header, ';')[k])
  {
    var segments := Split(header, ';');
    seq(|segments|, k requires 0 <= k < |segments| => ParseSegment(segments[k]))
  }

  /** One entry per segment: one more than the header has semicolons. */
  lemma EntryCount(header: string)
    ensures |ParseCookieHeader(header)| == Count(header, ';') + 1
  {
    SplitLength(header, ';');
  }

  /** A segment with "=" is restored by joining its name and value with "=". */
  lemma SegmentRestored(segment: string)
    requires '=' in Trim(segment)
    ensures var c := ParseSegment(segment); c.name + "=" + c.value == Trim(segment)
  {
    var t := Trim(segment);
    var i := IndexOf(t, '=').value;
    var c := ParseSegment(segment);
    assert c.name == t[..i] && c.value == t[i + 1..];
    JoinAround(t, i);
  }

  lemma JoinAround(t: string, i: nat)
    requires i < |t| && t[i] == '='
    ensures t[..i] + "=" + t[i + 1..] == t
  {
    assert t == t[..i] + [t[i]] + t[i + 1..];
  }

  /** The name never contains "=", while the value keeps every later "=". */
  lemma NameStopsAtFirstEquals(segment: string)
    ensures '=' !in ParseSegment(segment).name
  {
  }

  /** The empty header yields one entry with an empty name and value. */
  lemma EmptyHeader()
    ensures ParseCookieHeader("") == [Cookie("", "")]
  {
    assert Split("", ';') == [""];
    assert Trim("") == "";
    assert Split("", '=') == [""];
  }

  /** Whitespace is trimmed around the segment, not around "=". */
  lemma SpacesAroundEquals(segment: string)
    requires segment == " a = b "
    ensures ParseSegment(segment) == Cookie("a ", " b")
  {
    TrimmedExample();
    ParsedExample(segment);
    ExampleCookie(ParseSegment(segment));
  }

  lemma ParsedExample(segment: string)
    requires Trim(segment) == "a = b"
    ensures ParseSegment(segment) == Cookie("a = b"[..2], "a = b"[3..])
  {
    EqualsAtTwo();
    ParsedAt(segment, "a = b", 2);
  }

  lemma ExampleCookie(c: Cookie)
    requires c == Cookie("a = b"[..2], "a = b"[3..])
    ensures c == Cookie("a ", " b")
  {
    assert "a = b"[..2] == "a " && "a = b"[3..] == " b";
  }

  lemma TrimmedExample()
    ensures Trim(" a = b ") == "a = b"
  {
    assert " a = b " == " " + "a = b" + " ";
    TrimPadded("a = b");
  }

  lemma ParsedAt(segment: string, t: string, i: nat)
    requires Trim(segment) == t && IndexOf(t, '=') == Some(i)
    ensures ParseSegment(segment) == Cookie(t[..i], t[i + 1..])
  {
  }

  lemma EqualsAtTwo()
    ensures IndexOf("a = b", '=') == Some(2)
  {
    var t := "a = b";
    assert t[1..][1..] == t[2..];
    assert IndexOf(t[2..], '=') == Some(0);
    assert IndexOf(t[1..], '=') == Some(1);
  }

  lemma TrimPadded(t: string)
    requires t != [] && !IsJsWhitespace(t[0]) && !IsJsWhitespace(t[|t| - 1])
    ensures Trim(" " + t + " ") == t
  {
    assert " " + t + " " == " " + (t + " ");
    TrimStartSkips(" ", t + " ");
    assert TrimStart(t + " ") == t + " ";
    assert (t + " ")[..|t + " "| - 1] == t;
    assert TrimEnd(t) == t;
  }
}
