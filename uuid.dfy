/** The textual UUID form of RFC 4122 section 3: 32 hexadecimal digits in groups 8-4-4-4-12
    separated by hyphens, either letter case. */
module Uuid {
  predicate IsHexDigit(c: char) {
    ('0' <= c <= '9') || ('a' <= c <= 'f') || ('A' <= c <= 'F')
  }

  predicate IsHyphenPosition(i: int) {
    i == 8 || i == 13 || i == 18 || i == 23
  }

  predicate IsUuid(s: string) {
    |s| == 36 && forall i :: 0 <= i < 36 ==> if IsHyphenPosition(i) then s[i] == '-' else IsHexDigit(s[i])
  }

  predicate AllHex(g: string) {
    forall i :: 0 <= i < |g| ==> IsHexDigit(g[i])
  }

  /** The five groups joined by hyphens. */
  function Joined(a: string, b: string, c: string, d: string, e: string): string {
    a + "-" + b + "-" + c + "-" + d + "-" + e
  }

  /** A UUID is exactly five hexadecimal groups of 8, 4, 4, 4 and 12 digits joined by hyphens. */
  lemma UuidGroups(s: string)
    requires IsUuid(s)
    ensures s == Joined(s[..8], s[9..13], s[14..18], s[19..23], s[24..])
    ensures AllHex(s[..8]) && AllHex(s[9..13]) && AllHex(s[14..18]) && AllHex(s[19..23]) && AllHex(s[24..])
  {
    var j := Joined(s[..8], s[9..13], s[14..18], s[19..23], s[24..]);
    assert |j| == 36;
    forall i | 0 <= i < 36 ensures j[i] == s[i] {
      if IsHyphenPosition(i) {
        assert s[i] == '-';
      }
    }
  }

  /** Conversely, five hexadecimal groups of those lengths joined by hyphens form a UUID, and the
      groups can be read back from their positions. */
  lemma JoinedIsUuid(a: string, b: string, c: string, d: string, e: string)
    requires |a| == 8 && |b| == 4 && |c| == 4 && |d| == 4 && |e| == 12
    requires AllHex(a) && AllHex(b) && AllHex(c) && AllHex(d) && AllHex(e)
    ensures var s := Joined(a, b, c, d, e);
      IsUuid(s) && s[..8] == a && s[9..13] == b && s[14..18] == c && s[19..23] == d && s[24..] == e
  {
    var s := Joined(a, b, c, d, e);
    forall i | 0 <= i < 36 ensures if IsHyphenPosition(i) then s[i] == '-' else IsHexDigit(s[i]) {
      if i < 8 {
        assert s[i] == a[i];
      } else if 8 < i < 13 {
        assert s[i] == b[i - 9];
      } else if 13 < i < 18 {
        assert s[i] == c[i - 14];
      } else if 18 < i < 23 {
        assert s[i] == d[i - 19];
      } else if 23 < i {
        assert s[i] == e[i - 24];
      }
    }
    assert s[..8] == a;
    assert s[9..13] == b;
    assert s[14..18] == c;
    assert s[19..23] == d;
    assert s[24..] == e;
  }
}
