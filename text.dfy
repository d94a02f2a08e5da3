/**
 * The Go string helpers the core leans on: `strings.TrimSpace`,
 * `strings.Split`, `strings.HasPrefix`/`HasSuffix`, and the character
 * classes of Go's regular expressions (RE2).
 */
module Text {

  /** `unicode.IsSpace`, the test `strings.TrimSpace` trims with. */
  predicate IsGoSpace(c: char) {
    c == '\t' || c == '\n' || c == '\U{000B}' || c == '\U{000C}' || c == '\r' || c == ' '
    || c == '\U{0085}' || c == '\U{00A0}' || c == '\U{1680}'
    || ('\U{2000}' <= c <= '\U{200A}')
    || c == '\U{2028}' || c == '\U{2029}' || c == '\U{202F}' || c == '\U{205F}' || c == '\U{3000}'
  }

  /** RE2's `\s`: only the five ASCII blanks, a smaller set than `unicode.IsSpace`. */
  predicate IsReSpace(c: char) {
    c == '\t' || c == '\n' || c == '\U{000C}' || c == '\r' || c == ' '
  }

  /** RE2's `\w`: ASCII letters, digits and underscore. */
  predicate IsWordChar(c: char) {
    ('0' <= c <= '9') || ('A' <= c <= 'Z') || ('a' <= c <= 'z') || c == '_'
  }

  /** A word character is never white space. */
  lemma WordCharIsNotSpace(c: char)
    requires IsWordChar(c)
    ensures !IsGoSpace(c)
  {
  }

  lemma ReSpaceIsGoSpace(c: char)
    ensures IsReSpace(c) ==> IsGoSpace(c)
  {
  }

  predicate HasPrefix(s: string, p: string) {
    p <= s
  }

  predicate HasSuffix(s: string, p: string) {
    |p| <= |s| && s[|s| - |p|..] == p
  }

  /** Drops the leading white space. */
  function TrimLeft(s: string): (r: string)
    ensures |r| <= |s| && r == s[|s| - |r|..]
    ensures forall i :: 0 <= i < |s| - |r| ==> IsGoSpace(s[i])
    ensures r == [] || !IsGoSpace(r[0])
  {
    if |s| > 0 && IsGoSpace(s[0]) then TrimLeft(s[1..]) else s
  }

  /** Drops the trailing white space. */
  function TrimRight(s: string): (r: string)
    ensures |r| <= |s| && r == s[..|r|]
    ensures forall i :: |r| <= i < |s| ==> IsGoSpace(s[i])
    ensures r == [] || !IsGoSpace(r[|r| - 1])
  {
    if |s| > 0 && IsGoSpace(s[|s| - 1]) then TrimRight(s[..|s| - 1]) else s
  }

  /** `strings.TrimSpace`: the longest slice with no white space at either end. */
  function TrimSpace(s: string): (r: string)
    ensures |r| <= |s|
    ensures r == [] || (!IsGoSpace(r[0]) && !IsGoSpace(r[|r| - 1]))
  {
    TrimRight(TrimLeft(s))
  }

  /** What `TrimSpace` removes is white space, and what it keeps is a contiguous slice. */
  lemma TrimSpaceSlice(s: string) returns (lo: nat, hi: nat)
    ensures lo <= hi <= |s| && TrimSpace(s) == s[lo..hi]
    ensures forall i :: 0 <= i < lo ==> IsGoSpace(s[i])
    ensures forall i :: hi <= i < |s| ==> IsGoSpace(s[i])
  {
    var l := TrimLeft(s);
    lo := |s| - |l|;
    hi := lo + |TrimRight(l)|;
    assert TrimRight(l) == l[..hi - lo];
    assert l[..hi - lo] == s[lo..hi];
    forall i | hi <= i < |s|
      ensures IsGoSpace(s[i])
    {
      assert s[i] == l[i - lo];
    }
  }

  /** A string with no white space at either end is its own trim, so trimming is idempotent. */
  lemma TrimSpaceOfTrimmed(s: string)
    requires s == [] || (!IsGoSpace(s[0]) && !IsGoSpace(s[|s| - 1]))
    ensures TrimSpace(s) == s
  {
  }

  lemma TrimSpaceIdempotent(s: string)
    ensures TrimSpace(TrimSpace(s)) == TrimSpace(s)
  {
    TrimSpaceOfTrimmed(TrimSpace(s));
  }

  /** Each piece trimmed. */
  function TrimAll(pieces: seq<string>): (ps: seq<string>)
    ensures |ps| == |pieces|
    ensures forall j :: 0 <= j < |ps| ==> ps[j] == TrimSpace(pieces[j]) && |ps[j]| <= |pieces[j]|
  {
    seq(|pieces|, j requires 0 <= j < |pieces| => TrimSpace(pieces[j]))
  }

  /** The position of the first `c` in `s` at or after `from`, or `|s|` when there is none. */
  function NextIndex(s: string, c: char, from: nat): (r: nat)
    requires from <= |s|
    ensures from <= r <= |s|
    ensures r < |s| ==> s[r] == c
    ensures forall k :: from <= k < r ==> s[k] != c
    decreases |s| - from
  {
    if from == |s| || s[from] == c then from else NextIndex(s, c, from + 1)
  }

  /**
   * `strings.Split` with a one-character separator: the pieces between the
   * separators, always at least one.
   */
  function Split(s: string, sep: char): (r: seq<string>)
    ensures 1 <= |r| <= |s| + 1
    ensures forall i :: 0 <= i < |r| ==> |r[i]| <= |s|
    decreases |s|
  {
    if |s| == 0 then [""]
    else
      var rest := Split(s[1..], sep);
      if s[0] == sep then [""] + rest else [[s[0]] + rest[0]] + rest[1..]
  }

  /** Each piece is a slice of the split string, and the first one starts it. */
  lemma {:induction false} SplitSlice(s: string, sep: char, j: nat) returns (lo: nat, hi: nat)
    requires j < |Split(s, sep)|
    ensures lo <= hi <= |s| && Split(s, sep)[j] == s[lo..hi]
    ensures j == 0 ==> lo == 0
    decreases |s|
  {
    if |s| == 0 {
      lo, hi := 0, 0;
    } else if s[0] == sep && j == 0 {
      lo, hi := 0, 0;
    } else if s[0] == sep {
      var l, h := SplitSlice(s[1..], sep, j - 1);
      assert Split(s, sep)[j] == Split(s[1..], sep)[j - 1];
      lo, hi := l + 1, h + 1;
      TailSlice(s, l, h);
    } else {
      var l, h := SplitSlice(s[1..], sep, j);
      lo, hi := JoinedSlice(s, sep, j, l, h);
    }
  }

  lemma TailSlice(s: string, l: nat, h: nat)
    requires |s| > 0 && l <= h <= |s| - 1
    ensures s[1..][l..h] == s[l + 1..h + 1]
  {
  }

  /** A piece of a split whose first character is not the separator. */
  lemma JoinedSlice(s: string, sep: char, j: nat, l: nat, h: nat) returns (lo: nat, hi: nat)
    requires |s| > 0 && s[0] != sep && j < |Split(s[1..], sep)|
    requires l <= h <= |s| - 1 && Split(s[1..], sep)[j] == s[1..][l..h] && (j == 0 ==> l == 0)
    ensures j < |Split(s, sep)| && lo <= hi <= |s| && Split(s, sep)[j] == s[lo..hi]
    ensures j == 0 ==> lo == 0
  {
    var rest := Split(s[1..], sep);
    assert Split(s, sep) == [[s[0]] + rest[0]] + rest[1..];
    TailSlice(s, l, h);
    if j == 0 {
      lo, hi := 0, h + 1;
      assert [s[0]] + s[1..h + 1] == s[0..h + 1];
    } else {
      lo, hi := l + 1, h + 1;
    }
  }

  /** No piece of a split contains the separator. */
  lemma {:induction false} SplitNoSep(s: string, sep: char, j: nat)
    requires j < |Split(s, sep)|
    ensures Excludes(Split(s, sep)[j], sep)
    decreases |s|
  {
    if |s| > 0 {
      var rest := Split(s[1..], sep);
      if s[0] == sep {
        if j > 0 {
          SplitNoSep(s[1..], sep, j - 1);
        }
      } else {
        SplitNoSep(s[1..], sep, j);
        if j == 0 {
          var piece := [s[0]] + rest[0];
          assert forall k :: 1 <= k < |piece| ==> piece[k] == rest[0][k - 1];
        }
      }
    }
  }

  /** `NextIndex` finds a given occurrence when nothing before it matches. */
  lemma {:induction false} NextIndexIs(s: string, c: char, from: nat, e: nat)
    requires from <= e < |s| && s[e] == c
    requires forall k :: from <= k < e ==> s[k] != c
    ensures NextIndex(s, c, from) == e
    decreases e - from
  {
    if from < e {
      NextIndexIs(s, c, from + 1, e);
    }
  }

  /** `strings.Join`, the inverse of `Split`. */
  function Join(parts: seq<string>, sep: char): string {
    if |parts| == 0 then ""
    else if |parts| == 1 then parts[0]
    else parts[0] + [sep] + Join(parts[1..], sep)
  }

  lemma JoinCons(p: string, rest: seq<string>, sep: char)
    requires |rest| >= 1
    ensures Join([p] + rest, sep) == p + [sep] + Join(rest, sep)
  {
    assert ([p] + rest)[1..] == rest;
  }

  /** Putting a prefix in front of the first part puts it in front of the join. */
  lemma JoinPrefix(x: string, rest: seq<string>, sep: char)
    requires |rest| >= 1
    ensures Join([x + rest[0]] + rest[1..], sep) == x + Join(rest, sep)
  {
    if |rest| > 1 {
      JoinCons(x + rest[0], rest[1..], sep);
      JoinCons(rest[0], rest[1..], sep);
      assert rest == [rest[0]] + rest[1..];
    }
  }

  /** Joining the pieces of a split gives back the string. */
  lemma {:induction false} JoinSplit(s: string, sep: char)
    ensures Join(Split(s, sep), sep) == s
    decreases |s|
  {
    if |s| > 0 {
      var rest := Split(s[1..], sep);
      JoinSplit(s[1..], sep);
      if s[0] == sep {
        JoinCons("", rest, sep);
      } else {
        JoinPrefix([s[0]], rest, sep);
      }
      assert s == [s[0]] + s[1..];
    }
  }

  /** `s` holds no `c`. */
  predicate Excludes(s: string, c: char) {
    forall k :: 0 <= k < |s| ==> s[k] != c
  }

  /** A string without the separator is one piece. */
  lemma {:induction false} SplitExcluded(p: string, sep: char)
    requires Excludes(p, sep)
    ensures Split(p, sep) == [p]
    decreases |p|
  {
    if |p| > 0 {
      SplitExcluded(p[1..], sep);
      assert p == [p[0]] + p[1..];
    }
  }

  /** The first piece ends at the first separator. */
  lemma {:induction false} SplitCons(p: string, t: string, sep: char)
    requires Excludes(p, sep)
    ensures Split(p + [sep] + t, sep) == [p] + Split(t, sep)
    decreases |p|
  {
    var s := p + [sep] + t;
    if |p| == 0 {
      assert s[1..] == t;
    } else {
      assert s[1..] == p[1..] + [sep] + t;
      SplitCons(p[1..], t, sep);
      assert p == [p[0]] + p[1..];
    }
  }

  /** `Split` undoes `Join` when no part holds the separator. */
  lemma {:induction false} SplitJoin(parts: seq<string>, sep: char)
    requires |parts| >= 1 && forall j :: 0 <= j < |parts| ==> Excludes(parts[j], sep)
    ensures Split(Join(parts, sep), sep) == parts
  {
    if |parts| == 1 {
      SplitExcluded(parts[0], sep);
    } else {
      SplitJoin(parts[1..], sep);
      SplitCons(parts[0], Join(parts[1..], sep), sep);
      assert parts == [parts[0]] + parts[1..];
    }
  }

  function DigitChar(d: nat): char
    requires d < 10
  {
    ('0' as int + d) as char
  }

  /** Plain decimal text of a natural number, most significant digit first. */
  function NatText(n: nat): (r: string)
    ensures |r| >= 1
    ensures forall i :: 0 <= i < |r| ==> '0' <= r[i] <= '9'
  {
    if n < 10 then [DigitChar(n)] else NatText(n / 10) + [DigitChar(n % 10)]
  }

  /** Decimal text of an integer, with a leading minus sign when it is negative. */
  function DecimalText(n: int): (r: string)
    ensures |r| >= 1
    ensures (n < 0) <==> r[0] == '-'
  {
    if n < 0 then "-" + NatText(-n) else NatText(n)
  }

  /** The value of a string of decimal digits; the reference that `NatText` is checked against. */
  function DigitsValue(s: string): nat
    requires forall i :: 0 <= i < |s| ==> '0' <= s[i] <= '9'
  {
    if |s| == 0 then 0 else 10 * DigitsValue(s[..|s| - 1]) + ((s[|s| - 1] as int) - ('0' as int))
  }

  lemma {:induction false} NatTextValue(n: nat)
    ensures DigitsValue(NatText(n)) == n
  {
    var r := NatText(n);
    if n >= 10 {
      NatTextValue(n / 10);
      assert r[..|r| - 1] == NatText(n / 10);
      assert r[|r| - 1] == DigitChar(n % 10);
    } else {
      assert r[..0] == [];
    }
  }
}
