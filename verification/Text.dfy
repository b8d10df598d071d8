/** The string operations of the provider: joining with a separator, comparing, searching,
    stripping, and what is needed of case mapping. */
module Text {
  function Join(separator: char, parts: seq<string>): string {
    if parts == [] then ""
    else if |parts| == 1 then parts[0]
    else Join(separator, parts[..|parts| - 1]) + [separator] + parts[|parts| - 1]
  }

  lemma JoinAppend(separator: char, parts: seq<string>, last: string)
    requires parts != []
    ensures Join(separator, parts + [last]) == Join(separator, parts) + [separator] + last
  {
    assert (parts + [last])[..|parts|] == parts;
  }

  /** No part contains the separator. */
  predicate Free(separator: char, parts: seq<string>) {
    forall i :: 0 <= i < |parts| ==> separator !in parts[i]
  }

  lemma SplitLast(separator: char, a: string, x: string, b: string, y: string)
    requires separator !in x && separator !in y
    requires a + [separator] + x == b + [separator] + y
    ensures a == b && x == y
  {
    var s := a + [separator] + x;
    var t := b + [separator] + y;
    assert s[|a|] == separator && t[|b|] == separator;
    assert forall i :: |a| < i < |s| ==> s[i] == x[i - |a| - 1];
    assert forall i :: |b| < i < |t| ==> t[i] == y[i - |b| - 1];
    assert a == s[..|a|] && b == t[..|b|];
    assert x == s[|a| + 1..] && y == t[|b| + 1..];
  }

  lemma {:induction false} JoinHasSeparator(separator: char, parts: seq<string>)
    requires |parts| >= 2
    ensures separator in Join(separator, parts)
  {
    var head := Join(separator, parts[..|parts| - 1]);
    assert Join(separator, parts)[|head|] == separator;
  }

  /** Joining loses nothing when no part contains the separator and none is empty. */
  lemma {:induction false} JoinInjective(separator: char, a: seq<string>, b: seq<string>)
    requires Free(separator, a) && Free(separator, b)
    requires |a| == |b| || ("" !in a && "" !in b)
    ensures Join(separator, a) == Join(separator, b) <==> a == b
  {
    if Join(separator, a) == Join(separator, b) {
      if |a| >= 2 { JoinHasSeparator(separator, a); }
      if |b| >= 2 { JoinHasSeparator(separator, b); }
      if |a| >= 2 && |b| >= 2 {
        SplitLast(separator, Join(separator, a[..|a| - 1]), a[|a| - 1], Join(separator, b[..|b| - 1]), b[|b| - 1]);
        JoinInjective(separator, a[..|a| - 1], b[..|b| - 1]);
        assert a == a[..|a| - 1] + [a[|a| - 1]] && b == b[..|b| - 1] + [b[|b| - 1]];
      }
    }
  }

  /** Python's string order: character by character, a prefix first. */
  predicate Leq(a: string, b: string) {
    a == "" || (b != "" && (a[0] < b[0] || (a[0] == b[0] && Leq(a[1..], b[1..]))))
  }

  /** The order in figures: b goes on where a ends, or has the greater character where they
      first differ. */
  lemma {:induction false} LeqByFirstDifference(a: string, b: string)
    ensures Leq(a, b) <==>
              a <= b || exists i :: 0 <= i < |a| && i < |b| && a[..i] == b[..i] && a[i] < b[i]
  {
    if a == "" || b == "" || a[0] != b[0] {
      if a != "" && b != "" && a[0] < b[0] {
        assert a[..0] == b[..0];
      }
    } else {
      LeqByFirstDifference(a[1..], b[1..]);
      forall i | 0 <= i < |a[1..]| && i < |b[1..]| && a[1..][..i] == b[1..][..i] && a[1..][i] < b[1..][i]
        ensures a[..i + 1] == b[..i + 1] && a[i + 1] < b[i + 1]
      {
        assert a[..i + 1] == [a[0]] + a[1..][..i] && b[..i + 1] == [b[0]] + b[1..][..i];
      }
      forall i | 0 <= i < |a| && i < |b| && a[..i] == b[..i] && a[i] < b[i]
        ensures i > 0 && a[1..][..i - 1] == b[1..][..i - 1] && a[1..][i - 1] < b[1..][i - 1]
      {
        assert a[1..][..i - 1] == a[..i][1..] && b[1..][..i - 1] == b[..i][1..];
      }
      assert a <= b <==> a[1..] <= b[1..];
    }
  }

  lemma {:induction false} LeqTotal(a: string, b: string)
    ensures Leq(a, b) || Leq(b, a)
    ensures Leq(a, b) && Leq(b, a) ==> a == b
  {
    if a != "" && b != "" && a[0] == b[0] {
      LeqTotal(a[1..], b[1..]);
      assert a == [a[0]] + a[1..] && b == [b[0]] + b[1..];
    }
  }

  lemma {:induction false} LeqTransitive(a: string, b: string, c: string)
    requires Leq(a, b) && Leq(b, c)
    ensures Leq(a, c)
  {
    if a != "" && a[0] == b[0] && b[0] == c[0] {
      LeqTransitive(a[1..], b[1..], c[1..]);
    }
  }

  /** str.isspace of one character, in Unicode 15.0. */
  predicate IsSpace(c: char) {
    var code := c as int;
    0x09 <= code <= 0x0D || 0x1C <= code <= 0x20 || code == 0x85 || code == 0xA0 || code == 0x1680
    || 0x2000 <= code <= 0x200A || code == 0x2028 || code == 0x2029 || code == 0x202F || code == 0x205F
    || code == 0x3000
  }

  /** str.strip */
  function Strip(text: string): string {
    if text != "" && IsSpace(text[0]) then Strip(text[1..])
    else if text != "" && IsSpace(text[|text| - 1]) then Strip(text[..|text| - 1])
    else text
  }

  /** Stripping takes white space off both ends, and nothing else. */
  lemma {:induction false} StripSpec(text: string) returns (before: string, after: string)
    ensures text == before + Strip(text) + after
    ensures (forall c :: c in before ==> IsSpace(c)) && (forall c :: c in after ==> IsSpace(c))
    ensures Strip(text) != "" ==> !IsSpace(Strip(text)[0]) && !IsSpace(Strip(text)[|Strip(text)| - 1])
    decreases |text|
  {
    if text != "" && IsSpace(text[0]) {
      before, after := StripSpec(text[1..]);
      assert text == [text[0]] + text[1..];
      before := [text[0]] + before;
    } else if text != "" && IsSpace(text[|text| - 1]) {
      var init := text[..|text| - 1];
      before, after := StripSpec(init);
      assert text == init + [text[|text| - 1]];
      after := after + [text[|text| - 1]];
    } else {
      before, after := "", "";
    }
  }

  /** The 29 characters of white space, one by one. */
  lemma SpacesExactly(c: char)
    ensures IsSpace(c) <==>
              c as int in {9, 10, 11, 12, 13, 28, 29, 30, 31, 32, 0x85, 0xA0, 0x1680, 0x2000, 0x2001, 0x2002, 0x2003,
                           0x2004, 0x2005, 0x2006, 0x2007, 0x2008, 0x2009, 0x200A, 0x2028, 0x2029, 0x202F, 0x205F,
                           0x3000}
  {
  }

  predicate IsUpper(c: char) {
    'A' <= c <= 'Z'
  }

  /** A case mapping like str.lower: what a text of upper-case ASCII letters is mapped to does
      not depend on what follows it. */
  ghost predicate LowerLike(lower: string -> string) {
    forall head, tail :: (forall i :: 0 <= i < |head| ==> IsUpper(head[i])) ==> lower(head) <= lower(head + tail)
  }

  /** The needle occurs in the text. */
  predicate Contains(text: string, needle: string) {
    exists i :: 0 <= i <= |text| && needle <= text[i..]
  }
}
