/** Operations on strings that several parts of the system share. */
module Text {
  /** `sed s/c/by/g`, strings.ReplaceAll: every occurrence of one character. */
  function ReplaceAll(s: string, c: char, sub: string): string {
    if s == "" then "" else (if s[0] == c then sub else [s[0]]) + ReplaceAll(s[1..], c, sub)
  }

  lemma ReplaceAllCons(x: char, s: string, c: char, sub: string)
    ensures ReplaceAll([x] + s, c, sub) == (if x == c then sub else [x]) + ReplaceAll(s, c, sub)
  {
    assert ([x] + s)[1..] == s;
  }

  lemma Associative(a: string, b: string, c: string)
    ensures a + b + c == a + (b + c)
  {
  }

  lemma {:induction false} ReplaceAllConcat(a: string, b: string, c: char, sub: string)
    ensures ReplaceAll(a + b, c, sub) == ReplaceAll(a, c, sub) + ReplaceAll(b, c, sub)
  {
    if a == "" {
      assert a + b == b;
    } else {
      var t, first := a[1..], if a[0] == c then sub else [a[0]];
      ReplaceAllConcat(t, b, c, sub);
      assert a + b == [a[0]] + (t + b);
      ReplaceAllCons(a[0], t + b, c, sub);
      hide ReplaceAll;
      Associative(first, ReplaceAll(t, c, sub), ReplaceAll(b, c, sub));
    }
  }

  /** What $(...) does to the output of a command. */
  function StripNewlines(s: string): string {
    if s != "" && s[|s| - 1] == '\n' then StripNewlines(s[..|s| - 1]) else s
  }

  lemma {:induction false} StripCommutes(s: string, c: char, sub: string)
    requires c != '\n' && sub != "" && sub[|sub| - 1] != '\n'
    ensures StripNewlines(ReplaceAll(s, c, sub)) == ReplaceAll(StripNewlines(s), c, sub)
    decreases |s|
  {
    if s != "" {
      var init, last := s[..|s| - 1], s[|s| - 1..];
      assert s == init + last;
      ReplaceAllConcat(init, last, c, sub);
      assert last[1..] == "" && ReplaceAll(last[1..], c, sub) == "";
      assert ReplaceAll(last, c, sub) == if last[0] == c then sub else last;
      if s[|s| - 1] == '\n' {
        StripCommutes(init, c, sub);
        assert ReplaceAll(s, c, sub)[..|ReplaceAll(s, c, sub)| - 1] == ReplaceAll(init, c, sub);
      } else {
        var r := ReplaceAll(s, c, sub);
        assert r[|r| - 1] == (if last[0] == c then sub else last)[|ReplaceAll(last, c, sub)| - 1];
      }
    }
  }

  function Count(s: string, c: char): nat {
    if s == "" then 0 else (if s[0] == c then 1 else 0) + Count(s[1..], c)
  }
}
