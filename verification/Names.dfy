/** Names and labels for provider servers (backend/internal/jobs/provisioner.go).  The code
    works on bytes; here a string is a sequence of bytes, one character each. */
module Names {
  const MAX: nat := 63

  predicate AlphaNum(c: char) {
    'a' <= c <= 'z' || 'A' <= c <= 'Z' || '0' <= c <= '9'
  }

  predicate Allowed(c: char) { AlphaNum(c) || c == '-' || c == '.' }

  function Mapped(c: char): char {
    if Allowed(c) then c else if c == '@' then '.' else '-'
  }

  function MapAll(s: string): string {
    seq(|s|, i requires 0 <= i < |s| => Mapped(s[i]))
  }

  function Cut(s: string, n: nat): string { if |s| > n then s[..n] else s }

  function TrimLeft(s: string): string {
    if s != "" && !AlphaNum(s[0]) then TrimLeft(s[1..]) else s
  }

  function TrimRight(s: string): string {
    if s != "" && !AlphaNum(s[|s| - 1]) then TrimRight(s[..|s| - 1]) else s
  }

  function Sanitized(s: string): string { TrimRight(TrimLeft(Cut(MapAll(s), MAX))) }

  /** SanitizeLabelValue, which appends to a byte slice and then reslices it. */
  method SanitizeLabelValue(s: string) returns (result: string)
    ensures result == Sanitized(s)
  {
    result := "";
    for n := 0 to |s|
      invariant result == MapAll(s[..n])
    {
      var c := s[n];
      if 'a' <= c <= 'z' || 'A' <= c <= 'Z' || '0' <= c <= '9' {
        result := result + [c];
      } else if c == '-' || c == '.' {
        result := result + [c];
      } else if c == '@' {
        result := result + ['.'];
      } else {
        result := result + ['-'];
      }
      assert MapAll(s[..n + 1]) == MapAll(s[..n]) + [Mapped(s[n])];
    }
    assert s[..|s|] == s;
    if |result| > MAX {
      result := result[..MAX];
    }
    ghost var cut := result;
    while |result| > 0 && !AlphaNum(result[0])
      invariant TrimLeft(result) == TrimLeft(cut)
    {
      result := result[1..];
    }
    ghost var trimmed := result;
    while |result| > 0 && !AlphaNum(result[|result| - 1])
      invariant TrimRight(result) == TrimRight(trimmed)
    {
      result := result[..|result| - 1];
    }
  }

  // ---------------------------------------------------------------------------
  // What a sanitized value is

  predicate AllAllowed(s: string) {
    forall i :: 0 <= i < |s| ==> Allowed(s[i])
  }

  predicate NoneAlphaNum(s: string) {
    forall i :: 0 <= i < |s| ==> !AlphaNum(s[i])
  }

  /** Empty, or bounded by letters or digits. */
  predicate Trimmed(s: string) {
    s != "" ==> AlphaNum(s[0]) && AlphaNum(s[|s| - 1])
  }

  lemma {:induction false} TrimLeftDrops(s: string)
    ensures var r := TrimLeft(s);
      && |r| <= |s| && r == s[|s| - |r|..] && NoneAlphaNum(s[..|s| - |r|])
      && (r != "" ==> AlphaNum(r[0]))
  {
    var t := if s == "" then "" else s[1..];
    if s != "" && !AlphaNum(s[0]) {
      TrimLeftDrops(t);
      var k := |t| - |TrimLeft(t)|;
      assert t[k..] == s[k + 1..];
      forall i | 0 <= i < k + 1 ensures !AlphaNum(s[i]) {
        assert i > 0 ==> s[i] == t[..k][i - 1];
      }
    } else {
      assert s[..0] == "" && s[0..] == s;
    }
  }

  lemma {:induction false} TrimRightDrops(s: string)
    ensures var r := TrimRight(s);
      && |r| <= |s| && r == s[..|r|] && NoneAlphaNum(s[|r|..])
      && (r != "" ==> AlphaNum(r[|r| - 1]))
    decreases |s|
  {
    if s != "" && !AlphaNum(s[|s| - 1]) {
      TrimRightDrops(s[..|s| - 1]);
      var k := |TrimRight(s)|;
      assert s[k..] == s[..|s| - 1][k..] + [s[|s| - 1]];
    }
  }

  /** A sanitized value is a stretch of the mapped and cut input, from its first letter or
      digit to its last; so it is short, clean and properly bounded. */
  lemma SanitizedIsTheMiddle(s: string) returns (i: nat, j: nat)
    ensures var m := Cut(MapAll(s), MAX);
      && i <= j <= |m| == (if |s| > 63 then 63 else |s|) && Sanitized(s) == m[i..j]
      && NoneAlphaNum(m[..i]) && NoneAlphaNum(m[j..])
    ensures |Sanitized(s)| <= 63 && AllAllowed(Sanitized(s)) && Trimmed(Sanitized(s))
  {
    var m := Cut(MapAll(s), MAX);
    var l := TrimLeft(m);
    var r := TrimRight(l);
    TrimLeftDrops(m);
    TrimRightDrops(l);
    i := |m| - |l|;
    j := i + |r|;
    CutLength(s);
    hide TrimLeft, TrimRight, NoneAlphaNum, Cut, MapAll;
    Stretch(m, l, r);
    Bounded(m, l, r);
  }

  lemma CutLength(s: string)
    ensures |Cut(MapAll(s), MAX)| == if |s| > 63 then 63 else |s|
    ensures AllAllowed(Cut(MapAll(s), MAX))
  {
  }

  lemma Stretch(m: string, l: string, r: string)
    requires |r| <= |l| <= |m| && l == m[|m| - |l|..] && r == l[..|r|]
    ensures m[|m| - |l|..|m| - |l| + |r|] == r && m[|m| - |l| + |r|..] == l[|r|..]
  {
  }

  lemma Bounded(m: string, l: string, r: string)
    requires AllAllowed(m) && |m| <= MAX && |r| <= |l| <= |m| && l == m[|m| - |l|..] && r == l[..|r|]
    requires l != "" ==> AlphaNum(l[0])
    requires r != "" ==> AlphaNum(r[|r| - 1])
    ensures |r| <= MAX && AllAllowed(r) && Trimmed(r)
  {
  }

  /** Sanitizing again changes nothing, and nothing else is left alone: the fixed points are
      exactly the short, clean and properly bounded strings. */
  lemma FixedPointsAreExact(s: string)
    ensures Sanitized(s) == s <==> |s| <= MAX && AllAllowed(s) && Trimmed(s)
    ensures Sanitized(Sanitized(s)) == Sanitized(s)
  {
    var i, j := SanitizedIsTheMiddle(s);
    CleanIsFixed(Sanitized(s));
    if |s| <= MAX && AllAllowed(s) && Trimmed(s) {
      CleanIsFixed(s);
    }
  }

  lemma CleanIsFixed(s: string)
    requires |s| <= MAX && AllAllowed(s) && Trimmed(s)
    ensures Sanitized(s) == s
  {
    assert MapAll(s) == s;
  }

  // ---------------------------------------------------------------------------
  // Server names

  function FrameworkCode(framework: string): string {
    if framework == "openclaw" then "oc" else if framework == "hermes" then "hm" else framework
  }

  /** The piece of the e-mail address that goes into the name, if there is room for one. */
  function EmailPart(code: string, email: string, id: string): string {
    if |code| + |email| + |id| + 2 <= MAX then email
    else if |code| + |id| + 2 >= MAX then ""
    else TrimRight(Cut(email, MAX - (|code| + |id| + 2)))
  }

  function ServerName(framework: string, email: string, id: string): string {
    var code, clean := FrameworkCode(framework), Sanitized(email);
    if |code| + |clean| + |id| + 2 > MAX && |code| + |id| + 2 >= MAX then code + "-" + id
    else code + "-" + EmailPart(code, clean, id) + "-" + id
  }

  /** buildServerName. */
  method BuildServerName(framework: string, email: string, id: string) returns (name: string)
    ensures name == ServerName(framework, email, id)
  {
    var code := FrameworkCode(framework);
    var clean := SanitizeLabelValue(email);
    name := code + "-" + clean + "-" + id;
    if |name| > MAX {
      var overhead := |code| + 1 + 1 + |id|;
      var maxEmail := MAX - overhead;
      if maxEmail < 1 {
        name := code + "-" + id;
      } else {
        var trimmed := clean;
        if |trimmed| > maxEmail {
          trimmed := trimmed[..maxEmail];
        }
        ghost var cut := trimmed;
        while |trimmed| > 0 && !AlphaNum(trimmed[|trimmed| - 1])
          invariant TrimRight(trimmed) == TrimRight(cut)
        {
          trimmed := trimmed[..|trimmed| - 1];
        }
        name := code + "-" + trimmed + "-" + id;
      }
    }
  }

  predicate EndsWith(s: string, suffix: string) {
    |suffix| <= |s| && s[|s| - |suffix|..] == suffix
  }

  /** A name fits into 63 characters exactly when the code and the id do; it always ends in
      the whole id. */
  lemma NameFitsExactly(framework: string, email: string, id: string)
    ensures var name, code := ServerName(framework, email, id), FrameworkCode(framework);
      && (|name| <= 63 <==> |code| + 1 + |id| <= 63)
      && EndsWith(name, "-" + id) && code + "-" <= name
  {
    var code, clean := FrameworkCode(framework), Sanitized(email);
    if |code| + |clean| + |id| + 2 <= MAX || |code| + |id| + 2 < MAX {
      PartFits(code, clean, id);
    }
    hide Sanitized, EmailPart, EndsWith, FrameworkCode;
    if |code| + |clean| + |id| + 2 > MAX && |code| + |id| + 2 >= MAX {
      assert code + "-" + id == code + ("-" + id);
      Ends(code, "-" + id);
      assert code + "-" <= code + "-" + id;
    } else {
      var part := EmailPart(code, clean, id);
      assert code + "-" + part + "-" + id == code + "-" + part + ("-" + id);
      Ends(code + "-" + part, "-" + id);
      assert code + "-" <= code + "-" + part + "-" + id;
    }
  }

  /** The sanitized address stands between code and id: all of it if there is room, else as
      much of its beginning as fits and ends in a letter or digit; and nothing, not even its
      hyphen, if there is no room for one character of it. */
  lemma NameIsExact(framework: string, email: string, id: string) returns (n: nat)
    ensures var name, code, clean := ServerName(framework, email, id), FrameworkCode(framework), Sanitized(email);
      var room := 63 - |code| - |id| - 2;
      && (|clean| <= room ==> name == code + "-" + clean + "-" + id)
      && (0 < room < |clean| ==>
            && n <= room && name == code + "-" + clean[..n] + "-" + id
            && NoneAlphaNum(clean[n..room]) && (n > 0 ==> AlphaNum(clean[n - 1])))
      && (room <= 0 && room < |clean| ==> name == code + "-" + id)
  {
    var code, clean := FrameworkCode(framework), Sanitized(email);
    hide Sanitized, FrameworkCode, TrimRight, NoneAlphaNum;
    n := PartIsExact(code, clean, id);
  }

  lemma PartIsExact(code: string, clean: string, id: string) returns (n: nat)
    ensures var room := 63 - |code| - |id| - 2;
      && (|clean| <= room ==> EmailPart(code, clean, id) == clean)
      && (0 < room < |clean| ==>
            && n <= room && EmailPart(code, clean, id) == clean[..n]
            && NoneAlphaNum(clean[n..room]) && (n > 0 ==> AlphaNum(clean[n - 1])))
  {
    var room := 63 - |code| - |id| - 2;
    n := 0;
    if 0 < room < |clean| {
      var cut := clean[..room];
      TrimRightDrops(cut);
      n := |TrimRight(cut)|;
      hide TrimRight, NoneAlphaNum;
      assert cut[..n] == clean[..n] && cut[n..] == clean[n..room];
    }
  }

  lemma Ends(a: string, b: string)
    ensures EndsWith(a + b, b)
  {
  }

  lemma PartFits(code: string, email: string, id: string)
    requires |code| + |email| + |id| + 2 <= MAX || |code| + |id| + 2 < MAX
    ensures |code| + |EmailPart(code, email, id)| + |id| + 2 <= MAX
  {
    if |code| + |email| + |id| + 2 > MAX {
      TrimRightDrops(Cut(email, MAX - (|code| + |id| + 2)));
    }
  }

  /** Names for ids of the same length differ as soon as the ids do, whatever the rest. */
  lemma NamesAreInjective(f1: string, e1: string, id1: string, f2: string, e2: string, id2: string)
    requires |id1| == |id2| && ServerName(f1, e1, id1) == ServerName(f2, e2, id2)
    ensures id1 == id2
  {
    NameFitsExactly(f1, e1, id1);
    NameFitsExactly(f2, e2, id2);
    assert ("-" + id1)[1..] == id1 && ("-" + id2)[1..] == id2;
  }

  /** buildUpgradeServerName. */
  function UpgradeServerName(framework: string, email: string, prefix: string, attempt: string): string {
    ServerName(framework, email, prefix + "-u" + attempt)
  }

  /** The replacement server never has the name of the server it replaces, nor of another
      attempt, unless the random attempt id repeats the instance's or the other's. */
  lemma UpgradeNamesAreNew(framework: string, email: string, prefix: string, attempt: string, other: string)
    requires |attempt| == |prefix| == |other|
    ensures UpgradeServerName(framework, email, prefix, attempt) == ServerName(framework, email, prefix) ==>
              attempt == prefix
    ensures UpgradeServerName(framework, email, prefix, attempt)
            == UpgradeServerName(framework, email, prefix, other) ==>
              attempt == other
  {
    hide ServerName;
    EndsInAttempt(framework, email, prefix, attempt);
    EndsInAttempt(framework, email, prefix, other);
    NameFitsExactly(framework, email, prefix);
    LastOf(ServerName(framework, email, prefix), "-", prefix);
  }

  lemma EndsInAttempt(framework: string, email: string, prefix: string, attempt: string)
    ensures EndsWith(UpgradeServerName(framework, email, prefix, attempt), attempt)
  {
    hide ServerName;
    var front := "-" + prefix + "-u";
    NameFitsExactly(framework, email, prefix + "-u" + attempt);
    assert "-" + (prefix + "-u" + attempt) == front + attempt;
    LastOf(UpgradeServerName(framework, email, prefix, attempt), front, attempt);
  }

  lemma LastOf(s: string, a: string, b: string)
    ensures EndsWith(s, a + b) ==> EndsWith(s, b)
  {
    if EndsWith(s, a + b) {
      assert s[|s| - |b|..] == (a + b)[|a|..];
    }
  }

  // ---------------------------------------------------------------------------
  // RFC 1123

  /** A host name as section 2.1 of RFC 1123 has it: labels of letters, digits and inner
      hyphens, joined by dots, and no longer than the 63 characters that every host has to
      handle. */
  predicate HostName(s: string) {
    |s| <= 63 && Dotted(s)
  }

  predicate Dotted(s: string) {
    s != "" && AllAllowed(s) && Trimmed(s) && DotsInside(s)
  }

  /** Every dot stands between two letters or digits. */
  predicate DotsInside(s: string) {
    forall i :: 0 <= i < |s| && s[i] == '.' ==> 0 < i < |s| - 1 && AlphaNum(s[i - 1]) && AlphaNum(s[i + 1])
  }

  /** Letters, digits and inner hyphens. */
  predicate Label(s: string) {
    s != "" && AllAllowed(s) && Trimmed(s) && '.' !in s
  }

  /** The comment in the code promises a compliant name.  It is one exactly if in the piece
      of the address that goes into it every dot (or at sign) stands between two letters or
      digits, and code, hyphen and id fit into 63 characters. */
  lemma ComplianceIsExact(framework: string, email: string, id: string)
    requires Label(FrameworkCode(framework)) && Label(id)
    ensures HostName(ServerName(framework, email, id))
            <==> && DotsInside(EmailPart(FrameworkCode(framework), Sanitized(email), id))
                 && |FrameworkCode(framework)| + 1 + |id| <= MAX
  {
    NameFitsExactly(framework, email, id);
    var code, clean := FrameworkCode(framework), Sanitized(email);
    var part := EmailPart(code, clean, id);
    var i, j := SanitizedIsTheMiddle(email);
    PartIsClean(code, clean, id);
    hide Sanitized, TrimRight, TrimLeft, Cut, MapAll, NoneAlphaNum, AllAllowed, Trimmed, Dotted;
    if |code| + |clean| + |id| + 2 > MAX && |code| + |id| + 2 >= MAX {
      Glued(code, "-", id);
    } else {
      NameDots(code, part, id);
    }
  }

  /** A mail address for which the name is not a host name. */
  lemma UnderscoreBreaksTheName()
    ensures !HostName(ServerName("openclaw", "a_@b.co", "0123abcd"))
  {
    assert MapAll("a_@b.co") == "a-.b.co";
    CleanIsFixed("a-.b.co");
    assert Sanitized("a_@b.co") == "a-.b.co";
    var part := EmailPart("oc", "a-.b.co", "0123abcd");
    assert part == "a-.b.co" && part[2] == '.' && !AlphaNum(part[1]);
    ComplianceIsExact("openclaw", "a_@b.co", "0123abcd");
  }

  lemma PartIsClean(code: string, clean: string, id: string)
    requires AllAllowed(clean) && Trimmed(clean)
    ensures AllAllowed(EmailPart(code, clean, id)) && Trimmed(EmailPart(code, clean, id))
  {
    TrimRightDrops(Cut(clean, if |code| + |id| + 2 <= MAX then MAX - (|code| + |id| + 2) else 0));
  }

  lemma Glued(code: string, middle: string, id: string)
    requires Label(code) && Label(id) && AllAllowed(middle)
    ensures AllAllowed(code + middle + id) && Trimmed(code + middle + id)
    ensures '.' !in middle ==> Dotted(code + middle + id)
  {
    var s := code + middle + id;
    forall k | 0 <= k < |s| ensures Allowed(s[k]) && (s[k] == '.' ==> s[k] in middle) {
      if k < |code| {
        assert s[k] == code[k];
      } else if k < |code| + |middle| {
        assert s[k] == middle[k - |code|];
      } else {
        assert s[k] == id[k - |code| - |middle|];
      }
    }
  }

  lemma NameDots(code: string, part: string, id: string)
    requires Label(code) && Label(id) && AllAllowed(part) && Trimmed(part)
    ensures Dotted(code + "-" + part + "-" + id) <==> DotsInside(part)
  {
    var front, back := code + "-", "-" + id;
    var s := code + "-" + part + "-" + id;
    Glued(code, "-" + part + "-", id);
    assert s == code + ("-" + part + "-") + id;
    assert s == front + part + back;
    assert '.' !in front && '.' !in back;
    DotsBetween(front, part, back);
  }

  /** Between a front and a back without dots, the dots are those of the part. */
  lemma DotsBetween(front: string, part: string, back: string)
    requires '.' !in front && '.' !in back && Trimmed(part)
    ensures DotsInside(front + part + back) <==> DotsInside(part)
  {
    var s, n := front + part + back, |front|;
    assert forall k :: 0 <= k < |part| ==> s[n + k] == part[k];
    assert forall k :: 0 <= k < n ==> s[k] == front[k];
    assert forall k :: n + |part| <= k < |s| ==> s[k] == back[k - n - |part|];
    if DotsInside(part) {
      forall k | 0 <= k < |s| && s[k] == '.'
        ensures 0 < k < |s| - 1 && AlphaNum(s[k - 1]) && AlphaNum(s[k + 1])
      {
        assert n <= k < n + |part|;
        assert part[k - n] == '.';
        assert s[n + (k - n - 1)] == part[k - n - 1] && s[n + (k - n + 1)] == part[k - n + 1];
      }
    }
    if DotsInside(s) {
      forall k | 0 <= k < |part| && part[k] == '.'
        ensures 0 < k < |part| - 1 && AlphaNum(part[k - 1]) && AlphaNum(part[k + 1])
      {
        assert s[n + k] == '.';
        assert 0 < k < |part| - 1;
        assert s[n + (k - 1)] == part[k - 1] && s[n + (k + 1)] == part[k + 1];
      }
    }
  }
}
