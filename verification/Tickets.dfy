/** Signed tickets for the terminal and desktop websockets (backend/internal/api/terminal.go
    and desktop.go): claims joined by dots, an expiry in decimal, and a MAC in base64url.
    The HMAC and the UUID library are uninterpreted. */
module Tickets {
  import opened Options

  type Byte = b: nat | b < 256

  /** UUIDs in print and back, and HMAC-SHA256 under the server's secret. */
  datatype Library = Library(show: nat -> string, parse: string -> Option<nat>, hmac: string -> seq<Byte>)

  predicate DotFree(s: string) { '.' !in s }

  ghost predicate Lawful(lib: Library) {
    forall id: nat :: DotFree(lib.show(id)) && lib.parse(lib.show(id)) == Some(id)
  }

  // ---------------------------------------------------------------------------
  // Splitting and joining

  /** strings.Split(s, "."). */
  function Split(s: string): (parts: seq<string>)
    ensures |parts| >= 1
  {
    if s == "" then [""]
    else
      var rest := Split(s[1..]);
      if s[0] == '.' then [""] + rest else [[s[0]] + rest[0]] + rest[1..]
  }

  function Join(parts: seq<string>): string
    requires parts != []
  {
    if |parts| == 1 then parts[0] else parts[0] + "." + Join(parts[1..])
  }

  lemma {:induction false} JoinUndoesSplit(s: string)
    ensures Join(Split(s)) == s
  {
    if s != "" {
      JoinUndoesSplit(s[1..]);
      var rest := Split(s[1..]);
      if s[0] == '.' {
        assert ([""] + rest)[1..] == rest;
      } else {
        var parts := [[s[0]] + rest[0]] + rest[1..];
        assert parts[1..] == rest[1..];
        if |rest| > 1 {
          assert Join(parts) == [s[0]] + (rest[0] + "." + Join(rest[1..]));
        }
      }
      assert s == [s[0]] + s[1..];
    }
  }

  /** One more character in front. */
  function Grow(c: char, parts: seq<string>): seq<string>
    requires parts != []
  {
    if c == '.' then [""] + parts else [[c] + parts[0]] + parts[1..]
  }

  lemma SplitCons(c: char, s: string)
    ensures Split([c] + s) == Grow(c, Split(s))
  {
    assert ([c] + s)[1..] == s;
  }

  lemma GrowConcat(c: char, a: seq<string>, b: seq<string>)
    requires a != []
    ensures Grow(c, a + b) == Grow(c, a) + b
  {
    assert (a + b)[1..] == a[1..] + b;
  }

  lemma {:induction false} SplitConcat(a: string, b: string)
    ensures Split(a + "." + b) == Split(a) + Split(b)
  {
    hide Split, Grow;
    if a == "" {
      SplitNothing();
      SplitDot(b);
      assert a + "." + b == "." + b;
    } else {
      SplitConcat(a[1..], b);
      SplitCons(a[0], a[1..]);
      SplitCons(a[0], a[1..] + "." + b);
      GrowConcat(a[0], Split(a[1..]), Split(b));
      assert a == [a[0]] + a[1..];
      assert a + "." + b == [a[0]] + (a[1..] + "." + b);
    }
  }

  lemma SplitNothing()
    ensures Split("") == [""]
  {
  }

  lemma SplitDot(s: string)
    ensures Split("." + s) == [""] + Split(s)
  {
    SplitCons('.', s);
  }

  /** A dot-free string is one part, and only a dot-free string is. */
  lemma {:induction false} OnePart(s: string)
    ensures DotFree(s) ==> Split(s) == [s]
    ensures !DotFree(s) ==> |Split(s)| >= 2
  {
    if s != "" {
      OnePart(s[1..]);
      assert s == [s[0]] + s[1..];
    }
  }

  // ---------------------------------------------------------------------------
  // Decimal numbers

  const INT64: int := 0x8000_0000_0000_0000

  function DigitChar(d: nat): char
    requires d < 10
  {
    ('0' as int + d) as char
  }

  function PrintNat(n: nat): string {
    if n < 10 then [DigitChar(n)] else PrintNat(n / 10) + [DigitChar(n % 10)]
  }

  /** fmt's %d. */
  function PrintInt(n: int): string {
    if n < 0 then "-" + PrintNat(-n) else PrintNat(n)
  }

  function ParseNat(s: string): Option<nat> {
    if s == "" then Some(0)
    else
      var c, tens := s[|s| - 1], ParseNat(s[..|s| - 1]);
      if tens.None? || !('0' <= c <= '9') then None else Some(10 * tens.value + (c as int - '0' as int))
  }

  /** strconv.ParseInt(s, 10, 64): a sign is optional, and leading zeros are accepted. */
  function ParseInt(s: string): Option<int> {
    if s == "" then None
    else
      var signed := s[0] == '-' || s[0] == '+';
      var digits := if signed then s[1..] else s;
      if digits == "" || ParseNat(digits).None? then None
      else
        var magnitude: int := ParseNat(digits).value;
        var n := if s[0] == '-' then -magnitude else magnitude;
        if -INT64 <= n < INT64 then Some(n) else None
  }

  lemma {:induction false} NatRoundTrip(n: nat)
    ensures ParseNat(PrintNat(n)) == Some(n) && PrintNat(n) != ""
    ensures DotFree(PrintNat(n)) && PrintNat(n)[0] != '-' && PrintNat(n)[0] != '+'
  {
    if n < 10 {
      assert PrintNat(n)[..0] == "";
    } else {
      NatRoundTrip(n / 10);
      assert PrintNat(n)[..|PrintNat(n)| - 1] == PrintNat(n / 10);
    }
  }

  lemma IntRoundTrip(n: int)
    requires -INT64 <= n < INT64
    ensures ParseInt(PrintInt(n)) == Some(n) && DotFree(PrintInt(n))
  {
    NatRoundTrip(if n < 0 then -n else n);
    if n < 0 {
      assert PrintInt(n)[1..] == PrintNat(-n);
    }
  }

  // ---------------------------------------------------------------------------
  // base64url without padding (section 5 of RFC 4648)

  function Sextet(v: nat): char
    requires v < 64
  {
    if v < 26 then ('A' as int + v) as char
    else if v < 52 then ('a' as int + v - 26) as char
    else if v < 62 then ('0' as int + v - 52) as char
    else if v == 62 then '-' else '_'
  }

  function Base64Url(bytes: seq<Byte>): string {
    if |bytes| == 0 then ""
    else if |bytes| == 1 then [Sextet(bytes[0] / 4), Sextet(bytes[0] % 4 * 16)]
    else if |bytes| == 2 then
      [Sextet(bytes[0] / 4), Sextet(bytes[0] % 4 * 16 + bytes[1] / 16), Sextet(bytes[1] % 16 * 4)]
    else
      [Sextet(bytes[0] / 4), Sextet(bytes[0] % 4 * 16 + bytes[1] / 16),
       Sextet(bytes[1] % 16 * 4 + bytes[2] / 64), Sextet(bytes[2] % 64)] + Base64Url(bytes[3..])
  }

  lemma {:induction false} SignaturesHaveNoDot(bytes: seq<Byte>)
    ensures DotFree(Base64Url(bytes))
    decreases |bytes|
  {
    if |bytes| >= 3 {
      SignaturesHaveNoDot(bytes[3..]);
    }
  }

  // ---------------------------------------------------------------------------
  // Signing and verifying

  datatype Refusal = Malformed | BadScope | BadUser | BadInstance | BadExpiry | Expired | BadSignature

  datatype Verdict = Accepted(user: nat, instance: nat) | Refused(why: Refusal)

  function Signature(lib: Library, payload: string): string { Base64Url(lib.hmac(payload)) }

  function Sealed(lib: Library, payload: string): string { payload + "." + Signature(lib, payload) }

  function SignTerminal(lib: Library, user: nat, instance: nat, exp: int): string {
    Sealed(lib, lib.show(user) + "." + lib.show(instance) + "." + PrintInt(exp))
  }

  function SignScoped(lib: Library, scope: string, user: nat, instance: nat, exp: int): string {
    Sealed(lib, scope + "." + lib.show(user) + "." + lib.show(instance) + "." + PrintInt(exp))
  }

  /** What both verifiers do with the three claims, in this order. */
  function CheckClaims(lib: Library, now: int, user: string, instance: string, exp: string,
                       payload: string, signature: string): Verdict {
    if lib.parse(user).None? then Refused(BadUser)
    else if lib.parse(instance).None? then Refused(BadInstance)
    else if ParseInt(exp).None? then Refused(BadExpiry)
    else if now > ParseInt(exp).value then Refused(Expired)
    else if Signature(lib, payload) != signature then Refused(BadSignature)
    else Accepted(lib.parse(user).value, lib.parse(instance).value)
  }

  function VerifyTerminal(lib: Library, now: int, ticket: string): Verdict {
    var parts := Split(ticket);
    if |parts| != 4 then Refused(Malformed)
    else CheckClaims(lib, now, parts[0], parts[1], parts[2], parts[0] + "." + parts[1] + "." + parts[2], parts[3])
  }

  function VerifyScoped(lib: Library, now: int, expected: string, ticket: string): Verdict {
    var parts := Split(ticket);
    if |parts| != 5 then Refused(Malformed)
    else if parts[0] != expected then Refused(BadScope)
    else CheckClaims(lib, now, parts[1], parts[2], parts[3], Join(parts[..4]), parts[4])
  }

  /** The parts of `scope.user.instance.exp.signature`. */
  lemma ClaimParts(lib: Library, user: nat, instance: nat, exp: int, payload: string)
    requires Lawful(lib) && -INT64 <= exp < INT64
    ensures Split(lib.show(user) + "." + lib.show(instance) + "." + PrintInt(exp) + "." + Signature(lib, payload))
            == [lib.show(user), lib.show(instance), PrintInt(exp), Signature(lib, payload)]
  {
    var u, i, e, s := lib.show(user), lib.show(instance), PrintInt(exp), Signature(lib, payload);
    IntRoundTrip(exp);
    SignaturesHaveNoDot(lib.hmac(payload));
    OnePart(u);
    OnePart(i);
    OnePart(e);
    OnePart(s);
    SplitConcat(u, i);
    SplitConcat(u + "." + i, e);
    SplitConcat(u + "." + i + "." + e, s);
  }

  /** A terminal ticket is accepted, with what was signed, until it expires. */
  lemma TerminalRoundTrip(lib: Library, user: nat, instance: nat, exp: int, now: int)
    requires Lawful(lib) && -INT64 <= exp < INT64
    ensures VerifyTerminal(lib, now, SignTerminal(lib, user, instance, exp))
            == if now > exp then Refused(Expired) else Accepted(user, instance)
  {
    ClaimParts(lib, user, instance, exp, lib.show(user) + "." + lib.show(instance) + "." + PrintInt(exp));
    IntRoundTrip(exp);
  }

  lemma ScopedParts(lib: Library, scope: string, user: nat, instance: nat, exp: int)
    requires Lawful(lib) && -INT64 <= exp < INT64
    ensures var payload := scope + "." + lib.show(user) + "." + lib.show(instance) + "." + PrintInt(exp);
      Split(SignScoped(lib, scope, user, instance, exp))
      == Split(scope) + [lib.show(user), lib.show(instance), PrintInt(exp), Signature(lib, payload)]
  {
    var payload := scope + "." + lib.show(user) + "." + lib.show(instance) + "." + PrintInt(exp);
    var rest := lib.show(user) + "." + lib.show(instance) + "." + PrintInt(exp) + "." + Signature(lib, payload);
    ClaimParts(lib, user, instance, exp, payload);
    assert SignScoped(lib, scope, user, instance, exp) == scope + "." + rest;
    SplitConcat(scope, rest);
  }

  /** A scoped ticket is accepted if and only if its scope has no dot in it, is the expected
      one, and the ticket has not expired. */
  lemma ScopedRoundTrip(lib: Library, scope: string, expected: string, user: nat, instance: nat, exp: int, now: int)
    requires Lawful(lib) && -INT64 <= exp < INT64
    ensures VerifyScoped(lib, now, expected, SignScoped(lib, scope, user, instance, exp))
            == if !DotFree(scope) then Refused(Malformed)
               else if scope != expected then Refused(BadScope)
               else if now > exp then Refused(Expired)
               else Accepted(user, instance)
  {
    var ticket := SignScoped(lib, scope, user, instance, exp);
    var payload := scope + "." + lib.show(user) + "." + lib.show(instance) + "." + PrintInt(exp);
    ScopedParts(lib, scope, user, instance, exp);
    OnePart(scope);
    if DotFree(scope) {
      IntRoundTrip(exp);
      var parts := Split(ticket);
      assert parts[..4] == [scope, lib.show(user), lib.show(instance), PrintInt(exp)];
      JoinFour(parts[..4]);
    }
  }

  lemma JoinFour(parts: seq<string>)
    requires |parts| == 4
    ensures Join(parts) == parts[0] + "." + parts[1] + "." + parts[2] + "." + parts[3]
  {
    assert parts[1..][1..] == parts[2..] && parts[2..][1..] == parts[3..];
    assert Join(parts[3..]) == parts[3];
    assert Join(parts[2..]) == parts[2] + "." + parts[3];
    assert Join(parts[1..]) == parts[1] + "." + (parts[2] + "." + parts[3]);
  }

  /** Neither kind of ticket passes for the other. */
  lemma KindsAreSeparate(lib: Library, scope: string, expected: string, user: nat, instance: nat, exp: int, now: int)
    requires Lawful(lib) && -INT64 <= exp < INT64
    ensures VerifyScoped(lib, now, expected, SignTerminal(lib, user, instance, exp)) == Refused(Malformed)
    ensures VerifyTerminal(lib, now, SignScoped(lib, scope, user, instance, exp)) == Refused(Malformed)
  {
    ClaimParts(lib, user, instance, exp, lib.show(user) + "." + lib.show(instance) + "." + PrintInt(exp));
    ScopedParts(lib, scope, user, instance, exp);
  }

  /** Whatever a verifier accepts is a payload under its own signature. */
  lemma AcceptedIsSealed(lib: Library, now: int, expected: string, ticket: string)
    ensures VerifyTerminal(lib, now, ticket).Accepted? ==> ticket == Sealed(lib, Join(Split(ticket)[..3]))
    ensures VerifyScoped(lib, now, expected, ticket).Accepted? ==> ticket == Sealed(lib, Join(Split(ticket)[..4]))
  {
    var parts := Split(ticket);
    JoinUndoesSplit(ticket);
    if |parts| == 4 {
      JoinLast(parts);
      assert parts[..3][1..] == parts[1..3] && parts[1..3][1..] == parts[2..3];
      assert Join(parts[2..3]) == parts[2];
      assert Join(parts[1..3]) == parts[1] + "." + parts[2];
      assert Join(parts[..3]) == parts[0] + "." + parts[1] + "." + parts[2];
    }
    if |parts| == 5 {
      JoinLast(parts);
    }
  }

  lemma {:induction false} JoinLast(parts: seq<string>)
    requires |parts| >= 2
    ensures Join(parts) == Join(parts[..|parts| - 1]) + "." + parts[|parts| - 1]
    decreases |parts|
  {
    var n := |parts| - 1;
    if n > 1 {
      JoinLast(parts[1..]);
      assert parts[1..][..n - 1] == parts[..n][1..];
    }
  }

  /** Two accepted tickets with the same claims are the same ticket. */
  lemma SameClaimsSameTicket(lib: Library, now1: int, now2: int, expected: string, t1: string, t2: string)
    requires
      || (VerifyTerminal(lib, now1, t1).Accepted? && VerifyTerminal(lib, now2, t2).Accepted?
          && Split(t1)[..3] == Split(t2)[..3])
      || (VerifyScoped(lib, now1, expected, t1).Accepted? && VerifyScoped(lib, now2, expected, t2).Accepted?
          && Split(t1)[..4] == Split(t2)[..4])
    ensures t1 == t2
  {
    AcceptedIsSealed(lib, now1, expected, t1);
    AcceptedIsSealed(lib, now2, expected, t2);
  }
}
