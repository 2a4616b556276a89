/** From `sudo args...` inside a container to a command line on the host
    (backend/internal/scripts/host_admin.go): the sudo shim quotes every argument for the
    shell, the client puts the line into a JSON body, the server decodes the body and gives
    the line to bash.  What arrives has to be the same list of arguments.  shellQuote in
    backend/internal/api/desktop.go is the same quoting without the shell's help. */
module HostCommand {
  import opened Options
  import opened Text

  // ---------------------------------------------------------------------------
  // The shim

  const SKIPPED: set<string> := {"-n", "-S", "-E", "-H", "-k", "-K", "-v"}

  /** The arguments after the flags that sudo would have taken. */
  function AfterFlags(argv: seq<string>): seq<string> {
    if argv == [] then []
    else if argv[0] in SKIPPED then AfterFlags(argv[1..])
    else if argv[0] == "--" then argv[1..]
    else argv
  }

  /** They are what is left from the first argument that is none of seven flags, without that
      argument if it is `--`. */
  lemma {:induction false} AfterFlagsIsExact(argv: seq<string>) returns (k: nat)
    ensures k <= |argv|
    ensures forall i :: 0 <= i < k ==> argv[i] in {"-n", "-S", "-E", "-H", "-k", "-K", "-v"}
    ensures k < |argv| ==> argv[k] !in {"-n", "-S", "-E", "-H", "-k", "-K", "-v"}
    ensures AfterFlags(argv) == if k < |argv| && argv[k] == "--" then argv[k + 1..] else argv[k..]
  {
    k := 0;
    if argv != [] && argv[0] in SKIPPED {
      k := AfterFlagsIsExact(argv[1..]);
      forall i | 0 <= i < k + 1 ensures argv[i] in {"-n", "-S", "-E", "-H", "-k", "-K", "-v"} {
        assert i > 0 ==> argv[i] == argv[1..][i - 1];
      }
      assert argv[1..][k..] == argv[k + 1..];
      k := k + 1;
    }
  }

  /** quote_sh: `'` becomes `'\''`, and the command substitution drops trailing newlines. */
  function QuoteSh(arg: string): string {
    "'" + StripNewlines(ReplaceAll(arg, '\'', "'\\''")) + "'"
  }

  /** shellQuote: the same without a command substitution. */
  function ShellQuote(s: string): string {
    "'" + ReplaceAll(s, '\'', "'\\''") + "'"
  }

  /** Quoted words with a space between them. */
  function CommandLine(args: seq<string>): string {
    if args == [] then ""
    else if |args| == 1 then QuoteSh(args[0])
    else CommandLine(args[..|args| - 1]) + " " + QuoteSh(args[|args| - 1])
  }

  /** The sudo script up to the call of the client. */
  method Sudo(argv: seq<string>) returns (cmd: Option<string>)
    ensures cmd == if AfterFlags(argv) == [] then None else Some(CommandLine(AfterFlags(argv)))
  {
    var args := argv;
    var scanning := true;
    while scanning && args != []
      invariant if scanning then AfterFlags(args) == AfterFlags(argv) else args == AfterFlags(argv)
      decreases |args|, scanning
    {
      if args[0] in SKIPPED {
        args := args[1..];
      } else {
        if args[0] == "--" {
          args := args[1..];
        }
        scanning := false;
      }
    }
    if args == [] {
      return None;
    }
    var line := "";
    for n := 0 to |args|
      invariant line == CommandLine(args[..n])
      invariant line == "" <==> n == 0
    {
      assert args[..n + 1][..n] == args[..n];
      if line == "" {
        line := QuoteSh(args[n]);
      } else {
        line := line + " " + QuoteSh(args[n]);
      }
    }
    assert args[..|args|] == args;
    return Some(line);
  }

  // ---------------------------------------------------------------------------
  // The client

  /** The sed program of json_string: first `\`, then `"`. */
  function JsonEscape(s: string): string {
    ReplaceAll(ReplaceAll(s, '\\', "\\\\"), '"', "\\\"")
  }

  function JsonString(s: string): string {
    "\"" + StripNewlines(JsonEscape(s)) + "\""
  }

  function Field(key: string, value: string): string {
    "\"" + key + "\":" + value
  }

  /** The request body of `host.exec cmd` with the default timeout. */
  function Body(cmd: string): string {
    "{" + Field("action", JsonString("host.exec")) + "," + Field("cmd", JsonString(cmd)) + ","
    + Field("timeout", "300") + "}"
  }

  // ---------------------------------------------------------------------------
  // JSON (section 7 of RFC 8259), as far as such bodies go

  datatype Json = Str(text: string) | Num(value: nat)

  function Unescaped(c: char): Option<char> {
    match c
    case '"' => Some('"')
    case '\\' => Some('\\')
    case '/' => Some('/')
    case 'b' => Some(8 as char)
    case 'f' => Some(12 as char)
    case 'n' => Some('\n')
    case 'r' => Some('\r')
    case 't' => Some('\t')
    case _ => None
  }

  predicate Control(c: char) { c < ' ' }

  predicate ControlFree(s: string) {
    forall i :: 0 <= i < |s| ==> !Control(s[i])
  }

  /** The rest of a string literal after its opening quote, and what follows it.  A strict
      decoder refuses control characters.  `\u` escapes are outside this model. */
  function ParseString(s: string): (r: Option<(string, string)>)
    ensures r.Some? ==> |r.value.1| < |s|
  {
    if s == "" || Control(s[0]) then None
    else if s[0] == '"' then Some(("", s[1..]))
    else if s[0] == '\\' then
      if |s| < 2 || Unescaped(s[1]).None? then None
      else
        var tail := ParseString(s[2..]);
        if tail.None? then None else Some(([Unescaped(s[1]).value] + tail.value.0, tail.value.1))
    else
      var tail := ParseString(s[1..]);
      if tail.None? then None else Some(([s[0]] + tail.value.0, tail.value.1))
  }

  predicate Digit(c: char) { '0' <= c <= '9' }

  function ParseDigits(s: string, sofar: nat): (r: (nat, string))
    ensures |r.1| <= |s|
  {
    if s != "" && Digit(s[0]) then ParseDigits(s[1..], 10 * sofar + (s[0] as int - '0' as int)) else (sofar, s)
  }

  /** A number has no leading zero, so after a zero the number is over. */
  function ParseValue(s: string): (r: Option<(Json, string)>)
    ensures r.Some? ==> |r.value.1| < |s|
  {
    if s == "" then None
    else if s[0] == '"' then
      var text := ParseString(s[1..]);
      if text.None? then None else Some((Str(text.value.0), text.value.1))
    else if s[0] == '0' then Some((Num(0), s[1..]))
    else if Digit(s[0]) then
      var number := ParseDigits(s[1..], s[0] as int - '0' as int);
      Some((Num(number.0), number.1))
    else None
  }

  /** The members of an object after its opening brace; a later key wins, and nothing may
      follow the closing brace. */
  function ParseMembers(s: string, sofar: map<string, Json>): Option<map<string, Json>>
    decreases |s|
  {
    if s == "" || s[0] != '"' then None
    else
      var key := ParseString(s[1..]);
      if key.None? || key.value.1 == "" || key.value.1[0] != ':' then None
      else
        var value := ParseValue(key.value.1[1..]);
        if value.None? || value.value.1 == "" then None
        else
          var members := sofar[key.value.0 := value.value.0];
          var rest := value.value.1;
          if rest[0] == ',' then ParseMembers(rest[1..], members)
          else if rest == "}" then Some(members)
          else None
  }

  function ParseObject(s: string): Option<map<string, Json>> {
    if s == "" || s[0] != '{' then None else ParseMembers(s[1..], map[])
  }

  // ---------------------------------------------------------------------------
  // The shell's word splitting (section 2.2 of the POSIX Shell Command Language), on the
  // lines that are defined without expansions

  datatype Mode = Outside | Quoted | Escaped

  /** The words so far, and the one being read, if any. */
  datatype Lexer = Lexer(words: seq<string>, word: Option<string>, mode: Mode)

  function Grown(word: Option<string>, c: char): Option<string> {
    Some((if word.Some? then word.value else "") + [c])
  }

  /** One character.  Outside quotes only blanks, single quotes, backslashes and the plain
      characters below are covered. */
  function LexChar(l: Lexer, c: char): Option<Lexer> {
    match l.mode
    case Quoted => Some(if c == '\'' then l.(mode := Outside) else l.(word := Grown(l.word, c)))
    case Escaped => if c == '\n' then None else Some(l.(word := Grown(l.word, c), mode := Outside))
    case Outside =>
      if c == '\'' then Some(l.(word := Some(if l.word.Some? then l.word.value else ""), mode := Quoted))
      else if c == '\\' then Some(l.(mode := Escaped))
      else if c == ' ' || c == '\t' then
        Some(if l.word.Some? then Lexer(l.words + [l.word.value], None, Outside) else l)
      else if Digit(c) || 'a' <= c <= 'z' || 'A' <= c <= 'Z' || c in "-_./:,+%@" then
        Some(l.(word := Grown(l.word, c)))
      else None
  }

  function Lex(l: Lexer, s: string): Option<Lexer>
    decreases |s|
  {
    if s == "" then Some(l)
    else
      var next := LexChar(l, s[0]);
      if next.None? then None else Lex(next.value, s[1..])
  }

  /** The words of a command line, or None if it is outside this model. */
  function ShellWords(line: string): Option<seq<string>> {
    var l := Lex(Lexer([], None, Outside), line);
    if l.None? || l.value.mode != Outside then None
    else Some(l.value.words + if l.value.word.Some? then [l.value.word.value] else [])
  }

  // ---------------------------------------------------------------------------
  // The server

  const MAX_BODY: nat := 65536
  const MAX_CMD: nat := 60000

  function Utf8Length(s: string): nat {
    if s == "" then 0
    else (if s[0] as int < 0x80 then 1 else if s[0] as int < 0x800 then 2
          else if s[0] as int < 0x10000 then 3 else 4) + Utf8Length(s[1..])
  }

  predicate Blank(s: string) {
    forall i :: 0 <= i < |s| ==> s[i] == ' ' || Control(s[i])
  }

  /** `Unmodelled`: the server runs a line that is outside this model of the shell. */
  datatype Outcome = Usage | Rejected | Unmodelled | Ran(words: seq<string>, timeout: nat)

  /** do_POST and host_exec: the size of the body, the JSON, the action, the command. */
  function Serve(body: string): Outcome {
    if Utf8Length(body) < 1 || Utf8Length(body) > MAX_BODY then Rejected
    else
      var members := ParseObject(body);
      if members.None? then Rejected
      else
        var m := members.value;
        if "action" !in m || m["action"] != Str("host.exec") then Rejected
        else if "cmd" !in m || !m["cmd"].Str? || Blank(m["cmd"].text) then Rejected
        else if Utf8Length(m["cmd"].text) > MAX_CMD then Rejected
        else
          var asked := if "timeout" in m && m["timeout"].Num? && m["timeout"].value != 0
                       then m["timeout"].value else 300;
          var words := ShellWords(m["cmd"].text);
          if words.None? then Unmodelled else Ran(words.value, if asked < 3600 then asked else 3600)
  }

  /** The whole way. */
  function Pipeline(argv: seq<string>): Outcome {
    var args := AfterFlags(argv);
    if args == [] then Usage else Serve(Body(CommandLine(args)))
  }

  // ---------------------------------------------------------------------------
  // Quoting is undone by the shell

  lemma {:induction false} LexConcat(l: Lexer, a: string, b: string)
    ensures Lex(l, a + b) == if Lex(l, a).None? then None else Lex(Lex(l, a).value, b)
    decreases |a|
  {
    if a == "" {
      assert a + b == b;
    } else {
      assert (a + b)[1..] == a[1..] + b;
      var next := LexChar(l, a[0]);
      if next.Some? {
        LexConcat(next.value, a[1..], b);
      }
    }
  }

  /** Inside quotes, the replaced text adds exactly the original text to the word. */
  lemma {:induction false} LexReplaced(l: Lexer, s: string)
    requires l.mode == Quoted && l.word.Some?
    ensures Lex(l, ReplaceAll(s, '\'', "'\\''")) == Some(l.(word := Some(l.word.value + s)))
    decreases |s|
  {
    if s == "" {
      assert l.word.value + s == l.word.value;
    } else {
      var first := if s[0] == '\'' then "'\\''" else [s[0]];
      var grown := l.(word := Some(l.word.value + [s[0]]));
      assert Lex(l, first) == Some(grown) by {
        if s[0] == '\'' {
          assert Lex(l, first) == Lex(l.(mode := Outside), first[1..]);
          assert first[1..][1..] == first[2..] && first[2..][1..] == first[3..] && first[3..][1..] == "";
          assert Lex(l.(mode := Outside), first[1..]) == Lex(l.(mode := Escaped), first[2..]);
          assert Lex(l.(mode := Escaped), first[2..]) == Lex(grown.(mode := Outside), first[3..]);
          assert Lex(grown.(mode := Outside), first[3..]) == Lex(grown, "");
        } else {
          assert first[1..] == "";
        }
      }
      LexConcat(l, first, ReplaceAll(s[1..], '\'', "'\\''"));
      LexReplaced(grown, s[1..]);
      assert l.word.value + [s[0]] + s[1..] == l.word.value + s;
    }
  }

  /** One quoted word, read from a blank position. */
  lemma LexQuoted(words: seq<string>, s: string)
    ensures Lex(Lexer(words, None, Outside), ShellQuote(s)) == Some(Lexer(words, Some(s), Outside))
  {
    var inner := ReplaceAll(s, '\'', "'\\''");
    var quoted := Lexer(words, Some(""), Quoted);
    assert ShellQuote(s)[1..] == inner + "'";
    LexReplaced(quoted, s);
    assert "" + s == s;
    LexConcat(quoted, inner, "'");
    assert "'"[1..] == "";
  }

  /** Every string survives quoting: the shell reads shellQuote(s) as the one word s. */
  lemma ShellQuoteIsOneWord(s: string)
    ensures ShellWords(ShellQuote(s)) == Some([s])
  {
    LexQuoted([], s);
    assert [] + [s] == [s];
  }

  /** The arguments as the shim passes them on. */
  function Stripped(args: seq<string>): seq<string> {
    seq(|args|, i requires 0 <= i < |args| => StripNewlines(args[i]))
  }

  lemma QuoteShStrips(arg: string)
    ensures QuoteSh(arg) == ShellQuote(StripNewlines(arg))
  {
    StripCommutes(arg, '\'', "'\\''");
  }

  lemma {:induction false} LexCommandLine(args: seq<string>)
    requires args != []
    ensures var n := |args| - 1;
      Lex(Lexer([], None, Outside), CommandLine(args))
      == Some(Lexer(Stripped(args[..n]), Some(StripNewlines(args[n])), Outside))
    decreases |args|
  {
    var n := |args| - 1;
    var start := Lexer([], None, Outside);
    QuoteShStrips(args[n]);
    LexQuoted(Stripped(args[..n]), StripNewlines(args[n]));
    if n == 0 {
      assert Stripped(args[..n]) == [];
    } else {
      LexCommandLine(args[..n]);
      var line := CommandLine(args[..n]);
      LexConcat(start, line, " ");
      assert args[..n][..n - 1] == args[..n - 1];
      var last := StripNewlines(args[n - 1]);
      assert Stripped(args[..n - 1]) + [last] == Stripped(args[..n]);
      assert " "[1..] == "";
      assert Lex(start, line + " ") == Some(Lexer(Stripped(args[..n]), None, Outside));
      LexConcat(start, line + " ", QuoteSh(args[n]));
    }
  }

  lemma CommandLineSplits(args: seq<string>)
    requires args != []
    ensures ShellWords(CommandLine(args)) == Some(Stripped(args))
  {
    LexCommandLine(args);
    var n := |args| - 1;
    assert Stripped(args[..n]) + [StripNewlines(args[n])] == Stripped(args);
  }

  // ---------------------------------------------------------------------------
  // Escaping is undone by the decoder

  lemma NothingToEscape()
    ensures JsonEscape("") == ""
  {
  }

  function EscapedChar(c: char): string {
    if c == '\\' then "\\\\" else if c == '"' then "\\\"" else [c]
  }

  lemma JsonEscapeFirst(s: string)
    requires s != ""
    ensures JsonEscape(s) == EscapedChar(s[0]) + JsonEscape(s[1..])
  {
    var first := if s[0] == '\\' then "\\\\" else [s[0]];
    ReplaceAllConcat(first, ReplaceAll(s[1..], '\\', "\\\\"), '"', "\\\"");
    assert first[1..] == if s[0] == '\\' then "\\" else "";
    assert ReplaceAll("\\", '"', "\\\"") == "\\" by {
      assert "\\"[1..] == "";
    }
  }

  lemma EscapedCharParses(c: char, tail: string)
    ensures ParseString(EscapedChar(c) + tail)
            == if Control(c) || ParseString(tail).None? then None
               else Some(([c] + ParseString(tail).value.0, ParseString(tail).value.1))
  {
    if c == '\\' || c == '"' {
      assert EscapedChar(c) + tail == ['\\', c] + tail && (['\\', c] + tail)[2..] == tail;
    } else {
      assert ([c] + tail)[1..] == tail;
    }
  }

  /** A string without control characters comes back; any other is refused. */
  lemma {:induction false} EscapedParses(s: string, rest: string)
    ensures ParseString(JsonEscape(s) + "\"" + rest) == if ControlFree(s) then Some((s, rest)) else None
    decreases |s|
  {
    hide JsonEscape, EscapedChar;
    if s == "" {
      NothingToEscape();
      assert "" + "\"" + rest == "\"" + rest && ("\"" + rest)[1..] == rest;
    } else {
      JsonEscapeFirst(s);
      EscapedParses(s[1..], rest);
      var tail := JsonEscape(s[1..]) + "\"" + rest;
      EscapedCharParses(s[0], tail);
      assert JsonEscape(s) + "\"" + rest == EscapedChar(s[0]) + tail;
      assert ControlFree(s) <==> !Control(s[0]) && ControlFree(s[1..]) by {
        assert forall i :: 0 < i < |s| ==> s[i] == s[1..][i - 1];
      }
      assert [s[0]] + s[1..] == s;
    }
  }

  /** Nothing to escape and nothing to refuse. */
  predicate PlainText(s: string) {
    forall i :: 0 <= i < |s| ==> s[i] != '\\' && s[i] != '"' && !Control(s[i])
  }

  lemma {:induction false} PlainEscapes(s: string)
    requires PlainText(s)
    ensures JsonEscape(s) == s && ControlFree(s) && StripNewlines(s) == s
  {
    if s == "" {
      NothingToEscape();
    } else {
      JsonEscapeFirst(s);
      PlainEscapes(s[1..]);
    }
  }

  lemma JsonStringEscapes(s: string)
    requires StripNewlines(s) == s
    ensures JsonString(s) == "\"" + JsonEscape(s) + "\""
  {
    StripCommutes(s, '\\', "\\\\");
    StripCommutes(ReplaceAll(s, '\\', "\\\\"), '"', "\\\"");
  }

  lemma KeyParses(key: string, rest: string)
    requires PlainText(key)
    ensures ParseString(key + "\"" + rest) == Some((key, rest))
  {
    PlainEscapes(key);
    EscapedParses(key, rest);
  }

  lemma ValueParses(value: string, rest: string)
    requires StripNewlines(value) == value
    ensures ParseValue(JsonString(value) + rest) == if ControlFree(value) then Some((Str(value), rest)) else None
  {
    JsonStringEscapes(value);
    EscapedParses(value, rest);
    hide JsonEscape, JsonString, ParseString;
    var text := JsonEscape(value) + "\"" + rest;
    assert JsonString(value) + rest == "\"" + text;
    assert ("\"" + text)[1..] == text;
  }

  /** One member, whatever follows its value. */
  lemma MemberText(key: string, value: string, rest: string)
    ensures Field(key, value) + rest == "\"" + (key + "\"" + (":" + (value + rest)))
    ensures (Field(key, value) + rest)[1..] == key + "\"" + (":" + (value + rest))
    ensures (":" + (value + rest))[1..] == value + rest
  {
  }

  /** One member with a string value, and more to come. */
  lemma MemberParses(key: string, value: string, more: string, sofar: map<string, Json>)
    requires PlainText(key) && StripNewlines(value) == value
    ensures ParseMembers(Field(key, JsonString(value)) + "," + more, sofar)
            == if ControlFree(value) then ParseMembers(more, sofar[key := Str(value)]) else None
  {
    var rest := "," + more;
    assert rest[1..] == more;
    assert Field(key, JsonString(value)) + "," + more == Field(key, JsonString(value)) + rest;
    MemberText(key, JsonString(value), rest);
    KeyParses(key, ":" + (JsonString(value) + rest));
    ValueParses(value, rest);
    hide Field, JsonString, ParseString, ParseValue, ControlFree, StripNewlines;
  }

  lemma ThreeHundred()
    ensures ParseValue("300" + "}") == Some((Num(300), "}"))
  {
    var text := "300" + "}";
    assert text[1..][1..] == text[2..] && text[2..][1..] == "}" && text[3..] == "}";
    assert ParseDigits(text[3..], 300) == (300, "}");
    assert ParseDigits(text[2..], 30) == (300, "}");
    assert ParseDigits(text[1..], 3) == (300, "}");
  }

  /** The last member, a number. */
  lemma LastMemberParses(key: string, sofar: map<string, Json>)
    requires PlainText(key)
    ensures ParseMembers(Field(key, "300") + "}", sofar) == Some(sofar[key := Num(300)])
  {
    MemberText(key, "300", "}");
    KeyParses(key, ":" + ("300" + "}"));
    ThreeHundred();
    hide Field, ParseString, ParseValue;
  }

  lemma ObjectParses(k1: string, v1: string, k2: string, v2: string, k3: string)
    requires PlainText(k1) && PlainText(k2) && PlainText(k3) && PlainText(v1) && StripNewlines(v2) == v2
    ensures ParseObject("{" + Field(k1, JsonString(v1)) + "," + Field(k2, JsonString(v2)) + ","
                        + Field(k3, "300") + "}")
            == if ControlFree(v2) then Some(map[][k1 := Str(v1)][k2 := Str(v2)][k3 := Num(300)]) else None
  {
    hide ParseMembers, JsonString, Field;
    PlainEscapes(v1);
    var last := Field(k3, "300") + "}";
    var second := Field(k2, JsonString(v2)) + "," + last;
    var sofar: map<string, Json> := map[][k1 := Str(v1)];
    MemberParses(k1, v1, second, map[]);
    MemberParses(k2, v2, last, sofar);
    LastMemberParses(k3, sofar[k2 := Str(v2)]);
    var text := "{" + Field(k1, JsonString(v1)) + "," + Field(k2, JsonString(v2)) + "," + Field(k3, "300") + "}";
    assert text[1..] == Field(k1, JsonString(v1)) + "," + second;
  }

  /** The server decodes exactly the command the client was given. */
  lemma BodyParses(cmd: string)
    requires StripNewlines(cmd) == cmd
    ensures ParseObject(Body(cmd))
            == if ControlFree(cmd)
               then Some(map[]["action" := Str("host.exec")]["cmd" := Str(cmd)]["timeout" := Num(300)])
               else None
  {
    hide JsonString, Field, ParseObject;
    ObjectParses("action", "host.exec", "cmd", cmd, "timeout");
  }

  // ---------------------------------------------------------------------------
  // Sizes and refusals

  predicate AllControlFree(args: seq<string>) {
    forall i :: 0 <= i < |args| ==> ControlFree(args[i])
  }

  /** Bytes of the quoted command line, and how many more its JSON escapes take. */
  function LineSize(args: seq<string>): nat {
    if args == [] then 0
    else
      var arg := StripNewlines(args[|args| - 1]);
      LineSize(args[..|args| - 1]) + (if |args| == 1 then 2 else 3) + Utf8Length(arg) + 3 * Count(arg, '\'')
  }

  function EscapeSize(args: seq<string>): nat {
    if args == [] then 0
    else
      var arg := StripNewlines(args[|args| - 1]);
      EscapeSize(args[..|args| - 1]) + Count(arg, '\'') + Count(arg, '\\') + Count(arg, '"')
  }

  const ENVELOPE: nat := 45

  predicate Fits(args: seq<string>) {
    LineSize(args) <= 60000 && 45 + LineSize(args) + EscapeSize(args) <= 65536
  }

  lemma {:induction false} Utf8Concat(a: string, b: string)
    ensures Utf8Length(a + b) == Utf8Length(a) + Utf8Length(b)
  {
    if a == "" {
      assert a + b == b;
    } else {
      assert (a + b)[1..] == a[1..] + b;
      Utf8Concat(a[1..], b);
    }
  }

  lemma {:induction false} Utf8Ascii(s: string)
    requires forall i :: 0 <= i < |s| ==> s[i] as int < 0x80
    ensures Utf8Length(s) == |s|
  {
    if s != "" {
      Utf8Ascii(s[1..]);
    }
  }

  lemma {:induction false} CountConcat(a: string, b: string, c: char)
    ensures Count(a + b, c) == Count(a, c) + Count(b, c)
  {
    if a == "" {
      assert a + b == b;
    } else {
      assert (a + b)[1..] == a[1..] + b;
      CountConcat(a[1..], b, c);
    }
  }

  /** What the replacement of `'` costs, character by character. */
  lemma {:induction false} ReplacedSize(s: string)
    ensures var r := ReplaceAll(s, '\'', "'\\''");
      && Utf8Length(r) == Utf8Length(s) + 3 * Count(s, '\'')
      && Count(r, '\\') == Count(s, '\\') + Count(s, '\'')
      && Count(r, '"') == Count(s, '"')
      && (ControlFree(r) <==> ControlFree(s))
  {
    if s != "" {
      ReplacedSize(s[1..]);
      QuotedChar(s[0]);
      Joined(if s[0] == '\'' then "'\\''" else [s[0]], ReplaceAll(s[1..], '\'', "'\\''"));
      Joined([s[0]], s[1..]);
      CountConcat([s[0]], s[1..], '\'');
      assert [s[0]] + s[1..] == s;
      hide Utf8Length, Count, ControlFree;
    }
  }

  lemma QuotedChar(c: char)
    ensures var r := if c == '\'' then "'\\''" else [c];
      && Utf8Length(r) == Utf8Length([c]) + 3 * Count([c], '\'')
      && Count(r, '\\') == Count([c], '\\') + Count([c], '\'')
      && Count(r, '"') == Count([c], '"')
      && (ControlFree(r) <==> ControlFree([c]))
  {
    assert [c][1..] == "" && Count([c], '\'') == if c == '\'' then 1 else 0;
    QuoteMark();
    if c == '\'' {
      OneChar("'");
      assert [c] == "'";
    }
  }

  lemma QuoteMark()
    ensures Utf8Length("'\\''") == 4 && Count("'\\''", '\\') == 1 && Count("'\\''", '"') == 0
    ensures ControlFree("'\\''")
  {
    Utf8Ascii("'\\''");
    assert "'\\''"[1..] == "\\''" && "\\''"[1..] == "''" && "''"[1..] == "'" && "'"[1..] == "";
  }

  lemma ControlFreeConcat(a: string, b: string)
    ensures ControlFree(a + b) <==> ControlFree(a) && ControlFree(b)
  {
    assert forall i :: 0 <= i < |b| ==> (a + b)[|a| + i] == b[i];
    assert forall i :: 0 <= i < |a| ==> (a + b)[i] == a[i];
  }

  lemma QuotedSize(s: string)
    ensures var q := ShellQuote(s);
      && Utf8Length(q) == 2 + Utf8Length(s) + 3 * Count(s, '\'')
      && Count(q, '\\') + Count(q, '"') == Count(s, '\'') + Count(s, '\\') + Count(s, '"')
      && (ControlFree(q) <==> ControlFree(s))
  {
    var inner := ReplaceAll(s, '\'', "'\\''");
    ReplacedSize(s);
    assert ShellQuote(s) == "'" + (inner + "'");
    Joined(inner, "'");
    Joined("'", inner + "'");
    OneChar("'");
  }

  /** Sizes and refusals of a concatenation. */
  lemma Joined(a: string, b: string)
    ensures Utf8Length(a + b) == Utf8Length(a) + Utf8Length(b)
    ensures Count(a + b, '\\') == Count(a, '\\') + Count(b, '\\')
    ensures Count(a + b, '"') == Count(a, '"') + Count(b, '"')
    ensures ControlFree(a + b) <==> ControlFree(a) && ControlFree(b)
  {
    Utf8Concat(a, b);
    CountConcat(a, b, '\\');
    CountConcat(a, b, '"');
    ControlFreeConcat(a, b);
  }

  lemma OneChar(s: string)
    requires |s| == 1 && ' ' <= s[0] < '~' && s[0] != '\\' && s[0] != '"'
    ensures Utf8Length(s) == 1 && Count(s, '\\') == 0 && Count(s, '"') == 0 && ControlFree(s)
  {
    assert s[1..] == "";
  }

  lemma {:induction false} CommandLineSize(args: seq<string>)
    requires args != []
    ensures var line := CommandLine(args);
      && Utf8Length(line) == LineSize(args)
      && Count(line, '\\') + Count(line, '"') == EscapeSize(args)
      && (ControlFree(line) <==> AllControlFree(Stripped(args)))
      && line != "" && line[|line| - 1] == '\''
    decreases |args|
  {
    hide ShellQuote, Count, Utf8Length;
    var n := |args| - 1;
    var arg := StripNewlines(args[n]);
    var init := args[..n];
    QuoteShStrips(args[n]);
    QuotedSize(arg);
    LastQuote(arg);
    assert Stripped(args) == Stripped(init) + [arg];
    AllControlFreeSnoc(Stripped(init), arg);
    hide Stripped, AllControlFree, ControlFree, StripNewlines;
    if n == 0 {
      assert init == [];
    } else {
      CommandLineSize(init);
      Joined(CommandLine(init), " ");
      Joined(CommandLine(init) + " ", ShellQuote(arg));
      OneChar(" ");
    }
  }

  lemma AllControlFreeSnoc(args: seq<string>, arg: string)
    ensures AllControlFree(args + [arg]) <==> AllControlFree(args) && ControlFree(arg)
  {
    assert (args + [arg])[|args|] == arg;
    assert forall i :: 0 <= i < |args| ==> (args + [arg])[i] == args[i];
  }

  lemma LastQuote(s: string)
    ensures ShellQuote(s) != "" && ShellQuote(s)[|ShellQuote(s)| - 1] == '\''
  {
  }

  lemma {:induction false} EscapedSize(s: string)
    ensures Utf8Length(JsonEscape(s)) == Utf8Length(s) + Count(s, '\\') + Count(s, '"')
  {
    if s != "" {
      JsonEscapeFirst(s);
      EscapedSize(s[1..]);
      Utf8Concat(EscapedChar(s[0]), JsonEscape(s[1..]));
      Utf8Concat([s[0]], s[1..]);
      assert [s[0]] + s[1..] == s;
      if s[0] == '\\' || s[0] == '"' {
        Utf8Ascii(EscapedChar(s[0]));
        Utf8Ascii([s[0]]);
      }
    }
  }

  lemma FieldSize(key: string, value: string)
    requires forall i :: 0 <= i < |key| ==> key[i] as int < 0x80
    ensures Utf8Length(Field(key, value)) == |key| + 3 + Utf8Length(value)
  {
    Utf8Ascii(key);
    Utf8Ascii("\"");
    Utf8Ascii("\":");
    Utf8Concat("\"", key);
    Utf8Concat("\"" + key, "\":");
    Utf8Concat("\"" + key + "\":", value);
  }

  lemma JsonStringSize(s: string)
    requires StripNewlines(s) == s
    ensures Utf8Length(JsonString(s)) == 2 + Utf8Length(s) + Count(s, '\\') + Count(s, '"')
  {
    JsonStringEscapes(s);
    EscapedSize(s);
    Utf8Ascii("\"");
    Utf8Concat("\"", JsonEscape(s));
    Utf8Concat("\"" + JsonEscape(s), "\"");
  }

  lemma {:induction false} PlainCount(s: string)
    requires PlainText(s)
    ensures Count(s, '\\') == 0 && Count(s, '"') == 0
  {
    if s != "" {
      PlainCount(s[1..]);
    }
  }

  lemma ObjectSize(f1: string, f2: string, f3: string)
    ensures Utf8Length("{" + f1 + "," + f2 + "," + f3 + "}")
            == 4 + Utf8Length(f1) + Utf8Length(f2) + Utf8Length(f3)
  {
    Utf8Ascii("{");
    Utf8Ascii(",");
    Utf8Ascii("}");
    Utf8Concat("{", f1);
    Utf8Concat("{" + f1, ",");
    Utf8Concat("{" + f1 + ",", f2);
    Utf8Concat("{" + f1 + "," + f2, ",");
    Utf8Concat("{" + f1 + "," + f2 + ",", f3);
    Utf8Concat("{" + f1 + "," + f2 + "," + f3, "}");
  }

  lemma RequestSize(k1: string, v1: string, k2: string, v2: string, k3: string, v3: string)
    requires PlainText(v1) && StripNewlines(v2) == v2
    requires forall s, i :: s in [k1, v1, k2, k3, v3] && 0 <= i < |s| ==> s[i] as int < 0x80
    ensures Utf8Length("{" + Field(k1, JsonString(v1)) + "," + Field(k2, JsonString(v2)) + "," + Field(k3, v3) + "}")
            == 17 + |k1| + |v1| + |k2| + Utf8Length(v2) + Count(v2, '\\') + Count(v2, '"') + |k3| + |v3|
  {
    hide JsonString, Field, Count, Utf8Length;
    ObjectSize(Field(k1, JsonString(v1)), Field(k2, JsonString(v2)), Field(k3, v3));
    FieldSize(k1, JsonString(v1));
    FieldSize(k2, JsonString(v2));
    FieldSize(k3, v3);
    PlainEscapes(v1);
    PlainCount(v1);
    JsonStringSize(v1);
    JsonStringSize(v2);
    Utf8Ascii(v1);
    Utf8Ascii(v3);
  }

  lemma BodySize(cmd: string)
    requires StripNewlines(cmd) == cmd
    ensures Utf8Length(Body(cmd)) == ENVELOPE + Utf8Length(cmd) + Count(cmd, '\\') + Count(cmd, '"')
  {
    hide JsonString, Field, Count, Utf8Length;
    RequestSize("action", "host.exec", "cmd", cmd, "timeout", "300");
  }

  // ---------------------------------------------------------------------------
  // The whole way

  lemma ServedCommand(cmd: string)
    requires StripNewlines(cmd) == cmd && cmd != "" && cmd[|cmd| - 1] == '\'' && ShellWords(cmd).Some?
    ensures Serve(Body(cmd))
            == if Utf8Length(Body(cmd)) <= MAX_BODY && Utf8Length(cmd) <= MAX_CMD && ControlFree(cmd)
               then Ran(ShellWords(cmd).value, 300) else Rejected
  {
    hide Body, ParseObject, ShellWords;
    BodyParses(cmd);
    BodySize(cmd);
  }

  /** What becomes of every sudo call.  The host runs the arguments with their trailing
      newlines gone, or the server refuses: because of a control character that is left,
      or because of the size.  Nothing else can reach the host. */
  lemma EveryOutcome(argv: seq<string>)
    ensures var args := AfterFlags(argv);
      Pipeline(argv) == if args == [] then Usage
                        else if Fits(args) && AllControlFree(Stripped(args)) then Ran(Stripped(args), 300)
                        else Rejected
  {
    hide Serve, Body, ShellWords;
    var args := AfterFlags(argv);
    if args != [] {
      var cmd := CommandLine(args);
      CommandLineSize(args);
      CommandLineSplits(args);
      BodySize(cmd);
      ServedCommand(cmd);
    }
  }

  /** The arguments arrive exactly as given if and only if none contains a control character
      and the line is not too long. */
  lemma DeliveryIsExact(argv: seq<string>)
    ensures var args := AfterFlags(argv);
      Pipeline(argv) == Ran(args, 300) <==> args != [] && Fits(args) && AllControlFree(args)
  {
    hide Pipeline, Fits, AfterFlags;
    var args := AfterFlags(argv);
    EveryOutcome(argv);
    if AllControlFree(args) {
      forall i | 0 <= i < |args| ensures StripNewlines(args[i]) == args[i] {
        assert ControlFree(args[i]);
      }
      assert Stripped(args) == args;
    }
  }
}
