/** Keeping the settings of an env file in place (the upsert loop of ensure_hermes_stack in
    backend/internal/scripts/heartbeat_hermes.go): for every setting, `sed` rewrites the
    lines that set its key, or `echo` appends one. */
module EnvFile {
  /** A text file: its lines, and whether the last one lacks its newline. */
  datatype File = File(lines: seq<string>, open: bool)

  /** A file's last line lacks its newline only if there is a character in it. */
  predicate Proper(f: File) {
    f.open ==> f.lines != [] && f.lines[|f.lines| - 1] != ""
  }

  datatype Setting = Setting(key: string, value: string)

  function Line(s: Setting): string { s.key + "=" + s.value }

  /** grep ^key= */
  predicate Sets(line: string, key: string) { key + "=" <= line }

  predicate Has(f: File, key: string) {
    exists i :: 0 <= i < |f.lines| && Sets(f.lines[i], key)
  }

  /** sed s|^key=.*|line| */
  function Rewritten(lines: seq<string>, s: Setting): seq<string> {
    seq(|lines|, i requires 0 <= i < |lines| => if Sets(lines[i], s.key) then Line(s) else lines[i])
  }

  /** echo line >> file: it continues a last line that lacks its newline. */
  function Appended(f: File, line: string): File {
    if f.open && f.lines != []
    then File(f.lines[..|f.lines| - 1] + [f.lines[|f.lines| - 1] + line], false)
    else File(f.lines + [line], false)
  }

  function UpsertOne(f: File, s: Setting): File {
    if Has(f, s.key) then f.(lines := Rewritten(f.lines, s)) else Appended(f, Line(s))
  }

  function Upsert(f: File, settings: seq<Setting>): File
    decreases |settings|
  {
    if settings == [] then f
    else UpsertOne(Upsert(f, settings[..|settings| - 1]), settings[|settings| - 1])
  }

  /** Distinct keys without an equals sign. */
  predicate WellFormed(settings: seq<Setting>) {
    && (forall i :: 0 <= i < |settings| ==> '=' !in settings[i].key)
    && (forall i, j :: 0 <= i < j < |settings| ==> settings[i].key != settings[j].key)
  }

  class Env {
    var lines: seq<string>
    var open: bool

    ghost function View(): File
      reads this
    {
      File(lines, open)
    }

    /** grep -q. */
    method Grep(key: string) returns (found: bool)
      ensures found == Has(View(), key)
    {
      found := false;
      for n := 0 to |lines|
        invariant found <==> exists i :: 0 <= i < n && Sets(lines[i], key)
      {
        if Sets(lines[n], key) {
          found := true;
        }
      }
    }

    /** One turn of the loop. */
    method PutInPlace(s: Setting)
      requires '=' !in s.key
      modifies this
      ensures View() == UpsertOne(old(View()), s)
    {
      KeyOfLine(s.key, s.value);
      var key := KeyOf(Line(s));
      var found := Grep(key);
      if found {
        lines := Rewritten(lines, s);
      } else if open && lines != [] {
        lines := lines[..|lines| - 1] + [lines[|lines| - 1] + Line(s)];
        open := false;
      } else {
        lines := lines + [Line(s)];
        open := false;
      }
    }

    /** The loop, and whether the checksum of the file changed. */
    method EnsureSettings(settings: seq<Setting>) returns (changed: bool)
      requires WellFormed(settings)
      modifies this
      ensures View() == Upsert(old(View()), settings)
      ensures changed <==> View() != old(View())
    {
      hide UpsertOne;
      var linesBefore, openBefore := lines, open;
      for n := 0 to |settings|
        invariant View() == Upsert(old(View()), settings[..n])
      {
        assert settings[..n + 1][..n] == settings[..n];
        PutInPlace(settings[n]);
      }
      assert settings[..|settings|] == settings;
      changed := lines != linesBefore || open != openBefore;
    }
  }

  // ---------------------------------------------------------------------------
  // What the loop achieves

  /** The key is set, and every line that sets it sets this value. */
  predicate InPlace(f: File, s: Setting) {
    && Has(f, s.key)
    && forall i :: 0 <= i < |f.lines| && Sets(f.lines[i], s.key) ==> f.lines[i] == Line(s)
  }

  predicate Converged(f: File, settings: seq<Setting>) {
    forall k :: 0 <= k < |settings| ==> InPlace(f, settings[k])
  }

  predicate Managed(line: string, settings: seq<Setting>) {
    exists k :: 0 <= k < |settings| && Sets(line, settings[k].key)
  }

  /** The lines that set none of the keys, in order. */
  function Others(lines: seq<string>, settings: seq<Setting>): seq<string> {
    if lines == [] then []
    else
      Others(lines[..|lines| - 1], settings)
      + if Managed(lines[|lines| - 1], settings) then [] else [lines[|lines| - 1]]
  }

  /** ${line%%=*}: what comes before the first equals sign. */
  function KeyOf(line: string): string {
    if line == "" || line[0] == '=' then "" else [line[0]] + KeyOf(line[1..])
  }

  lemma {:induction false} KeyOfLine(key: string, rest: string)
    requires '=' !in key
    ensures KeyOf(key + "=" + rest) == key
  {
    if key != "" {
      KeyOfLine(key[1..], rest);
      assert (key + "=" + rest)[1..] == key[1..] + "=" + rest;
    }
  }

  lemma {:induction false} KeyOfConcat(a: string, b: string)
    ensures KeyOf(a + b) == if '=' in a then KeyOf(a) else a + KeyOf(b)
  {
    if a == "" {
      assert a + b == b && a + KeyOf(b) == KeyOf(b);
    } else {
      KeyOfConcat(a[1..], b);
      assert (a + b)[1..] == a[1..] + b && a[0] == (a + b)[0];
      assert '=' in a <==> a[0] == '=' || '=' in a[1..];
      assert [a[0]] + (a[1..] + KeyOf(b)) == a + KeyOf(b);
    }
  }

  lemma {:induction false} LineSetsItsKey(line: string)
    requires '=' in line
    ensures Sets(line, KeyOf(line))
  {
    if line[0] != '=' {
      LineSetsItsKey(line[1..]);
      var key := KeyOf(line[1..]);
      assert key + "=" == line[1..][..|key| + 1];
      assert line[..|key| + 2] == [line[0]] + line[1..][..|key| + 1];
    }
  }

  lemma SetsItsKey(line: string, key: string)
    requires '=' !in key && Sets(line, key)
    ensures KeyOf(line) == key
  {
    assert line == key + "=" + line[|key| + 1..];
    KeyOfLine(key, line[|key| + 1..]);
  }

  /** A line sets at most one key. */
  lemma OneKey(line: string, a: string, b: string)
    requires '=' !in a && '=' !in b && Sets(line, a) && Sets(line, b)
    ensures a == b
  {
    SetsItsKey(line, a);
    SetsItsKey(line, b);
  }

  lemma LineSets(s: Setting)
    ensures Sets(Line(s), s.key)
  {
    assert Line(s) == (s.key + "=") + s.value;
  }

  /** A rewrite changes no other key's lines. */
  lemma RewriteKeeps(lines: seq<string>, s: Setting, i: nat, key: string)
    requires i < |lines| && '=' !in s.key && '=' !in key
    ensures key != s.key && Sets(lines[i], key) ==> Rewritten(lines, s)[i] == lines[i]
    ensures Sets(Rewritten(lines, s)[i], key) <==> Sets(lines[i], key)
  {
    LineSets(s);
    if Sets(lines[i], s.key) {
      if Sets(lines[i], key) {
        OneKey(lines[i], key, s.key);
      }
      if Sets(Line(s), key) {
        OneKey(Line(s), key, s.key);
      }
    }
  }

  lemma {:induction false} OthersConcat(lines: seq<string>, line: string, settings: seq<Setting>)
    ensures Others(lines + [line], settings)
            == Others(lines, settings) + if Managed(line, settings) then [] else [line]
  {
    assert (lines + [line])[..|lines|] == lines;
  }

  lemma {:induction false} OthersAfterRewrite(lines: seq<string>, k: nat, settings: seq<Setting>)
    requires WellFormed(settings) && k < |settings|
    ensures Others(Rewritten(lines, settings[k]), settings) == Others(lines, settings)
    decreases |lines|
  {
    if lines != [] {
      var n := |lines| - 1;
      var s := settings[k];
      OthersAfterRewrite(lines[..n], k, settings);
      assert Rewritten(lines, s)[..n] == Rewritten(lines[..n], s);
      if Sets(lines[n], s.key) {
        LineSets(s);
        assert Managed(lines[n], settings) && Managed(Line(s), settings);
      }
    }
  }

  lemma RewritePuts(f: File, s: Setting)
    requires '=' !in s.key && Has(f, s.key) && Proper(f)
    ensures InPlace(f.(lines := Rewritten(f.lines, s)), s) && Proper(f.(lines := Rewritten(f.lines, s)))
  {
    LineSets(s);
    var i :| 0 <= i < |f.lines| && Sets(f.lines[i], s.key);
    assert Rewritten(f.lines, s)[i] == Line(s);
    forall j | 0 <= j < |f.lines| ensures Sets(Rewritten(f.lines, s)[j], s.key) <==> Sets(f.lines[j], s.key) {
      RewriteKeeps(f.lines, s, j, s.key);
    }
  }

  /** One turn, when the file is closed or has the key. */
  lemma OneTurn(f: File, k: nat, settings: seq<Setting>)
    requires WellFormed(settings) && k < |settings| && Proper(f)
    requires !f.open || Has(f, settings[k].key)
    ensures var g := UpsertOne(f, settings[k]);
      && InPlace(g, settings[k]) && (g.open ==> f.open) && Proper(g)
      && Others(g.lines, settings) == Others(f.lines, settings)
  {
    var s := settings[k];
    LineSets(s);
    if Has(f, s.key) {
      OthersAfterRewrite(f.lines, k, settings);
      RewritePuts(f, s);
    } else {
      OthersConcat(f.lines, Line(s), settings);
      assert (f.lines + [Line(s)])[|f.lines|] == Line(s);
    }
  }

  /** It leaves every other key as it was. */
  lemma OtherKeysStay(f: File, s: Setting, other: Setting)
    requires '=' !in s.key && '=' !in other.key && s.key != other.key
    requires !f.open || Has(f, s.key)
    ensures var g := UpsertOne(f, s);
      (Has(g, other.key) <==> Has(f, other.key)) && (InPlace(f, other) ==> InPlace(g, other))
  {
    var g := UpsertOne(f, s);
    if Has(f, s.key) {
      forall i | 0 <= i < |f.lines|
        ensures Sets(g.lines[i], other.key) <==> Sets(f.lines[i], other.key)
        ensures Sets(f.lines[i], other.key) ==> g.lines[i] == f.lines[i]
      {
        RewriteKeeps(f.lines, s, i, other.key);
      }
    } else {
      LineSets(s);
      assert forall i :: 0 <= i < |f.lines| ==> g.lines[i] == f.lines[i];
      if Sets(Line(s), other.key) {
        OneKey(Line(s), s.key, other.key);
      }
    }
  }

  /** The file gets its missing keys right: it ends in a newline, or none is missing. */
  predicate Ready(f: File, settings: seq<Setting>) {
    !f.open || forall k :: 0 <= k < |settings| ==> Has(f, settings[k].key)
  }

  lemma {:induction false} ReadyConverges(f: File, settings: seq<Setting>, n: nat)
    requires WellFormed(settings) && Proper(f) && Ready(f, settings) && n <= |settings|
    ensures var g := Upsert(f, settings[..n]);
      && Proper(g) && (g.open ==> f.open)
      && (forall k :: 0 <= k < n ==> InPlace(g, settings[k]))
      && (forall k :: n <= k < |settings| ==> Has(f, settings[k].key) ==> Has(g, settings[k].key))
      && Others(g.lines, settings) == Others(f.lines, settings)
    decreases n
  {
    if n > 0 {
      ReadyConverges(f, settings, n - 1);
      assert settings[..n][..n - 1] == settings[..n - 1];
      var g, s := Upsert(f, settings[..n - 1]), settings[n - 1];
      OneTurn(g, n - 1, settings);
      forall k | 0 <= k < |settings| && k != n - 1
        ensures InPlace(g, settings[k]) ==> InPlace(UpsertOne(g, s), settings[k])
        ensures Has(g, settings[k].key) ==> Has(UpsertOne(g, s), settings[k].key)
      {
        assert s.key != settings[k].key;
        OtherKeysStay(g, s, settings[k]);
      }
    }
  }

  /** Nothing changes in a file where everything is in place, and only there. */
  lemma {:induction false} NoChangeIsExact(f: File, settings: seq<Setting>, n: nat)
    requires WellFormed(settings) && Proper(f) && n <= |settings|
    requires forall k :: 0 <= k < n ==> InPlace(f, settings[k])
    ensures Upsert(f, settings[..n]) == f
    decreases n
  {
    if n > 0 {
      NoChangeIsExact(f, settings, n - 1);
      assert settings[..n][..n - 1] == settings[..n - 1];
      assert Rewritten(f.lines, settings[n - 1]) == f.lines;
    }
  }

  // ---------------------------------------------------------------------------
  // A last line without its newline

  /** A line glued to another does not set its key. */
  lemma GluedLineSetsNothing(last: string, s: Setting)
    requires last != "" && '=' !in s.key && !Sets(last, s.key)
    ensures !Sets(last + Line(s), s.key)
  {
    KeyOfConcat(last, Line(s));
    if '=' in last {
      LineSetsItsKey(last);
    }
    KeyOfLine(s.key, s.value);
    if Sets(last + Line(s), s.key) {
      SetsItsKey(last + Line(s), s.key);
    }
  }

  /** After n turns: the first missing key is missing still, and the file is closed since
      the turn that should have appended it. */
  predicate StillMissing(f: File, g: File, settings: seq<Setting>, m: nat, n: nat)
    requires m < |settings|
  {
    && Proper(g) && !Has(g, settings[m].key) && (g.open <==> n <= m)
    && (n <= m ==> forall k :: 0 <= k < |settings| ==> (Has(g, settings[k].key) <==> Has(f, settings[k].key)))
  }

  lemma MissingTurn(f: File, g: File, settings: seq<Setting>, m: nat, n: nat)
    requires WellFormed(settings) && m < |settings| && n < |settings| && !Has(f, settings[m].key)
    requires forall k :: 0 <= k < m ==> Has(f, settings[k].key)
    requires StillMissing(f, g, settings, m, n)
    ensures StillMissing(f, UpsertOne(g, settings[n]), settings, m, n + 1)
  {
    hide Has, UpsertOne;
    var s := settings[n];
    if n < m {
      StaysOpen(g, s, settings);
    } else if n == m {
      GluedTurn(g, s);
    } else {
      assert s.key != settings[m].key;
      OtherKeysStay(g, s, settings[m]);
      TurnsStayClosed(g, s);
    }
  }

  /** Once a key's line has been glued, the key stays missing. */
  lemma {:induction false} MissingStaysMissing(f: File, settings: seq<Setting>, m: nat, n: nat)
    requires WellFormed(settings) && Proper(f) && f.open && m < |settings| && !Has(f, settings[m].key)
    requires forall k :: 0 <= k < m ==> Has(f, settings[k].key)
    requires n <= |settings|
    ensures StillMissing(f, Upsert(f, settings[..n]), settings, m, n)
    decreases n
  {
    if n == 0 {
      assert settings[..n] == [];
    } else {
      hide StillMissing, Has, UpsertOne, WellFormed;
      MissingStaysMissing(f, settings, m, n - 1);
      MissingTurn(f, Upsert(f, settings[..n - 1]), settings, m, n - 1);
      assert settings[..n][..n - 1] == settings[..n - 1];
    }
  }

  lemma StaysOpen(g: File, s: Setting, settings: seq<Setting>)
    requires WellFormed(settings) && s in settings && Proper(g) && g.open && Has(g, s.key)
    ensures var h := UpsertOne(g, s);
      Proper(h) && h.open && forall k :: 0 <= k < |settings| ==> (Has(h, settings[k].key) <==> Has(g, settings[k].key))
  {
    var j :| 0 <= j < |settings| && settings[j] == s;
    OneTurn(g, j, settings);
    forall k | 0 <= k < |settings|
      ensures Has(UpsertOne(g, s), settings[k].key) <==> Has(g, settings[k].key)
    {
      if settings[k].key != s.key {
        OtherKeysStay(g, s, settings[k]);
      }
    }
  }

  lemma GluedTurn(g: File, s: Setting)
    requires Proper(g) && g.open && '=' !in s.key && !Has(g, s.key)
    ensures !UpsertOne(g, s).open && !Has(UpsertOne(g, s), s.key)
  {
    var n := |g.lines| - 1;
    GluedLineSetsNothing(g.lines[n], s);
    var h := UpsertOne(g, s);
    assert forall i :: 0 <= i < n ==> h.lines[i] == g.lines[i];
  }

  lemma TurnsStayClosed(g: File, s: Setting)
    requires !g.open
    ensures !UpsertOne(g, s).open
  {
  }

  /** The drift guard converges exactly on the files that end in a newline or miss no key:
      then every key reads its value, the other lines are kept in order, and the next pass
      reports no change.  Otherwise the first missing key is glued to the last line, is
      still missing afterwards, and the next pass changes the file again. */
  lemma ConvergenceIsExact(f: File, settings: seq<Setting>)
    requires WellFormed(settings) && Proper(f)
    ensures var g := Upsert(f, settings);
      && (Converged(g, settings) <==> Ready(f, settings))
      && (Upsert(g, settings) == g <==> Ready(f, settings))
      && (Ready(f, settings) ==> Others(g.lines, settings) == Others(f.lines, settings))
  {
    var g := Upsert(f, settings);
    assert settings[..|settings|] == settings;
    if Ready(f, settings) {
      ReadyConverges(f, settings, |settings|);
      NoChangeIsExact(g, settings, |settings|);
    } else {
      var m := FirstMissing(f, settings);
      MissingStaysMissing(f, settings, m, |settings|);
      assert !InPlace(g, settings[m]);
      ReadyConverges(g, settings, |settings|);
      assert InPlace(Upsert(g, settings), settings[m]);
    }
  }

  lemma FirstMissing(f: File, settings: seq<Setting>) returns (m: nat)
    requires exists k :: 0 <= k < |settings| && !Has(f, settings[k].key)
    ensures m < |settings| && !Has(f, settings[m].key)
    ensures forall k :: 0 <= k < m ==> Has(f, settings[k].key)
  {
    m := 0;
    while Has(f, settings[m].key)
      invariant m < |settings| && forall k :: 0 <= k < m ==> Has(f, settings[k].key)
      invariant exists k :: m <= k < |settings| && !Has(f, settings[k].key)
      decreases |settings| - m
    {
      m := m + 1;
    }
  }

  /** Two passes are always enough. */
  lemma SecondPassConverges(f: File, settings: seq<Setting>)
    requires WellFormed(settings) && Proper(f)
    ensures Converged(Upsert(Upsert(f, settings), settings), settings)
  {
    assert settings[..|settings|] == settings;
    if Ready(f, settings) {
      ReadyConverges(f, settings, |settings|);
      NoChangeIsExact(Upsert(f, settings), settings, |settings|);
    } else {
      var m := FirstMissing(f, settings);
      MissingStaysMissing(f, settings, m, |settings|);
      ReadyConverges(Upsert(f, settings), settings, |settings|);
    }
  }

  // ---------------------------------------------------------------------------
  // The settings of the drift guard

  function GuardKeys(): seq<string> { StackKeys() + HostKeys() }

  function StackKeys(): seq<string> {
    ["DOCKER_GID", "HERMES_UID", "HERMES_GID", "API_SERVER_ENABLED", "API_SERVER_HOST", "API_SERVER_PORT",
     "API_SERVER_CORS_ORIGINS", "HERMES_DASHBOARD", "HERMES_DASHBOARD_HOST", "HERMES_DASHBOARD_PORT"]
  }

  function HostKeys(): seq<string> {
    ["HERMES_DASHBOARD_TUI", "TERMINAL_ENV", "DOCKER_HOST", "HERMES_DOCKER_BINARY", "SSL_CERT_FILE",
     "SSL_CERT_DIR", "TARDI_HOST_ADMIN_SOCKET", "TARDI_HOST_EXEC_TIMEOUT", "PATH"]
  }

  /** Distinct strings without an equals sign. */
  predicate GoodKeys(keys: seq<string>) {
    && (forall i :: 0 <= i < |keys| ==> '=' !in keys[i])
    && (forall i, j :: 0 <= i < j < |keys| ==> keys[i] != keys[j])
  }

  lemma StackKeysHaveNoEquals(i: nat)
    requires i < |StackKeys()|
    ensures '=' !in StackKeys()[i]
  {
  }

  lemma StackKeysDiffer()
    ensures forall i, j :: 0 <= i < j < |StackKeys()| ==> StackKeys()[i] != StackKeys()[j]
  {
    var keys := StackKeys();
    assert Lengths(keys) == [10, 10, 10, 18, 15, 15, 23, 16, 21, 21];
    forall i, j | 0 <= i < j < |keys| ensures keys[i] != keys[j] {
      assert |keys[i]| == Lengths(keys)[i] && |keys[j]| == Lengths(keys)[j];
      if |keys[i]| == |keys[j]| {
        assert keys[i][|keys[i]| - 4] != keys[j][|keys[i]| - 4] || keys[i][|keys[i]| - 3] != keys[j][|keys[i]| - 3]
               || keys[i][0] != keys[j][0];
      }
    }
  }

  lemma StackKeysAreGood()
    ensures GoodKeys(StackKeys())
  {
    StackKeysDiffer();
    hide StackKeys;
    forall i | 0 <= i < |StackKeys()| ensures '=' !in StackKeys()[i] {
      StackKeysHaveNoEquals(i);
    }
  }

  lemma HostKeysHaveNoEquals(i: nat)
    requires i < |HostKeys()|
    ensures '=' !in HostKeys()[i]
  {
  }

  lemma HostKeysDiffer()
    ensures forall i, j :: 0 <= i < j < |HostKeys()| ==> HostKeys()[i] != HostKeys()[j]
  {
    var keys := HostKeys();
    assert Lengths(keys) == [20, 12, 11, 20, 13, 12, 23, 23, 4];
    forall i, j | 0 <= i < j < |keys| ensures keys[i] != keys[j] {
      assert |keys[i]| == Lengths(keys)[i] && |keys[j]| == Lengths(keys)[j];
      if |keys[i]| == |keys[j]| {
        assert keys[i][|keys[i]| - 4] != keys[j][|keys[i]| - 4] || keys[i][0] != keys[j][0];
      }
    }
  }

  lemma HostKeysAreGood()
    ensures GoodKeys(HostKeys())
  {
    HostKeysDiffer();
    hide HostKeys;
    forall i | 0 <= i < |HostKeys()| ensures '=' !in HostKeys()[i] {
      HostKeysHaveNoEquals(i);
    }
  }

  function Lengths(keys: seq<string>): seq<nat> {
    seq(|keys|, i requires 0 <= i < |keys| => |keys[i]|)
  }

  /** Only one key of the first group is as long as one of the second. */
  lemma GroupsDiffer(i: nat, j: nat)
    requires i < |StackKeys()| && j < |HostKeys()|
    ensures StackKeys()[i] != HostKeys()[j]
  {
    assert Lengths(StackKeys()) == [10, 10, 10, 18, 15, 15, 23, 16, 21, 21];
    assert Lengths(HostKeys()) == [20, 12, 11, 20, 13, 12, 23, 23, 4];
    assert |StackKeys()[i]| == Lengths(StackKeys())[i] && |HostKeys()[j]| == Lengths(HostKeys())[j];
    if |StackKeys()[i]| == |HostKeys()[j]| {
      assert i == 6 && j in {6, 7};
      assert StackKeys()[6][0] == 'A' && HostKeys()[j][0] == 'T';
    }
  }

  /** The keys are distinct and have no equals sign, so the loop converges on them. */
  lemma GuardKeysAreWellFormed(settings: seq<Setting>)
    requires |settings| == |GuardKeys()| && forall i :: 0 <= i < |settings| ==> settings[i].key == GuardKeys()[i]
    ensures WellFormed(settings)
  {
    StackKeysAreGood();
    HostKeysAreGood();
    var n := |StackKeys()|;
    forall i, j | 0 <= i < j < |settings| ensures settings[i].key != settings[j].key {
      if i < n <= j {
        GroupsDiffer(i, j - n);
      }
    }
    hide StackKeys, HostKeys;
  }
}
