/** Updating an agent configuration (UpdateAgentConfigAtomic and CreateAgentConfig in
    backend/internal/db/queries.go).  An update reads the row under a lock, keeps some
    secrets the caller left out, and writes the row back with the next version.  When there
    is no row yet there is nothing to lock. */
module ConfigMerge {
  import opened Options

  type Key = string

  /** A JSON value, as far as the merge looks at it. */
  datatype Value = Null | Text(text: string) | Json(id: nat)

  type Config = map<Key, Value>

  datatype Row = Row(config: Config, version: nat)

  /** `merged[key] != nil`: the update says something about the key. */
  predicate Carries(updates: Config, key: Key) {
    key in updates && updates[key] != Null
  }

  /** The key holds a string worth keeping. */
  predicate HoldsText(config: Config, key: Key) {
    key in config && config[key].Text? && config[key].text != ""
  }

  predicate Kept(existing: Config, updates: Config, preserve: seq<Key>, key: Key) {
    key in preserve && !Carries(updates, key) && HoldsText(existing, key)
  }

  /** The merged configuration, key by key. */
  function Merge(existing: Config, updates: Config, preserve: seq<Key>): Config {
    map key | key in updates.Keys + existing.Keys && (key in updates || Kept(existing, updates, preserve, key))
      :: if Kept(existing, updates, preserve, key) then existing[key] else updates[key]
  }

  /** The same in terms of the two maps alone.  A value of the caller's wins; a preserved key
      that the caller leaves out or sets to null keeps its old text, unless that is empty;
      every other key is as the caller has it. */
  ghost predicate IsMerged(existing: Config, updates: Config, preserve: seq<Key>, merged: Config) {
    && (forall key :: key in updates && updates[key] != Null ==> key in merged && merged[key] == updates[key])
    && (forall key :: key in preserve && (key in updates ==> updates[key] == Null)
                      && key in existing && existing[key].Text? && existing[key] != Text("") ==>
          key in merged && merged[key] == existing[key])
    && (forall key :: !(key in preserve && key in existing && existing[key].Text? && existing[key] != Text("")) ==>
          && (key in merged <==> key in updates)
          && (key in merged ==> merged[key] == updates[key]))
  }

  lemma MergeIsExact(existing: Config, updates: Config, preserve: seq<Key>, merged: Config)
    ensures merged == Merge(existing, updates, preserve) <==> IsMerged(existing, updates, preserve, merged)
  {
    var expected := Merge(existing, updates, preserve);
    if IsMerged(existing, updates, preserve, merged) {
      forall key ensures key in merged <==> key in expected {
        MergedAt(existing, updates, preserve, merged, key);
      }
      forall key | key in merged ensures merged[key] == expected[key] {
        MergedAt(existing, updates, preserve, merged, key);
      }
    }
  }

  lemma MergedAt(existing: Config, updates: Config, preserve: seq<Key>, merged: Config, key: Key)
    requires IsMerged(existing, updates, preserve, merged)
    ensures var expected := Merge(existing, updates, preserve);
      (key in merged <==> key in expected) && (key in merged ==> merged[key] == expected[key])
  {
  }

  /** The loop that fills the caller's map in place. */
  method MergeInto(existing: Config, updates: Config, preserve: seq<Key>) returns (merged: Config)
    ensures merged == Merge(existing, updates, preserve) && IsMerged(existing, updates, preserve, merged)
  {
    merged := updates;
    MergeNothing(existing, updates);
    hide Merge;
    for n := 0 to |preserve|
      invariant merged == Merge(existing, updates, preserve[..n])
    {
      var key := preserve[n];
      assert preserve[..n + 1] == preserve[..n] + [key];
      MergeOneMore(existing, updates, preserve[..n], key);
      if !Carries(merged, key) && HoldsText(existing, key) {
        merged := merged[key := existing[key]];
      }
    }
    assert preserve[..|preserve|] == preserve;
    MergeIsExact(existing, updates, preserve, merged);
  }

  lemma MergeNothing(existing: Config, updates: Config)
    ensures Merge(existing, updates, []) == updates
  {
  }

  lemma MergeOneMore(existing: Config, updates: Config, preserve: seq<Key>, key: Key)
    ensures var merged := Merge(existing, updates, preserve);
      Merge(existing, updates, preserve + [key])
      == if !Carries(merged, key) && HoldsText(existing, key) then merged[key := existing[key]] else merged
  {
    assert forall k :: k in preserve + [key] <==> k in preserve || k == key;
  }

  /** What one committed change did to the row. */
  datatype Change = Merged(updates: Config) | Overwritten(config: Config, firstVersion: nat)

  function Applied(row: Option<Row>, change: Change, preserve: seq<Key>): Option<Row> {
    match (row, change)
    case (None, Merged(updates)) => Some(Row(updates, 1))
    case (Some(r), Merged(updates)) => Some(Row(Merge(r.config, updates, preserve), r.version + 1))
    case (None, Overwritten(config, firstVersion)) => Some(Row(config, firstVersion))
    case (Some(r), Overwritten(config, _)) => Some(Row(config, r.version + 1))
  }

  /** The changes one after the other. */
  function Fold(row: Option<Row>, changes: seq<Change>, preserve: seq<Key>): Option<Row>
    decreases |changes|
  {
    if changes == [] then row
    else Applied(Fold(row, changes[..|changes| - 1], preserve), changes[|changes| - 1], preserve)
  }

  // ---------------------------------------------------------------------------
  // Transactions side by side

  /** A transaction after its SELECT ... FOR UPDATE.  It holds the row lock exactly when it
      saw a row. */
  datatype Tx = Tx(updates: Config, seen: Option<Config>)

  datatype State = State(row: Option<Row>, txs: map<nat, Tx>, lock: Option<nat>, log: seq<Change>)

  datatype Action =
    | Begin(t: nat, updates: Config)
    | Commit(t: nat)
    | Abort(t: nat)
    | Overwrite(config: Config, firstVersion: nat)   // CreateAgentConfig

  /** An action, or None where the transaction has to wait or does not exist. */
  function Next(s: State, a: Action, preserve: seq<Key>): Option<State> {
    match a
    case Begin(t, updates) =>
      if t in s.txs || s.lock.Some? then None
      else Some(s.(txs := s.txs[t := Tx(updates, if s.row.Some? then Some(s.row.value.config) else None)],
                   lock := if s.row.Some? then Some(t) else None))
    case Commit(t) =>
      if t !in s.txs || s.lock !in {None, Some(t)} then None
      else
        var tx := s.txs[t];
        var merged := if tx.seen.Some? then Merge(tx.seen.value, tx.updates, preserve) else tx.updates;
        var version := if s.row.Some? then s.row.value.version + 1 else 1;
        Some(State(Some(Row(merged, version)), s.txs - {t}, None, s.log + [Merged(tx.updates)]))
    case Abort(t) =>
      if t !in s.txs then None
      else Some(s.(txs := s.txs - {t}, lock := if s.lock == Some(t) then None else s.lock))
    case Overwrite(config, firstVersion) =>
      if s.lock.Some? then None
      else
        var version := if s.row.Some? then s.row.value.version + 1 else firstVersion;
        Some(s.(row := Some(Row(config, version)), log := s.log + [Overwritten(config, firstVersion)]))
  }

  function Init(row: Option<Row>): State { State(row, map[], None, []) }

  function Run(row: Option<Row>, actions: seq<Action>, preserve: seq<Key>): Option<State>
    decreases |actions|
  {
    if actions == [] then Some(Init(row))
    else
      var before := Run(row, actions[..|actions| - 1], preserve);
      if before.None? then None else Next(before.value, actions[|actions| - 1], preserve)
  }

  /** With a row, every open transaction holds the lock on what it saw. */
  predicate Locked(s: State) {
    && s.row.Some?
    && (forall t :: t in s.txs ==> s.lock == Some(t) && s.txs[t].seen == Some(s.row.value.config))
  }

  lemma {:induction false} RunsOnARowAreSerial(row: Option<Row>, actions: seq<Action>, preserve: seq<Key>)
    requires row.Some? && Run(row, actions, preserve).Some?
    ensures var s := Run(row, actions, preserve).value;
      Locked(s) && s.row == Fold(row, s.log, preserve)
    decreases |actions|
  {
    if actions != [] {
      var n := |actions| - 1;
      hide Next, Fold, Locked;
      RunsOnARowAreSerial(row, actions[..n], preserve);
      StepOnARow(row, Run(row, actions[..n], preserve).value, actions[n], preserve);
    }
  }

  lemma FoldMore(row: Option<Row>, log: seq<Change>, change: Change, preserve: seq<Key>)
    ensures Fold(row, log + [change], preserve) == Applied(Fold(row, log, preserve), change, preserve)
  {
    assert (log + [change])[..|log|] == log;
  }

  lemma StepOnARow(row: Option<Row>, s: State, a: Action, preserve: seq<Key>)
    requires Locked(s) && s.row == Fold(row, s.log, preserve) && Next(s, a, preserve).Some?
    ensures var s' := Next(s, a, preserve).value;
      Locked(s') && s'.row == Fold(row, s'.log, preserve)
  {
    if a.Commit? {
      FoldMore(row, s.log, Merged(s.txs[a.t].updates), preserve);
    } else if a.Overwrite? {
      FoldMore(row, s.log, Overwritten(a.config, a.firstVersion), preserve);
    }
    hide Merge, Fold;
  }

  /** Updates that take no key over from the old row cannot lose one. */
  lemma {:induction false} RunsWithoutKeysAreSerial(row: Option<Row>, actions: seq<Action>, preserve: seq<Key>)
    requires preserve == [] && Run(row, actions, preserve).Some?
    ensures var s := Run(row, actions, preserve).value; s.row == Fold(row, s.log, preserve)
    decreases |actions|
  {
    if actions != [] {
      var n := |actions| - 1;
      hide Next, Fold;
      RunsWithoutKeysAreSerial(row, actions[..n], preserve);
      StepWithoutKeys(row, Run(row, actions[..n], preserve).value, actions[n], preserve);
    }
  }

  /** The step left row and log alone, or did to the row what it logged. */
  predicate Logs(s: State, s': State, preserve: seq<Key>) {
    || (s'.row == s.row && s'.log == s.log)
    || (s'.log != [] && s'.log[..|s'.log| - 1] == s.log
        && s'.row == Applied(s.row, s'.log[|s'.log| - 1], preserve))
  }

  lemma StepWithoutKeys(row: Option<Row>, s: State, a: Action, preserve: seq<Key>)
    requires preserve == [] && s.row == Fold(row, s.log, preserve) && Next(s, a, preserve).Some?
    ensures var s' := Next(s, a, preserve).value; s'.row == Fold(row, s'.log, preserve)
  {
    StepLogs(s, a, preserve);
    hide Next, Applied;
  }

  lemma StepLogs(s: State, a: Action, preserve: seq<Key>)
    requires preserve == [] && Next(s, a, preserve).Some?
    ensures Logs(s, Next(s, a, preserve).value, preserve)
  {
    if a.Commit? {
      CommitWithoutKeys(s, a.t, preserve);
      hide Next, Applied;
    }
    hide Merge;
  }

  lemma CommitWithoutKeys(s: State, t: nat, preserve: seq<Key>)
    requires preserve == [] && Next(s, Commit(t), preserve).Some?
    ensures var s' := Next(s, Commit(t), preserve).value; var change := Merged(s.txs[t].updates);
      s'.log == s.log + [change] && s'.row == Applied(s.row, change, preserve)
  {
    var tx := s.txs[t];
    if tx.seen.Some? {
      MergeNothing(tx.seen.value, tx.updates);
    }
    if s.row.Some? {
      MergeNothing(s.row.value.config, tx.updates);
    }
    hide Merge;
  }

  ghost predicate Serial(row: Option<Row>, preserve: seq<Key>) {
    forall actions :: Run(row, actions, preserve).Some? ==>
      Run(row, actions, preserve).value.row == Fold(row, Run(row, actions, preserve).value.log, preserve)
  }

  /** Two first updates side by side: both see no row, and the second wipes the secret that
      the first one stored. */
  lemma FirstUpdatesLoseAKey(preserve: seq<Key>)
    requires preserve != []
    ensures !Serial(None, preserve)
  {
    var key := preserve[0];
    var secret: Config := map[key := Text("s")];
    var s1 := Next(Init(None), Begin(0, secret), preserve).value;
    var s2 := Next(s1, Begin(1, map[]), preserve).value;
    assert s2.txs == map[0 := Tx(secret, None), 1 := Tx(map[], None)];
    var s3 := Next(s2, Commit(0), preserve).value;
    assert s3.row == Some(Row(secret, 1)) && s3.log == [Merged(secret)];
    var s4 := Next(s3, Commit(1), preserve).value;
    assert s4.row == Some(Row(map[], 2)) && s4.log == [Merged(secret)] + [Merged(map[])];
    RunSnoc(None, [], Begin(0, secret), preserve);
    RunSnoc(None, [] + [Begin(0, secret)], Begin(1, map[]), preserve);
    RunSnoc(None, [] + [Begin(0, secret)] + [Begin(1, map[])], Commit(0), preserve);
    RunSnoc(None, [] + [Begin(0, secret)] + [Begin(1, map[])] + [Commit(0)], Commit(1), preserve);
    assert s4.log[..1] == [Merged(secret)] && s4.log[..1][..0] == [];
    assert Fold(None, s4.log[..1], preserve) == Some(Row(secret, 1));
    assert Kept(secret, map[], preserve, key);
    assert key in Merge(secret, map[], preserve);
  }

  lemma RunSnoc(row: Option<Row>, actions: seq<Action>, a: Action, preserve: seq<Key>)
    requires Run(row, actions, preserve).Some?
    ensures Run(row, actions + [a], preserve) == Next(Run(row, actions, preserve).value, a, preserve)
  {
    assert (actions + [a])[..|actions|] == actions;
  }

  /** Any number of transactions, interleaved in any way, are equivalent to their updates
      one after the other in commit order, exactly when the row exists from the start (or
      there is no key to take over). */
  lemma SerialIsExact(row: Option<Row>, preserve: seq<Key>)
    ensures Serial(row, preserve) <==> row.Some? || preserve == []
  {
    if row.Some? || preserve == [] {
      forall actions | Run(row, actions, preserve).Some?
        ensures Run(row, actions, preserve).value.row
                == Fold(row, Run(row, actions, preserve).value.log, preserve)
      {
        if row.Some? {
          RunsOnARowAreSerial(row, actions, preserve);
        } else {
          RunsWithoutKeysAreSerial(row, actions, preserve);
        }
      }
    } else {
      FirstUpdatesLoseAKey(preserve);
    }
  }

  /** Whether or not the row existed, no commit is lost in the version. */
  lemma {:induction false} VersionCountsCommits(row: Option<Row>, actions: seq<Action>, preserve: seq<Key>)
    requires Run(row, actions, preserve).Some?
    requires forall k :: 0 <= k < |actions| && actions[k].Overwrite? ==> actions[k].firstVersion == 1
    ensures var s := Run(row, actions, preserve).value;
      && (s.row.None? <==> row.None? && s.log == [])
      && (s.row.Some? ==> s.row.value.version == (if row.Some? then row.value.version else 0) + |s.log|)
    decreases |actions|
  {
    if actions != [] {
      VersionCountsCommits(row, actions[..|actions| - 1], preserve);
      assert actions[|actions| - 1].Overwrite? ==> actions[|actions| - 1].firstVersion == 1;
    }
  }

  /** A preserved secret changes only by an update that carries a value for it, or by an
      overwrite of the whole configuration: between any two commits of a run on an existing
      row, if no change was one of those, the secret is still there. */
  lemma {:induction false} SecretsChangeOnlyOnPurpose(row: Option<Row>, actions: seq<Action>, preserve: seq<Key>,
                                                      key: Key, text: string, i: nat, j: nat)
    requires row.Some? && Run(row, actions, preserve).Some?
    requires i <= j <= |Run(row, actions, preserve).value.log|
    requires var log := Run(row, actions, preserve).value.log;
      && key in preserve && HasText(Fold(row, log[..i], preserve), key, text) && text != ""
      && forall k :: i <= k < j ==>
           log[k].Merged? && (key in log[k].updates ==> log[k].updates[key] == Null)
    ensures var log := Run(row, actions, preserve).value.log;
      && Run(row, actions, preserve).value.row == Fold(row, log, preserve)
      && HasText(Fold(row, log[..j], preserve), key, text)
  {
    RunsOnARowAreSerial(row, actions, preserve);
    FoldKeepsSecret(row, Run(row, actions, preserve).value.log, preserve, key, text, i, j);
  }

  predicate HasText(row: Option<Row>, key: Key, text: string) {
    row.Some? && key in row.value.config && row.value.config[key] == Text(text)
  }

  lemma {:induction false} FoldKeepsSecret(row: Option<Row>, log: seq<Change>, preserve: seq<Key>, key: Key,
                                           text: string, i: nat, j: nat)
    requires i <= j <= |log| && key in preserve && HasText(Fold(row, log[..i], preserve), key, text) && text != ""
    requires forall k :: i <= k < j ==>
               log[k].Merged? && (key in log[k].updates ==> log[k].updates[key] == Null)
    ensures HasText(Fold(row, log[..j], preserve), key, text)
    decreases j
  {
    if i < j {
      FoldKeepsSecret(row, log, preserve, key, text, i, j - 1);
      assert log[..j][..j - 1] == log[..j - 1];
    }
  }

  // ---------------------------------------------------------------------------
  // The code

  /** The row of one instance, the transactions open on it and its lock.  Every method does
      what one action of the machine does; UpdateAgentConfigAtomic is the two halves of an
      update in turn, and other transactions may run between them. */
  class Table {
    var row: Option<Row>
    var txs: map<nat, Tx>
    var lock: Option<nat>
    ghost var log: seq<Change>
    ghost var trouble: nat      // calls that have failed so far

    ghost function View(): State
      reads this
    {
      State(row, txs, lock, log)
    }

    method Chance() returns (ok: bool)
      modifies this`trouble
      ensures trouble == if ok then old(trouble) else old(trouble) + 1
    {
      ok := *;
      trouble := if ok then trouble else trouble + 1;
    }

    /** Up to SELECT ... FOR UPDATE, which waits for the lock. */
    method Select(t: nat, updates: Config, ghost preserve: seq<Key>) returns (begun: bool)
      requires t !in txs && lock.None?
      modifies this
      ensures if begun then Next(old(View()), Begin(t, updates), preserve) == Some(View()) else View() == old(View())
      ensures trouble >= old(trouble) && (trouble == old(trouble) ==> begun)
    {
      begun := Chance();
      if begun {
        txs := txs[t := Tx(updates, if row.Some? then Some(row.value.config) else None)];
        lock := if row.Some? then Some(t) else None;
      }
    }

    /** From the merge to the commit; a failure rolls back. */
    method MergeAndCommit(t: nat, preserve: seq<Key>) returns (saved: Option<Row>)
      requires t in txs && lock in {None, Some(t)}
      modifies this
      ensures saved.Some? ==> Next(old(View()), Commit(t), preserve) == Some(View()) && row == saved
      ensures saved.None? ==> Next(old(View()), Abort(t), preserve) == Some(View())
      ensures trouble >= old(trouble) && (trouble == old(trouble) ==> saved.Some?)
    {
      var tx := txs[t];
      var merged := tx.updates;
      if tx.seen.Some? {
        merged := MergeInto(tx.seen.value, tx.updates, preserve);
      }
      var written := Chance();
      txs := txs - {t};
      lock := None;
      if !written {
        return None;
      }
      row := Some(Row(merged, if row.Some? then row.value.version + 1 else 1));
      log := log + [Merged(tx.updates)];
      return row;
    }

    /** With nobody else on the row: all or nothing, and then one merge with the next
        version. */
    method UpdateAgentConfigAtomic(t: nat, updates: Config, preserve: seq<Key>) returns (saved: Option<Row>)
      requires txs == map[] && lock.None?
      modifies this
      ensures txs == map[] && lock.None? && (trouble == old(trouble) ==> saved.Some?)
      ensures saved.None? ==> row == old(row) && log == old(log)
      ensures saved.Some? ==> row == saved == Applied(old(row), Merged(updates), preserve)
                              && log == old(log) + [Merged(updates)]
      ensures saved.Some? && old(row).Some? ==>
                && IsMerged(old(row).value.config, updates, preserve, saved.value.config)
                && saved.value.version == old(row).value.version + 1
      ensures saved.Some? && old(row).None? ==> saved == Some(Row(updates, 1))
    {
      var begun := Select(t, updates, preserve);
      if !begun {
        return None;
      }
      saved := MergeAndCommit(t, preserve);
      if saved.Some? && old(row).Some? {
        MergeIsExact(old(row).value.config, updates, preserve, saved.value.config);
      }
    }
  }
}
