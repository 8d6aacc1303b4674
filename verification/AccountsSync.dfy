/** Synchronising the accounts table with the discovery sources: what each row becomes, and
    why a second synchronisation has nothing to do. */
module AccountsSync {
  import opened Schema

  type Name = string

  // The two columns the synchronisation writes, by session name.
  datatype Row = Row(status: AccountStatus, enabled: bool)
  type Table = map<Name, Row>

  /** The sources: the store's accounts with their admin block, the session files on disk,
      and the sessions configured in some clump. */
  datatype Sources = Sources(store: map<Name, bool>, disk: set<Name>, clump: set<Name>)

  datatype Desired = Desired(name: Name, adminBlocked: bool, inClump: bool, row: Row)

  predicate Runtime(status: AccountStatus) {
    status.Cooldown? || status.Banned? || status.Error?
  }

  function ResolveStatus(adminBlocked: bool, inClump: bool, existing: Option<AccountStatus>): Row {
    if adminBlocked || !inClump then Row(Disabled, false)
    else if existing.Some? && Runtime(existing.value) then Row(existing.value, true)
    else Row(Usable, true)
  }

  function StatusIn(table: Table, name: Name): Option<AccountStatus> {
    if name in table then Some(table[name].status) else None
  }

  function DesiredOf(src: Sources, table: Table, name: Name): Desired {
    var blocked, inClump := name in src.store && src.store[name], name in src.clump;
    Desired(name, blocked, inClump, ResolveStatus(blocked, inClump, StatusIn(table, name)))
  }

  // Only accounts known to the store or present on disk are synchronised.
  function Names(src: Sources): set<Name> {
    src.store.Keys + src.disk
  }

  /** ON CONFLICT DO UPDATE: an admin block wins, a runtime status stays, else as desired. */
  function UpsertRow(e: Row, d: Desired): Row {
    if d.adminBlocked then Row(Disabled, false)
    else if Runtime(e.status) then e
    else d.row
  }

  function Upsert(table: Table, d: Desired): Table {
    table[d.name := if d.name in table then UpsertRow(table[d.name], d) else d.row]
  }

  function RowChanged(existing: Option<Row>, d: Desired): bool {
    if existing.None? then true
    else if d.adminBlocked then !existing.value.status.Disabled? || existing.value.enabled
    else if Runtime(existing.value.status) then false
    else existing.value.status != d.row.status || existing.value.enabled != d.row.enabled
  }

  function RowIn(table: Table, name: Name): Option<Row> {
    if name in table then Some(table[name]) else None
  }

  /** The shortcut test is exact: true if and only if the upsert would change the table. */
  lemma RowChangedIffUpsertChanges(table: Table, d: Desired)
    ensures RowChanged(RowIn(table, d.name), d) <==> Upsert(table, d) != table
  {
    assert d.name in Upsert(table, d);
    if d.name in table && !RowChanged(RowIn(table, d.name), d) {
      assert Upsert(table, d)[d.name] == table[d.name];
    }
  }

  // ----- the whole synchronisation -----

  predicate Changes(src: Sources, table: Table, name: Name) {
    RowChanged(RowIn(table, name), DesiredOf(src, table, name))
  }

  function Inserted(src: Sources, table: Table): set<Name> {
    set n | n in Names(src) && n !in table
  }

  function Updated(src: Sources, table: Table): set<Name> {
    set n | n in Names(src) && n in table && Changes(src, table, n)
  }

  function Kept(src: Sources, table: Table): set<Name> {
    set n | n in Names(src) && n in table && !Changes(src, table, n)
  }

  /** The table after a real run. */
  function Synced(src: Sources, table: Table): Table {
    map n | n in table.Keys + Names(src) ::
      if n !in Names(src) then table[n]
      else Upsert(table, DesiredOf(src, table, n))[n]
  }

  lemma EveryNameIsCounted(src: Sources, table: Table)
    ensures |Inserted(src, table)| + |Updated(src, table)| + |Kept(src, table)| == |Names(src)|
  {
    var i, u, s := Inserted(src, table), Updated(src, table), Kept(src, table);
    assert Names(src) == i + u + s && i !! u && (i + u) !! s;
  }

  /** Synchronising again from the same sources changes nothing and reports nothing but
      unchanged rows. */
  lemma SyncIsAFixedPoint(src: Sources, table: Table)
    ensures var once := Synced(src, table);
      && Synced(src, once) == once
      && Inserted(src, once) == {} && Updated(src, once) == {} && Kept(src, once) == Names(src)
  {
    var once := Synced(src, table);
    forall n | n in Names(src) ensures !Changes(src, once, n) {
      SettledAfterOne(src, table, n);
    }
    forall n | n in once ensures Synced(src, once)[n] == once[n] {
      if n in Names(src) {
        RowChangedIffUpsertChanges(once, DesiredOf(src, once, n));
        assert !Changes(src, once, n);
      }
    }
    assert Synced(src, once).Keys == once.Keys;
  }

  lemma SettledAfterOne(src: Sources, table: Table, n: Name)
    requires n in Names(src)
    ensures !Changes(src, Synced(src, table), n)
  {
    var once := Synced(src, table);
    assert once[n]
        == if n in table then UpsertRow(table[n], DesiredOf(src, table, n)) else DesiredOf(src, table, n).row;
  }

  /** What the health of an account put in place, only an admin block overrides, by disabling the
      account; and accounts that neither the store nor the disk knows are left alone. */
  lemma RuntimeStatusSurvives(src: Sources, table: Table, n: Name)
    requires n in table
    ensures Runtime(table[n].status) ==>
      (Synced(src, table)[n] != table[n] <==> n in src.store && src.store[n])
    ensures n in src.store && src.store[n] ==> Synced(src, table)[n] == Row(Disabled, false)
    ensures n !in src.store && n !in src.disk ==> Synced(src, table)[n] == table[n]
  {
    assert n in Synced(src, table);
  }

  /** Every account of the store or the disk has a row afterwards; the ones counted as inserted
      had none, and the ones counted as updated, not as kept, have another one. */
  lemma CountsTellChanges(src: Sources, table: Table, n: Name)
    requires n in src.store || n in src.disk
    ensures n in Synced(src, table)
    ensures n in Inserted(src, table) <==> n !in table
    ensures n in Updated(src, table) <==> n in table && Synced(src, table)[n] != table[n]
    ensures n in Kept(src, table) <==> n in table && Synced(src, table)[n] == table[n]
  {
    if n in table {
      RowChangedIffUpsertChanges(table, DesiredOf(src, table, n));
      var after := Upsert(table, DesiredOf(src, table, n));
      assert after == table[n := after[n]] && table[n := table[n]] == table;
    }
  }

  class AccountsTable {
    var rows: Table

    constructor (rows: Table)
      ensures this.rows == rows
    {
      this.rows := rows;
    }

    method BuildDesiredRows(src: Sources) returns (desired: seq<Desired>)
      ensures forall d :: d in desired ==> d.name in Names(src) && d == DesiredOf(src, rows, d.name)
      ensures forall n :: n in Names(src) ==> DesiredOf(src, rows, n) in desired
      ensures forall i, j :: 0 <= i < j < |desired| ==> desired[i].name != desired[j].name
      ensures |desired| == |Names(src)|
    {
      var rest := Names(src);
      desired := [];
      while rest != {}
        invariant rest <= Names(src) && |desired| + |rest| == |Names(src)|
        invariant forall d :: d in desired ==> d.name in Names(src) - rest && d == DesiredOf(src, rows, d.name)
        invariant forall n :: n in Names(src) && n !in rest ==> DesiredOf(src, rows, n) in desired
        invariant forall i, j :: 0 <= i < j < |desired| ==> desired[i].name != desired[j].name
      {
        var n :| n in rest;
        rest, desired := rest - {n}, desired + [DesiredOf(src, rows, n)];
      }
    }

    // One desired row: kept, or upserted and counted as inserted or updated.
    method ApplyRow(d: Desired, existing: Option<Row>, dryRun: bool, counts: Counts) returns (counts': Counts)
      modifies this
      ensures counts' == counts.Add(existing, RowChanged(existing, d))
      ensures rows == if dryRun || !RowChanged(existing, d) then old(rows) else Upsert(old(rows), d)
    {
      var willChange := RowChanged(existing, d);
      if existing.Some? && !willChange {
        return counts.(kept := counts.kept + 1);
      }
      if !dryRun {
        rows := Upsert(rows, d);
      }
      return
        if existing.None? then counts.(inserted := counts.inserted + 1) else counts.(updated := counts.updated + 1);
    }

    method ApplyRows(desired: seq<Desired>, dryRun: bool) returns (counts: Counts)
      modifies this
      ensures counts == CountsAfter(old(rows), desired)
      ensures rows == if dryRun then old(rows) else RowsAfter(old(rows), desired)
    {
      var existing := rows;
      counts := Counts(0, 0, 0);
      for i := 0 to |desired|
        invariant counts == CountsAfter(existing, desired[..i])
        invariant rows == if dryRun then existing else RowsAfter(existing, desired[..i])
      {
        assert desired[..i + 1][..i] == desired[..i];
        counts := ApplyRow(desired[i], RowIn(existing, desired[i].name), dryRun, counts);
      }
      assert desired[..|desired|] == desired;
    }

    /** A dry run and a real run report the same counts; the counts add up to the total; and
        the real run leaves exactly the synchronised table. */
    method SyncAccounts(src: Sources, dryRun: bool) returns (counts: Counts, total: nat)
      modifies this
      ensures rows == if dryRun then old(rows) else Synced(src, old(rows))
      ensures counts == Counts(|Inserted(src, old(rows))|, |Updated(src, old(rows))|, |Kept(src, old(rows))|)
      ensures counts.inserted + counts.updated + counts.kept == total == |src.store.Keys + src.disk|
    {
      var existing := rows;
      var desired := BuildDesiredRows(src);
      counts := ApplyRows(desired, dryRun);
      RowByRow(src, existing, desired, dryRun);
      NamesAreAll(src, existing, desired);
      AllSeen(src, existing, NamesOf(desired));
      EveryNameIsCounted(src, existing);
      total := |desired|;
    }
  }

  datatype Counts = Counts(inserted: nat, updated: nat, kept: nat) {
    function Add(existing: Option<Row>, changes: bool): Counts {
      if existing.None? then this.(inserted := inserted + 1)
      else if changes then this.(updated := updated + 1)
      else this.(kept := kept + 1)
    }
  }

  // Every decision is taken on the table as it was read at the start.
  function RowsAfter(existing: Table, desired: seq<Desired>): Table {
    if desired == [] then existing
    else
      var d, before := desired[|desired| - 1], RowsAfter(existing, desired[..|desired| - 1]);
      if RowChanged(RowIn(existing, d.name), d) then Upsert(before, d) else before
  }

  function CountsAfter(existing: Table, desired: seq<Desired>): Counts {
    if desired == [] then Counts(0, 0, 0)
    else
      var d := desired[|desired| - 1];
      CountsAfter(existing, desired[..|desired| - 1]).Add(RowIn(existing, d.name),
                                                          RowChanged(RowIn(existing, d.name), d))
  }

  lemma {:induction false} RowByRow(src: Sources, existing: Table, desired: seq<Desired>, dryRun: bool)
    requires forall d :: d in desired ==> d.name in Names(src) && d == DesiredOf(src, existing, d.name)
    requires forall i, j :: 0 <= i < j < |desired| ==> desired[i].name != desired[j].name
    ensures SyncedUpTo(src, existing, NamesOf(desired), dryRun, CountsAfter(existing, desired),
                       if dryRun then existing else RowsAfter(existing, desired))
  {
    if desired == [] {
      NothingSynced(src, existing, dryRun);
      assert NamesOf(desired) == {};
    } else {
      var n := |desired| - 1;
      RowByRow(src, existing, desired[..n], dryRun);
      NextName(desired, n);
      assert desired[..n + 1] == desired && desired[n] in desired;
      SyncOneMore(src, existing, NamesOf(desired[..n]), desired[n].name, dryRun, CountsAfter(existing, desired[..n]),
                  if dryRun then existing else RowsAfter(existing, desired[..n]));
    }
  }

  function NamesOf(desired: seq<Desired>): set<Name> {
    set d | d in desired :: d.name
  }

  lemma NextName(desired: seq<Desired>, i: nat)
    requires i < |desired| && forall i, j :: 0 <= i < j < |desired| ==> desired[i].name != desired[j].name
    ensures desired[i].name !in NamesOf(desired[..i])
    ensures NamesOf(desired[..i + 1]) == NamesOf(desired[..i]) + {desired[i].name}
  {
    assert desired[..i + 1] == desired[..i] + [desired[i]];
  }

  lemma NamesAreAll(src: Sources, table: Table, desired: seq<Desired>)
    requires forall d :: d in desired ==> d.name in Names(src)
    requires forall n :: n in Names(src) ==> DesiredOf(src, table, n) in desired
    ensures NamesOf(desired) == Names(src)
  {
    forall n | n in Names(src) ensures n in NamesOf(desired) {
      assert DesiredOf(src, table, n) in desired;
    }
  }

  ghost predicate SyncedUpTo(src: Sources, table: Table, seen: set<Name>, dryRun: bool, counts: Counts, rows: Table) {
    && counts == Counts(|Inserted(src, table) * seen|, |Updated(src, table) * seen|, |Kept(src, table) * seen|)
    && rows == if dryRun then table else SyncedFor(src, table, seen)
  }

  lemma NothingSynced(src: Sources, table: Table, dryRun: bool)
    ensures SyncedUpTo(src, table, {}, dryRun, Counts(0, 0, 0), table)
  {
    assert SyncedFor(src, table, {}) == table;
  }

  lemma SyncOneMore(src: Sources, table: Table, seen: set<Name>, n: Name, dryRun: bool, counts: Counts, rows: Table)
    requires SyncedUpTo(src, table, seen, dryRun, counts, rows) && n !in seen && n in Names(src)
    ensures var d := DesiredOf(src, table, n);
      var changes := RowChanged(RowIn(table, n), d);
      SyncedUpTo(src, table, seen + {n}, dryRun, counts.Add(RowIn(table, n), changes),
                 if dryRun || !changes then rows else Upsert(rows, d))
  {
    AddOne(Inserted(src, table), seen, n);
    AddOne(Updated(src, table), seen, n);
    AddOne(Kept(src, table), seen, n);
    if !dryRun {
      TableOneMore(src, table, seen, n);
    }
  }

  lemma TableOneMore(src: Sources, table: Table, seen: set<Name>, n: Name)
    requires n !in seen
    ensures var d, rows := DesiredOf(src, table, n), SyncedFor(src, table, seen);
      SyncedFor(src, table, seen + {n})
        == if n in table && !RowChanged(RowIn(table, n), d) then rows else Upsert(rows, d)
  {
    var d, rows := DesiredOf(src, table, n), SyncedFor(src, table, seen);
    var after := SyncedFor(src, table, seen + {n});
    assert after == rows[n := Upsert(table, d)[n]];
    RowChangedIffUpsertChanges(table, d);
    assert Upsert(rows, d)[n] == Upsert(table, d)[n];
    if n in table && !RowChanged(RowIn(table, n), d) {
      assert rows[n := table[n]] == rows;
    }
  }

  // The table when the names of `seen` are done.
  function SyncedFor(src: Sources, table: Table, seen: set<Name>): Table {
    map n | n in table.Keys + seen :: if n !in seen then table[n] else Upsert(table, DesiredOf(src, table, n))[n]
  }

  function One(b: bool): nat { if b then 1 else 0 }

  lemma AddOne(s: set<Name>, seen: set<Name>, n: Name)
    requires n !in seen
    ensures |s * (seen + {n})| == |s * seen| + One(n in s)
  {
    if n in s {
      assert s * (seen + {n}) == s * seen + {n};
    } else {
      assert s * (seen + {n}) == s * seen;
    }
  }

  lemma AllSeen(src: Sources, table: Table, seen: set<Name>)
    requires seen == Names(src)
    ensures Inserted(src, table) * seen == Inserted(src, table) && Updated(src, table) * seen == Updated(src, table)
    ensures Kept(src, table) * seen == Kept(src, table)
    ensures SyncedFor(src, table, seen) == Synced(src, table)
  {
  }

  /** An account without a runtime status ends up usable exactly if some clump has it and no
      admin blocks it, and disabled otherwise. */
  lemma UsableIffInClump(src: Sources, table: Table, n: Name)
    requires (n in src.store || n in src.disk) && (n in table ==> !Runtime(table[n].status))
    ensures n in Synced(src, table)
    ensures var blocked := n in src.store && src.store[n];
      Synced(src, table)[n] == if n in src.clump && !blocked then Row(Usable, true) else Row(Disabled, false)
  {
    assert Synced(src, table)[n] == Upsert(table, DesiredOf(src, table, n))[n];
  }
}
