/** Creating tasks one at a time and in batches: what each form stores and reports, and
    exactly when the batch form agrees with the simple one. */
module Enqueueing {
  import opened Schema
  import opened ErrorCodes
  import opened QueueTable
  import opened Effects

  datatype EnqueueResult =
    | UnknownType
    | Created(id: TaskId)
    | AlreadyActive(existing: Option<TaskId>)
    | SkippedFatal(last: TaskId, code: string)

  // ----- the rows of one key -----

  function IdsWithKey(db: Db, key: string): set<TaskId> {
    set id | id in db.tasks && HoldsKey(db, id, key)
  }

  function ActiveIds(db: Db, key: string): set<TaskId> {
    set id | id in db.tasks && ActiveWithKey(db, id, key)
  }

  ghost function Largest(s: set<TaskId>): (m: TaskId)
    requires s != {}
    ensures m in s && forall x :: x in s ==> x <= m
  {
    var x :| x in s;
    if s == {x} then x
    else
      assert s == {x} + (s - {x});
      var m := Largest(s - {x});
      if x > m then x else m
  }

  ghost function Smallest(s: set<TaskId>): (m: TaskId)
    requires s != {}
    ensures m in s && forall x :: x in s ==> m <= x
  {
    var x :| x in s;
    if s == {x} then x
    else
      assert s == {x} + (s - {x});
      var m := Smallest(s - {x});
      if x < m then x else m
  }

  /** The newest task of the key, if it ended fatally. */
  ghost function NewestFatal(db: Db, key: string): (r: Option<TaskId>)
    ensures r.Some? ==> FatalHistory(db, r.value, key)
  {
    var ids := IdsWithKey(db, key);
    if ids == {} then None
    else
      var newest := Largest(ids);
      if FatalHistory(db, newest, key) then Some(newest) else None
  }

  /** The lookup answers exactly when some task is the newest of its key and failed fatally. */
  lemma LookupFindsHistory(db: Db, key: string)
    ensures NewestFatal(db, key).Some? <==> exists id: TaskId :: FatalHistory(db, id, key)
  {
    forall id: TaskId | FatalHistory(db, id, key) ensures NewestFatal(db, key) == Some(id) {
      assert id in IdsWithKey(db, key);
      assert id == Largest(IdsWithKey(db, key));
    }
  }

  // ORDER BY id ASC LIMIT 1 among the active rows of the key.
  ghost function OldestActive(db: Db, key: Option<string>): Option<TaskId> {
    if key.None? || ActiveIds(db, key.value) == {} then None else Some(Smallest(ActiveIds(db, key.value)))
  }

  function FatalCode(db: Db, id: TaskId): string
    requires id in db.tasks
  {
    var code := ErrorCodePrefix(db.tasks[id].lastError);
    if code.Some? then code.value else ""
  }

  // ----- one at a time -----

  ghost predicate SkipsOne(db: Db, item: NewTask, skip: bool) {
    skip && item.dedupKey.Some? && item.dedupKey.value != "" && NewestFatal(db, item.dedupKey.value).Some?
  }

  ghost function EnqueueDb(db: Db, item: NewTask, skip: bool): Db {
    if !TypeEnabled(db, item.typeCode) || SkipsOne(db, item, skip) then db else Insert(db, item)
  }

  ghost function EnqueueReport(db: Db, item: NewTask, skip: bool): EnqueueResult {
    if !TypeEnabled(db, item.typeCode) then UnknownType
    else if SkipsOne(db, item, skip) then
      var id := NewestFatal(db, item.dedupKey.value).value;
      SkippedFatal(id, FatalCode(db, id))
    else if KeyTaken(db, item.dedupKey) then AlreadyActive(OldestActive(db, item.dedupKey))
    else Created(db.nextTask)
  }

  // ----- one at a time, read off the rows -----

  ghost predicate NewestWith(db: Db, id: TaskId, key: Option<string>) {
    && id in db.tasks && db.tasks[id].dedupKey == key
    && forall other :: other in db.tasks && db.tasks[other].dedupKey == key ==> other <= id
  }

  // The newest task of the key, which is not empty, failed with an incurable code.
  ghost predicate GaveUpOn(db: Db, id: TaskId, key: Option<string>) {
    && key.Some? && key.value != "" && NewestWith(db, id, key)
    && db.tasks[id].status.Failed? && IsFatal(db.tasks[id].lastError)
  }

  predicate InPlay(t: Task, key: Option<string>) {
    t.dedupKey == key && (t.status.Queued? || t.status.Scheduled? || t.status.Retry? || t.status.InProgress?)
  }

  ghost predicate OldestInPlay(db: Db, id: TaskId, key: Option<string>) {
    && id in db.tasks && InPlay(db.tasks[id], key)
    && forall other :: other in db.tasks && InPlay(db.tasks[other], key) ==> id <= other
  }

  /** What one enqueue reports and stores: nothing of a type that is not enabled; nothing on top
      of a history that was given up, if such are to be skipped; no second task in play under
      one key, but the id drawn for it is used up; else a new row under the next id. */
  ghost predicate EnqueueShows(x: Db, y: Db, item: NewTask, skip: bool, r: EnqueueResult) {
    var key := item.dedupKey;
    && (r.UnknownType? <==> item.typeCode !in x.types || !x.types[item.typeCode].enabled)
    && (!r.UnknownType? ==> (r.SkippedFatal? <==> skip && exists id: TaskId :: GaveUpOn(x, id, key)))
    && match r
       case UnknownType => y == x
       case SkippedFatal(id, code) =>
         y == x && GaveUpOn(x, id, key) && ErrorCodePrefix(x.tasks[id].lastError) == Some(code)
       case AlreadyActive(existing) =>
         && key.Some? && existing.Some? && OldestInPlay(x, existing.value, key)
         && y == x.(nextTask := x.nextTask + 1)
       case Created(id) =>
         && id == x.nextTask && (key.Some? ==> forall other :: other in x.tasks ==> !InPlay(x.tasks[other], key))
         && id in y.tasks && NewRow(y.tasks[id], item, x.types[item.typeCode], x.now)
         && y == x.(nextTask := x.nextTask + 1, tasks := x.tasks[id := y.tasks[id]])
  }

  lemma GaveUpIff(db: Db, key: Option<string>)
    requires key.Some? && key.value != ""
    ensures NewestFatal(db, key.value).Some? <==> exists id: TaskId :: GaveUpOn(db, id, key)
    ensures NewestFatal(db, key.value).Some? ==> GaveUpOn(db, NewestFatal(db, key.value).value, key)
  {
    forall id: TaskId ensures FatalHistory(db, id, key.value) <==> GaveUpOn(db, id, key) {
      assert forall other: TaskId ::
        HoldsKey(db, other, key.value) <==> other in db.tasks && db.tasks[other].dedupKey == key;
    }
    LookupFindsHistory(db, key.value);
  }

  lemma InPlayIff(db: Db, key: Option<string>)
    requires key.Some?
    ensures KeyTaken(db, key) <==> exists id :: id in db.tasks && InPlay(db.tasks[id], key)
    ensures KeyTaken(db, key) ==>
      OldestActive(db, key).Some? && OldestInPlay(db, OldestActive(db, key).value, key)
  {
    forall id: TaskId ensures ActiveWithKey(db, id, key.value) <==> id in db.tasks && InPlay(db.tasks[id], key) {
    }
    if KeyTaken(db, key) {
      var id: TaskId :| ActiveWithKey(db, id, key.value);
      assert id in ActiveIds(db, key.value);
      forall other | other in db.tasks && InPlay(db.tasks[other], key)
        ensures OldestActive(db, key).value <= other
      {
        assert other in ActiveIds(db, key.value);
      }
    }
  }

  /** One enqueue reports and stores what the rows call for. */
  lemma EnqueueIsShown(db: Db, item: NewTask, skip: bool)
    ensures EnqueueShows(db, EnqueueDb(db, item, skip), item, skip, EnqueueReport(db, item, skip))
  {
    var key := item.dedupKey;
    if key.Some? && key.value != "" {
      GaveUpIff(db, key);
    }
    if key.Some? {
      InPlayIff(db, key);
    }
    if item.typeCode in db.types {
      QueuedRowIsNew(db, item);
    }
  }

  ghost function EachDb(db: Db, items: seq<NewTask>, skip: bool): Db {
    if items == [] then db else EnqueueDb(EachDb(db, items[..|items| - 1], skip), items[|items| - 1], skip)
  }

  ghost function EachReports(db: Db, items: seq<NewTask>, skip: bool): (r: seq<EnqueueResult>)
    ensures |r| == |items|
  {
    if items == [] then []
    else
      var n := |items| - 1;
      EachReports(db, items[..n], skip) + [EnqueueReport(EachDb(db, items[..n], skip), items[n], skip)]
  }

  // ----- the batch -----

  /** The history lookup of the batch strips the keys before it asks for them, so it never
      finds the history of a key that stripping changes. */
  ghost predicate SkipsInBatch(db: Db, item: NewTask, skip: bool) {
    SkipsOne(db, item, skip) && Strip(item.dedupKey.value) == item.dedupKey.value
  }

  // One INSERT for all that pass the lookup, in order; conflicting rows are left out.
  ghost function BatchDb(db: Db, items: seq<NewTask>, skip: bool): Db
    requires forall i :: 0 <= i < |items| ==> items[i].typeCode in db.types
    ensures BatchDb(db, items, skip).types == db.types
  {
    if items == [] then db
    else
      var before := BatchDb(db, items[..|items| - 1], skip);
      if SkipsInBatch(db, items[|items| - 1], skip) then before else Insert(before, items[|items| - 1])
  }

  // The id under which the INSERT returned the key.
  ghost function CreatedId(db: Db, items: seq<NewTask>, skip: bool, key: Option<string>): Option<TaskId>
    requires forall i :: 0 <= i < |items| ==> items[i].typeCode in db.types
  {
    if items == [] then None
    else
      var n := |items| - 1;
      var before := BatchDb(db, items[..n], skip);
      var inserted := !SkipsInBatch(db, items[n], skip) && items[n].dedupKey == key && !KeyTaken(before, key);
      if inserted then Some(before.nextTask)
      else CreatedId(db, items[..n], skip, key)
  }

  ghost function BatchReport(db: Db, items: seq<NewTask>, skip: bool, i: nat): EnqueueResult
    requires i < |items| && forall j :: 0 <= j < |items| ==> items[j].typeCode in db.types
  {
    if SkipsInBatch(db, items[i], skip) then
      var id := NewestFatal(db, items[i].dedupKey.value).value;
      SkippedFatal(id, FatalCode(db, id))
    else
      var id := CreatedId(db, items, skip, items[i].dedupKey);
      if id.Some? then Created(id.value) else AlreadyActive(OldestActive(BatchDb(db, items, skip), items[i].dedupKey))
  }

  /** What the batch form asks of its callers: known types; keys distinct and not empty. */
  ghost predicate BatchInput(db: Db, items: seq<NewTask>) {
    && (forall i :: 0 <= i < |items| ==> TypeEnabled(db, items[i].typeCode))
    && (forall i :: 0 <= i < |items| ==> items[i].dedupKey.Some? && items[i].dedupKey.value != "")
    && (forall i, j :: 0 <= i < j < |items| ==> items[i].dedupKey != items[j].dedupKey)
  }

  ghost predicate Agree(db: Db, items: seq<NewTask>, skip: bool)
    requires BatchInput(db, items)
  {
    && BatchDb(db, items, skip) == EachDb(db, items, skip)
    && forall i :: 0 <= i < |items| ==> BatchReport(db, items, skip, i) == EachReports(db, items, skip)[i]
  }

  // ----- inserts of other keys do not matter -----

  ghost predicate SameKeyRows(x: Db, y: Db, key: string) {
    && y.types == x.types
    && IdsWithKey(x, key) == IdsWithKey(y, key)
    && forall id :: id in IdsWithKey(x, key) ==> x.tasks[id] == y.tasks[id]
  }

  lemma SameRowsSameAnswers(x: Db, y: Db, key: string)
    requires SameKeyRows(x, y, key)
    ensures NewestFatal(x, key) == NewestFatal(y, key)
    ensures OldestActive(x, Some(key)) == OldestActive(y, Some(key))
    ensures KeyTaken(x, Some(key)) <==> KeyTaken(y, Some(key))
    ensures NewestFatal(x, key).Some? ==>
      FatalCode(x, NewestFatal(x, key).value) == FatalCode(y, NewestFatal(x, key).value)
  {
    forall id: TaskId ensures ActiveWithKey(x, id, key) <==> ActiveWithKey(y, id, key) {
      assert id in IdsWithKey(x, key) <==> id in IdsWithKey(y, key);
    }
    assert ActiveIds(x, key) == ActiveIds(y, key);
  }

  lemma InsertKeepsOtherKeys(db: Db, item: NewTask, key: string)
    requires FreshIds(db) && item.typeCode in db.types && item.dedupKey != Some(key)
    ensures SameKeyRows(db, Insert(db, item), key) && FreshIds(Insert(db, item))
  {
  }

  lemma {:induction false} EachKeepsOtherKeys(db: Db, items: seq<NewTask>, skip: bool, key: string)
    requires FreshIds(db) && forall i :: 0 <= i < |items| ==> items[i].dedupKey != Some(key)
    ensures SameKeyRows(db, EachDb(db, items, skip), key) && FreshIds(EachDb(db, items, skip))
  {
    if items != [] {
      var n := |items| - 1;
      EachKeepsOtherKeys(db, items[..n], skip, key);
      var before := EachDb(db, items[..n], skip);
      if items[n].typeCode in before.types {
        InsertKeepsOtherKeys(before, items[n], key);
      }
    }
  }

  lemma {:induction false} BatchKeepsOtherKeys(db: Db, items: seq<NewTask>, skip: bool, key: string)
    requires FreshIds(db) && forall i :: 0 <= i < |items| ==> items[i].typeCode in db.types
    requires forall i :: 0 <= i < |items| ==> items[i].dedupKey != Some(key)
    ensures SameKeyRows(db, BatchDb(db, items, skip), key) && FreshIds(BatchDb(db, items, skip))
    ensures CreatedId(db, items, skip, Some(key)).None?
  {
    if items != [] {
      var n := |items| - 1;
      BatchKeepsOtherKeys(db, items[..n], skip, key);
      InsertKeepsOtherKeys(BatchDb(db, items[..n], skip), items[n], key);
    }
  }

  // ----- agreement -----

  ghost predicate UnstrippedFatalKey(db: Db, key: string) {
    Strip(key) != key && NewestFatal(db, key).Some?
  }

  ghost predicate Mistaken(db: Db, item: NewTask, skip: bool) {
    SkipsOne(db, item, skip) && !SkipsInBatch(db, item, skip)
  }

  lemma PrefixIsInput(db: Db, items: seq<NewTask>)
    requires BatchInput(db, items) && items != []
    ensures BatchInput(db, items[..|items| - 1])
    ensures forall item :: item in items[..|items| - 1] ==> item.dedupKey != items[|items| - 1].dedupKey
  {
  }

  lemma {:induction false} NoMistakeSameTable(db: Db, items: seq<NewTask>, skip: bool)
    requires BatchInput(db, items) && FreshIds(db)
    requires forall i :: 0 <= i < |items| ==> !Mistaken(db, items[i], skip)
    ensures BatchDb(db, items, skip) == EachDb(db, items, skip)
  {
    if items != [] {
      var n := |items| - 1;
      PrefixIsInput(db, items);
      NoMistakeSameTable(db, items[..n], skip);
      EachKeepsOtherKeys(db, items[..n], skip, items[n].dedupKey.value);
      SameRowsSameAnswers(db, EachDb(db, items[..n], skip), items[n].dedupKey.value);
    }
  }

  // What one later insert of another key does to the report of item i: nothing.
  lemma ReportIsLocal(db: Db, items: seq<NewTask>, skip: bool, i: nat)
    requires BatchInput(db, items) && FreshIds(db) && i < |items| - 1
    ensures BatchInput(db, items[..|items| - 1])
    ensures BatchReport(db, items, skip, i) == BatchReport(db, items[..|items| - 1], skip, i)
  {
    var n := |items| - 1;
    PrefixIsInput(db, items);
    var before := BatchDb(db, items[..n], skip);
    var key := items[i].dedupKey.value;
    assert items[..n][i] == items[i];
    BatchKeepsFresh(db, items[..n], skip);
    InsertKeepsOtherKeys(before, items[n], key);
    SameRowsSameAnswers(before, Insert(before, items[n]), key);
  }

  lemma {:induction false} BatchKeepsFresh(db: Db, items: seq<NewTask>, skip: bool)
    requires FreshIds(db) && forall i :: 0 <= i < |items| ==> items[i].typeCode in db.types
    ensures FreshIds(BatchDb(db, items, skip))
  {
    if items != [] {
      BatchKeepsFresh(db, items[..|items| - 1], skip);
    }
  }

  // The report of the last item, seen from the table before it.
  lemma LastReport(db: Db, items: seq<NewTask>, skip: bool)
    requires BatchInput(db, items) && FreshIds(db) && items != []
    requires !Mistaken(db, items[|items| - 1], skip)
    requires BatchDb(db, items[..|items| - 1], skip) == EachDb(db, items[..|items| - 1], skip)
    ensures BatchReport(db, items, skip, |items| - 1)
        == EnqueueReport(EachDb(db, items[..|items| - 1], skip), items[|items| - 1], skip)
  {
    var n := |items| - 1;
    var before, key := EachDb(db, items[..n], skip), items[n].dedupKey.value;
    PrefixIsInput(db, items);
    EachKeepsOtherKeys(db, items[..n], skip, key);
    SameRowsSameAnswers(db, before, key);
    if !SkipsOne(db, items[n], skip) {
      BatchKeepsOtherKeys(db, items[..n], skip, key);
      NewReport(db, items, skip, before);
    }
  }

  lemma NewReport(db: Db, items: seq<NewTask>, skip: bool, before: Db)
    requires BatchInput(db, items) && items != []
    requires before == BatchDb(db, items[..|items| - 1], skip)
    requires CreatedId(db, items[..|items| - 1], skip, items[|items| - 1].dedupKey).None?
    requires !SkipsInBatch(db, items[|items| - 1], skip)
    ensures BatchReport(db, items, skip, |items| - 1)
         == if KeyTaken(before, items[|items| - 1].dedupKey)
            then AlreadyActive(OldestActive(before, items[|items| - 1].dedupKey))
            else Created(before.nextTask)
  {
    var n, item := |items| - 1, items[|items| - 1];
    if KeyTaken(before, item.dedupKey) {
      assert BatchDb(db, items, skip) == before.(nextTask := before.nextTask + 1);
      assert ActiveIds(BatchDb(db, items, skip), item.dedupKey.value) == ActiveIds(before, item.dedupKey.value);
    }
  }

  lemma {:induction false} NoMistakeSameReports(db: Db, items: seq<NewTask>, skip: bool)
    requires BatchInput(db, items) && FreshIds(db)
    requires forall i :: 0 <= i < |items| ==> !Mistaken(db, items[i], skip)
    ensures forall i :: 0 <= i < |items| ==> BatchReport(db, items, skip, i) == EachReports(db, items, skip)[i]
  {
    if items != [] {
      var n := |items| - 1;
      PrefixIsInput(db, items);
      NoMistakeSameReports(db, items[..n], skip);
      NoMistakeSameTable(db, items[..n], skip);
      LastReport(db, items, skip);
      forall i | 0 <= i < n ensures BatchReport(db, items, skip, i) == EachReports(db, items, skip)[i] {
        ReportIsLocal(db, items, skip, i);
      }
    }
  }

  // The report of an item depends on the items before it only.
  lemma {:induction false} ReportOfPrefix(db: Db, items: seq<NewTask>, skip: bool, i: nat)
    requires i < |items|
    ensures EachReports(db, items, skip)[i] == EnqueueReport(EachDb(db, items[..i], skip), items[i], skip)
  {
    var n := |items| - 1;
    if i < n {
      ReportOfPrefix(db, items[..n], skip, i);
      assert items[..n][..i] == items[..i];
    }
  }

  // A skipped item is reported as such by the simple form, whatever came before it.
  lemma EachReportsSkip(db: Db, items: seq<NewTask>, skip: bool, i: nat)
    requires BatchInput(db, items) && FreshIds(db) && i < |items| && SkipsOne(db, items[i], skip)
    ensures EachReports(db, items, skip)[i].SkippedFatal?
  {
    ReportOfPrefix(db, items, skip, i);
    assert items[..i + 1][..i] == items[..i];
    LastIsSkipped(db, items[..i + 1], skip);
  }

  lemma LastIsSkipped(db: Db, items: seq<NewTask>, skip: bool)
    requires BatchInput(db, items) && FreshIds(db) && items != [] && SkipsOne(db, items[|items| - 1], skip)
    ensures EnqueueReport(EachDb(db, items[..|items| - 1], skip), items[|items| - 1], skip).SkippedFatal?
  {
    var n, key := |items| - 1, items[|items| - 1].dedupKey.value;
    PrefixIsInput(db, items);
    EachKeepsOtherKeys(db, items[..n], skip, key);
    SameRowsSameAnswers(db, EachDb(db, items[..n], skip), key);
  }

  /** For known types and distinct non-empty keys the batch stores and reports exactly what
      the items one by one would, in the same order and under the same ids, if and only if no
      item has a fatal history under a key that stripping would change. */
  lemma {:induction false} BatchAgreesIff(db: Db, items: seq<NewTask>, skip: bool)
    requires BatchInput(db, items) && FreshIds(db)
    ensures Agree(db, items, skip) <==>
      !(skip && exists i :: 0 <= i < |items| && UnstrippedFatalKey(db, items[i].dedupKey.value))
  {
    if i :| 0 <= i < |items| && Mistaken(db, items[i], skip) {
      EachReportsSkip(db, items, skip, i);
      assert !BatchReport(db, items, skip, i).SkippedFatal?;
      assert !Agree(db, items, skip);
    } else {
      NoMistakeSameTable(db, items, skip);
      NoMistakeSameReports(db, items, skip);
      assert forall i :: 0 <= i < |items| ==> !Mistaken(db, items[i], skip);
    }
  }

  lemma {:induction false} OneItemStored(db: Db, item: NewTask)
    requires TypeEnabled(db, item.typeCode)
    ensures EachDb(db, [item], false) == Insert(db, item)
    ensures BatchDb(db, [item], false) == Insert(db, item)
  {
    assert [item][..0] == [];
    assert EachDb(db, [], false) == db && BatchDb(db, [], false) == db;
  }

  lemma OneHolder(db: Db, item: NewTask, key: string)
    requires TypeEnabled(db, item.typeCode) && item.dedupKey == Some(key) && !KeyTaken(db, item.dedupKey)
    ensures ActiveIds(Insert(db, item), key) == {db.nextTask} && KeyTaken(Insert(db, item), Some(key))
  {
    var once := Insert(db, item);
    assert ActiveWithKey(once, db.nextTask, key);
    forall id: TaskId ensures ActiveWithKey(once, id, key) <==> id == db.nextTask {
      assert !ActiveWithKey(db, id, key);
    }
  }

  /** Distinct keys are needed: asked twice for one free key, the batch reports two tasks
      created where the simple form reports one. */
  lemma {:induction false} RepeatedKeyDisagrees(db: Db, item: NewTask)
    requires TypeEnabled(db, item.typeCode) && item.dedupKey.Some? && FreshIds(db)
    requires !KeyTaken(db, item.dedupKey)
    ensures BatchReport(db, [item, item], false, 1) == Created(db.nextTask)
    ensures EachReports(db, [item, item], false)[1] == AlreadyActive(Some(db.nextTask))
  {
    var items := [item, item];
    assert items[..1] == [item] && [item][..0] == [];
    OneItemStored(db, item);
    OneHolder(db, item, item.dedupKey.value);
    ReportOfPrefix(db, items, false, 1);
    assert BatchDb(db, [], false) == db;
    assert CreatedId(db, [item], false, item.dedupKey) == Some(db.nextTask);
  }

  // ----- what the batch method computes along the way -----

  /** The history lookup's answer for a set of keys: stripped, non-empty, fatal ones only. */
  ghost predicate FatalsOf(db: Db, keys: seq<string>, fatals: map<string, TaskId>) {
    forall k :: (k in fatals <==> k != "" && (exists raw :: raw in keys && Strip(raw) == k) && NewestFatal(db, k).Some?)
                && (k in fatals ==> NewestFatal(db, k) == Some(fatals[k]))
  }

  predicate HasKey(item: NewTask) {
    item.dedupKey.Some? && item.dedupKey.value != ""
  }

  // The non-empty keys of the items, in order.
  function KeysOf(items: seq<NewTask>): (r: seq<string>)
    ensures forall item :: item in items && HasKey(item) ==> item.dedupKey.value in r
    ensures forall k :: k in r ==> k != ""
  {
    if items == [] then []
    else (if HasKey(items[0]) then [items[0].dedupKey.value] else []) + KeysOf(items[1..])
  }

  lemma LookupMeansSkip(db: Db, items: seq<NewTask>, fatals: map<string, TaskId>, item: NewTask)
    requires FatalsOf(db, KeysOf(items), fatals) && item in items
    ensures HasKey(item) && item.dedupKey.value in fatals <==> SkipsInBatch(db, item, true)
    ensures SkipsInBatch(db, item, true) ==> NewestFatal(db, item.dedupKey.value) == Some(fatals[item.dedupKey.value])
  {
    if HasKey(item) && item.dedupKey.value in fatals {
      var raw :| raw in KeysOf(items) && Strip(raw) == item.dedupKey.value;
      StripTwice(raw);
    }
  }

  lemma StripTwice(s: string)
    ensures Strip(Strip(s)) == Strip(s)
  {
    var left := StripLeft(s);
    var both := StripRight(left);
    if both != [] {
      assert both[0] == left[0];
    }
  }

  /** The dictionary of created rows after the first n items. */
  ghost predicate CreatedSoFar(db: Db, items: seq<NewTask>, skip: bool, created: map<string, TaskId>)
    requires forall i :: 0 <= i < |items| ==> items[i].typeCode in db.types
  {
    forall k :: (if k in created then Some(created[k]) else None) == CreatedId(db, items, skip, Some(k))
  }

  ghost function HistoryReport(db: Db, item: NewTask, skip: bool): Option<EnqueueResult> {
    if SkipsInBatch(db, item, skip) then
      var id := NewestFatal(db, item.dedupKey.value).value;
      Some(SkippedFatal(id, FatalCode(db, id)))
    else None
  }

  function LookupReport(db: Db, fatals: map<string, TaskId>, item: NewTask): Option<EnqueueResult>
    requires forall k :: k in fatals ==> fatals[k] in db.tasks
  {
    if HasKey(item) && item.dedupKey.value in fatals then
      var id := fatals[item.dedupKey.value];
      Some(SkippedFatal(id, FatalCode(db, id)))
    else None
  }

  lemma LookupReportsHistory(db: Db, items: seq<NewTask>, fatals: map<string, TaskId>)
    requires FatalsOf(db, KeysOf(items), fatals)
    ensures forall k :: k in fatals ==> fatals[k] in db.tasks
    ensures forall item :: item in items ==> LookupReport(db, fatals, item) == HistoryReport(db, item, true)
  {
    forall item | item in items ensures LookupReport(db, fatals, item) == HistoryReport(db, item, true) {
      LookupMeansSkip(db, items, fatals, item);
    }
  }
}
