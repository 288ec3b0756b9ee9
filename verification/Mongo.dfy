/** The MongoDB adapter: documents are built first from the commit's own monitors, then one transaction
    advances the cursors and inserts them, retried as the server's error labels allow. */
module Mongo {
  import opened Domain
  import opened Results
  import opened Storage
  import Postgres

  /** A result document; a call is one without a log index. */
  datatype Document = Document(monitor: nat, row: Row)

  predicate SameKey(a: Document, b: Document) {
    a.monitor == b.monitor && SameIdentity(a.row, b.row)
  }

  /** The unique indexes of the results collection. */
  predicate UniqueDocuments(documents: seq<Document>) {
    forall i, j :: 0 <= i < j < |documents| ==> !SameKey(documents[i], documents[j])
  }

  /** One monitor's rows, in insertion order. */
  function RowsIn(documents: seq<Document>, id: nat): seq<Row> {
    if documents == [] then []
    else
      var last := documents[|documents| - 1];
      RowsIn(documents[..|documents| - 1], id) + if last.monitor == id then [last.row] else []
  }

  function Abstract(monitors: map<nat, Monitor>, documents: seq<Document>): Store {
    Store(monitors, map id | id in monitors :: RowsIn(documents, id))
  }

  function DocumentsOf(results: seq<Decoded>): (r: seq<Document>)
    ensures |r| == |results|
  {
    seq(|results|, k requires 0 <= k < |results| => Document(results[k].monitor, RowOf(results[k])))
  }

  lemma {:induction false} RowsInConcat(a: seq<Document>, b: seq<Document>, id: nat)
    ensures RowsIn(a + b, id) == RowsIn(a, id) + RowsIn(b, id)
    decreases |b|
  {
    if b == [] {
      assert a + b == a;
    } else {
      RowsInConcat(a, b[..|b| - 1], id);
      assert (a + b)[..|a + b| - 1] == a + b[..|b| - 1];
    }
  }

  lemma {:induction false} RowsOfDocuments(results: seq<Decoded>, id: nat)
    ensures RowsIn(DocumentsOf(results), id) == RowsOf(Select(results, id))
  {
    if results == [] {
    } else {
      var init := results[..|results| - 1];
      RowsOfDocuments(init, id);
      assert DocumentsOf(results)[..|results| - 1] == DocumentsOf(init);
    }
  }

  lemma {:induction false} RowHasDocument(documents: seq<Document>, id: nat, row: Row)
    requires row in RowsIn(documents, id)
    ensures Document(id, row) in documents
  {
    var init := documents[..|documents| - 1];
    if row in RowsIn(init, id) {
      RowHasDocument(init, id, row);
    }
  }

  /** The collection's unique indexes keep each monitor's rows unique. */
  lemma {:induction false} UniquePerMonitor(documents: seq<Document>, id: nat)
    requires UniqueDocuments(documents)
    ensures UniqueRows(RowsIn(documents, id))
  {
    if documents == [] {
    } else {
      var init, last := documents[..|documents| - 1], documents[|documents| - 1];
      UniquePerMonitor(init, id);
      var rows := RowsIn(init, id);
      forall k | 0 <= k < |rows| && last.monitor == id
        ensures !SameIdentity(rows[k], last.row)
      {
        RowHasDocument(init, id, rows[k]);
        var i :| 0 <= i < |init| && init[i] == Document(id, rows[k]);
        assert !SameKey(documents[i], last);
      }
    }
  }

  // ---- Building documents ----

  predicate Documented(x: Decoded, monitors: map<nat, Monitor>) {
    && x.monitor in monitors
    && x.DecodedCall? == monitors[x.monitor].target.CallTarget?
    && |x.params| == |monitors[x.monitor].target.params|
    && x.monitor <= I64_MAX && x.block <= I64_MAX
    && (x.DecodedEvent? ==> x.logIndex <= I64_MAX)
  }

  method MonitorsById(monitors: seq<Monitor>) returns (r: map<nat, Monitor>)
    ensures r.Keys == Ids(monitors)
    ensures forall id :: id in r ==> r[id].id == id && r[id] in monitors
  {
    r := map[];
    for k := 0 to |monitors|
      invariant r.Keys == set i | 0 <= i < k :: monitors[i].id
      invariant forall id :: id in r ==> r[id].id == id && r[id] in monitors
    {
      r := r[monitors[k].id := monitors[k]];
    }
  }

  method BuildDocuments(results: seq<Decoded>, monitors: map<nat, Monitor>) returns (r: Result<seq<Document>>)
    ensures r.Ok? <==> forall x :: x in results ==> Documented(x, monitors)
    ensures r.Ok? ==> r.value == DocumentsOf(results)
  {
    var documents: seq<Document> := [];
    while |documents| < |results|
      invariant |documents| <= |results| && documents == DocumentsOf(results[..|documents|])
      invariant forall i :: 0 <= i < |documents| ==> Documented(results[i], monitors)
    {
      var x := results[|documents|];
      assert x in results;
      if !Documented(x, monitors) {
        return Err;
      }
      assert results[..|documents| + 1][..|documents|] == results[..|documents|];
      documents := documents + [Document(x.monitor, RowOf(x))];
    }
    assert results[..|results|] == results;
    r := Ok(documents);
  }

  // ---- One transaction ----

  function Matched(monitors: map<nat, Monitor>, ids: set<nat>, chain: nat): set<nat> {
    set id | id in ids && id in monitors && monitors[id].chain == chain
  }

  function Updated(monitors: map<nat, Monitor>, ids: set<nat>, chain: nat, block: U64): map<nat, Monitor> {
    map id | id in monitors :: if id in Matched(monitors, ids, chain) then Advance(monitors[id], block) else monitors[id]
  }

  datatype Attempt =
    | Done(monitors: map<nat, Monitor>, documents: seq<Document>)
    | Transient
    | Failed

  datatype CommitAnswer = Acknowledged | Unknown | Aborted | Rejected

  lemma RunAgain(monitors: map<nat, Monitor>, documents: seq<Document>, ids: set<nat>, chain: nat, block: U64, more: seq<Document>)
    ensures Updated(Updated(monitors, ids, chain, block), ids, chain, block) == Updated(monitors, ids, chain, block)
    ensures UniqueDocuments(documents + more + more) ==> more == []
  {
    assert Matched(Updated(monitors, ids, chain, block), ids, chain) == Matched(monitors, ids, chain);
    if more != [] {
      var all := documents + more + more;
      assert all[|documents|] == more[0] == all[|documents| + |more|];
      assert SameKey(all[|documents|], all[|documents| + |more|]);
    }
  }

  /** Either nothing of the commit is stored, or all of it is, once. */
  ghost predicate AllOrNothing(before: (map<nat, Monitor>, seq<Document>), ids: set<nat>, chain: nat, block: U64,
                               more: seq<Document>, applied: bool, monitors: map<nat, Monitor>, documents: seq<Document>)
  {
    if applied then
      && Matched(before.0, ids, chain) == ids && UniqueDocuments(before.1 + more)
      && monitors == Updated(before.0, ids, chain, block) && documents == before.1 + more
    else monitors == before.0 && documents == before.1
  }

  lemma AttemptKeepsAllOrNothing(before: (map<nat, Monitor>, seq<Document>), ids: set<nat>, chain: nat, block: U64, more: seq<Document>,
                                 applied: bool, monitors: map<nat, Monitor>, documents: seq<Document>)
    requires AllOrNothing(before, ids, chain, block, more, applied, monitors, documents)
    requires Matched(monitors, ids, chain) == ids && UniqueDocuments(documents + more)
    ensures AllOrNothing(before, ids, chain, block, more, true, Updated(monitors, ids, chain, block), documents + more)
  {
    RunAgain(before.0, before.1, ids, chain, block, more);
    assert more == [] ==> documents + more == documents;
  }

  lemma AppendRefines(monitors: map<nat, Monitor>, documents: seq<Document>, results: seq<Decoded>, id: nat)
    requires UniqueDocuments(documents + DocumentsOf(results))
    ensures RowsIn(documents + DocumentsOf(results), id) == RowsIn(documents, id) + RowsOf(Select(results, id))
    ensures UniqueRows(RowsIn(documents, id) + RowsOf(Select(results, id)))
  {
    RowsInConcat(documents, DocumentsOf(results), id);
    RowsOfDocuments(results, id);
    UniquePerMonitor(documents + DocumentsOf(results), id);
  }

  lemma TablesRefine(before: (map<nat, Monitor>, seq<Document>), commit: BlockCommit)
    requires forall x :: x in commit.results ==> x.monitor in Ids(commit.monitors)
    requires UniqueDocuments(before.1 + DocumentsOf(commit.results))
    ensures var store, monitors := Abstract(before.0, before.1), Updated(before.0, Ids(commit.monitors), commit.chain, commit.block);
            Abstract(monitors, before.1 + DocumentsOf(commit.results)).tables == Committed(store, commit).tables
  {
    var store := Abstract(before.0, before.1);
    forall id | id in before.0
      ensures RowsIn(before.1 + DocumentsOf(commit.results), id) == Committed(store, commit).tables[id]
    {
      AppendRefines(before.0, before.1, commit.results, id);
      if id !in Ids(commit.monitors) {
        SelectNone(commit.results, id);
        assert RowsOf([]) == [];
      }
    }
  }

  lemma CommitRefines(before: (map<nat, Monitor>, seq<Document>), commit: BlockCommit, known: map<nat, Monitor>)
    requires (forall m :: m in commit.monitors ==> m.chain == commit.chain) && commit.block <= I64_MAX
    requires known.Keys == Ids(commit.monitors)
    requires forall id :: id in known && id in before.0 ==> before.0[id].target == known[id].target
    requires forall x :: x in commit.results ==> Documented(x, known)
    requires Matched(before.0, Ids(commit.monitors), commit.chain) == Ids(commit.monitors)
    requires UniqueDocuments(before.1 + DocumentsOf(commit.results))
    ensures Acceptable(Abstract(before.0, before.1), commit)
    ensures Abstract(Updated(before.0, Ids(commit.monitors), commit.chain, commit.block), before.1 + DocumentsOf(commit.results)) ==
            Committed(Abstract(before.0, before.1), commit)
  {
    var store := Abstract(before.0, before.1);
    AllLocked(before.0, before.1, commit);
    forall id | id in Ids(commit.monitors)
      ensures UniqueRows(Table(store, id) + RowsOf(Select(commit.results, id)))
    {
      AppendRefines(before.0, before.1, commit.results, id);
    }
    TablesRefine(before, commit);
  }

  lemma AllLocked(monitors: map<nat, Monitor>, documents: seq<Document>, commit: BlockCommit)
    requires Matched(monitors, Ids(commit.monitors), commit.chain) == Ids(commit.monitors)
    ensures Locked(Abstract(monitors, documents), commit).Keys == Ids(commit.monitors)
    ensures Updated(monitors, Ids(commit.monitors), commit.chain, commit.block) == Committed(Abstract(monitors, documents), commit).monitors
  {
  }

  /** What MongoDB can store beside what every commit must meet: ids and chain in 64 signed bits. */
  ghost predicate Storable(store: Store, commit: BlockCommit) {
    Acceptable(store, commit) && commit.chain <= I64_MAX && forall m :: m in commit.monitors ==> m.id <= I64_MAX
  }

  lemma {:induction false} DocumentHasRow(documents: seq<Document>, i: nat) returns (k: nat)
    requires i < |documents|
    ensures k < |RowsIn(documents, documents[i].monitor)| && RowsIn(documents, documents[i].monitor)[k] == documents[i].row
    decreases |documents|
  {
    var init := documents[..|documents| - 1];
    if i < |init| {
      k := DocumentHasRow(init, i);
    } else {
      k := |RowsIn(init, documents[i].monitor)|;
    }
  }

  /** Two documents with one key make their monitor's rows repeat. */
  lemma {:induction false} RepeatedKey(documents: seq<Document>, i: nat, j: nat)
    requires i < j < |documents| && SameKey(documents[i], documents[j])
    ensures !UniqueRows(RowsIn(documents, documents[j].monitor))
    decreases |documents|
  {
    var init, last, id := documents[..|documents| - 1], documents[|documents| - 1], documents[j].monitor;
    var rows := RowsIn(documents, id);
    if j < |init| {
      RepeatedKey(init, i, j);
      var before := RowsIn(init, id);
      var a, b :| 0 <= a < b < |before| && SameIdentity(before[a], before[b]);
      assert rows[a] == before[a] && rows[b] == before[b];
    } else {
      var k := DocumentHasRow(init, i);
      assert rows[k] == documents[i].row && rows[|rows| - 1] == last.row;
    }
  }

  /** What can be stored repeats no key of the collection. */
  lemma StorableIsUnique(monitors: map<nat, Monitor>, documents: seq<Document>, commit: BlockCommit)
    requires UniqueDocuments(documents) && Acceptable(Abstract(monitors, documents), commit)
    ensures UniqueDocuments(documents + DocumentsOf(commit.results))
  {
    var store, more := Abstract(monitors, documents), DocumentsOf(commit.results);
    var all := documents + more;
    forall i, j | 0 <= i < j < |all|
      ensures !SameKey(all[i], all[j])
    {
      if j >= |documents| {
        var x := commit.results[j - |documents|];
        assert ResultFits(x, Locked(store, commit));
        RowsInConcat(documents, more, x.monitor);
        RowsOfDocuments(commit.results, x.monitor);
        assert x.monitor in Ids(commit.monitors);
        assert UniqueRows(RowsIn(all, x.monitor));
        if SameKey(all[i], all[j]) {
          RepeatedKey(all, i, j);
        }
      } else {
        assert all[i] == documents[i] && all[j] == documents[j];
      }
    }
  }

  /** What can be stored is documented by the commit's own monitors and matches its ids. */
  lemma StorableIsDocumented(monitors: map<nat, Monitor>, documents: seq<Document>, commit: BlockCommit, known: map<nat, Monitor>)
    requires Storable(Abstract(monitors, documents), commit) && known.Keys == Ids(commit.monitors)
    requires forall id :: id in known && id in monitors ==> monitors[id].target == known[id].target
    ensures forall x :: x in commit.results ==> Documented(x, known)
    ensures Matched(monitors, Ids(commit.monitors), commit.chain) == Ids(commit.monitors)
  {
    var store := Abstract(monitors, documents);
    forall x | x in commit.results
      ensures Documented(x, known)
    {
      assert ResultFits(x, Locked(store, commit));
      var k :| 0 <= k < |commit.monitors| && commit.monitors[k].id == x.monitor;
      assert commit.monitors[k] in commit.monitors;
    }
    forall id | id in Ids(commit.monitors)
      ensures id in Matched(monitors, Ids(commit.monitors), commit.chain)
    {
      assert id in Locked(store, commit);
    }
  }

  class MongoStorage {
    var monitors: map<nat, Monitor>
    var documents: seq<Document>
    ghost var failed: bool

    ghost predicate Valid()
      reads this
    {
      UniqueDocuments(documents)
    }

    function Contents(): Store
      reads this
    {
      Abstract(monitors, documents)
    }

    constructor ()
      ensures Valid() && Contents() == Store(map[], map[])
    {
      monitors, documents, failed := map[], [], false;
    }

    /** Nothing but the server stands in the way of the transaction. */
    ghost predicate Fits(ids: set<nat>, chain: nat, more: seq<Document>)
      reads this
    {
      Matched(monitors, ids, chain) == ids && UniqueDocuments(documents + more)
    }

    /** The transaction's operations on a working copy. The server sends finitely many transient errors. */
    method Attempt(ids: set<nat>, chain: nat, block: U64, more: seq<Document>, patience: nat) returns (r: Attempt)
      requires Valid()
      modifies this`failed
      ensures r.Transient? ==> patience > 0
      ensures r.Done? ==> Fits(ids, chain, more)
      ensures r.Done? ==> r.monitors == Updated(monitors, ids, chain, block) && r.documents == documents + more
      ensures r.Failed? ==> failed || !Fits(ids, chain, more)
      ensures old(failed) ==> failed
    {
      if patience > 0 {
        if * {
          return Transient;
        }
      }
      var matched := Matched(monitors, ids, chain);
      if |matched| != |ids| {
        return Failed;
      }
      Postgres.SameSize(matched, ids);
      if more != [] && !UniqueDocuments(documents + more) {
        return Failed;
      }
      if * {
        failed := true;
        return Failed;
      }
      assert more == [] ==> documents + more == documents;
      r := Done(Updated(monitors, ids, chain, block), documents + more);
    }

    /** The server's answer to a commit: acknowledged; unknown, whether or not it took effect; aborted
        without effect; or rejected, whether or not it took effect. */
    method AnswerCommit(work: Attempt, patience: nat) returns (answer: CommitAnswer)
      requires work.Done?
      modifies this
      ensures (monitors == old(monitors) && documents == old(documents)) ||
              (monitors == work.monitors && documents == work.documents)
      ensures answer.Acknowledged? ==> monitors == work.monitors && documents == work.documents
      ensures answer.Aborted? ==> monitors == old(monitors) && documents == old(documents)
      ensures answer.Unknown? || answer.Aborted? ==> patience > 0
      ensures old(failed) || answer.Unknown? || answer.Rejected? ==> failed
    {
      if patience > 0 {
        if * {
          return Aborted;
        }
      }
      if * {
        monitors, documents := work.monitors, work.documents;
        return Acknowledged;
      }
      if * {
        monitors, documents := work.monitors, work.documents;
      }
      failed := true;
      answer := if patience > 0 then Unknown else Rejected;
    }

    /** Runs the transaction until it is acknowledged or fails for good. `patience` bounds how often the
        server asks for a retry. */
    method Transaction(ids: set<nat>, chain: nat, block: U64, more: seq<Document>, patience: nat) returns (ok: bool, ghost applied: bool)
      requires Valid()
      modifies this
      ensures Valid()
      ensures AllOrNothing((old(monitors), old(documents)), ids, chain, block, more, applied, monitors, documents)
      ensures ok ==> applied
      ensures !ok ==> failed || !old(Fits(ids, chain, more))
    {
      var left := patience;
      applied := false;
      while true
        invariant Valid() && (applied ==> failed)
        invariant AllOrNothing((old(monitors), old(documents)), ids, chain, block, more, applied, monitors, documents)
        decreases left
      {
        var work := Attempt(ids, chain, block, more, left);
        if work.Transient? {
          left := left - 1;
          continue;
        }
        if work.Failed? {
          return false, applied;
        }
        AttemptKeepsAllOrNothing((old(monitors), old(documents)), ids, chain, block, more, applied, monitors, documents);
        var answer;
        answer, left, applied := CommitWork((old(monitors), old(documents)), ids, chain, block, more, work, left, applied);
        match answer
        case Acknowledged =>
          return true, applied;
        case Rejected =>
          return false, applied;
        case _ =>
      }
    }

    /** Commits the work, asking again while the outcome is unknown. */
    method CommitWork(ghost before: (map<nat, Monitor>, seq<Document>), ghost ids: set<nat>, ghost chain: nat, ghost block: U64,
                      ghost more: seq<Document>, work: Attempt, patience: nat, ghost was: bool)
      returns (answer: CommitAnswer, left: nat, ghost applied: bool)
      requires Valid() && work.Done? && UniqueDocuments(work.documents) && (was ==> failed)
      requires AllOrNothing(before, ids, chain, block, more, was, monitors, documents)
      requires AllOrNothing(before, ids, chain, block, more, true, work.monitors, work.documents)
      modifies this
      ensures Valid() && left <= patience && !answer.Unknown?
      ensures AllOrNothing(before, ids, chain, block, more, applied, monitors, documents)
      ensures answer.Acknowledged? ==> applied
      ensures answer.Rejected? ==> failed
      ensures answer.Aborted? ==> left < patience && (applied ==> failed)
      ensures old(failed) ==> failed
    {
      left, applied := patience, was;
      while true
        invariant left <= patience && Valid() && (applied ==> failed) && (old(failed) ==> failed)
        invariant AllOrNothing(before, ids, chain, block, more, applied, monitors, documents)
        decreases left
      {
        ghost var same := (monitors, documents);
        answer := AnswerCommit(work, left);
        if (monitors, documents) != same || answer.Acknowledged? {
          applied := true;
        }
        if answer.Acknowledged? || answer.Rejected? {
          return;
        }
        left := left - 1;
        if answer.Aborted? {
          return;
        }
      }
    }

    /** A monitor's target never changes, so the commit's copy of it is the stored one. The whole commit, or
        nothing, or the whole commit and an error; unless the server fails, an error means that the commit
        cannot be stored. */
    method CommitBlock(commit: BlockCommit, patience: nat) returns (ok: bool)
      requires Valid()
      requires forall m :: m in commit.monitors && m.id in monitors ==> monitors[m.id].target == m.target
      modifies this
      ensures Valid() && Atomic(old(Contents()), commit, ok, Contents())
      ensures !ok ==> failed || !Storable(old(Contents()), commit)
    {
      if exists k :: 0 <= k < |commit.monitors| && commit.monitors[k].chain != commit.chain {
        return false;
      }
      if commit.chain > I64_MAX || commit.block > I64_MAX {
        return false;
      }
      var ids := Postgres.CollectIds(commit.monitors);
      if ids.Err? {
        return false;
      }
      var known := MonitorsById(commit.monitors);
      ghost var before := (monitors, documents);
      ghost var storable := Storable(Contents(), commit);
      if storable {
        StorableIsDocumented(monitors, documents, commit, known);
        StorableIsUnique(monitors, documents, commit);
      }
      var built := BuildDocuments(commit.results, known);
      if built.Err? {
        return false;
      }
      ghost var applied;
      ok, applied := Transaction(ids.value, commit.chain, commit.block, built.value, patience);
      if applied {
        CommitRefines(before, commit, known);
      }
    }
  }
}
