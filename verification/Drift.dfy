/**
 * Which saved requests an import's drift covers, and the bounded choice of
 * history it compares.
 */
module Drift {
  import opened Prelude

  type Id = nat

  const MAX_DRIFT_RECORDS: nat := 1000
  const MAX_DRIFT_SCAN: nat := 20 * MAX_DRIFT_RECORDS

  datatype Folder = Folder(id: Id, parent: Option<Id>)

  /** A saved request: its folder, and the import it came from with its operation. */
  datatype Request = Request(id: Id, folder: Option<Id>, source: Option<Source>)
  datatype Source = Source(importId: Id, operation: int)

  /** An import: its current id, its earlier ones, and the folder it made unless it made a workspace. */
  datatype Import = Import(importId: Id, earlier: set<Id>, root: Option<Id>)

  datatype HistoryEntry = HistoryEntry(id: Id, request: Option<Id>)
  datatype Record = Record(content: int, notes: seq<int>)
  datatype Observation = Observation(entry: Id, content: int, operation: Option<int>)
  datatype Collected = Collected(observations: seq<Observation>, scanned: nat, notes: seq<int>)

  // ------------------------------------------------------- folder closure

  /** Following parents from `id` reaches `root` within `steps` steps. */
  ghost predicate ReachesWithin(folders: seq<Folder>, root: Id, id: Id, steps: nat)
    decreases steps
  {
    id == root || (steps > 0 && exists f :: f in folders && f.id == id && f.parent.Some? && ReachesWithin(folders, root, f.parent.value, steps - 1))
  }

  ghost predicate Reaches(folders: seq<Folder>, root: Id, id: Id) {
    exists steps: nat :: ReachesWithin(folders, root, id, steps)
  }

  lemma ChildReaches(folders: seq<Folder>, root: Id, f: Folder)
    requires f in folders && f.parent.Some? && Reaches(folders, root, f.parent.value)
    ensures Reaches(folders, root, f.id)
  {
    var n: nat :| ReachesWithin(folders, root, f.parent.value, n);
    assert ReachesWithin(folders, root, f.id, n + 1);
  }

  lemma {:induction false} ClosedReaches(folders: seq<Folder>, root: Id, inside: set<Id>, id: Id, steps: nat)
    requires root in inside
    requires forall f :: f in folders && f.parent.Some? && f.parent.value in inside ==> f.id in inside
    requires ReachesWithin(folders, root, id, steps)
    ensures id in inside
    decreases steps
  {
    if id != root {
      var f :| f in folders && f.id == id && f.parent.Some? && ReachesWithin(folders, root, f.parent.value, steps - 1);
      ClosedReaches(folders, root, inside, f.parent.value, steps - 1);
    }
  }

  lemma SameSize<T>(a: set<T>, b: set<T>)
    requires a <= b
    ensures |a| <= |b| && (|a| == |b| ==> a == b)
  {
    assert b == a + (b - a);
  }

  function FolderIds(folders: seq<Folder>): set<Id> {
    set f | f in folders :: f.id
  }

  /** One pass over the folders: every one whose parent is inside joins. */
  method Grow(folders: seq<Folder>, root: Id, inside: set<Id>) returns (grown: set<Id>)
    requires inside <= FolderIds(folders) + {root}
    requires forall id :: id in inside ==> Reaches(folders, root, id)
    ensures inside <= grown <= FolderIds(folders) + {root}
    ensures forall id :: id in grown ==> Reaches(folders, root, id)
    ensures forall f :: f in folders && f.parent.Some? && f.parent.value in inside ==> f.id in grown
  {
    grown := inside;
    for i := 0 to |folders|
      invariant inside <= grown <= FolderIds(folders) + {root}
      invariant forall id :: id in grown ==> Reaches(folders, root, id)
      invariant forall j :: 0 <= j < i && folders[j].parent.Some? && folders[j].parent.value in inside ==> folders[j].id in grown
    {
      var f := folders[i];
      if f.parent.Some? && f.parent.value in grown {
        ChildReaches(folders, root, f);
        grown := grown + {f.id};
      }
    }
  }

  /** The root and every folder whose parents lead to it, cycles among the others or not. */
  method UnderRoot(folders: seq<Folder>, root: Id) returns (inside: set<Id>)
    ensures forall id :: id in inside <==> Reaches(folders, root, id)
  {
    inside := {root};
    assert ReachesWithin(folders, root, root, 0);
    var before := 0;
    while |inside| != before
      invariant root in inside && inside <= FolderIds(folders) + {root}
      invariant forall id :: id in inside ==> Reaches(folders, root, id)
      invariant before <= |inside|
      invariant |inside| == before ==> forall f :: f in folders && f.parent.Some? && f.parent.value in inside ==> f.id in inside
      decreases |FolderIds(folders) + {root}| + 1 - before
    {
      before := |inside|;
      var grown := Grow(folders, root, inside);
      SameSize(inside, grown);
      SameSize(grown, FolderIds(folders) + {root});
      inside := grown;
    }
    forall id | Reaches(folders, root, id) ensures id in inside {
      var n: nat :| ReachesWithin(folders, root, id, n);
      ClosedReaches(folders, root, inside, id, n);
    }
  }

  // ------------------------------------------------------- covered requests

  predicate FromImport(rec: Import, r: Request) {
    r.source.Some? && (r.source.value.importId == rec.importId || r.source.value.importId in rec.earlier)
  }

  /** Whether an import's drift covers a request of its workspace. */
  ghost predicate Covers(rec: Import, folders: seq<Folder>, r: Request) {
    || (r.source.Some? && (r.source.value.importId == rec.importId || r.source.value.importId in rec.earlier))
    || rec.root.None?
    || (r.folder.Some? && Reaches(folders, rec.root.value, r.folder.value))
  }

  function Operation(rec: Import, r: Request): Option<int> {
    if FromImport(rec, r) then Some(r.source.value.operation) else None
  }

  ghost predicate DistinctRequests(requests: seq<Request>) {
    forall i, j :: 0 <= i < j < |requests| ==> requests[i].id != requests[j].id
  }

  /** The covered requests, with the operation each was imported from. */
  method DriftRequests(rec: Import, requests: seq<Request>, folders: seq<Folder>) returns (covered: map<Id, Option<int>>)
    requires DistinctRequests(requests)
    ensures forall id :: id in covered <==> exists r :: r in requests && r.id == id && Covers(rec, folders, r)
    ensures forall r :: r in requests && Covers(rec, folders, r) ==> r.id in covered
    ensures forall r :: r in requests && Covers(rec, folders, r) ==>
      covered[r.id] == if r.source.Some? && (r.source.value.importId == rec.importId || r.source.value.importId in rec.earlier)
                       then Some(r.source.value.operation) else None
  {
    var under: set<Id> := {};
    if rec.root.Some? {
      under := UnderRoot(folders, rec.root.value);
    }
    covered := map[];
    for i := 0 to |requests|
      invariant forall id :: id in covered <==> exists j :: 0 <= j < i && requests[j].id == id && Covers(rec, folders, requests[j])
      invariant forall j :: 0 <= j < i && Covers(rec, folders, requests[j]) ==>
        requests[j].id in covered && covered[requests[j].id] == Operation(rec, requests[j])
    {
      var r := requests[i];
      if FromImport(rec, r) || rec.root.None? || (r.folder.Some? && r.folder.value in under) {
        assert Covers(rec, folders, r);
        covered := covered[r.id := Operation(rec, r)];
      }
    }
  }

  // ----------------------------------------------------- bounded selection

  function Min(a: nat, b: nat): (m: nat)
    ensures m <= a && m <= b && (m == a || m == b)
  {
    if a <= b then a else b
  }

  predicate CoveredEntry(covered: map<Id, Option<int>>, e: HistoryEntry) {
    e.request.Some? && e.request.value in covered
  }

  /** An entry that becomes an observation: its request is covered and its record is stored. */
  predicate Observable(covered: map<Id, Option<int>>, records: map<Id, Record>, e: HistoryEntry) {
    CoveredEntry(covered, e) && e.id in records
  }

  function ObservationOf(covered: map<Id, Option<int>>, records: map<Id, Record>, e: HistoryEntry): Observation
    requires Observable(covered, records, e)
  {
    Observation(e.id, records[e.id].content, covered[e.request.value])
  }

  /** Every observation the entries give, in order. */
  function AllObservations(covered: map<Id, Option<int>>, records: map<Id, Record>, entries: seq<HistoryEntry>): seq<Observation> {
    if entries == [] then []
    else
      var n := |entries| - 1;
      AllObservations(covered, records, entries[..n])
      + if Observable(covered, records, entries[n]) then [ObservationOf(covered, records, entries[n])] else []
  }

  function CoveredCount(covered: map<Id, Option<int>>, entries: seq<HistoryEntry>): nat {
    if entries == [] then 0
    else var n := |entries| - 1; CoveredCount(covered, entries[..n]) + if CoveredEntry(covered, entries[n]) then 1 else 0
  }

  /** How many entries are listed for a limit, and how many observations are wanted. */
  function ScanLimit(limit: nat): nat {
    Min(Min(limit, MAX_DRIFT_RECORDS) * 20, MAX_DRIFT_SCAN)
  }

  function Wanted(limit: nat): nat {
    Min(limit, MAX_DRIFT_RECORDS)
  }

  lemma {:induction false} ObservationsGrow(covered: map<Id, Option<int>>, records: map<Id, Record>, entries: seq<HistoryEntry>, i: nat)
    requires i <= |entries|
    ensures AllObservations(covered, records, entries[..i]) <= AllObservations(covered, records, entries)
    decreases |entries|
  {
    if i == |entries| {
      assert entries[..i] == entries;
    } else {
      var n := |entries| - 1;
      assert entries[..n][..i] == entries[..i];
      ObservationsGrow(covered, records, entries[..n], i);
    }
  }

  lemma OneMore(covered: map<Id, Option<int>>, records: map<Id, Record>, entries: seq<HistoryEntry>, i: nat)
    requires i < |entries|
    ensures CoveredCount(covered, entries[..i + 1]) == CoveredCount(covered, entries[..i]) + if CoveredEntry(covered, entries[i]) then 1 else 0
    ensures AllObservations(covered, records, entries[..i + 1]) == AllObservations(covered, records, entries[..i])
      + if Observable(covered, records, entries[i]) then [ObservationOf(covered, records, entries[i])] else []
  {
    assert entries[..i + 1][..i] == entries[..i];
  }

  /** An entry of a covered request counts, and gives its observation if its record is stored. */
  lemma OneEntry(covered: map<Id, Option<int>>, records: map<Id, Record>, e: HistoryEntry)
    ensures CoveredCount(covered, [e]) == if e.request.Some? && e.request.value in covered then 1 else 0
    ensures AllObservations(covered, records, [e]) ==
      if e.request.Some? && e.request.value in covered && e.id in records
      then [Observation(e.id, records[e.id].content, covered[e.request.value])] else []
  {
    assert [e][..0] == [];
  }

  /** Entries are counted and observed one after the other. */
  lemma {:induction false} EntriesSplit(covered: map<Id, Option<int>>, records: map<Id, Record>, a: seq<HistoryEntry>, b: seq<HistoryEntry>)
    ensures AllObservations(covered, records, a + b) == AllObservations(covered, records, a) + AllObservations(covered, records, b)
    ensures CoveredCount(covered, a + b) == CoveredCount(covered, a) + CoveredCount(covered, b)
    decreases |b|
  {
    if b == [] {
      assert a + b == a;
    } else {
      var n := |b| - 1;
      EntriesSplit(covered, records, a, b[..n]);
      assert (a + b)[..|a + b| - 1] == a + b[..n];
    }
  }

  method AddNotes(notes: seq<int>, more: seq<int>) returns (r: seq<int>)
    requires NoDup(notes)
    ensures NoDup(r) && notes <= r && Elements(r) == Elements(notes) + Elements(more)
  {
    r := notes;
    for i := 0 to |more|
      invariant NoDup(r) && notes <= r && Elements(r) == Elements(notes) + Elements(more[..i])
    {
      assert more[..i + 1] == more[..i] + [more[i]];
      assert Elements(more[..i + 1]) == Elements(more[..i]) + {more[i]};
      if more[i] !in r {
        assert Elements(r + [more[i]]) == Elements(r) + {more[i]};
        r := r + [more[i]];
      }
    }
    assert more[..|more|] == more;
  }

  /** The notes of the records behind the first `count` observations. */
  ghost function NotesOf(records: map<Id, Record>, os: seq<Observation>): set<int> {
    set o, n | o in os && o.entry in records && n in records[o.entry].notes :: n
  }

  /** The scan read the first `stop` entries: all of them, or up to the last observation wanted. */
  ghost predicate StopsAt(covered: map<Id, Option<int>>, records: map<Id, Record>, entries: seq<HistoryEntry>, wanted: nat, r: Collected, stop: nat) {
    && stop <= |entries|
    && r.observations == AllObservations(covered, records, entries[..stop])
    && r.scanned == CoveredCount(covered, entries[..stop])
    && (stop < |entries| ==> |r.observations| == wanted)
  }

  /** The observations of the listed entries, up to `wanted` of them. */
  method Collect(covered: map<Id, Option<int>>, records: map<Id, Record>, entries: seq<HistoryEntry>, wanted: nat) returns (r: Collected)
    requires wanted == 0 ==> entries == []
    ensures var all := AllObservations(covered, records, entries);
      r.observations == all[..if |all| < wanted then |all| else wanted]
    ensures NoDup(r.notes) && Elements(r.notes) == NotesOf(records, r.observations)
    ensures exists stop :: StopsAt(covered, records, entries, wanted, r, stop)
  {
    var observations: seq<Observation> := [];
    var scanned := 0;
    var notes: seq<int> := [];
    var i := 0;
    while i < |entries|
      invariant 0 <= i <= |entries|
      invariant observations == AllObservations(covered, records, entries[..i]) && |observations| < wanted + (if i == 0 then 1 else 0)
      invariant scanned == CoveredCount(covered, entries[..i])
      invariant NoDup(notes) && Elements(notes) == NotesOf(records, observations)
    {
      var e := entries[i];
      OneMore(covered, records, entries, i);
      ObservationsGrow(covered, records, entries, i + 1);
      if CoveredEntry(covered, e) {
        scanned := scanned + 1;
        if e.id in records {
          notes := AddNotes(notes, records[e.id].notes);
          NotesGrow(records, observations, ObservationOf(covered, records, e));
          observations := observations + [ObservationOf(covered, records, e)];
          if |observations| >= wanted {
            r := Collected(observations, scanned, notes);
            assert StopsAt(covered, records, entries, wanted, r, i + 1);
            return;
          }
        }
      }
      i := i + 1;
    }
    assert entries[..|entries|] == entries;
    r := Collected(observations, scanned, notes);
    assert StopsAt(covered, records, entries, wanted, r, |entries|);
  }

  /**
   * The newest exchanges of an import's collection, at most `limit` and at most
   * 1000 of them, among the newest 20 entries listed for each. `history` is
   * newest first.
   */
  method DriftObservations(covered: map<Id, Option<int>>, records: map<Id, Record>, history: seq<HistoryEntry>, limit: nat)
    returns (r: Collected)
    ensures var listed, wanted := if limit < 1000 then 20 * limit else 20000, if limit < 1000 then limit else 1000;
      var entries := if |history| < listed then history else history[..listed];
      var all := AllObservations(covered, records, entries);
      && r.observations == all[..if |all| < wanted then |all| else wanted]
      && exists stop :: StopsAt(covered, records, entries, wanted, r, stop)
    ensures NoDup(r.notes) && Elements(r.notes) == NotesOf(records, r.observations)
  {
    var entries := if |history| < ScanLimit(limit) then history else history[..ScanLimit(limit)];
    r := Collect(covered, records, entries, Wanted(limit));
  }

  lemma NotesGrow(records: map<Id, Record>, os: seq<Observation>, o: Observation)
    requires o.entry in records
    ensures NotesOf(records, os + [o]) == NotesOf(records, os) + Elements(records[o.entry].notes)
  {
    assert forall x :: x in os + [o] <==> x in os || x == o;
    forall n ensures n in NotesOf(records, os + [o]) <==> n in NotesOf(records, os) || n in records[o.entry].notes {
      if n in NotesOf(records, os + [o]) {
        var x :| x in os + [o] && x.entry in records && n in records[x.entry].notes;
      }
    }
  }
}
