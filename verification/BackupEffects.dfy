/**
 * What a restore leaves in the store, key by key, and exactly when its writes
 * go through.
 */
module BackupEffects {
  import opened Prelude
  import opened Store
  import opened Rulesets
  import opened BackupWrite
  import opened BackupRestore

  ghost predicate DistinctKeys(es: seq<Entry>) {
    forall i, j :: 0 <= i < j < |es| ==> es[i].key != es[j].key
  }

  /** The order kinds are written in, as far as one row's acceptance depends on another. */
  function Rank(k: Kind): nat {
    match k
    case Workspace => 0
    case Folder => 1
    case Request => 2
    case Revision => 3
    case _ => 4
  }

  predicate GraphKind(k: Kind) {
    k in {Workspace, Folder, Request, Revision, Environment, TlsProfile, ProxyProfile, Integration, Dataset, Scenario, LoadPlan}
  }

  predicate TrailingKind(k: Kind) {
    k in {UserProfile, SpecSource, RunReport}
  }

  /** Folders, requests and run reports are stored under the sort key they have, the rest but rulesets under 0. */
  predicate SortedAsItself(k: Kind, row: Row) {
    && (k in {Folder, Request, RunReport} ==> row.sort == row.value.sort)
    && (k !in {Folder, Request, RunReport, ApiRuleset} ==> row.sort == 0.0)
  }

  /** A row as the app itself would store it, owned by a workspace of the backup. */
  ghost predicate RowOk(e: Entry, ws: set<Id>) {
    && Shaped(e.key.kind, e.row)
    && (e.row.owner.Some? ==> e.row.owner.value in ws)
    && SortedAsItself(e.key.kind, e.row)
  }

  ghost predicate HasRequest(es: seq<Entry>, e: Entry) {
    exists q :: q in es && q.key.kind == Request && e.row.parent == Some(q.key.id) && q.row.owner == e.row.owner
  }

  ghost predicate GraphOk(graph: seq<Entry>, ws: set<Id>) {
    && (forall e :: e in graph ==> GraphKind(e.key.kind) && RowOk(e, ws))
    && (forall i, j :: 0 <= i < j < |graph| ==> Rank(graph[i].key.kind) <= Rank(graph[j].key.kind))
    && (forall e :: e in graph && e.key.kind == Revision ==> HasRequest(graph, e))
  }

  /** Everything the backup writes, as the plan names it. */
  ghost function Writes(d: Decoded): set<Item> {
    (set e | e in d.graph + d.trailing :: ObjectItem(e.key))
    + (if d.settings.Some? then {SETTINGS_ITEM} else {})
    + (set r | r in d.rulesets :: ObjectItem(RulesetKey(r)))
    + (set s | s in d.secrets :: SecretItem(s.id))
    + (set h | h in d.history :: HistoryItem(h.id))
    + (set r | r in d.reports :: ReportItem(r.id))
  }

  ghost predicate RecordsOk(d: Decoded) {
    && (forall i, j :: 0 <= i < j < |d.secrets| ==> d.secrets[i].id != d.secrets[j].id)
    && (forall i, j :: 0 <= i < j < |d.history| ==> d.history[i].id != d.history[j].id)
    && (forall i, j :: 0 <= i < j < |d.reports| ==> d.reports[i].id != d.reports[j].id)
    && (forall s :: s in d.secrets && s.secret.owner.Some? ==> s.secret.owner.value in Workspaces(d))
    && (forall h :: h in d.history && h.record.workspace.Some? ==> h.record.workspace.value in Workspaces(d))
    && (forall r :: r in d.reports ==> r.report.workspace in Workspaces(d))
  }

  /** What decoding guarantees of the backup it accepted. */
  ghost predicate WellFormed(d: Decoded) {
    && DistinctKeys(d.graph + d.trailing)
    && GraphOk(d.graph, Workspaces(d))
    && (forall e :: e in d.trailing ==> TrailingKind(e.key.kind) && RowOk(e, Workspaces(d)))
    && DistinctRulesets(d.rulesets)
    && RecordsOk(d)
    && NoDup(d.items) && Elements(d.items) == Writes(d)
    && ListsSettings(d)
    && (forall h :: h in d.uncarried ==> h !in d.files)
  }

  // --------------------------------------------------- folds in closed form

  /** The rows `es` writes, those kept left out. */
  ghost function WrittenBy(es: seq<Entry>, w: Writer): map<Key, Row> {
    if es == [] then map[]
    else (if Keeps(w, ObjectItem(es[0].key)) then map[] else map[es[0].key := es[0].row]) + WrittenBy(es[1..], w)
  }

  lemma {:induction false} WrittenLookup(es: seq<Entry>, w: Writer, k: Key)
    requires DistinctKeys(es)
    ensures k in WrittenBy(es, w) <==> !Keeps(w, ObjectItem(k)) && exists e :: e in es && e.key == k
    ensures forall e :: e in es && e.key == k && k in WrittenBy(es, w) ==> WrittenBy(es, w)[k] == e.row
  {
    if es == [] {
    } else {
      WrittenLookup(es[1..], w, k);
      assert es == [es[0]] + es[1..];
      if k == es[0].key {
        assert forall e :: e in es[1..] ==> e.key != k;
      }
    }
  }

  /** Whether `es[i]` is written without a refusal once everything before it is. */
  ghost predicate Accepted(o: Objects, es: seq<Entry>, w: Writer, i: nat)
    requires i < |es|
  {
    || Keeps(w, ObjectItem(es[i].key))
    || PutRefusal(o + WrittenBy(es[..i], w), es[i].key, es[i].row).None?
  }

  /** One step of `PutRows`. */
  function Step(o: Objects, e: Entry, w: Writer): Objects {
    if Keeps(w, ObjectItem(e.key)) then o else o[e.key := e.row]
  }

  lemma StepShift(o: Objects, es: seq<Entry>, w: Writer)
    requires es != []
    ensures o + WrittenBy(es, w) == Step(o, es[0], w) + WrittenBy(es[1..], w)
  {
  }

  lemma AcceptedShift(o: Objects, es: seq<Entry>, w: Writer, i: nat)
    requires 0 < i < |es|
    ensures Accepted(o, es, w, i) <==> Accepted(Step(o, es[0], w), es[1..], w, i - 1)
  {
    StepShift(o, es[..i], w);
    assert es[..i][1..] == es[1..][..i - 1];
  }

  lemma {:induction false} PutRowsClosed(o: Objects, es: seq<Entry>, w: Writer)
    ensures PutRows(o, es, w).Ok? <==> forall i :: 0 <= i < |es| ==> Accepted(o, es, w, i)
    ensures PutRows(o, es, w).Ok? ==> PutRows(o, es, w).value == o + WrittenBy(es, w)
    decreases |es|
  {
    if es == [] {
      assert o + WrittenBy(es, w) == o;
    } else {
      assert o + WrittenBy(es[..0], w) == o;
      if Accepted(o, es, w, 0) {
        var o' := Step(o, es[0], w);
        PutRowsClosed(o', es[1..], w);
        forall i | 0 < i < |es| ensures Accepted(o, es, w, i) <==> Accepted(o', es[1..], w, i - 1) {
          AcceptedShift(o, es, w, i);
        }
        assert forall i :: 0 <= i < |es[1..]| ==> Accepted(o', es[1..], w, i) == Accepted(o, es, w, i + 1);
        StepShift(o, es, w);
      }
    }
  }

  /** Rulesets have no owner, so writing them is never refused and touches nothing else. */
  lemma {:induction false} PutRulesetsFrame(o: Objects, stored: Objects, next: real, rs: seq<Ruleset>, w: Writer)
    requires forall k :: k in o && k.kind == ApiRuleset ==> o[k].owner == None
    ensures PutRulesets(o, stored, next, rs, w).Ok?
    ensures var v := PutRulesets(o, stored, next, rs, w).value;
            && (forall k :: k in v && k.kind == ApiRuleset ==> v[k].owner == None)
            && (forall k :: k in v <==> k in o || (k.kind == ApiRuleset && exists r :: r in rs && RulesetKey(r) == k && !Keeps(w, ObjectItem(k))))
            && (forall k :: k in o && k.kind != ApiRuleset ==> v[k] == o[k])
    decreases |rs|
  {
    if rs == [] {
    } else {
      var k := RulesetKey(rs[0]);
      var sort := if k in stored then stored[k].sort else next;
      var o' := if Keeps(w, ObjectItem(k)) then o else o[k := RulesetRow(rs[0], sort)];
      PutRulesetsFrame(o', stored, MaxOf(next, sort + 1.0), rs[1..], w);
      assert rs == [rs[0]] + rs[1..];
      assert forall r :: r in rs <==> r == rs[0] || r in rs[1..];
    }
  }

  /** The ruleset loop touches nothing but rulesets. */
  lemma OthersKept(o: Objects, stored: Objects, next: real, rs: seq<Ruleset>, w: Writer)
    requires forall k :: k in o && k.kind == ApiRuleset ==> o[k].owner == None
    ensures PutRulesets(o, stored, next, rs, w).Ok?
    ensures forall k: Key :: k.kind != ApiRuleset ==> Lookup(PutRulesets(o, stored, next, rs, w).value, k) == Lookup(o, k)
  {
    PutRulesetsFrame(o, stored, next, rs, w);
  }

  lemma {:induction false} PutSecretsAt(m: map<Id, Secret>, ss: seq<SecretEntry>, w: Writer, id: Id)
    requires forall i, j :: 0 <= i < j < |ss| ==> ss[i].id != ss[j].id
    ensures id in PutSecrets(m, ss, w) <==> id in m || (!Keeps(w, SecretItem(id)) && exists s :: s in ss && s.id == id)
    ensures forall s :: s in ss && s.id == id && !Keeps(w, SecretItem(id)) ==> PutSecrets(m, ss, w)[id] == s.secret
    ensures id in m && (Keeps(w, SecretItem(id)) || forall s :: s in ss ==> s.id != id) ==> PutSecrets(m, ss, w)[id] == m[id]
    decreases |ss|
  {
    if ss == [] {
    } else {
      assert ss == [ss[0]] + ss[1..];
      PutSecretsAt(if Keeps(w, SecretItem(ss[0].id)) then m else m[ss[0].id := ss[0].secret], ss[1..], w, id);
      if id == ss[0].id {
        assert forall s :: s in ss[1..] ==> s.id != id;
      }
    }
  }

  /** No record of `rs` would replace one of another workspace or request. */
  ghost predicate RecordsAccepted(h: map<Id, Record>, rs: seq<RecordEntry>, w: Writer) {
    forall r :: r in rs ==> Keeps(w, HistoryItem(r.id)) || !RecordRefused(h, r.id, r.record)
  }

  lemma {:induction false} AddRecordsAccepted(h: map<Id, Record>, rs: seq<RecordEntry>, w: Writer, now: int)
    requires forall i, j :: 0 <= i < j < |rs| ==> rs[i].id != rs[j].id
    ensures AddRecords(h, rs, w, now).Ok? <==> RecordsAccepted(h, rs, w)
    decreases |rs|
  {
    if rs == [] {
    } else {
      assert rs == [rs[0]] + rs[1..];
      assert forall r :: r in rs[1..] ==> r.id != rs[0].id;
      assert forall j :: 0 <= j < |rs[1..]| ==> rs[1..][j] == rs[j + 1];
      if Keeps(w, HistoryItem(rs[0].id)) {
        AddRecordsAccepted(h, rs[1..], w, now);
      } else if !RecordRefused(h, rs[0].id, rs[0].record) {
        AddRecordsAccepted(h[rs[0].id := StoredRecord(Clamped(rs[0].record, now))], rs[1..], w, now);
      }
    }
  }

  lemma {:induction false} AddRecordsAt(h: map<Id, Record>, rs: seq<RecordEntry>, w: Writer, now: int, id: Id)
    requires forall i, j :: 0 <= i < j < |rs| ==> rs[i].id != rs[j].id
    requires AddRecords(h, rs, w, now).Ok?
    ensures var v := AddRecords(h, rs, w, now).value;
      && (id in v <==> id in h || (!Keeps(w, HistoryItem(id)) && exists r :: r in rs && r.id == id))
      && (forall r :: r in rs && r.id == id && !Keeps(w, HistoryItem(id)) ==> v[id] == StoredRecord(Clamped(r.record, now)))
      && (id in h && (Keeps(w, HistoryItem(id)) || forall r :: r in rs ==> r.id != id) ==> v[id] == h[id])
    decreases |rs|
  {
    if rs == [] {
    } else {
      assert rs == [rs[0]] + rs[1..];
      var h' := if Keeps(w, HistoryItem(rs[0].id)) then h else h[rs[0].id := StoredRecord(Clamped(rs[0].record, now))];
      AddRecordsAt(h', rs[1..], w, now, id);
      if id == rs[0].id {
        assert forall r :: r in rs[1..] ==> r.id != id;
      }
    }
  }

  ghost predicate ReportsAccepted(m: map<Id, Report>, rs: seq<ReportEntry>, w: Writer) {
    forall r :: r in rs ==> Keeps(w, ReportItem(r.id)) || !ReportRefused(m, r.id, r.report)
  }

  lemma {:induction false} PutReportsAccepted(m: map<Id, Report>, rs: seq<ReportEntry>, w: Writer)
    requires forall i, j :: 0 <= i < j < |rs| ==> rs[i].id != rs[j].id
    ensures PutReports(m, rs, w).Ok? <==> ReportsAccepted(m, rs, w)
    decreases |rs|
  {
    if rs == [] {
    } else {
      assert rs == [rs[0]] + rs[1..];
      assert forall r :: r in rs[1..] ==> r.id != rs[0].id;
      if Keeps(w, ReportItem(rs[0].id)) {
        PutReportsAccepted(m, rs[1..], w);
      } else if !ReportRefused(m, rs[0].id, rs[0].report) {
        PutReportsAccepted(m[rs[0].id := rs[0].report], rs[1..], w);
      }
    }
  }

  lemma {:induction false} PutReportsAt(m: map<Id, Report>, rs: seq<ReportEntry>, w: Writer, id: Id)
    requires forall i, j :: 0 <= i < j < |rs| ==> rs[i].id != rs[j].id
    requires PutReports(m, rs, w).Ok?
    ensures var v := PutReports(m, rs, w).value;
      && (id in v <==> id in m || (!Keeps(w, ReportItem(id)) && exists r :: r in rs && r.id == id))
      && (forall r :: r in rs && r.id == id && !Keeps(w, ReportItem(id)) ==> v[id] == r.report)
      && (id in m && (Keeps(w, ReportItem(id)) || forall r :: r in rs ==> r.id != id) ==> v[id] == m[id])
    decreases |rs|
  {
    if rs == [] {
    } else {
      assert rs == [rs[0]] + rs[1..];
      var m' := if Keeps(w, ReportItem(rs[0].id)) then m else m[rs[0].id := rs[0].report];
      PutReportsAt(m', rs[1..], w, id);
      if id == rs[0].id {
        assert forall r :: r in rs[1..] ==> r.id != id;
      }
    }
  }
}
