/**
 * The items decoding lists are exactly what the restore writes, each once,
 * so an accepted backup is one the restore theorems speak about; and what it
 * sends or runs has every protection on.
 */
module DecodeItems {
  import opened Prelude
  import opened Guards
  import opened Store
  import opened Rulesets
  import opened BackupWrite
  import opened BackupRestore
  import opened BackupEffects
  import opened BackupContents
  import opened BackupDecode
  import opened DecodeSound

  lemma {:induction false} RulesetItemsMembers(rs: seq<Ruleset>, i: Item)
    ensures i in RulesetItems(rs) <==> exists r :: r in rs && i == ObjectItem(RulesetKey(r))
  {
    if rs == [] {
    } else {
      assert rs == [rs[0]] + rs[1..];
      RulesetItemsMembers(rs[1..], i);
      assert forall r :: r in rs <==> r == rs[0] || r in rs[1..];
    }
  }

  lemma {:induction false} RulesetItemsDistinct(rs: seq<Ruleset>)
    requires DistinctRulesets(rs)
    ensures NoDup(RulesetItems(rs))
  {
    if rs == [] {
    } else {
      assert rs == [rs[0]] + rs[1..];
      RulesetItemsDistinct(rs[1..]);
      forall x | x in RulesetItems(rs[1..]) ensures x != ObjectItem(RulesetKey(rs[0])) {
        RulesetItemsMembers(rs[1..], x);
        var r :| r in rs[1..] && x == ObjectItem(RulesetKey(r));
        var j :| 0 <= j < |rs[1..]| && rs[1..][j] == r;
        assert rs[j + 1] == r;
      }
      NoDupConcat([ObjectItem(RulesetKey(rs[0]))], RulesetItems(rs[1..]));
    }
  }

  /** An object row of the backup, or one of its rulesets. */
  ghost predicate Listable(objects: seq<ObjectRow>, i: Item) {
    && i.ObjectItem?
    && if i.key.kind == ApiRuleset then exists r :: r in CarriedRulesets(objects) && i == ObjectItem(RulesetKey(r))
       else exists o :: o in objects && Key(o.kind, o.id) == i.key
  }

  ghost predicate ListableIn(o: ObjectRow, i: Item) {
    && i.ObjectItem?
    && if i.key.kind == ApiRuleset then exists r :: r in RulesetsIn(o) && i == ObjectItem(RulesetKey(r))
       else Key(o.kind, o.id) == i.key
  }

  lemma ItemsInMembers(o: ObjectRow, i: Item)
    ensures i in ItemsIn(o) <==> ListableIn(o, i)
  {
    RulesetItemsMembers(SettingsIn(o).legacy, i);
    if o.kind == ApiRuleset {
      assert RulesetsIn(o)[0] in RulesetsIn(o);
      assert RulesetsIn(o)[0].id == o.id;
    }
  }

  lemma {:induction false} ObjectItemsMembers(objects: seq<ObjectRow>, i: Item)
    ensures i in ObjectItems(objects) <==> Listable(objects, i)
    decreases |objects|
  {
    if objects == [] {
    } else {
      var n := |objects| - 1;
      ObjectItemsMembers(objects[..n], i);
      ItemsInMembers(objects[n], i);
      assert objects == objects[..n] + [objects[n]];
      assert forall o :: o in objects <==> o in objects[..n] || o == objects[n];
    }
  }

  lemma ItemsInDistinct(o: ObjectRow)
    requires DistinctRulesets(RulesetsIn(o))
    ensures NoDup(ItemsIn(o))
  {
    if o.kind == AppSettings {
      RulesetItemsDistinct(SettingsIn(o).legacy);
      forall x | x in RulesetItems(SettingsIn(o).legacy) ensures x != ObjectItem(Key(o.kind, o.id)) {
        RulesetItemsMembers(SettingsIn(o).legacy, x);
      }
      NoDupConcat(RulesetItems(SettingsIn(o).legacy), [ObjectItem(Key(o.kind, o.id))]);
    }
  }

  lemma {:induction false} ObjectItemsDistinct(objects: seq<ObjectRow>)
    requires Parsed(objects) && DistinctRulesets(CarriedRulesets(objects))
    ensures NoDup(ObjectItems(objects))
    decreases |objects|
  {
    if objects == [] {
    } else {
      var n := |objects| - 1;
      var earlier, o := objects[..n], objects[n];
      DistinctParts(CarriedRulesets(earlier), RulesetsIn(o));
      assert Parsed(earlier);
      ObjectItemsDistinct(earlier);
      ItemsInDistinct(o);
      forall x | x in ObjectItems(earlier) ensures x !in ItemsIn(o) {
        ObjectItemsMembers(earlier, x);
        ItemsInMembers(o, x);
        if x.key.kind != ApiRuleset {
          var p :| p in earlier && Key(p.kind, p.id) == x.key;
          var j :| 0 <= j < n && objects[j] == p;
          assert Key(objects[j].kind, objects[j].id) != Key(o.kind, o.id);
        }
      }
      NoDupConcat(ObjectItems(earlier), ItemsIn(o));
    }
  }

  predicate LeftOut(i: Item, kept: set<Id>) {
    i.ObjectItem? && i.key.kind == Revision && i.key.id !in kept
  }

  lemma {:induction false} RetainedMembers(items: seq<Item>, kept: set<Id>, i: Item)
    ensures i in Retained(items, kept) <==> i in items && !LeftOut(i, kept)
    decreases |items|
  {
    if items == [] {
    } else {
      var n := |items| - 1;
      assert items == items[..n] + [items[n]];
      RetainedMembers(items[..n], kept, i);
    }
  }

  lemma {:induction false} RetainedDistinct(items: seq<Item>, kept: set<Id>)
    requires NoDup(items)
    ensures NoDup(Retained(items, kept))
    decreases |items|
  {
    if items == [] {
    } else {
      var n := |items| - 1;
      RetainedDistinct(items[..n], kept);
      forall x | x in Retained(items[..n], kept) ensures x != items[n] {
        RetainedMembers(items[..n], kept, x);
        var j :| 0 <= j < n && items[j] == x;
      }
      NoDupConcat(Retained(items[..n], kept), [items[n]]);
    }
  }

  lemma {:induction false} SettingsMembers(objects: seq<ObjectRow>)
    ensures CarriedSettings(objects).Some? <==> exists o :: o in objects && o.kind == AppSettings
    decreases |objects|
  {
    if objects == [] {
    } else {
      var n := |objects| - 1;
      SettingsMembers(objects[..n]);
      assert objects == objects[..n] + [objects[n]];
      assert forall o :: o in objects <==> o in objects[..n] || o == objects[n];
    }
  }

  lemma ListedEntry(objects: seq<ObjectRow>, k: Key) returns (e: Entry)
    requires Parsed(objects) && k.kind != ApiRuleset && k.kind != AppSettings
    requires Listable(objects, ObjectItem(k)) && !LeftOut(ObjectItem(k), IdsOf(EntriesOf(objects, Revision)))
    ensures e in Grouped(objects, GRAPH_KINDS) + Grouped(objects, TRAILING_KINDS) && e.key == k
  {
    var o :| o in objects && Key(o.kind, o.id) == k;
    assert RowParsed(o);
    if k.kind == Revision {
      e :| e in EntriesOf(objects, Revision) && e.key.id == k.id;
      EntriesMembers(objects, Revision, e);
    } else {
      e := ReadEntry(objects, o);
      assert From(objects, e, o);
      assert GraphKind(k.kind) || TrailingKind(k.kind);
    }
    GraphMembers(objects, e);
  }

  lemma EntryListed(objects: seq<ObjectRow>, e: Entry)
    requires exists o :: From(objects, e, o)
    requires e.key.kind == Revision ==> e in EntriesOf(objects, Revision)
    requires e.key.kind != ApiRuleset
    ensures Listable(objects, ObjectItem(e.key)) && !LeftOut(ObjectItem(e.key), IdsOf(EntriesOf(objects, Revision)))
  {
    var o :| From(objects, e, o);
  }

  /** A row that is no ruleset and no settings row is listed when it is decoded into the graph or its trailing rows. */
  lemma RowItem(objects: seq<ObjectRow>, k: Key)
    requires Parsed(objects) && k.kind != ApiRuleset && k.kind != AppSettings
    ensures Listable(objects, ObjectItem(k)) && !LeftOut(ObjectItem(k), IdsOf(EntriesOf(objects, Revision)))
      <==> exists e :: e in Grouped(objects, GRAPH_KINDS) + Grouped(objects, TRAILING_KINDS) && e.key == k
  {
    if Listable(objects, ObjectItem(k)) && !LeftOut(ObjectItem(k), IdsOf(EntriesOf(objects, Revision))) {
      var e := ListedEntry(objects, k);
    }
    forall e | e in Grouped(objects, GRAPH_KINDS) + Grouped(objects, TRAILING_KINDS) && e.key == k
      ensures Listable(objects, ObjectItem(k)) && !LeftOut(ObjectItem(k), IdsOf(EntriesOf(objects, Revision)))
    {
      GraphMembers(objects, e);
      EntriesMembers(objects, k.kind, e);
      EntryListed(objects, e);
    }
  }

  /** The rulesets of the backup in its order: each once. */
  lemma SortedRulesets(objects: seq<ObjectRow>)
    requires DistinctRulesets(CarriedRulesets(objects)) && DistinctIds(CarriedOrder(objects))
    ensures var rs := Unplaced(Sorted(CarriedOrder(objects)));
      DistinctRulesets(rs) && forall r :: r in rs <==> r in CarriedRulesets(objects)
  {
    var ps := Sorted(CarriedOrder(objects));
    var rs := Unplaced(ps);
    OrderMembers(objects);
    forall i, j | 0 <= i < j < |rs| ensures rs[i].id != rs[j].id {
      assert ps[i] in Elements(ps) && ps[j] in Elements(ps);
      assert Before(ps[i], ps[j]);
    }
    forall r ensures r in rs <==> r in CarriedRulesets(objects) {
      if r in rs {
        var i :| 0 <= i < |rs| && rs[i] == r;
        assert ps[i] in Elements(ps);
      }
      if r in CarriedRulesets(objects) {
        var p :| p in CarriedOrder(objects) && p.ruleset == r;
        assert p in Elements(ps);
        var i :| 0 <= i < |ps| && ps[i] == p;
        assert rs[i] == r;
      }
    }
  }

  /** What a backup writes to the object table, by item. */
  ghost predicate WritesObject(objects: seq<ObjectRow>, i: Item) {
    && i.ObjectItem?
    && if i.key.kind == ApiRuleset then exists r :: r in CarriedRulesets(objects) && i == ObjectItem(RulesetKey(r))
       else if i.key.kind == AppSettings then i == SETTINGS_ITEM && CarriedSettings(objects).Some?
       else exists e :: e in Grouped(objects, GRAPH_KINDS) + Grouped(objects, TRAILING_KINDS) && e.key == i.key
  }

  lemma ObjectItemWritten(objects: seq<ObjectRow>, i: Item)
    requires Parsed(objects)
    ensures i in Retained(ObjectItems(objects), IdsOf(EntriesOf(objects, Revision))) <==> WritesObject(objects, i)
  {
    RetainedMembers(ObjectItems(objects), IdsOf(EntriesOf(objects, Revision)), i);
    ObjectItemsMembers(objects, i);
    if i.ObjectItem? {
      if i.key.kind == AppSettings {
        SettingsMembers(objects);
        assert forall o :: o in objects && o.kind == AppSettings ==> RowParsed(o) && o.id == SETTINGS_ID;
      } else if i.key.kind != ApiRuleset {
        RowItem(objects, i.key);
      }
    }
  }

  lemma WritesMembers(d: Decoded, i: Item)
    ensures i.ObjectItem? ==> (i in Writes(d) <==>
      || (exists e :: e in d.graph + d.trailing && e.key == i.key)
      || (d.settings.Some? && i == SETTINGS_ITEM)
      || (exists r :: r in d.rulesets && RulesetKey(r) == i.key))
    ensures i.SecretItem? ==> (i in Writes(d) <==> exists s :: s in d.secrets && s.id == i.id)
    ensures i.HistoryItem? ==> (i in Writes(d) <==> exists h :: h in d.history && h.id == i.id)
    ensures i.ReportItem? ==> (i in Writes(d) <==> exists r :: r in d.reports && r.id == i.id)
  {
  }

  lemma {:induction false} GroupedKinds(objects: seq<ObjectRow>, kinds: seq<Kind>)
    requires forall k :: k in kinds ==> k != ApiRuleset && k != AppSettings
    ensures forall e :: e in Grouped(objects, kinds) ==> e.key.kind != ApiRuleset && e.key.kind != AppSettings
  {
    forall e | e in Grouped(objects, kinds) ensures e.key.kind != ApiRuleset && e.key.kind != AppSettings {
      GroupedMembers(objects, kinds, e);
    }
  }

  lemma BothKinds(a: seq<Entry>, b: seq<Entry>)
    requires forall e :: e in a ==> e.key.kind != ApiRuleset && e.key.kind != AppSettings
    requires forall e :: e in b ==> e.key.kind != ApiRuleset && e.key.kind != AppSettings
    ensures forall e :: e in a + b ==> e.key.kind != ApiRuleset && e.key.kind != AppSettings
  {
  }

  lemma DecodedKinds(objects: seq<ObjectRow>)
    ensures forall e :: e in Grouped(objects, GRAPH_KINDS) + Grouped(objects, TRAILING_KINDS) ==>
      e.key.kind != ApiRuleset && e.key.kind != AppSettings
  {
    GraphKindsOrder();
    TrailingKindsOrder();
    GroupedKinds(objects, GRAPH_KINDS);
    GroupedKinds(objects, TRAILING_KINDS);
    BothKinds(Grouped(objects, GRAPH_KINDS), Grouped(objects, TRAILING_KINDS));
  }

  /** The object items of a decoded backup, listed or written, are the same. */
  lemma ObjectItemListed(c: Contents, d: Decoded, i: Item)
    requires Parsed(c.objects) && i.ObjectItem?
    requires d.graph == Grouped(c.objects, GRAPH_KINDS) && d.trailing == Grouped(c.objects, TRAILING_KINDS)
    requires d.settings == CarriedSettings(c.objects)
    requires forall r :: r in d.rulesets <==> r in CarriedRulesets(c.objects)
    ensures i in Retained(ObjectItems(c.objects), IdsOf(EntriesOf(c.objects, Revision))) <==> i in Writes(d)
  {
    ObjectItemWritten(c.objects, i);
    WritesMembers(d, i);
    DecodedKinds(c.objects);
  }

  lemma OtherItemsMembers(d: Decoded, i: Item)
    ensures i in SecretItems(d.secrets) <==> i.SecretItem? && exists s :: s in d.secrets && s.id == i.id
    ensures i in HistoryItems(d.history) <==> i.HistoryItem? && exists h :: h in d.history && h.id == i.id
    ensures i in ReportItems(d.reports) <==> i.ReportItem? && exists r :: r in d.reports && r.id == i.id
  {
    if i.SecretItem? {
      if s :| s in d.secrets && s.id == i.id {
        var j :| 0 <= j < |d.secrets| && d.secrets[j] == s;
        assert SecretItems(d.secrets)[j] == i;
      }
    }
    if i.HistoryItem? {
      if h :| h in d.history && h.id == i.id {
        var j :| 0 <= j < |d.history| && d.history[j] == h;
        assert HistoryItems(d.history)[j] == i;
      }
    }
    if i.ReportItem? {
      if r :| r in d.reports && r.id == i.id {
        var j :| 0 <= j < |d.reports| && d.reports[j] == r;
        assert ReportItems(d.reports)[j] == i;
      }
    }
  }

  ghost predicate ItemsOk(d: Decoded) {
    NoDup(d.items) && Elements(d.items) == Writes(d)
  }

  lemma ItemListed(c: Contents, d: Decoded, i: Item)
    requires Parsed(c.objects)
    requires d.graph == Grouped(c.objects, GRAPH_KINDS) && d.trailing == Grouped(c.objects, TRAILING_KINDS)
    requires d.settings == CarriedSettings(c.objects)
    requires forall r :: r in d.rulesets <==> r in CarriedRulesets(c.objects)
    requires d.items == Retained(ObjectItems(c.objects), IdsOf(EntriesOf(c.objects, Revision)))
                      + SecretItems(d.secrets) + HistoryItems(d.history) + ReportItems(d.reports)
    ensures i in d.items <==> i in Writes(d)
  {
    OtherItemsMembers(d, i);
    WritesMembers(d, i);
    if i.ObjectItem? {
      ObjectItemListed(c, d, i);
    } else {
      RetainedMembers(ObjectItems(c.objects), IdsOf(EntriesOf(c.objects, Revision)), i);
      ObjectItemsMembers(c.objects, i);
    }
  }

  lemma ItemsWritten(c: Contents, d: Decoded)
    requires Parsed(c.objects)
    requires d.graph == Grouped(c.objects, GRAPH_KINDS) && d.trailing == Grouped(c.objects, TRAILING_KINDS)
    requires d.settings == CarriedSettings(c.objects)
    requires forall r :: r in d.rulesets <==> r in CarriedRulesets(c.objects)
    requires d.items == Retained(ObjectItems(c.objects), IdsOf(EntriesOf(c.objects, Revision)))
                      + SecretItems(d.secrets) + HistoryItems(d.history) + ReportItems(d.reports)
    ensures Elements(d.items) == Writes(d)
  {
    forall i ensures i in Elements(d.items) <==> i in Writes(d) {
      ItemListed(c, d, i);
    }
  }

  lemma ItemsAreOk(c: Contents, d: Decoded)
    requires Parsed(c.objects) && DistinctRulesets(CarriedRulesets(c.objects))
    requires d.graph == Grouped(c.objects, GRAPH_KINDS) && d.trailing == Grouped(c.objects, TRAILING_KINDS)
    requires d.settings == CarriedSettings(c.objects)
    requires forall r :: r in d.rulesets <==> r in CarriedRulesets(c.objects)
    requires forall i, j :: 0 <= i < j < |d.secrets| ==> d.secrets[i].id != d.secrets[j].id
    requires forall i, j :: 0 <= i < j < |d.history| ==> d.history[i].id != d.history[j].id
    requires forall i, j :: 0 <= i < j < |d.reports| ==> d.reports[i].id != d.reports[j].id
    requires d.items == Retained(ObjectItems(c.objects), IdsOf(EntriesOf(c.objects, Revision)))
                      + SecretItems(d.secrets) + HistoryItems(d.history) + ReportItems(d.reports)
    ensures ItemsOk(d)
  {
    var rows := Retained(ObjectItems(c.objects), IdsOf(EntriesOf(c.objects, Revision)));
    ItemsWritten(c, d);
    ObjectItemsDistinct(c.objects);
    RetainedDistinct(ObjectItems(c.objects), IdsOf(EntriesOf(c.objects, Revision)));
    PartsDistinct(c, d, rows);
  }

  lemma PartsDistinct(c: Contents, d: Decoded, rows: seq<Item>)
    requires rows == Retained(ObjectItems(c.objects), IdsOf(EntriesOf(c.objects, Revision))) && NoDup(rows)
    requires forall i, j :: 0 <= i < j < |d.secrets| ==> d.secrets[i].id != d.secrets[j].id
    requires forall i, j :: 0 <= i < j < |d.history| ==> d.history[i].id != d.history[j].id
    requires forall i, j :: 0 <= i < j < |d.reports| ==> d.reports[i].id != d.reports[j].id
    ensures NoDup(rows + SecretItems(d.secrets) + HistoryItems(d.history) + ReportItems(d.reports))
  {
    forall i | i in rows ensures i.ObjectItem? {
      RetainedMembers(ObjectItems(c.objects), IdsOf(EntriesOf(c.objects, Revision)), i);
      ObjectItemsMembers(c.objects, i);
    }
    var a := rows + SecretItems(d.secrets);
    NoDupConcat(rows, SecretItems(d.secrets));
    NoDupConcat(a, HistoryItems(d.history));
    NoDupConcat(a + HistoryItems(d.history), ReportItems(d.reports));
  }

  // ------------------------------------------------------ decoding is sound

  /** What a decoded backup says, in terms of its contents. */
  ghost predicate ReadFrom(c: Contents, d: Decoded) {
    && d.graph == Grouped(c.objects, GRAPH_KINDS) && d.trailing == Grouped(c.objects, TRAILING_KINDS)
    && d.settings == CarriedSettings(c.objects) && d.files == CarriedFiles(c.attachments)
    && DistinctIds(CarriedOrder(c.objects)) && d.rulesets == Unplaced(Sorted(CarriedOrder(c.objects)))
    && d.secrets == CarriedSecrets(c.secrets) && d.history == CarriedHistory(c.history, WorkspaceIds(c.objects))
    && d.reports == CarriedReports(c.reports, WorkspaceIds(c.objects))
    && d.items == Retained(ObjectItems(c.objects), IdsOf(EntriesOf(c.objects, Revision)))
                  + SecretItems(d.secrets) + HistoryItems(d.history) + ReportItems(d.reports)
    && d.uncarried == NamedFiles(d.graph) - d.files.Keys
  }

  /** The checks the well-formedness of a decoded backup rests on. */
  ghost predicate Sound(c: Contents) {
    && Parsed(c.objects) && AllOwnersIn(c.objects) && DistinctRulesets(CarriedRulesets(c.objects))
    && SecretsAccepted(c.secrets, WorkspaceIds(c.objects))
    && HistoryRefusal(c.history, WorkspaceIds(c.objects)).None? && ReportsRefusal(c.reports).None?
  }

  lemma AcceptedParts(c: Contents)
    requires Refusal(c) == None
    ensures RowsRefusal(c.objects) == None && GraphRefusal(c.objects) == None
    ensures OwnersIn(c.objects, PROFILE_KINDS, WorkspaceIds(c.objects)) && SecretsAccepted(c.secrets, WorkspaceIds(c.objects))
    ensures HistoryRefusal(c.history, WorkspaceIds(c.objects)) == None && ReportsRefusal(c.reports) == None
  {
  }

  lemma AcceptedIsSound(c: Contents)
    requires RowsRefusal(c.objects) == None && GraphRefusal(c.objects) == None
    requires OwnersIn(c.objects, PROFILE_KINDS, WorkspaceIds(c.objects)) && SecretsAccepted(c.secrets, WorkspaceIds(c.objects))
    requires HistoryRefusal(c.history, WorkspaceIds(c.objects)) == None && ReportsRefusal(c.reports) == None
    ensures Sound(c)
  {
    RowsParsed(c.objects);
    GraphOrder(c.objects);
  }

  lemma InterpretReads(c: Contents)
    requires DistinctIds(CarriedOrder(c.objects))
    ensures ReadFrom(c, Interpret(c))
  {
  }

  /** Accepted contents decode to a backup every restore theorem applies to. */
  lemma DecodedIsWellFormed(c: Contents, d: Decoded)
    requires Refusal(c).None? && ReadFrom(c, d)
    ensures WellFormed(d)
  {
    AcceptedParts(c);
    AcceptedIsSound(c);
    WellFormedFrom(c, d);
  }

  lemma GraphOrder(objects: seq<ObjectRow>)
    requires GraphRefusal(objects).None?
    ensures DistinctRulesets(CarriedRulesets(objects)) && DistinctIds(CarriedOrder(objects))
    ensures RulesetLimits(CarriedRulesets(objects)) && OwnersIn(objects, TREE_KINDS, WorkspaceIds(objects))
  {
    AcceptedOrder(objects);
  }

  lemma WellFormedFrom(c: Contents, d: Decoded)
    requires Sound(c) && ReadFrom(c, d)
    ensures WellFormed(d)
  {
    SortedRulesets(c.objects);
    DecodedGraph(c, d);
    DecodedRecords(c, d);
    ItemsAreOk(c, d);
    SettingsListed(c, d);
  }

  lemma DecodedGraph(c: Contents, d: Decoded)
    requires Parsed(c.objects) && AllOwnersIn(c.objects)
    requires d.graph == Grouped(c.objects, GRAPH_KINDS) && d.trailing == Grouped(c.objects, TRAILING_KINDS)
    ensures Workspaces(d) == WorkspaceIds(c.objects)
    ensures DistinctKeys(d.graph + d.trailing) && GraphOk(d.graph, Workspaces(d))
    ensures forall e :: e in d.trailing ==> TrailingKind(e.key.kind) && RowOk(e, Workspaces(d))
  {
    WorkspacesAre(c.objects, d.graph);
    GraphKeysDistinct(c.objects);
    GraphIsOk(c.objects);
  }

  lemma DecodedRecords(c: Contents, d: Decoded)
    requires var ws := WorkspaceIds(c.objects);
      SecretsAccepted(c.secrets, ws) && HistoryRefusal(c.history, ws).None? && ReportsRefusal(c.reports).None?
    requires var ws := WorkspaceIds(c.objects);
      d.secrets == CarriedSecrets(c.secrets) && d.history == CarriedHistory(c.history, ws) && d.reports == CarriedReports(c.reports, ws)
    requires Workspaces(d) == WorkspaceIds(c.objects)
    ensures RecordsOk(d)
  {
    SecretsOk(c.secrets, Workspaces(d));
    HistoryOk(c.history, Workspaces(d));
    ReportsOk(c.reports, Workspaces(d));
  }

  lemma SettingsListed(c: Contents, d: Decoded)
    requires ItemsOk(d)
    requires d.graph == Grouped(c.objects, GRAPH_KINDS) && d.trailing == Grouped(c.objects, TRAILING_KINDS)
    ensures ListsSettings(d)
  {
    assert SETTINGS_ITEM in d.items <==> SETTINGS_ITEM in Elements(d.items);
    WritesMembers(d, SETTINGS_ITEM);
    DecodedKinds(c.objects);
  }

  /** Among `es` is object `k`, in workspace `ws`. */
  ghost predicate HasIn(es: seq<Entry>, k: Key, ws: Option<Id>) {
    exists e :: e in es && e.key == k && e.row.owner == ws
  }

  /** Among `es` is revision `id`, of request `request`. */
  ghost predicate HasRevision(es: seq<Entry>, id: Id, request: Id) {
    exists e :: e in es && e.key == Key(Revision, id) && e.row.parent == Some(request)
  }

  /**
   * Whatever the file says: no object but a revision arrives with a protection
   * off or trusted, a folder names only environments of its own workspace that
   * come with it, a request only a revision of its own that does, and the app
   * settings bring no rulesets and are as safe as any layer.
   */
  lemma DecodedIsSafe(c: Contents, d: Decoded, e: Entry)
    requires ReadFrom(c, d)
    ensures e in d.graph && e.key.kind != Revision ==> SafeGuard(e.row.value.guard)
    ensures e in d.graph && e.row.value.guard.FolderGuard? && e.key.kind != Revision ==>
      forall id :: id in e.row.value.guard.environments ==> HasIn(d.graph, Key(Environment, id), e.row.owner)
    ensures e in d.graph && e.row.value.guard.RequestGuard? && e.row.value.guard.revision.Some? && e.key.kind != Revision ==>
      HasRevision(d.graph, e.row.value.guard.revision.value, e.key.id)
    ensures d.settings.Some? ==> SafeSettings(d.settings.value.defaults) && d.settings.value.legacy == []
  {
    SettingsAreSafe(c.objects);
    if e in d.graph && e.key.kind != Revision {
      GraphMembers(c.objects, e);
      var o :| From(c.objects, e, o);
      var own, environments := EntryOf(o), EnvironmentsOf(OfKind(c.objects, Environment), EntryOf(o).row.owner);
      var revisions := RevisionsOf(KeptIn(c.objects), own.key.id);
      ImportedIsSafe(own.row.value.guard, environments, revisions);
      forall id | id in environments ensures HasIn(d.graph, Key(Environment, id), e.row.owner) {
        EnvironmentCarried(c.objects, id, e.row.owner);
      }
      forall id | id in revisions ensures HasRevision(d.graph, id, e.key.id) {
        RevisionCarried(c.objects, id, e.key.id);
      }
    }
  }

  lemma EnvironmentCarried(objects: seq<ObjectRow>, id: Id, ws: Option<Id>)
    requires id in EnvironmentsOf(OfKind(objects, Environment), ws)
    ensures HasIn(Grouped(objects, GRAPH_KINDS), Key(Environment, id), ws)
  {
    var e :| e in OfKind(objects, Environment) && e.row.owner == ws && e.key.id == id;
    OfKindMembers(objects, Environment, e);
    var o :| o in objects && o.kind == Environment && EntryOf(o) == e;
    assert From(objects, ReadEntry(objects, o), o);
    GraphMembers(objects, ReadEntry(objects, o));
  }

  lemma RevisionCarried(objects: seq<ObjectRow>, id: Id, request: Id)
    requires id in RevisionsOf(KeptIn(objects), request)
    ensures HasRevision(Grouped(objects, GRAPH_KINDS), id, request)
  {
    var e :| e in KeptIn(objects) && e.row.parent == Some(request) && e.key.id == id;
    EntriesMembers(objects, Revision, e);
    GraphMembers(objects, e);
  }

  /** An object as the file has it is safe, and what it links to comes with it. */
  ghost predicate SafeInFile(objects: seq<ObjectRow>, own: Entry) {
    && SafeGuard(own.row.value.guard)
    && LinkedGuard(own.row.value.guard, EnvironmentsOf(OfKind(objects, Environment), own.row.owner), RevisionsOf(KeptIn(objects), own.key.id))
  }

  /**
   * Nothing else of an object changes: it is read as written exactly when it
   * was safe as written. A revision, which is never sent, is read as written
   * in the workspace of its request.
   */
  lemma SafeIsReadAsWritten(objects: seq<ObjectRow>, e: Entry, o: ObjectRow)
    requires From(objects, e, o)
    ensures o.kind != Revision ==> (e == EntryOf(o) <==> SafeInFile(objects, EntryOf(o)))
    ensures e.row.(owner := None, value := e.row.value.(guard := Unguarded)) ==
      EntryOf(o).row.(owner := None, value := EntryOf(o).row.value.(guard := Unguarded))
    ensures if o.kind == Revision then e.row.value == EntryOf(o).row.value else e.row.owner == EntryOf(o).row.owner
  {
    var own := EntryOf(o);
    ImportedIsSafe(own.row.value.guard, EnvironmentsOf(OfKind(objects, Environment), own.row.owner),
                   RevisionsOf(KeptIn(objects), own.key.id));
  }

  lemma {:induction false} SettingsAreSafe(objects: seq<ObjectRow>)
    ensures CarriedSettings(objects).Some? ==>
      SafeSettings(CarriedSettings(objects).value.defaults) && CarriedSettings(objects).value.legacy == []
    decreases |objects|
  {
    if objects != [] {
      SettingsAreSafe(objects[..|objects| - 1]);
    }
  }
}
