/**
 * The search for a cycle among folder parents that visits each folder once:
 * every walk stops where an earlier one went.
 */
module FolderCycles {
  import opened Prelude
  import opened Store
  import opened BackupContents

  function ParentOf(parents: map<Id, Option<Id>>, id: Id): Option<Id> {
    if id in parents then parents[id] else None
  }

  lemma {:induction false} MoreSteps(parents: map<Id, Option<Id>>, id: Id, few: nat, many: nat)
    requires RootWithin(parents, id, few) && few <= many
    ensures RootWithin(parents, id, many)
    decreases few
  {
    if id in parents && parents[id].Some? {
      MoreSteps(parents, parents[id].value, few - 1, many - 1);
    }
  }

  /** A folder reaches a root exactly when its parent does. */
  lemma RootedByParent(parents: map<Id, Option<Id>>, id: Id)
    ensures Rooted(parents, id) <==> ParentOf(parents, id).None? || Rooted(parents, ParentOf(parents, id).value)
  {
    var p := ParentOf(parents, id);
    if p.None? {
      assert RootWithin(parents, id, 0);
    } else {
      if Rooted(parents, id) {
        var n: nat :| RootWithin(parents, id, n);
        assert RootWithin(parents, p.value, n - 1);
      }
      if Rooted(parents, p.value) {
        var n: nat :| RootWithin(parents, p.value, n);
        assert RootWithin(parents, id, n + 1);
      }
    }
  }

  /** A set of folders each with its parent in the set: none of them reaches a root. */
  ghost predicate Closed(parents: map<Id, Option<Id>>, s: set<Id>) {
    forall id :: id in s ==> ParentOf(parents, id).Some? && ParentOf(parents, id).value in s
  }

  lemma {:induction false} ClosedNeverRooted(parents: map<Id, Option<Id>>, s: set<Id>, id: Id, steps: nat)
    requires Closed(parents, s) && id in s
    ensures !RootWithin(parents, id, steps)
    decreases steps
  {
    if steps > 0 {
      ClosedNeverRooted(parents, s, ParentOf(parents, id).value, steps - 1);
    }
  }

  function After(path: seq<Id>, next: Option<Id>, i: nat): Option<Id> {
    if i + 1 < |path| then Some(path[i + 1]) else next
  }

  /** Each folder on the walk has the next one as its parent. */
  ghost predicate Walk(parents: map<Id, Option<Id>>, path: seq<Id>, next: Option<Id>) {
    forall i :: 0 <= i < |path| ==> ParentOf(parents, path[i]) == After(path, next, i)
  }

  /** A walk that comes back to itself never reaches a root. */
  lemma WalkInCircle(parents: map<Id, Option<Id>>, path: seq<Id>, at: nat)
    requires at < |path| && Walk(parents, path, Some(path[at]))
    ensures !Rooted(parents, path[at])
  {
    var s := set i | at <= i < |path| :: path[i];
    forall id | id in s ensures ParentOf(parents, id).Some? && ParentOf(parents, id).value in s {
      var i :| at <= i < |path| && path[i] == id;
      assert ParentOf(parents, path[i]) == After(path, Some(path[at]), i);
      assert path[at] in s && (i + 1 < |path| ==> path[i + 1] in s);
    }
    forall steps: nat ensures !RootWithin(parents, path[at], steps) {
      ClosedNeverRooted(parents, s, path[at], steps);
    }
  }

  /** A walk that ends at a root, or at a folder that reaches one, is all rooted. */
  lemma {:induction false} WalkToRoot(parents: map<Id, Option<Id>>, path: seq<Id>, next: Option<Id>)
    requires Walk(parents, path, next) && (next.Some? ==> Rooted(parents, next.value))
    ensures forall id :: id in path ==> Rooted(parents, id)
    decreases |path|
  {
    if path == [] {
    } else {
      var n := |path| - 1;
      assert ParentOf(parents, path[n]) == After(path, next, n);
      RootedByParent(parents, path[n]);
      WalkToRoot(parents, path[..n], Some(path[n]));
      assert path == path[..n] + [path[n]];
    }
  }

  lemma WalkFurther(parents: map<Id, Option<Id>>, path: seq<Id>, c: Id)
    requires Walk(parents, path, Some(c))
    ensures Walk(parents, path + [c], ParentOf(parents, c))
    ensures Elements(path + [c]) == Elements(path) + {c}
  {
    forall i | 0 <= i < |path + [c]|
      ensures ParentOf(parents, (path + [c])[i]) == After(path + [c], ParentOf(parents, c), i)
    {
      if i < |path| {
        assert ParentOf(parents, path[i]) == After(path, Some(c), i);
      }
    }
  }

  lemma FewerLeft(parents: set<Id>, onPath: set<Id>, c: Id, next: Option<Id>)
    requires c !in onPath && (c !in parents ==> next.None?)
    ensures |parents - (onPath + {c})| + (if next.Some? then 1 else 0) < |parents - onPath| + 1
  {
    assert c in parents ==> parents - onPath == (parents - (onPath + {c})) + {c};
    assert c !in parents ==> parents - onPath == parents - (onPath + {c});
  }

  /** The walk up from one folder: the folders on it, unless it meets itself. */
  method WalkUp(parents: map<Id, Option<Id>>, known: set<Id>, start: Id) returns (circle: bool, path: seq<Id>)
    requires forall id :: id in known ==> Rooted(parents, id)
    requires start in parents
    ensures circle ==> !NoCycle(parents)
    ensures !circle ==> (forall id :: id in path ==> Rooted(parents, id)) && (start in path || start in known)
  {
    path := [];
    var onPath: set<Id> := {};
    var cur := Some(start);
    while cur.Some?
      invariant onPath == Elements(path)
      invariant Walk(parents, path, cur)
      invariant path == [] ==> cur == Some(start)
      invariant path != [] ==> path[0] == start
      decreases |parents.Keys - onPath| + if cur.Some? then 1 else 0
    {
      var c := cur.value;
      if c in known {
        break;
      }
      if c in onPath {
        var at :| 0 <= at < |path| && path[at] == c;
        WalkInCircle(parents, path, at);
        assert ParentOf(parents, path[at]) == After(path, cur, at);
        return true, path;
      }
      WalkFurther(parents, path, c);
      FewerLeft(parents.Keys, onPath, c, ParentOf(parents, c));
      path := path + [c];
      onPath := onPath + {c};
      cur := ParentOf(parents, c);
    }
    WalkToRoot(parents, path, cur);
    circle := false;
  }

  /** Whether folder parents form no cycle, walking each folder once. */
  method FindCycle(parents: map<Id, Option<Id>>) returns (ok: bool)
    ensures ok <==> NoCycle(parents)
  {
    var known: set<Id> := {};
    var rest := parents.Keys;
    while rest != {}
      invariant rest <= parents.Keys
      invariant forall id :: id in known ==> Rooted(parents, id)
      invariant parents.Keys - rest <= known
      decreases rest
    {
      var id :| id in rest;
      var circle, path := WalkUp(parents, known, id);
      if circle {
        return false;
      }
      known := known + Elements(path);
      rest := rest - {id};
    }
    ok := true;
  }

  /** Every folder reaches a root exactly when no folders form a closed circle. */
  lemma NoCycleMeans(parents: map<Id, Option<Id>>)
    ensures NoCycle(parents) <==> forall s: set<Id> :: s != {} && s <= parents.Keys ==> !Closed(parents, s)
  {
    if NoCycle(parents) {
      forall s: set<Id> | s != {} && s <= parents.Keys ensures !Closed(parents, s) {
        var id :| id in s;
        var n: nat :| RootWithin(parents, id, n);
        if Closed(parents, s) {
          ClosedNeverRooted(parents, s, id, n);
        }
      }
    } else {
      var lost := set id | id in parents && !Rooted(parents, id);
      forall id | id in lost ensures ParentOf(parents, id).Some? && ParentOf(parents, id).value in lost {
        RootedByParent(parents, id);
        RootedByParent(parents, ParentOf(parents, id).value);
      }
      var id :| id in parents && !Rooted(parents, id);
      assert id in lost && lost <= parents.Keys && Closed(parents, lost);
    }
  }
}
