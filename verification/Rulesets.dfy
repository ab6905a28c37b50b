/**
 * Profile-wide API rulesets: their stored order, the order a restore predicts
 * for them before it writes, and the limits they are checked against.
 */
module Rulesets {
  import opened Prelude
  import opened Store

  const MAX_STORED_RULESETS: nat := 32
  const MAX_STORED_RULESETS_BYTES: nat := 8 * 1024 * 1024

  /** A ruleset and the sort key it is stored under. */
  datatype Placed = Placed(sort: real, ruleset: Ruleset)

  predicate Before(a: Placed, b: Placed) {
    a.sort < b.sort || (a.sort == b.sort && a.ruleset.id < b.ruleset.id)
  }

  predicate InOrder(s: seq<Placed>) {
    forall i, j :: 0 <= i < j < |s| ==> Before(s[i], s[j])
  }

  ghost predicate DistinctIds(s: set<Placed>) {
    forall a, b :: a in s && b in s && a.ruleset.id == b.ruleset.id ==> a == b
  }

  function Insert(p: Placed, s: seq<Placed>): seq<Placed> {
    if s == [] then [p]
    else if Before(p, s[0]) then [p] + s
    else [s[0]] + Insert(p, s[1..])
  }

  lemma {:induction false} InsertKeepsOrder(p: Placed, s: seq<Placed>)
    requires InOrder(s) && forall q :: q in s ==> q.ruleset.id != p.ruleset.id
    ensures InOrder(Insert(p, s)) && Elements(Insert(p, s)) == Elements(s) + {p}
  {
    if s == [] {
    } else if Before(p, s[0]) {
      forall i | 0 <= i < |s| ensures Before(p, s[i]) {}
      assert Elements([p] + s) == Elements(s) + {p};
    } else {
      var rest := Insert(p, s[1..]);
      InsertKeepsOrder(p, s[1..]);
      assert s[0] in s;
      forall i | 0 <= i < |rest| ensures Before(s[0], rest[i]) {
        assert rest[i] in Elements(rest);
        if rest[i] != p {
          var j :| 0 <= j < |s[1..]| && s[1..][j] == rest[i];
          assert s[1..][j] == s[j + 1];
        }
      }
      assert s == [s[0]] + s[1..];
      assert Elements([s[0]] + rest) == Elements(rest) + {s[0]};
      assert Elements(s) == Elements(s[1..]) + {s[0]};
    }
  }

  /** The one sequence that lists `s` in order. */
  ghost function Sorted(s: set<Placed>): (r: seq<Placed>)
    requires DistinctIds(s)
    ensures InOrder(r) && Elements(r) == s
  {
    if !exists x :: x in s then []
    else
      var x :| x in s;
      InsertKeepsOrder(x, Sorted(s - {x}));
      Insert(x, Sorted(s - {x}))
  }

  /** Two ordered sequences with the same elements are the same. */
  lemma {:induction false} OrderIsUnique(a: seq<Placed>, b: seq<Placed>)
    requires InOrder(a) && InOrder(b) && Elements(a) == Elements(b)
    ensures a == b
  {
    assert b != [] ==> b[0] in Elements(b);
    if a == [] {
    } else {
      assert a[0] in Elements(a);
      assert a[0] in b && b[0] in a;
      assert a[0] == b[0];
      forall x ensures x in Elements(a[1..]) <==> x in Elements(b[1..]) {
        TailElements(a, x);
        TailElements(b, x);
      }
      OrderIsUnique(a[1..], b[1..]);
      assert a == [a[0]] + a[1..] && b == [b[0]] + b[1..];
    }
  }

  lemma TailElements(a: seq<Placed>, x: Placed)
    requires InOrder(a) && a != []
    ensures x in Elements(a[1..]) <==> x in Elements(a) && x != a[0]
  {
    assert a == [a[0]] + a[1..];
    if x in a[1..] {
      var i :| 0 <= i < |a[1..]| && a[1..][i] == x;
      assert Before(a[0], a[i + 1]);
    }
  }

  function RulesetOf(k: Key, row: Row): Ruleset {
    if row.value.data.RulesetData? then Ruleset(k.id, row.value.data.names, row.value.data.size, row.value.data.content)
    else Ruleset(k.id, Names(0, 0), 0, 0)
  }

  /** Every stored ruleset with its sort key. */
  function PlacedIn(o: Objects): (s: set<Placed>) {
    set k | k in o && k.kind == ApiRuleset :: Placed(o[k].sort, RulesetOf(k, o[k]))
  }

  lemma PlacedDistinct(o: Objects)
    ensures DistinctIds(PlacedIn(o))
  {
  }

  function Unplaced(s: seq<Placed>): (r: seq<Ruleset>)
    ensures |r| == |s| && forall i :: 0 <= i < |s| ==> r[i] == s[i].ruleset
  {
    seq(|s|, i requires 0 <= i < |s| => s[i].ruleset)
  }

  /** The stored rulesets in stored order (equal sort keys by id). */
  ghost function Listing(o: Objects): seq<Ruleset> {
    PlacedDistinct(o);
    Unplaced(Sorted(PlacedIn(o)))
  }

  /** Sort a set of placed rulesets by inserting them one by one. */
  method SortPlaced(s: set<Placed>) returns (r: seq<Placed>)
    requires DistinctIds(s)
    ensures r == Sorted(s) && Elements(r) == s
    ensures forall i, j :: 0 <= i < j < |r| ==>
      r[i].sort < r[j].sort || (r[i].sort == r[j].sort && r[i].ruleset.id < r[j].ruleset.id)
  {
    r := [];
    var rest := s;
    while rest != {}
      invariant rest <= s
      invariant InOrder(r) && Elements(r) == s - rest
      decreases rest
    {
      var x :| x in rest;
      assert forall q :: q in r ==> q in Elements(r);
      InsertKeepsOrder(x, r);
      r := Insert(x, r);
      assert s - (rest - {x}) == (s - rest) + {x};
      rest := rest - {x};
    }
    OrderIsUnique(r, Sorted(s));
  }

  method List(t: Tables) returns (r: seq<Ruleset>)
    ensures r == Listing(t.objects)
  {
    PlacedDistinct(t.objects);
    var s := SortPlaced(PlacedIn(t.objects));
    r := Unplaced(s);
  }

  ghost predicate DistinctRulesets(rs: seq<Ruleset>) {
    forall i, j :: 0 <= i < j < |rs| ==> rs[i].id != rs[j].id
  }

  function Ids(rs: seq<Ruleset>): set<Id> {
    set r | r in rs :: r.id
  }

  /** The first ruleset of `rs` with id `id`. */
  function Find(rs: seq<Ruleset>, id: Id): Option<Ruleset> {
    if rs == [] then None else if rs[0].id == id then Some(rs[0]) else Find(rs[1..], id)
  }

  /** The local rulesets that stay, each replacement in its local position. */
  function Surviving(local: seq<Ruleset>, incoming: seq<Ruleset>, replacements: set<Id>, retain: bool): seq<Ruleset> {
    if local == [] then []
    else
      var replacement := if local[0].id in replacements then Find(incoming, local[0].id) else None;
      (if replacement.Some? then [replacement.value] else if retain then [local[0]] else [])
      + Surviving(local[1..], incoming, replacements, retain)
  }

  /** The incoming rulesets that are neither placed yet nor skipped. */
  function Arriving(incoming: seq<Ruleset>, placed: set<Id>, skipped: set<Id>): seq<Ruleset> {
    if incoming == [] then []
    else (if incoming[0].id !in placed && incoming[0].id !in skipped then [incoming[0]] else [])
         + Arriving(incoming[1..], placed, skipped)
  }

  /** The rulesets a write will leave, in stored order. */
  function Combine(local: seq<Ruleset>, incoming: seq<Ruleset>, replacements: set<Id>, retain: bool, skipped: set<Id>): seq<Ruleset> {
    Surviving(local, incoming, replacements, retain)
    + Arriving(incoming, Ids(local) * replacements * Ids(incoming), skipped)
  }

  function Size(rs: seq<Ruleset>): nat {
    if rs == [] then 0 else rs[0].size + Size(rs[1..])
  }

  /** A set over a limit is accepted only when it is no larger than the one it follows. */
  predicate WithinLimits(next: seq<Ruleset>, current: seq<Ruleset>) {
    && (|next| > MAX_STORED_RULESETS ==> |current| > MAX_STORED_RULESETS && |next| <= |current|)
    && (Size(next) > MAX_STORED_RULESETS_BYTES ==> Size(current) > MAX_STORED_RULESETS_BYTES && Size(next) <= Size(current))
  }

  /** Sizes add up. */
  lemma {:induction false} SizeIsSum(a: seq<Ruleset>, b: seq<Ruleset>)
    ensures Size(a + b) == Size(a) + Size(b)
    ensures forall r :: Size([r]) == r.size
  {
    if a == [] {
      assert a + b == b;
    } else {
      SizeIsSum(a[1..], b);
      assert (a + b)[1..] == a[1..] + b;
    }
  }

  /** At most 32 rulesets and 8 MiB, or no more than there were. */
  lemma WithinLimitsMeans(next: seq<Ruleset>, current: seq<Ruleset>)
    ensures WithinLimits(next, current) <==>
      (|next| <= 32 || |next| <= |current|) && (Size(next) <= 8388608 || Size(next) <= Size(current))
  {
  }
}
