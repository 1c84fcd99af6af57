/** Walks through a graph given by its edges, and the ones that come back to a node. */
module Walks {

  /** Each name of the walk needs the next by value. */
  ghost predicate Walk<T(!new)>(g: map<T, set<T>>, w: seq<T>) {
    && w != []
    && forall i :: 0 <= i < |w| - 1 ==> w[i] in g && w[i + 1] in g[w[i]]
  }

  ghost predicate Repeats<T(!new)>(w: seq<T>) { exists i, j :: 0 <= i < j < |w| && w[i] == w[j] }

  /** A walk that starts at x comes back to a name it has visited: x needs a dependency cycle. */
  ghost predicate NeedsCycle<T(!new)>(g: map<T, set<T>>, x: T) { exists w :: Walk(g, w) && w[0] == x && Repeats(w) }

  /** Every name of the set needs another of the set. */
  ghost predicate Closed<T(!new)>(g: map<T, set<T>>, names: set<T>) {
    forall x {:trigger Onward(g, names, x)} :: x in names ==> Onward(g, names, x)
  }

  ghost predicate Onward<T(!new)>(g: map<T, set<T>>, names: set<T>, x: T) {
    x in g && exists y :: y in g[x] && y in names
  }

  lemma {:induction false} LongWalk<T(!new)>(g: map<T, set<T>>, names: set<T>, x: T, n: nat) returns (w: seq<T>)
    requires Closed(g, names) && x in names
    ensures Walk(g, w) && w[0] == x && |w| == n + 1
    ensures forall i :: 0 <= i < |w| ==> w[i] in names
    decreases n
  {
    if n == 0 {
      w := [x];
    } else {
      assert Onward(g, names, x);
      var y :| y in g[x] && y in names;
      var rest := LongWalk(g, names, y, n - 1);
      w := [x] + rest;
      forall i | 0 <= i < |w| - 1 ensures w[i] in g && w[i + 1] in g[w[i]] {
        if i > 0 { assert w[i] == rest[i - 1] && w[i + 1] == rest[i]; }
      }
    }
  }

  lemma {:induction false} Pigeonhole<T(!new)>(names: set<T>, w: seq<T>)
    requires |w| > |names| && forall i :: 0 <= i < |w| ==> w[i] in names
    ensures Repeats(w)
    decreases |w|
  {
    var x, rest := w[0], w[1..];
    if j :| 0 < j < |w| && w[j] == x {
      assert w[0] == w[j];
    } else {
      Pigeonhole(names - {x}, rest);
      var i, j :| 0 <= i < j < |rest| && rest[i] == rest[j];
      assert w[i + 1] == w[j + 1];
    }
  }

  lemma ClosedNeedsCycle<T(!new)>(g: map<T, set<T>>, names: set<T>, x: T)
    requires Closed(g, names) && x in names
    ensures NeedsCycle(g, x)
  {
    var w := LongWalk(g, names, x, |names|);
    Pigeonhole(names, w);
  }
}

/**
  The order in which the header generator emits structs.

  An item needs others by value; it is emitted once everything it needs has been.
  A round that emits nothing falls back to source order.  The lemmas say when that
  happens (exactly when a cycle is reachable), what the order guarantees before
  it, and for which inputs the rounds ever end.
*/
module StructOrder {
  import RustTypes
  import opened Sets
  import opened Walks

  datatype Item = Item(name: string, fields: seq<string>)

  function Names(items: seq<Item>): set<string> { set i | 0 <= i < |items| :: items[i].name }

  predicate Distinct(items: seq<Item>) {
    forall i, j :: 0 <= i < j < |items| ==> items[i].name != items[j].name
  }

  /** Every name that one of the field types holds by value. */
  function FieldTypes(fields: seq<string>): set<string> {
    if fields == [] then {}
    else FieldTypes(fields[..|fields| - 1]) + RustTypes.ValueDependencies(fields[|fields| - 1])
  }

  /** The other items of the list that this one holds by value. */
  function Needs(items: seq<Item>, item: Item): set<string> {
    set dep | dep in FieldTypes(item.fields) && dep in Names(items) && dep != item.name
  }

  /** The dependency table the source builds: a later item of the same name replaces an earlier one. */
  function Table(items: seq<Item>, all: seq<Item>): map<string, set<string>> {
    if items == [] then map[]
    else Table(items[..|items| - 1], all)[items[|items| - 1].name := Needs(all, items[|items| - 1])]
  }

  type Graph = map<string, set<string>>

  predicate Holding(field: string, x: string) {
    x in RustTypes.ValueDependencies(field)
  }

  /** Some field holds this name by value. */
  predicate HeldBy(fields: seq<string>, x: string) {
    exists i {:trigger Holding(fields[i], x)} :: 0 <= i < |fields| && Holding(fields[i], x)
  }

  lemma HeldSnoc(fields: seq<string>, field: string, x: string)
    ensures HeldBy(fields + [field], x) <==> HeldBy(fields, x) || Holding(field, x)
  {
    var all := fields + [field];
    assert all[|fields|] == field;
    if HeldBy(fields, x) {
      var i :| 0 <= i < |fields| && Holding(fields[i], x);
      assert all[i] == fields[i];
    }
  }

  lemma {:induction false} FieldsHold(fields: seq<string>, x: string)
    ensures x in FieldTypes(fields) <==> HeldBy(fields, x)
    decreases |fields|
  {
    if fields != [] {
      var front, last := fields[..|fields| - 1], fields[|fields| - 1];
      assert fields == front + [last];
      FieldsHold(front, x);
      HeldSnoc(front, last, x);
      assert x in FieldTypes(fields) <==> x in FieldTypes(front) || Holding(last, x);
    }
  }

  /** An item needs exactly the other names of the list that one of its fields holds by value; itself never. */
  lemma NeedsAreExact(items: seq<Item>, item: Item, x: string)
    ensures x in Needs(items, item) <==>
              x != item.name && HeldBy(item.fields, x) && exists j :: 0 <= j < |items| && items[j].name == x
  {
    FieldsHold(item.fields, x);
  }

  lemma {:induction false} TableHolds(items: seq<Item>, all: seq<Item>)
    ensures Table(items, all).Keys == Names(items)
    ensures forall n :: n in Names(items) ==> Table(items, all)[n] <= Names(all) - {n}
    ensures Distinct(items) ==> forall i :: 0 <= i < |items| ==> Table(items, all)[items[i].name] == Needs(all, items[i])
    decreases |items|
  {
    if items != [] {
      var n := |items| - 1;
      var front := items[..n];
      TableHolds(front, all);
      NamesSnoc(front, items[n]);
      assert items == front + [items[n]];
      forall i | 0 <= i < n ensures Distinct(items) ==> Table(items, all)[items[i].name] == Needs(all, items[i]) {
        assert front[i] == items[i];
      }
    }
  }

  lemma NamesSnoc(items: seq<Item>, x: Item)
    ensures Names(items + [x]) == Names(items) + {x.name}
  {
    var all := items + [x];
    forall n | n in Names(items) + {x.name} ensures n in Names(all) {
      if n == x.name {
        assert all[|items|].name == n;
      } else {
        var i :| 0 <= i < |items| && items[i].name == n;
        assert all[i].name == n;
      }
    }
  }

  // One round of the source's outer loop.

  datatype Progress = Progress(ordered: seq<Item>, emitted: set<string>)

  function Emit(st: Progress, item: Item): Progress {
    Progress(st.ordered + [item], st.emitted + {item.name})
  }

  /** The pass over the first k items that emits each item whose needs are met. */
  function Pass(g: Graph, items: seq<Item>, st: Progress, k: nat): Progress
    requires k <= |items| && Names(items) <= g.Keys
    decreases k
  {
    if k == 0 then st
    else
      var was := Pass(g, items, st, k - 1);
      var item := items[k - 1];
      assert item.name in Names(items);
      if item.name !in was.emitted && g[item.name] <= was.emitted then Emit(was, item) else was
  }

  /** The pass over the first k items that emits whatever is left. */
  function Flush(items: seq<Item>, st: Progress, k: nat): Progress
    requires k <= |items|
    decreases k
  {
    if k == 0 then st
    else
      var was := Flush(items, st, k - 1);
      if items[k - 1].name !in was.emitted then Emit(was, items[k - 1]) else was
  }

  function Round(g: Graph, items: seq<Item>, st: Progress): Progress
    requires Names(items) <= g.Keys
  {
    var swept := Pass(g, items, st, |items|);
    if swept != st then swept else Flush(items, st, |items|)
  }

  function Rounds(g: Graph, items: seq<Item>, n: nat): Progress
    requires Names(items) <= g.Keys
  {
    if n == 0 then Progress([], {}) else Round(g, items, Rounds(g, items, n - 1))
  }

  // What every pass keeps.

  predicate Sound(items: seq<Item>, st: Progress) {
    && st.emitted == Names(st.ordered)
    && Distinct(st.ordered)
    && forall i :: 0 <= i < |st.ordered| ==> st.ordered[i] in items
  }

  /** Each of the first cut items comes after everything it needs. */
  predicate Ranked(g: Graph, ordered: seq<Item>, cut: nat) {
    forall i {:trigger ordered[i]} :: 0 <= i < cut <= |ordered| ==>
      ordered[i].name in g && g[ordered[i].name] <= Names(ordered[..i])
  }

  /** Nothing that is left can be emitted. */
  predicate Stuck(g: Graph, items: seq<Item>, emitted: set<string>) {
    forall i :: 0 <= i < |items| && items[i].name !in emitted ==>
      items[i].name in g && !(g[items[i].name] <= emitted)
  }

  /** The items whose names are not emitted, in source order. */
  function Left(items: seq<Item>, emitted: set<string>): seq<Item> {
    if items == [] then []
    else
      var n := |items| - 1;
      Left(items[..n], emitted) + (if items[n].name in emitted then [] else [items[n]])
  }

  lemma EmitSound(items: seq<Item>, st: Progress, k: nat)
    requires k < |items| && Sound(items, st) && items[k].name !in st.emitted
    ensures Sound(items, Emit(st, items[k]))
  {
    NamesSnoc(st.ordered, items[k]);
    forall i | 0 <= i < |st.ordered| ensures st.ordered[i].name in st.emitted {}
  }

  lemma EmitRanked(g: Graph, st: Progress, item: Item, cut: nat)
    requires Ranked(g, st.ordered, cut) && cut <= |st.ordered|
    requires item.name in g && st.emitted == Names(st.ordered)
    ensures Ranked(g, Emit(st, item).ordered, cut)
    ensures cut == |st.ordered| && g[item.name] <= st.emitted ==> Ranked(g, Emit(st, item).ordered, cut + 1)
  {
    var all := Emit(st, item).ordered;
    forall i | 0 <= i <= |st.ordered| ensures all[..i] == st.ordered[..i] {}
  }

  lemma {:induction false} PassKeeps(g: Graph, items: seq<Item>, st: Progress, k: nat)
    requires k <= |items| && Names(items) <= g.Keys && Sound(items, st) && Ranked(g, st.ordered, |st.ordered|)
    ensures var r := Pass(g, items, st, k);
      Sound(items, r) && Ranked(g, r.ordered, |r.ordered|) && |r.ordered| >= |st.ordered| && st.emitted <= r.emitted
      && (|r.ordered| == |st.ordered| ==> r == st)
      && (r == st ==> forall i :: 0 <= i < k && items[i].name !in st.emitted ==> !(g[items[i].name] <= st.emitted))
    decreases k
  {
    if k > 0 {
      PassKeeps(g, items, st, k - 1);
      var was := Pass(g, items, st, k - 1);
      var item := items[k - 1];
      assert item.name in Names(items);
      if item.name !in was.emitted && g[item.name] <= was.emitted {
        EmitSound(items, was, k - 1);
        EmitRanked(g, was, item, |was.ordered|);
      }
    }
  }

  lemma {:induction false} PassOfAll(g: Graph, items: seq<Item>, st: Progress, k: nat)
    requires k <= |items| && Names(items) <= g.Keys && Names(items) <= st.emitted
    ensures Pass(g, items, st, k) == st && Flush(items, st, k) == st
    decreases k
  {
    if k > 0 {
      PassOfAll(g, items, st, k - 1);
      assert items[k - 1].name in Names(items);
    }
  }

  /** What a pass has emitted by item k it has by item n; the rest comes from the items in between. */
  lemma {:induction false} PassGrows(g: Graph, items: seq<Item>, st: Progress, k: nat, n: nat)
    requires k <= n <= |items| && Names(items) <= g.Keys
    ensures Pass(g, items, st, k).emitted <= Pass(g, items, st, n).emitted
    ensures forall x :: x in Pass(g, items, st, n).emitted && x !in Pass(g, items, st, k).emitted ==>
              exists i :: k <= i < n && items[i].name == x
    decreases n
  {
    if k < n { PassGrows(g, items, st, k, n - 1); }
  }

  /** Exactly what one sweep emits: each item whose every need was emitted before the sweep, or is emitted
      in it for an earlier item. */
  lemma SweepIsExact(g: Graph, items: seq<Item>, st: Progress, i: nat)
    requires Names(items) <= g.Keys && Distinct(items) && i < |items| && items[i].name in g
    ensures var swept := Pass(g, items, st, |items|).emitted;
            items[i].name in swept <==>
              || items[i].name in st.emitted
              || forall dep :: dep in g[items[i].name] ==>
                   dep in st.emitted || exists j :: 0 <= j < i && items[j].name == dep && dep in swept
  {
    var was := Pass(g, items, st, i).emitted;
    var swept := Pass(g, items, st, |items|).emitted;
    PassGrows(g, items, st, 0, i);
    PassGrows(g, items, st, i, |items|);
    PassGrows(g, items, st, i + 1, |items|);
    forall dep ensures dep in was <==> dep in st.emitted || exists j :: 0 <= j < i && items[j].name == dep && dep in swept {
      if dep in was && dep !in st.emitted {
        var j :| 0 <= j < i && items[j].name == dep;
        assert dep in swept;
      }
    }
    assert items[i].name in was ==> items[i].name in st.emitted;
  }

  /** And it puts them behind what was there, in source order. */
  lemma {:induction false} SweepKeepsOrder(g: Graph, items: seq<Item>, st: Progress, k: nat) returns (at: seq<nat>)
    requires Names(items) <= g.Keys && k <= |items|
    ensures var swept := Pass(g, items, st, k);
            && |swept.ordered| == |st.ordered| + |at| && swept.ordered[..|st.ordered|] == st.ordered
            && (forall p :: 0 <= p < |at| ==> at[p] < k && swept.ordered[|st.ordered| + p] == items[at[p]])
            && (forall p, q :: 0 <= p < q < |at| ==> at[p] < at[q])
    decreases k
  {
    if k == 0 {
      at := [];
    } else {
      at := SweepKeepsOrder(g, items, st, k - 1);
      if Pass(g, items, st, k) != Pass(g, items, st, k - 1) {
        at := at + [k - 1];
      }
    }
  }

  lemma {:induction false} FlushKeeps(items: seq<Item>, st: Progress, k: nat)
    requires k <= |items| && Sound(items, st)
    ensures var r := Flush(items, st, k);
      Sound(items, r) && st.ordered <= r.ordered && st.emitted <= r.emitted
      && forall i :: 0 <= i < k ==> items[i].name in r.emitted
    decreases k
  {
    if k > 0 {
      FlushKeeps(items, st, k - 1);
      var was := Flush(items, st, k - 1);
      if items[k - 1].name !in was.emitted {
        EmitSound(items, was, k - 1);
      }
    }
  }

  lemma {:induction false} FlushInOrder(items: seq<Item>, st: Progress, k: nat)
    requires k <= |items| && Distinct(items)
    ensures Flush(items, st, k).ordered == st.ordered + Left(items[..k], st.emitted)
    ensures Flush(items, st, k).emitted <= st.emitted + Names(items[..k])
    decreases k
  {
    if k > 0 {
      FlushInOrder(items, st, k - 1);
      var was := Flush(items, st, k - 1);
      assert items[..k][..k - 1] == items[..k - 1];
      assert items[..k] == items[..k - 1] + [items[k - 1]];
      NamesSnoc(items[..k - 1], items[k - 1]);
      assert items[k - 1].name !in Names(items[..k - 1]);
      assert st.emitted <= was.emitted by { FlushGrows(items, st, k - 1); }
    }
  }

  lemma {:induction false} FlushGrows(items: seq<Item>, st: Progress, k: nat)
    requires k <= |items|
    ensures st.emitted <= Flush(items, st, k).emitted
    decreases k
  {
    if k > 0 { FlushGrows(items, st, k - 1); }
  }

  // Any number of rounds.

  /**
    The order so far: the first cut items are ranked; either there are no others, or
    everything is emitted and the others are those that were stuck, in source order.
  */
  predicate Cut(g: Graph, items: seq<Item>, st: Progress, cut: nat) {
    && cut <= |st.ordered|
    && Ranked(g, st.ordered, cut)
    && (cut < |st.ordered| ==>
          && Names(items) <= st.emitted
          && Stuck(g, items, Names(st.ordered[..cut]))
          && (Distinct(items) ==> st.ordered[cut..] == Left(items, Names(st.ordered[..cut]))))
  }

  lemma RoundKeeps(g: Graph, items: seq<Item>, st: Progress, cut: nat) returns (next: nat)
    requires Names(items) <= g.Keys && Sound(items, st) && Cut(g, items, st, cut)
    ensures Sound(items, Round(g, items, st)) && Cut(g, items, Round(g, items, st), next)
    ensures !(Names(items) <= st.emitted) ==> |Round(g, items, st).ordered| > |st.ordered|
  {
    next := cut;
    if Names(items) <= st.emitted {
      PassOfAll(g, items, st, |items|);
    } else {
      PassKeeps(g, items, st, |items|);
      var swept := Pass(g, items, st, |items|);
      if swept != st {
        next := |swept.ordered|;
      } else {
        var r := Flush(items, st, |items|);
        FlushKeeps(items, st, |items|);
        assert r.ordered[..cut] == st.ordered;
        assert Ranked(g, r.ordered, cut) by {
          forall i | 0 <= i < cut ensures r.ordered[..i] == st.ordered[..i] {}
        }
        forall i | 0 <= i < |items| ensures items[i].name in Names(items) {}
        if Distinct(items) {
          FlushInOrder(items, st, |items|);
          assert items[..|items|] == items;
        }
        var n :| n in Names(items) && n !in st.emitted;
        assert n in r.emitted;
      }
    }
  }

  lemma {:induction false} RoundsKeep(g: Graph, items: seq<Item>, n: nat) returns (cut: nat)
    requires Names(items) <= g.Keys
    ensures Sound(items, Rounds(g, items, n)) && Cut(g, items, Rounds(g, items, n), cut)
    decreases n
  {
    if n == 0 {
      cut := 0;
    } else {
      var was := RoundsKeep(g, items, n - 1);
      cut := RoundKeeps(g, items, Rounds(g, items, n - 1), was);
    }
  }

  // When the rounds end.

  lemma {:induction false} NamesCount(items: seq<Item>)
    ensures |Names(items)| <= |items|
    ensures |Names(items)| == |items| <==> Distinct(items)
    decreases |items|
  {
    if items == [] {
      assert Names(items) == {};
    } else {
      var n := |items| - 1;
      var front := items[..n];
      NamesCount(front);
      NamesSnoc(front, items[n]);
      assert items == front + [items[n]];
      DistinctSnoc(front, items[n]);
      assert Names(items) == if items[n].name in Names(front) then Names(front) else Names(front) + {items[n].name};
    }
  }

  lemma DistinctSnoc(items: seq<Item>, x: Item)
    ensures Distinct(items + [x]) <==> Distinct(items) && x.name !in Names(items)
  {
    var all := items + [x];
    if Distinct(all) {
      forall i, j | 0 <= i < j < |items| ensures items[i].name != items[j].name {
        assert all[i].name != all[j].name;
      }
      forall i | 0 <= i < |items| ensures items[i].name != x.name {
        assert all[i].name != all[|items|].name;
      }
    }
    forall i | 0 <= i < |items| ensures items[i].name in Names(items) {}
  }

  lemma SoundIsShort(items: seq<Item>, st: Progress)
    requires Sound(items, st)
    ensures st.emitted <= Names(items)
    ensures |st.ordered| == |st.emitted| <= |Names(items)| <= |items|
    ensures |st.ordered| == |items| ==> Distinct(items) && st.emitted == Names(items)
  {
    NamesCount(st.ordered);
    NamesCount(items);
    forall n | n in st.emitted ensures n in Names(items) {
      var i :| 0 <= i < |st.ordered| && st.ordered[i].name == n;
      var k :| 0 <= k < |items| && items[k] == st.ordered[i];
    }
    SubsetSize(st.emitted, Names(items));
  }

  /** The source's loop condition fails after n rounds. */
  predicate Done(g: Graph, items: seq<Item>, n: nat)
    requires Names(items) <= g.Keys
  {
    |Rounds(g, items, n).ordered| >= |items|
  }

  lemma IncompleteIsOpen(items: seq<Item>, st: Progress)
    requires Sound(items, st) && Distinct(items) && |st.ordered| < |items|
    ensures !(Names(items) <= st.emitted)
  {
    SoundIsShort(items, st);
    NamesCount(items);
    assert Names(items) <= st.emitted ==> Names(items) == st.emitted;
  }

  lemma RoundGrows(g: Graph, items: seq<Item>, n: nat)
    requires Names(items) <= g.Keys && Distinct(items) && !Done(g, items, n)
    ensures |Rounds(g, items, n + 1).ordered| > |Rounds(g, items, n).ordered|
  {
    var st := Rounds(g, items, n);
    var was := RoundsKeep(g, items, n);
    IncompleteIsOpen(items, st);
    var cut := RoundKeeps(g, items, st, was);
  }

  lemma {:induction false} RoundsAdvance(g: Graph, items: seq<Item>, n: nat)
    requires Names(items) <= g.Keys && Distinct(items)
    ensures Done(g, items, n) || |Rounds(g, items, n).ordered| >= n
    decreases n
  {
    if n > 0 {
      RoundsAdvance(g, items, n - 1);
      if Done(g, items, n - 1) {
        var was := RoundsKeep(g, items, n - 1);
        CompleteStays(g, items, Rounds(g, items, n - 1));
      } else {
        RoundGrows(g, items, n - 1);
      }
    }
  }

  lemma CompleteStays(g: Graph, items: seq<Item>, st: Progress)
    requires Names(items) <= g.Keys && Sound(items, st) && |st.ordered| >= |items|
    ensures Round(g, items, st) == st
  {
    SoundIsShort(items, st);
    PassOfAll(g, items, st, |items|);
  }

  /** The ordering ends exactly on the lists whose names are distinct; it loops for ever on the others. */
  lemma OrderingEndsIff(items: seq<Item>)
    ensures Table(items, items).Keys == Names(items)
    ensures (exists n: nat :: Done(Table(items, items), items, n)) <==> Distinct(items)
  {
    TableHolds(items, items);
    var g := Table(items, items);
    if Distinct(items) {
      RoundsAdvance(g, items, |items|);
      assert Done(g, items, |items|);
    }
    if n: nat :| Done(g, items, n) {
      var _ := RoundsKeep(g, items, n);
      SoundIsShort(items, Rounds(g, items, n));
    }
  }

  /** A struct and a union of one name, which the deduplication before the ordering lets through. */
  const TWINS: seq<Item> := [Item("OpenPitA", []), Item("OpenPitA", [])]

  /** On these two items the loop never ends. */
  lemma TwinsLoopForever()
    ensures Names(TWINS) <= Table(TWINS, TWINS).Keys
    ensures forall n: nat :: !Done(Table(TWINS, TWINS), TWINS, n)
  {
    OrderingEndsIff(TWINS);
    assert TWINS[0].name == TWINS[1].name;
    assert !Distinct(TWINS);
  }

  // Which lists reach the ordering.

  /** The kinds of an exported declaration; only structs and unions are ordered. */
  datatype Kind = Struct | Union | Other(tag: string)

  datatype Declaration = Declaration(kind: Kind, item: Item)

  /** Some declaration of this kind has this name. */
  predicate Declares(decls: seq<Declaration>, kind: Kind, name: string) {
    exists i :: 0 <= i < |decls| && decls[i].kind == kind && decls[i].item.name == name
  }

  /** The first declaration of each kind and name. */
  function Deduped(decls: seq<Declaration>): seq<Declaration> {
    if decls == [] then []
    else
      var front, last := decls[..|decls| - 1], decls[|decls| - 1];
      Deduped(front) + if Declares(front, last.kind, last.item.name) then [] else [last]
  }

  /** The structs and unions, which are ordered together. */
  function Aggregates(decls: seq<Declaration>): seq<Item> {
    if decls == [] then []
    else
      var last := decls[|decls| - 1];
      Aggregates(decls[..|decls| - 1]) + if last.kind.Other? then [] else [last.item]
  }

  /** The name is declared both as a struct and as a union. */
  predicate Clashes(decls: seq<Declaration>, name: string) {
    Declares(decls, Struct, name) && Declares(decls, Union, name)
  }

  ghost predicate Clash(decls: seq<Declaration>) {
    exists name :: Clashes(decls, name)
  }

  lemma DeclaresSnoc(decls: seq<Declaration>, d: Declaration, kind: Kind, name: string)
    ensures Declares(decls + [d], kind, name) <==> Declares(decls, kind, name) || (d.kind == kind && d.item.name == name)
  {
    var all := decls + [d];
    if Declares(decls, kind, name) {
      var i :| 0 <= i < |decls| && decls[i].kind == kind && decls[i].item.name == name;
      assert all[i] == decls[i];
    }
    assert all[|decls|] == d;
  }

  lemma AggregatesSnoc(decls: seq<Declaration>, d: Declaration)
    ensures Aggregates(decls + [d]) == Aggregates(decls) + if d.kind.Other? then [] else [d.item]
  {
    assert (decls + [d])[..|decls|] == decls;
  }

  lemma DedupedSnoc(front: seq<Declaration>, d: Declaration)
    ensures Aggregates(Deduped(front + [d])) ==
      Aggregates(Deduped(front)) + if d.kind.Other? || Declares(front, d.kind, d.item.name) then [] else [d.item]
  {
    assert (front + [d])[..|front|] == front;
    AggregatesSnoc(Deduped(front), d);
    assert Deduped(front) + [] == Deduped(front);
  }

  predicate Aggregated(decls: seq<Declaration>, name: string) {
    Declares(decls, Struct, name) || Declares(decls, Union, name)
  }

  lemma ClashSnoc(front: seq<Declaration>, d: Declaration)
    ensures Clash(front + [d]) <==> Clash(front) || Clashes(front + [d], d.item.name)
  {
    forall name ensures name != d.item.name ==> (Clashes(front + [d], name) <==> Clashes(front, name)) {
      DeclaresSnoc(front, d, Struct, name);
      DeclaresSnoc(front, d, Union, name);
    }
    DeclaresSnoc(front, d, Struct, d.item.name);
    DeclaresSnoc(front, d, Union, d.item.name);
    if name :| Clashes(front, name) { assert Clashes(front + [d], name); }
  }

  /** The names that are ordered are the declared ones, and they are distinct unless a struct and a
      union share one. */
  lemma {:induction false} DedupedNames(decls: seq<Declaration>)
    ensures forall name :: name in Names(Aggregates(Deduped(decls))) <==> Aggregated(decls, name)
    ensures Distinct(Aggregates(Deduped(decls))) <==> !Clash(decls)
    decreases |decls|
  {
    if decls != [] {
      var front, d := decls[..|decls| - 1], decls[|decls| - 1];
      assert decls == front + [d];
      DedupedNames(front);
      DedupedStep(front, d);
    }
  }

  lemma DedupedStep(front: seq<Declaration>, d: Declaration)
    requires forall name :: name in Names(Aggregates(Deduped(front))) <==> Aggregated(front, name)
    requires Distinct(Aggregates(Deduped(front))) <==> !Clash(front)
    ensures forall name :: name in Names(Aggregates(Deduped(front + [d]))) <==> Aggregated(front + [d], name)
    ensures Distinct(Aggregates(Deduped(front + [d]))) <==> !Clash(front + [d])
  {
    var items := Aggregates(Deduped(front));
    DedupedSnoc(front, d);
    NamesSnoc(items, d.item);
    DistinctSnoc(items, d.item);
    assert items + [] == items;
    ClashSnoc(front, d);
    DeclaresSnoc(front, d, Struct, d.item.name);
    DeclaresSnoc(front, d, Union, d.item.name);
    assert Clashes(front, d.item.name) ==> Clash(front);
    forall name ensures Aggregated(front + [d], name) <==> Aggregated(front, name) || (!d.kind.Other? && d.item.name == name) {
      DeclaresSnoc(front, d, Struct, name);
      DeclaresSnoc(front, d, Union, name);
    }
  }

  /** The declaration at i is the first of its kind and name. */
  predicate IsFirst(decls: seq<Declaration>, i: nat)
    requires i < |decls|
  {
    forall j :: 0 <= j < i ==> decls[j].kind != decls[i].kind || decls[j].item.name != decls[i].item.name
  }

  lemma FirstIsNew(decls: seq<Declaration>)
    requires decls != []
    ensures var n := |decls| - 1;
      IsFirst(decls, n) <==> !Declares(decls[..n], decls[n].kind, decls[n].item.name)
  {
    var n := |decls| - 1;
    forall j | 0 <= j < n ensures decls[..n][j] == decls[j] {}
  }

  lemma FirstInFront(decls: seq<Declaration>, i: nat)
    requires i < |decls| - 1
    ensures IsFirst(decls, i) <==> IsFirst(decls[..|decls| - 1], i)
  {
    var front := decls[..|decls| - 1];
    assert forall j :: 0 <= j <= i ==> front[j] == decls[j];
  }

  ghost predicate Listed(decls: seq<Declaration>, at: seq<nat>, i: nat)
    requires i < |decls|
  {
    i in at <==> IsFirst(decls, i)
  }

  /** The places of the first declarations, and that they are what deduplication keeps, in source order. */
  ghost predicate Kept(decls: seq<Declaration>, at: seq<nat>) {
    && Placed(decls, at, Deduped(decls))
    && forall i: nat {:trigger Listed(decls, at, i)} :: i < |decls| ==> Listed(decls, at, i)
  }

  lemma DedupedLast(decls: seq<Declaration>)
    requires decls != []
    ensures var n := |decls| - 1;
      Deduped(decls) == Deduped(decls[..n]) + if IsFirst(decls, n) then [decls[n]] else []
  {
    FirstIsNew(decls);
  }

  /** The places say which declarations are kept. */
  predicate Placed(decls: seq<Declaration>, at: seq<nat>, kept: seq<Declaration>) {
    && |at| == |kept|
    && (forall p :: 0 <= p < |at| ==> at[p] < |decls| && kept[p] == decls[at[p]])
    && (forall p, q :: 0 <= p < q < |at| ==> at[p] < at[q])
  }

  lemma PlacedSnoc(decls: seq<Declaration>, at: seq<nat>, kept: seq<Declaration>, more: bool)
    requires decls != [] && Placed(decls[..|decls| - 1], at, kept)
    ensures Placed(decls, if more then at + [|decls| - 1] else at, kept + if more then [decls[|decls| - 1]] else [])
  {
    assert kept + [] == kept;
  }

  lemma ListedSnoc(decls: seq<Declaration>, at: seq<nat>, i: nat)
    requires i < |decls| && (i < |decls| - 1 ==> Listed(decls[..|decls| - 1], at, i))
    requires forall p :: 0 <= p < |at| ==> at[p] < |decls| - 1
    ensures Listed(decls, if IsFirst(decls, |decls| - 1) then at + [|decls| - 1] else at, i)
  {
    if i < |decls| - 1 {
      FirstInFront(decls, i);
    }
  }

  lemma KeptSnoc(decls: seq<Declaration>, at: seq<nat>)
    requires decls != [] && Kept(decls[..|decls| - 1], at)
    ensures Kept(decls, if IsFirst(decls, |decls| - 1) then at + [|decls| - 1] else at)
  {
    var n := |decls| - 1;
    var now := if IsFirst(decls, n) then at + [n] else at;
    DedupedLast(decls);
    PlacedSnoc(decls, at, Deduped(decls[..n]), IsFirst(decls, n));
    forall i: nat | i < |decls| ensures Listed(decls, now, i) {
      assert i < n ==> Listed(decls[..n], at, i);
      ListedSnoc(decls, at, i);
    }
  }

  /** Deduplication keeps exactly the first declaration of each kind and name, in source order. */
  lemma {:induction false} DedupedKeepsFirst(decls: seq<Declaration>) returns (at: seq<nat>)
    ensures Kept(decls, at)
    decreases |decls|
  {
    at := [];
    if decls != [] {
      at := DedupedKeepsFirst(decls[..|decls| - 1]);
      KeptSnoc(decls, at);
      at := if IsFirst(decls, |decls| - 1) then at + [|decls| - 1] else at;
    }
  }

  /** For a whole header, the ordering ends exactly when no name is declared both as a struct and as
      a union. */
  lemma HeaderOrderingEndsIff(decls: seq<Declaration>)
    ensures var items := Aggregates(Deduped(decls));
      Names(items) <= Table(items, items).Keys
      && ((exists n: nat :: Done(Table(items, items), items, n)) <==> !Clash(decls))
  {
    OrderingEndsIff(Aggregates(Deduped(decls)));
    DedupedNames(decls);
  }

  /** The source's deduplication loop. */
  method DedupeItems(decls: seq<Declaration>) returns (out: seq<Declaration>)
    ensures out == Deduped(decls)
  {
    var seen: set<(Kind, string)> := {};
    out := [];
    for k := 0 to |decls|
      invariant out == Deduped(decls[..k])
      invariant forall kind, name :: (kind, name) in seen <==> Declares(decls[..k], kind, name)
    {
      var key := (decls[k].kind, decls[k].item.name);
      assert decls[..k + 1] == decls[..k] + [decls[k]];
      assert decls[..k + 1][..k] == decls[..k];
      forall kind, name ensures Declares(decls[..k + 1], kind, name) <==> Declares(decls[..k], kind, name) || (kind, name) == key {
        DeclaresSnoc(decls[..k], decls[k], kind, name);
      }
      if key in seen { continue; }
      seen := seen + {key};
      out := out + [decls[k]];
    }
    assert decls[..|decls|] == decls;
  }

  // What the order guarantees.

  /** A walk from a ranked item only meets items ranked before it. */
  lemma {:induction false} WalksDescend(g: Graph, ordered: seq<Item>, cut: nat, p: nat, w: seq<string>)
    requires p < cut <= |ordered| && Ranked(g, ordered, cut) && Distinct(ordered)
    requires Walk(g, w) && w[0] == ordered[p].name
    ensures forall j :: 0 < j < |w| ==> w[j] in Names(ordered[..p])
    ensures !Repeats(w)
    decreases |w|
  {
    assert w[0] !in Names(ordered[..p]);
    if |w| > 1 {
      assert w[1] in g[w[0]];
      assert w[1] in Names(ordered[..p]);
      var q :| 0 <= q < p && ordered[q].name == w[1];
      var rest := w[1..];
      assert forall i :: 0 <= i < |rest| ==> rest[i] == w[i + 1];
      assert Walk(g, rest);
      WalksDescend(g, ordered, cut, q, rest);
      forall j | 0 < j < |w| ensures w[j] in Names(ordered[..p]) {
        if j > 1 {
          assert w[j] == rest[j - 1];
          assert w[j] in Names(ordered[..q]);
          var i :| 0 <= i < q && ordered[..q][i].name == w[j];
          assert ordered[..p][i].name == w[j];
        }
      }
      forall i, j | 0 <= i < j < |w| ensures w[i] != w[j] {
        assert i > 0 ==> w[i] == rest[i - 1];
        assert w[j] == rest[j - 1];
      }
    }
  }

  /**
    The shape of a finished order.  The first cut items each come after all they
    need, and they are exactly the items that need no cycle; the others keep their
    source order.
  */
  ghost predicate Arranged(g: Graph, items: seq<Item>, ordered: seq<Item>, cut: nat) {
    && cut <= |ordered|
    && Ranked(g, ordered, cut)
    && (forall i :: 0 <= i < |ordered| ==> (i < cut <==> !NeedsCycle(g, ordered[i].name)))
    && ordered[cut..] == Left(items, Names(ordered[..cut]))
  }

  lemma RankedNeedsNoCycle(g: Graph, ordered: seq<Item>, cut: nat, p: nat)
    requires p < cut <= |ordered| && Ranked(g, ordered, cut) && Distinct(ordered)
    ensures !NeedsCycle(g, ordered[p].name)
  {
    forall w | Walk(g, w) && w[0] == ordered[p].name ensures !Repeats(w) {
      WalksDescend(g, ordered, cut, p, w);
    }
  }

  lemma StuckNeedsCycle(items: seq<Item>, emitted: set<string>, k: nat)
    requires Stuck(Table(items, items), items, emitted) && k < |items| && items[k].name !in emitted
    ensures NeedsCycle(Table(items, items), items[k].name)
  {
    var g, names := Table(items, items), Names(items) - emitted;
    TableHolds(items, items);
    forall x | x in names ensures Onward(g, names, x) {
      var i :| 0 <= i < |items| && items[i].name == x;
      assert !(g[x] <= emitted);
      var y :| y in g[x] && y !in emitted;
      assert y in names;
    }
    assert items[k].name in names;
    ClosedNeedsCycle(g, names, items[k].name);
  }

  lemma LeftOfNone(items: seq<Item>, emitted: set<string>)
    requires Names(items) <= emitted
    ensures Left(items, emitted) == []
  {
    if items != [] {
      var n := |items| - 1;
      assert items == items[..n] + [items[n]];
      NamesSnoc(items[..n], items[n]);
      LeftOfNone(items[..n], emitted);
    }
  }

  /** A finished order is arranged, and is a permutation of the items. */
  lemma FinishedIsArranged(items: seq<Item>, n: nat) returns (cut: nat)
    requires Table(items, items).Keys == Names(items) && Done(Table(items, items), items, n)
    ensures Distinct(items)
    ensures Arranged(Table(items, items), items, Rounds(Table(items, items), items, n).ordered, cut)
    ensures multiset(Rounds(Table(items, items), items, n).ordered) == multiset(items)
  {
    var g := Table(items, items);
    var st := Rounds(g, items, n);
    cut := RoundsKeep(g, items, n);
    SoundIsShort(items, st);
    forall i | 0 <= i < cut ensures !NeedsCycle(g, st.ordered[i].name) {
      RankedNeedsNoCycle(g, st.ordered, cut, i);
    }
    forall i | cut <= i < |st.ordered| ensures NeedsCycle(g, st.ordered[i].name) {
      assert st.ordered[i] in items;
      var k :| 0 <= k < |items| && items[k] == st.ordered[i];
      assert st.ordered[i].name !in Names(st.ordered[..cut]);
      StuckNeedsCycle(items, Names(st.ordered[..cut]), k);
    }
    if cut == |st.ordered| {
      assert st.ordered[..cut] == st.ordered;
      LeftOfNone(items, st.emitted);
    }
    SameItems(items, st.ordered);
  }

  lemma SameItems(items: seq<Item>, ordered: seq<Item>)
    requires Distinct(items) && Distinct(ordered) && Names(ordered) == Names(items)
    requires forall i :: 0 <= i < |ordered| ==> ordered[i] in items
    ensures multiset(ordered) == multiset(items)
  {
    NoDuplicates(items);
    NoDuplicates(ordered);
    forall x | x in items ensures x in ordered {
      var k :| 0 <= k < |items| && items[k] == x;
      assert x.name in Names(ordered);
      var i :| 0 <= i < |ordered| && ordered[i].name == x.name;
      var m :| 0 <= m < |items| && items[m] == ordered[i];
      assert m == k;
    }
    forall x: Item ensures multiset(ordered)[x] == multiset(items)[x] {
      assert x in multiset(ordered) <==> x in multiset(items);
    }
  }

  lemma {:induction false} NoDuplicates(items: seq<Item>)
    requires Distinct(items)
    ensures forall x :: x in items ==> multiset(items)[x] == 1
    decreases |items|
  {
    if items != [] {
      var n := |items| - 1;
      NoDuplicates(items[..n]);
      assert items == items[..n] + [items[n]];
      assert forall i :: 0 <= i < n ==> items[..n][i].name != items[n].name;
    }
  }

  /** The fallback is needed exactly when some item needs a cycle: an acyclic list is fully ordered. */
  lemma AcyclicIsFullyOrdered(items: seq<Item>, n: nat)
    requires Table(items, items).Keys == Names(items) && Done(Table(items, items), items, n)
    ensures var g, ordered := Table(items, items), Rounds(Table(items, items), items, n).ordered;
      Ranked(g, ordered, |ordered|) <==> forall i :: 0 <= i < |items| ==> !NeedsCycle(g, items[i].name)
  {
    var ordered := Rounds(Table(items, items), items, n).ordered;
    var cut := FinishedIsArranged(items, n);
    var _ := RoundsKeep(Table(items, items), items, n);
    ArrangedFully(items, ordered, cut);
  }

  lemma ArrangedFully(items: seq<Item>, ordered: seq<Item>, cut: nat)
    requires Distinct(ordered) && multiset(ordered) == multiset(items)
    requires Arranged(Table(items, items), items, ordered, cut)
    ensures var g := Table(items, items);
      Ranked(g, ordered, |ordered|) <==> forall i :: 0 <= i < |items| ==> !NeedsCycle(g, items[i].name)
  {
    var g := Table(items, items);
    forall i | 0 <= i < |items| ensures Ranked(g, ordered, |ordered|) ==> !NeedsCycle(g, items[i].name) {
      assert items[i] in multiset(ordered);
      var p :| 0 <= p < |ordered| && ordered[p] == items[i];
      if Ranked(g, ordered, |ordered|) { RankedNeedsNoCycle(g, ordered, |ordered|, p); }
    }
    if cut < |ordered| {
      assert ordered[cut] in multiset(items);
      var k :| 0 <= k < |items| && items[k] == ordered[cut];
    }
  }

  /** The source's inner loops: what one item needs. */
  method ItemDependencies(items: seq<Item>, item: Item) returns (needs: set<string>)
    ensures needs == Needs(items, item)
  {
    needs := {};
    var names := Names(items);
    for f := 0 to |item.fields|
      invariant needs == set dep | dep in FieldTypes(item.fields[..f]) && dep in names && dep != item.name
    {
      assert item.fields[..f + 1][..f] == item.fields[..f];
      var deps := RustTypes.ValueDependencies(item.fields[f]);
      needs := needs + set dep | dep in deps && dep in names && dep != item.name;
    }
    assert item.fields[..|item.fields|] == item.fields;
  }

  method DependencyTable(items: seq<Item>) returns (dependencies: Graph)
    ensures dependencies == Table(items, items)
  {
    dependencies := map[];
    for k := 0 to |items|
      invariant dependencies == Table(items[..k], items)
    {
      var needs := ItemDependencies(items, items[k]);
      dependencies := dependencies[items[k].name := needs];
      assert items[..k + 1][..k] == items[..k];
    }
    assert items[..|items|] == items;
  }

  /** The order after n rounds, when the loop has ended by then. */
  ghost predicate OrderAfter(items: seq<Item>, ordered: seq<Item>, n: nat) {
    && Table(items, items).Keys == Names(items)
    && Done(Table(items, items), items, n)
    && ordered == Rounds(Table(items, items), items, n).ordered
  }

  /**
    The source's rounds.  Names must be distinct: OrderingEndsIff shows that the loop
    does not end on any other list.
  */
  method OrderStructItems(items: seq<Item>) returns (ordered: seq<Item>)
    requires Distinct(items)
    ensures multiset(ordered) == multiset(items)
    ensures exists cut: nat :: Arranged(Table(items, items), items, ordered, cut)
    ensures exists n: nat :: OrderAfter(items, ordered, n)
  {
    var g := DependencyTable(items);
    TableHolds(items, items);
    ordered := [];
    var emitted := {};
    ghost var n := 0;
    while |ordered| < |items|
      invariant Progress(ordered, emitted) == Rounds(g, items, n)
      decreases |items| - |ordered|
    {
      RoundGrows(g, items, n);
      ordered, emitted := OneRound(g, items, ordered, emitted);
      n := n + 1;
    }
    assert OrderAfter(items, ordered, n);
    ghost var cut := FinishedIsArranged(items, n);
  }

  /** One round: emit what can be emitted, in source order, or else whatever is left. */
  method OneRound(g: Graph, items: seq<Item>, before: seq<Item>, done: set<string>)
    returns (ordered: seq<Item>, emitted: set<string>)
    requires Names(items) <= g.Keys
    ensures Progress(ordered, emitted) == Round(g, items, Progress(before, done))
  {
    ghost var was := Progress(before, done);
    ordered, emitted := before, done;
    var progress := false;
    for k := 0 to |items|
      invariant Progress(ordered, emitted) == Pass(g, items, was, k)
      invariant |ordered| >= |before| && (progress <==> |ordered| > |before|)
      invariant !progress ==> Progress(ordered, emitted) == was
    {
      assert items[k].name in Names(items);
      if items[k].name in emitted { continue; }
      if g[items[k].name] <= emitted {
        ordered := ordered + [items[k]];
        emitted := emitted + {items[k].name};
        progress := true;
      }
    }
    if progress { return; }
    for k := 0 to |items|
      invariant Progress(ordered, emitted) == Flush(items, was, k)
    {
      if items[k].name !in emitted {
        ordered := ordered + [items[k]];
        emitted := emitted + {items[k].name};
      }
    }
  }
}
