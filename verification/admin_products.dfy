/** The admin product list: de-duplication of fetched rows, the selection
    of rows for bulk actions, the sort toggle and the local removal after a
    delete. The queries themselves are remote and not modelled. */
module AdminProducts {
  import opened Types

  // ---------------- uniqueById ----------------

  predicate HasId(ps: seq<Product>, id: string) {
    exists i :: 0 <= i < |ps| && ps[i].id == id
  }

  function IdSet(ps: seq<Product>): set<string> {
    set i | 0 <= i < |ps| :: ps[i].id
  }

  lemma IdSetAppend(ps: seq<Product>, p: Product)
    ensures IdSet(ps + [p]) == IdSet(ps) + {p.id}
  {
    var l := ps + [p];
    forall x | x in IdSet(l) ensures x in IdSet(ps) + {p.id} {
      var i :| 0 <= i < |l| && l[i].id == x;
      if i < |ps| { assert ps[i] == l[i]; }
    }
    forall x | x in IdSet(ps) + {p.id} ensures x in IdSet(l) {
      if x in IdSet(ps) {
        var i :| 0 <= i < |ps| && ps[i].id == x;
        assert l[i] == ps[i];
      } else {
        assert l[|ps|] == p;
      }
    }
  }

  predicate DistinctIds(ps: seq<Product>) {
    forall i, j :: 0 <= i < j < |ps| ==> ps[i].id != ps[j].id
  }

  /** The rows kept by `uniqueById`, read left to right: a row is kept when
      no earlier kept row has its id. */
  function Dedup(ps: seq<Product>): seq<Product> {
    if ps == [] then []
    else
      var r := Dedup(ps[..|ps| - 1]);
      if HasId(r, ps[|ps| - 1].id) then r else r + [ps[|ps| - 1]]
  }

  /** `uniqueById`: one pass with a set of the ids seen so far. */
  method UniqueById(arr: seq<Product>) returns (out: seq<Product>)
    ensures out == Dedup(arr)
    ensures DistinctIds(out) && IdSet(out) == IdSet(arr)
  {
    var seen: set<string> := {};
    out := [];
    for i := 0 to |arr|
      invariant out == Dedup(arr[..i])
      invariant seen == IdSet(out)
    {
      var item := arr[i];
      assert arr[..i + 1][..i] == arr[..i];
      if item.id in seen {
        var k :| 0 <= k < |out| && out[k].id == item.id;
        assert HasId(out, item.id);
      } else {
        assert !HasId(out, item.id);
        IdSetAppend(out, item);
        seen := seen + {item.id};
        out := out + [item];
      }
    }
    assert arr[..|arr|] == arr;
    DedupIds(arr);
  }

  /** The result has distinct ids, the same set of ids as the input, and
      only rows of the input. */
  lemma {:induction false} DedupIds(ps: seq<Product>)
    ensures DistinctIds(Dedup(ps))
    ensures IdSet(Dedup(ps)) == IdSet(ps)
    ensures forall p :: p in Dedup(ps) ==> p in ps
  {
    if ps != [] {
      var pre := ps[..|ps| - 1];
      var last := ps[|ps| - 1];
      DedupIds(pre);
      var r := Dedup(pre);
      assert ps == pre + [last];
      IdSetAppend(pre, last);
      if !HasId(r, last.id) {
        IdSetAppend(r, last);
      } else {
        var k :| 0 <= k < |r| && r[k].id == last.id;
        assert last.id in IdSet(r);
      }
    }
  }

  /** A row whose id does not occur earlier is kept. */
  lemma {:induction false} DedupKeepsFirst(ps: seq<Product>, i: int)
    requires 0 <= i < |ps|
    requires forall j :: 0 <= j < i ==> ps[j].id != ps[i].id
    ensures ps[i] in Dedup(ps)
  {
    var pre := ps[..|ps| - 1];
    if i == |ps| - 1 {
      DedupIds(pre);
      var r := Dedup(pre);
      forall k | 0 <= k < |r| ensures r[k].id != ps[i].id {
        assert r[k] in pre;
        var j :| 0 <= j < |pre| && pre[j] == r[k];
        assert ps[j] == pre[j];
      }
    } else {
      DedupKeepsFirst(pre, i);
    }
  }

  /** The rows kept from a prefix come first, in the same order: the
      filter never reorders. */
  lemma {:induction false} DedupPrefix(ps: seq<Product>, n: int)
    requires 0 <= n <= |ps|
    ensures Dedup(ps[..n]) <= Dedup(ps)
  {
    if n < |ps| {
      DedupPrefix(ps[..|ps| - 1], n);
      assert ps[..|ps| - 1][..n] == ps[..n];
    } else {
      assert ps[..n] == ps;
    }
  }

  /** Input that already has distinct ids comes back unchanged. */
  lemma {:induction false} DedupOfDistinct(ps: seq<Product>)
    requires DistinctIds(ps)
    ensures Dedup(ps) == ps
  {
    if ps != [] {
      var pre := ps[..|ps| - 1];
      DedupOfDistinct(pre);
      forall k | 0 <= k < |pre| ensures pre[k].id != ps[|ps| - 1].id {
        assert pre[k] == ps[k];
      }
      assert pre + [ps[|ps| - 1]] == ps;
    }
  }

  // ---------------- selection ----------------

  /** `prev.filter(x => x !== id)`. */
  function RemoveId(sel: seq<string>, id: string): (r: seq<string>)
    ensures forall x :: x in r <==> x in sel && x != id
  {
    if sel == [] then []
    else (if sel[0] == id then [] else [sel[0]]) + RemoveId(sel[1..], id)
  }

  /** `toggleSelect(id)`, the same on the product and the category pages. */
  function ToggleSelect(sel: seq<string>, id: string): seq<string> {
    if id in sel then RemoveId(sel, id) else sel + [id]
  }

  /** A toggle flips the id's membership, appends a new id at the end, and
      leaves every other id as it was. */
  lemma ToggleEffect(sel: seq<string>, id: string)
    ensures id in ToggleSelect(sel, id) <==> id !in sel
    ensures forall x :: x != id ==> (x in ToggleSelect(sel, id) <==> x in sel)
    ensures id !in sel ==> ToggleSelect(sel, id) == sel + [id]
  {
  }

  lemma {:induction false} RemoveAbsentId(sel: seq<string>, id: string)
    requires id !in sel
    ensures RemoveId(sel, id) == sel
  {
    if sel != [] {
      RemoveAbsentId(sel[1..], id);
      assert [sel[0]] + sel[1..] == sel;
    }
  }

  /** Toggling twice restores membership; selecting and unselecting a new
      id restores the very list. */
  lemma ToggleTwice(sel: seq<string>, id: string)
    ensures forall x :: x in ToggleSelect(ToggleSelect(sel, id), id) <==> x in sel
    ensures id !in sel ==> ToggleSelect(ToggleSelect(sel, id), id) == sel
  {
    if id !in sel {
      RemoveAbsentId(sel, id);
      RemoveAppended(sel, id);
    }
  }

  lemma {:induction false} RemoveAppended(sel: seq<string>, id: string)
    requires id !in sel
    ensures RemoveId(sel + [id], id) == RemoveId(sel, id)
  {
    if sel == [] {
      assert RemoveId([id], id) == [] + RemoveId([], id);
    } else {
      assert (sel + [id])[1..] == sel[1..] + [id];
      RemoveAppended(sel[1..], id);
    }
  }

  /** `allSelected` as written: the lengths are compared. */
  predicate AllSelectedAsWritten(products: seq<Product>, sel: seq<string>) {
    |products| > 0 && |sel| == |products|
  }

  /** `selectAll` as written. */
  function SelectAllAsWritten(products: seq<Product>, sel: seq<string>): seq<string> {
    if |sel| == |products| then [] else Ids(products, ProductId)
  }

  /** Every listed product is selected. */
  predicate AllSelected(products: seq<Product>, sel: seq<string>) {
    |products| > 0 && forall i :: 0 <= i < |products| ==> products[i].id in sel
  }

  /** `selectAll`, clearing exactly when every listed product is selected. */
  function SelectAll(products: seq<Product>, sel: seq<string>): (r: seq<string>)
    ensures AllSelected(products, sel) ==> r == []
    ensures !AllSelected(products, sel) ==> r == Ids(products, ProductId)
    ensures |products| > 0 && !AllSelected(products, sel) ==> AllSelected(products, r)
  {
    if AllSelected(products, sel) then [] else Ids(products, ProductId)
  }

  /** The selection survives refetches and deletions, so it can hold ids
      no longer listed. Then the length test reports "all selected" while a
      listed product is unselected, and "select all" clears the selection
      instead of completing it. */
  lemma StaleSelectionMisleads(a: Product, b: Product, gone: string)
    requires a.id != b.id && gone != a.id && gone != b.id
    ensures AllSelectedAsWritten([a, b], [a.id, gone])
    ensures SelectAllAsWritten([a, b], [a.id, gone]) == []
    ensures !AllSelected([a, b], [a.id, gone])
    ensures SelectAll([a, b], [a.id, gone]) == [a.id, b.id]
  {
    assert [a, b][1] == b && b.id !in [a.id, gone];
  }

  /** On a selection of listed ids without repeats the two tests agree. */
  lemma AllSelectedAgrees(products: seq<Product>, sel: seq<string>)
    requires DistinctIds(products)
    requires forall i, j :: 0 <= i < j < |sel| ==> sel[i] != sel[j]
    requires forall x :: x in sel ==> HasId(products, x)
    ensures AllSelectedAsWritten(products, sel) <==> AllSelected(products, sel)
  {
    var listed := IdSet(products);
    var chosen := set x | x in sel;
    forall x | x in chosen ensures x in listed {
      var k :| 0 <= k < |products| && products[k].id == x;
    }
    IdSetSize(products);
    DistinctCard(sel);
    SubsetCard(chosen, listed);
    if AllSelected(products, sel) {
      forall x | x in listed ensures x in chosen {
        var k :| 0 <= k < |products| && products[k].id == x;
      }
      assert chosen == listed;
    }
    if AllSelectedAsWritten(products, sel) {
      forall i | 0 <= i < |products| ensures products[i].id in sel {
        assert products[i].id in listed;
      }
    }
  }

  lemma {:induction false} IdSetSize(ps: seq<Product>)
    requires DistinctIds(ps)
    ensures |IdSet(ps)| == |ps|
  {
    if ps != [] {
      var pre := ps[..|ps| - 1];
      IdSetSize(pre);
      assert pre + [ps[|ps| - 1]] == ps;
      IdSetAppend(pre, ps[|ps| - 1]);
      forall x | x in IdSet(pre) ensures x != ps[|ps| - 1].id {
        var k :| 0 <= k < |pre| && pre[k].id == x;
        assert pre[k] == ps[k];
      }
    }
  }

  lemma {:induction false} DistinctCard(sel: seq<string>)
    requires forall i, j :: 0 <= i < j < |sel| ==> sel[i] != sel[j]
    ensures |set x | x in sel| == |sel|
  {
    if sel != [] {
      var pre := sel[..|sel| - 1];
      var last := sel[|sel| - 1];
      assert forall i :: 0 <= i < |pre| ==> pre[i] == sel[i];
      DistinctCard(pre);
      var earlier := set x | x in pre;
      assert last !in earlier by {
        forall x | x in pre ensures x != last {
          var k :| 0 <= k < |pre| && pre[k] == x;
          assert pre[k] == sel[k];
        }
      }
      assert sel == pre + [last];
      assert (set x | x in sel) == earlier + {last};
    }
  }

  /** A subset is no larger than its superset, and equal to it when the
      sizes agree. */
  lemma {:induction false} SubsetCard(a: set<string>, b: set<string>)
    requires a <= b
    ensures |a| <= |b|
    ensures |a| == |b| ==> a == b
    decreases |b|
  {
    if b != {} {
      var y :| y in b;
      SubsetCard(a - {y}, b - {y});
      assert b == (b - {y}) + {y};
      if y in a {
        assert a == (a - {y}) + {y};
      } else {
        assert a - {y} == a;
      }
    }
  }

  // ---------------- sorting ----------------

  datatype SortDirection = Asc | Desc

  datatype SortState = SortState(field: string, direction: SortDirection)

  /** The initial sort: by name, ascending. */
  const InitialSort: SortState := SortState("name", Asc)

  /** `handleSort(field)`. */
  function HandleSort(s: SortState, field: string): SortState {
    if s.field == field then s.(direction := if s.direction == Asc then Desc else Asc)
    else SortState(field, Asc)
  }

  /** Sorting on the current field flips the direction, and doing it twice
      restores it; sorting on another field starts ascending. */
  lemma HandleSortEffect(s: SortState, field: string)
    ensures s.field == field ==>
      HandleSort(s, field).field == field
      && HandleSort(s, field).direction != s.direction
      && HandleSort(HandleSort(s, field), field) == s
    ensures s.field != field ==> HandleSort(s, field) == SortState(field, Asc)
  {
  }

  // ---------------- local delete ----------------

  /** The list after a successful delete of `id`. */
  function WithoutProduct(ps: seq<Product>, id: string): (r: seq<Product>)
    ensures |r| <= |ps|
  {
    if ps == [] then []
    else (if ps[0].id == id then [] else [ps[0]]) + WithoutProduct(ps[1..], id)
  }

  /** The delete keeps exactly the rows with another id. */
  lemma {:induction false} WithoutProductMembers(ps: seq<Product>, id: string)
    ensures forall p :: p in WithoutProduct(ps, id) <==> p in ps && p.id != id
  {
    if ps != [] {
      WithoutProductMembers(ps[1..], id);
      assert ps == [ps[0]] + ps[1..];
    }
  }

  /** On a list with distinct ids only the deleted row goes, the others keep
      their order. */
  lemma {:induction false} WithoutProductShape(ps: seq<Product>, k: int)
    requires DistinctIds(ps) && 0 <= k < |ps|
    ensures WithoutProduct(ps, ps[k].id) == ps[..k] + ps[k + 1..]
  {
    var id := ps[k].id;
    var before, after := ps[..k], ps[k + 1..];
    assert WithoutProduct(before, id) == before by {
      forall i | 0 <= i < |before| ensures before[i].id != id {
        assert before[i] == ps[i];
      }
      WithoutAbsent(before, id);
    }
    assert WithoutProduct(after, id) == after by {
      forall i | 0 <= i < |after| ensures after[i].id != id {
        assert after[i] == ps[k + 1 + i];
      }
      WithoutAbsent(after, id);
    }
    assert WithoutProduct([ps[k]], id) == [] by {
      assert [ps[k]][1..] == [];
    }
    calc {
      WithoutProduct(ps, id);
      { assert ps == before + ([ps[k]] + after); }
      WithoutProduct(before + ([ps[k]] + after), id);
      { WithoutProductConcat(before, [ps[k]] + after, id); }
      WithoutProduct(before, id) + WithoutProduct([ps[k]] + after, id);
      { WithoutProductConcat([ps[k]], after, id); }
      before + ([] + after);
      { assert [] + after == after; }
      before + after;
    }
  }

  /** The delete keeps the list's order: it distributes over concatenation. */
  lemma {:induction false} WithoutProductConcat(xs: seq<Product>, ys: seq<Product>, id: string)
    ensures WithoutProduct(xs + ys, id) == WithoutProduct(xs, id) + WithoutProduct(ys, id)
  {
    if xs == [] {
      assert xs + ys == ys;
    } else {
      assert (xs + ys)[0] == xs[0] && (xs + ys)[1..] == xs[1..] + ys;
      WithoutProductConcat(xs[1..], ys, id);
    }
  }

  lemma {:induction false} WithoutAbsent(ps: seq<Product>, id: string)
    requires forall i :: 0 <= i < |ps| ==> ps[i].id != id
    ensures WithoutProduct(ps, id) == ps
  {
    if ps != [] {
      WithoutAbsent(ps[1..], id);
      assert [ps[0]] + ps[1..] == ps;
    }
  }
}
