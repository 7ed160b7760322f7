/** The PC-builder store: at most one chosen product for each of eight
    component slots. The build is a JavaScript object, whose keys keep
    their insertion order, so it is modelled as an association list
    with distinct slots: assigning a slot that is present overwrites it in
    place, a new slot goes to the end, and `delete` drops the entry. */
module PcBuilderStore {
  import opened Wrappers
  import opened Types

  datatype ComponentType = Cpu | Motherboard | Gpu | Ram | Storage | Psu | Case | Cooling

  /** The eight slots, in the order the builder page lists them. */
  const AllSlots: seq<ComponentType> := [Cpu, Motherboard, Gpu, Ram, Storage, Psu, Case, Cooling]

  datatype Entry = Entry(slot: ComponentType, product: Product)

  type Build = seq<Entry>

  ghost predicate DistinctSlots(b: Build) {
    forall i, j :: 0 <= i < j < |b| ==> b[i].slot != b[j].slot
  }

  predicate HasSlot(b: Build, t: ComponentType) {
    exists i :: 0 <= i < |b| && b[i].slot == t
  }

  /** `build[t]`. */
  function Lookup(b: Build, t: ComponentType): Option<Product> {
    if b == [] then None
    else if b[0].slot == t then Some(b[0].product)
    else Lookup(b[1..], t)
  }

  /** `{ ...build, [t]: p }`. */
  function Put(b: Build, t: ComponentType, p: Product): Build {
    if b == [] then [Entry(t, p)]
    else if b[0].slot == t then [Entry(t, p)] + b[1..]
    else [b[0]] + Put(b[1..], t, p)
  }

  /** A copy of the build with `delete copy[t]`. */
  function Delete(b: Build, t: ComponentType): Build {
    if b == [] then []
    else (if b[0].slot == t then [] else [b[0]]) + Delete(b[1..], t)
  }

  /** `Object.values(build)`. */
  function Values(b: Build): (ps: seq<Product>)
    ensures |ps| == |b| && forall i :: 0 <= i < |b| ==> ps[i] == b[i].product
  {
    if b == [] then [] else [b[0].product] + Values(b[1..])
  }

  /** A weight summed over the entries, in order. */
  function SumBy(b: Build, w: Product -> int): int {
    if b == [] then 0 else w(b[0].product) + SumBy(b[1..], w)
  }

  function Price(p: Product): int { p.price }

  function One(p: Product): int { 1 }

  /** `getBuildTotal`: the `reduce` over `Object.values(build)`. */
  function BuildTotal(b: Build): int {
    SumBy(b, Price)
  }

  /** Every one of the eight slots holds a product. */
  predicate AllFilled(b: Build) {
    forall s :: Lookup(b, s).Some?
  }

  /** `getComponentsCount`: `Object.keys(build).length`. */
  function ComponentsCount(b: Build): nat {
    |b|
  }

  // ---- reference definitions, slot by slot ----

  function WeightAt(b: Build, s: ComponentType, w: Product -> int): int {
    match Lookup(b, s)
    case Some(p) => w(p)
    case None => 0
  }

  /** The weight of each listed slot's product, 0 for an empty slot. */
  function SumBySlot(slots: seq<ComponentType>, b: Build, w: Product -> int): int {
    if slots == [] then 0 else WeightAt(b, slots[0], w) + SumBySlot(slots[1..], b, w)
  }

  // ---------------- lemmas ----------------

  lemma {:induction false} LookupFindsSlot(b: Build, t: ComponentType)
    ensures Lookup(b, t).Some? <==> HasSlot(b, t)
    ensures DistinctSlots(b) ==> forall i :: 0 <= i < |b| && b[i].slot == t ==> Lookup(b, t) == Some(b[i].product)
  {
    if b != [] {
      LookupFindsSlot(b[1..], t);
      if HasSlot(b, t) && b[0].slot != t {
        var i :| 0 <= i < |b| && b[i].slot == t;
        assert b[1..][i - 1].slot == t;
      }
      if HasSlot(b[1..], t) {
        var i :| 0 <= i < |b[1..]| && b[1..][i].slot == t;
        assert b[i + 1].slot == t;
      }
    }
  }

  /** `addComponent(t, p)`: slot `t` now holds `p`, whatever it held, and
      every other slot holds what it held. */
  lemma {:induction false} PutLookup(b: Build, t: ComponentType, p: Product)
    ensures Lookup(Put(b, t, p), t) == Some(p)
    ensures forall s :: s != t ==> Lookup(Put(b, t, p), s) == Lookup(b, s)
  {
    if b != [] && b[0].slot != t {
      PutLookup(b[1..], t, p);
    }
  }

  lemma {:induction false} PutSlots(b: Build, t: ComponentType, p: Product)
    ensures forall s :: HasSlot(Put(b, t, p), s) <==> s == t || HasSlot(b, s)
  {
    PutLookup(b, t, p);
    forall s ensures HasSlot(Put(b, t, p), s) <==> s == t || HasSlot(b, s) {
      LookupFindsSlot(b, s);
      LookupFindsSlot(Put(b, t, p), s);
    }
  }

  lemma {:induction false} PutKeepsSlotsDistinct(b: Build, t: ComponentType, p: Product)
    requires DistinctSlots(b)
    ensures DistinctSlots(Put(b, t, p))
  {
    if b != [] {
      PutKeepsSlotsDistinct(b[1..], t, p);
      var r := Put(b, t, p);
      if b[0].slot != t {
        PutSlots(b[1..], t, p);
        forall j | 0 < j < |r| ensures r[0].slot != r[j].slot {
          assert r[j] == Put(b[1..], t, p)[j - 1];
          assert HasSlot(Put(b[1..], t, p), r[j].slot);
          if r[j].slot != t {
            var i :| 0 <= i < |b[1..]| && b[1..][i].slot == r[j].slot;
            assert b[i + 1].slot == r[j].slot;
          }
        }
      } else {
        forall i, j | 0 <= i < j < |r| ensures r[i].slot != r[j].slot {
          assert r[j] == b[j];
          if i > 0 { assert r[i] == b[i]; }
        }
      }
    }
  }

  /** `removeComponent(t)`: slot `t` is empty afterwards and every other
      slot holds what it held. */
  lemma {:induction false} DeleteLookup(b: Build, t: ComponentType)
    ensures Lookup(Delete(b, t), t) == None
    ensures forall s :: s != t ==> Lookup(Delete(b, t), s) == Lookup(b, s)
  {
    if b != [] {
      DeleteLookup(b[1..], t);
      var rest := Delete(b[1..], t);
      if b[0].slot != t {
        assert Delete(b, t) == [b[0]] + rest;
        assert ([b[0]] + rest)[1..] == rest;
      } else {
        assert Delete(b, t) == rest;
      }
    }
  }

  /** Removing a slot that is already empty changes nothing. */
  lemma {:induction false} DeleteAbsent(b: Build, t: ComponentType)
    requires !HasSlot(b, t)
    ensures Delete(b, t) == b
  {
    if b != [] {
      assert b[0].slot != t;
      assert !HasSlot(b[1..], t);
      DeleteAbsent(b[1..], t);
    }
  }

  lemma {:induction false} DeleteKeepsSlotsDistinct(b: Build, t: ComponentType)
    requires DistinctSlots(b)
    ensures DistinctSlots(Delete(b, t))
    ensures forall s :: HasSlot(Delete(b, t), s) ==> HasSlot(b, s)
  {
    if b != [] {
      DeleteKeepsSlotsDistinct(b[1..], t);
      var rest := Delete(b[1..], t);
      forall s | HasSlot(rest, s) ensures HasSlot(b[1..], s) && HasSlot(b, s) {
        LookupFindsSlot(rest, s);
        LookupFindsSlot(b[1..], s);
        LookupFindsSlot(b, s);
        DeleteLookup(b[1..], t);
      }
      if b[0].slot != t {
        var r := [b[0]] + rest;
        forall i, j | 0 <= i < j < |r| ensures r[i].slot != r[j].slot {
          if i == 0 {
            assert HasSlot(rest, r[j].slot);
            var m :| 0 <= m < |b[1..]| && b[1..][m].slot == r[j].slot;
            assert b[m + 1].slot == r[j].slot;
          } else {
            assert r[i] == rest[i - 1] && r[j] == rest[j - 1];
          }
        }
      }
    }
  }

  /** `addComponent(t, p)` then `removeComponent(t)` is `removeComponent(t)`:
      the original build with slot `t` emptied, in its original order. */
  lemma {:induction false} PutThenDelete(b: Build, t: ComponentType, p: Product)
    ensures Delete(Put(b, t, p), t) == Delete(b, t)
  {
    if b != [] && b[0].slot != t {
      PutThenDelete(b[1..], t, p);
    }
  }

  /** Overwriting slot `t` changes the total by the new price minus the
      price the slot held (0 if it was empty). */
  lemma {:induction false} TotalAfterPut(b: Build, t: ComponentType, p: Product)
    ensures BuildTotal(Put(b, t, p)) == BuildTotal(b) - WeightAt(b, t, Price) + p.price
  {
    if b == [] {
      var r := [Entry(t, p)];
      assert Put(b, t, p) == r && r[1..] == [];
      assert SumBy(r, Price) == Price(p) + SumBy(r[1..], Price);
      assert WeightAt(b, t, Price) == 0;
    } else if b[0].slot == t {
      assert Put(b, t, p) == [Entry(t, p)] + b[1..];
      assert ([Entry(t, p)] + b[1..])[1..] == b[1..];
    } else {
      TotalAfterPut(b[1..], t, p);
      assert Put(b, t, p) == [b[0]] + Put(b[1..], t, p);
      assert ([b[0]] + Put(b[1..], t, p))[1..] == Put(b[1..], t, p);
    }
  }

  /** Emptying slot `t` lowers the total by the price it held. */
  lemma {:induction false} TotalAfterDelete(b: Build, t: ComponentType)
    requires DistinctSlots(b)
    ensures BuildTotal(Delete(b, t)) == BuildTotal(b) - WeightAt(b, t, Price)
  {
    if b != [] {
      if b[0].slot == t {
        assert !HasSlot(b[1..], t);
        DeleteAbsent(b[1..], t);
        assert Delete(b, t) == b[1..];
      } else {
        TotalAfterDelete(b[1..], t);
      }
    }
  }

  /** Adding an entry for a slot the rest does not hold adds its weight to
      every slot-wise sum that lists the slot once. */
  lemma {:induction false} SumBySlotCons(slots: seq<ComponentType>, e: Entry, rest: Build, w: Product -> int)
    requires !HasSlot(rest, e.slot)
    requires forall i, j :: 0 <= i < j < |slots| ==> slots[i] != slots[j]
    ensures SumBySlot(slots, [e] + rest, w) == SumBySlot(slots, rest, w) + (if e.slot in slots then w(e.product) else 0)
  {
    if slots != [] {
      var b := [e] + rest;
      assert b[1..] == rest;
      SumBySlotCons(slots[1..], e, rest, w);
      LookupFindsSlot(rest, e.slot);
      if slots[0] == e.slot {
        assert e.slot !in slots[1..];
      } else if e.slot in slots {
        assert e.slot in slots[1..];
      }
    }
  }

  lemma {:induction false} SumBySlotOfEmpty(slots: seq<ComponentType>, w: Product -> int)
    ensures SumBySlot(slots, [], w) == 0
  {
    if slots != [] { SumBySlotOfEmpty(slots[1..], w); }
  }

  /** The entry-wise sum equals the slot-wise sum over any list of slots
      that names each slot of the build exactly once. */
  lemma {:induction false} SumBySlotMatches(slots: seq<ComponentType>, b: Build, w: Product -> int)
    requires DistinctSlots(b)
    requires forall i, j :: 0 <= i < j < |slots| ==> slots[i] != slots[j]
    requires forall i :: 0 <= i < |b| ==> b[i].slot in slots
    ensures SumBy(b, w) == SumBySlot(slots, b, w)
  {
    if b == [] {
      SumBySlotOfEmpty(slots, w);
    } else {
      SumBySlotMatches(slots, b[1..], w);
      assert !HasSlot(b[1..], b[0].slot);
      assert b == [b[0]] + b[1..];
      SumBySlotCons(slots, b[0], b[1..], w);
      assert b[0].slot in slots;
      assert SumBy(b, w) == w(b[0].product) + SumBy(b[1..], w);
    }
  }

  lemma AllSlotsComplete()
    ensures forall i, j :: 0 <= i < j < |AllSlots| ==> AllSlots[i] != AllSlots[j]
    ensures forall s: ComponentType :: s in AllSlots
  {
    forall s: ComponentType ensures s in AllSlots {
      match s
      case Cpu => assert AllSlots[0] == s;
      case Motherboard => assert AllSlots[1] == s;
      case Gpu => assert AllSlots[2] == s;
      case Ram => assert AllSlots[3] == s;
      case Storage => assert AllSlots[4] == s;
      case Psu => assert AllSlots[5] == s;
      case Case => assert AllSlots[6] == s;
      case Cooling => assert AllSlots[7] == s;
    }
  }

  /** `getBuildTotal` is the sum of the prices held by the eight slots,
      an empty slot counting 0. */
  lemma BuildTotalBySlot(b: Build)
    requires DistinctSlots(b)
    ensures BuildTotal(b) == SumBySlot(AllSlots, b, Price)
  {
    AllSlotsComplete();
    SumBySlotMatches(AllSlots, b, Price);
  }

  lemma {:induction false} FilledAtMostListed(slots: seq<ComponentType>, b: Build)
    ensures 0 <= SumBySlot(slots, b, One) <= |slots|
    ensures SumBySlot(slots, b, One) == |slots| <==> forall i :: 0 <= i < |slots| ==> HasSlot(b, slots[i])
  {
    if slots != [] {
      FilledAtMostListed(slots[1..], b);
      LookupFindsSlot(b, slots[0]);
      if forall i :: 0 <= i < |slots[1..]| ==> HasSlot(b, slots[1..][i]) {
        assert forall i :: 1 <= i < |slots| ==> HasSlot(b, slots[i]) by {
          forall i | 1 <= i < |slots| ensures HasSlot(b, slots[i]) { assert slots[i] == slots[1..][i - 1]; }
        }
      }
    }
  }

  lemma {:induction false} CountIsSumOfOnes(b: Build)
    ensures SumBy(b, One) == |b|
  {
    if b != [] { CountIsSumOfOnes(b[1..]); }
  }

  /** `getComponentsCount` is the number of filled slots, so it never
      exceeds eight, and it is eight exactly when every slot is filled. */
  lemma ComponentsCountBySlot(b: Build)
    requires DistinctSlots(b)
    ensures ComponentsCount(b) == SumBySlot(AllSlots, b, One)
    ensures ComponentsCount(b) <= 8
    ensures ComponentsCount(b) == 8 <==> AllFilled(b)
  {
    AllSlotsComplete();
    assert |AllSlots| == 8;
    SumBySlotMatches(AllSlots, b, One);
    CountIsSumOfOnes(b);
    FilledAtMostListed(AllSlots, b);
    forall s ensures Lookup(b, s).Some? <==> HasSlot(b, s) { LookupFindsSlot(b, s); }
    var listedFilled := forall i :: 0 <= i < |AllSlots| ==> HasSlot(b, AllSlots[i]);
    var everyFilled := AllFilled(b);
    assert ComponentsCount(b) == 8 <==> listedFilled;
    if everyFilled {
      forall i | 0 <= i < |AllSlots| ensures HasSlot(b, AllSlots[i]) {
        assert Lookup(b, AllSlots[i]).Some?;
      }
    }
    if listedFilled {
      forall s: ComponentType ensures Lookup(b, s).Some? {
        assert s in AllSlots;
        var i :| 0 <= i < |AllSlots| && AllSlots[i] == s;
        assert HasSlot(b, AllSlots[i]);
      }
    }
    assert listedFilled <==> everyFilled;
    assert ComponentsCount(b) == 8 <==> everyFilled;
  }

  /** The builder store. */
  class PCBuilder {
    var build: Build

    ghost predicate Valid()
      reads this
    {
      DistinctSlots(build)
    }

    constructor ()
      ensures build == [] && Valid()
    {
      build := [];
    }

    method AddComponent(t: ComponentType, p: Product)
      requires Valid()
      modifies this
      ensures Valid() && build == Put(old(build), t, p)
      ensures Lookup(build, t) == Some(p)
      ensures forall s :: s != t ==> Lookup(build, s) == Lookup(old(build), s)
      ensures BuildTotal(build) == BuildTotal(old(build)) - WeightAt(old(build), t, Price) + p.price
    {
      PutLookup(build, t, p);
      PutKeepsSlotsDistinct(build, t, p);
      TotalAfterPut(build, t, p);
      build := Put(build, t, p);
    }

    method RemoveComponent(t: ComponentType)
      requires Valid()
      modifies this
      ensures Valid() && build == Delete(old(build), t)
      ensures Lookup(build, t) == None
      ensures forall s :: s != t ==> Lookup(build, s) == Lookup(old(build), s)
      ensures Lookup(old(build), t) == None ==> build == old(build)
      ensures BuildTotal(build) == BuildTotal(old(build)) - WeightAt(old(build), t, Price)
    {
      DeleteLookup(build, t);
      DeleteKeepsSlotsDistinct(build, t);
      TotalAfterDelete(build, t);
      LookupFindsSlot(build, t);
      if !HasSlot(build, t) {
        DeleteAbsent(build, t);
      }
      build := Delete(build, t);
    }

    method ClearBuild()
      modifies this
      ensures Valid() && build == []
      ensures forall s :: Lookup(build, s) == None
      ensures BuildTotal(build) == 0 && ComponentsCount(build) == 0
    {
      build := [];
    }

    function GetBuildTotal(): int
      reads this
    {
      BuildTotal(build)
    }

    function GetComponentsCount(): nat
      reads this
    {
      ComponentsCount(build)
    }
  }
}
