/** The in-memory product store: a module-level list seeded with three
    products, read by `getAll`/`getById` and changed by `create`, `update`
    and `remove`. Ids are not required to be unique: `create` appends
    whatever it is given, and `update`/`remove` act on every match. */
module Store {
  import opened Wrappers
  import opened Records
  import opened Lists

  /** The three starter products. */
  function Seed(): seq<Record>
  {
    [ map["id" := Str("1"), "name" := Str("Laptop"),
          "description" := Str("High-performance laptop with 16GB RAM"),
          "price" := Num(1200), "category" := Str("electronics"), "inStock" := Bool(true)],
      map["id" := Str("2"), "name" := Str("Smartphone"),
          "description" := Str("Latest model with 128GB storage"),
          "price" := Num(800), "category" := Str("electronics"), "inStock" := Bool(true)],
      map["id" := Str("3"), "name" := Str("Coffee Maker"),
          "description" := Str("Programmable coffee maker with timer"),
          "price" := Num(50), "category" := Str("kitchen"), "inStock" := Bool(false)] ]
  }

  /** `products.find(p => p.id === id) || null`. */
  function Find(s: seq<Record>, id: string): (r: Option<Record>)
    ensures r.Some? ==> r.value in s && HasId(r.value, id)
  {
    if s == [] then None
    else if HasId(s[0], id) then Some(s[0])
    else Find(s[1..], id)
  }

  /** How many records carry the id. */
  function Occurrences(s: seq<Record>, id: string): nat
  {
    CountIf(s, (p: Record) => HasId(p, id))
  }

  /** `products.map(p => p.id === id ? u : p)`. */
  function Replaced(s: seq<Record>, id: string, u: Record): seq<Record>
  {
    seq(|s|, i requires 0 <= i < |s| => if HasId(s[i], id) then u else s[i])
  }

  /** `products.filter(p => p.id !== id)`. */
  function Without(s: seq<Record>, id: string): seq<Record>
  {
    Keep(s, (p: Record) => !HasId(p, id))
  }

  class ProductStore {
    var products: seq<Record>

    /** The module is loaded with the seed list. */
    constructor ()
      ensures products == Seed()
    {
      products := Seed();
    }

    /** `getAll`: a copy of the list, same elements in the same order. */
    method GetAll() returns (r: seq<Record>)
      ensures r == products
    {
      r := products;
    }

    /** `getById`: the first record with the id, or nothing. */
    method GetById(id: string) returns (r: Option<Record>)
      ensures r == Find(products, id)
    {
      var i := 0;
      while i < |products|
        invariant 0 <= i <= |products|
        invariant Find(products[i..], id) == Find(products, id)
      {
        assert products[i..][1..] == products[i + 1..];
        if HasId(products[i], id) {
          return Some(products[i]);
        }
        i := i + 1;
      }
      return None;
    }

    /** `create`: push at the end, without any id check. */
    method Create(p: Record)
      modifies this
      ensures products == old(products) + [p]
      ensures |products| == |old(products)| + 1
      ensures products[..|old(products)|] == old(products) && products[|old(products)|] == p
    {
      products := products + [p];
    }

    /** `update`: every record with the id is replaced by `u`, every other
        record stays where it was. */
    method Update(id: string, u: Record)
      modifies this
      ensures products == Replaced(old(products), id, u)
      ensures |products| == |old(products)|
      ensures forall i :: 0 <= i < |products| ==>
        products[i] == if HasId(old(products)[i], id) then u else old(products)[i]
    {
      products := Replaced(products, id, u);
    }

    /** `remove`: keep exactly the records with a different id, in order. */
    method Remove(id: string)
      modifies this
      ensures products == Without(old(products), id)
      ensures |products| == |old(products)| - Occurrences(old(products), id)
      ensures Find(products, id) == None
    {
      RemoveLength(products, id);
      RemoveDropsId(products, id);
      products := Without(products, id);
    }
  }

  /** The seed holds three records with ids '1', '2', '3'; two are
      electronics and one is kitchen. */
  lemma SeedFacts()
    ensures |Seed()| == 3
    ensures HasId(Seed()[0], "1") && HasId(Seed()[1], "2") && HasId(Seed()[2], "3")
    ensures forall i, j :: 0 <= i < j < 3 ==> Seed()[i]["id"] != Seed()[j]["id"]
    ensures Seed()[0]["category"] == Str("electronics") && Seed()[1]["category"] == Str("electronics")
    ensures Seed()[2]["category"] == Str("kitchen")
  {
  }

  /** `Find` returns nothing exactly when no record carries the id. */
  lemma {:induction false} FindAbsent(s: seq<Record>, id: string)
    ensures Find(s, id) == None <==> forall i :: 0 <= i < |s| ==> !HasId(s[i], id)
  {
    if s != [] {
      FindAbsent(s[1..], id);
      assert forall i :: 1 <= i < |s| ==> s[i] == s[1..][i - 1];
    }
  }

  /** `Find` returns the first record that carries the id. */
  lemma {:induction false} FindFirst(s: seq<Record>, id: string, i: int)
    requires 0 <= i < |s| && HasId(s[i], id)
    requires forall j :: 0 <= j < i ==> !HasId(s[j], id)
    ensures Find(s, id) == Some(s[i])
  {
    if i > 0 {
      FindFirst(s[1..], id, i - 1);
    }
  }

  /** The index of the record `Find` returns. */
  lemma {:induction false} FindIndex(s: seq<Record>, id: string) returns (i: nat)
    requires Find(s, id).Some?
    ensures i < |s| && s[i] == Find(s, id).value
    ensures forall j :: 0 <= j < i ==> !HasId(s[j], id)
  {
    if HasId(s[0], id) {
      i := 0;
    } else {
      var k := FindIndex(s[1..], id);
      i := k + 1;
    }
  }

  /** No record carries the id exactly when it occurs zero times. */
  lemma {:induction false} OccurrencesZero(s: seq<Record>, id: string)
    ensures Occurrences(s, id) == 0 <==> Find(s, id) == None
  {
    CountIfZero(s, (p: Record) => HasId(p, id));
    FindAbsent(s, id);
  }

  /** After `create(p)` with a new id, `getById` finds `p`. */
  lemma {:induction false} FindAfterCreate(s: seq<Record>, p: Record, id: string)
    requires Find(s, id) == None && HasId(p, id)
    ensures Find(s + [p], id) == Some(p)
  {
    FindAbsent(s, id);
    FindFirst(s + [p], id, |s|);
  }

  /** After `create(p)` with an id already present, `getById` still returns
      the older record: the new one is shadowed, and the id now occurs once
      more than before. */
  lemma {:induction false} CreateDuplicate(s: seq<Record>, p: Record, id: string)
    requires Find(s, id).Some? && HasId(p, id)
    ensures Find(s + [p], id) == Find(s, id)
    ensures Occurrences(s + [p], id) == Occurrences(s, id) + 1
  {
    var i := FindIndex(s, id);
    FindFirst(s + [p], id, i);
    CountIfAppend(s, p, (q: Record) => HasId(q, id));
  }

  /** `update` with an id that matches nothing leaves the list identical. */
  lemma {:induction false} UpdateAbsent(s: seq<Record>, id: string, u: Record)
    requires Find(s, id) == None
    ensures Replaced(s, id, u) == s
  {
    FindAbsent(s, id);
  }

  /** After `update(id, u)`, `getById(id)` gives `u` when `u` keeps the id,
      and nothing when `u` carries another id. */
  lemma {:induction false} FindAfterUpdate(s: seq<Record>, id: string, u: Record)
    requires Find(s, id).Some?
    ensures HasId(u, id) ==> Find(Replaced(s, id, u), id) == Some(u)
    ensures !HasId(u, id) ==> Find(Replaced(s, id, u), id) == None
  {
    var r := Replaced(s, id, u);
    var i := FindIndex(s, id);
    if HasId(u, id) {
      FindFirst(r, id, i);
    } else {
      FindAbsent(r, id);
    }
  }

  /** After `remove(id)` no record carries the id, and a record is still
      there exactly when it was before and carries another id. */
  lemma {:induction false} RemoveDropsId(s: seq<Record>, id: string)
    ensures Find(Without(s, id), id) == None
    ensures forall x :: x in Without(s, id) <==> x in s && !HasId(x, id)
  {
    forall x ensures x in Without(s, id) <==> x in s && !HasId(x, id) {
      KeepMembers(s, (p: Record) => !HasId(p, id), x);
    }
    var w := Without(s, id);
    forall i | 0 <= i < |w| ensures !HasId(w[i], id) {
      assert w[i] in w;
    }
    FindAbsent(w, id);
  }

  /** `remove(id)` shortens the list by the number of records with the id:
      by zero when the id is absent. */
  lemma {:induction false} RemoveLength(s: seq<Record>, id: string)
    ensures |Without(s, id)| == |s| - Occurrences(s, id)
    ensures Find(s, id) == None ==> Without(s, id) == s
  {
    KeepLength(s, (p: Record) => !HasId(p, id), (p: Record) => HasId(p, id));
    FindAbsent(s, id);
    if Find(s, id) == None {
      KeepAll(s, (p: Record) => !HasId(p, id));
    }
  }
}
