/**
 * Service A, the item store: one table of items and the request handlers that
 * create, list, count, search, read, update and delete them. Each handler is
 * one atomic operation on the table; the table is the sequence of its rows in
 * storage order.
 */
module ItemStore {
  import opened Wrappers
  import opened JsonValue

  /** One row of the `items` table: an integer primary key and a required text value. */
  datatype Item = Item(id: int, value: string)

  /** The error a handler raises, as the HTTP status and detail the client sees. */
  datatype HttpError = HttpError(status: int, detail: string)

  /** The status of a successful delete, whose response has no body. */
  const NoContent := 204

  /** What an id-addressed handler raises when no row has that id. */
  const NotFound := HttpError(404, "Item not found")

  /** The query defaults of the list handler. */
  const DefaultSkip: nat := 0
  const DefaultLimit: nat := 100

  // ---------------------------------------------------------------------------
  // Functions over the rows of the table

  /** Ids grow strictly along storage order; in particular no id occurs twice. */
  ghost predicate IdsIncreasing(items: seq<Item>)
  {
    forall i, j :: 0 <= i < j < |items| ==> items[i].id < items[j].id
  }

  /** Some row has this id. */
  predicate HasId(items: seq<Item>, id: int)
  {
    exists k :: 0 <= k < |items| && items[k].id == id
  }

  /** The ids of the stored rows. */
  function Ids(items: seq<Item>): (ids: set<int>)
    ensures forall id :: id in ids <==> HasId(items, id)
  {
    set k | 0 <= k < |items| :: items[k].id
  }

  /** `q` occurs in `s` starting at position `i`. */
  predicate OccursAt(s: string, q: string, i: nat)
  {
    i + |q| <= |s| && s[i..i + |q|] == q
  }

  /** `s` contains `q` as a contiguous, case-sensitive substring. */
  predicate ContainsSubstring(s: string, q: string)
  {
    exists i: nat | i <= |s| :: OccursAt(s, q, i)
  }

  lemma EmptyIsSubstring(s: string)
    ensures ContainsSubstring(s, "")
  {
    assert OccursAt(s, "", 0);
  }

  /** The position of the first row with this id, as `.filter(id == ...).first()` finds it. */
  function IndexOfId(items: seq<Item>, id: int): (k: Option<nat>)
    ensures k.Some? ==> k.value < |items| && items[k.value].id == id
    ensures k.Some? ==> forall j :: 0 <= j < k.value ==> items[j].id != id
    ensures k.None? <==> !HasId(items, id)
  {
    if items == [] then None
    else if items[0].id == id then Some(0)
    else match IndexOfId(items[1..], id)
      case None => (assert forall j :: 1 <= j < |items| ==> items[j] == items[1..][j - 1]; None)
      case Some(k) => Some(k + 1)
  }

  /** The largest stored id. */
  function MaxId(items: seq<Item>): (m: int)
    requires items != []
    ensures forall k :: 0 <= k < |items| ==> items[k].id <= m
    ensures HasId(items, m)
  {
    if |items| == 1 then items[0].id
    else
      var rest := MaxId(items[1..]);
      assert forall k :: 1 <= k < |items| ==> items[k] == items[1..][k - 1];
      if items[0].id > rest then items[0].id else rest
  }

  /**
   * The id the storage engine gives the next inserted row: one more than the
   * largest stored id, or 1 when the table is empty. After the row holding the
   * largest id is deleted, that id is handed out again.
   */
  function NextId(items: seq<Item>): (id: int)
    ensures forall k :: 0 <= k < |items| ==> items[k].id < id
    ensures !HasId(items, id)
    ensures items == [] ==> id == 1
  {
    if items == [] then 1 else MaxId(items) + 1
  }

  /** The rows whose value contains `q`, in storage order. */
  function Matching(items: seq<Item>, q: string): (found: seq<Item>)
    ensures |found| <= |items|
    ensures forall x :: x in found <==> x in items && ContainsSubstring(x.value, q)
  {
    if items == [] then []
    else
      var rest := Matching(items[1..], q);
      assert forall x :: x in items <==> x == items[0] || x in items[1..];
      if ContainsSubstring(items[0].value, q) then [items[0]] + rest else rest
  }

  /** Every row after the first has a larger id than the first. */
  lemma FirstIdSmallest(items: seq<Item>)
    requires IdsIncreasing(items) && items != []
    ensures IdsIncreasing(items[1..])
    ensures forall x :: x in items[1..] ==> items[0].id < x.id
  {
  }

  /** A search answer keeps storage order: its ids still increase. */
  lemma {:induction false} MatchingKeepsOrder(items: seq<Item>, q: string)
    ensures IdsIncreasing(items) ==> IdsIncreasing(Matching(items, q))
  {
    if items != [] && IdsIncreasing(items) {
      FirstIdSmallest(items);
      MatchingKeepsOrder(items[1..], q);
    }
  }

  lemma {:induction false} MatchingEmptyQuery(items: seq<Item>)
    ensures Matching(items, "") == items
  {
    if items != [] {
      EmptyIsSubstring(items[0].value);
      MatchingEmptyQuery(items[1..]);
    }
  }

  /** The table without the rows holding `id`, the others kept in storage order. */
  function Without(items: seq<Item>, id: int): (rest: seq<Item>)
    ensures |rest| <= |items|
  {
    if items == [] then []
    else
      var tail := Without(items[1..], id);
      if items[0].id == id then tail else [items[0]] + tail
  }

  /** Dropping an id keeps exactly the rows with other ids. */
  lemma {:induction false} WithoutMembers(items: seq<Item>, id: int)
    ensures forall x :: x in Without(items, id) <==> x in items && x.id != id
  {
    if items != [] {
      WithoutMembers(items[1..], id);
      assert forall x :: x in items <==> x == items[0] || x in items[1..];
    }
  }

  /** Dropping an id keeps the remaining ids increasing. */
  lemma {:induction false} WithoutKeepsOrder(items: seq<Item>, id: int)
    requires IdsIncreasing(items)
    ensures IdsIncreasing(Without(items, id))
  {
    if items != [] {
      FirstIdSmallest(items);
      WithoutKeepsOrder(items[1..], id);
      WithoutMembers(items[1..], id);
    }
  }

  /**
   * Removing the row at the one position holding `id` is the same as dropping
   * every row with that id.
   */
  lemma {:induction false} RemoveAtIsWithout(items: seq<Item>, k: nat, id: int)
    requires k < |items| && items[k].id == id
    requires forall j :: 0 <= j < |items| && j != k ==> items[j].id != id
    ensures items[..k] + items[k + 1..] == Without(items, id)
    ensures |Without(items, id)| == |items| - 1
  {
    var tail := items[1..];
    if k == 0 {
      assert Without(tail, id) == tail by {
        assert forall j :: 0 <= j < |tail| ==> tail[j].id != id by {
          forall j | 0 <= j < |tail| ensures tail[j].id != id {
            assert tail[j] == items[j + 1];
          }
        }
        WithoutAbsent(tail, id);
      }
      assert items[..0] + items[1..] == tail;
    } else {
      assert tail[..k - 1] + tail[k..] == Without(tail, id) by {
        assert forall j :: 0 <= j < |tail| && j != k - 1 ==> tail[j].id != id by {
          forall j | 0 <= j < |tail| && j != k - 1 ensures tail[j].id != id {
            assert tail[j] == items[j + 1];
          }
        }
        RemoveAtIsWithout(tail, k - 1, id);
      }
      assert items[0].id != id;
      assert items[..k] + items[k + 1..] == [items[0]] + (tail[..k - 1] + tail[k..]);
    }
  }

  /** Dropping an id no row holds leaves the table as it is. */
  lemma {:induction false} WithoutAbsent(items: seq<Item>, id: int)
    requires forall j :: 0 <= j < |items| ==> items[j].id != id
    ensures Without(items, id) == items
  {
    if items != [] {
      WithoutAbsent(items[1..], id);
    }
  }

  /** The row with id `id` when ids are unique: the row a lookup finds is the only one. */
  lemma UniqueRow(items: seq<Item>, id: int, k: nat)
    requires IdsIncreasing(items)
    requires k < |items| && items[k].id == id
    ensures forall j :: 0 <= j < |items| && items[j].id == id ==> j == k
  {
  }

  function Min(a: nat, b: nat): nat { if a <= b then a else b }

  // ---------------------------------------------------------------------------
  // The table and its handlers

  class Store {
    /** The rows of the `items` table, in storage order. */
    var items: seq<Item>

    ghost predicate Valid()
      reads this
    {
      IdsIncreasing(items)
    }

    /** A store over an empty table. */
    constructor ()
      ensures Valid() && items == []
    {
      items := [];
    }

    /** POST /items: insert one row with a fresh id and return it. */
    method CreateItem(value: string) returns (created: Item)
      requires Valid()
      modifies this
      ensures Valid()
      ensures created.value == value
      ensures created.id !in old(Ids(items)) && created.id == NextId(old(items))
      ensures items == old(items) + [created]
      ensures CountItems() == old(CountItems()) + 1
      ensures ReadItem(created.id) == Success(created)
    {
      created := Item(NextId(items), value);
      items := items + [created];
      assert items[|items| - 1] == created;
    }

    /** GET /items: the window of at most `limit` rows that starts after `skip` rows. */
    function ReadItems(skip: nat := DefaultSkip, limit: nat := DefaultLimit): (page: seq<Item>)
      reads this
      ensures |page| <= limit
      ensures skip >= |items| ==> page == []
      ensures skip < |items| ==> |page| == Min(limit, |items| - skip)
      ensures forall i :: 0 <= i < |page| ==> skip + i < |items| && page[i] == items[skip + i]
    {
      if skip >= |items| then [] else items[skip..skip + Min(limit, |items| - skip)]
    }

    /** GET /items/count: the number of stored rows. */
    function CountItems(): (n: nat)
      reads this
      ensures n == |items|
      ensures n == 0 <==> items == []
    {
      |items|
    }

    /** GET /items/search: every row whose value contains `q`, in storage order. */
    function SearchItems(q: string): (found: seq<Item>)
      reads this
      ensures |found| <= |items|
      ensures forall x :: x in found <==> x in items && ContainsSubstring(x.value, q)
      ensures Valid() ==> IdsIncreasing(found)
      ensures q == "" ==> found == items
    {
      MatchingEmptyQuery(items);
      MatchingKeepsOrder(items, q);
      Matching(items, q)
    }

    /** GET /items/{id}: the row with that id, or 404 "Item not found". */
    function ReadItem(id: int): (r: Result<Item, HttpError>)
      reads this
      ensures r.Success? <==> HasId(items, id)
      ensures r.Success? ==> r.value in items && r.value.id == id
      ensures r.Success? && Valid() ==> forall x :: x in items && x.id == id ==> x == r.value
      ensures r.Failure? ==> r.error == NotFound
    {
      match IndexOfId(items, id)
      case None => Failure(NotFound)
      case Some(k) => Success(items[k])
    }

    /** DELETE /items/{id}: remove the row with that id (an empty 204 answer), or 404 and no change. */
    method DeleteItem(id: int) returns (r: Result<int, HttpError>)
      requires Valid()
      modifies this
      ensures Valid()
      ensures r.Success? <==> old(HasId(items, id))
      ensures r.Success? ==> r.value == NoContent
      ensures r.Failure? ==> r.error == NotFound && items == old(items)
      ensures r.Success? ==> items == Without(old(items), id) && |items| == old(|items|) - 1
      ensures ReadItem(id) == Failure(NotFound)
    {
      var k := IndexOfId(items, id);
      if k.None? {
        return Failure(NotFound);
      }
      UniqueRow(items, id, k.value);
      RemoveAtIsWithout(items, k.value, id);
      WithoutKeepsOrder(items, id);
      WithoutMembers(items, id);
      items := items[..k.value] + items[k.value + 1..];
      assert forall j :: 0 <= j < |items| ==> items[j] in items;
      r := Success(NoContent);
    }

    /** PUT /items/{id}: replace the value of the row with that id, or 404 and no change. */
    method UpdateItem(id: int, value: string) returns (r: Result<Item, HttpError>)
      requires Valid()
      modifies this
      ensures Valid()
      ensures r.Success? <==> old(HasId(items, id))
      ensures r.Failure? ==> r.error == NotFound && items == old(items)
      ensures r.Success? ==> r.value == Item(id, value) && ReadItem(id) == r
      ensures |items| == old(|items|)
      ensures forall k :: 0 <= k < |items| ==>
        items[k] == if old(items[k].id) == id then Item(id, value) else old(items[k])
    {
      var k := IndexOfId(items, id);
      if k.None? {
        return Failure(NotFound);
      }
      UniqueRow(items, id, k.value);
      var updated := Item(id, value);
      items := items[k.value := updated];
      assert items[k.value] == updated;
      r := Success(updated);
    }
  }

  /** GET /health: a fixed liveness answer that touches no table. */
  function HealthCheck(): (body: Json)
    ensures body.JObject? && body.fields.Keys == {"status"}
    ensures body.fields["status"] == JString("healthy")
  {
    Singleton("status", JString("healthy"))
  }

  // ---------------------------------------------------------------------------
  // End-to-end request sequences

  /**
   * Create "apple" on an empty table, search for "app", delete the row, read it
   * again: the row gets id 1, the search finds exactly it, the delete succeeds
   * and the read answers 404.
   */
  method AppleLifecycle() returns (created: Item, found: seq<Item>, deleted: Result<int, HttpError>, after: Result<Item, HttpError>)
    ensures created == Item(1, "apple")
    ensures found == [Item(1, "apple")]
    ensures deleted == Success(NoContent)
    ensures after == Failure(NotFound)
  {
    var store := new Store();
    created := store.CreateItem("apple");
    assert OccursAt("apple", "app", 0);
    found := store.SearchItems("app");
    assert created in found;
    assert |found| <= 1;
    assert HasId(store.items, created.id);
    deleted := store.DeleteItem(created.id);
    after := store.ReadItem(created.id);
  }

  /** Two rows created one after the other are listed in creation order. */
  method ListInCreationOrder() returns (first: Item, second: Item, page: seq<Item>)
    ensures page == [first, second]
    ensures first.value == "test item 1" && second.value == "test item 2"
    ensures first.id != second.id
  {
    var store := new Store();
    first := store.CreateItem("test item 1");
    second := store.CreateItem("test item 2");
    page := store.ReadItems();
  }
}
