/**
 * The category cache behind `getCategories` and the empty search hit
 * `emptyHit`. The server's category search answers with hits, each an `_id`
 * and a `_source` object; the cache keeps them as an ordered list of
 * categories (the source object with `id` set to the hit's id) together with a
 * lookup by id over the same entries. The list is fetched only while it is
 * empty.
 */
module Categories {
  import opened Values
  import opened Templater
  import opened Resources

  /** One search hit: `_id`, `_index`, `_type`, `_version` and `_source`. */
  datatype Hit = Hit(id: Value, index: Value, kind: Value, version: Value, source: Fields)

  /** The `hits` part of a search answer: `hits.total` and `hits.hits`. */
  datatype SearchResult = SearchResult(total: int, hits: seq<Hit>)

  /** `emptyHit()`: a hit with null metadata and an empty source. */
  function EmptyHit(): (h: Hit)
    ensures h.id == Null && h.index == Null && h.kind == Null && h.version == Null
    ensures h.source == map[]
  {
    Hit(Null, Null, Null, Null, map[])
  }

  /** The category a hit contributes: its source with `id` set to the hit's id. */
  function Entry(hit: Hit): Fields
  {
    hit.source["id" := hit.id]
  }

  /** The list built by the `reduce` over the hits. */
  function Annotate(hits: seq<Hit>): seq<Fields>
    decreases |hits|
  {
    if hits == [] then [] else Annotate(hits[..|hits| - 1]) + [Entry(hits[|hits| - 1])]
  }

  /** The property name a category is filed under: `String(cat.id)`. */
  function IdKey(cat: Fields): string
  {
    ToText(Get(cat, "id"))
  }

  /** The lookup built by the `forEach` over the list, later entries overwriting earlier ones. */
  function IndexById(cats: seq<Fields>): map<string, Fields>
    decreases |cats|
  {
    if cats == [] then map[]
    else IndexById(cats[..|cats| - 1])[IdKey(cats[|cats| - 1]) := cats[|cats| - 1]]
  }

  /** One category per hit, in hit order: entry `i` is hit `i`'s source with `id` set to its id. */
  lemma {:induction false} AnnotateAt(hits: seq<Hit>)
    ensures |Annotate(hits)| == |hits|
    ensures forall i :: 0 <= i < |hits| ==> Annotate(hits)[i] == hits[i].source["id" := hits[i].id]
    decreases |hits|
  {
    if hits != [] {
      AnnotateAt(hits[..|hits| - 1]);
    }
  }

  /** Every category is filed under its own id. */
  lemma {:induction false} IndexByIdKeys(cats: seq<Fields>)
    ensures forall k :: k in IndexById(cats) <==> exists i :: 0 <= i < |cats| && IdKey(cats[i]) == k
    decreases |cats|
  {
    if cats != [] {
      var init := cats[..|cats| - 1];
      IndexByIdKeys(init);
      forall k | k in IndexById(cats) ensures exists i :: 0 <= i < |cats| && IdKey(cats[i]) == k {
        if k != IdKey(cats[|cats| - 1]) {
          assert k in IndexById(init);
          var i :| 0 <= i < |init| && IdKey(init[i]) == k;
          assert cats[i] == init[i];
        }
      }
      forall k | exists i :: 0 <= i < |cats| && IdKey(cats[i]) == k ensures k in IndexById(cats) {
        var i :| 0 <= i < |cats| && IdKey(cats[i]) == k;
        if i < |init| {
          assert init[i] == cats[i];
        }
      }
    }
  }

  /** Category `i` carries id `k` and no later category does. */
  predicate LastWithId(cats: seq<Fields>, i: int, k: string)
    requires 0 <= i < |cats|
  {
    IdKey(cats[i]) == k && forall j :: i < j < |cats| ==> IdKey(cats[j]) != k
  }

  /**
   * The lookup holds, under each id, the LAST category with that id: it is one
   * of the categories, it carries that id, and no later category does.
   */
  lemma {:induction false} IndexByIdLastWins(cats: seq<Fields>, k: string)
    requires k in IndexById(cats)
    ensures exists i :: 0 <= i < |cats| && IndexById(cats)[k] == cats[i] && LastWithId(cats, i, k)
    decreases |cats|
  {
    var init, last := cats[..|cats| - 1], cats[|cats| - 1];
    if k == IdKey(last) {
      assert IndexById(cats)[k] == cats[|cats| - 1];
    } else {
      IndexByIdLastWins(init, k);
      var i :| 0 <= i < |init| && IndexById(init)[k] == init[i] && LastWithId(init, i, k);
      assert cats[i] == init[i];
      forall j | i < j < |cats| ensures IdKey(cats[j]) != k {
        if j < |init| {
          assert cats[j] == init[j];
        }
      }
      assert LastWithId(cats, i, k);
    }
  }

  /** Looking up a category by its id gives a category with that id. */
  lemma LookupCarriesId(cats: seq<Fields>, k: string)
    requires k in IndexById(cats)
    ensures IdKey(IndexById(cats)[k]) == k
  {
    IndexByIdLastWins(cats, k);
  }

  /** The cache ends up non-empty (so later calls are answered from it) exactly when the answer had hits and a non-zero total. */
  lemma CacheFilledIff(search: SearchResult)
    ensures (if search.total == 0 then [] else Annotate(search.hits)) != []
        <==> search.total != 0 && search.hits != []
  {
    AnnotateAt(search.hits);
  }

  /** Of two hits with the same id, the lookup keeps the later one; both stay in the list. */
  lemma DuplicateIdLaterWins(first: Hit, second: Hit)
    requires first.id == second.id
    ensures Annotate([first, second]) == [Entry(first), Entry(second)]
    ensures IndexById(Annotate([first, second])) == map[ToText(first.id) := Entry(second)]
  {
    var hits := [first, second];
    assert hits[..1] == [first] && [first][..0] == [];
    assert Annotate([first]) == [Entry(first)];
    assert Annotate(hits) == [Entry(first), Entry(second)];
    var cats := [Entry(first), Entry(second)];
    assert cats[..1] == [Entry(first)] && [Entry(first)][..0] == [];
    assert IdKey(Entry(first)) == ToText(first.id) == IdKey(Entry(second));
    assert IndexById([Entry(first)]) == map[ToText(first.id) := Entry(first)];
  }

  /** An empty hit would be filed as a category with a null id, under the key "null". */
  lemma EmptyHitCategory()
    ensures Annotate([EmptyHit()]) == [map["id" := Null]]
    ensures IndexById(Annotate([EmptyHit()])) == map["null" := map["id" := Null]]
  {
    assert [EmptyHit()][..0] == [];
  }

  /** The category search request: a GET with no query parameters. */
  function SearchRequest(server: string): Request
  {
    Request(GetVerb, CategorySearchUri(server), map[], None)
  }

  /**
   * A registry client's category state: the `categories` array, whose elements
   * are `list` and whose id-named properties are `byId`.
   */
  class CategoryCache {
    const server: string
    var list: seq<Fields>
    var byId: map<string, Fields>

    /** The lookup is the index of the list. */
    ghost predicate Valid()
      reads this
    {
      byId == IndexById(list)
    }

    constructor(server: string)
      ensures Valid()
      ensures this.server == server && list == [] && byId == map[]
    {
      this.server := server;
      list := [];
      byId := map[];
    }

    /**
     * `getCategories()`. `decode` reads `hits.total` and `hits.hits` out of
     * the answer's body; a body it cannot read rejects with the error raised.
     */
    method GetCategories(http: Http, decode: Value -> Result<SearchResult, Value>)
      returns (o: Run<seq<Fields>>)
      requires Valid()
      modifies this
      ensures Valid()
      // a non-empty cache answers at once, without a request
      ensures old(list) != [] ==>
        o == Run(Success(old(list)), []) && list == old(list) && byId == old(byId)
      ensures old(list) == [] ==> o.calls == [HttpCall(SearchRequest(server))]
      // a failed fetch rejects with the error and leaves the cache as it was
      ensures old(list) == [] ==>
        var answer := Settle(http(SearchRequest(server)));
        var search := if answer.Success? then decode(answer.value) else Failure(answer.error);
        && (search.Failure? ==> o.result == Failure(search.error) && list == old(list) && byId == old(byId))
        && (search.Success? ==>
              && list == (if search.value.total == 0 then [] else Annotate(search.value.hits))
              && o.result == Success(list))
    {
      if list != [] {
        return Run(Success(list), []);
      }
      var fetched := GetResource(CategorySearchUri(server), Absent, http);
      assert fetched.calls == [HttpCall(SearchRequest(server))];
      var search := if fetched.result.Success? then decode(fetched.result.value) else Failure(fetched.result.error);
      if search.Failure? {
        return Run(Failure(search.error), fetched.calls);
      }
      var res := search.value;
      if res.total == 0 {
        list := [];
        byId := map[];
      } else {
        var hits := res.hits;
        var cats: seq<Fields> := [];
        var i := 0;
        while i < |hits|
          invariant 0 <= i <= |hits|
          invariant cats == Annotate(hits[..i])
        {
          var cat := hits[i].source;
          cat := cat["id" := hits[i].id];
          cats := cats + [cat];
          assert hits[..i + 1][..i] == hits[..i];
          i := i + 1;
        }
        assert hits[..i] == hits;
        list := cats;
        byId := map[];
        var j := 0;
        while j < |list|
          invariant 0 <= j <= |list|
          invariant list == cats
          invariant byId == IndexById(list[..j])
        {
          byId := byId[IdKey(list[j]) := list[j]];
          assert list[..j + 1][..j] == list[..j];
          j := j + 1;
        }
        assert list[..j] == list;
      }
      o := Run(Success(list), fetched.calls);
    }
  }
}
