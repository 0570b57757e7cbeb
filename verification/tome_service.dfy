/**
 * `TomeService::getTomesForIndex`: the tome index returns every tome while there are at
 * most `paginateThreshold` of them, and one page of a length-aware paginator otherwise.
 */
module TomeService {
  import opened Wrappers
  import opened Text
  import opened JsonValue

  /** The page size an Eloquent model uses when `paginate` is given 0. */
  const ModelPerPage: nat := 15

  /** `getTomesForIndex`'s defaults. */
  const DefaultPerPage: nat := 10
  const DefaultThreshold: int := 10

  /** The paginator's page size: `$perPage ?: $model->getPerPage()`. */
  function PageSize(perPage: nat): (n: nat)
    ensures n > 0
    ensures perPage > 0 ==> n == perPage
  {
    if perPage == 0 then ModelPerPage else perPage
  }

  /** The `page` query parameter when it is an integer of at least 1, and page 1 otherwise. */
  function CurrentPage(requested: Option<int>): (page: nat)
    ensures page >= 1
    ensures requested.Some? && requested.value >= 1 ==> page == requested.value
  {
    if requested.Some? && requested.value >= 1 then requested.value else 1
  }

  /** `lastPage()`: `max((int) ceil($total / $perPage), 1)`. */
  function LastPage(total: nat, size: nat): (last: nat)
    requires size > 0
    ensures last >= 1
    ensures total > 0 ==> (last - 1) * size < total <= last * size
    ensures total == 0 ==> last == 1
  {
    if total == 0 then 1 else (total + size - 1) / size
  }

  /** The items of page `page`: `limit $size offset ($page - 1) * $size`, which is empty past the end. */
  function PageItems<T>(tomes: seq<T>, size: nat, page: nat): (items: seq<T>)
    requires size > 0 && page >= 1
    ensures |items| <= size
    ensures (page - 1) * size >= |tomes| ==> items == []
    ensures (page - 1) * size < |tomes| ==> items == tomes[(page - 1) * size..if page * size < |tomes| then page * size else |tomes|]
  {
    var from := (page - 1) * size;
    if from >= |tomes| then [] else tomes[from..if page * size < |tomes| then page * size else |tomes|]
  }

  /** `url($page)`: the index path with the page as its query string. */
  function PageUrl(path: string, page: nat): string
  {
    path + "?page=" + NatToString(page)
  }

  /** The index: the tomes returned, and the `meta` array. */
  datatype TomeIndex<T> = TomeIndex(data: seq<T>, meta: map<string, Json>)

  /** The `meta` keys of a paginated index. */
  const PageKeys: set<string> :=
    {"total", "count", "per_page", "current_page", "last_page", "next_page_url", "prev_page_url", "timestamp"}

  /**
   * `getTomesForIndex($perPage, $paginateThreshold)` over the tomes in query order, with the
   * requested page, the index path and the time of the call.
   */
  function GetTomesForIndex<T>(tomes: seq<T>, perPage: nat, threshold: int, requested: Option<int>,
                               path: string, timestamp: string): (index: TomeIndex<T>)
    ensures "total" in index.meta && index.meta["total"] == JInt(|tomes|)
    ensures |tomes| <= threshold ==> index.data == tomes && index.meta.Keys == {"total", "timestamp"}
    ensures |tomes| > threshold ==>
              && index.meta.Keys == PageKeys
              && index.meta["count"] == JInt(|index.data|)
              && index.meta["per_page"] == JInt(PageSize(perPage))
              && index.data == PageItems(tomes, PageSize(perPage), CurrentPage(requested))
              && index.meta["current_page"] == JInt(CurrentPage(requested))
              && index.meta["last_page"] == JInt(LastPage(|tomes|, PageSize(perPage)))
  {
    if |tomes| > threshold then
      var size := PageSize(perPage);
      var page := CurrentPage(requested);
      var last := LastPage(|tomes|, size);
      var items := PageItems(tomes, size, page);
      TomeIndex(items, map[
        "total" := JInt(|tomes|),
        "count" := JInt(|items|),
        "per_page" := JInt(size),
        "current_page" := JInt(page),
        "last_page" := JInt(last),
        "next_page_url" := if page < last then JStr(PageUrl(path, page + 1)) else JNull,
        "prev_page_url" := if page > 1 then JStr(PageUrl(path, page - 1)) else JNull,
        "timestamp" := JStr(timestamp)])
    else
      TomeIndex(tomes, map["total" := JInt(|tomes|), "timestamp" := JStr(timestamp)])
  }

  // ---------------------------------------------------------------------------
  // The pages

  /** Pages `from` to `last`, one after another. */
  function PagesFrom<T>(tomes: seq<T>, size: nat, from: nat, last: nat): seq<T>
    requires size > 0 && from >= 1
    decreases last + 1 - from
  {
    if from > last then [] else PageItems(tomes, size, from) + PagesFrom(tomes, size, from + 1, last)
  }

  lemma MulMono(a: int, b: int, size: nat)
    requires a <= b
    ensures a * size <= b * size
  {
    assert b * size - a * size == (b - a) * size;
  }

  /** From page `from` on, the pages are the tomes from that page's offset on. */
  lemma {:induction false} PagesFromSuffix<T>(tomes: seq<T>, size: nat, from: nat, last: nat)
    requires size > 0 && from >= 1 && last >= 1
    requires (|tomes| == 0 && last == 1) || ((last - 1) * size < |tomes| <= last * size)
    requires (from - 1) * size <= |tomes|
    ensures PagesFrom(tomes, size, from, last) == tomes[(from - 1) * size..]
    decreases last + 1 - from
  {
    var off := (from - 1) * size;
    assert from * size == off + size;
    if from > last {
      MulMono(last, from - 1, size);
      assert off == |tomes|;
    } else if from == last {
      assert |tomes| <= from * size;
      assert PageItems(tomes, size, from) == tomes[off..];
      assert PagesFrom(tomes, size, from + 1, last) == [];
    } else {
      MulMono(from, last - 1, size);
      assert off + size < |tomes|;
      assert PageItems(tomes, size, from) == tomes[off..off + size];
      PagesFromSuffix(tomes, size, from + 1, last);
      assert tomes[off..off + size] + tomes[off + size..] == tomes[off..];
    }
  }

  /** The pages from the first to the last, put together, are all the tomes in order, each once. */
  lemma PagesCoverAll<T>(tomes: seq<T>, size: nat)
    requires size > 0
    ensures PagesFrom(tomes, size, 1, LastPage(|tomes|, size)) == tomes
  {
    PagesFromSuffix(tomes, size, 1, LastPage(|tomes|, size));
  }

  /**
   * The first page has no previous page and the last has no next one; otherwise the links
   * lead to the neighbouring pages.
   */
  lemma PageLinks<T>(tomes: seq<T>, perPage: nat, threshold: int, requested: Option<int>, path: string, timestamp: string)
    requires |tomes| > threshold
    ensures var index := GetTomesForIndex(tomes, perPage, threshold, requested, path, timestamp);
            var page := CurrentPage(requested);
            var last := LastPage(|tomes|, PageSize(perPage));
            && (index.meta["prev_page_url"] == JNull <==> page == 1)
            && (index.meta["next_page_url"] == JNull <==> page >= last)
            && (page > 1 ==> index.meta["prev_page_url"] == JStr(PageUrl(path, page - 1)))
            && (page < last ==> index.meta["next_page_url"] == JStr(PageUrl(path, page + 1)))
  {
  }

  /** Five tomes stay under the default threshold: all five, total 5, no `current_page`. */
  lemma FiveTomesNotPaginated<T>(tomes: seq<T>, path: string, timestamp: string)
    requires |tomes| == 5
    ensures var index := GetTomesForIndex(tomes, DefaultPerPage, DefaultThreshold, None, path, timestamp);
            |index.data| == 5 && index.meta["total"] == JInt(5) && "current_page" !in index.meta
  {
  }

  /** Fifteen tomes exceed it: the first ten, total 15, page 1 of 2. */
  lemma FifteenTomesPaginated<T>(tomes: seq<T>, path: string, timestamp: string)
    requires |tomes| == 15
    ensures var index := GetTomesForIndex(tomes, DefaultPerPage, DefaultThreshold, None, path, timestamp);
            && index.data == tomes[..10] && index.meta["total"] == JInt(15)
            && index.meta["current_page"] == JInt(1) && index.meta["last_page"] == JInt(2)
  {
    assert LastPage(15, 10) == 2;
  }

  /** Their second page holds the remaining five, links back to the first, and is the last. */
  lemma FifteenTomesSecondPage<T>(tomes: seq<T>, path: string, timestamp: string)
    requires |tomes| == 15
    ensures var index := GetTomesForIndex(tomes, DefaultPerPage, DefaultThreshold, Some(2), path, timestamp);
            && index.data == tomes[10..] && index.meta["count"] == JInt(5)
            && index.meta["prev_page_url"] == JStr(PageUrl(path, 1)) && index.meta["next_page_url"] == JNull
  {
    assert LastPage(15, 10) == 2;
  }

  /** The threshold is exclusive: exactly `threshold` tomes are still returned whole. */
  lemma ThresholdIsExclusive<T>(tomes: seq<T>, perPage: nat, requested: Option<int>, path: string, timestamp: string)
    ensures var index := GetTomesForIndex(tomes, perPage, |tomes|, requested, path, timestamp);
            index.data == tomes && "count" !in index.meta
  {
  }
}
