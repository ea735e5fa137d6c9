/**
 * The web-search agent: the search service's response is normalised to a list,
 * filtered down to the dictionary items with exactly a title, a content and a
 * URL, and the call is retried a bounded number of times, with errors reported
 * in the returned dictionary rather than raised.
 */
module GoogleSearch {
  import opened Wrappers
  import opened Strings

  /** One element of the service's result list: a dictionary (of strings), or anything else. */
  datatype Item = ItemDict(fields: map<string, string>) | ItemOther

  /** The service's response: a dictionary with or without a `results` entry, a list, or anything else. */
  datatype Response = RDict(results: Option<seq<Item>>) | RList(items: seq<Item>) | ROther

  datatype Simplified = Simplified(title: string, content: string, url: string)

  /** The dictionary `search_with_retry` returns, by its `status`. */
  datatype SearchResult =
    | NoResults(message: string)
    | Success(query: string, results: seq<Simplified>, timestamp: string)
    | Error(message: string)

  const NoTitle := "Không có tiêu đề"
  const NoContent := "Không có nội dung"
  const NoUrl := "Không có URL"
  const NothingFound := "Không tìm thấy kết quả nào."
  const NothingUsable := "Không thể xử lý kết quả tìm kiếm."

  /** `search_results`: a dictionary gives its `results` (default `[]`), a list gives itself, anything else `[]`. */
  function Normalise(resp: Response): (items: seq<Item>)
    ensures resp.ROther? ==> items == []
    ensures resp.RList? ==> items == resp.items
    ensures resp.RDict? ==> items == resp.results.GetOr([])
  {
    match resp
    case RDict(results) => results.GetOr([])
    case RList(items) => items
    case ROther => []
  }

  function Get(m: map<string, string>, key: string, default: string): string {
    if key in m then m[key] else default
  }

  /** The three fields kept from a dictionary item, each with its fixed default. */
  function SimplifyItem(fields: map<string, string>): Simplified {
    Simplified(Get(fields, "title", NoTitle), Get(fields, "content", NoContent), Get(fields, "url", NoUrl))
  }

  /** The dictionary items of `items`, in order, each simplified; other items are skipped. */
  function SimplifiedAll(items: seq<Item>): (r: seq<Simplified>)
    ensures |r| <= |items|
    decreases |items|
  {
    if |items| == 0 then []
    else
      var rest := SimplifiedAll(items[..|items| - 1]);
      match items[|items| - 1]
      case ItemDict(fields) => rest + [SimplifyItem(fields)]
      case ItemOther => rest
  }

  function CountDicts(items: seq<Item>): nat
    decreases |items|
  {
    if |items| == 0 then 0 else (if items[0].ItemDict? then 1 else 0) + CountDicts(items[1..])
  }

  /** The filter splits over concatenation. */
  lemma {:induction false} SimplifiedAppend(a: seq<Item>, b: seq<Item>)
    ensures SimplifiedAll(a + b) == SimplifiedAll(a) + SimplifiedAll(b)
    decreases |b|
  {
    if |b| == 0 {
      assert a + b == a;
    } else {
      assert (a + b)[..|a + b| - 1] == a + b[..|b| - 1];
      assert (a + b)[|a + b| - 1] == b[|b| - 1];
      SimplifiedAppend(a, b[..|b| - 1]);
    }
  }

  /** Exactly one simplified entry per dictionary item: none are dropped and nothing else is kept. */
  lemma {:induction false} SimplifiedCount(items: seq<Item>)
    ensures |SimplifiedAll(items)| == CountDicts(items)
    decreases |items|
  {
    if |items| > 0 {
      SimplifiedAppend([items[0]], items[1..]);
      assert [items[0]] + items[1..] == items;
      assert SimplifiedAll([items[0]]) == SimplifiedAll([]) + (if items[0].ItemDict? then [SimplifyItem(items[0].fields)] else []);
      SimplifiedCount(items[1..]);
    }
  }

  /** Nothing survives the filter exactly when no item is a dictionary. */
  lemma {:induction false} SimplifiedEmptyIff(items: seq<Item>)
    ensures SimplifiedAll(items) == [] <==> forall i :: 0 <= i < |items| ==> items[i].ItemOther?
    decreases |items|
  {
    if |items| > 0 {
      SimplifiedEmptyIff(items[..|items| - 1]);
      assert forall i :: 0 <= i < |items| - 1 ==> items[..|items| - 1][i] == items[i];
    }
  }

  /** The loop that builds `simplified_results`, one item at a time. */
  method Simplify(items: seq<Item>) returns (out: seq<Simplified>)
    ensures out == SimplifiedAll(items)
  {
    out := [];
    var i := 0;
    while i < |items|
      invariant 0 <= i <= |items|
      invariant out == SimplifiedAll(items[..i])
    {
      assert items[..i + 1] == items[..i] + [items[i]];
      SimplifiedAppend(items[..i], [items[i]]);
      if items[i].ItemDict? {
        out := out + [SimplifyItem(items[i].fields)];
      }
      i := i + 1;
    }
    assert items[..i] == items;
  }

  /** What one attempt returns when the service call does not raise. */
  function Processed(resp: Response, query: string, timestamp: string): (r: SearchResult)
    ensures r.Success? ==> |r.results| > 0 && r.query == query
    ensures !r.Error?
  {
    var raw := Normalise(resp);
    if |raw| == 0 then NoResults(NothingFound)
    else
      var simplified := SimplifiedAll(raw);
      if |simplified| == 0 then NoResults(NothingUsable)
      else Success(query, simplified, timestamp)
  }

  /** An empty raw result list is reported as `no_results` with the first message;
      a non-empty one with no dictionary item with the second; otherwise the result
      is a success carrying every dictionary item. */
  lemma ProcessedCases(resp: Response, query: string, timestamp: string)
    ensures Normalise(resp) == [] ==> Processed(resp, query, timestamp) == NoResults(NothingFound)
    ensures Normalise(resp) != [] && (forall i :: 0 <= i < |Normalise(resp)| ==> Normalise(resp)[i].ItemOther?) ==>
      Processed(resp, query, timestamp) == NoResults(NothingUsable)
    ensures Processed(resp, query, timestamp).Success? ==>
      |Processed(resp, query, timestamp).results| == CountDicts(Normalise(resp))
  {
    SimplifiedEmptyIff(Normalise(resp));
    SimplifiedCount(Normalise(resp));
  }

  function ExhaustedMessage(maxRetries: int, lastError: string): string {
    "Đã thử " + IntToString(maxRetries) + " lần nhưng vẫn thất bại: " + lastError
  }

  /** `search_with_retry`: `invoke(k)` is the service's response on attempt `k`
      (or the exception it raised) and `timestamp` the formatted clock reading.
      The first response that does not raise decides the result, whatever it is;
      after `maxRetries` exceptions an `error` result is returned instead of raising.
      No sleep follows the last failure; with `maxRetries <= 0` the result is None. */
  method SearchWithRetry(maxRetries: int, query: string, invoke: nat -> Call<Response>, timestamp: string)
    returns (r: Option<SearchResult>, attempts: nat, sleeps: nat)
    ensures maxRetries <= 0 ==> r == None && attempts == 0
    ensures maxRetries > 0 ==> r.Some? && 1 <= attempts <= maxRetries
    ensures sleeps == if attempts == 0 then 0 else attempts - 1
    ensures forall k :: 0 <= k < attempts - 1 ==> invoke(k).Raised?
    ensures r.Some? && !r.value.Error? ==>
      invoke(attempts - 1).Returned? && r.value == Processed(invoke(attempts - 1).value, query, timestamp)
    ensures r.Some? && r.value.Error? <==>
      maxRetries > 0 && attempts == maxRetries && invoke(attempts - 1).Raised?
    ensures r.Some? && r.value.Error? ==>
      r.value.message == ExhaustedMessage(maxRetries, invoke(attempts - 1).error)
  {
    var retries: nat := 0;
    sleeps := 0;
    while retries < maxRetries
      invariant retries == 0 || retries < maxRetries
      invariant sleeps == retries
      invariant forall k :: 0 <= k < retries ==> invoke(k).Raised?
    {
      var response := invoke(retries);
      if response.Returned? {
        var raw := Normalise(response.value);
        if |raw| == 0 {
          return Some(NoResults(NothingFound)), retries + 1, sleeps;
        }
        var simplified := Simplify(raw);
        if |simplified| == 0 {
          return Some(NoResults(NothingUsable)), retries + 1, sleeps;
        }
        return Some(Success(query, simplified, timestamp)), retries + 1, sleeps;
      }
      retries := retries + 1;
      if retries == maxRetries {
        return Some(Error(ExhaustedMessage(maxRetries, response.error))), retries, sleeps;
      }
      sleeps := sleeps + 1;
    }
    r, attempts := None, 0;
  }

  // ---------------------------------------------------------------- query helpers

  const StockPricePrefix := "giá cổ phiếu "
  const StockPriceSuffix := " hiện tại mới nhất"
  const CompanyNewsPrefix := "tin tức mới nhất về công ty "
  const MarketTrendsQuery := "xu hướng thị trường chứng khoán hiện tại"

  /** The query `get_latest_stock_price` searches for. */
  function StockPriceQuery(symbol: string): string {
    StockPricePrefix + symbol + StockPriceSuffix
  }

  /** The query `get_company_news` searches for. */
  function CompanyNewsQuery(companyName: string): string {
    CompanyNewsPrefix + companyName
  }

  /** The symbol and the company name can be read back from the queries built
      for them, so distinct arguments give distinct searches. */
  lemma QueriesDetermineArgument(symbol: string, companyName: string)
    ensures var q := StockPriceQuery(symbol);
      StartsWith(q, StockPricePrefix) && EndsWith(q, StockPriceSuffix)
      && q[|StockPricePrefix|..|q| - |StockPriceSuffix|] == symbol
    ensures var q := CompanyNewsQuery(companyName);
      StartsWith(q, CompanyNewsPrefix) && q[|CompanyNewsPrefix|..] == companyName
  {
    var q := StockPriceQuery(symbol);
    assert q[..|StockPricePrefix|] == StockPricePrefix;
    assert q[|q| - |StockPriceSuffix|..] == StockPriceSuffix;
    assert q[|StockPricePrefix|..|q| - |StockPriceSuffix|] == symbol;
    var n := CompanyNewsQuery(companyName);
    assert n[..|CompanyNewsPrefix|] == CompanyNewsPrefix;
  }
}
