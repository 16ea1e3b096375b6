/** The market-data side of `app.py`: the fixed coin table offered in the
    select box, the request for seven days of prices, and the three
    metrics the dashboard shows (latest price, seven-day high and low).

    Prices are modelled as `real`: only their order matters here, and the
    floating-point rounding and `,.2f` display formatting are left out. */
module Market {
  import opened Wrappers

  /** One `[timestamp_ms, price_usd]` pair of the API's `prices` field. */
  datatype Sample = Sample(timestampMs: int, price: real)

  /** The answer of the market-data endpoint, reduced to what is read. */
  datatype HttpResponse = HttpResponse(status: int, prices: seq<Sample>)

  /** `COINS`: display name to API coin identifier, in declaration order. */
  const CoinTable: seq<(string, string)> := [
    ("Bitcoin", "bitcoin"),
    ("Ethereum", "ethereum"),
    ("Cardano", "cardano"),
    ("Solana", "solana"),
    ("Dogecoin", "dogecoin"),
    ("Polkadot", "polkadot"),
    ("Avalanche", "avalanche-2"),
    ("XRP", "ripple"),
    ("Litecoin", "litecoin"),
    ("Binance Coin", "binancecoin"),
    ("Polygon", "matic-network"),
    ("Chainlink", "chainlink"),
    ("Uniswap", "uniswap"),
    ("Shiba Inu", "shiba-inu")
  ]

  /** The first components of a table, in order. */
  function Names(table: seq<(string, string)>): (r: seq<string>)
  {
    seq(|table|, i requires 0 <= i < |table| => table[i].0)
  }

  predicate Distinct(xs: seq<string>)
  {
    forall i, j :: 0 <= i < j < |xs| ==> xs[i] != xs[j]
  }

  /** `list(COINS.keys())`: exactly what the select box offers. */
  function SelectOptions(): (opts: seq<string>)
    ensures |opts| == |CoinTable|
    ensures forall i :: 0 <= i < |CoinTable| ==> opts[i] == CoinTable[i].0
  {
    Names(CoinTable)
  }

  /** Dictionary lookup on a table of pairs: defined exactly for the names
      the table holds, and then giving a value paired with that name. */
  function Lookup(table: seq<(string, string)>, name: string): (r: Option<string>)
    ensures r.Some? <==> name in Names(table)
    ensures r.Some? ==> (name, r.value) in table
  {
    if |table| == 0 then None
    else
      assert Names(table) == [table[0].0] + Names(table[1..]);
      if table[0].0 == name then Some(table[0].1) else Lookup(table[1..], name)
  }

  /** With distinct names the lookup returns the one value paired with
      the name. */
  lemma {:induction false} LookupFindsPair(table: seq<(string, string)>, name: string, id: string)
    requires Distinct(Names(table))
    requires (name, id) in table
    ensures Lookup(table, name) == Some(id)
  {
    if table[0] != (name, id) {
      assert (name, id) in table[1..];
      var k :| 0 <= k < |table[1..]| && table[1..][k] == (name, id);
      assert Names(table)[k + 1] == name;
      assert Names(table)[0] != name;
      assert Names(table[1..]) == Names(table)[1..];
      LookupFindsPair(table[1..], name, id);
    }
  }

  /** `COINS` has fourteen entries with distinct names, and `COINS[name]`
      is defined for every option of the select box. */
  lemma CoinTableWellFormed()
    ensures |CoinTable| == 14
    ensures |SelectOptions()| == 14
    ensures Distinct(SelectOptions())
    ensures forall name :: name in SelectOptions() ==> Lookup(CoinTable, name).Some?
  {
    var xs := SelectOptions();
    // no two names agree on both their length and their first letter
    forall i, j | 0 <= i < j < |xs|
      ensures xs[i] != xs[j]
    {
      assert |xs[i]| != |xs[j]| || xs[i][0] != xs[j][0];
    }
  }

  /** `COINS[selected_coin]`: the select box only returns one of its
      options, so the lookup cannot raise `KeyError`. */
  function CoinId(name: string): (id: string)
    requires name in SelectOptions()
    ensures (name, id) in CoinTable
  {
    Lookup(CoinTable, name).value
  }

  /** The display name is mapped to the identifier declared with it. */
  lemma CoinIdExamples()
    ensures "Bitcoin" in SelectOptions() && CoinId("Bitcoin") == "bitcoin"
    ensures "Avalanche" in SelectOptions() && CoinId("Avalanche") == "avalanche-2"
    ensures "Polygon" in SelectOptions() && CoinId("Polygon") == "matic-network"
    ensures "Shiba Inu" in SelectOptions() && CoinId("Shiba Inu") == "shiba-inu"
  {
    CoinTableWellFormed();
    assert SelectOptions()[0] == "Bitcoin" && SelectOptions()[6] == "Avalanche";
    assert SelectOptions()[10] == "Polygon" && SelectOptions()[13] == "Shiba Inu";
    assert CoinTable[0] == ("Bitcoin", "bitcoin");
    assert CoinTable[6] == ("Avalanche", "avalanche-2");
    assert CoinTable[10] == ("Polygon", "matic-network");
    assert CoinTable[13] == ("Shiba Inu", "shiba-inu");
    LookupFindsPair(CoinTable, "Bitcoin", "bitcoin");
    LookupFindsPair(CoinTable, "Avalanche", "avalanche-2");
    LookupFindsPair(CoinTable, "Polygon", "matic-network");
    LookupFindsPair(CoinTable, "Shiba Inu", "shiba-inu");
  }

  const UrlPrefix: string := "https://api.coingecko.com/api/v3/coins/"
  const UrlSuffix: string := "/market_chart?vs_currency=usd&days=7"

  /** The request URL for seven days of USD prices of one coin. */
  function ChartUrl(coinId: string): (url: string)
    ensures |url| == |UrlPrefix| + |coinId| + |UrlSuffix|
    ensures url[..|UrlPrefix|] == UrlPrefix
    ensures url[|UrlPrefix|..|url| - |UrlSuffix|] == coinId
    ensures url[|url| - |UrlSuffix|..] == UrlSuffix
  {
    UrlPrefix + coinId + UrlSuffix
  }

  /** Distinct coins are requested at distinct URLs. */
  lemma ChartUrlInjective(x: string, y: string)
    requires ChartUrl(x) == ChartUrl(y)
    ensures x == y
  {
  }

  /** `get_coin_data`: the body's prices on status 200, `None` otherwise. */
  function GetCoinData(response: HttpResponse): (r: Option<seq<Sample>>)
    ensures r.Some? <==> response.status == 200
    ensures r.Some? ==> r.value == response.prices
  {
    if response.status == 200 then Some(response.prices) else None
  }

  /** `[p[1] for p in data['prices']]`. */
  function Prices(series: seq<Sample>): (r: seq<real>)
    ensures |r| == |series|
    ensures forall i :: 0 <= i < |series| ==> r[i] == series[i].price
  {
    if |series| == 0 then [] else [series[0].price] + Prices(series[1..])
  }

  /** Python's `max` on a non-empty list: a left-to-right scan that keeps
      the largest value seen. */
  function Max(xs: seq<real>): (m: real)
    requires |xs| > 0
    ensures forall i :: 0 <= i < |xs| ==> xs[i] <= m
    ensures m in xs
  {
    if |xs| == 1 then xs[0]
    else
      var m := Max(xs[..|xs| - 1]);
      if xs[|xs| - 1] > m then xs[|xs| - 1] else m
  }

  /** Python's `min` on a non-empty list. */
  function Min(xs: seq<real>): (m: real)
    requires |xs| > 0
    ensures forall i :: 0 <= i < |xs| ==> m <= xs[i]
    ensures m in xs
  {
    if |xs| == 1 then xs[0]
    else
      var m := Min(xs[..|xs| - 1]);
      if xs[|xs| - 1] < m then xs[|xs| - 1] else m
  }

  datatype Metrics = Metrics(current: real, high: real, low: real)

  /** The three dashboard metrics of a non-empty series: the price of the
      last sample, the largest price and the smallest price. */
  function ComputeMetrics(series: seq<Sample>): (r: Metrics)
    requires |series| > 0
    ensures r.current == series[|series| - 1].price
    ensures forall i :: 0 <= i < |series| ==> r.low <= series[i].price <= r.high
    ensures exists i :: 0 <= i < |series| && series[i].price == r.high
    ensures exists j :: 0 <= j < |series| && series[j].price == r.low
    ensures r.low <= r.current <= r.high
  {
    var ps := Prices(series);
    Metrics(ps[|ps| - 1], Max(ps), Min(ps))
  }

  /** The series `[[1000, 100.0], [2000, 150.0], [3000, 120.0]]` gives
      latest 120, high 150 and low 100. */
  lemma MetricsExample()
    ensures ComputeMetrics([Sample(1000, 100.0), Sample(2000, 150.0), Sample(3000, 120.0)])
            == Metrics(120.0, 150.0, 100.0)
  {
    var m := ComputeMetrics([Sample(1000, 100.0), Sample(2000, 150.0), Sample(3000, 120.0)]);
    assert m.high == 150.0;
    assert m.low == 100.0;
  }

  /** What the dashboard shows below the select box. `Crashed` is the
      uncaught exception of indexing or reducing an empty price list. */
  datatype Panel = FetchError | Shown(metrics: Metrics, chart: seq<Sample>) | Crashed

  /** The dashboard body as written: `if data:` takes the error branch for
      a failed fetch, and otherwise indexes `[-1]` and takes `max`/`min`,
      which raise on an empty price list. */
  function PanelAsWritten(fetched: Option<seq<Sample>>): (r: Panel)
    ensures fetched.None? ==> r == FetchError
    ensures r.Crashed? <==> fetched == Some([])
    ensures r.Shown? ==> fetched.Some? && r.chart == fetched.value
    ensures fetched.Some? && |fetched.value| > 0 ==>
              r.Shown? && r.metrics == ComputeMetrics(fetched.value)
  {
    match fetched
    case None => FetchError
    case Some(series) =>
      if |series| == 0 then Crashed else Shown(ComputeMetrics(series), series)
  }

  /** A successful fetch of an empty price list makes the dashboard raise. */
  lemma EmptySeriesCrashes()
    ensures PanelAsWritten(Some([])) == Crashed
  {
  }

  /** The dashboard body with the empty series treated as a failed fetch:
      metrics are computed exactly when a non-empty series arrived, and
      the page never raises. */
  function DashboardPanel(fetched: Option<seq<Sample>>): (r: Panel)
    ensures !r.Crashed?
    ensures r.Shown? <==> fetched.Some? && |fetched.value| > 0
    ensures r.Shown? ==> r.chart == fetched.value && r.metrics.low <= r.metrics.current <= r.metrics.high
    ensures r.Shown? ==> r.metrics == ComputeMetrics(fetched.value)
  {
    match fetched
    case None => FetchError
    case Some(series) =>
      if |series| == 0 then FetchError else Shown(ComputeMetrics(series), series)
  }

  /** The correction changes nothing but the empty-series case. */
  lemma DashboardPanelAgrees(fetched: Option<seq<Sample>>)
    ensures fetched != Some([]) ==> DashboardPanel(fetched) == PanelAsWritten(fetched)
    ensures fetched == Some([]) ==> DashboardPanel(fetched) == FetchError
  {
  }
}
