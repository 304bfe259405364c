/**
 * The flight-list screen: reading the search criteria out of the query
 * string, the search request it issues, the one effect instance whose
 * `isSubscribed` flag decides whether a delivered response is applied, and the
 * list of cards rendered from the applied data.
 */
module FlightsList {
  import opened FlightService
  import Strings

  /** The search service endpoint the screen queries. */
  const SearchBase: string := "http://localhost:3001/searchservice/api/v1/flights"

  /** The payload of a successful search: `Items` may be absent. */
  datatype SearchData = SearchData(items: Option<seq<FlightSummary>>)

  // ---------------------------------------------------------------------------
  // Query-string parameters

  /** The value given last for `key` among the query-string `pairs`, if any. */
  function LastValue(pairs: seq<(string, string)>, key: string): Option<string>
    decreases |pairs|
  {
    if pairs == [] then None
    else if pairs[|pairs| - 1].0 == key then Some(pairs[|pairs| - 1].1)
    else LastValue(pairs[..|pairs| - 1], key)
  }

  /**
   * `LastValue` in terms of positions: `v` is the last value for `key` exactly
   * when some pair `(key, v)` is followed by no other pair for `key`.
   */
  lemma {:induction false} LastValueIsLastOccurrence(pairs: seq<(string, string)>, key: string, v: string)
    ensures LastValue(pairs, key) == Some(v) <==>
      exists i :: 0 <= i < |pairs| && pairs[i] == (key, v) &&
        forall j :: i < j < |pairs| ==> pairs[j].0 != key
    decreases |pairs|
  {
    if pairs != [] {
      var n := |pairs| - 1;
      var init := pairs[..n];
      LastValueIsLastOccurrence(init, key, v);
      if pairs[n].0 == key {
        if pairs[n].1 == v {
          assert pairs[n] == (key, v);
        } else {
          forall i | 0 <= i < |pairs| && pairs[i] == (key, v)
            ensures exists j :: i < j < |pairs| && pairs[j].0 == key
          {
            assert i != n;
            assert pairs[n].0 == key;
          }
        }
      } else {
        if exists i :: 0 <= i < |pairs| && pairs[i] == (key, v) &&
             forall j :: i < j < |pairs| ==> pairs[j].0 != key {
          var i :| 0 <= i < |pairs| && pairs[i] == (key, v) &&
             forall j :: i < j < |pairs| ==> pairs[j].0 != key;
          assert i < n;
          assert init[i] == pairs[i];
          assert forall j :: i < j < |init| ==> init[j].0 != key by {
            forall j | i < j < |init| ensures init[j].0 != key {
              assert init[j] == pairs[j];
            }
          }
        }
        if LastValue(init, key) == Some(v) {
          var i :| 0 <= i < |init| && init[i] == (key, v) &&
             forall j :: i < j < |init| ==> init[j].0 != key;
          assert pairs[i] == (key, v);
          assert forall j :: i < j < |pairs| ==> pairs[j].0 != key by {
            forall j | i < j < |pairs| ensures pairs[j].0 != key {
              if j < n { assert pairs[j] == init[j]; }
            }
          }
        }
      }
    }
  }

  /**
   * The `forEach` over the query string: every key seen is stored, and a later
   * pair for the same key overwrites an earlier one.
   */
  method CollectParams(pairs: seq<(string, string)>) returns (params: map<string, string>)
    ensures forall key :: key in params <==> LastValue(pairs, key).Some?
    ensures forall key :: key in params ==> params[key] == LastValue(pairs, key).value
  {
    params := map[];
    var i := 0;
    while i < |pairs|
      invariant 0 <= i <= |pairs|
      invariant forall key :: key in params <==> LastValue(pairs[..i], key).Some?
      invariant forall key :: key in params ==> params[key] == LastValue(pairs[..i], key).value
    {
      assert pairs[..i + 1][..i] == pairs[..i];
      params := params[pairs[i].0 := pairs[i].1];
      i := i + 1;
    }
    assert pairs[..|pairs|] == pairs;
  }

  // ---------------------------------------------------------------------------
  // The search request

  /** `params.key` inside a template literal: a missing key reads "undefined". */
  function Param(params: map<string, string>, key: string): string {
    if key in params then params[key] else Undefined
  }

  /** The request's query assignments, in the order the URL lists them. */
  function QueryFields(params: map<string, string>): seq<string> {
    [ "date=" + Param(params, "departuredate"),
      "departureCityId=" + Param(params, "departureCityId"),
      "arrivalCityId=" + Param(params, "arrivalCityId") ]
  }

  /** The URL the effect fetches; the values are interpolated without encoding. */
  function SearchUrl(params: map<string, string>): string {
    SearchBase + "?" + "date=" + Param(params, "departuredate") +
    "&" + "departureCityId=" + Param(params, "departureCityId") +
    "&" + "arrivalCityId=" + Param(params, "arrivalCityId")
  }

  /**
   * The URL is the endpoint, a `?`, and the three assignments joined by `&`;
   * when no value holds an `&`, splitting the query on `&` gives back exactly
   * `date=`, `departureCityId=` and `arrivalCityId=` with their values, in
   * that order.
   */
  lemma SearchUrlQuery(params: map<string, string>)
    ensures var url := SearchUrl(params);
            |url| > |SearchBase| && url[..|SearchBase| + 1] == SearchBase + "?" &&
            url[|SearchBase| + 1..] == Strings.Join(QueryFields(params), '&')
    ensures '&' !in Param(params, "departuredate") &&
            '&' !in Param(params, "departureCityId") &&
            '&' !in Param(params, "arrivalCityId") ==>
            Strings.Split(SearchUrl(params)[|SearchBase| + 1..], '&') == QueryFields(params)
  {
    var d, a, b := Param(params, "departuredate"), Param(params, "departureCityId"), Param(params, "arrivalCityId");
    var fields := QueryFields(params);
    var query := Strings.Join(fields, '&');
    UrlShape(SearchBase, d, a, b);
    assert SearchUrl(params) == SearchBase + "?" + query;
    assert (SearchBase + "?" + query)[..|SearchBase| + 1] == SearchBase + "?";
    assert (SearchBase + "?" + query)[|SearchBase| + 1..] == query;
    if '&' !in d && '&' !in a && '&' !in b {
      NoAmpersandInFields(d, a, b);
      Strings.SplitJoin(fields, '&');
    }
  }

  /** The template literal, read as the endpoint, a `?` and three fields joined by `&`. */
  lemma UrlShape(base: string, d: string, a: string, b: string)
    ensures base + "?" + "date=" + d + "&" + "departureCityId=" + a + "&" + "arrivalCityId=" + b
      == base + "?" + Strings.Join(["date=" + d, "departureCityId=" + a, "arrivalCityId=" + b], '&')
  {
    Strings.JoinThree("date=" + d, "departureCityId=" + a, "arrivalCityId=" + b, '&');
    assert "&" == ['&'];
  }

  lemma NoAmpersandInFields(d: string, a: string, b: string)
    requires '&' !in d && '&' !in a && '&' !in b
    ensures var fields := ["date=" + d, "departureCityId=" + a, "arrivalCityId=" + b];
            forall k :: 0 <= k < |fields| ==> '&' !in fields[k]
  {
    assert '&' !in "date=" && '&' !in "departureCityId=" && '&' !in "arrivalCityId=";
  }

  // ---------------------------------------------------------------------------
  // The effect instance

  /** The screen's `flightData` together with the current effect's `isSubscribed`. */
  datatype ListState = ListState(flightData: Option<SearchData>, isSubscribed: bool)

  /** The screen before any response: nothing loaded, no effect running. */
  const Mounted: ListState := ListState(None, false)

  /** The effect starts: its flag is set. */
  function Subscribe(s: ListState): (r: ListState)
    ensures r.isSubscribed && r.flightData == s.flightData
  {
    s.(isSubscribed := true)
  }

  /**
   * A fetch completes. `None` is a request or parse failure, which is only
   * logged. A parsed response is applied only while the effect is subscribed
   * and only when it reports success.
   */
  function ApplyResponse(s: ListState, response: Option<Envelope<SearchData>>): (r: ListState)
    ensures r.isSubscribed == s.isSubscribed
    ensures r != s ==> s.isSubscribed && response.Some? && response.value.success
    ensures s.isSubscribed && response.Some? && response.value.success ==>
      r.flightData == response.value.data
  {
    if s.isSubscribed && response.Some? && response.value.success then
      s.(flightData := response.value.data)
    else s
  }

  /** The effect's cleanup: its flag is cleared. */
  function Unsubscribe(s: ListState): (r: ListState)
    ensures !r.isSubscribed && r.flightData == s.flightData
    ensures forall response :: ApplyResponse(r, response) == r
  {
    s.(isSubscribed := false)
  }

  /** Responses delivered one after another, in order. */
  function ApplyAll(s: ListState, responses: seq<Option<Envelope<SearchData>>>): ListState
    decreases |responses|
  {
    if responses == [] then s else ApplyAll(ApplyResponse(s, responses[0]), responses[1..])
  }

  /** Once cleaned up, no later delivery to the effect changes anything. */
  lemma {:induction false} CleanupSuppressesDeliveries(s: ListState, responses: seq<Option<Envelope<SearchData>>>)
    ensures ApplyAll(Unsubscribe(s), responses) == Unsubscribe(s)
    decreases |responses|
  {
    if responses != [] {
      assert ApplyResponse(Unsubscribe(s), responses[0]) == Unsubscribe(s);
      CleanupSuppressesDeliveries(s, responses[1..]);
    }
  }

  /** The data of the last successful response in `responses`, if there is one. */
  function LastSuccess(responses: seq<Option<Envelope<SearchData>>>): Option<Option<SearchData>>
    decreases |responses|
  {
    if responses == [] then None
    else
      var last := responses[|responses| - 1];
      if last.Some? && last.value.success then Some(last.value.data)
      else LastSuccess(responses[..|responses| - 1])
  }

  /**
   * While subscribed, the screen shows the data of the last successful
   * response, or what it showed before if none succeeded.
   */
  lemma {:induction false} SubscribedShowsLastSuccess(s: ListState, responses: seq<Option<Envelope<SearchData>>>)
    requires s.isSubscribed
    ensures ApplyAll(s, responses).isSubscribed
    ensures ApplyAll(s, responses).flightData ==
      if LastSuccess(responses).Some? then LastSuccess(responses).value else s.flightData
    decreases |responses|
  {
    if responses != [] {
      var n := |responses| - 1;
      ApplyAllSplit(s, responses[..n], responses[n]);
      assert responses[..n] + [responses[n]] == responses;
      SubscribedShowsLastSuccess(s, responses[..n]);
    }
  }

  /** Delivering one more response after a run is the same as a run that includes it. */
  lemma {:induction false} ApplyAllSplit(s: ListState, responses: seq<Option<Envelope<SearchData>>>, last: Option<Envelope<SearchData>>)
    ensures ApplyAll(s, responses + [last]) == ApplyResponse(ApplyAll(s, responses), last)
    decreases |responses|
  {
    if responses == [] {
      assert [] + [last] == [last];
    } else {
      assert (responses + [last])[1..] == responses[1..] + [last];
      ApplyAllSplit(ApplyResponse(s, responses[0]), responses[1..], last);
    }
  }

  // ---------------------------------------------------------------------------
  // Rendering

  /** A `FlightCard`: its React key and the flight whose fields it receives. */
  datatype Card = Card(key: string, flight: FlightSummary)

  function CardsOf(items: seq<FlightSummary>): (cards: seq<Card>)
    ensures |cards| == |items|
    ensures forall k :: 0 <= k < |items| ==> cards[k].flight == items[k] && cards[k].key == items[k].id
  {
    if items == [] then []
    else [Card(items[0].id, items[0])] + CardsOf(items[1..])
  }

  /**
   * `flightData?.Items?.map(...)`: one card per item, in the order received,
   * and none when the data or its `Items` is missing.
   */
  function Cards(flightData: Option<SearchData>): (cards: seq<Card>)
    ensures flightData.None? || flightData.value.items.None? ==> cards == []
    ensures flightData.Some? && flightData.value.items.Some? ==>
      var items := flightData.value.items.value;
      |cards| == |items| &&
      forall k :: 0 <= k < |items| ==> cards[k] == Card(items[k].id, items[k])
  {
    if flightData.Some? && flightData.value.items.Some? then CardsOf(flightData.value.items.value)
    else []
  }

  /** One successful search with one flight "f1" renders exactly one card, keyed "f1". */
  lemma OneResultOneCard(f: FlightSummary)
    requires f.id == "f1"
    ensures var s := ApplyResponse(Subscribe(Mounted), Some(Envelope(true, Some(SearchData(Some([f]))))));
            Cards(s.flightData) == [Card("f1", f)]
  {
  }

  // ---------------------------------------------------------------------------
  // The component's state

  class FlightsScreen {
    var flightData: Option<SearchData>
    var isSubscribed: bool

    function State(): ListState
      reads this
    {
      ListState(flightData, isSubscribed)
    }

    constructor ()
      ensures State() == Mounted
    {
      flightData := None;
      isSubscribed := false;
    }

    /**
     * The effect body: read the criteria out of the query string, subscribe,
     * and return the URL the fetch is issued for.
     */
    method Start(pairs: seq<(string, string)>) returns (url: string)
      modifies this
      ensures State() == Subscribe(old(State()))
      ensures exists params: map<string, string> ::
        (forall key :: key in params <==> LastValue(pairs, key).Some?) &&
        (forall key :: key in params ==> params[key] == LastValue(pairs, key).value) &&
        url == SearchUrl(params)
    {
      var params := CollectParams(pairs);
      isSubscribed := true;
      url := SearchUrl(params);
    }

    /** The end of the fetch: `setFlightData(data.data)` behind the flag and `success`. */
    method Deliver(response: Option<Envelope<SearchData>>)
      modifies this
      ensures State() == ApplyResponse(old(State()), response)
    {
      if isSubscribed && response.Some? && response.value.success {
        flightData := response.value.data;
      }
    }

    /** The effect's cleanup closure. */
    method Cleanup()
      modifies this
      ensures State() == Unsubscribe(old(State()))
    {
      isSubscribed := false;
    }
  }
}
