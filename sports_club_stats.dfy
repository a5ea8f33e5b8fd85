/**
 * The Sports Club Stats adapter (src/sportsclubstats.js): a module-level memo
 * of the feed's last-modified time and of the odds feed, and a lookup of one
 * team's latest figure in the memoised feed.
 */
module SportsClubStats {
  import opened Wrappers

  /** One team's history in the feed: its `label` (here `title`, `label` being a Dafny keyword) and its series of percentages. */
  datatype Row = Row(title: string, data: seq<real>)

  /** The feed body; its `data` field is the list of team histories. */
  datatype Feed = Feed(data: seq<Row>)

  /** The HTTP calls the adapter makes. */
  datatype Request = Head | Get

  /** Index of the first row labelled `teamName` (the `find`). */
  function FindRow(rows: seq<Row>, teamName: string): (r: Option<nat>)
    ensures r.Some? ==> r.value < |rows| && rows[r.value].title == teamName
    ensures r.Some? ==> forall j :: 0 <= j < r.value ==> rows[j].title != teamName
    ensures r.None? <==> forall j :: 0 <= j < |rows| ==> rows[j].title != teamName
  {
    if |rows| == 0 then None
    else if rows[0].title == teamName then Some(0)
    else
      match FindRow(rows[1..], teamName)
      case None => None
      case Some(k) => Some(k + 1)
  }

  function NotFound(teamName: string): string {
    "Could not find team " + teamName
  }

  /** The last element of a series; `undefined` when it is empty. */
  function Last(data: seq<real>): (r: Option<real>)
    ensures r.Some? <==> |data| > 0
    ensures r.Some? ==> r.value == data[|data| - 1]
  {
    if |data| == 0 then None else Some(data[|data| - 1])
  }

  /**
   * The lookup of `getLiveOdds` on a feed: the last figure of the first row
   * labelled `teamName`, or the "Could not find team" error when none is.
   */
  function TeamOdds(feed: Feed, teamName: string): (r: Result<Option<real>>)
    ensures r.Failure? <==> forall j :: 0 <= j < |feed.data| ==> feed.data[j].title != teamName
    ensures r.Failure? ==> r.error == NotFound(teamName)
    ensures r.Success? ==> exists i :: 0 <= i < |feed.data| && feed.data[i].title == teamName
                                       && (forall j :: 0 <= j < i ==> feed.data[j].title != teamName)
                                       && r.value == Last(feed.data[i].data)
  {
    match FindRow(feed.data, teamName)
    case None => Failure(NotFound(teamName))
    case Some(i) => Success(Last(feed.data[i].data))
  }

  /**
   * The adapter's module state: `lastUpdate` and `liveOdds`, unset until the
   * first call that needs them and never cleared, and the log of HTTP requests.
   */
  class Client {
    var lastUpdate: Option<int>
    var liveOdds: Option<Feed>
    var requests: seq<Request>

    constructor ()
      ensures lastUpdate.None? && liveOdds.None? && requests == []
    {
      lastUpdate := None;
      liveOdds := None;
      requests := [];
    }

    /**
     * `getLastUpdate`: a HEAD request only while `lastUpdate` is unset; its
     * `last-modified` header, given here in milliseconds, becomes the memo. A
     * request that throws (`None`) leaves the memo unset, so the next call asks again.
     */
    method GetLastUpdate(lastModified: Option<int>) returns (r: Result<int>)
      modifies this
      ensures old(lastUpdate).Some? ==> r == Success(old(lastUpdate).value) && requests == old(requests)
      ensures old(lastUpdate).None? ==> requests == old(requests) + [Head]
      ensures old(lastUpdate).None? && lastModified.Some? ==> r == Success(lastModified.value)
      ensures old(lastUpdate).None? && lastModified.None? ==> r == Failure(RequestFailed) && lastUpdate.None?
      ensures r.Success? ==> lastUpdate == Some(r.value)
      ensures liveOdds == old(liveOdds)
    {
      if lastUpdate.None? {
        requests := requests + [Head];
        if lastModified.None? {
          return Failure(RequestFailed);
        }
        lastUpdate := Some(lastModified.value);
      }
      r := Success(lastUpdate.value);
    }

    /**
     * `getLiveOdds`: a GET only while `liveOdds` is unset (the response body is
     * `response`, `None` when the request throws), then the lookup in the
     * memoised feed. A failed request leaves the memo unset; the feed stays
     * memoised when the lookup fails.
     */
    method GetLiveOdds(teamName: string, response: Option<Feed>) returns (r: Result<Option<real>>)
      modifies this
      ensures liveOdds == if old(liveOdds).Some? then old(liveOdds) else response
      ensures requests == old(requests) + (if old(liveOdds).None? then [Get] else [])
      ensures liveOdds.None? ==> r == Failure(RequestFailed)
      ensures liveOdds.Some? ==> r == TeamOdds(liveOdds.value, teamName)
      ensures lastUpdate == old(lastUpdate)
    {
      if liveOdds.None? {
        requests := requests + [Get];
        if response.None? {
          return Failure(RequestFailed);
        }
        liveOdds := response;
      }
      r := TeamOdds(liveOdds.value, teamName);
    }
  }

  /** The error a request that throws propagates; its text is not modelled. */
  const RequestFailed := "request failed"

  /**
   * Two lookups in one process: one GET, and the second lookup reads the
   * first response even when the network would now answer differently.
   */
  method LookupTwice(first: string, second: string, response1: Feed, response2: Feed)
    returns (r1: Result<Option<real>>, r2: Result<Option<real>>, requests: seq<Request>)
    ensures requests == [Get]
    ensures r1 == TeamOdds(response1, first) && r2 == TeamOdds(response1, second)
  {
    var client := new Client();
    r1 := client.GetLiveOdds(first, Some(response1));
    r2 := client.GetLiveOdds(second, Some(response2));
    requests := client.requests;
  }

  /**
   * A lookup whose request throws memoises nothing: the next lookup in the
   * same process requests again and answers from that second response.
   */
  method LookupAfterFailedRequest(first: string, second: string, response: Feed)
    returns (r1: Result<Option<real>>, r2: Result<Option<real>>, requests: seq<Request>)
    ensures requests == [Get, Get]
    ensures r1 == Failure(RequestFailed) && r2 == TeamOdds(response, second)
  {
    var client := new Client();
    r1 := client.GetLiveOdds(first, None);
    r2 := client.GetLiveOdds(second, Some(response));
    requests := client.requests;
  }

  /** The same for the last-modified time: a failed HEAD is made again on the next call. */
  method LastUpdateAfterFailedRequest(lastModified: int)
    returns (r1: Result<int>, r2: Result<int>, requests: seq<Request>)
    ensures requests == [Head, Head]
    ensures r1 == Failure(RequestFailed) && r2 == Success(lastModified)
  {
    var client := new Client();
    r1 := client.GetLastUpdate(None);
    r2 := client.GetLastUpdate(Some(lastModified));
    requests := client.requests;
  }
}
