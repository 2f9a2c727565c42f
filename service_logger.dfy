/**
 * The service logger: an append-only, unbounded buffer of log lines, each line
 * also posted to every subscribed webhook. Posting is fire-and-forget, so the
 * model returns the deliveries it issues instead of performing them.
 */
module ServiceLogs {
  import opened LogEntries
  import Json

  /** One HTTP POST with a JSON body (Content-Type application/json). */
  datatype Delivery = Delivery(url: string, body: string)

  /** ds is one delivery of entry to each url of webhooks, and nothing else. */
  ghost predicate FanOut(ds: seq<Delivery>, entry: string, webhooks: set<string>) {
    && (forall i :: 0 <= i < |ds| ==> ds[i].url in webhooks && ds[i].body == Json.LogBody(entry))
    && (forall u :: u in webhooks ==> exists i :: 0 <= i < |ds| && ds[i].url == u)
    && (forall i, j :: 0 <= i < j < |ds| ==> ds[i].url != ds[j].url)
  }

  /**
   * `postToWebhooks`: one POST per subscribed url. The order in which a
   * JavaScript Set is iterated is not modelled; any order is allowed.
   */
  method PostToWebhooks(entry: string, webhooks: set<string>) returns (ds: seq<Delivery>)
    ensures FanOut(ds, entry, webhooks)
  {
    ds := [];
    var rest := webhooks;
    while rest != {}
      invariant rest <= webhooks
      invariant forall i :: 0 <= i < |ds| ==> ds[i].url in webhooks - rest && ds[i].body == Json.LogBody(entry)
      invariant forall u :: u in webhooks - rest ==> exists i :: 0 <= i < |ds| && ds[i].url == u
      invariant forall i, j :: 0 <= i < j < |ds| ==> ds[i].url != ds[j].url
      decreases rest
    {
      var url :| url in rest;
      ghost var before, restBefore := ds, rest;
      ds := ds + [Delivery(url, Json.LogBody(entry))];
      rest := rest - {url};
      forall u | u in webhooks - rest
        ensures exists i :: 0 <= i < |ds| && ds[i].url == u
      {
        if u == url {
          assert ds[|ds| - 1].url == u;
        } else {
          assert u in webhooks - restBefore;
          var i :| 0 <= i < |before| && before[i].url == u;
          assert ds[i].url == u;
        }
      }
    }
    assert webhooks - rest == webhooks;
  }

  /** A fan-out has exactly as many deliveries as there are subscribers. */
  lemma {:induction false} FanOutSize(ds: seq<Delivery>, entry: string, webhooks: set<string>)
    requires FanOut(ds, entry, webhooks)
    ensures |ds| == |webhooks|
    decreases |ds|
  {
    if ds != [] {
      var last := ds[|ds| - 1];
      var init := ds[..|ds| - 1];
      assert forall i :: 0 <= i < |init| ==> init[i].url != last.url;
      forall u | u in webhooks - {last.url}
        ensures exists i :: 0 <= i < |init| && init[i].url == u
      {
        var i :| 0 <= i < |ds| && ds[i].url == u;
        assert init[i].url == u;
      }
      FanOutSize(init, entry, webhooks - {last.url});
    }
  }

  /**
   * Registering a url twice still gets it exactly one delivery per entry, and
   * an unsubscribed url gets none.
   */
  lemma OneDeliveryPerSubscriber(ds: seq<Delivery>, entry: string, webhooks: set<string>, url: string)
    requires FanOut(ds, entry, webhooks)
    ensures url in webhooks ==> |set i | 0 <= i < |ds| && ds[i].url == url| == 1
    ensures url !in webhooks ==> |set i | 0 <= i < |ds| && ds[i].url == url| == 0
  {
    var hits := set i | 0 <= i < |ds| && ds[i].url == url;
    if url in webhooks {
      var k :| 0 <= k < |ds| && ds[k].url == url;
      assert hits == {k};
    } else {
      assert hits == {};
    }
  }

  class ServiceLogger {
    var logs: seq<string>

    constructor ()
      ensures logs == []
    {
      logs := [];
    }

    /**
     * `log`: one line `[ts] message` at the end of the buffer, the same line
     * posted to every subscriber. Deliveries cannot fail this call: it has no
     * error outcome and its effect on the buffer does not depend on them.
     */
    method Log(ts: string, message: string, webhooks: set<string>) returns (deliveries: seq<Delivery>)
      modifies this
      ensures logs == old(logs) + [Entry(ts, message)]
      ensures FanOut(deliveries, Entry(ts, message), webhooks)
    {
      var entry := Entry(ts, message);
      logs := logs + [entry];
      deliveries := PostToWebhooks(entry, webhooks);
    }

    /** `logError`: as Log, with the line `[ts] ERROR: message`. */
    method LogError(ts: string, message: string, webhooks: set<string>) returns (deliveries: seq<Delivery>)
      modifies this
      ensures logs == old(logs) + [ErrorEntry(ts, message)]
      ensures FanOut(deliveries, ErrorEntry(ts, message), webhooks)
    {
      var entry := ErrorEntry(ts, message);
      logs := logs + [entry];
      deliveries := PostToWebhooks(entry, webhooks);
    }

    /** `getLogs`: a copy of the whole buffer, oldest line first. */
    method GetLogs() returns (r: seq<string>)
      ensures r == logs
    {
      r := logs;
    }
  }
}
