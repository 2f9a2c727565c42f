/** The registry of webhook subscriber URLs: one live set, shared by reference. */
module Webhooks {

  class WebhookRegistry {
    var urls: set<string>

    constructor ()
      ensures urls == {}
    {
      urls := {};
    }

    /** `registerWebhook`: url is subscribed afterwards; only its membership can change. */
    method Register(url: string)
      modifies this
      ensures url in urls
      ensures forall u :: u != url ==> (u in urls <==> u in old(urls))
      ensures old(url in urls) ==> urls == old(urls)
      ensures urls == old(urls) + {url}
    {
      urls := urls + {url};
    }

    /** `unregisterWebhook`: url is not subscribed afterwards; removing an absent url changes nothing. */
    method Unregister(url: string)
      modifies this
      ensures url !in urls
      ensures forall u :: u != url ==> (u in urls <==> u in old(urls))
      ensures old(url !in urls) ==> urls == old(urls)
      ensures urls == old(urls) - {url}
    {
      urls := urls - {url};
    }

    /**
     * `getWebhooks`: the registry's own set, not a copy. The model hands out the
     * registry itself, so a holder reads `urls` as later calls leave it.
     */
    method GetWebhooks() returns (live: WebhookRegistry)
      ensures live == this
    {
      live := this;
    }
  }
}
