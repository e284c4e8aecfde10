/**
 * The headers middleware: static request and response headers, the CORS
 * responder, and the order in which the handler applies them before handing
 * over to the next handler.
 */
module Headers {
  import opened Wrappers
  import opened Http
  import opened Cors
  import Strconv

  const MethodOptions := "OPTIONS"
  const StatusOK := 200

  /**
   * The plugin's configuration: extra request headers, extra response headers
   * and the CORS block, each possibly absent (nil). Header names in the maps
   * are taken to be in canonical form, hence distinct once canonicalised.
   */
  datatype Config = Config(
    request: Option<map<string, string>>,
    response: Option<map<string, string>>,
    cors: Option<CorsConfig>)

  /** A request the CORS responder answers itself instead of the next handler. */
  predicate IsPreflight(cfg: Config, verb: string) {
    cfg.cors.Some? && verb == MethodOptions
  }

  /**
   * The request headers after tracing. `injected` is None when the request
   * context names no tracer; otherwise it holds the fields the propagator
   * writes through its header carrier, each with Set.
   */
  function Traced(injected: Option<map<string, string>>, h: HeaderMap): HeaderMap {
    if injected.Some? then SetAll(h, injected.value) else h
  }

  /** The request headers after tracing and then the static request headers. */
  function RequestHeaders(cfg: Config, injected: Option<map<string, string>>, h: HeaderMap): HeaderMap {
    var traced := Traced(injected, h);
    if cfg.request.Some? then AddAll(traced, cfg.request.value) else traced
  }

  /** The response headers after the static response headers, before CORS. */
  function ResponseHeaders(cfg: Config, h: HeaderMap): HeaderMap {
    if cfg.response.Some? then SetAll(h, cfg.response.value) else h
  }

  /**
   * One pass of the middleware over a request with method `verb`: req, resp
   * and status before; req', resp' and status' after; `calls` is how many
   * times the next handler was invoked.
   */
  ghost predicate Served(cfg: Config, verb: string, injected: Option<map<string, string>>,
                         req: HeaderMap, resp: HeaderMap, status: Option<int>,
                         req': HeaderMap, resp': HeaderMap, status': Option<int>, calls: int)
  {
    var pre := ResponseHeaders(cfg, resp);
    && req' == RequestHeaders(cfg, injected, req)
    && (cfg.cors.None? ==> resp' == pre && status' == status && calls == 1)
    && (IsPreflight(cfg, verb) ==> Preflighted(cfg.cors.value, pre, resp') && status' == Written(status, StatusOK) && calls == 0)
    && (cfg.cors.Some? && verb != MethodOptions ==> Decorated(cfg.cors.value, pre, resp') && status' == status && calls == 1)
  }

  /**
   * When the next handler runs, it is handed the request and response headers
   * as the middleware left them: seenReq and seenResp are what it received.
   */
  predicate HandedOver(calls: int, req': HeaderMap, resp': HeaderMap, seenReq: HeaderMap, seenResp: HeaderMap) {
    calls == 1 ==> seenReq == req' && seenResp == resp'
  }

  /** The header names the CORS branch may write for a request with method `verb`. */
  function CorsNames(cfg: Config, verb: string): set<string> {
    if cfg.cors.None? then {} else if verb == MethodOptions then PreflightNames else NormalNames
  }

  /** The middleware is deterministic: whatever order the maps are walked in, one outcome. */
  lemma ServedDeterministic(cfg: Config, verb: string, injected: Option<map<string, string>>,
                            req: HeaderMap, resp: HeaderMap, status: Option<int>,
                            req1: HeaderMap, resp1: HeaderMap, status1: Option<int>, calls1: int,
                            req2: HeaderMap, resp2: HeaderMap, status2: Option<int>, calls2: int)
    requires Served(cfg, verb, injected, req, resp, status, req1, resp1, status1, calls1)
    requires Served(cfg, verb, injected, req, resp, status, req2, resp2, status2, calls2)
    ensures req1 == req2 && resp1 == resp2 && status1 == status2 && calls1 == calls2
  {
    var pre := ResponseHeaders(cfg, resp);
    if IsPreflight(cfg, verb) {
      PreflightedDeterministic(cfg.cors.value, pre, resp1, resp2);
    } else if cfg.cors.Some? {
      DecoratedDeterministic(cfg.cors.value, pre, resp1, resp2);
    }
  }

  /**
   * A configured request header is added once, after the values the request
   * already carried, which stay in their order; when the propagator wrote the
   * same name, its value comes first and the configured one follows it
   * (AddAllAppendsOnce states the general case).
   */
  lemma RequestHeaderAppended(cfg: Config, verb: string, injected: Option<map<string, string>>,
                              req: HeaderMap, resp: HeaderMap, status: Option<int>,
                              req': HeaderMap, resp': HeaderMap, status': Option<int>, calls: int, k: string)
    requires Served(cfg, verb, injected, req, resp, status, req', resp', status', calls)
    requires cfg.request.Some? && k in cfg.request.value
    ensures injected.None? || k !in injected.value ==> Values(req', k) == Values(req, k) + [cfg.request.value[k]]
    ensures injected.Some? && k in injected.value ==> Values(req', k) == [injected.value[k], cfg.request.value[k]]
  {
  }

  /**
   * Whenever next runs, it sees every header step already done: each configured
   * request header after the traced values, each configured response header
   * the CORS branch does not write as exactly [v], and with a CORS block the
   * Vary: Origin that corsHeaders appends.
   */
  lemma NextSeesHeaders(cfg: Config, verb: string, injected: Option<map<string, string>>,
                        req: HeaderMap, resp: HeaderMap, status: Option<int>,
                        req': HeaderMap, resp': HeaderMap, status': Option<int>, calls: int,
                        seenReq: HeaderMap, seenResp: HeaderMap)
    requires Served(cfg, verb, injected, req, resp, status, req', resp', status', calls)
    requires HandedOver(calls, req', resp', seenReq, seenResp)
    requires !IsPreflight(cfg, verb)
    ensures calls == 1
    ensures cfg.request.Some? ==> forall k :: k in cfg.request.value ==>
      Values(seenReq, k) == Values(Traced(injected, req), k) + [cfg.request.value[k]]
    ensures cfg.response.Some? ==> forall k :: k in cfg.response.value && k !in CorsNames(cfg, verb) ==>
      Entry(seenResp, k) == Some([cfg.response.value[k]])
    ensures cfg.cors.Some? ==> Values(seenResp, Vary) == Values(ResponseHeaders(cfg, resp), Vary) + ["Origin"]
  {
  }

  /** Without configured request headers, only the propagator touches the request. */
  lemma RequestNilUnchanged(cfg: Config, verb: string,
                            req: HeaderMap, resp: HeaderMap, status: Option<int>,
                            req': HeaderMap, resp': HeaderMap, status': Option<int>, calls: int)
    requires Served(cfg, verb, None, req, resp, status, req', resp', status', calls)
    requires cfg.request.None?
    ensures req' == req
  {
  }

  /**
   * A configured response header that the CORS branch does not write ends as
   * exactly the configured value; with no configured response headers such a
   * name is left as it was.
   */
  lemma ResponseHeaderSet(cfg: Config, verb: string, injected: Option<map<string, string>>,
                          req: HeaderMap, resp: HeaderMap, status: Option<int>,
                          req': HeaderMap, resp': HeaderMap, status': Option<int>, calls: int, k: string)
    requires Served(cfg, verb, injected, req, resp, status, req', resp', status', calls)
    requires k !in CorsNames(cfg, verb)
    ensures cfg.response.Some? && k in cfg.response.value ==> Entry(resp', k) == Some([cfg.response.value[k]])
    ensures cfg.response.None? ==> Untouched(resp', resp, k)
  {
  }

  /** Without a CORS block no CORS header is written and next runs once, whatever the method. */
  lemma CorsAbsentPassesThrough(cfg: Config, verb: string, injected: Option<map<string, string>>,
                                req: HeaderMap, resp: HeaderMap, status: Option<int>,
                                req': HeaderMap, resp': HeaderMap, status': Option<int>, calls: int)
    requires Served(cfg, verb, injected, req, resp, status, req', resp', status', calls)
    requires cfg.cors.None?
    ensures calls == 1 && status' == status
    ensures forall k :: k in PreflightNames + NormalNames ==>
      Entry(resp', k) == if cfg.response.Some? && k in cfg.response.value then Some([cfg.response.value[k]]) else Entry(resp, k)
  {
  }

  /**
   * An OPTIONS request under a CORS block never reaches next, gets status 200
   * on a fresh response, and carries three more Vary values after the ones it had.
   */
  lemma PreflightShortCircuits(cfg: Config, verb: string, injected: Option<map<string, string>>,
                               req: HeaderMap, resp: HeaderMap, status: Option<int>,
                               req': HeaderMap, resp': HeaderMap, status': Option<int>, calls: int)
    requires Served(cfg, verb, injected, req, resp, status, req', resp', status', calls)
    requires cfg.cors.Some? && verb == MethodOptions
    ensures calls == 0
    ensures status.None? ==> status' == Some(StatusOK)
    ensures Values(resp', Vary) == Values(ResponseHeaders(cfg, resp), Vary)
      + ["Origin", "Access-Control-Request-Method", "Access-Control-Request-Headers"]
  {
  }

  /** Any other request under a CORS block gets one more Vary: Origin and then reaches next once. */
  lemma NormalRequestContinues(cfg: Config, verb: string, injected: Option<map<string, string>>,
                               req: HeaderMap, resp: HeaderMap, status: Option<int>,
                               req': HeaderMap, resp': HeaderMap, status': Option<int>, calls: int)
    requires Served(cfg, verb, injected, req, resp, status, req', resp', status', calls)
    requires cfg.cors.Some? && verb != MethodOptions
    ensures calls == 1 && status' == status
    ensures Values(resp', Vary) == Values(ResponseHeaders(cfg, resp), Vary) + ["Origin"]
  {
  }

  /**
   * Two layers of the middleware without CORS and without a tracer: the
   * response is as after one layer, while each configured request header is
   * added twice.
   */
  lemma TwoLayers(cfg: Config, verb: string,
                  req: HeaderMap, resp: HeaderMap, status: Option<int>,
                  req1: HeaderMap, resp1: HeaderMap, status1: Option<int>, calls1: int,
                  req2: HeaderMap, resp2: HeaderMap, status2: Option<int>, calls2: int)
    requires cfg.cors.None?
    requires Served(cfg, verb, None, req, resp, status, req1, resp1, status1, calls1)
    requires Served(cfg, verb, None, req1, resp1, status1, req2, resp2, status2, calls2)
    ensures resp2 == resp1 && status2 == status1
    ensures forall k :: cfg.request.Some? && k in cfg.request.value ==>
      Values(req2, k) == Values(req, k) + [cfg.request.value[k], cfg.request.value[k]]
  {
  }

  /** The loop `for k, v := range m { header.Add(k, v) }`, in whatever order the keys come. */
  method AddEach(header: Header, m: map<string, string>)
    modifies header
    ensures header.entries == AddAll(old(header.entries), m)
  {
    var todo := m.Keys;
    while todo != {}
      invariant todo <= m.Keys
      invariant header.entries == AddAll(old(header.entries), m - todo)
      decreases todo
    {
      var k :| k in todo;
      ghost var before := header.entries;
      DoneGrows(m, todo, k);
      AddAllStep(old(header.entries), m - todo, k, m[k]);
      header.Add(k, m[k]);
      AddValueByEntries(header.entries, before, k, m[k]);
      todo := todo - {k};
    }
    assert m - {} == m;
  }

  /** The loop `for k, v := range m { header.Set(k, v) }`, in whatever order the keys come. */
  method SetEach(header: Header, m: map<string, string>)
    modifies header
    ensures header.entries == SetAll(old(header.entries), m)
  {
    var todo := m.Keys;
    while todo != {}
      invariant todo <= m.Keys
      invariant header.entries == SetAll(old(header.entries), m - todo)
      decreases todo
    {
      var k :| k in todo;
      ghost var before := header.entries;
      DoneGrows(m, todo, k);
      SetAllStep(old(header.entries), m - todo, k, m[k]);
      header.Set(k, m[k]);
      SetValueByEntries(header.entries, before, k, m[k]);
      todo := todo - {k};
    }
    assert m - {} == m;
  }

  /** The plugin with its configuration, read-only once initialised. */
  class Plugin {
    const cfg: Config

    constructor (cfg: Config)
      ensures this.cfg == cfg
    {
      this.cfg := cfg;
    }

    /** preflightRequest: the answer to an OPTIONS request, ending with status 200. */
    method PreflightRequest(w: ResponseWriter)
      requires cfg.cors.Some?
      modifies w, w.header
      ensures Preflighted(cfg.cors.value, old(w.header.entries), w.header.entries)
      ensures w.status == Written(old(w.status), StatusOK)
      ensures old(w.status).None? ==> w.sent == Some(w.header.entries)
      ensures old(w.status).Some? ==> w.sent == old(w.sent)
    {
      var headers := w.header;
      var c := cfg.cors.value;
      NamesDistinct();
      ghost var h0 := headers.entries;
      headers.Add(Vary, "Origin");
      assert Values(headers.entries, Vary) == Values(h0, Vary) + ["Origin"];
      headers.Add(Vary, "Access-Control-Request-Method");
      assert Values(headers.entries, Vary) == Values(h0, Vary) + ["Origin", "Access-Control-Request-Method"];
      headers.Add(Vary, "Access-Control-Request-Headers");
      ghost var h1 := headers.entries;
      assert Values(h1, Vary) == Values(h0, Vary) + PreflightVary;
      assert Entry(h1, Vary) == Some(Values(h0, Vary) + PreflightVary);
      assert OnlyChanged(h1, h0, Vary);
      SetOriginAndHeaders(headers, c);
      SetIfNonEmpty(headers, AllowMethods, c.allowedMethods);
      SetCredentials(headers, c.allowCredentials);
      if c.maxAge > 0 {
        headers.Set(MaxAge, Strconv.Itoa(c.maxAge));
      }
      ghost var written := headers.entries;
      assert Preflighted(c, h0, written);
      w.WriteHeader(StatusOK);
      assert headers.entries == written;
    }

    /** corsHeaders: the CORS headers of any request other than OPTIONS. */
    method CorsHeaders(w: ResponseWriter)
      requires cfg.cors.Some?
      modifies w.header
      ensures Decorated(cfg.cors.value, old(w.header.entries), w.header.entries)
    {
      var headers := w.header;
      var c := cfg.cors.value;
      NamesDistinct();
      ghost var h0 := headers.entries;
      headers.Add(Vary, "Origin");
      assert OnlyChanged(headers.entries, h0, Vary);
      SetOriginAndHeaders(headers, c);
      SetIfNonEmpty(headers, ExposeHeaders, c.exposedHeaders);
      SetCredentials(headers, c.allowCredentials);
    }

    /**
     * The handler that Middleware(next) returns, applied to (w, r): tracing,
     * request headers, response headers, then the CORS branch, then next.
     */
    method Middleware(next: Handler, w: ResponseWriter, r: Request, injected: Option<map<string, string>>)
      requires r.header != w.header
      modifies r.header, w, w.header, next
      ensures Served(cfg, r.verb, injected,
                     old(r.header.entries), old(w.header.entries), old(w.status),
                     r.header.entries, w.header.entries, w.status, next.invocations - old(next.invocations))
      ensures HandedOver(next.invocations - old(next.invocations), r.header.entries, w.header.entries,
                         next.seenRequest, next.seenResponse)
      ensures IsPreflight(cfg, r.verb) && old(w.status).None? ==> w.sent == Some(w.header.entries)
      ensures !(IsPreflight(cfg, r.verb) && old(w.status).None?) ==> w.sent == old(w.sent)
      ensures IsPreflight(cfg, r.verb) ==> next.seenRequest == old(next.seenRequest) && next.seenResponse == old(next.seenResponse)
    {
      if injected.Some? {
        SetEach(r.header, injected.value);
      }
      if cfg.request.Some? {
        AddEach(r.header, cfg.request.value);
      }
      if cfg.response.Some? {
        SetEach(w.header, cfg.response.value);
      }
      if cfg.cors.Some? {
        if r.verb == MethodOptions {
          PreflightRequest(w);
          return;
        }
        CorsHeaders(w);
      }
      next.ServeHTTP(w, r);
    }
  }
}
