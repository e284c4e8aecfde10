/**
 * Two end-to-end runs of the middleware on fresh objects, under the
 * configuration response {"X-Powered-By": "core"} and a CORS block with
 * allowedOrigin "https://a.test" and maxAge 86400.
 */
module Scenarios {
  import opened Wrappers
  import opened Http
  import opened Cors
  import opened Headers
  import Strconv

  const Example := Config(
    None,
    Some(map["X-Powered-By" := "core"]),
    Some(CorsConfig("https://a.test", "", "", "", None, 86400)))

  /** GET / : the static and CORS headers are written, Max-Age is not, next runs once. */
  method ServeGet() returns (poweredBy: Option<seq<string>>, origin: Option<seq<string>>,
                             maxAge: Option<seq<string>>, calls: int)
    ensures poweredBy == Some(["core"]) && origin == Some(["https://a.test"])
    ensures maxAge.None? && calls == 1
  {
    var plugin := new Plugin(Example);
    var requestHeaders := new Header(map[]);
    var r := new Request("GET", requestHeaders);
    var responseHeaders := new Header(map[]);
    var w := new ResponseWriter(responseHeaders);
    var next := new Handler();
    plugin.Middleware(next, w, r, None);
    NamesDistinct();
    assert "X-Powered-By" !in NormalNames;
    poweredBy := Entry(responseHeaders.entries, "X-Powered-By");
    origin := Entry(responseHeaders.entries, AllowOrigin);
    maxAge := Entry(responseHeaders.entries, MaxAge);
    calls := next.invocations;
  }

  /**
   * OPTIONS / : status 200, Max-Age "86400", three Vary values, and next is
   * never invoked.
   */
  method ServeOptions() returns (status: Option<int>, maxAge: Option<seq<string>>,
                                 vary: seq<string>, calls: int)
    ensures status == Some(200) && maxAge == Some(["86400"]) && calls == 0
    ensures vary == ["Origin", "Access-Control-Request-Method", "Access-Control-Request-Headers"]
  {
    var plugin := new Plugin(Example);
    var requestHeaders := new Header(map["Access-Control-Request-Method" := ["POST"]]);
    var r := new Request("OPTIONS", requestHeaders);
    var responseHeaders := new Header(map[]);
    var w := new ResponseWriter(responseHeaders);
    var next := new Handler();
    plugin.Middleware(next, w, r, None);
    NamesDistinct();
    assert "X-Powered-By" != Vary;
    assert Strconv.FormatNat(8) == "8";
    assert Strconv.FormatNat(86) == "86";
    assert Strconv.FormatNat(864) == "864";
    assert Strconv.FormatNat(8640) == "8640";
    assert Strconv.Itoa(86400) == "86400";
    status := w.status;
    maxAge := Entry(responseHeaders.entries, MaxAge);
    vary := Values(responseHeaders.entries, Vary);
    calls := next.invocations;
  }
}
