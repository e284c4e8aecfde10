/**
 * The integrated CORS responder: which response headers preflightRequest
 * (an OPTIONS request) and corsHeaders (any other request) write, stated as
 * relations between the headers a response carried before and after.
 */
module Cors {
  import opened Wrappers
  import opened Http
  import Strconv

  /** The cors block of the configuration. allowCredentials is unset, true or false. */
  datatype CorsConfig = CorsConfig(
    allowedOrigin: string,
    allowedHeaders: string,
    allowedMethods: string,
    exposedHeaders: string,
    allowCredentials: Option<bool>,
    maxAge: int)

  const Vary := "Vary"
  const AllowOrigin := "Access-Control-Allow-Origin"
  const AllowHeaders := "Access-Control-Allow-Headers"
  const AllowMethods := "Access-Control-Allow-Methods"
  const AllowCredentials := "Access-Control-Allow-Credentials"
  const MaxAge := "Access-Control-Max-Age"
  const ExposeHeaders := "Access-Control-Expose-Headers"

  /** The Vary values a preflight response appends, in order. */
  const PreflightVary := ["Origin", "Access-Control-Request-Method", "Access-Control-Request-Headers"]

  /** Every header name a preflight response may write. */
  const PreflightNames := {Vary, AllowOrigin, AllowHeaders, AllowMethods, AllowCredentials, MaxAge}

  /** Every header name a normal CORS response may write. */
  const NormalNames := {Vary, AllowOrigin, AllowHeaders, ExposeHeaders, AllowCredentials}

  /** The header names the responder writes are pairwise distinct. */
  lemma NamesDistinct()
    ensures Vary != AllowOrigin && Vary != AllowHeaders && Vary != AllowMethods
    ensures Vary != AllowCredentials && Vary != MaxAge && Vary != ExposeHeaders
    ensures AllowOrigin != AllowHeaders && AllowOrigin != AllowMethods && AllowOrigin != AllowCredentials
    ensures AllowOrigin != MaxAge && AllowOrigin != ExposeHeaders && AllowHeaders != AllowMethods
    ensures AllowHeaders != AllowCredentials && AllowHeaders != MaxAge && AllowHeaders != ExposeHeaders
    ensures AllowMethods != AllowCredentials && AllowMethods != MaxAge && AllowMethods != ExposeHeaders
    ensures AllowCredentials != MaxAge && AllowCredentials != ExposeHeaders && MaxAge != ExposeHeaders
  {
  }

  /** Only the entry under k may differ between h and r. */
  ghost predicate OnlyChanged(r: HeaderMap, h: HeaderMap, k: string) {
    forall j :: j != k ==> Entry(r, j) == Entry(h, j)
  }

  /** A configured string header: exactly [v] when v is non-empty, untouched otherwise. */
  predicate SetWhenConfigured(r: HeaderMap, h: HeaderMap, k: string, v: string) {
    Entry(r, k) == if v != "" then Some([v]) else Entry(h, k)
  }

  /** Access-Control-Allow-Credentials: untouched when unset, else exactly the rendered boolean. */
  predicate CredentialsRule(r: HeaderMap, h: HeaderMap, c: Option<bool>) {
    Entry(r, AllowCredentials) == match c
      case None => Entry(h, AllowCredentials)
      case Some(b) => Some([Strconv.FormatBool(b)])
  }

  /** Access-Control-Max-Age: exactly the base-10 rendering when positive, untouched otherwise. */
  predicate MaxAgeRule(r: HeaderMap, h: HeaderMap, maxAge: int) {
    Entry(r, MaxAge) == if maxAge > 0 then Some([Strconv.Itoa(maxAge)]) else Entry(h, MaxAge)
  }

  /** r is what preflightRequest leaves in a response that carried h. */
  ghost predicate Preflighted(c: CorsConfig, h: HeaderMap, r: HeaderMap) {
    && Entry(r, Vary) == Some(Values(h, Vary) + PreflightVary)
    && SetWhenConfigured(r, h, AllowOrigin, c.allowedOrigin)
    && SetWhenConfigured(r, h, AllowHeaders, c.allowedHeaders)
    && SetWhenConfigured(r, h, AllowMethods, c.allowedMethods)
    && CredentialsRule(r, h, c.allowCredentials)
    && MaxAgeRule(r, h, c.maxAge)
    && forall k :: k !in PreflightNames ==> Entry(r, k) == Entry(h, k)
  }

  /** r is what corsHeaders leaves in a response that carried h. */
  ghost predicate Decorated(c: CorsConfig, h: HeaderMap, r: HeaderMap) {
    && Entry(r, Vary) == Some(Values(h, Vary) + ["Origin"])
    && SetWhenConfigured(r, h, AllowOrigin, c.allowedOrigin)
    && SetWhenConfigured(r, h, AllowHeaders, c.allowedHeaders)
    && SetWhenConfigured(r, h, ExposeHeaders, c.exposedHeaders)
    && CredentialsRule(r, h, c.allowCredentials)
    && forall k :: k !in NormalNames ==> Entry(r, k) == Entry(h, k)
  }

  /** The preflight rules leave no freedom: they determine the resulting headers. */
  lemma PreflightedDeterministic(c: CorsConfig, h: HeaderMap, r1: HeaderMap, r2: HeaderMap)
    requires Preflighted(c, h, r1) && Preflighted(c, h, r2)
    ensures r1 == r2
  {
    forall k ensures Entry(r1, k) == Entry(r2, k) {
      if k !in PreflightNames {
        assert Entry(r1, k) == Entry(h, k) == Entry(r2, k);
      }
    }
    EntriesDetermine(r1, r2);
  }

  /** The normal-path rules determine the resulting headers. */
  lemma DecoratedDeterministic(c: CorsConfig, h: HeaderMap, r1: HeaderMap, r2: HeaderMap)
    requires Decorated(c, h, r1) && Decorated(c, h, r2)
    ensures r1 == r2
  {
    forall k ensures Entry(r1, k) == Entry(r2, k) {
      if k !in NormalNames {
        assert Entry(r1, k) == Entry(h, k) == Entry(r2, k);
      }
    }
    EntriesDetermine(r1, r2);
  }

  /**
   * The two paths differ: only a preflight response writes Allow-Methods and
   * Max-Age, only a normal response writes Expose-Headers.
   */
  lemma PathAsymmetry(c: CorsConfig, h: HeaderMap, pre: HeaderMap, normal: HeaderMap)
    requires Preflighted(c, h, pre) && Decorated(c, h, normal)
    ensures Untouched(normal, h, AllowMethods) && Untouched(normal, h, MaxAge)
    ensures Untouched(pre, h, ExposeHeaders)
  {
  }

  /**
   * Unset and false are told apart: on a response without the header, an unset
   * allowCredentials leaves it absent, false writes "false" and true writes "true",
   * on either path.
   */
  lemma CredentialsTriState(c: CorsConfig, h: HeaderMap, r: HeaderMap)
    requires AllowCredentials !in h
    requires Preflighted(c, h, r) || Decorated(c, h, r)
    ensures AllowCredentials in r <==> c.allowCredentials.Some?
    ensures c.allowCredentials == Some(false) ==> r[AllowCredentials] == ["false"]
    ensures c.allowCredentials == Some(true) ==> r[AllowCredentials] == ["true"]
  {
  }

  /**
   * A positive maxAge is written as one value: its decimal digits, without a
   * leading zero, which read back give maxAge.
   */
  lemma MaxAgeIsDecimal(c: CorsConfig, h: HeaderMap, r: HeaderMap)
    requires Preflighted(c, h, r) && c.maxAge > 0
    ensures MaxAge in r
    ensures var vs := r[MaxAge];
      |vs| == 1 && |vs[0]| >= 1 && vs[0][0] != '0'
      && Strconv.AllDigits(vs[0]) && Strconv.DecimalValue(vs[0]) == c.maxAge
  {
  }

  /** headers.Set(k, v) guarded by v != "": an empty configured string omits the header. */
  method SetIfNonEmpty(headers: Header, k: string, v: string)
    modifies headers
    ensures SetWhenConfigured(headers.entries, old(headers.entries), k, v)
    ensures OnlyChanged(headers.entries, old(headers.entries), k)
  {
    if v != "" {
      headers.Set(k, v);
    }
  }

  /**
   * The two writes both paths begin with: Allow-Origin and Allow-Headers, each
   * only when configured.
   */
  method SetOriginAndHeaders(headers: Header, c: CorsConfig)
    modifies headers
    ensures SetWhenConfigured(headers.entries, old(headers.entries), AllowOrigin, c.allowedOrigin)
    ensures SetWhenConfigured(headers.entries, old(headers.entries), AllowHeaders, c.allowedHeaders)
    ensures forall j :: j != AllowOrigin && j != AllowHeaders ==> Entry(headers.entries, j) == Entry(old(headers.entries), j)
  {
    NamesDistinct();
    SetIfNonEmpty(headers, AllowOrigin, c.allowedOrigin);
    SetIfNonEmpty(headers, AllowHeaders, c.allowedHeaders);
  }

  /** headers.Set of Allow-Credentials guarded by the option being set. */
  method SetCredentials(headers: Header, c: Option<bool>)
    modifies headers
    ensures CredentialsRule(headers.entries, old(headers.entries), c)
    ensures OnlyChanged(headers.entries, old(headers.entries), AllowCredentials)
  {
    if c.Some? {
      headers.Set(AllowCredentials, Strconv.FormatBool(c.value));
    }
  }
}
