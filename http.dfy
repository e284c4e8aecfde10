/**
 * The parts of Go's net/http that the middleware touches: the header
 * multimap with its Add and Set, a response writer that records the status,
 * a request, and the downstream handler.
 *
 * Header names are taken to be in canonical form already, so the
 * canonicalisation that Header.Add and Header.Set apply is the identity.
 */
module Http {
  import opened Wrappers

  /** A header multimap: each header name maps to its values in the order they were added. */
  type HeaderMap = map<string, seq<string>>

  /** The values recorded under k; none when k is absent (Header.Values). */
  function Values(h: HeaderMap, k: string): seq<string> {
    if k in h then h[k] else []
  }

  /** The list stored under k, or None when k is absent: what Go's h[k] with its ok flag tells. */
  function Entry(h: HeaderMap, k: string): Option<seq<string>> {
    if k in h then Some(h[k]) else None
  }

  /** k is present in r exactly when it is in h, with the same values. */
  predicate Untouched(r: HeaderMap, h: HeaderMap, k: string) {
    Entry(r, k) == Entry(h, k)
  }

  /** Two header maps with the same entry under every name are equal. */
  lemma EntriesDetermine(r: HeaderMap, h: HeaderMap)
    requires forall k :: Entry(r, k) == Entry(h, k)
    ensures r == h
  {
    forall k | k in r ensures k in h && r[k] == h[k] {
      assert Entry(r, k) == Entry(h, k);
    }
    forall k | k in h ensures k in r {
      assert Entry(r, k) == Entry(h, k);
    }
  }

  /** Header.Add: v is appended to the values of k. */
  function AddValue(h: HeaderMap, k: string, v: string): HeaderMap {
    h[k := Values(h, k) + [v]]
  }

  /** Header.Set: the values of k are replaced by the single value v. */
  function SetValue(h: HeaderMap, k: string, v: string): HeaderMap {
    h[k := [v]]
  }

  /**
   * The effect of calling Header.Add once for every entry of m, in any order:
   * the keys of m are distinct, so no two calls touch the same list.
   */
  function AddAll(h: HeaderMap, m: map<string, string>): (r: HeaderMap)
    ensures r.Keys == h.Keys + m.Keys
    ensures forall k :: k in m ==> r[k] == Values(h, k) + [m[k]]
    ensures forall k :: k !in m ==> Untouched(r, h, k)
  {
    h + map k | k in m :: Values(h, k) + [m[k]]
  }

  /** The effect of calling Header.Set once for every entry of m, in any order. */
  function SetAll(h: HeaderMap, m: map<string, string>): (r: HeaderMap)
    ensures r.Keys == h.Keys + m.Keys
    ensures forall k :: k in m ==> r[k] == [m[k]]
    ensures forall k :: k !in m ==> Untouched(r, h, k)
  {
    h + map k | k in m :: [m[k]]
  }

  /** A map that agrees with Add(k, v) under every name is the result of that Add. */
  lemma AddValueByEntries(r: HeaderMap, h: HeaderMap, k: string, v: string)
    requires Entry(r, k) == Some(Values(h, k) + [v])
    requires forall j :: j != k ==> Entry(r, j) == Entry(h, j)
    ensures r == AddValue(h, k, v)
  {
    var a := AddValue(h, k, v);
    forall j ensures Entry(r, j) == Entry(a, j) {
      if j != k {
        assert Entry(r, j) == Entry(h, j);
      }
    }
    EntriesDetermine(r, a);
  }

  /** A map that agrees with Set(k, v) under every name is the result of that Set. */
  lemma SetValueByEntries(r: HeaderMap, h: HeaderMap, k: string, v: string)
    requires Entry(r, k) == Some([v])
    requires forall j :: j != k ==> Entry(r, j) == Entry(h, j)
    ensures r == SetValue(h, k, v)
  {
    var a := SetValue(h, k, v);
    forall j ensures Entry(r, j) == Entry(a, j) {
      if j != k {
        assert Entry(r, j) == Entry(h, j);
      }
    }
    EntriesDetermine(r, a);
  }

  /** Taking one more key k out of the keys still to do adds k's entry to what is done. */
  lemma DoneGrows(m: map<string, string>, todo: set<string>, k: string)
    requires k in todo && todo <= m.Keys
    ensures k !in m - todo
    ensures m - (todo - {k}) == (m - todo)[k := m[k]]
  {
  }

  /** One more Add, for a key not yet added, extends AddAll by that key. */
  lemma AddAllStep(h: HeaderMap, done: map<string, string>, k: string, v: string)
    requires k !in done
    ensures AddAll(h, done[k := v]) == AddValue(AddAll(h, done), k, v)
  {
  }

  /** One more Set, for a key not yet set, extends SetAll by that key. */
  lemma SetAllStep(h: HeaderMap, done: map<string, string>, k: string, v: string)
    requires k !in done
    ensures SetAll(h, done[k := v]) == SetValue(SetAll(h, done), k, v)
  {
  }

  /**
   * Adding the entries of m keeps every value k already had, in its order,
   * and appends the configured value exactly once.
   */
  lemma AddAllAppendsOnce(h: HeaderMap, m: map<string, string>, k: string)
    requires k in m
    ensures var before, after := Values(h, k), Values(AddAll(h, m), k);
      && before <= after
      && |after| == |before| + 1
      && after[|before|] == m[k]
      && multiset(after)[m[k]] == multiset(before)[m[k]] + 1
  {
  }

  /** Setting the same entries twice is the same as setting them once. */
  lemma SetAllIdempotent(h: HeaderMap, m: map<string, string>)
    ensures SetAll(SetAll(h, m), m) == SetAll(h, m)
  {
  }

  /** Adding the same entries twice duplicates each configured value. */
  lemma AddAllTwice(h: HeaderMap, m: map<string, string>, k: string)
    requires k in m
    ensures Values(AddAll(AddAll(h, m), m), k) == Values(h, k) + [m[k], m[k]]
  {
  }

  /** http.Header as a reference to a mutable multimap. */
  class Header {
    var entries: HeaderMap

    constructor (entries: HeaderMap)
      ensures this.entries == entries
    {
      this.entries := entries;
    }

    /**
     * Header.Add. The contract is stated name by name rather than as
     * `entries == AddValue(old(entries), k, v)`: the callers reason about one
     * name at a time, and AddValueByEntries recovers the map equality where
     * the loops need it.
     */
    method Add(k: string, v: string)
      modifies this
      ensures Values(entries, k) == Values(old(entries), k) + [v]
      ensures Entry(entries, k) == Some(Values(old(entries), k) + [v])
      ensures forall j :: j != k ==> Entry(entries, j) == Entry(old(entries), j)
    {
      entries := entries[k := Values(entries, k) + [v]];
    }

    /** Header.Set, stated name by name for the same reason as Add (see SetValueByEntries). */
    method Set(k: string, v: string)
      modifies this
      ensures Entry(entries, k) == Some([v])
      ensures forall j :: j != k ==> Entry(entries, j) == Entry(old(entries), j)
    {
      entries := entries[k := [v]];
    }
  }

  /**
   * The status a response carries after WriteHeader(code): the first one
   * written stays. It is the specification of ResponseWriter.WriteHeader,
   * used by the contracts that mention the status.
   */
  function Written(status: Option<int>, code: int): Option<int> {
    if status.None? then Some(code) else status
  }

  /**
   * An http.ResponseWriter: its header map, the status written (None until
   * then) and the headers sent with that status. net/http sends the header
   * map as it is at the first WriteHeader; later changes to it have no effect.
   */
  class ResponseWriter {
    const header: Header
    var status: Option<int>
    var sent: Option<HeaderMap>

    constructor (header: Header)
      ensures this.header == header && status.None? && sent.None?
    {
      this.header := header;
      status := None;
      sent := None;
    }

    /** ResponseWriter.WriteHeader; a second call changes neither the status nor the headers sent. */
    method WriteHeader(code: int)
      modifies this
      ensures status == Written(old(status), code)
      ensures old(status).None? ==> sent == Some(header.entries)
      ensures old(status).Some? ==> sent == old(sent)
    {
      if status.None? {
        status := Some(code);
        sent := Some(header.entries);
      }
    }
  }

  /** An http.Request: its method (the HTTP verb) and its header map. */
  class Request {
    const verb: string
    const header: Header

    constructor (verb: string, header: Header)
      ensures this.verb == verb && this.header == header
    {
      this.verb := verb;
      this.header := header;
    }
  }

  /**
   * The next http.Handler in the chain, observed through how often it is
   * invoked and the request and response headers it was last handed.
   */
  class Handler {
    var invocations: nat
    var seenRequest: HeaderMap
    var seenResponse: HeaderMap

    constructor ()
      ensures invocations == 0 && seenRequest == map[] && seenResponse == map[]
    {
      invocations := 0;
      seenRequest := map[];
      seenResponse := map[];
    }

    /** Handler.ServeHTTP: it receives the headers as they are at the moment of the call. */
    method ServeHTTP(w: ResponseWriter, r: Request)
      modifies this
      ensures invocations == old(invocations) + 1
      ensures seenRequest == r.header.entries && seenResponse == w.header.entries
    {
      invocations := invocations + 1;
      seenRequest := r.header.entries;
      seenResponse := w.header.entries;
    }
  }
}
