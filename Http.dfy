/**
 * The part of net/http the middleware touches: header maps (also the shape of
 * url.Values), requests, and the response writer seen as a record of the calls
 * made on it.
 */
module Http {

  /** http.Header and url.Values: each key maps to its values, in order. */
  type Header = map<string, seq<string>>

  /** Header.Get and Values.Get: the first value of the key, or "". */
  function Get(h: Header, key: string): (v: string)
    ensures v != "" ==> key in h && |h[key]| > 0 && v == h[key][0]
    ensures key in h && |h[key]| > 0 ==> v == h[key][0]
  {
    if key in h && |h[key]| > 0 then h[key][0] else ""
  }

  /** Header.Add: appends a value to the key. */
  function Add(h: Header, key: string, value: string): (r: Header)
    ensures r.Keys == h.Keys + {key}
    ensures r[key] == (if key in h then h[key] else []) + [value]
    ensures forall k :: k in h && k != key ==> r[k] == h[k]
  {
    h[key := (if key in h then h[key] else []) + [value]]
  }

  /** Header.Set: replaces the values of the key by one value. */
  function Set(h: Header, key: string, value: string): (r: Header)
    ensures r.Keys == h.Keys + {key}
    ensures r[key] == [value]
    ensures forall k :: k in h && k != key ==> r[k] == h[k]
  {
    h[key := [value]]
  }

  /** An incoming request; `verb` is its method. */
  datatype Request = Request(verb: string, path: string, header: Header, remoteAddr: string, query: Header)

  const MethodGet := "GET"
  const MethodPost := "POST"
  const MethodPut := "PUT"
  const MethodPatch := "PATCH"
  const MethodDelete := "DELETE"
  const MethodOptions := "OPTIONS"

  const StatusOK := 200
  const StatusCreated := 201

  /**
   * An http.ResponseWriter as the middleware sees it: its header map and, in order,
   * every WriteHeader status and every Write payload it was handed.
   */
  class Writer {
    var header: Header
    var statuses: seq<int>
    var writes: seq<seq<bv8>>

    constructor ()
      ensures header == map[] && statuses == [] && writes == []
    {
      header, statuses, writes := map[], [], [];
    }

    method AddHeader(key: string, value: string)
      modifies this
      ensures header == Add(old(header), key, value)
      ensures statuses == old(statuses) && writes == old(writes)
    {
      header := Add(header, key, value);
    }

    method SetHeader(key: string, value: string)
      modifies this
      ensures header == Set(old(header), key, value)
      ensures statuses == old(statuses) && writes == old(writes)
    {
      header := Set(header, key, value);
    }

    method WriteHeader(statusCode: int)
      modifies this
      ensures statuses == old(statuses) + [statusCode]
      ensures header == old(header) && writes == old(writes)
    {
      statuses := statuses + [statusCode];
    }

    method Write(b: seq<bv8>)
      modifies this
      ensures writes == old(writes) + [b]
      ensures header == old(header) && statuses == old(statuses)
    {
      writes := writes + [b];
    }
  }
}
