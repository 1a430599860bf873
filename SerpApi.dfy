/**
 * The search gateway (src/app/serp-api.ts): the query parameters of one
 * request to the search aggregation service, and the rule that turns the
 * HTTP outcome into "a parsed body" or "no result".
 */
module SerpApi {
  import opened Wrappers

  /** One query parameter, as passed to `URLSearchParams.append`. */
  type Param = (string, string)

  /** The engine tag that selects the reviews-directory backend. */
  const YELP := "yelp"

  /** The entries the attribute list contributes: one `attrs` entry per attribute, in order. */
  function AttrEntries(attrs: seq<string>): seq<Param>
  {
    if attrs == [] then [] else [("attrs", attrs[0])] + AttrEntries(attrs[1..])
  }

  /** The entry an optional filter contributes: one entry when the string is truthy, none otherwise. */
  function OptionalEntry(key: string, v: Option<string>): seq<Param>
  {
    if Truthy(v) then [(key, v.value)] else []
  }

  /** The attributes that are appended: none unless the list is present and non-empty. */
  function AttrList(attrs: Option<seq<string>>): seq<string>
  {
    if attrs.Some? && |attrs.value| > 0 then attrs.value else []
  }

  /** The parameter list of one request, in the order the builder appends them. */
  function SearchParams(engine: string, q: string, location: string, apiKey: string,
                        cflt: Option<string>, sortby: Option<string>,
                        attrs: Option<seq<string>>): seq<Param>
  {
    if engine == YELP
    then [("engine", engine)] + [("find_desc", q)] + [("find_loc", location)]
         + OptionalEntry("cflt", cflt) + OptionalEntry("sortby", sortby)
         + AttrEntries(AttrList(attrs)) + [("api_key", apiKey)]
    else [("engine", engine)] + [("q", q)] + [("location", location)] + [("api_key", apiKey)]
  }

  /** The number of entries in `ps` whose key is `key`. */
  function KeyCount(ps: seq<Param>, key: string): nat
  {
    if ps == [] then 0 else (if ps[0].0 == key then 1 else 0) + KeyCount(ps[1..], key)
  }

  /** The variable part of the length of a Yelp request: one per truthy filter, one per attribute. */
  function YelpExtras(cflt: Option<string>, sortby: Option<string>, attrs: Option<seq<string>>): nat
  {
    (if Truthy(cflt) then 1 else 0) + (if Truthy(sortby) then 1 else 0) + |AttrList(attrs)|
  }

  /** The `attrs.forEach` loop: appends one `attrs` entry per attribute, in order. */
  method AppendAttrs(ps: seq<Param>, list: seq<string>) returns (ps': seq<Param>)
    ensures ps' == ps + AttrEntries(list)
  {
    ps' := ps;
    for i := 0 to |list|
      invariant ps' == ps + AttrEntries(list[..i])
    {
      AttrEntriesSnoc(list[..i], list[i]);
      assert list[..i + 1] == list[..i] + [list[i]];
      ps' := ps' + [("attrs", list[i])];
    }
    assert list[..|list|] == list;
  }

  /**
   * Builds the query parameters by successive appends, as `fetchSerpApiData`
   * does on `url.searchParams`.
   */
  method BuildParams(engine: string, q: string, location: string, apiKey: string,
                     cflt: Option<string>, sortby: Option<string>,
                     attrs: Option<seq<string>>) returns (ps: seq<Param>)
    ensures ps == SearchParams(engine, q, location, apiKey, cflt, sortby, attrs)
  {
    ps := [("engine", engine)];
    if engine == YELP {
      ps := ps + [("find_desc", q)];
      ps := ps + [("find_loc", location)];
      ghost var fixed := ps;
      if Truthy(cflt) {
        ps := ps + [("cflt", cflt.value)];
      } else {
        assert ps == fixed + [];
      }
      assert ps == fixed + OptionalEntry("cflt", cflt);
      ghost var filtered := ps;
      if Truthy(sortby) {
        ps := ps + [("sortby", sortby.value)];
      } else {
        assert ps == filtered + [];
      }
      assert ps == filtered + OptionalEntry("sortby", sortby);
      ghost var head := ps;
      if attrs.Some? && |attrs.value| > 0 {
        ps := AppendAttrs(ps, attrs.value);
      } else {
        assert ps == head + [];
      }
      assert ps == head + AttrEntries(AttrList(attrs));
    } else {
      ps := ps + [("q", q)];
      ps := ps + [("location", location)];
    }
    ps := ps + [("api_key", apiKey)];
  }

  lemma {:induction false} AttrEntriesSnoc(attrs: seq<string>, a: string)
    ensures AttrEntries(attrs + [a]) == AttrEntries(attrs) + [("attrs", a)]
  {
    if attrs != [] {
      assert (attrs + [a])[1..] == attrs[1..] + [a];
      AttrEntriesSnoc(attrs[1..], a);
    }
  }

  /** Each attribute yields exactly one `("attrs", a)` entry, in input order. */
  lemma {:induction false} AttrEntriesShape(attrs: seq<string>)
    ensures |AttrEntries(attrs)| == |attrs|
    ensures forall k :: 0 <= k < |attrs| ==> AttrEntries(attrs)[k] == ("attrs", attrs[k])
  {
    if attrs != [] {
      AttrEntriesShape(attrs[1..]);
    }
  }

  lemma {:induction false} KeyCountAppend(a: seq<Param>, b: seq<Param>, key: string)
    ensures KeyCount(a + b, key) == KeyCount(a, key) + KeyCount(b, key)
  {
    if a == [] {
      assert a + b == b;
    } else {
      assert (a + b)[0] == a[0];
      assert (a + b)[1..] == a[1..] + b;
      KeyCountAppend(a[1..], b, key);
    }
  }

  lemma {:induction false} KeyCountAttrEntries(attrs: seq<string>, key: string)
    ensures KeyCount(AttrEntries(attrs), key) == if key == "attrs" then |attrs| else 0
  {
    if attrs != [] {
      KeyCountAttrEntries(attrs[1..], key);
    }
  }

  /** The first parameter is the engine and the last is the API key, for every input. */
  lemma EngineFirstKeyLast(engine: string, q: string, location: string, apiKey: string,
                           cflt: Option<string>, sortby: Option<string>, attrs: Option<seq<string>>)
    ensures var ps := SearchParams(engine, q, location, apiKey, cflt, sortby, attrs);
      |ps| >= 4 && ps[0] == ("engine", engine) && ps[|ps| - 1] == ("api_key", apiKey)
  {
  }

  /** A Yelp request is a fixed head of length 3 plus the truthy filters, then the attributes, then the key. */
  lemma YelpSplit(q: string, location: string, apiKey: string,
                  cflt: Option<string>, sortby: Option<string>, attrs: Option<seq<string>>)
    returns (head: seq<Param>)
    ensures SearchParams(YELP, q, location, apiKey, cflt, sortby, attrs)
         == head + AttrEntries(AttrList(attrs)) + [("api_key", apiKey)]
    ensures |head| == 3 + YelpExtras(cflt, sortby, attrs) - |AttrList(attrs)|
    ensures head[0] == ("engine", YELP) && head[1] == ("find_desc", q) && head[2] == ("find_loc", location)
    ensures forall i :: 3 <= i < |head| ==> head[i].0 in {"cflt", "sortby"}
  {
    head := [("engine", YELP)] + [("find_desc", q)] + [("find_loc", location)]
            + OptionalEntry("cflt", cflt) + OptionalEntry("sortby", sortby);
  }

  /**
   * A Yelp request carries `find_desc` and `find_loc` right after the engine,
   * and its length is 4 plus one per truthy filter and one per attribute.
   */
  lemma YelpLayout(q: string, location: string, apiKey: string,
                   cflt: Option<string>, sortby: Option<string>, attrs: Option<seq<string>>)
    ensures var ps := SearchParams(YELP, q, location, apiKey, cflt, sortby, attrs);
      && |ps| == 4 + YelpExtras(cflt, sortby, attrs)
      && ps[1] == ("find_desc", q) && ps[2] == ("find_loc", location)
  {
    var head := YelpSplit(q, location, apiKey, cflt, sortby, attrs);
    AttrEntriesShape(AttrList(attrs));
  }

  /** A Yelp request never carries a `q` or a `location` key. */
  lemma YelpHasNoGenericKeys(q: string, location: string, apiKey: string,
                             cflt: Option<string>, sortby: Option<string>, attrs: Option<seq<string>>)
    ensures var ps := SearchParams(YELP, q, location, apiKey, cflt, sortby, attrs);
      forall i :: 0 <= i < |ps| ==> ps[i].0 != "q" && ps[i].0 != "location"
  {
    var list := AttrList(attrs);
    var head := YelpSplit(q, location, apiKey, cflt, sortby, attrs);
    AttrEntriesShape(list);
    var ps := SearchParams(YELP, q, location, apiKey, cflt, sortby, attrs);
    forall i | 0 <= i < |ps|
      ensures ps[i].0 != "q" && ps[i].0 != "location"
    {
      if i < |head| {
        assert ps[i] == head[i];
      } else if i < |head| + |list| {
        assert ps[i] == AttrEntries(list)[i - |head|];
      }
    }
  }

  /** The attributes follow the filters, one `("attrs", a)` entry each, in input order. */
  lemma YelpAttrsInOrder(q: string, location: string, apiKey: string,
                         cflt: Option<string>, sortby: Option<string>, attrs: Option<seq<string>>)
    ensures var ps := SearchParams(YELP, q, location, apiKey, cflt, sortby, attrs);
      var extras := YelpExtras(cflt, sortby, attrs);
      var list := AttrList(attrs);
      forall k :: 0 <= k < |list| ==> |ps| > 3 + extras - |list| + k && ps[3 + extras - |list| + k] == ("attrs", list[k])
  {
    var list := AttrList(attrs);
    var head := YelpSplit(q, location, apiKey, cflt, sortby, attrs);
    AttrEntriesShape(list);
  }

  /**
   * Any engine other than Yelp gets exactly engine, q, location and api_key:
   * the Yelp-only filters are ignored even when supplied.
   */
  lemma OtherEngineLayout(engine: string, q: string, location: string, apiKey: string,
                          cflt: Option<string>, sortby: Option<string>, attrs: Option<seq<string>>)
    requires engine != YELP
    ensures SearchParams(engine, q, location, apiKey, cflt, sortby, attrs)
         == [("engine", engine), ("q", q), ("location", location), ("api_key", apiKey)]
  {
  }

  /**
   * `cflt` and `sortby` each occur at most once, exactly when the engine is
   * Yelp and the string is present and non-empty; `attrs` occurs once per
   * appended attribute, and never for an absent or empty list.
   */
  lemma FilterCounts(engine: string, q: string, location: string, apiKey: string,
                     cflt: Option<string>, sortby: Option<string>, attrs: Option<seq<string>>)
    ensures var ps := SearchParams(engine, q, location, apiKey, cflt, sortby, attrs);
      && KeyCount(ps, "cflt") == (if engine == YELP && Truthy(cflt) then 1 else 0)
      && KeyCount(ps, "sortby") == (if engine == YELP && Truthy(sortby) then 1 else 0)
      && KeyCount(ps, "attrs") == (if engine == YELP then |AttrList(attrs)| else 0)
  {
    FilterCount(engine, q, location, apiKey, cflt, sortby, attrs, "cflt");
    FilterCount(engine, q, location, apiKey, cflt, sortby, attrs, "sortby");
    FilterCount(engine, q, location, apiKey, cflt, sortby, attrs, "attrs");
  }

  lemma FilterCount(engine: string, q: string, location: string, apiKey: string,
                    cflt: Option<string>, sortby: Option<string>, attrs: Option<seq<string>>,
                    key: string)
    requires key in {"cflt", "sortby", "attrs"}
    ensures KeyCount(SearchParams(engine, q, location, apiKey, cflt, sortby, attrs), key)
         == if engine != YELP then 0
            else if key == "cflt" then (if Truthy(cflt) then 1 else 0)
            else if key == "sortby" then (if Truthy(sortby) then 1 else 0)
            else |AttrList(attrs)|
  {
    KeyCountFilters(engine, q, location, apiKey, cflt, sortby, attrs, key);
    KeyCountSingle(("cflt", cflt.GetOr("")), key);
    KeyCountSingle(("sortby", sortby.GetOr("")), key);
    KeyCountAttrEntries(AttrList(attrs), key);
  }

  lemma KeyCountSingle(p: Param, key: string)
    ensures KeyCount([p], key) == if p.0 == key then 1 else 0
  {
    assert [p][1..] == [];
  }

  /** Only the two filters and the attributes can carry a key other than the fixed ones. */
  lemma KeyCountFilters(engine: string, q: string, location: string, apiKey: string,
                        cflt: Option<string>, sortby: Option<string>, attrs: Option<seq<string>>,
                        key: string)
    requires key !in {"engine", "find_desc", "find_loc", "q", "location", "api_key"}
    ensures KeyCount(SearchParams(engine, q, location, apiKey, cflt, sortby, attrs), key)
         == if engine == YELP
            then KeyCount(OptionalEntry("cflt", cflt), key) + KeyCount(OptionalEntry("sortby", sortby), key)
                 + KeyCount(AttrEntries(AttrList(attrs)), key)
            else 0
  {
    var e, k := [("engine", engine)], [("api_key", apiKey)];
    KeyCountSingle(e[0], key);
    KeyCountSingle(k[0], key);
    if engine == YELP {
      var a, b := [("find_desc", q)], [("find_loc", location)];
      var c, s := OptionalEntry("cflt", cflt), OptionalEntry("sortby", sortby);
      var d := AttrEntries(AttrList(attrs));
      KeyCountSingle(a[0], key);
      KeyCountSingle(b[0], key);
      KeyCountAppend(e + a + b + c + s + d, k, key);
      KeyCountAppend(e + a + b + c + s, d, key);
      KeyCountAppend(e + a + b + c, s, key);
      KeyCountAppend(e + a + b, c, key);
      KeyCountAppend(e + a, b, key);
      KeyCountAppend(e, a, key);
    } else {
      var a, b := [("q", q)], [("location", location)];
      KeyCountSingle(a[0], key);
      KeyCountSingle(b[0], key);
      KeyCountAppend(e + a + b, k, key);
      KeyCountAppend(e + a, b, key);
      KeyCountAppend(e, a, key);
    }
  }

  /** What the fetch of one request produced. */
  datatype FetchResponse<J> =
    | TransportFailure
      /** `body` is `None` when `response.json()` rejects. */
    | HttpResponse(status: int, body: Option<J>)

  /** `response.ok`: the status is in the 2xx range. */
  predicate Ok(status: int)
  {
    200 <= status <= 299
  }

  /**
   * The value `fetchSerpApiData` resolves to: the parsed body on a 2xx
   * response; `undefined` on any other status, a transport failure or an
   * unparsable body, since the error is caught and only logged.
   */
  function FetchOutcome<J>(response: FetchResponse<J>): (result: Option<J>)
    ensures result.Some? <==> response.HttpResponse? && Ok(response.status) && response.body.Some?
    ensures result.Some? ==> result == response.body
  {
    match response
    case TransportFailure => None
    case HttpResponse(status, body) => if Ok(status) then body else None
  }

  /**
   * `fetchSerpApiData`: builds the request's parameters and resolves the
   * network's answer to them; it never fails.
   */
  method FetchSerpApiData<J>(engine: string, q: string, location: string, apiKey: string,
                             cflt: Option<string>, sortby: Option<string>,
                             attrs: Option<seq<string>>, response: FetchResponse<J>)
    returns (sent: seq<Param>, result: Option<J>)
    ensures sent == SearchParams(engine, q, location, apiKey, cflt, sortby, attrs)
    ensures result == FetchOutcome(response)
  {
    sent := BuildParams(engine, q, location, apiKey, cflt, sortby, attrs);
    result := FetchOutcome(response);
  }
}
