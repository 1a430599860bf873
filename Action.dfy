/**
 * The server action of src/app/action.tsx: the out-of-band data channel of a
 * turn, the dispatch on the function name the model calls, the two loops that
 * append normalised suggestions, and the `ui` hook's card-or-prose decision.
 * The completions themselves are opaque: a branch that searched only reports
 * that it returns a follow-up completion.
 */
module Action {
  import opened Wrappers
  import opened Suggestions
  import SerpApi
  import StarRating

  const GOOGLE_FUNCTION := "get_restaurant_suggestions_google"
  const YELP_FUNCTION := "get_restaurant_suggestions_yelp"
  /** The engine tag the Google branch passes to the gateway. */
  const GOOGLE_ENGINE := "google_local"

  /**
   * `experimental_StreamData`: an append-only list of items with a closed
   * flag. An append after `close()` adds nothing.
   */
  class StreamData {
    var items: seq<BubbleOption>
    var closed: bool

    constructor ()
      ensures items == [] && !closed
    {
      items := [];
      closed := false;
    }

    /** `data.append(x)`: extends the items by `x` while the channel is open. */
    method Append(x: BubbleOption) returns (accepted: bool)
      modifies this
      ensures accepted == !old(closed)
      ensures closed == old(closed)
      ensures items == if accepted then old(items) + [x] else old(items)
    {
      accepted := !closed;
      if accepted {
        items := items + [x];
      }
    }

    /** `data.close()`, called from `onFinal`: seals the channel and keeps the items. */
    method Close()
      modifies this
      ensures closed && items == old(items)
    {
      closed := true;
    }
  }

  /** A search response body: the two provider arrays, either of which may be missing. */
  datatype SearchBody = SearchBody(
    localResults: Option<seq<LocalResult>>,
    organicResults: Option<seq<OrganicResult>>)

  /** The arguments the model supplied with its function call. */
  datatype FunctionArgs = FunctionArgs(
    cuisine: string,
    location: string,
    cflt: Option<string>,
    sortby: Option<string>,
    attrs: Option<seq<string>>)

  /**
   * What `experimental_onFunctionCall` returns: `undefined`, or the follow-up
   * completion issued after searching with the parameters `searched`.
   */
  datatype CallResult = Undefined | FollowUpCompletion(searched: seq<SerpApi.Param>)

  /** The `local_results` of the search outcome; a missing body or array gives no results. */
  function LocalResultsOf(body: Option<SearchBody>): seq<LocalResult>
  {
    if body.Some? && body.value.localResults.Some? then body.value.localResults.value else []
  }

  /** The `organic_results` of the search outcome; a missing body or array gives no results. */
  function OrganicResultsOf(body: Option<SearchBody>): seq<OrganicResult>
  {
    if body.Some? && body.value.organicResults.Some? then body.value.organicResults.value else []
  }

  /** The parameters a function call sends to the gateway, when the name is one of the two. */
  function RequestOf(name: string, args: FunctionArgs, apiKey: string): seq<SerpApi.Param>
  {
    if name == GOOGLE_FUNCTION
    then SerpApi.SearchParams(GOOGLE_ENGINE, args.cuisine, args.location, apiKey, None, None, None)
    else SerpApi.SearchParams(SerpApi.YELP, args.cuisine, args.location, apiKey, args.cflt, args.sortby, args.attrs)
  }

  /** The items one function call appends to an open channel, given the network's answer. */
  function CallItems(name: string, response: SerpApi.FetchResponse<SearchBody>): seq<BubbleOption>
  {
    var body := SerpApi.FetchOutcome(response);
    if name == GOOGLE_FUNCTION then LocalItems(LocalResultsOf(body))
    else if name == YELP_FUNCTION then OrganicItems(OrganicResultsOf(body))
    else []
  }

  /** The Google `local_results.forEach`: one `data.append` per result, in order. */
  method AppendLocal(data: StreamData, rs: seq<LocalResult>)
    modifies data
    ensures data.closed == old(data.closed)
    ensures data.items == if old(data.closed) then old(data.items) else old(data.items) + LocalItems(rs)
  {
    for i := 0 to |rs|
      invariant data.closed == old(data.closed)
      invariant data.items == if old(data.closed) then old(data.items) else old(data.items) + LocalItems(rs[..i])
    {
      LocalItemsSnoc(rs[..i], rs[i]);
      assert rs[..i + 1] == rs[..i] + [rs[i]];
      var _ := data.Append(FromLocal(rs[i]));
    }
    assert rs[..|rs|] == rs;
  }

  /** The Yelp `organic_results.forEach`: one `data.append` per result, in order. */
  method AppendOrganic(data: StreamData, rs: seq<OrganicResult>)
    modifies data
    ensures data.closed == old(data.closed)
    ensures data.items == if old(data.closed) then old(data.items) else old(data.items) + OrganicItems(rs)
  {
    for i := 0 to |rs|
      invariant data.closed == old(data.closed)
      invariant data.items == if old(data.closed) then old(data.items) else old(data.items) + OrganicItems(rs[..i])
    {
      OrganicItemsSnoc(rs[..i], rs[i]);
      assert rs[..i + 1] == rs[..i] + [rs[i]];
      var _ := data.Append(FromOrganic(rs[i]));
    }
    assert rs[..|rs|] == rs;
  }

  /**
   * `experimental_onFunctionCall`: at most one branch runs. A known name
   * searches through the gateway (`response` is the network's answer),
   * appends the normalised results and returns a follow-up completion; any
   * other name appends nothing and returns `undefined`.
   */
  method OnFunctionCall(data: StreamData, name: string, args: FunctionArgs, apiKey: string,
                        response: SerpApi.FetchResponse<SearchBody>) returns (r: CallResult)
    modifies data
    ensures data.closed == old(data.closed)
    ensures data.items == if old(data.closed) then old(data.items) else old(data.items) + CallItems(name, response)
    ensures name != GOOGLE_FUNCTION && name != YELP_FUNCTION ==> r == Undefined && data.items == old(data.items)
    ensures name == GOOGLE_FUNCTION || name == YELP_FUNCTION ==> r == FollowUpCompletion(RequestOf(name, args, apiKey))
  {
    if name == GOOGLE_FUNCTION {
      var sent, suggestions := SerpApi.FetchSerpApiData(GOOGLE_ENGINE, args.cuisine, args.location, apiKey,
                                                       None, None, None, response);
      AppendLocal(data, LocalResultsOf(suggestions));
      return FollowUpCompletion(sent);
    } else if name == YELP_FUNCTION {
      var sent, suggestions := SerpApi.FetchSerpApiData(SerpApi.YELP, args.cuisine, args.location, apiKey,
                                                       args.cflt, args.sortby, args.attrs, response);
      AppendOrganic(data, OrganicResultsOf(suggestions));
      return FollowUpCompletion(sent);
    }
    return Undefined;
  }

  /** Every item a call appends is tagged "bubble_option", one per provider result. */
  lemma CallItemsShape(name: string, response: SerpApi.FetchResponse<SearchBody>)
    ensures var items := CallItems(name, response);
      var body := SerpApi.FetchOutcome(response);
      && |items| == (if name == GOOGLE_FUNCTION then |LocalResultsOf(body)|
                     else if name == YELP_FUNCTION then |OrganicResultsOf(body)| else 0)
      && forall k :: 0 <= k < |items| ==> items[k].kind == BUBBLE_OPTION
  {
    var body := SerpApi.FetchOutcome(response);
    var items := CallItems(name, response);
    if name == GOOGLE_FUNCTION {
      var rs := LocalResultsOf(body);
      if rs != [] {
        LocalItemsAt(rs, 0);
      }
      forall k | 0 <= k < |items|
        ensures items[k].kind == BUBBLE_OPTION
      {
        LocalItemsAt(rs, k);
      }
    } else if name == YELP_FUNCTION {
      var rs := OrganicResultsOf(body);
      if rs != [] {
        OrganicItemsAt(rs, 0);
      }
      forall k | 0 <= k < |items|
        ensures items[k].kind == BUBBLE_OPTION
      {
        OrganicItemsAt(rs, k);
      }
    }
  }

  /** A failed search (transport failure, non-2xx status or unparsable body) appends nothing. */
  lemma FailedSearchAppendsNothing(name: string, response: SerpApi.FetchResponse<SearchBody>)
    requires response.TransportFailure? || !SerpApi.Ok(response.status) || response.body.None?
    ensures CallItems(name, response) == []
  {
  }

  /** One result card: what the grid shows for an item. */
  datatype Card = Card(
    title: Option<string>,
    rating: Option<real>,
    stars: seq<StarRating.Star>,
    reviews: Option<int>,
    price: Option<string>,
    hoursBadge: Option<string>)

  /** What `ui` renders: a card grid followed by the prose, or the prose alone. */
  datatype View = CardGrid(cards: seq<Card>, content: string) | Prose(content: string)

  /** The card of one item; the hours badge appears only for truthy hours. */
  function CardOf(o: BubbleOption): Card
  {
    Card(o.title, o.rating, StarRating.Stars(o.rating), o.reviews, o.price,
         if Truthy(o.hours) then o.hours else None)
  }

  /** `data.map(...)`: one card per item, in order. */
  function Cards(data: seq<BubbleOption>): seq<Card>
  {
    if data == [] then [] else [CardOf(data[0])] + Cards(data[1..])
  }

  /**
   * The `ui` hook: a card grid with one card per item exactly when item 0 is
   * tagged "bubble_option"; prose only otherwise, including when there is no
   * data. The prose is always shown.
   */
  function Ui(content: string, data: Option<seq<BubbleOption>>): (v: View)
    ensures v.CardGrid? <==> data.Some? && |data.value| > 0 && data.value[0].kind == BUBBLE_OPTION
    ensures v.content == content
    ensures v.CardGrid? ==> v.cards == Cards(data.value)
  {
    if data.Some? && |data.value| > 0 && data.value[0].kind == BUBBLE_OPTION
    then CardGrid(Cards(data.value), content)
    else Prose(content)
  }

  /**
   * The grid's cards follow the items one for one: card `k` shows item `k`'s
   * title, rating, stars, review count and price, and carries an hours badge
   * iff the item's hours are present and not empty.
   */
  lemma {:induction false} CardsAt(data: seq<BubbleOption>, k: nat)
    requires k < |data|
    ensures |Cards(data)| == |data|
    ensures var c := Cards(data)[k];
      && c.title == data[k].title && c.rating == data[k].rating && c.reviews == data[k].reviews
      && c.price == data[k].price && c.stars == StarRating.Stars(data[k].rating)
      && (c.hoursBadge.Some? <==> data[k].hours.Some? && data[k].hours.value != "")
      && (c.hoursBadge.Some? ==> c.hoursBadge == data[k].hours)
  {
    if k > 0 {
      CardsAt(data[1..], k - 1);
    } else if |data| > 1 {
      CardsAt(data[1..], 0);
    }
  }

  /** What the model replied with: prose only, or a call of a named function. */
  datatype ModelReply = Text | FunctionCall(name: string, args: FunctionArgs)

  /** The items a whole turn delivers to the client. */
  function TurnItems(reply: ModelReply, response: SerpApi.FetchResponse<SearchBody>): seq<BubbleOption>
  {
    if reply.FunctionCall? then CallItems(reply.name, response) else []
  }

  /**
   * `handler`, one turn: a fresh channel, the function call (if the model made
   * one), `onFinal` closing the channel (`sealed` is its closed flag at the
   * end of the turn), and the `ui` hook applied to the delivered items. Cards are shown exactly when a known function was called
   * and its search returned at least one result.
   */
  method Handler(reply: ModelReply, apiKey: string, response: SerpApi.FetchResponse<SearchBody>,
                 content: string)
    returns (result: CallResult, delivered: seq<BubbleOption>, sealed: bool, view: View)
    ensures sealed
    ensures delivered == TurnItems(reply, response)
    ensures view == Ui(content, Some(delivered))
    ensures view.CardGrid? <==> reply.FunctionCall? && |delivered| > 0
    ensures reply.FunctionCall? && (reply.name == GOOGLE_FUNCTION || reply.name == YELP_FUNCTION) ==>
      result == FollowUpCompletion(RequestOf(reply.name, reply.args, apiKey))
    ensures reply.Text? || (reply.name != GOOGLE_FUNCTION && reply.name != YELP_FUNCTION) ==> result == Undefined
  {
    var data := new StreamData();
    result := Undefined;
    if reply.FunctionCall? {
      result := OnFunctionCall(data, reply.name, reply.args, apiKey, response);
    }
    data.Close();
    delivered, sealed := data.items, data.closed;
    if reply.FunctionCall? {
      CallItemsShape(reply.name, response);
    }
    view := Ui(content, Some(delivered));
  }
}
