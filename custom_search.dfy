/** Strategy B, the description lookup: an image search on the custom-search service
    for the description, whose reply is shaped into the items' links or a single message. */
module CustomSearch {
  import opened Wrappers

  const ImageSearchType := "image"
  /** The `num` parameter of the request: the only bound on the number of items. */
  const RequestedCount := 10
  const ApiErrorPrefix := "Google CSE API Error: "
  const FailurePrefix := "Failed to retrieve images. Error: "
  const NoImages := "No images found."
  const NoMatchingImages := "No matching images found."

  /** One element of the `items` array; `link` is its `link` field, if present. */
  datatype Item = Item(link: Option<string>)

  /** The query parameters of the image-search GET request. */
  datatype Request = Request(q: string, cx: string, searchType: string, num: nat, key: string)

  /** The answer to an image search: a request-level failure (transport error, a non-2xx
      status raised by raise_for_status, or a body that does not decode as JSON), or the
      two fields of the decoded body that the lookup reads. */
  datatype Reply =
    | RequestFailed(reason: string)
    | Body(errorMessage: Option<string>, items: Option<seq<Item>>)

  /** The request get_landmarks_by_description sends for `description`. */
  function SearchRequest(key: string, engine: string, description: string): (r: Request)
    ensures r.q == description && r.cx == engine && r.key == key
    ensures r.searchType == "image" && r.num == 10
  {
    Request(description, engine, ImageSearchType, RequestedCount, key)
  }

  /** The comprehension `[item["link"] for item in items]`: None when some item has no
      `link` (a KeyError that leaves the function), otherwise every link in item order. */
  function Links(items: seq<Item>): (r: Option<seq<string>>)
    ensures r.Some? <==> forall i :: 0 <= i < |items| ==> items[i].link.Some?
    ensures r.Some? ==> |r.value| == |items| && forall i :: 0 <= i < |items| ==> r.value[i] == items[i].link.value
  {
    if items == [] then Some([])
    else
      match items[0].link
      case None => None
      case Some(first) =>
        match Links(items[1..])
        case None => None
        case Some(rest) => Some([first] + rest)
  }

  /** get_landmarks_by_description once the reply to its request is known. */
  function DescriptionLookup(reply: Reply): (o: Outcome)
    ensures o.Returned? ==> |o.values| >= 1
  {
    match reply
    case RequestFailed(e) => Returned([FailurePrefix + e])
    case Body(Some(msg), _) => Returned([ApiErrorPrefix + msg])
    case Body(None, None) => Returned([NoMatchingImages])
    case Body(None, Some(items)) =>
      match Links(items)
      case None => Crash
      case Some(links) => Returned(if links == [] then [NoImages] else links)
  }

  /** get_landmarks_by_description: one image-search request, no retry, then the shaping above. */
  function GetLandmarksByDescription(key: string, engine: string, search: Request -> Reply, description: string): (o: Outcome)
    ensures o.Returned? ==> |o.values| >= 1
    ensures search(SearchRequest(key, engine, description)).RequestFailed? ==>
              o == Returned([FailurePrefix + search(SearchRequest(key, engine, description)).reason])
  {
    DescriptionLookup(search(SearchRequest(key, engine, description)))
  }

  /** The success case: the link of every item, in the order received. The code applies
      no cap of its own: the length is the number of items. */
  lemma LinksInOrder(items: seq<Item>)
    requires items != []
    requires forall i :: 0 <= i < |items| ==> items[i].link.Some?
    ensures var o := DescriptionLookup(Body(None, Some(items)));
            o.Returned? && |o.values| == |items| &&
            forall i :: 0 <= i < |items| ==> o.values[i] == items[i].link.value
  {
  }

  /** At most ten strings come back whenever the service honours the `num` parameter. */
  lemma BoundedWhenServiceHonoursNum(reply: Reply)
    requires reply.Body? && reply.items.Some? ==> |reply.items.value| <= RequestedCount
    ensures DescriptionLookup(reply).Returned? ==> |DescriptionLookup(reply).values| <= RequestedCount
  {
  }

  /** The `error_message` field is checked first: whatever `items` holds, the answer
      is that message alone. */
  lemma ApiErrorTakesPrecedence(msg: string, items: Option<seq<Item>>)
    ensures DescriptionLookup(Body(Some(msg), items)) == Returned([ApiErrorPrefix + msg])
  {
  }

  /** A failed request gives one failure message and nothing is raised. */
  lemma RequestFailureIsOneMessage(reason: string)
    ensures DescriptionLookup(RequestFailed(reason)) == Returned([FailurePrefix + reason])
  {
  }

  /** An empty `items` array and a missing one give their two different messages. */
  lemma EmptyAndMissingItems()
    ensures DescriptionLookup(Body(None, Some([]))) == Returned([NoImages])
    ensures DescriptionLookup(Body(None, None)) == Returned([NoMatchingImages])
  {
  }

  /** The lookup raises exactly when the reply has `items`, no error field, and some
      item lacks its `link`. */
  lemma DescriptionRaisesExactly(reply: Reply)
    ensures DescriptionLookup(reply).Crash? <==>
            reply.Body? && reply.errorMessage.None? && reply.items.Some? &&
            exists i :: 0 <= i < |reply.items.value| && reply.items.value[i].link.None?
  {
  }
}
