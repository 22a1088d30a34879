/** Strategy A, the city lookup: a text search on the place-search service for
    "famous landmarks in <city>", whose reply is shaped into photo URLs for the
    first ten results or into a single message. */
module Places {
  import opened Wrappers

  const QueryPrefix := "famous landmarks in "
  const PhotoUrlPrefix := "https://maps.googleapis.com/maps/api/place/photo?maxwidth=400&photo_reference="
  const KeyInfix := "&key="
  /** Only this many leading entries of `results` are looked at. */
  const MaxExamined := 10
  const ApiErrorPrefix := "Google API Error: "
  const FailurePrefix := "Failed to retrieve landmarks. Error: "
  const NoResultsForCity := "No results found for this city."
  const NoResults := "No results found."

  /** One element of an entry's `photos` array; `reference` is its `photo_reference` field. */
  datatype Photo = Photo(reference: Option<string>)

  /** One element of the `results` array; `photos` is None when the entry has no `photos` key. */
  datatype Place = Place(photos: Option<seq<Photo>>)

  /** The query parameters of the text-search GET request. */
  datatype Request = Request(query: string, key: string)

  /** The answer to a text search: a request-level failure (transport error, a non-2xx
      status raised by raise_for_status, or a body that does not decode as JSON), or the
      two fields of the decoded body that the lookup reads. */
  datatype Reply =
    | RequestFailed(reason: string)
    | Body(errorMessage: Option<string>, results: Option<seq<Place>>)

  /** The search text: the fixed prefix, then the city exactly as given. */
  function Query(city: string): (q: string)
    ensures |q| == |QueryPrefix| + |city|
    ensures q[..|QueryPrefix|] == QueryPrefix && q[|QueryPrefix|..] == city
  {
    QueryPrefix + city
  }

  /** The request get_landmarks_by_city sends for `city`. */
  function SearchRequest(key: string, city: string): (r: Request)
    ensures r.key == key && |r.query| == |QueryPrefix| + |city|
    ensures r.query[..|QueryPrefix|] == QueryPrefix && r.query[|QueryPrefix|..] == city
  {
    Request(Query(city), key)
  }

  /** The query embeds the city verbatim, so distinct cities give distinct queries. */
  lemma QueryInjective(a: string, b: string)
    requires Query(a) == Query(b)
    ensures a == b
  {
    assert a == Query(a)[|QueryPrefix|..];
    assert b == Query(b)[|QueryPrefix|..];
  }

  function PhotoUrl(reference: string, key: string): string
  {
    PhotoUrlPrefix + reference + KeyInfix + key
  }

  /** `u` is a photo-retrieval URL for some photo reference, signed with `key`. */
  ghost predicate IsPhotoUrl(u: string, key: string)
  {
    exists reference :: u == PhotoUrl(reference, key)
  }

  predicate HasPhotos(p: Place)
  {
    p.photos.Some?
  }

  /** Reading `photos[0]["photo_reference"]` of this entry raises: IndexError when the
      list is empty, KeyError when its first photo has no reference. */
  predicate Raises(p: Place)
  {
    HasPhotos(p) && (|p.photos.value| == 0 || p.photos.value[0].reference.None?)
  }

  /** An entry that contributes a URL. */
  predicate Usable(p: Place)
  {
    HasPhotos(p) && !Raises(p)
  }

  predicate AnyRaises(s: seq<Place>)
  {
    exists i :: 0 <= i < |s| && Raises(s[i])
  }

  function UrlOf(key: string, p: Place): string
    requires Usable(p)
  {
    PhotoUrl(p.photos.value[0].reference.value, key)
  }

  /** The slice `results[:10]`. */
  function Examined(results: seq<Place>): (e: seq<Place>)
    ensures e <= results
    ensures |e| == if |results| < MaxExamined then |results| else MaxExamined
  {
    if |results| <= MaxExamined then results else results[..MaxExamined]
  }

  /** The entries that carry a `photos` key, in their original order. */
  function WithPhotos(s: seq<Place>): (r: seq<Place>)
    ensures |r| <= |s|
    ensures forall i :: 0 <= i < |r| ==> HasPhotos(r[i])
  {
    if s == [] then []
    else WithPhotos(s[..|s| - 1]) + (if HasPhotos(s[|s| - 1]) then [s[|s| - 1]] else [])
  }

  /** The list `image_links` that the loop builds from `s` when nothing raises. */
  function PhotoLinks(key: string, s: seq<Place>): (r: seq<string>)
    ensures |r| <= |s|
    ensures forall j :: 0 <= j < |r| ==> IsPhotoUrl(r[j], key)
  {
    if s == [] then []
    else
      var last := s[|s| - 1];
      PhotoLinks(key, s[..|s| - 1]) + (if Usable(last) then [UrlOf(key, last)] else [])
  }

  /** The loop over `results[:10]`: None when an examined entry raises, which leaves
      the function uncaught; otherwise the collected links. */
  method CollectPhotoLinks(key: string, results: seq<Place>) returns (links: Option<seq<string>>)
    ensures links == if AnyRaises(Examined(results)) then None else Some(PhotoLinks(key, Examined(results)))
  {
    var examined := Examined(results);
    var imageLinks: seq<string> := [];
    var i := 0;
    while i < |examined|
      invariant 0 <= i <= |examined|
      invariant !AnyRaises(examined[..i])
      invariant imageLinks == PhotoLinks(key, examined[..i])
    {
      var landmark := examined[i];
      assert examined[..i + 1][..i] == examined[..i];
      if landmark.photos.Some? {
        var photos := landmark.photos.value;
        if |photos| == 0 || photos[0].reference.None? {
          assert Raises(examined[i]);
          return None;
        }
        imageLinks := imageLinks + [PhotoUrl(photos[0].reference.value, key)];
      }
      assert !Raises(examined[i]);
      i := i + 1;
    }
    assert examined[..i] == examined;
    links := Some(imageLinks);
  }

  /** get_landmarks_by_city once the reply to its request is known. */
  function CityLookup(key: string, reply: Reply): (o: Outcome)
    ensures o.Returned? ==> 1 <= |o.values| <= MaxExamined
  {
    match reply
    case RequestFailed(e) => Returned([FailurePrefix + e])
    case Body(Some(msg), _) => Returned([ApiErrorPrefix + msg])
    case Body(None, None) => Returned([NoResults])
    case Body(None, Some(results)) =>
      var examined := Examined(results);
      if AnyRaises(examined) then Crash
      else
        var links := PhotoLinks(key, examined);
        Returned(if links == [] then [NoResultsForCity] else links)
  }

  /** get_landmarks_by_city: one search request, no retry, then the shaping above. */
  function GetLandmarksByCity(key: string, search: Request -> Reply, city: string): (o: Outcome)
    ensures o.Returned? ==> 1 <= |o.values| <= MaxExamined
    ensures search(SearchRequest(key, city)).RequestFailed? ==>
              o == Returned([FailurePrefix + search(SearchRequest(key, city)).reason])
  {
    CityLookup(key, search(SearchRequest(key, city)))
  }

  /** Entries are filtered one by one: the filter of a concatenation is the
      concatenation of the filters, so the kept entries keep their order. */
  lemma {:induction false} WithPhotosAppend(a: seq<Place>, b: seq<Place>)
    ensures WithPhotos(a + b) == WithPhotos(a) + WithPhotos(b)
  {
    if b == [] {
      assert a + b == a;
    } else {
      var b' := b[..|b| - 1];
      assert (a + b)[..|a + b| - 1] == a + b';
      WithPhotosAppend(a, b');
    }
  }

  /** An entry is kept exactly when it occurs in the input and carries `photos`. */
  lemma {:induction false} WithPhotosMembers(s: seq<Place>, p: Place)
    ensures p in WithPhotos(s) <==> p in s && HasPhotos(p)
  {
    if s != [] {
      var s' := s[..|s| - 1];
      assert s == s' + [s[|s| - 1]];
      WithPhotosMembers(s', p);
    }
  }

  /** Without a raising entry, the links are exactly one URL per entry that carries
      `photos`, built from its first photo's reference, in the entries' order. */
  lemma {:induction false} PhotoLinksFilterMap(key: string, s: seq<Place>)
    requires !AnyRaises(s)
    ensures |PhotoLinks(key, s)| == |WithPhotos(s)|
    ensures forall j :: 0 <= j < |WithPhotos(s)| ==>
              Usable(WithPhotos(s)[j]) && PhotoLinks(key, s)[j] == UrlOf(key, WithPhotos(s)[j])
  {
    if s != [] {
      var s' := s[..|s| - 1];
      assert !AnyRaises(s') by {
        forall i | 0 <= i < |s'| ensures !Raises(s'[i]) {
          assert s'[i] == s[i];
        }
      }
      PhotoLinksFilterMap(key, s');
      assert !Raises(s[|s| - 1]);
    }
  }

  /** The `error_message` field is checked first: whatever `results` holds, the
      answer is that message alone. */
  lemma ApiErrorTakesPrecedence(key: string, msg: string, results: Option<seq<Place>>)
    ensures CityLookup(key, Body(Some(msg), results)) == Returned([ApiErrorPrefix + msg])
  {
  }

  /** A failed request gives one failure message and nothing is raised. */
  lemma RequestFailureIsOneMessage(key: string, reason: string)
    ensures CityLookup(key, RequestFailed(reason)) == Returned([FailurePrefix + reason])
  {
  }

  /** Entries past the tenth are never looked at, not even for a raising photo. */
  lemma OnlyFirstTenExamined(key: string, results: seq<Place>, more: seq<Place>)
    requires |results| >= MaxExamined
    ensures CityLookup(key, Body(None, Some(results + more))) == CityLookup(key, Body(None, Some(results)))
  {
    assert Examined(results + more) == Examined(results) by {
      assert (results + more)[..MaxExamined] == results[..MaxExamined];
    }
  }

  /** The success case: one URL per examined entry with photos, in order. */
  lemma CityLinksInOrder(key: string, results: seq<Place>)
    requires !AnyRaises(Examined(results)) && WithPhotos(Examined(results)) != []
    ensures var o := CityLookup(key, Body(None, Some(results)));
            var kept := WithPhotos(Examined(results));
            o.Returned? && |o.values| == |kept| <= MaxExamined &&
            forall j :: 0 <= j < |kept| ==> Usable(kept[j]) && o.values[j] == UrlOf(key, kept[j])
  {
    PhotoLinksFilterMap(key, Examined(results));
  }

  /** When no examined entry carries photos, the city-specific "no results" message
      replaces the empty list. */
  lemma NoPhotosFallback(key: string, results: seq<Place>)
    requires WithPhotos(Examined(results)) == []
    ensures CityLookup(key, Body(None, Some(results))) == Returned([NoResultsForCity])
  {
    var e := Examined(results);
    forall i | 0 <= i < |e| ensures !Raises(e[i]) {
      WithPhotosMembers(e, e[i]);
    }
    PhotoLinksFilterMap(key, Examined(results));
  }

  /** Without an error field and without `results`, the generic "no results" message. */
  lemma MissingResultsFallback(key: string)
    ensures CityLookup(key, Body(None, None)) == Returned([NoResults])
  {
  }

  /** The lookup raises exactly when the reply has `results`, no error field, and one of
      its first ten entries has an empty `photos` list or a first photo without reference. */
  lemma CityRaisesExactly(key: string, reply: Reply)
    ensures CityLookup(key, reply).Crash? <==>
            reply.Body? && reply.errorMessage.None? && reply.results.Some? &&
            exists i :: 0 <= i < |Examined(reply.results.value)| && Raises(Examined(reply.results.value)[i])
  {
  }

  /** A successful body yields photo URLs only, or the single "no results" message. */
  lemma CityResultsAreUrls(key: string, results: seq<Place>)
    requires CityLookup(key, Body(None, Some(results))).Returned?
    ensures var v := CityLookup(key, Body(None, Some(results))).values;
            v == [NoResultsForCity] || forall j :: 0 <= j < |v| ==> IsPhotoUrl(v[j], key)
  {
  }
}
