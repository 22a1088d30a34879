/** The dispatcher and the UI entry point: the classification of the prompt picks the
    city lookup or the description lookup, every failure becomes one message, and the
    UI always receives a non-empty list. */
module App {
  import opened Wrappers
  import Places
  import CustomSearch

  const CityStrategy := "A"
  const DescriptionStrategy := "B"
  const UnknownStrategy := "Unable to determine strategy. Please try a different prompt."
  const GenericError := "An error occurred while processing your request."
  const NoImages := "No images found."

  /** What the classification step yields. ParseFailure covers every way of not getting a
      JSON object: the completion call raising, a reply without choices, a reply that is
      not JSON or not an object. Otherwise the three fields read from the object. */
  datatype Classification =
    | ParseFailure
    | Parsed(strategy: Option<string>, city: Option<string>, description: Option<string>)

  /** The credentials, read once at start-up. */
  datatype Config = Config(placesKey: string, cseKey: string, cseId: string)

  /** The three external calls, each as the answer it gives to what is sent to it. */
  datatype Services = Services(
    classify: string -> Classification,
    places: Places.Request -> Places.Reply,
    images: CustomSearch.Request -> CustomSearch.Reply)

  /** The dispatcher's `except Exception`: an exception escaping a provider becomes the
      generic message. */
  function Caught(o: Outcome): (r: seq<string>)
    ensures o.Returned? ==> r == o.values
    ensures o.Crash? ==> r == [GenericError]
  {
    match o
    case Returned(values) => values
    case Crash => [GenericError]
  }

  /** The branching of determine_strategy_and_fetch_images on a classification. */
  function Route(cfg: Config, svc: Services, c: Classification): (r: seq<string>)
    ensures |r| >= 1
  {
    match c
    case ParseFailure => [GenericError]
    case Parsed(None, _, _) => [GenericError]
    case Parsed(Some(s), city, description) =>
      if s == CityStrategy then
        match city
        case None => [GenericError]
        case Some(name) => Caught(Places.GetLandmarksByCity(cfg.placesKey, svc.places, name))
      else if s == DescriptionStrategy then
        match description
        case None => [GenericError]
        case Some(text) =>
          Caught(CustomSearch.GetLandmarksByDescription(cfg.cseKey, cfg.cseId, svc.images, text))
      else [UnknownStrategy]
  }

  /** determine_strategy_and_fetch_images: classify the prompt, then route. */
  function DetermineStrategyAndFetchImages(cfg: Config, svc: Services, prompt: string): (r: seq<string>)
    ensures |r| >= 1
  {
    Route(cfg, svc, svc.classify(prompt))
  }

  /** The guard of gradio_interface: a non-empty list passes unchanged, an empty one is
      replaced by the "no images" message. */
  function NonEmptyOrPlaceholder(results: seq<string>): (r: seq<string>)
    ensures r != []
    ensures results != [] ==> r == results
    ensures results == [] ==> r == [NoImages]
  {
    if |results| > 0 then results else [NoImages]
  }

  /** gradio_interface. Its guard never fires: the UI shows exactly what the dispatcher
      returned, and that is never empty. */
  function GradioInterface(cfg: Config, svc: Services, prompt: string): (r: seq<string>)
    ensures r == DetermineStrategyAndFetchImages(cfg, svc, prompt)
    ensures r != []
  {
    NonEmptyOrPlaceholder(DetermineStrategyAndFetchImages(cfg, svc, prompt))
  }

  /** Strategy "A" with a city returns the city lookup of that city, whatever the
      image-search service would have answered: the description lookup is not consulted. */
  lemma RoutesCity(cfg: Config, svc: Services, city: string, description: Option<string>,
                   images: CustomSearch.Request -> CustomSearch.Reply)
    ensures Route(cfg, svc.(images := images), Parsed(Some(CityStrategy), Some(city), description))
         == Caught(Places.GetLandmarksByCity(cfg.placesKey, svc.places, city))
  {
  }

  /** Strategy "B" with a description returns the description lookup of it, whatever the
      place-search service would have answered. */
  lemma RoutesDescription(cfg: Config, svc: Services, city: Option<string>, description: string,
                          places: Places.Request -> Places.Reply)
    ensures Route(cfg, svc.(places := places), Parsed(Some(DescriptionStrategy), city, Some(description)))
         == Caught(CustomSearch.GetLandmarksByDescription(cfg.cseKey, cfg.cseId, svc.images, description))
  {
  }

  /** Any other strategy value gives the fixed "unable to determine" message. */
  lemma UnknownStrategyMessage(cfg: Config, svc: Services, s: string, city: Option<string>, description: Option<string>)
    requires s != CityStrategy && s != DescriptionStrategy
    ensures Route(cfg, svc, Parsed(Some(s), city, description)) == [UnknownStrategy]
  {
  }

  /** A failed classification, a missing field that the chosen branch reads, or an
      exception escaping the chosen provider all give the generic message. */
  lemma FailuresGiveGenericMessage(cfg: Config, svc: Services, c: Classification)
    requires || c.ParseFailure?
             || c.strategy.None?
             || (c.strategy == Some(CityStrategy) && c.city.None?)
             || (c.strategy == Some(DescriptionStrategy) && c.description.None?)
             || (c.strategy == Some(CityStrategy) && c.city.Some? &&
                 Places.GetLandmarksByCity(cfg.placesKey, svc.places, c.city.value).Crash?)
             || (c.strategy == Some(DescriptionStrategy) && c.description.Some? &&
                 CustomSearch.GetLandmarksByDescription(cfg.cseKey, cfg.cseId, svc.images, c.description.value).Crash?)
    ensures Route(cfg, svc, c) == [GenericError]
  {
  }

  /** On the city route the list never holds more than ten strings. */
  lemma CityRouteAtMostTen(cfg: Config, svc: Services, c: Classification)
    requires c.Parsed? && c.strategy == Some(CityStrategy)
    ensures |Route(cfg, svc, c)| <= Places.MaxExamined
  {
  }

  /** A prompt classified as the city "Tokyo" sends "famous landmarks in Tokyo" with the
      place-search key and shows what the city lookup makes of the answer. */
  lemma TokyoScenario(cfg: Config, svc: Services, prompt: string, description: Option<string>)
    requires svc.classify(prompt) == Parsed(Some("A"), Some("Tokyo"), description)
    ensures GradioInterface(cfg, svc, prompt)
         == Caught(Places.CityLookup(cfg.placesKey, svc.places(Places.Request("famous landmarks in Tokyo", cfg.placesKey))))
  {
    assert Places.Query("Tokyo") == "famous landmarks in Tokyo";
  }

  /** A prompt classified as a description sends it unchanged as `q`, with the engine id,
      image search type and `num` of 10. */
  lemma CastleScenario(cfg: Config, svc: Services, prompt: string, city: Option<string>)
    requires svc.classify(prompt) == Parsed(Some("B"), city, Some("a castle on a hill"))
    ensures GradioInterface(cfg, svc, prompt)
         == Caught(CustomSearch.DescriptionLookup(
              svc.images(CustomSearch.Request("a castle on a hill", cfg.cseId, "image", 10, cfg.cseKey))))
  {
  }

  /** A refused place search (an HTTP 403, say) ends in exactly one failure message. */
  lemma RefusedPlaceSearch(cfg: Config, svc: Services, prompt: string, city: string, description: Option<string>, reason: string)
    requires svc.classify(prompt) == Parsed(Some("A"), Some(city), description)
    requires svc.places(Places.SearchRequest(cfg.placesKey, city)) == Places.RequestFailed(reason)
    ensures GradioInterface(cfg, svc, prompt) == [Places.FailurePrefix + reason]
  {
  }

  /** An image search with zero items ends in exactly ["No images found."]. */
  lemma ZeroImageItems(cfg: Config, svc: Services, prompt: string, city: Option<string>, description: string)
    requires svc.classify(prompt) == Parsed(Some("B"), city, Some(description))
    requires svc.images(CustomSearch.SearchRequest(cfg.cseKey, cfg.cseId, description))
          == CustomSearch.Body(None, Some([]))
    ensures GradioInterface(cfg, svc, prompt) == [NoImages]
  {
  }
}
