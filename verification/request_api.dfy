/**
 * Request binding and normalisation in the HTTP handlers that forward to the
 * Spotify, SongLink and analysis back ends. Each handler binds its JSON body
 * into a request struct, checks it, fills in defaults and then makes one
 * back-end call; the model ends at that call, which it returns as a value.
 */
module RequestApi {
  import opened Wrappers
  import opened Text
  import opened Json
  import opened ConfigTypes
  import ConfigLoader

  // ---------------------------------------------------------------------------
  // Binding (gin's ShouldBindJSON into a struct)
  // ---------------------------------------------------------------------------

  /**
   * A string field: absent or null leaves Go's zero value "", a JSON string is
   * taken as is, any other JSON type is a decoding error (None).
   */
  function BindString(fields: map<string, JsonValue>, key: string): (r: Option<string>)
    ensures key !in fields ==> r == Some("")
    ensures key in fields && fields[key].JString? ==> r == Some(fields[key].s)
    ensures key in fields && fields[key].JNull? ==> r == Some("")
    ensures r.None? <==> key in fields && !fields[key].JNull? && !fields[key].JString?
  {
    if key !in fields || fields[key].JNull? then Some("")
    else if fields[key].JString? then Some(fields[key].s)
    else None
  }

  /** An `int` field (64 bits): absent or null is 0, an integer within range is taken, anything else fails. */
  function BindInt(fields: map<string, JsonValue>, key: string): (r: Option<int>)
    ensures r.Some? ==> MinInt64 <= r.value <= MaxInt64
    ensures key !in fields ==> r == Some(0)
    ensures key in fields && fields[key].JNull? ==> r == Some(0)
    ensures key in fields && fields[key].JNumber? ==> r.Some? == (MinInt64 <= fields[key].n <= MaxInt64)
    ensures key in fields && fields[key].JNumber? && r.Some? ==> r.value == fields[key].n
    ensures key in fields && !fields[key].JNull? && !fields[key].JNumber? ==> r == None
  {
    if key !in fields || fields[key].JNull? then Some(0)
    else if fields[key].JNumber? && MinInt64 <= fields[key].n <= MaxInt64 then Some(fields[key].n)
    else None
  }

  /** A `bool` field: absent or null is false, a JSON boolean is taken, anything else fails. */
  function BindBool(fields: map<string, JsonValue>, key: string): (r: Option<bool>)
    ensures key !in fields ==> r == Some(false)
    ensures key in fields && fields[key].JBool? ==> r == Some(fields[key].b)
    ensures r.None? <==> key in fields && !fields[key].JNull? && !fields[key].JBool?
  {
    if key !in fields || fields[key].JNull? then Some(false)
    else if fields[key].JBool? then Some(fields[key].b)
    else None
  }

  /** A `float64` field: only whether it decodes matters here (its value is not modelled). */
  predicate NumberDecodes(fields: map<string, JsonValue>, key: string) {
    key !in fields || fields[key].JNull? || fields[key].JNumber?
  }

  /** A field tagged `binding:"required"`: it must decode and must not be the zero value "". */
  function BindRequired(fields: map<string, JsonValue>, key: string): (r: Option<string>)
    ensures r.Some? <==> key in fields && fields[key].JString? && fields[key].s != ""
    ensures r.Some? ==> r.value == fields[key].s
  {
    match BindString(fields, key)
    case Some(s) => if s == "" then None else Some(s)
    case None => None
  }

  datatype MetadataRequest = MetadataRequest(url: string, batch: bool)
  datatype SearchRequest = SearchRequest(query: string, limit: int)
  datatype SearchByTypeRequest = SearchByTypeRequest(query: string, searchType: string, limit: int, offset: int)
  datatype StreamingRequest = StreamingRequest(spotifyTrackId: string, region: string)
  datatype AnalyzeRequest = AnalyzeRequest(filePath: string)

  /** `{url (required), batch, delay, timeout}`; the body must be a JSON object. */
  function BindMetadata(body: JsonValue): (r: Option<MetadataRequest>)
    ensures r.Some? ==> r.value.url != ""
  {
    if !body.JObject? then None
    else
      var url := BindRequired(body.fields, "url");
      var batch := BindBool(body.fields, "batch");
      if url.None? || batch.None? || !NumberDecodes(body.fields, "delay") || !NumberDecodes(body.fields, "timeout")
      then None
      else Some(MetadataRequest(url.value, batch.value))
  }

  /** `{query (required), limit}`. */
  function BindSearch(body: JsonValue): (r: Option<SearchRequest>)
    ensures r.Some? ==> r.value.query != ""
  {
    if !body.JObject? then None
    else
      var query := BindRequired(body.fields, "query");
      var limit := BindInt(body.fields, "limit");
      if query.None? || limit.None? then None
      else Some(SearchRequest(query.value, limit.value))
  }

  /** `{query (required), search_type (required), limit, offset}`. */
  function BindSearchByType(body: JsonValue): (r: Option<SearchByTypeRequest>)
    ensures r.Some? ==> r.value.query != "" && r.value.searchType != ""
  {
    if !body.JObject? then None
    else
      var query := BindRequired(body.fields, "query");
      var searchType := BindRequired(body.fields, "search_type");
      var limit := BindInt(body.fields, "limit");
      var offset := BindInt(body.fields, "offset");
      if query.None? || searchType.None? || limit.None? || offset.None? then None
      else Some(SearchByTypeRequest(query.value, searchType.value, limit.value, offset.value))
  }

  /** `{spotify_track_id (required), region}`. */
  function BindStreaming(body: JsonValue): (r: Option<StreamingRequest>)
    ensures r.Some? ==> r.value.spotifyTrackId != ""
  {
    if !body.JObject? then None
    else
      var id := BindRequired(body.fields, "spotify_track_id");
      var region := BindString(body.fields, "region");
      if id.None? || region.None? then None
      else Some(StreamingRequest(id.value, region.value))
  }

  /** `{file_path (required)}`. */
  function BindAnalyze(body: JsonValue): (r: Option<AnalyzeRequest>)
    ensures r.Some? ==> r.value.filePath != ""
  {
    if !body.JObject? then None
    else
      var path := BindRequired(body.fields, "file_path");
      if path.None? then None else Some(AnalyzeRequest(path.value))
  }

  // ---------------------------------------------------------------------------
  // Handlers
  // ---------------------------------------------------------------------------

  /** The 400 answers the handlers give before reaching the back end. */
  datatype RequestError = InvalidRequestFormat | InvalidFilePath

  /** The back-end call a handler makes once the request is accepted. */
  datatype BackendCall =
    | SpotFetchMetadata(url: string, apiUrl: string, batch: bool)
    | FilteredMetadata(url: string, batch: bool)
    | Search(query: string, limit: int)
    | SearchByType(query: string, searchType: string, limit: int, offset: int)
    | StreamingUrls(spotifyTrackId: string, region: string)
    | Analyze(filePath: string)

  const DefaultSearchLimit: int := 10
  const DefaultSearchByTypeLimit: int := 50
  const DefaultRegion: string := "US"

  /** Whether metadata is fetched through the configured SpotFetch API rather than directly. */
  predicate UsesSpotFetch(services: ServicesConfig) {
    services.useSpotFetchApi && services.spotFetchApiUrl != ""
  }

  /**
   * GetSpotifyMetadata: the URL is trimmed of white space after it has been
   * checked, and the call goes to the SpotFetch API exactly when that API is
   * enabled and has a URL.
   */
  method GetSpotifyMetadata(store: ConfigLoader.ConfigStore, body: JsonValue)
    returns (r: Result<BackendCall, RequestError>)
    requires store.global != null
    ensures BindMetadata(body).None? <==> r == Err(InvalidRequestFormat)
    ensures r.Ok? ==>
              var req := BindMetadata(body).value;
              var services := store.global.config.services;
              && (r.value.SpotFetchMetadata? <==> UsesSpotFetch(services))
              && (r.value.SpotFetchMetadata? || r.value.FilteredMetadata?)
              && r.value.url == TrimSpace(req.url)
              && r.value.batch == req.batch
              && (r.value.SpotFetchMetadata? ==> r.value.apiUrl == services.spotFetchApiUrl)
  {
    var bound := BindMetadata(body);
    if bound.None? {
      return Err(InvalidRequestFormat);
    }
    var req := bound.value;
    req := req.(url := TrimSpace(req.url));
    var cfg := store.Get();
    if cfg.config.services.useSpotFetchApi && cfg.config.services.spotFetchApiUrl != "" {
      return Ok(SpotFetchMetadata(req.url, cfg.config.services.spotFetchApiUrl, req.batch));
    }
    return Ok(FilteredMetadata(req.url, req.batch));
  }

  /** SearchSpotify: the query is trimmed; a limit of zero or less becomes 10, a positive one is kept. */
  method SearchSpotify(body: JsonValue) returns (r: Result<BackendCall, RequestError>)
    ensures BindSearch(body).None? <==> r == Err(InvalidRequestFormat)
    ensures r.Ok? ==>
              var req := BindSearch(body).value;
              && r.value.Search?
              && r.value.query == TrimSpace(req.query)
              && r.value.limit >= 1
              && (req.limit > 0 ==> r.value.limit == req.limit)
              && (req.limit <= 0 ==> r.value.limit == DefaultSearchLimit)
  {
    var bound := BindSearch(body);
    if bound.None? {
      return Err(InvalidRequestFormat);
    }
    var req := bound.value;
    req := req.(query := TrimSpace(req.query));
    if req.limit <= 0 {
      req := req.(limit := DefaultSearchLimit);
    }
    return Ok(Search(req.query, req.limit));
  }

  /**
   * SearchSpotifyByType: a limit of zero or less becomes 50; the offset is passed
   * on as bound (a negative offset included) and the query is not trimmed.
   */
  method SearchSpotifyByType(body: JsonValue) returns (r: Result<BackendCall, RequestError>)
    ensures BindSearchByType(body).None? <==> r == Err(InvalidRequestFormat)
    ensures r.Ok? ==>
              var req := BindSearchByType(body).value;
              && r.value.SearchByType?
              && r.value.query == req.query && r.value.searchType == req.searchType
              && r.value.offset == req.offset
              && r.value.limit >= 1
              && (req.limit > 0 ==> r.value.limit == req.limit)
              && (req.limit <= 0 ==> r.value.limit == DefaultSearchByTypeLimit)
  {
    var bound := BindSearchByType(body);
    if bound.None? {
      return Err(InvalidRequestFormat);
    }
    var req := bound.value;
    if req.limit <= 0 {
      req := req.(limit := DefaultSearchByTypeLimit);
    }
    return Ok(SearchByType(req.query, req.searchType, req.limit, req.offset));
  }

  /** GetStreamingURLs: an empty or missing region becomes "US"; any other region is kept. */
  method GetStreamingURLs(body: JsonValue) returns (r: Result<BackendCall, RequestError>)
    ensures BindStreaming(body).None? <==> r == Err(InvalidRequestFormat)
    ensures r.Ok? ==>
              var req := BindStreaming(body).value;
              && r.value.StreamingUrls?
              && r.value.spotifyTrackId == req.spotifyTrackId
              && r.value.region != ""
              && (req.region != "" ==> r.value.region == req.region)
              && (req.region == "" ==> r.value.region == DefaultRegion)
  {
    var bound := BindStreaming(body);
    if bound.None? {
      return Err(InvalidRequestFormat);
    }
    var req := bound.value;
    if req.region == "" {
      req := req.(region := DefaultRegion);
    }
    return Ok(StreamingUrls(req.spotifyTrackId, req.region));
  }

  /** AnalyzeTrack: a file path containing ".." is refused; any other path is analysed as given. */
  method AnalyzeTrack(body: JsonValue) returns (r: Result<BackendCall, RequestError>)
    ensures BindAnalyze(body).None? ==> r == Err(InvalidRequestFormat)
    ensures BindAnalyze(body).Some? && HasDotDot(BindAnalyze(body).value.filePath) ==> r == Err(InvalidFilePath)
    ensures r.Ok? <==> BindAnalyze(body).Some? && !HasDotDot(BindAnalyze(body).value.filePath)
    ensures r.Ok? ==> r == Ok(Analyze(BindAnalyze(body).value.filePath)) && !HasDotDot(r.value.filePath)
  {
    var bound := BindAnalyze(body);
    if bound.None? {
      return Err(InvalidRequestFormat);
    }
    var req := bound.value;
    if HasDotDot(req.filePath) {
      return Err(InvalidFilePath);
    }
    return Ok(Analyze(req.filePath));
  }

  // ---------------------------------------------------------------------------
  // Properties
  // ---------------------------------------------------------------------------

  /**
   * The emptiness check precedes the trimming: a URL or query made only of
   * white space passes binding and reaches the back end as "".
   */
  lemma {:induction false} WhitespaceOnlyPassesValidation(text: string)
    requires text != "" && AllSpace(text)
    ensures BindMetadata(JObject(map["url" := JString(text)])) == Some(MetadataRequest(text, false))
    ensures BindSearch(JObject(map["query" := JString(text)])) == Some(SearchRequest(text, 0))
    ensures TrimSpace(text) == ""
  {
  }

  /** A required string that is missing or empty is refused at binding time. */
  lemma {:induction false} EmptyRequiredRefused(key: string, fields: map<string, JsonValue>)
    requires key !in fields || fields[key] == JString("")
    ensures BindRequired(fields, key).None?
  {
  }
}
