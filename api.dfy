/**
 * The request-building layer of the STRING client (stringdb/api.py): the
 * request URL, the form parameters of each endpoint, the handling of a
 * response and the batched annotation lookup.
 *
 * The HTTP transport is the function `post` passed to every endpoint: it
 * maps the request sent (URL and form parameters) to the response received.
 * Decoding the body and reading it as tab-separated values is the function
 * `parse`, which may reject the body.
 */
module Api {
  import opened Text
  import opened Chunking
  import opened Seqs

  newtype byte = x: int | 0 <= x < 256

  datatype Option<T> = None | Some(value: T)

  /** A form parameter value: the client sends integers and strings. */
  datatype Value = Int(n: int) | Str(s: string)

  type Params = map<string, Value>

  /** One POST: the URL and the form parameters. */
  datatype Request = Request(url: string, params: Params)

  /** What the transport reports: the success flag, the body and the reason text. */
  datatype Response = Response(ok: bool, content: seq<byte>, reason: string)

  type Row = seq<string>

  /** A parsed response: header fields and data rows, in order. */
  datatype Table = Table(columns: seq<string>, rows: seq<Row>)

  /** What the tab-separated reader makes of a body. */
  datatype ParseResult = Parsed(table: Table) | Unparsable(message: string)

  /**
   * The ways a call fails: the transport reported no success (with its reason),
   * the body could not be read as a table, or the annotation lookup had no
   * table to concatenate.
   */
  datatype Error = RequestFailure(reason: string) | ParseFailure(message: string) | NothingToConcatenate

  datatype Result<T> = Success(value: T) | Failure(error: Error)

  type Transport = Request -> Response

  type Parser = seq<byte> -> ParseResult

  const StringApiUrl: string := "https://string-db.org/api"
  const DefaultFormat: string := "tsv"
  const DefaultSpecies: int := 9606
  const DefaultRequiredScore: int := 400
  const DefaultCallerIdentity: string := "https://github.com/gpp-rnd/stringdb"

  /** Every endpoint asks for tab-separated output, so its URL starts with this. */
  const TsvApiUrl: string := "https://string-db.org/api/tsv/"

  /** Identifier lists travel as one string, one carriage return between identifiers. */
  const IdSeparator: char := '\r'

  // ---------------------------------------------------------------------------
  // URL builder

  /** The base address, the output format and the method, joined with slashes. */
  function BuildRequestUrl(endpoint: string, outputFormat: string): (url: string)
    ensures url == StringApiUrl + "/" + outputFormat + "/" + endpoint
  {
    var parts := [StringApiUrl, outputFormat, endpoint];
    assert parts[1..] == [outputFormat, endpoint] && parts[1..][1..] == [endpoint];
    assert Join(parts[1..], "/") == outputFormat + "/" + endpoint;
    Join(parts, "/")
  }

  /** With the default format, the URL is the tab-separated API address followed by the method. */
  lemma TsvUrl(endpoint: string)
    ensures BuildRequestUrl(endpoint, DefaultFormat) == TsvApiUrl + endpoint
  {
  }

  /**
   * The last two path segments of a request URL are the format and the
   * method, when neither holds a slash.
   */
  lemma UrlSegments(endpoint: string, outputFormat: string)
    requires '/' !in endpoint && '/' !in outputFormat
    ensures Split(BuildRequestUrl(endpoint, outputFormat), '/')
         == Split(StringApiUrl, '/') + [outputFormat, endpoint]
  {
    var url := BuildRequestUrl(endpoint, outputFormat);
    assert url == StringApiUrl + ['/'] + (outputFormat + ['/'] + endpoint);
    SplitAround(StringApiUrl, outputFormat + ['/'] + endpoint, '/');
    SplitAround(outputFormat, endpoint, '/');
    SplitWithoutSeparator(outputFormat, '/');
    SplitWithoutSeparator(endpoint, '/');
  }

  /** Distinct slash-free (method, format) pairs give distinct URLs. */
  lemma UrlIsInjective(m1: string, f1: string, m2: string, f2: string)
    requires '/' !in m1 && '/' !in f1 && '/' !in m2 && '/' !in f2
    requires BuildRequestUrl(m1, f1) == BuildRequestUrl(m2, f2)
    ensures m1 == m2 && f1 == f2
  {
    UrlSegments(m1, f1);
    UrlSegments(m2, f2);
    var base := Split(StringApiUrl, '/');
    assert (base + [f1, m1])[|base|] == f1 && (base + [f1, m1])[|base| + 1] == m1;
    assert (base + [f2, m2])[|base|] == f2 && (base + [f2, m2])[|base| + 1] == m2;
  }

  // ---------------------------------------------------------------------------
  // Response handling

  /**
   * The parsed body when the transport reports success; otherwise a
   * RequestFailure carrying the transport's reason, and no table.
   */
  function HandleResults(response: Response, parse: Parser): (r: Result<Table>)
    ensures r.Success? <==> response.ok && parse(response.content).Parsed?
    ensures r.Success? ==> parse(response.content) == Parsed(r.value)
    ensures (r.Failure? && r.error.RequestFailure?) <==> !response.ok
    ensures !response.ok ==> r.error.reason == response.reason
    ensures response.ok && r.Failure? ==> r.error == ParseFailure(parse(response.content).message)
  {
    if response.ok then
      match parse(response.content)
      case Parsed(table) => Success(table)
      case Unparsable(message) => Failure(ParseFailure(message))
    else
      Failure(RequestFailure(response.reason))
  }

  /** One round trip: post the request, then handle the response. */
  function Send(post: Transport, parse: Parser, req: Request): (r: Result<Table>)
    ensures (r.Failure? && r.error.RequestFailure?) <==> !post(req).ok
    ensures !post(req).ok ==> r.error.reason == post(req).reason
    ensures post(req).ok && parse(post(req).content).Parsed? ==> r.Success?
    ensures r.Success? ==> parse(post(req).content) == Parsed(r.value)
  {
    HandleResults(post(req), parse)
  }

  // ---------------------------------------------------------------------------
  // Identifier payload

  /**
   * `"\r".join(identifiers)`: empty for no identifiers; otherwise it starts
   * with the first identifier and adds one character per separator.
   */
  function IdentifierPayload(identifiers: seq<string>): (payload: string)
    ensures |identifiers| == 0 ==> payload == ""
    ensures |identifiers| >= 1 ==> |payload| == TotalLength(identifiers) + |identifiers| - 1
    ensures |identifiers| >= 1 ==> identifiers[0] <= payload
  {
    Join(identifiers, [IdSeparator])
  }

  /**
   * The payload keeps the identifiers and their order: splitting it on the
   * carriage return gives the list back, when the list is non-empty and no
   * identifier holds a carriage return.
   */
  lemma PayloadRoundTrip(identifiers: seq<string>)
    requires |identifiers| >= 1
    requires NoneContains(identifiers, IdSeparator)
    ensures Split(IdentifierPayload(identifiers), IdSeparator) == identifiers
  {
    SplitJoin(identifiers, IdSeparator);
  }

  // ---------------------------------------------------------------------------
  // get_string_ids

  datatype StringIdsOptions = StringIdsOptions(species: int, limit: int, echoQuery: int, callerIdentity: string)

  const DefaultStringIdsOptions := StringIdsOptions(DefaultSpecies, 1, 1, DefaultCallerIdentity)

  function StringIdsRequest(identifiers: seq<string>, opts: StringIdsOptions): (req: Request)
    ensures req.url == TsvApiUrl + "get_string_ids"
    ensures req.params.Keys == {"identifiers", "species", "limit", "echo_query", "caller_identity"}
    ensures req.params["identifiers"] == Str(IdentifierPayload(identifiers))
    ensures req.params["species"] == Int(opts.species) && req.params["limit"] == Int(opts.limit)
    ensures req.params["echo_query"] == Int(opts.echoQuery)
    ensures req.params["caller_identity"] == Str(opts.callerIdentity)
  {
    TsvUrl("get_string_ids");
    Request(BuildRequestUrl("get_string_ids", DefaultFormat),
            map["identifiers" := Str(IdentifierPayload(identifiers)),
                "species" := Int(opts.species),
                "limit" := Int(opts.limit),
                "echo_query" := Int(opts.echoQuery),
                "caller_identity" := Str(opts.callerIdentity)])
  }

  /** Maps gene symbols to STRING identifiers with one request. */
  function GetStringIds(identifiers: seq<string>, opts: StringIdsOptions, post: Transport, parse: Parser): (r: Result<Table>)
    ensures (r.Failure? && r.error.RequestFailure?) <==> !post(StringIdsRequest(identifiers, opts)).ok
    ensures !post(StringIdsRequest(identifiers, opts)).ok ==> r.error.reason == post(StringIdsRequest(identifiers, opts)).reason
    ensures post(StringIdsRequest(identifiers, opts)).ok && parse(post(StringIdsRequest(identifiers, opts)).content).Parsed? ==> r.Success?
    ensures r.Success? ==> parse(post(StringIdsRequest(identifiers, opts)).content) == Parsed(r.value)
  {
    Send(post, parse, StringIdsRequest(identifiers, opts))
  }

  // ---------------------------------------------------------------------------
  // get_network

  datatype NetworkOptions = NetworkOptions(species: int, requiredScore: int, networkType: string,
                                           callerIdentity: string, addNodes: int)

  /** The code's default network type is "physical". */
  const DefaultNetworkOptions := NetworkOptions(DefaultSpecies, DefaultRequiredScore, "physical", DefaultCallerIdentity, 0)

  function NetworkRequest(identifiers: seq<string>, opts: NetworkOptions): (req: Request)
    ensures req.url == TsvApiUrl + "network"
    ensures req.params.Keys == {"identifiers", "species", "caller_identity", "required_score", "network_type", "add_nodes"}
    ensures req.params["identifiers"] == Str(IdentifierPayload(identifiers))
    ensures req.params["species"] == Int(opts.species)
    ensures req.params["caller_identity"] == Str(opts.callerIdentity)
    ensures req.params["required_score"] == Int(opts.requiredScore)
    ensures req.params["network_type"] == Str(opts.networkType)
    ensures req.params["add_nodes"] == Int(opts.addNodes)
  {
    TsvUrl("network");
    Request(BuildRequestUrl("network", DefaultFormat),
            map["identifiers" := Str(IdentifierPayload(identifiers)),
                "species" := Int(opts.species),
                "caller_identity" := Str(opts.callerIdentity),
                "required_score" := Int(opts.requiredScore),
                "network_type" := Str(opts.networkType),
                "add_nodes" := Int(opts.addNodes)])
  }

  /** The interaction network among the given proteins, with one request. */
  function GetNetwork(identifiers: seq<string>, opts: NetworkOptions, post: Transport, parse: Parser): (r: Result<Table>)
    ensures (r.Failure? && r.error.RequestFailure?) <==> !post(NetworkRequest(identifiers, opts)).ok
    ensures !post(NetworkRequest(identifiers, opts)).ok ==> r.error.reason == post(NetworkRequest(identifiers, opts)).reason
    ensures post(NetworkRequest(identifiers, opts)).ok && parse(post(NetworkRequest(identifiers, opts)).content).Parsed? ==> r.Success?
    ensures r.Success? ==> parse(post(NetworkRequest(identifiers, opts)).content) == Parsed(r.value)
  {
    Send(post, parse, NetworkRequest(identifiers, opts))
  }

  // ---------------------------------------------------------------------------
  // get_ppi_enrichment

  datatype PpiEnrichmentOptions = PpiEnrichmentOptions(species: int, requiredScore: int, callerIdentity: string)

  const DefaultPpiEnrichmentOptions := PpiEnrichmentOptions(DefaultSpecies, DefaultRequiredScore, DefaultCallerIdentity)

  function PpiEnrichmentRequest(identifiers: seq<string>, opts: PpiEnrichmentOptions): (req: Request)
    ensures req.url == TsvApiUrl + "ppi_enrichment"
    ensures req.params.Keys == {"identifiers", "species", "required_score", "caller_identity"}
    ensures req.params["identifiers"] == Str(IdentifierPayload(identifiers))
    ensures req.params["species"] == Int(opts.species)
    ensures req.params["required_score"] == Int(opts.requiredScore)
    ensures req.params["caller_identity"] == Str(opts.callerIdentity)
  {
    TsvUrl("ppi_enrichment");
    Request(BuildRequestUrl("ppi_enrichment", DefaultFormat),
            map["identifiers" := Str(IdentifierPayload(identifiers)),
                "species" := Int(opts.species),
                "required_score" := Int(opts.requiredScore),
                "caller_identity" := Str(opts.callerIdentity)])
  }

  /** Protein-protein interaction enrichment statistics, with one request. */
  function GetPpiEnrichment(identifiers: seq<string>, opts: PpiEnrichmentOptions, post: Transport, parse: Parser): (r: Result<Table>)
    ensures (r.Failure? && r.error.RequestFailure?) <==> !post(PpiEnrichmentRequest(identifiers, opts)).ok
    ensures !post(PpiEnrichmentRequest(identifiers, opts)).ok ==> r.error.reason == post(PpiEnrichmentRequest(identifiers, opts)).reason
    ensures post(PpiEnrichmentRequest(identifiers, opts)).ok && parse(post(PpiEnrichmentRequest(identifiers, opts)).content).Parsed? ==> r.Success?
    ensures r.Success? ==> parse(post(PpiEnrichmentRequest(identifiers, opts)).content) == Parsed(r.value)
  {
    Send(post, parse, PpiEnrichmentRequest(identifiers, opts))
  }

  // ---------------------------------------------------------------------------
  // get_interaction_partners

  datatype PartnersOptions = PartnersOptions(species: int, requiredScore: int, limit: Option<int>, callerIdentity: string)

  const DefaultPartnersOptions := PartnersOptions(DefaultSpecies, DefaultRequiredScore, None, DefaultCallerIdentity)

  /** The form of an interaction-partners request: the fixed keys, plus `limit` when one is given. */
  function PartnersParams(identifiers: seq<string>, opts: PartnersOptions): (params: Params)
    ensures params.Keys == {"identifiers", "species", "required_score", "caller_identity"}
                           + (if opts.limit.Some? then {"limit"} else {})
    ensures params["identifiers"] == Str(IdentifierPayload(identifiers))
    ensures params["species"] == Int(opts.species)
    ensures params["required_score"] == Int(opts.requiredScore)
    ensures params["caller_identity"] == Str(opts.callerIdentity)
  {
    var fixed := map["identifiers" := Str(IdentifierPayload(identifiers)),
                     "species" := Int(opts.species),
                     "required_score" := Int(opts.requiredScore),
                     "caller_identity" := Str(opts.callerIdentity)];
    var optional: Params := if opts.limit.Some? then map["limit" := Int(opts.limit.value)] else map[];
    fixed + optional
  }

  /**
   * `limit` is sent exactly when it is given; the other keys are always the
   * same four, with the given options.  Giving a limit only adds that key.
   */
  lemma PartnersLimitKey(identifiers: seq<string>, opts: PartnersOptions)
    ensures "limit" in PartnersParams(identifiers, opts) <==> opts.limit.Some?
    ensures opts.limit.Some? ==> PartnersParams(identifiers, opts)["limit"] == Int(opts.limit.value)
    ensures PartnersParams(identifiers, opts).Keys - {"limit"}
         == {"identifiers", "species", "required_score", "caller_identity"}
    ensures PartnersParams(identifiers, opts)["identifiers"] == Str(IdentifierPayload(identifiers))
    ensures PartnersParams(identifiers, opts)["species"] == Int(opts.species)
    ensures PartnersParams(identifiers, opts)["required_score"] == Int(opts.requiredScore)
    ensures PartnersParams(identifiers, opts)["caller_identity"] == Str(opts.callerIdentity)
    ensures opts.limit.Some? ==>
              PartnersParams(identifiers, opts)
              == PartnersParams(identifiers, opts.(limit := None))["limit" := Int(opts.limit.value)]
  {
  }

  /** Builds the form in place: the fixed keys first, then `limit` if given. */
  method AssemblePartnersParams(identifiers: seq<string>, opts: PartnersOptions) returns (params: Params)
    ensures params == PartnersParams(identifiers, opts)
  {
    params := map["identifiers" := Str(IdentifierPayload(identifiers)),
                  "species" := Int(opts.species),
                  "required_score" := Int(opts.requiredScore),
                  "caller_identity" := Str(opts.callerIdentity)];
    if opts.limit.Some? {
      params := params["limit" := Int(opts.limit.value)];
    }
  }

  /** The interaction partners of the given proteins, with one request. */
  method GetInteractionPartners(identifiers: seq<string>, opts: PartnersOptions, post: Transport, parse: Parser)
    returns (r: Result<Table>)
    ensures r == Send(post, parse, Request(TsvApiUrl + "interaction_partners",
                                           PartnersParams(identifiers, opts)))
  {
    var requestUrl := BuildRequestUrl("interaction_partners", DefaultFormat);
    TsvUrl("interaction_partners");
    var params := AssemblePartnersParams(identifiers, opts);
    var results := post(Request(requestUrl, params));
    r := HandleResults(results, parse);
  }

  // ---------------------------------------------------------------------------
  // get_enrichment

  datatype EnrichmentOptions = EnrichmentOptions(background: Option<seq<string>>, species: int, callerIdentity: string)

  const DefaultEnrichmentOptions := EnrichmentOptions(None, DefaultSpecies, DefaultCallerIdentity)

  /**
   * The form of an enrichment request: the fixed keys, plus the joined
   * background identifiers when a background is given.
   */
  function EnrichmentParams(identifiers: seq<string>, opts: EnrichmentOptions): (params: Params)
    ensures params.Keys == {"identifiers", "species", "caller_identity"}
                           + (if opts.background.Some? then {"background_string_identifiers"} else {})
    ensures params["identifiers"] == Str(IdentifierPayload(identifiers))
    ensures params["species"] == Int(opts.species)
    ensures params["caller_identity"] == Str(opts.callerIdentity)
  {
    var fixed := map["identifiers" := Str(IdentifierPayload(identifiers)),
                     "species" := Int(opts.species),
                     "caller_identity" := Str(opts.callerIdentity)];
    var optional: Params :=
      if opts.background.Some? then map["background_string_identifiers" := Str(IdentifierPayload(opts.background.value))]
      else map[];
    fixed + optional
  }

  /**
   * `background_string_identifiers` is sent exactly when a background is
   * given, as the carriage-return join of it; the other keys are always the
   * same three, with the given options.  Giving a background only adds that key.
   */
  lemma EnrichmentBackgroundKey(identifiers: seq<string>, opts: EnrichmentOptions)
    ensures "background_string_identifiers" in EnrichmentParams(identifiers, opts) <==> opts.background.Some?
    ensures opts.background.Some? ==>
              EnrichmentParams(identifiers, opts)["background_string_identifiers"]
              == Str(IdentifierPayload(opts.background.value))
    ensures EnrichmentParams(identifiers, opts).Keys - {"background_string_identifiers"}
         == {"identifiers", "species", "caller_identity"}
    ensures EnrichmentParams(identifiers, opts)["identifiers"] == Str(IdentifierPayload(identifiers))
    ensures EnrichmentParams(identifiers, opts)["species"] == Int(opts.species)
    ensures EnrichmentParams(identifiers, opts)["caller_identity"] == Str(opts.callerIdentity)
    ensures opts.background.Some? ==>
              EnrichmentParams(identifiers, opts)
              == EnrichmentParams(identifiers, opts.(background := None))
                   ["background_string_identifiers" := Str(IdentifierPayload(opts.background.value))]
  {
  }

  /** Builds the form in place: the fixed keys first, then the background if given. */
  method AssembleEnrichmentParams(identifiers: seq<string>, opts: EnrichmentOptions) returns (params: Params)
    ensures params == EnrichmentParams(identifiers, opts)
  {
    params := map["identifiers" := Str(IdentifierPayload(identifiers)),
                  "species" := Int(opts.species),
                  "caller_identity" := Str(opts.callerIdentity)];
    if opts.background.Some? {
      params := params["background_string_identifiers" := Str(IdentifierPayload(opts.background.value))];
    }
  }

  /** Functional enrichment of the given proteins, with one request. */
  method GetEnrichment(identifiers: seq<string>, opts: EnrichmentOptions, post: Transport, parse: Parser)
    returns (r: Result<Table>)
    ensures r == Send(post, parse, Request(TsvApiUrl + "enrichment",
                                           EnrichmentParams(identifiers, opts)))
  {
    var requestUrl := BuildRequestUrl("enrichment", DefaultFormat);
    TsvUrl("enrichment");
    var params := AssembleEnrichmentParams(identifiers, opts);
    var results := post(Request(requestUrl, params));
    r := HandleResults(results, parse);
  }

  /**
   * With the default options each endpoint sends the documented defaults:
   * species 9606, score threshold 400, one match per identifier with the
   * query echoed, a "physical" network with no added nodes, no PubMed
   * annotations, no partner limit, no background, and the library's
   * repository URL as caller identity.
   */
  lemma DefaultParameters(identifiers: seq<string>)
    ensures var p := StringIdsRequest(identifiers, DefaultStringIdsOptions).params;
            p["species"] == Int(9606) && p["limit"] == Int(1) && p["echo_query"] == Int(1)
            && p["caller_identity"] == Str("https://github.com/gpp-rnd/stringdb")
    ensures var p := NetworkRequest(identifiers, DefaultNetworkOptions).params;
            p["species"] == Int(9606) && p["required_score"] == Int(400)
            && p["network_type"] == Str("physical") && p["add_nodes"] == Int(0)
            && p["caller_identity"] == Str("https://github.com/gpp-rnd/stringdb")
    ensures var p := PpiEnrichmentRequest(identifiers, DefaultPpiEnrichmentOptions).params;
            p["species"] == Int(9606) && p["required_score"] == Int(400)
            && p["caller_identity"] == Str("https://github.com/gpp-rnd/stringdb")
    ensures var p := PartnersParams(identifiers, DefaultPartnersOptions);
            "limit" !in p && p["species"] == Int(9606) && p["required_score"] == Int(400)
            && p["caller_identity"] == Str("https://github.com/gpp-rnd/stringdb")
    ensures var p := EnrichmentParams(identifiers, DefaultEnrichmentOptions);
            "background_string_identifiers" !in p && p["species"] == Int(9606)
            && p["caller_identity"] == Str("https://github.com/gpp-rnd/stringdb")
    ensures var p := AnnotationParams(identifiers, DefaultAnnotationOptions);
            p["species"] == Int(9606) && p["allow_pubmed"] == Int(0)
            && p["caller_identity"] == Str("https://github.com/gpp-rnd/stringdb")
  {
  }

  // ---------------------------------------------------------------------------
  // get_functional_annotation

  datatype AnnotationOptions = AnnotationOptions(species: int, callerIdentity: string, allowPubmed: int)

  const DefaultAnnotationOptions := AnnotationOptions(DefaultSpecies, DefaultCallerIdentity, 0)

  const AnnotationUrl: string := TsvApiUrl + "functional_annotation"

  /** The form sent for one chunk of identifiers. */
  function AnnotationParams(chunk: seq<string>, opts: AnnotationOptions): (params: Params)
    ensures params.Keys == {"identifiers", "species", "caller_identity", "allow_pubmed"}
    ensures params["identifiers"] == Str(IdentifierPayload(chunk))
    ensures params["species"] == Int(opts.species)
    ensures params["caller_identity"] == Str(opts.callerIdentity)
    ensures params["allow_pubmed"] == Int(opts.allowPubmed)
  {
    map["identifiers" := Str(IdentifierPayload(chunk)),
        "species" := Int(opts.species),
        "caller_identity" := Str(opts.callerIdentity),
        "allow_pubmed" := Int(opts.allowPubmed)]
  }

  /** The requests of a complete annotation lookup: one per chunk, in chunk order. */
  function AnnotationRequests(identifiers: seq<string>, opts: AnnotationOptions): (reqs: seq<Request>)
    ensures |reqs| == CeilChunks(|identifiers|)
    ensures forall k :: 0 <= k < |reqs| ==> reqs[k].url == AnnotationUrl
    ensures forall k :: 0 <= k < |reqs| ==>
              reqs[k].params.Keys == {"identifiers", "species", "caller_identity", "allow_pubmed"}
    ensures forall k :: 0 <= k < |reqs| ==>
              reqs[k].params["identifiers"] == Str(IdentifierPayload(Chunks(identifiers)[k]))
              && 1 <= |Chunks(identifiers)[k]| <= ChunkSize
  {
    var chunks := Chunks(identifiers);
    seq(|chunks|, k requires 0 <= k < |chunks| => Request(AnnotationUrl, AnnotationParams(chunks[k], opts)))
  }

  /**
   * A complete lookup sends ceil(N / 2000) requests to the annotation URL;
   * there is a request k exactly when offset k * 2000 is inside the input,
   * and it carries identifiers k * 2000 up to (k + 1) * 2000, clamped at N.
   */
  lemma AnnotationRequestsShape(identifiers: seq<string>, opts: AnnotationOptions, k: nat)
    ensures |AnnotationRequests(identifiers, opts)| == CeilChunks(|identifiers|)
    ensures k < |AnnotationRequests(identifiers, opts)| <==> k * ChunkSize < |identifiers|
    ensures k * ChunkSize < |identifiers| ==>
              AnnotationRequests(identifiers, opts)[k]
              == Request(AnnotationUrl,
                         AnnotationParams(identifiers[k * ChunkSize .. Min(k * ChunkSize + ChunkSize, |identifiers|)], opts))
  {
    ChunkExists(identifiers, k);
    if k * ChunkSize < |identifiers| {
      ChunkAt(identifiers, k);
    }
  }

  /**
   * Splitting the identifier payloads of a complete lookup and concatenating
   * them in request order gives back the input list, when no identifier holds
   * a carriage return.
   */
  lemma AnnotationPayloadsCoverInput(identifiers: seq<string>, opts: AnnotationOptions)
    requires NoneContains(identifiers, IdSeparator)
    ensures var reqs := AnnotationRequests(identifiers, opts);
            Flatten(seq(|reqs|, k requires 0 <= k < |reqs| => Split(reqs[k].params["identifiers"].s, IdSeparator)))
            == identifiers
  {
    var chunks := Chunks(identifiers);
    var reqs := AnnotationRequests(identifiers, opts);
    var pieces := seq(|reqs|, k requires 0 <= k < |reqs| => Split(reqs[k].params["identifiers"].s, IdSeparator));
    forall k | 0 <= k < |chunks|
      ensures pieces[k] == chunks[k]
    {
      ChunkAt(identifiers, k);
      var lo := k * ChunkSize;
      var hi := Min(lo + ChunkSize, |identifiers|);
      assert chunks[k] == identifiers[lo..hi];
      assert NoneContains(chunks[k], IdSeparator) by {
        forall j | 0 <= j < |chunks[k]|
          ensures IdSeparator !in chunks[k][j]
        {
          assert chunks[k][j] == identifiers[lo + j];
        }
      }
      PayloadRoundTrip(chunks[k]);
    }
    assert pieces == chunks;
    FlattenChunks(identifiers);
  }

  /**
   * Concatenates tables in order (`pd.concat`): the columns of the first
   * table and every row of every table, table by table.  An empty list is
   * an error.
   */
  function ConcatTables(tables: seq<Table>): (r: Result<Table>)
    ensures r.Failure? <==> |tables| == 0
    ensures r.Failure? ==> r.error == NothingToConcatenate
    ensures r.Success? ==> r.value.columns == tables[0].columns
    ensures r.Success? ==> |r.value.rows| == TotalLength(RowsOf(tables))
  {
    if |tables| == 0 then Failure(NothingToConcatenate)
    else
      FlattenLength(RowsOf(tables));
      Success(Table(tables[0].columns, Flatten(RowsOf(tables))))
  }

  /** The rows of each table, table by table. */
  function RowsOf(tables: seq<Table>): (rowss: seq<seq<Row>>)
    ensures |rowss| == |tables|
    ensures forall k :: 0 <= k < |tables| ==> rowss[k] == tables[k].rows
  {
    seq(|tables|, k requires 0 <= k < |tables| => tables[k].rows)
  }

  /** True when every one of the requests gets a table back. */
  predicate AllSucceed(post: Transport, parse: Parser, reqs: seq<Request>)
  {
    forall j :: 0 <= j < |reqs| ==> Send(post, parse, reqs[j]).Success?
  }

  /** The tables returned for requests that all succeed, in request order. */
  function TablesOf(post: Transport, parse: Parser, reqs: seq<Request>): (tables: seq<Table>)
    requires AllSucceed(post, parse, reqs)
    ensures |tables| == |reqs|
    ensures forall j :: 0 <= j < |reqs| ==> Send(post, parse, reqs[j]) == Success(tables[j])
  {
    seq(|reqs|, j requires 0 <= j < |reqs| => Send(post, parse, reqs[j]).value)
  }

  /**
   * What an annotation lookup may return, given the requests it sent: a
   * prefix of the complete lookup's requests, every one but the last
   * answered with a table.  It succeeds exactly when the input is non-empty
   * and every chunk was requested and answered, and then its table is the
   * in-order concatenation of the chunk tables.  With no identifiers nothing
   * is sent and the concatenation of nothing fails; any other failure is the
   * outcome of the last request sent.
   */
  ghost predicate AnnotationOutcome(identifiers: seq<string>, opts: AnnotationOptions, post: Transport, parse: Parser,
                                    r: Result<Table>, sent: seq<Request>)
  {
    && sent <= AnnotationRequests(identifiers, opts)
    && (forall j :: 0 <= j < |sent| - 1 ==> Send(post, parse, sent[j]).Success?)
    && (r.Success? <==> |identifiers| > 0 && sent == AnnotationRequests(identifiers, opts)
                        && AllSucceed(post, parse, sent))
    && (r.Success? ==> AllSucceed(post, parse, sent) && r == ConcatTables(TablesOf(post, parse, sent)))
    && (|identifiers| == 0 ==> sent == [] && r == Failure(NothingToConcatenate))
    && (|identifiers| > 0 && r.Failure? ==> |sent| > 0 && r == Send(post, parse, sent[|sent| - 1]))
  }

  /** A lookup that stops at the first failing request has that request's outcome. */
  lemma StoppedOutcome(identifiers: seq<string>, opts: AnnotationOptions, post: Transport, parse: Parser,
                       sent: seq<Request>, req: Request)
    requires sent + [req] <= AnnotationRequests(identifiers, opts)
    requires AllSucceed(post, parse, sent) && Send(post, parse, req).Failure?
    ensures AnnotationOutcome(identifiers, opts, post, parse, Send(post, parse, req), sent + [req])
  {
    FailureStops(post, parse, sent, req);
    assert (sent + [req])[|sent|] == req;
  }

  /** A lookup that sent every request, each answered, returns their concatenation. */
  lemma CompletedOutcome(identifiers: seq<string>, opts: AnnotationOptions, post: Transport, parse: Parser,
                         sent: seq<Request>)
    requires sent == AnnotationRequests(identifiers, opts) && AllSucceed(post, parse, sent)
    ensures AnnotationOutcome(identifiers, opts, post, parse, ConcatTables(TablesOf(post, parse, sent)), sent)
  {
    AnnotationRequestsShape(identifiers, opts, 0);
  }

  /**
   * Annotation lookup, one request per chunk of at most 2000 identifiers, in
   * order; the per-chunk tables are concatenated in order.  Also returns the
   * requests it sent, so that its outcome can be stated in their terms.
   */
  method GetFunctionalAnnotation(identifiers: seq<string>, opts: AnnotationOptions, post: Transport, parse: Parser)
    returns (r: Result<Table>, sent: seq<Request>)
    ensures AnnotationOutcome(identifiers, opts, post, parse, r, sent)
  {
    var requestUrl := BuildRequestUrl("functional_annotation", DefaultFormat);
    TsvUrl("functional_annotation");
    ghost var reqs := AnnotationRequests(identifiers, opts);
    var pathwayList: seq<Table> := [];
    sent := [];
    var i := 0;
    while i < |identifiers|
      invariant i == |sent| * ChunkSize
      invariant |sent| <= |reqs| && sent == reqs[..|sent|]
      invariant AllSucceed(post, parse, sent) && pathwayList == TablesOf(post, parse, sent)
    {
      AnnotationRequestsShape(identifiers, opts, |sent|);
      var currIds := identifiers[i..Min(i + ChunkSize, |identifiers|)];
      var req := Request(requestUrl, AnnotationParams(currIds, opts));
      assert reqs[..|sent| + 1] == sent + [req];
      var results := post(req);
      var df := HandleResults(results, parse);
      if df.Failure? {
        StoppedOutcome(identifiers, opts, post, parse, sent, req);
        sent := sent + [req];
        r := df;
        return;
      }
      TablesOfSnoc(post, parse, sent, req);
      sent := sent + [req];
      pathwayList := pathwayList + [df.value];
      i := i + ChunkSize;
    }
    AnnotationRequestsShape(identifiers, opts, |sent|);
    assert sent == reqs;
    CompletedOutcome(identifiers, opts, post, parse, sent);
    r := ConcatTables(pathwayList);
  }

  /** One more successful request adds its table at the end. */
  lemma TablesOfSnoc(post: Transport, parse: Parser, reqs: seq<Request>, req: Request)
    requires AllSucceed(post, parse, reqs) && Send(post, parse, req).Success?
    ensures AllSucceed(post, parse, reqs + [req])
    ensures TablesOf(post, parse, reqs + [req]) == TablesOf(post, parse, reqs) + [Send(post, parse, req).value]
  {
  }

  /** A failing request ends a run of successes: the run plus it does not all succeed. */
  lemma FailureStops(post: Transport, parse: Parser, reqs: seq<Request>, req: Request)
    requires AllSucceed(post, parse, reqs) && Send(post, parse, req).Failure?
    ensures !AllSucceed(post, parse, reqs + [req])
    ensures forall j :: 0 <= j < |reqs| ==> Send(post, parse, (reqs + [req])[j]).Success?
  {
    assert (reqs + [req])[|reqs|] == req;
  }

  /**
   * Concatenation keeps every row of every table, in table order: row i of
   * table j is row (rows of tables 0..j-1) + i of the result.
   */
  lemma ConcatTablesOrder(tables: seq<Table>, j: nat, i: nat)
    requires j < |tables| && i < |tables[j].rows|
    ensures var r := ConcatTables(tables);
            r.Success? && TotalLength(RowsOf(tables)[..j]) + i < |r.value.rows|
            && r.value.rows[TotalLength(RowsOf(tables)[..j]) + i] == tables[j].rows[i]
  {
    FlattenAt(RowsOf(tables), j, i);
  }
}
