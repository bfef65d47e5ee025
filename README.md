# STRING client request layer, modelled in Dafny

This project models the request-building layer of `stringdb`, a Python client for the STRING protein-interaction web service (`stringdb/api.py`). Each public call of the client builds a request URL from a fixed base address, an output format and a method name. It then assembles a form-parameter map for its endpoint, posts it, and reads the tab-separated response into a table. The annotation lookup is the exception: it cuts its identifier list into chunks of at most 2000 and posts one request per chunk, in order. It then concatenates the per-chunk tables.

The model has four modules:

- `Seqs` (`seqs.dfy`): concatenation of a list of lists, with its length and the position of each item in it.
- `Text` (`text.dfy`): `Join` and `Split`, with the meaning of Python's `sep.join(parts)` and `s.split(c)`. It proves that joining the pieces of a split gives back the string. It also proves that splitting a join gives back a non-empty list of separator-free parts.
- `Chunking` (`chunking.dfy`): the cut into chunks of at most `ChunkSize` = 2000 items. It proves the chunk count is ceil(N/2000), and that every chunk holds 1 to 2000 items with all but the last full. It also proves that chunk k is the slice starting at offset 2000·k, and that concatenating the chunks gives back the input.
- `Api` (`api.dfy`): the URL builder, `handle_results`, the parameter maps of the six endpoints, and the endpoints themselves.

Modelling choices:

- The HTTP transport (`requests.post`) is a function parameter `post: Request -> Response`. A `Request` holds the URL and the form map. A `Response` holds the success flag, the body bytes and the reason text.
- UTF-8 decoding plus `pd.read_csv` together form the function parameter `parse`. It either yields a `Table` (header fields and rows) or rejects the body. A rejection surfaces as `ParseFailure`.
- The exception `handle_results` raises becomes `Failure(RequestFailure(reason))`. The error `pd.concat` raises on an empty list becomes `Failure(NothingToConcatenate)`.
- Optional arguments with `None` as default (`limit`, `background_string_identifiers`) are `Option` values.
- `get_interaction_partners` and `get_enrichment` build their form map and then add the optional key in place. They are methods that reassign a local map. Each is proved equal to a specification function that writes the map as the fixed keys united with the optional one.
- `get_functional_annotation` is a method with the source's loop over offsets 0, 2000, 4000, …. It also returns the requests it sent, so that "which chunks were requested, and none after the first failure" can be stated.
- The docstring of `get_network` calls "functional" the default network type, but the code's default is `"physical"`. The model follows the code.

## Model

| member | source | states |
|---|---|---|
| `Api.BuildRequestUrl` | stringdb/api.py:7-28 | the URL is the base `https://string-db.org/api`, a slash, the format, a slash and the method; nothing is rejected |
| `Api.UrlSegments` | stringdb/api.py:26-27 | when format and method hold no slash, the last two path segments of the URL are exactly the format and the method |
| `Api.UrlIsInjective` | stringdb/api.py:26-27 | two slash-free (method, format) pairs give the same URL only if they are equal |
| `Api.HandleResults` | stringdb/api.py:31-39 | a table comes back exactly when the response is ok and its body parses, and it is the parse of the body; a not-ok response fails with a RequestFailure carrying the response's reason, and only a not-ok response does |
| `Api.Send` | stringdb/api.py:72-73 | a round trip fails with a RequestFailure exactly when the transport's response to that request is not ok, and the error carries that response's reason; an ok response whose body parses gives a table, and a table returned is the parse of that response's body |
| `Text.Join` | stringdb/api.py:27 | joining no parts gives the empty string; otherwise the result starts with the first part and is as long as the parts together plus one separator between each pair of neighbours |
| `Api.IdentifierPayload` | stringdb/api.py:66 | the payload of no identifiers is empty; otherwise it starts with the first identifier and is as long as the identifiers together plus one carriage return between neighbours |
| `Api.PayloadRoundTrip` | stringdb/api.py:66 | splitting the carriage-return payload gives back the identifier list in its order, for a non-empty list of identifiers without carriage returns |
| `Text.SplitJoin` | stringdb/api.py:66 | splitting a join on the separator gives back the parts, when there is at least one part and none holds the separator |
| `Text.JoinSplit` | stringdb/api.py:66 | joining the pieces of a split gives back the original string |
| `Text.EmptyJoinIsAmbiguous` | stringdb/api.py:66 | the empty identifier list and the list of one empty identifier give the same empty payload, which splits into one empty piece |
| `Api.StringIdsRequest` | stringdb/api.py:64-71 | the request goes to `.../api/tsv/get_string_ids` with exactly the keys identifiers, species, limit, echo_query and caller_identity, carrying the joined identifiers and the given options |
| `Api.GetStringIds` | stringdb/api.py:42-74 | the call fails with a RequestFailure exactly when the response to the get_string_ids request is not ok, with that response's reason; an ok response whose body parses gives a table, and a table returned is the parse of that response |
| `Api.NetworkRequest` | stringdb/api.py:148-156 | the request goes to `.../api/tsv/network` with exactly the keys identifiers, species, caller_identity, required_score, network_type and add_nodes, carrying the given options |
| `Api.GetNetwork` | stringdb/api.py:118-159 | the call fails with a RequestFailure exactly when the response to the network request is not ok, with that response's reason; an ok response whose body parses gives a table, and a table returned is the parse of that response |
| `Api.PpiEnrichmentRequest` | stringdb/api.py:183-189 | the request goes to `.../api/tsv/ppi_enrichment` with exactly the keys identifiers, species, required_score and caller_identity |
| `Api.GetPpiEnrichment` | stringdb/api.py:162-192 | the call fails with a RequestFailure exactly when the response to the ppi_enrichment request is not ok, with that response's reason; an ok response whose body parses gives a table, and a table returned is the parse of that response |
| `Api.PartnersParams` | stringdb/api.py:220-227 | the interaction-partners form has exactly the keys identifiers, species, required_score and caller_identity, plus `limit` when a limit is given, carrying the joined identifiers and the given options |
| `Api.PartnersLimitKey` | stringdb/api.py:220-227 | `limit` is in the form exactly when a limit is given, with that value, and giving a limit only adds that key to the form built without one; species, required_score and caller_identity carry the given options |
| `Api.AssemblePartnersParams` | stringdb/api.py:220-227 | building the form in place (fixed keys, then `limit` if given) yields the specified interaction-partners form |
| `Api.GetInteractionPartners` | stringdb/api.py:195-230 | the result is the outcome of posting that form to `.../api/tsv/interaction_partners` |
| `Api.EnrichmentParams` | stringdb/api.py:255-262 | the enrichment form has exactly the keys identifiers, species and caller_identity, plus `background_string_identifiers` when a background is given, carrying the joined identifiers and the given options |
| `Api.EnrichmentBackgroundKey` | stringdb/api.py:255-262 | `background_string_identifiers` is in the form exactly when a background is given, as its carriage-return join, and giving a background only adds that key to the form built without one; species and caller_identity carry the given options |
| `Api.AssembleEnrichmentParams` | stringdb/api.py:255-262 | building the form in place (fixed keys, then the background if given) yields the specified enrichment form |
| `Api.GetEnrichment` | stringdb/api.py:233-265 | the result is the outcome of posting that form to `.../api/tsv/enrichment` |
| `Api.DefaultParameters` | stringdb/api.py:42-235 | with default options every form carries species 9606 and the caller identity `https://github.com/gpp-rnd/stringdb`; the forms carry score 400, limit 1 and echo_query 1 for get_string_ids, network type "physical" and add_nodes 0, allow_pubmed 0, no partner limit and no background |
| `Api.AnnotationParams` | stringdb/api.py:105-110 | the per-chunk form has exactly the keys identifiers, species, caller_identity and allow_pubmed, carrying the joined chunk |
| `Chunking.Chunks` | stringdb/api.py:103-104 | there are ceil(N/2000) chunks; each holds between 1 and 2000 items and all but the last hold exactly 2000 |
| `Chunking.ChunkAt` | stringdb/api.py:103-104 | chunk k starts at offset 2000·k, which is inside the input, and is the slice up to 2000·k + 2000 clamped at N |
| `Chunking.ChunkExists` | stringdb/api.py:103 | a chunk with index k exists exactly when offset 2000·k is below N, as in `range(0, N, 2000)` |
| `Chunking.FlattenChunks` | stringdb/api.py:103-104 | concatenating the chunks in order gives back the input |
| `Api.AnnotationRequests` | stringdb/api.py:103-111 | a complete lookup has one request per chunk, ceil(N/2000) in all, each to `.../api/tsv/functional_annotation` with exactly the keys identifiers, species, caller_identity and allow_pubmed; request k carries the join of chunk k, which holds 1 to 2000 identifiers |
| `Api.AnnotationRequestsShape` | stringdb/api.py:100-110 | a complete lookup has ceil(N/2000) requests, all to `.../api/tsv/functional_annotation`; request k exists exactly when 2000·k < N and carries identifiers 2000·k up to 2000·k + 2000 clamped at N |
| `Api.AnnotationPayloadsCoverInput` | stringdb/api.py:103-106 | splitting the payloads of a complete lookup and concatenating them in request order gives back the identifier list, when no identifier holds a carriage return |
| `Api.ConcatTables` | stringdb/api.py:114 | concatenating no tables fails; otherwise the result has the first table's columns and as many rows as all tables together |
| `Seqs.FlattenLength` | stringdb/api.py:114 | the length of a concatenation is the sum of the lengths |
| `Seqs.FlattenAt` | stringdb/api.py:114 | item i of part j sits in the concatenation right after all items of parts before j |
| `Api.ConcatTablesOrder` | stringdb/api.py:114 | row i of table j is the result's row at offset (rows of tables before j) + i, so chunk order and row order are kept |
| `Api.StoppedOutcome` | stringdb/api.py:111-113 | a lookup whose requests so far succeeded and whose next one fails ends with that request's error, having sent nothing after it |
| `Api.CompletedOutcome` | stringdb/api.py:103-115 | a lookup that sent every chunk's request, each answered with a table, returns the in-order concatenation of those tables |
| `Api.GetFunctionalAnnotation` | stringdb/api.py:100-115 | its outcome satisfies `AnnotationOutcome`: the requests sent are a prefix of the complete lookup's. Every request before the last one sent succeeded. Success holds exactly when the input is non-empty and every chunk was requested and succeeded; the result is then the in-order concatenation of the chunk tables. An empty input sends nothing and fails with NothingToConcatenate. Otherwise a failure is the outcome of the last request sent, and no later chunk is requested |

## Left out

- The HTTP transport (`requests.post`, form encoding, timeouts, connection errors) is the function parameter `post`; how a map is encoded on the wire is not modelled.
- UTF-8 decoding and `pd.read_csv` form the function parameter `parse`; the tab-separated format is not modelled, so no statement is made about the header and row split of a particular body.
- `pd.concat` aligning columns by name when chunk tables have different headers, and the row index it builds: the model keeps the first table's columns and appends rows.
- Python accepts any value for each keyword argument; the model types species, scores, limits and flags as integers and the caller identity and network type as strings.
- Pandas `Series` given as the identifier list (the tests pass one): the model takes an ordered list of strings.
- The docstrings, and the methods `homology`, `homology_best` and `version`, which the client names but never calls.
- tests/test_stringdb.py: every test asserts on data returned by the live service.
