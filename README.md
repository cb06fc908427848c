# eThekwini GIS MCP server — a Dafny model of its core

The eThekwini GIS MCP server gives an assistant access to the open GIS data of
the eThekwini municipality (Durban), which is published as ArcGIS REST
services. Its core is the class `EThekwiniGISServer`, which does the following:

- **Refresh.** It keeps a cache of datasets and services. A refresh pass builds
  the cache from three sources, in this order:
  - the configured *known services*;
  - the services listed in the root REST catalog;
  - the services listed in each folder of that catalog.

  Each service is probed. Only a service whose probe returns a non-empty JSON
  dictionary is recorded. A non-forced refresh within 900 seconds of the last
  one is skipped.
- **Catalog reads.** Over the cache it answers keyword and category search,
  lookup of a dataset by id, name or title, and a summary of categories and
  service types.
- **Resources.** It lists the cache as MCP resources
  (`ethekwini-gis://dataset/<id>`, `ethekwini-gis://service/<name>`) and reads
  a resource back from its URI.
- **Requests.** It builds the ArcGIS REST requests of its query tools:
  - feature queries;
  - field statistics;
  - bounding-box queries;
  - the Leases dataset query;
  - layer metadata, from which it extracts field descriptions.

The model has these modules:

- `Wrappers`: `Option` and `Result`.
- `Text`: the Python string operations the server uses. These are `lower`,
  `replace`, `startswith`, `split` at the first separator, `in` on strings,
  `join`, and decimal formatting of integers.
- `OrderedMaps`: Python's insertion-ordered `dict`.
- `Discovery`: the refresh pass, specified as a fold `Run` over the list of
  candidates that `Plan` enumerates. The network is a `Remote` value. It holds
  a probe oracle from URL to parsed JSON, and the root and folder catalogs,
  each of which may be absent.
- `CatalogQueries`: search, lookup and summary over the cache.
- `Resources`: resource URIs, the listing, and URI parsing. Parsing is
  modelled twice: once as written and once corrected (see Findings).
- `QueryBuilders`: the REST requests as URL plus parameter map, and the
  field extraction.
- `GisServer`: the loops of the refresh pass as methods proved against `Run`.
  It also has the class `Server`, which holds the cache fields (updated in
  place), the known services, and one method per server operation.

## Model

| member | source | states |
|---|---|---|
| OrderedMaps.OrderedMap.Put | src/ethekwini_gis_mcp.py:526-533 | storing under a key keeps a dictionary valid; a new key is appended to the iteration order and an existing key keeps its position while its value is replaced |
| OrderedMaps.OrderedMap.Values | src/ethekwini_gis_mcp.py:657 | the values in key iteration order, one per key |
| OrderedMaps.LengthIsSize | src/ethekwini_gis_mcp.py:792 | `len` of a dictionary: as many keys in iteration order as entries |
| Text.ContainsIff | src/ethekwini_gis_mcp.py:669 | substring test `in` holds exactly when the pattern occurs at some position |
| Text.SplitFirstJoined | src/ethekwini_gis_mcp.py:99-101 | splitting `a + "/" + b` at its first `/`, where `a` has none, gives back `a` and `b` |
| Text.IntToStringRoundTrip | src/ethekwini_gis_mcp.py:710 | the decimal text of a layer id parses back to that id |
| Discovery.Fresh | src/ethekwini_gis_mcp.py:496 | a non-forced refresh is skipped when a refresh time is stored, is not 0 (falsy), and lies less than 900 seconds back |
| Discovery.ProbeOk | src/ethekwini_gis_mcp.py:509 | a probe leads to records only when it returned a non-empty dictionary; a failed probe is `None` |
| Discovery.RootAdmitted | src/ethekwini_gis_mcp.py:551 | a root service is admitted when its type is FeatureServer or MapServer and its name is not a known service |
| Discovery.FolderAdmitted | src/ethekwini_gis_mcp.py:599 | a folder service is admitted when its type is FeatureServer or MapServer |
| Discovery.FolderId | src/ethekwini_gis_mcp.py:607 | the dataset id of a folder service: `folder/name` lower-cased with `/` replaced by `_` |
| Discovery.KnownCandidate | src/ethekwini_gis_mcp.py:510-533 | a known service is recorded under its lower-cased name with the type "Feature Service" and its registered URL |
| Discovery.RootCandidate | src/ethekwini_gis_mcp.py:552-580 | a root service is probed at `api_base/name/type` and recorded under its lower-cased name with its own type |
| Discovery.FolderCandidate | src/ethekwini_gis_mcp.py:597-628 | a folder service is named `folder/name`, probed at `api_base/folder/name/type`, and carries its folder |
| Discovery.MakeDataset | src/ethekwini_gis_mcp.py:510-524 | the dataset record: service description or name as title, description or the default sentence, empty dates, the fixed tags, category and owner, the probe result and its layers |
| Discovery.MakeEntry | src/ethekwini_gis_mcp.py:527-533 | the service entry: name, URL, type, dataset id and the probe result |
| Discovery.Admit | src/ethekwini_gis_mcp.py:507-533 | one probe: the URL is logged, and on a non-empty answer the dataset and service entry are stored, replacing any under the same key |
| Discovery.Run | src/ethekwini_gis_mcp.py:505-635 | the probes of a list of candidates, one after another |
| Discovery.Plan | src/ethekwini_gis_mcp.py:505-634 | the services a pass probes, in order: known services, then, when the root catalog was read, root services and folder services |
| Discovery.Discover | src/ethekwini_gis_mcp.py:499-642 | a refresh pass: the probes of the plan starting from empty dictionaries |
| Discovery.RefreshedBy | src/ethekwini_gis_mcp.py:491-647 | a non-forced call on a fresh cache changes nothing and probes no service; otherwise the caches become the pass result and the refresh time is now |
| Discovery.KnownCandidates | src/ethekwini_gis_mcp.py:506 | one candidate per known service, in registration order |
| Discovery.RunConsistent | src/ethekwini_gis_mcp.py:526-533 | every probe keeps the cache invariant: each dataset is stored under its own id, and each service entry under its own name, pointing at a cached dataset |
| Discovery.RunProbed | src/ethekwini_gis_mcp.py:506-508 | every candidate is probed exactly once, in order, whatever the probes return |
| Discovery.RunAppend | src/ethekwini_gis_mcp.py:505-635 | probing two candidate lists in turn is probing their concatenation |
| Discovery.RunFolderStep | src/ethekwini_gis_mcp.py:588-634 | one more folder continues the pass over its admitted services if its catalog can be read, and changes nothing otherwise |
| Discovery.RunDatasetKeys | src/ethekwini_gis_mcp.py:509-526 | a dataset id is cached after the probes exactly when it was cached before or some candidate with that id probed successfully |
| Discovery.RunServiceKeys | src/ethekwini_gis_mcp.py:509-533 | the same for service names |
| Discovery.LastAdmitted | src/ethekwini_gis_mcp.py:526 | the last successfully probed candidate with a given id, or none when no such candidate exists |
| Discovery.RunDatasetOrigin | src/ethekwini_gis_mcp.py:526 | last write wins: the record under an id is built from the last successfully probed candidate with that id |
| Discovery.RootCandidates | src/ethekwini_gis_mcp.py:547-552 | the root phase's services in catalog order: at most one per catalog entry, each of a listed type, not a known service, with no folder and stored under its lower-cased name |
| Discovery.FolderServiceCandidates | src/ethekwini_gis_mcp.py:594-599 | one folder's services in catalog order: at most one per entry, each of a listed type, named `folder/name`, carrying the folder and stored under the folder-style id |
| Discovery.FolderCandidates | src/ethekwini_gis_mcp.py:588-594 | the folder phase's services, folder by folder: each carries a listed folder whose catalog could be read, and is of a listed type |
| Discovery.RootCandidatesMembers | src/ethekwini_gis_mcp.py:547-553 | a root service is probed exactly when its type is FeatureServer or MapServer and its name is not a known service |
| Discovery.FolderServiceCandidatesMembers | src/ethekwini_gis_mcp.py:594-601 | a folder service is probed exactly when its type is FeatureServer or MapServer; known names are not excluded |
| Discovery.FolderCandidatesMembers | src/ethekwini_gis_mcp.py:588-594 | only folders whose catalog could be read contribute candidates |
| Discovery.FolderPlanMembers | src/ethekwini_gis_mcp.py:588-601 | the folder phase probes exactly the listed-type services of the readable folders |
| Discovery.KnownCandidatesMembers | src/ethekwini_gis_mcp.py:506-508 | every known service, and nothing else, is a known-phase candidate |
| Discovery.PlanMembers | src/ethekwini_gis_mcp.py:505-635 | a candidate is probed by a pass if and only if it is admitted by one of the three phases |
| Discovery.DiscoverPhases | src/ethekwini_gis_mcp.py:505-635 | the pass is the known phase, then the root and folder phases when the root catalog answered |
| Discovery.DiscoverConsistent | src/ethekwini_gis_mcp.py:640-641 | the caches a pass installs satisfy the cache invariant |
| Discovery.DiscoverProbes | src/ethekwini_gis_mcp.py:506-601 | the known services' URLs are probed first, in registration order; with no root catalog nothing else is probed |
| Discovery.PlannedDiscovered | src/ethekwini_gis_mcp.py:509-533 | a planned candidate whose probe succeeds ends up in both caches |
| Discovery.KnownServiceDiscovered | src/ethekwini_gis_mcp.py:506-537 | per-item tolerance: a known service that answers is cached under its lower-cased name and its name, whatever the others do |
| Discovery.RootServiceDiscovered | src/ethekwini_gis_mcp.py:547-585 | per-item tolerance for root services |
| Discovery.FolderServiceDiscovered | src/ethekwini_gis_mcp.py:588-635 | per-item tolerance for folder services: a failing folder or service does not stop the others |
| Discovery.FailedRootCatalog | src/ethekwini_gis_mcp.py:541-543 | with no readable root catalog, the datasets are exactly the known services that answer |
| Discovery.FailedRootCatalogServices | src/ethekwini_gis_mcp.py:637-641 | with no readable root catalog, the services are exactly the known services that answer, and they replace the old cache |
| Discovery.DatasetProvenance | src/ethekwini_gis_mcp.py:505-641 | every cached dataset was built from an admitted candidate whose probe succeeded |
| Discovery.FolderDatasetShape | src/ethekwini_gis_mcp.py:605-630 | a folder service record has the lower-cased `folder_name` id with no `/`; its tags and categories carry the folder |
| Discovery.ServiceDatasetShape | src/ethekwini_gis_mcp.py:510-533 | known and root service records are stored under the lower-cased name, with the fixed tags and category |
| CatalogQueries.SearchText | src/ethekwini_gis_mcp.py:662-667 | name, title, description and the space-joined tags, joined by spaces |
| CatalogQueries.Matches | src/ethekwini_gis_mcp.py:659-675 | an empty query or the lower-cased query in the lower-cased search text, and no category, an empty one, or one among the lower-cased categories |
| CatalogQueries.Filter | src/ethekwini_gis_mcp.py:657-678 | the matching datasets, in cache order |
| CatalogQueries.SearchLimit | src/ethekwini_gis_mcp.py:677-680 | the number of results held when the search stops: `limit`, or 1 when `limit` is below 1 |
| CatalogQueries.FilterAppend | src/ethekwini_gis_mcp.py:657-680 | filtering keeps the cache order and commutes with concatenation |
| CatalogQueries.FilterMembers | src/ethekwini_gis_mcp.py:657-680 | a dataset is among the matches exactly when it is in the input and matches |
| CatalogQueries.FilterAllMatch | src/ethekwini_gis_mcp.py:657-680 | when every dataset matches, nothing is dropped |
| CatalogQueries.MatchesMeaning | src/ethekwini_gis_mcp.py:659-675 | a match is an empty query or the lower-cased query inside the lower-cased name, title, description and tags; and no category, an empty one, or one equal to some category ignoring case |
| CatalogQueries.EmptySearchIsPrefix | src/ethekwini_gis_mcp.py:650-682 | an empty query with no category returns the first `limit` datasets in cache order |
| CatalogQueries.SearchStopsEarly | src/ethekwini_gis_mcp.py:677-680 | stopping once `limit` results are held gives the same results as filtering everything and keeping the first `limit` |
| CatalogQueries.SearchResultsMatch | src/ethekwini_gis_mcp.py:650-682 | every search result is a cached dataset that matches the query and category |
| CatalogQueries.CheckMatch | src/ethekwini_gis_mcp.py:659-675 | the per-dataset test is the match predicate |
| CatalogQueries.Search | src/ethekwini_gis_mcp.py:654-682 | the search loop returns the first `max(limit, 1)` matching datasets in cache order |
| CatalogQueries.NameMatches | src/ethekwini_gis_mcp.py:694-695 | the name or the title equals the argument, ignoring case |
| CatalogQueries.FirstNameMatch | src/ethekwini_gis_mcp.py:693-696 | the first dataset whose name or title equals the argument ignoring case, or none when no dataset's name or title does |
| CatalogQueries.LookupDataset | src/ethekwini_gis_mcp.py:684-698 | an exact id wins; otherwise the first name or title match in cache order; the error "Dataset not found: id" exactly when neither exists |
| CatalogQueries.FindDataset | src/ethekwini_gis_mcp.py:689-698 | the lookup loop computes the lookup |
| CatalogQueries.AddCategories | src/ethekwini_gis_mcp.py:778-781 | one dataset appends its name to the list of each of its categories, starting a list for a new category |
| CatalogQueries.CategoryIndex | src/ethekwini_gis_mcp.py:776-781 | the category index built over the cache in order |
| CatalogQueries.Increment | src/ethekwini_gis_mcp.py:785-787 | one more dataset of a type: a new type starts at 0, then 1 is added |
| CatalogQueries.TypeCounts | src/ethekwini_gis_mcp.py:784-787 | the per-type counts built over the cache in order |
| CatalogQueries.AddCategoriesGet | src/ethekwini_gis_mcp.py:778-781 | one dataset appends its name once per occurrence of a category; the categories indexed are the old ones plus its own |
| CatalogQueries.CategoryIndexNames | src/ethekwini_gis_mcp.py:776-781 | each category lists, in cache order, the name of every dataset that carries it; exactly the categories that occur are keys |
| CatalogQueries.TypeCountsCount | src/ethekwini_gis_mcp.py:784-787 | each service type is counted once per dataset of that type; exactly the types that occur are keys |
| CatalogQueries.IncrementSum | src/ethekwini_gis_mcp.py:785-787 | counting one dataset adds one to the total of the counts |
| CatalogQueries.TypeCountsSum | src/ethekwini_gis_mcp.py:784-792 | the service-type counts add up to the number of datasets |
| CatalogQueries.SummaryMeaning | src/ethekwini_gis_mcp.py:769-794 | the summary's index and counts agree with the reference definitions and add up to the dataset total |
| CatalogQueries.IndexCategories | src/ethekwini_gis_mcp.py:778-781 | the category loop for one dataset computes the index update |
| CatalogQueries.CountServiceType | src/ethekwini_gis_mcp.py:784-787 | the type counter for one dataset increments its type, starting from 0 |
| CatalogQueries.Summarize | src/ethekwini_gis_mcp.py:769-794 | the summary lists every category's datasets and every type's count, and holds the dataset and service totals; the counts add up to the total |
| Resources.DatasetListing | src/ethekwini_gis_mcp.py:74-80 | a dataset resource: its URI, "Dataset: " and its name, its description, JSON |
| Resources.ServiceListing | src/ethekwini_gis_mcp.py:83-89 | a service resource: its URI, "Service: " and its name, the default description, JSON |
| Resources.Listings | src/ethekwini_gis_mcp.py:66-91 | the datasets in cache order, then the services, each with its URI, name, description and JSON MIME type |
| Resources.ParseUriAsWritten | src/ethekwini_gis_mcp.py:96-101 | as written: an error exactly when the scheme is missing; otherwise the type and an id that never contains `/` |
| Resources.UriAsWritten | src/ethekwini_gis_mcp.py:99-101 | as written, the id read back from a URI is the name up to its first `/` |
| Resources.ServiceUriAsWritten | src/ethekwini_gis_mcp.py:85 | as written, a listed service URI reads back the name up to its first `/` |
| Resources.FolderServiceUriAsWritten | src/ethekwini_gis_mcp.py:85 | as written, a folder service `folder/name` reads back as `folder`, which is not its name |
| Resources.FolderServiceMisreadAsWritten | src/ethekwini_gis_mcp.py:84-110 | as written, a listed folder service URI is looked up under its folder name: with the folder service alone it reads "Resource not found"; beside a service named like the folder it reads that other service's record |
| Resources.ParseUri | src/ethekwini_gis_mcp.py:96-101 | corrected: the scheme error exactly when the prefix is missing; the type has no `/` |
| Resources.ParseServiceUri | src/ethekwini_gis_mcp.py:85 | corrected: every listed service URI parses back to its exact name |
| Resources.ParseDatasetUri | src/ethekwini_gis_mcp.py:76 | every listed dataset URI parses back to its exact id |
| Resources.ParsersAgreeOnPlainNames | src/ethekwini_gis_mcp.py:99-101 | for names with no `/` or `:` the corrected parse is the one written |
| Resources.Lookup | src/ethekwini_gis_mcp.py:105-110 | a dataset exactly when the type is `dataset` and the id is cached; likewise for services; otherwise "Resource not found: uri" |
| Resources.ReadAsWritten | src/ethekwini_gis_mcp.py:93-110 | reading a URI as written: the scheme error, else the lookup of what the as-written parse gives |
| Resources.Read | src/ethekwini_gis_mcp.py:93-110 | reading a URI with the corrected parse: the scheme error, else the lookup of the type and the whole id |
| Resources.ListedResourcesRead | src/ethekwini_gis_mcp.py:66-110 | with the corrected parse, every listed resource reads back the record it lists |
| QueryBuilders.WithTrailingSlash | src/ethekwini_gis_mcp.py:708-709 | the URL gains one `/` unless it already ends with one |
| QueryBuilders.QueryUrl | src/ethekwini_gis_mcp.py:708-710 | the slashed service URL, the decimal layer id, then `/query` |
| QueryBuilders.LayerUrl | src/ethekwini_gis_mcp.py:799-801 | the slashed service URL, then the decimal layer id |
| QueryBuilders.BoolText | src/ethekwini_gis_mcp.py:714 | `str(b).lower()`: "true" or "false" |
| QueryBuilders.HasGeometry | src/ethekwini_gis_mcp.py:721 | a geometry is sent when one is given and it is not empty |
| QueryBuilders.QueryUrlParts | src/ethekwini_gis_mcp.py:708-710 | the query URL is the slashed service URL, the decimal layer id, then `/query` |
| QueryBuilders.QueryUrlInjective | src/ethekwini_gis_mcp.py:710 | different layers of one service have different query URLs |
| QueryBuilders.FeatureQuery | src/ethekwini_gis_mcp.py:700-723 | the six fixed parameters with the caller's values; geometry and polygon type exactly when a non-empty geometry is given |
| QueryBuilders.StatisticAlias | src/ethekwini_gis_mcp.py:742 | the output field name: statistic type, `_`, field name |
| QueryBuilders.StatisticAliasSplits | src/ethekwini_gis_mcp.py:742 | the output field name splits back into statistic and field when the statistic has no `_` |
| QueryBuilders.StatisticsQuery | src/ethekwini_gis_mcp.py:730-749 | exactly `where`, `outStatistics` (one statistic with its alias) and `f=json` |
| QueryBuilders.EnvelopeParams | src/ethekwini_gis_mcp.py:842-859 | the envelope in WGS84 (4326) with the fixed intersects, `1=1`, `*`, geometry and JSON parameters |
| QueryBuilders.HasBuffer | src/ethekwini_gis_mcp.py:862 | a buffer is sent when one is given and it is not zero |
| QueryBuilders.BoundingBoxQuery | src/ethekwini_gis_mcp.py:830-864 | the envelope parameters, plus distance and metre units exactly when a non-zero buffer is given |
| QueryBuilders.LeasesQuery | src/ethekwini_gis_mcp.py:885-901 | the query URL of the layer under the Leases service; `returnGeometry=true` exactly when the format is `geojson` ignoring case |
| QueryBuilders.LayerFieldsRequest | src/ethekwini_gis_mcp.py:799-803 | the layer URL with only `f=json` |
| QueryBuilders.FieldInfoOf | src/ethekwini_gis_mcp.py:819-826 | one extracted field: missing name, type and alias become "", length passes through, nullable defaults to true and editable to false |
| QueryBuilders.FieldInfos | src/ethekwini_gis_mcp.py:818-826 | one extracted entry per field descriptor, in order |
| QueryBuilders.ExtractLayerFields | src/ethekwini_gis_mcp.py:811-828 | missing strings become "", the length passes through, and nullable defaults to true and editable to false |
| GisServer.ProbeService | src/ethekwini_gis_mcp.py:507-537 | one probe records the URL, and the records when the probe answers a non-empty dictionary |
| GisServer.RunSnoc | src/ethekwini_gis_mcp.py:506 | one more candidate is one more probe |
| GisServer.ProbeKnownServices | src/ethekwini_gis_mcp.py:505-537 | the known-services loop computes the known phase of the pass |
| GisServer.ProbeRootServices | src/ethekwini_gis_mcp.py:547-585 | the root-services loop computes the root phase |
| GisServer.ProbeFolderServices | src/ethekwini_gis_mcp.py:594-632 | the loop over one folder's services computes its part of the folder phase |
| GisServer.ProbeFolders | src/ethekwini_gis_mcp.py:588-635 | the folder loop computes the folder phase |
| GisServer.DiscoverServices | src/ethekwini_gis_mcp.py:499-638 | the whole pass computes `Discover` |
| GisServer.ListCache | src/ethekwini_gis_mcp.py:66-91 | the listing loops compute the resource list: every dataset, then every service, in cache order |
| GisServer.Server.constructor | src/ethekwini_gis_mcp.py:43-58 | empty caches, no refresh yet, and the Leases service as the only known service |
| GisServer.Server.Refresh | src/ethekwini_gis_mcp.py:491-647 | `force` defaults to false; a non-forced call changes nothing when a refresh time is stored, is not 0, and lies less than 900 seconds back; otherwise the caches become the pass's result and the refresh time is now |
| GisServer.Server.AddKnownService | src/ethekwini_gis_mcp.py:871-883 | the service is registered, a forced refresh runs, the message reports the dataset count, and an answering service is cached |
| GisServer.Server.SearchDatasets | src/ethekwini_gis_mcp.py:650-682 | with the defaults `query=""`, no category and `limit=20`: refresh, then search the refreshed cache |
| GisServer.Server.GetDatasetInfo | src/ethekwini_gis_mcp.py:684-698 | refresh, then look up by id, name or title |
| GisServer.Server.ListMunicipalServices | src/ethekwini_gis_mcp.py:769-794 | refresh, then summarise; the counts add up to the dataset total |
| GisServer.Server.ListResources | src/ethekwini_gis_mcp.py:66-91 | refresh, then list every cached dataset and service |
| GisServer.Server.ReadResource | src/ethekwini_gis_mcp.py:93-110 | a missing scheme fails before any refresh; otherwise refresh, then parse as written and look up, so a folder service URI is looked up under its folder name: an error, or the record of a service named like the folder |
| GisServer.RefreshIsIdempotentWithinWindow | src/ethekwini_gis_mcp.py:496-497 | a non-forced refresh less than 900 seconds after a refresh made at a time other than 0 changes nothing and probes no service |

Where the code and the intent stated in its own text differ, the model follows
the code:

- **Root catalog failure.** A failure to read the root catalog does not keep
  the previous cache. The exception is caught at line 637 and the pass goes on
  to install the known-services-only result at lines 640–642
  (`Discovery.FailedRootCatalog`, `Discovery.FailedRootCatalogServices`). The
  fallback to cached data that the comment at line 648 announces only follows
  an exception outside that handler, and no modelled step raises one.
- **Search limit.** The search checks the limit after appending, so a limit
  below 1 still returns up to one result (`CatalogQueries.SearchLimit`),
  although the tool schema at line 143 calls `limit` the maximum number of
  results.
- **"Unknown" service type.** Every record has a `type`, so the default
  "Unknown" of line 784 never applies. The model reads the type directly.

## Left out

- Network I/O, `httpx`, `async` and timeouts are left out. The probe
  (`_get_service_info`, lines 756–767) and the catalog fetches are the
  oracles and optional values of a `Remote`. A failure of any kind becomes
  `None`.
- A catalog that breaks part-way is not modelled: a malformed entry makes a
  Python exception stop the root or folder loop after some services have
  been recorded. Each catalog is read whole or not at all.
- The outer `except` at lines 645–647 and the one in `_add_known_service`
  (lines 882–883) are left out. No modelled step can raise, so both are
  unreachable in the model.
- The clock is read once per refresh, as the parameter `now` (integer seconds
  rather than a float).
- Floating-point coordinates and buffer distances are `real`. NaN and
  infinities are not modelled.
- `str.lower` is modelled on ASCII letters only.
- The order of query parameters is not modelled: a request's parameters are a
  map from parameter name to value.
- `json.dumps` of envelopes, statistics and results is left out. Those values
  stay structured.
- A JSON `null` or a value of the wrong type is treated like an absent key in
  every object the server reads: the probe answer (`ServiceInfo`), the catalog
  entries (`ServiceRef`, `Catalog`) and the layer metadata (`LayerMetadata`,
  `FieldDescriptor`). The one exception is `length`, which passes through
  either way. In Python, `.get(key, default)` returns `None` for a key that
  holds `null`, and the model does not follow what comes of that:
  - a `serviceDescription` of `null` stores the title `None` (lines 513, 560
    and 608) where the model stores the service name;
  - such a record later makes the search join at lines 662-667 raise
    `TypeError`, and a lookup whose name does not match raise `AttributeError`
    at line 695;
  - a `name` of `null` in a root-catalog entry puts `None` into the probe URL
    and makes `.lower()` raise inside the per-service `try` (line 558); in a
    folder entry it becomes the text `None` in `folder/None`;
  - a `services` list of `null` in the root catalog raises at line 547, which
    skips the folders too;
  - a `layers` of `null` stores `None` as the layers, and for a known service
    the log line at 535 then raises after the records are stored;
  - a `fields` of `null` makes the loop at line 818 raise `TypeError`, where
    `QueryBuilders.ExtractLayerFields` returns no fields.
- Running the queries and returning their JSON responses is left out. Only
  the requests are modelled.
- The `base_url`, `group_id` and `server` fields are not part of this model.
- The MCP tool dispatch, the tool list, the Azure Function wrapper, the
  examples, tests and installer are not part of this model.
- Logging is left out.
- Discovery.RefreshedBy: the probe log (`Pass.probed`, and what
  `GisServer.Server.Refresh` returns) records service probes only. The
  root-catalog fetch (line 542) and the folder fetches (line 590) are not
  logged. So "probes no service" for a skipped refresh says nothing about
  catalog fetches: the model does not state that none is made.
- CatalogQueries.Search: its `ensures` gives the result as the first
  `max(limit, 1)` matches. That every result is a cached, matching dataset is
  stated separately in `CatalogQueries.SearchResultsMatch`.

## Findings

| source | as written | input that shows it | evidently intended | confidence | as-written member | corrected member |
|---|---|---|---|---|---|---|
| src/ethekwini_gis_mcp.py:85, 99-101 | folder services are listed as `ethekwini-gis://service/folder/name`, but the URI is split at every `/` and only part 1 is the id | the cached service `Utilities/Water` is listed as `ethekwini-gis://service/Utilities/Water`, which is looked up as `Utilities`: it raises "Resource not found", or, when a root service `Utilities` is cached too, returns that service's record | every listed resource can be read back: the id is everything after the type's `/` | not executed | Resources.FolderServiceMisreadAsWritten | Resources.ListedResourcesRead |
