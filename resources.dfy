/** The MCP resources: the URIs the server lists for its cached datasets and
    services, and how it parses a URI back into a resource kind and id. */
module Resources {
  import opened Wrappers
  import opened Text
  import opened OrderedMaps
  import opened Discovery

  const Scheme: string := "ethekwini-gis://"
  const DatasetKind: string := "dataset"
  const ServiceKind: string := "service"
  const MimeJson: string := "application/json"
  const DefaultServiceDescription: string := "eThekwini GIS Service"

  function DatasetUri(id: string): string {
    Scheme + DatasetKind + "/" + id
  }

  function ServiceUri(name: string): string {
    Scheme + ServiceKind + "/" + name
  }

  /** One entry of the resource list. */
  datatype Listing = Listing(uri: string, name: string, description: string, mimeType: string)

  /** A parsed URI: the resource type and the resource id. */
  datatype ResourceRef = ResourceRef(kind: string, id: string)

  /** What reading a resource returns: the cached record it names. */
  datatype Resource = DatasetResource(dataset: Dataset) | ServiceResource(service: ServiceEntry)

  // ---------------------------------------------------------------------
  // Listing

  function DatasetListing(id: string, d: Dataset): Listing {
    Listing(DatasetUri(id), "Dataset: " + d.name, d.description, MimeJson)
  }

  /** Service entries carry no `description` key, so the default is used. */
  function ServiceListing(name: string): Listing {
    Listing(ServiceUri(name), "Service: " + name, DefaultServiceDescription, MimeJson)
  }

  /** The resource list: every cached dataset, then every cached service, in
      cache order. */
  function Listings(datasets: OrderedMap<string, Dataset>, services: OrderedMap<string, ServiceEntry>): (r: seq<Listing>)
    requires datasets.Valid() && services.Valid()
    ensures |r| == |datasets.keys| + |services.keys|
    ensures forall i :: 0 <= i < |datasets.keys| ==>
              r[i] == DatasetListing(datasets.keys[i], datasets.entries[datasets.keys[i]])
    ensures forall i :: 0 <= i < |services.keys| ==>
              r[|datasets.keys| + i] == ServiceListing(services.keys[i])
  {
    seq(|datasets.keys|, i requires 0 <= i < |datasets.keys| && datasets.Valid() =>
          DatasetListing(datasets.keys[i], datasets.entries[datasets.keys[i]])) +
    seq(|services.keys|, i requires 0 <= i < |services.keys| => ServiceListing(services.keys[i]))
  }

  // ---------------------------------------------------------------------
  // Parsing, as written

  /** The URI parsing of `handle_read_resource` as written: every occurrence
      of the scheme is removed, the rest is split at every `/`, part 0 is the
      type and part 1 (or "" when there is no `/`) is the id. A service name
      that contains `/` loses everything from its first `/` on. */
  function ParseUriAsWritten(uri: string): (r: Result<ResourceRef, string>)
    ensures !StartsWith(uri, Scheme) <==> r == Err("Unsupported URI scheme: " + uri)
    ensures r.Ok? ==> '/' !in r.value.kind && '/' !in r.value.id
  {
    if !StartsWith(uri, Scheme) then Err("Unsupported URI scheme: " + uri)
    else
      var rest := ReplaceAll(uri, Scheme, "");
      Ok(ResourceRef(Before(rest, '/'), Before(After(rest, '/'), '/')))
  }

  /** As written, the id read back from `Scheme + kind + "/" + name` is the
      name up to its first `/`, when neither part contains `:` (and so
      cannot contain the scheme). */
  lemma UriAsWritten(kind: string, name: string)
    requires '/' !in kind && ':' !in kind && ':' !in name
    ensures ParseUriAsWritten(Scheme + kind + "/" + name) == Ok(ResourceRef(kind, Before(name, '/')))
  {
    var rest := kind + ['/'] + name;
    assert Scheme + kind + "/" + name == Scheme + rest;
    assert Scheme[13] == ':';
    MissingCharNoOccurrence(rest, Scheme, 13);
    ReplaceAllLeading(Scheme, rest);
    assert (Scheme + rest)[..|Scheme|] == Scheme;
    SplitFirstJoined(kind, '/', name);
  }

  /** As written, the id read back from a listed service URI is the service
      name up to its first `/`. */
  lemma ServiceUriAsWritten(name: string)
    requires ':' !in name
    ensures ParseUriAsWritten(ServiceUri(name)) == Ok(ResourceRef(ServiceKind, Before(name, '/')))
  {
    UriAsWritten(ServiceKind, name);
  }

  /** As written, a folder service `folder/name` is read back with the id
      `folder`, which is not its name. */
  lemma FolderServiceUriAsWritten(folder: string, name: string)
    requires '/' !in folder && ':' !in folder && ':' !in name
    ensures ParseUriAsWritten(ServiceUri(folder + "/" + name)) == Ok(ResourceRef(ServiceKind, folder))
    ensures folder != folder + "/" + name
  {
    ServiceUriAsWritten(folder + "/" + name);
    assert folder + "/" + name == folder + ['/'] + name;
    SplitFirstJoined(folder, '/', name);
    assert |folder + "/" + name| > |folder|;
  }

  // ---------------------------------------------------------------------
  // Parsing, corrected

  /** The scheme is removed once, at the front; the type runs to the first
      `/` and the id is everything after it, so ids may contain `/`. */
  function ParseUri(uri: string): (r: Result<ResourceRef, string>)
    ensures !StartsWith(uri, Scheme) <==> r == Err("Unsupported URI scheme: " + uri)
    ensures r.Ok? ==> '/' !in r.value.kind
  {
    if !StartsWith(uri, Scheme) then Err("Unsupported URI scheme: " + uri)
    else
      var rest := uri[|Scheme|..];
      Ok(ResourceRef(Before(rest, '/'), After(rest, '/')))
  }

  lemma ParseServiceUri(name: string)
    ensures ParseUri(ServiceUri(name)) == Ok(ResourceRef(ServiceKind, name))
  {
    assert ServiceUri(name)[..|Scheme|] == Scheme;
    assert ServiceUri(name)[|Scheme|..] == ServiceKind + ['/'] + name;
    SplitFirstJoined(ServiceKind, '/', name);
  }

  lemma ParseDatasetUri(id: string)
    ensures ParseUri(DatasetUri(id)) == Ok(ResourceRef(DatasetKind, id))
  {
    assert DatasetUri(id)[..|Scheme|] == Scheme;
    assert DatasetUri(id)[|Scheme|..] == DatasetKind + ['/'] + id;
    SplitFirstJoined(DatasetKind, '/', id);
  }

  /** Where the name has no `/` and no `:`, the two parsers agree. */
  lemma ParsersAgreeOnPlainNames(name: string)
    requires '/' !in name && ':' !in name
    ensures ParseUriAsWritten(ServiceUri(name)) == ParseUri(ServiceUri(name))
  {
    ServiceUriAsWritten(name);
    BeforeAbsent(name, '/');
    ParseServiceUri(name);
  }

  // ---------------------------------------------------------------------
  // Lookup

  /** The lookup after the refresh: a dataset or a service by id, otherwise
      "Resource not found". */
  function Lookup(ref: ResourceRef, uri: string, datasets: OrderedMap<string, Dataset>,
                  services: OrderedMap<string, ServiceEntry>): (r: Result<Resource, string>)
    ensures r.Ok? && r.value.DatasetResource? <==> ref.kind == DatasetKind && ref.id in datasets.entries
    ensures r.Ok? && r.value.DatasetResource? ==> r.value.dataset == datasets.entries[ref.id]
    ensures r.Ok? && r.value.ServiceResource? <==> ref.kind == ServiceKind && ref.id in services.entries
    ensures r.Ok? && r.value.ServiceResource? ==> r.value.service == services.entries[ref.id]
    ensures r.Err? ==> r.error == "Resource not found: " + uri
  {
    if ref.kind == DatasetKind && ref.id in datasets.entries then Ok(DatasetResource(datasets.entries[ref.id]))
    else if ref.kind == ServiceKind && ref.id in services.entries then Ok(ServiceResource(services.entries[ref.id]))
    else Err("Resource not found: " + uri)
  }

  /** Reading a URI against fixed caches: the scheme error, or the lookup of
      the parsed reference. */
  function Read(uri: string, datasets: OrderedMap<string, Dataset>, services: OrderedMap<string, ServiceEntry>)
    : Result<Resource, string>
  {
    match ParseUri(uri)
    case Err(e) => Err(e)
    case Ok(ref) => Lookup(ref, uri, datasets, services)
  }

  function ReadAsWritten(uri: string, datasets: OrderedMap<string, Dataset>, services: OrderedMap<string, ServiceEntry>)
    : Result<Resource, string>
  {
    match ParseUriAsWritten(uri)
    case Err(e) => Err(e)
    case Ok(ref) => Lookup(ref, uri, datasets, services)
  }

  /** Every listed resource can be read back, and reads the record it lists. */
  lemma ListedResourcesRead(datasets: OrderedMap<string, Dataset>, services: OrderedMap<string, ServiceEntry>, i: nat)
    requires datasets.Valid() && services.Valid()
    requires i < |datasets.keys| + |services.keys|
    ensures var l := Listings(datasets, services)[i];
      if i < |datasets.keys| then
        Read(l.uri, datasets, services) == Ok(DatasetResource(datasets.entries[datasets.keys[i]]))
      else
        Read(l.uri, datasets, services) == Ok(ServiceResource(services.entries[services.keys[i - |datasets.keys|]]))
  {
    if i < |datasets.keys| {
      ParseDatasetUri(datasets.keys[i]);
    } else {
      ParseServiceUri(services.keys[i - |datasets.keys|]);
    }
  }

  /** As written, a cached folder service is listed but its URI is looked up
      under its folder name. With `Utilities/Water` the only cached service,
      the read fails with "Resource not found"; with a service `Utilities`
      cached beside it, the read returns that other service's record. */
  lemma FolderServiceMisreadAsWritten(e: ServiceEntry, u: ServiceEntry)
    ensures var name := "Utilities" + "/" + "Water";
      var alone := Empty<string, ServiceEntry>().Put(name, e);
      && ServiceListing(name) in Listings(Empty(), alone)
      && ReadAsWritten(ServiceUri(name), Empty(), alone) == Err("Resource not found: " + ServiceUri(name))
    ensures var name := "Utilities" + "/" + "Water";
      var beside := Empty<string, ServiceEntry>().Put("Utilities", u).Put(name, e);
      && ServiceListing(name) in Listings(Empty(), beside)
      && ReadAsWritten(ServiceUri(name), Empty(), beside) == Ok(ServiceResource(u))
  {
    var name := "Utilities" + "/" + "Water";
    var alone := Empty<string, ServiceEntry>().Put(name, e);
    var beside := Empty<string, ServiceEntry>().Put("Utilities", u).Put(name, e);
    assert |name| > |"Utilities"|;
    assert name != "Utilities";
    assert Listings(Empty(), alone)[0] == ServiceListing(name);
    assert Listings(Empty(), beside)[1] == ServiceListing(name);
    assert ':' !in "Utilities" && '/' !in "Utilities" && ':' !in "Water";
    FolderServiceUriAsWritten("Utilities", "Water");
  }
}
