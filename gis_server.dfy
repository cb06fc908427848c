/** The server object: its caches, its registry of known services, the
    refresh pass that rebuilds the caches, and the operations that refresh
    before they read. Time is passed in as `now` (seconds) and the network
    as a `Remote`. */
module GisServer {
  import opened Wrappers
  import opened Text
  import opened OrderedMaps
  import opened Discovery
  import opened CatalogQueries
  import opened Resources

  // ---------------------------------------------------------------------
  // The three phases of a pass, over the dictionaries being built

  /** One probe of the pass: record the URL; on a non-empty answer store the
      dataset under its id and the service entry under its name. */
  method ProbeService(acc: Pass, c: Candidate, probe: string -> Option<ServiceInfo>) returns (next: Pass)
    ensures next == Admit(acc, c, probe)
  {
    var info := probe(c.url);
    next := acc;
    if info.Some? && NonEmpty(info.value) {
      next := next.(datasets := next.datasets.Put(c.id, MakeDataset(c, info.value)),
                    services := next.services.Put(c.name, MakeEntry(c, info.value)));
    }
    next := next.(probed := next.probed + [c.url]);
  }

  /** Probing one more candidate extends the fold by one step. */
  lemma RunSnoc(acc: Pass, cs: seq<Candidate>, c: Candidate, probe: string -> Option<ServiceInfo>)
    ensures Run(acc, cs + [c], probe) == Admit(Run(acc, cs, probe), c, probe)
  {
    assert (cs + [c])[..|cs|] == cs;
  }

  /** Every known service, in registration order. */
  method ProbeKnownServices(acc: Pass, known: OrderedMap<string, string>, probe: string -> Option<ServiceInfo>)
    returns (next: Pass)
    requires known.Valid()
    ensures next == Run(acc, KnownCandidates(known), probe)
  {
    ghost var cs := KnownCandidates(known);
    next := acc;
    var i := 0;
    while i < |known.keys|
      invariant 0 <= i <= |known.keys|
      invariant next == Run(acc, cs[..i], probe)
    {
      var name := known.keys[i];
      var c := KnownCandidate(name, known.entries[name]);
      assert cs[..i + 1] == cs[..i] + [c];
      RunSnoc(acc, cs[..i], c, probe);
      next := ProbeService(next, c, probe);
      i := i + 1;
    }
    assert cs[..i] == cs;
  }

  /** The root catalog's services of a listed type that are not known
      services, in catalog order. */
  method ProbeRootServices(acc: Pass, refs: seq<ServiceRef>, known: OrderedMap<string, string>,
                           probe: string -> Option<ServiceInfo>) returns (next: Pass)
    ensures next == Run(acc, RootCandidates(refs, known), probe)
  {
    next := acc;
    var i := 0;
    while i < |refs|
      invariant 0 <= i <= |refs|
      invariant next == Run(acc, RootCandidates(refs[..i], known), probe)
    {
      var r := refs[i];
      assert refs[..i + 1][..i] == refs[..i] && refs[..i + 1][i] == r;
      var name := r.name.GetOr("");
      var serviceType := r.serviceType.GetOr("");
      assert RootCandidates(refs[..i + 1], known) ==
        RootCandidates(refs[..i], known) + (if RootAdmitted(r, known) then [RootCandidate(r)] else []);
      if (serviceType == "FeatureServer" || serviceType == "MapServer") && name !in known.entries {
        RunSnoc(acc, RootCandidates(refs[..i], known), RootCandidate(r), probe);
        next := ProbeService(next, RootCandidate(r), probe);
        assert next == Run(acc, RootCandidates(refs[..i], known) + [RootCandidate(r)], probe);
      } else {
        assert RootCandidates(refs[..i + 1], known) == RootCandidates(refs[..i], known);
      }
      assert next == Run(acc, RootCandidates(refs[..i + 1], known), probe);
      i := i + 1;
    }
    assert refs[..i] == refs;
  }

  /** The services of one folder catalog of a listed type, in catalog order. */
  method ProbeFolderServices(acc: Pass, folder: string, refs: seq<ServiceRef>,
                             probe: string -> Option<ServiceInfo>) returns (next: Pass)
    ensures next == Run(acc, FolderServiceCandidates(folder, refs), probe)
  {
    next := acc;
    var i := 0;
    while i < |refs|
      invariant 0 <= i <= |refs|
      invariant next == Run(acc, FolderServiceCandidates(folder, refs[..i]), probe)
    {
      var r := refs[i];
      assert refs[..i + 1][..i] == refs[..i] && refs[..i + 1][i] == r;
      var serviceType := r.serviceType.GetOr("");
      assert FolderServiceCandidates(folder, refs[..i + 1]) ==
        FolderServiceCandidates(folder, refs[..i]) + (if FolderAdmitted(r) then [FolderCandidate(folder, r)] else []);
      if serviceType == "FeatureServer" || serviceType == "MapServer" {
        RunSnoc(acc, FolderServiceCandidates(folder, refs[..i]), FolderCandidate(folder, r), probe);
        next := ProbeService(next, FolderCandidate(folder, r), probe);
        assert next == Run(acc, FolderServiceCandidates(folder, refs[..i]) + [FolderCandidate(folder, r)], probe);
      } else {
        assert FolderServiceCandidates(folder, refs[..i + 1]) == FolderServiceCandidates(folder, refs[..i]);
      }
      assert next == Run(acc, FolderServiceCandidates(folder, refs[..i + 1]), probe);
      i := i + 1;
    }
    assert refs[..i] == refs;
  }

  /** Every folder of the root catalog; a folder whose catalog cannot be read
      is skipped. */
  method ProbeFolders(acc: Pass, folders: seq<string>, catalogs: string -> Option<seq<ServiceRef>>,
                      probe: string -> Option<ServiceInfo>) returns (next: Pass)
    ensures next == Run(acc, FolderCandidates(folders, catalogs), probe)
  {
    next := acc;
    var i := 0;
    while i < |folders|
      invariant 0 <= i <= |folders|
      invariant next == Run(acc, FolderCandidates(folders[..i], catalogs), probe)
    {
      var f := folders[i];
      assert folders[..i + 1] == folders[..i] + [f];
      RunFolderStep(acc, folders[..i], f, catalogs, probe);
      var catalog := catalogs(f);
      if catalog.Some? {
        next := ProbeFolderServices(next, f, catalog.value, probe);
      }
      i := i + 1;
    }
    assert folders[..i] == folders;
  }

  /** A whole pass: the known services, then, when the root catalog can be
      read, its services and the services of its folders. */
  method DiscoverServices(known: OrderedMap<string, string>, remote: Remote) returns (pass: Pass)
    requires known.Valid()
    ensures pass == Discover(known, remote)
  {
    DiscoverPhases(known, remote);
    pass := ProbeKnownServices(Start(), known, remote.probe);
    match remote.root {
      case None =>
      case Some(cat) =>
        pass := ProbeRootServices(pass, cat.services, known, remote.probe);
        pass := ProbeFolders(pass, cat.folders, remote.folder, remote.probe);
    }
  }

  /** The loops of `handle_list_resources`: one entry per cached dataset,
      then one per cached service, in cache order. */
  method ListCache(datasets: OrderedMap<string, Dataset>, services: OrderedMap<string, ServiceEntry>)
    returns (resources: seq<Listing>)
    requires datasets.Valid() && services.Valid()
    ensures resources == Listings(datasets, services)
  {
    ghost var all := Listings(datasets, services);
    resources := [];
    var i := 0;
    while i < |datasets.keys|
      invariant 0 <= i <= |datasets.keys| && |resources| == i
      invariant forall k :: 0 <= k < i ==> resources[k] == all[k]
    {
      var id := datasets.keys[i];
      resources := resources + [DatasetListing(id, datasets.entries[id])];
      i := i + 1;
    }
    var j := 0;
    while j < |services.keys|
      invariant 0 <= j <= |services.keys| && |resources| == |datasets.keys| + j
      invariant forall k :: 0 <= k < |resources| ==> resources[k] == all[k]
    {
      resources := resources + [ServiceListing(services.keys[j])];
      j := j + 1;
    }
  }

  // ---------------------------------------------------------------------
  // The server

  class Server {
    var cachedDatasets: OrderedMap<string, Dataset>
    var cachedServices: OrderedMap<string, ServiceEntry>
    /** The time of the last completed pass; None before the first. */
    var lastRefresh: Option<int>
    var knownServices: OrderedMap<string, string>

    ghost predicate Valid()
      reads this
    {
      knownServices.Valid() && Consistent(cachedDatasets, cachedServices)
    }

    function State(): CacheState
      reads this
    {
      CacheState(cachedDatasets, cachedServices, lastRefresh)
    }

    /** Empty caches, never refreshed, and the Leases service registered. */
    constructor()
      ensures Valid()
      ensures cachedDatasets == Empty() && cachedServices == Empty() && lastRefresh == None
      ensures knownServices.keys == ["Leases"] && knownServices.entries == map["Leases" := LeasesServiceUrl]
    {
      cachedDatasets := Empty();
      cachedServices := Empty();
      lastRefresh := None;
      knownServices := Empty<string, string>().Put("Leases", LeasesServiceUrl);
    }

    /** `_refresh_datasets(force)` at time `now`: skipped when not forced and
      the last pass is recent; otherwise a full pass whose result replaces
      the caches (even when the root catalog could not be read). Returns the
      URLs probed, in order. */
    method Refresh(now: int, remote: Remote, force: bool := false) returns (probed: seq<string>)
      requires Valid()
      modifies this
      ensures Valid()
      ensures knownServices == old(knownServices)
      ensures RefreshedBy(force, now, remote, knownServices, old(State()), State(), probed)
    {
      if !force && lastRefresh.Some? && lastRefresh.value != 0 && now - lastRefresh.value < FreshnessWindow {
        return [];
      }
      var pass := DiscoverServices(knownServices, remote);
      DiscoverConsistent(knownServices, remote);
      cachedDatasets := pass.datasets;
      cachedServices := pass.services;
      lastRefresh := Some(now);
      probed := pass.probed;
    }

    /** `_add_known_service`: register (or re-point) the service, force a
      pass, and report the number of cached datasets. A service whose probe
      succeeds is then cached under its lower-cased name. */
    method AddKnownService(name: string, url: string, now: int, remote: Remote)
      returns (message: string, probed: seq<string>)
      requires Valid()
      modifies this
      ensures Valid()
      ensures knownServices == old(knownServices).Put(name, url)
      ensures RefreshedBy(true, now, remote, knownServices, old(State()), State(), probed)
      ensures message == "Successfully added service '" + name + "' at " + url + ". Found " +
                         IntToString(|cachedDatasets.keys|) + " total datasets."
      ensures ProbeOk(remote.probe(url)) ==>
                Lower(name) in cachedDatasets.entries && name in cachedServices.entries
    {
      knownServices := knownServices.Put(name, url);
      probed := Refresh(now, remote, true);
      if ProbeOk(remote.probe(url)) {
        KnownServiceDiscovered(knownServices, remote, name);
      }
      message := "Successfully added service '" + name + "' at " + url + ". Found " +
                 IntToString(|cachedDatasets.keys|) + " total datasets.";
    }

    /** `_search_datasets`: refresh unless recent, then search the cache. */
    method SearchDatasets(now: int, remote: Remote, query: string := "", category: Option<string> := None, limit: int := 20)
      returns (results: seq<Dataset>)
      requires Valid()
      modifies this
      ensures Valid() && knownServices == old(knownServices)
      ensures exists probed :: RefreshedBy(false, now, remote, knownServices, old(State()), State(), probed)
      ensures results == Take(Filter(cachedDatasets.Values(), query, category), SearchLimit(limit))
    {
      var probed := Refresh(now, remote);
      results := Search(cachedDatasets, query, category, limit);
      assert RefreshedBy(false, now, remote, knownServices, old(State()), State(), probed);
    }

    /** `_get_dataset_info`: refresh unless recent, then look the dataset up. */
    method GetDatasetInfo(key: string, now: int, remote: Remote) returns (r: Result<Dataset, string>)
      requires Valid()
      modifies this
      ensures Valid() && knownServices == old(knownServices)
      ensures exists probed :: RefreshedBy(false, now, remote, knownServices, old(State()), State(), probed)
      ensures r == LookupDataset(cachedDatasets, key)
    {
      var probed := Refresh(now, remote);
      r := FindDataset(cachedDatasets, key);
      assert RefreshedBy(false, now, remote, knownServices, old(State()), State(), probed);
    }

    /** `_list_municipal_services`: refresh unless recent, then summarise. */
    method ListMunicipalServices(now: int, remote: Remote) returns (s: Summary)
      requires Valid()
      modifies this
      ensures Valid() && knownServices == old(knownServices)
      ensures exists probed :: RefreshedBy(false, now, remote, knownServices, old(State()), State(), probed)
      ensures s.categories == CategoryIndex(cachedDatasets.Values())
      ensures s.serviceTypes == TypeCounts(cachedDatasets.Values())
      ensures s.totalDatasets == |cachedDatasets.keys| && s.totalServices == |cachedServices.keys|
      ensures SumValues(s.serviceTypes) == s.totalDatasets
    {
      var probed := Refresh(now, remote);
      s := Summarize(cachedDatasets, |cachedServices.keys|);
      assert RefreshedBy(false, now, remote, knownServices, old(State()), State(), probed);
    }

    /** The resource list: refresh unless recent, then every dataset and
      every service, in cache order. */
    method ListResources(now: int, remote: Remote) returns (resources: seq<Listing>)
      requires Valid()
      modifies this
      ensures Valid() && knownServices == old(knownServices)
      ensures exists probed :: RefreshedBy(false, now, remote, knownServices, old(State()), State(), probed)
      ensures resources == Listings(cachedDatasets, cachedServices)
    {
      var probed := Refresh(now, remote);
      resources := ListCache(cachedDatasets, cachedServices);
      assert RefreshedBy(false, now, remote, knownServices, old(State()), State(), probed);
    }

    /** Reading a resource: a URI outside the scheme is rejected before the
      refresh; otherwise refresh unless recent and look up the reference that
      the URI parsing as written gives (so a folder service, whose name holds
      a `/`, is looked up under its folder alone). */
    method ReadResource(uri: string, now: int, remote: Remote) returns (r: Result<Resource, string>)
      requires Valid()
      modifies this
      ensures Valid() && knownServices == old(knownServices)
      ensures !StartsWith(uri, Scheme) ==> r == Err("Unsupported URI scheme: " + uri) && State() == old(State())
      ensures StartsWith(uri, Scheme) ==>
                exists probed :: RefreshedBy(false, now, remote, knownServices, old(State()), State(), probed)
      ensures r == ReadAsWritten(uri, cachedDatasets, cachedServices)
    {
      if !StartsWith(uri, Scheme) {
        return Err("Unsupported URI scheme: " + uri);
      }
      var ref := ParseUriAsWritten(uri).value;
      var probed := Refresh(now, remote);
      r := Lookup(ref, uri, cachedDatasets, cachedServices);
      assert RefreshedBy(false, now, remote, knownServices, old(State()), State(), probed);
    }
  }

  /** A second non-forced refresh right after a pass (at a non-zero time, within
    the freshness window) changes nothing and probes no service. */
  lemma RefreshIsIdempotentWithinWindow(known: OrderedMap<string, string>, remote: Remote, before: CacheState,
                                        mid: CacheState, after: CacheState, p1: seq<string>, p2: seq<string>,
                                        t1: int, t2: int)
    requires known.Valid()
    requires t1 != 0 && t1 <= t2 < t1 + FreshnessWindow
    requires RefreshedBy(true, t1, remote, known, before, mid, p1)
    requires RefreshedBy(false, t2, remote, known, mid, after, p2)
    ensures after == mid && p2 == []
  {
  }
}
