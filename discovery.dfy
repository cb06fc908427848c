/** Service discovery: the records a refresh pass builds, the order in which
    it probes services, and what the freshly built caches contain.

    The network is abstracted into a `Remote`: the service-information probe
    is an oracle from URL to parsed JSON (None when the probe returns None or
    raises), the root catalog and each folder catalog are optional values
    (None when the fetch fails, answers with a status other than 200, or
    raises). The refresh pass itself is specified by the fold `Run` over the
    list of `Candidate`s that `Plan` enumerates. */
module Discovery {
  import opened Wrappers
  import opened Text
  import opened OrderedMaps

  const ApiBase: string := "https://services3.arcgis.com/HO0zfySJshlD6Twu/arcgis/rest/services"
  const LeasesServiceUrl: string := "https://services3.arcgis.com/HO0zfySJshlD6Twu/arcgis/rest/services/Leases/FeatureServer"
  /** A non-forced refresh within this many seconds of the last one is skipped. */
  const FreshnessWindow: int := 900
  const BaseTags: seq<string> := ["eThekwini", "municipality", "GIS"]
  const DefaultCategory: string := "Municipal Services"
  const KnownServiceType: string := "Feature Service"
  const OwnerName: string := "eThekwini Municipality"

  /** One raw layer descriptor, passed through unchanged. */
  datatype Layer = Layer(id: int, name: string)

  /** The parsed JSON of a service probe: the keys the server reads, and the
      names of any other keys it carries along. */
  datatype ServiceInfo = ServiceInfo(
    serviceDescription: Option<string>,
    description: Option<string>,
    layers: Option<seq<Layer>>,
    otherKeys: seq<string>)

  /** Python truthiness of the parsed dictionary: an empty one is skipped. */
  predicate NonEmpty(info: ServiceInfo) {
    info.serviceDescription.Some? || info.description.Some? || info.layers.Some? || info.otherKeys != []
  }

  /** A probe that leads to a dataset being recorded. */
  predicate ProbeOk(r: Option<ServiceInfo>) {
    r.Some? && NonEmpty(r.value)
  }

  /** One entry of a catalog's `services` list: its `name` and `type` keys. */
  datatype ServiceRef = ServiceRef(name: Option<string>, serviceType: Option<string>)

  /** The root catalog: its `services` and `folders` lists (absent lists are empty). */
  datatype Catalog = Catalog(services: seq<ServiceRef>, folders: seq<string>)

  /** Everything a refresh pass learns from the network. */
  datatype Remote = Remote(
    probe: string -> Option<ServiceInfo>,
    root: Option<Catalog>,
    folder: string -> Option<seq<ServiceRef>>)

  /** A cached dataset record. */
  datatype Dataset = Dataset(
    id: string,
    name: string,
    title: string,
    description: string,
    serviceType: string,
    url: string,
    created: string,
    updated: string,
    tags: seq<string>,
    categories: seq<string>,
    owner: string,
    serviceInfo: ServiceInfo,
    layers: seq<Layer>)

  /** A cached service entry, keyed by the (folder-qualified) service name. */
  datatype ServiceEntry = ServiceEntry(
    name: string,
    url: string,
    serviceType: string,
    datasetId: string,
    info: ServiceInfo)

  /** A service the pass decided to probe, with everything that goes into its
      record except what the probe returns. `shortName` is the title
      fallback; `folder` is the folder it was listed in, if any. */
  datatype Candidate = Candidate(
    name: string,
    shortName: string,
    id: string,
    url: string,
    serviceType: string,
    defaultDescription: string,
    folder: Option<string>)

  /** The caches a pass builds, and the URLs it probed, in order. */
  datatype Pass = Pass(
    datasets: OrderedMap<string, Dataset>,
    services: OrderedMap<string, ServiceEntry>,
    probed: seq<string>)

  /** The three cache fields of the server. */
  datatype CacheState = CacheState(
    datasets: OrderedMap<string, Dataset>,
    services: OrderedMap<string, ServiceEntry>,
    lastRefresh: Option<int>)

  /** The cache is recent enough to skip a non-forced refresh. A stored time
      of 0 is falsy in Python and never counts as recent. */
  predicate Fresh(lastRefresh: Option<int>, now: int) {
    lastRefresh.Some? && lastRefresh.value != 0 && now - lastRefresh.value < FreshnessWindow
  }

  predicate IsListedType(t: string) {
    t == "FeatureServer" || t == "MapServer"
  }

  /** A root-catalog service is probed when its type is listed and its name
      is not a known service. */
  predicate RootAdmitted(r: ServiceRef, known: OrderedMap<string, string>) {
    IsListedType(r.serviceType.GetOr("")) && r.name.GetOr("") !in known.entries
  }

  /** A folder service is probed when its type is listed. */
  predicate FolderAdmitted(r: ServiceRef) {
    IsListedType(r.serviceType.GetOr(""))
  }

  /** Dataset id of a folder service: lower-cased, every `/` made `_`. */
  function FolderId(folder: string, name: string): string {
    ReplaceChar(Lower(folder + "/" + name), '/', '_')
  }

  function KnownCandidate(name: string, url: string): Candidate {
    Candidate(name, name, Lower(name), url, KnownServiceType,
              name + " feature service from eThekwini municipality", None)
  }

  function RootCandidate(r: ServiceRef): Candidate {
    var name := r.name.GetOr("");
    var stype := r.serviceType.GetOr("");
    Candidate(name, name, Lower(name), ApiBase + "/" + name + "/" + stype, stype,
              name + " service from eThekwini municipality", None)
  }

  function FolderCandidate(folder: string, r: ServiceRef): Candidate {
    var name := r.name.GetOr("");
    var stype := r.serviceType.GetOr("");
    var full := folder + "/" + name;
    Candidate(full, name, FolderId(folder, name), ApiBase + "/" + full + "/" + stype, stype,
              name + " service from eThekwini municipality", Some(folder))
  }

  /** The dataset record built from a candidate and its probe result. */
  function MakeDataset(c: Candidate, info: ServiceInfo): Dataset {
    var extra := match c.folder case Some(f) => [f] case None => [];
    Dataset(c.id, c.name, info.serviceDescription.GetOr(c.shortName),
            info.description.GetOr(c.defaultDescription), c.serviceType, c.url, "", "",
            BaseTags + extra, [DefaultCategory] + extra, OwnerName, info,
            info.layers.GetOr([]))
  }

  function MakeEntry(c: Candidate, info: ServiceInfo): ServiceEntry {
    ServiceEntry(c.name, c.url, c.serviceType, c.id, info)
  }

  /** The known services, in registration order. */
  function KnownCandidates(known: OrderedMap<string, string>): (cs: seq<Candidate>)
    requires known.Valid()
    ensures |cs| == |known.keys|
  {
    seq(|known.keys|, i requires 0 <= i < |known.keys| && known.Valid() =>
      KnownCandidate(known.keys[i], known.entries[known.keys[i]]))
  }

  /** The admitted root-catalog services, in catalog order. */
  function RootCandidates(refs: seq<ServiceRef>, known: OrderedMap<string, string>): (cs: seq<Candidate>)
    ensures |cs| <= |refs|
    ensures forall i :: 0 <= i < |cs| ==>
              cs[i].folder.None? && cs[i].id == Lower(cs[i].name) &&
              IsListedType(cs[i].serviceType) && cs[i].name !in known.entries
    decreases |refs|
  {
    if refs == [] then []
    else
      var r := refs[|refs| - 1];
      RootCandidates(refs[..|refs| - 1], known) + (if RootAdmitted(r, known) then [RootCandidate(r)] else [])
  }

  /** The admitted services of one folder, in catalog order. */
  function FolderServiceCandidates(folder: string, refs: seq<ServiceRef>): (cs: seq<Candidate>)
    ensures |cs| <= |refs|
    ensures forall i :: 0 <= i < |cs| ==>
              cs[i].folder == Some(folder) && cs[i].name == folder + "/" + cs[i].shortName &&
              cs[i].id == FolderId(folder, cs[i].shortName) && IsListedType(cs[i].serviceType)
    decreases |refs|
  {
    if refs == [] then []
    else
      var r := refs[|refs| - 1];
      FolderServiceCandidates(folder, refs[..|refs| - 1]) + (if FolderAdmitted(r) then [FolderCandidate(folder, r)] else [])
  }

  /** The admitted services of every folder whose catalog could be read. */
  function FolderCandidates(folders: seq<string>, catalogs: string -> Option<seq<ServiceRef>>): (cs: seq<Candidate>)
    ensures forall i :: 0 <= i < |cs| ==>
              cs[i].folder.Some? && cs[i].folder.value in folders && catalogs(cs[i].folder.value).Some? &&
              IsListedType(cs[i].serviceType)
    decreases |folders|
  {
    if folders == [] then []
    else
      var f := folders[|folders| - 1];
      FolderCandidates(folders[..|folders| - 1], catalogs) +
        (match catalogs(f) case Some(refs) => FolderServiceCandidates(f, refs) case None => [])
  }

  /** One more folder: the fold goes on over the services of its catalog,
      if it can be read. */
  lemma RunFolderStep(acc: Pass, folders: seq<string>, f: string,
                      catalogs: string -> Option<seq<ServiceRef>>, probe: string -> Option<ServiceInfo>)
    ensures Run(acc, FolderCandidates(folders + [f], catalogs), probe) ==
              if catalogs(f).Some?
              then Run(Run(acc, FolderCandidates(folders, catalogs), probe), FolderServiceCandidates(f, catalogs(f).value), probe)
              else Run(acc, FolderCandidates(folders, catalogs), probe)
  {
    assert (folders + [f])[..|folders|] == folders;
    if catalogs(f).Some? {
      RunAppend(acc, FolderCandidates(folders, catalogs), FolderServiceCandidates(f, catalogs(f).value), probe);
    } else {
      assert FolderCandidates(folders + [f], catalogs) == FolderCandidates(folders, catalogs) + [];
      assert FolderCandidates(folders, catalogs) + [] == FolderCandidates(folders, catalogs);
    }
  }

  /** Every service a pass probes, in the order it probes them: known
      services, then (when the root catalog was read) root services, then
      folder services. */
  function Plan(known: OrderedMap<string, string>, remote: Remote): seq<Candidate>
    requires known.Valid()
  {
    KnownCandidates(known) +
      match remote.root
      case None => []
      case Some(cat) => RootCandidates(cat.services, known) + FolderCandidates(cat.folders, remote.folder)
  }

  /** One probe: record the URL and, when the probe returns a non-empty
      dictionary, store the dataset and the service entry. */
  function Admit(acc: Pass, c: Candidate, probe: string -> Option<ServiceInfo>): Pass {
    var r := probe(c.url);
    var probed := acc.probed + [c.url];
    if ProbeOk(r) then
      Pass(acc.datasets.Put(c.id, MakeDataset(c, r.value)),
                acc.services.Put(c.name, MakeEntry(c, r.value)), probed)
    else Pass(acc.datasets, acc.services, probed)
  }

  /** Probing the candidates one after another. */
  function Run(acc: Pass, cs: seq<Candidate>, probe: string -> Option<ServiceInfo>): Pass
    decreases |cs|
  {
    if cs == [] then acc else Admit(Run(acc, cs[..|cs| - 1], probe), cs[|cs| - 1], probe)
  }

  function Start(): Pass {
    Pass(Empty(), Empty(), [])
  }

  /** What a complete refresh pass builds from empty dictionaries. */
  function Discover(known: OrderedMap<string, string>, remote: Remote): Pass
    requires known.Valid()
  {
    Run(Start(), Plan(known, remote), remote.probe)
  }

  /** What a call of `_refresh_datasets(force)` at time `now` does to the cache
      and which URLs it probes. */
  ghost predicate RefreshedBy(force: bool, now: int, remote: Remote, known: OrderedMap<string, string>,
                              before: CacheState, after: CacheState, probed: seq<string>)
    requires known.Valid()
  {
    if !force && Fresh(before.lastRefresh, now) then after == before && probed == []
    else
      var d := Discover(known, remote);
      after == CacheState(d.datasets, d.services, Some(now)) && probed == d.probed
  }

  /** The cache invariant: distinct keys, every dataset stored under its own
      id, every service entry stored under its own name and pointing at a
      dataset that is present. */
  ghost predicate Consistent(datasets: OrderedMap<string, Dataset>, services: OrderedMap<string, ServiceEntry>) {
    && datasets.Valid()
    && services.Valid()
    && (forall k :: k in datasets.entries ==> datasets.entries[k].id == k)
    && (forall n :: n in services.entries ==>
          services.entries[n].name == n && services.entries[n].datasetId in datasets.entries)
  }

  /** Candidate `i` was probed successfully. */
  ghost predicate AdmittedAt(cs: seq<Candidate>, i: int, probe: string -> Option<ServiceInfo>) {
    0 <= i < |cs| && ProbeOk(probe(cs[i].url))
  }

  function Urls(cs: seq<Candidate>): (us: seq<string>)
    ensures |us| == |cs| && forall i :: 0 <= i < |cs| ==> us[i] == cs[i].url
  {
    seq(|cs|, i requires 0 <= i < |cs| => cs[i].url)
  }

  // ---------------------------------------------------------------------
  // Lemmas about a pass

  /** Every probe keeps the cache invariant. */
  lemma {:induction false} RunConsistent(acc: Pass, cs: seq<Candidate>, probe: string -> Option<ServiceInfo>)
    requires Consistent(acc.datasets, acc.services)
    ensures Consistent(Run(acc, cs, probe).datasets, Run(acc, cs, probe).services)
    decreases |cs|
  {
    if cs != [] {
      RunConsistent(acc, cs[..|cs| - 1], probe);
    }
  }

  /** Every candidate is probed exactly once, in order, whatever the probes return. */
  lemma {:induction false} RunProbed(acc: Pass, cs: seq<Candidate>, probe: string -> Option<ServiceInfo>)
    ensures Run(acc, cs, probe).probed == acc.probed + Urls(cs)
    decreases |cs|
  {
    if cs != [] {
      RunProbed(acc, cs[..|cs| - 1], probe);
      assert Urls(cs) == Urls(cs[..|cs| - 1]) + [cs[|cs| - 1].url];
    }
  }

  /** Probing two lists in turn is probing their concatenation. */
  lemma {:induction false} RunAppend(acc: Pass, a: seq<Candidate>, b: seq<Candidate>, probe: string -> Option<ServiceInfo>)
    ensures Run(acc, a + b, probe) == Run(Run(acc, a, probe), b, probe)
    decreases |b|
  {
    if b == [] {
      assert a + b == a;
    } else {
      assert (a + b)[..|a + b| - 1] == a + b[..|b| - 1];
      RunAppend(acc, a, b[..|b| - 1], probe);
    }
  }

  /** A dataset id is in the built cache exactly when it was there before or
      some candidate with that id was probed successfully: a failed probe
      skips only its own service. */
  lemma {:induction false} RunDatasetKeys(acc: Pass, cs: seq<Candidate>, probe: string -> Option<ServiceInfo>, k: string)
    ensures k in Run(acc, cs, probe).datasets.entries <==>
              k in acc.datasets.entries || exists i :: AdmittedAt(cs, i, probe) && cs[i].id == k
    decreases |cs|
  {
    if cs != [] {
      var init := cs[..|cs| - 1];
      RunDatasetKeys(acc, init, probe, k);
      if exists i :: AdmittedAt(init, i, probe) && init[i].id == k {
        var i :| AdmittedAt(init, i, probe) && init[i].id == k;
        assert AdmittedAt(cs, i, probe) && cs[i].id == k;
      }
      if exists i :: AdmittedAt(cs, i, probe) && cs[i].id == k {
        var i :| AdmittedAt(cs, i, probe) && cs[i].id == k;
        if i < |cs| - 1 {
          assert AdmittedAt(init, i, probe) && init[i].id == k;
        }
      }
    }
  }

  /** The same for service names. */
  lemma {:induction false} RunServiceKeys(acc: Pass, cs: seq<Candidate>, probe: string -> Option<ServiceInfo>, n: string)
    ensures n in Run(acc, cs, probe).services.entries <==>
              n in acc.services.entries || exists i :: AdmittedAt(cs, i, probe) && cs[i].name == n
    decreases |cs|
  {
    if cs != [] {
      var init := cs[..|cs| - 1];
      RunServiceKeys(acc, init, probe, n);
      if exists i :: AdmittedAt(init, i, probe) && init[i].name == n {
        var i :| AdmittedAt(init, i, probe) && init[i].name == n;
        assert AdmittedAt(cs, i, probe) && cs[i].name == n;
      }
      if exists i :: AdmittedAt(cs, i, probe) && cs[i].name == n {
        var i :| AdmittedAt(cs, i, probe) && cs[i].name == n;
        if i < |cs| - 1 {
          assert AdmittedAt(init, i, probe) && init[i].name == n;
        }
      }
    }
  }

  /** The position of the last candidate with id `k` whose probe succeeded. */
  ghost function LastAdmitted(cs: seq<Candidate>, probe: string -> Option<ServiceInfo>, k: string): (r: Option<nat>)
    ensures r.Some? ==> AdmittedAt(cs, r.value, probe) && cs[r.value].id == k &&
                        forall j :: r.value < j < |cs| && cs[j].id == k ==> !ProbeOk(probe(cs[j].url))
    ensures r.None? ==> forall j :: 0 <= j < |cs| && cs[j].id == k ==> !ProbeOk(probe(cs[j].url))
    decreases |cs|
  {
    if cs == [] then None
    else if ProbeOk(probe(cs[|cs| - 1].url)) && cs[|cs| - 1].id == k then Some(|cs| - 1)
    else LastAdmitted(cs[..|cs| - 1], probe, k)
  }

  /** Last write wins: the record stored under an id is the one built from
      the last successfully probed candidate with that id. */
  lemma {:induction false} RunDatasetOrigin(cs: seq<Candidate>, probe: string -> Option<ServiceInfo>, k: string)
    requires k in Run(Start(), cs, probe).datasets.entries
    ensures LastAdmitted(cs, probe, k).Some?
    ensures var i := LastAdmitted(cs, probe, k).value;
      Run(Start(), cs, probe).datasets.entries[k] == MakeDataset(cs[i], probe(cs[i].url).value)
    decreases |cs|
  {
    var last := |cs| - 1;
    var init := cs[..last];
    var prev := Run(Start(), init, probe);
    assert Run(Start(), cs, probe) == Admit(prev, cs[last], probe);
    if !(ProbeOk(probe(cs[last].url)) && cs[last].id == k) {
      assert k in prev.datasets.entries && Run(Start(), cs, probe).datasets.entries[k] == prev.datasets.entries[k];
      RunDatasetOrigin(init, probe, k);
      var i := LastAdmitted(init, probe, k).value;
      assert init[i] == cs[i];
    }
  }

  // ---------------------------------------------------------------------
  // Which services a pass probes

  lemma {:induction false} RootCandidatesMembers(refs: seq<ServiceRef>, known: OrderedMap<string, string>, c: Candidate)
    ensures c in RootCandidates(refs, known) <==>
              exists r :: r in refs && RootAdmitted(r, known) && c == RootCandidate(r)
    decreases |refs|
  {
    if refs != [] {
      var init := refs[..|refs| - 1];
      RootCandidatesMembers(init, known, c);
      assert refs == init + [refs[|refs| - 1]];
    }
  }

  lemma {:induction false} FolderServiceCandidatesMembers(folder: string, refs: seq<ServiceRef>, c: Candidate)
    ensures c in FolderServiceCandidates(folder, refs) <==>
              exists r :: r in refs && FolderAdmitted(r) && c == FolderCandidate(folder, r)
    decreases |refs|
  {
    if refs != [] {
      var init := refs[..|refs| - 1];
      FolderServiceCandidatesMembers(folder, init, c);
      assert refs == init + [refs[|refs| - 1]];
    }
  }

  lemma {:induction false} FolderCandidatesMembers(folders: seq<string>, catalogs: string -> Option<seq<ServiceRef>>, c: Candidate)
    ensures c in FolderCandidates(folders, catalogs) <==>
              exists f :: f in folders && catalogs(f).Some? && c in FolderServiceCandidates(f, catalogs(f).value)
    decreases |folders|
  {
    if folders != [] {
      var init := folders[..|folders| - 1];
      FolderCandidatesMembers(init, catalogs, c);
      assert folders == init + [folders[|folders| - 1]];
    }
  }

  /** The folder phase probes the listed services of every readable folder. */
  lemma FolderPlanMembers(folders: seq<string>, catalogs: string -> Option<seq<ServiceRef>>, c: Candidate)
    ensures c in FolderCandidates(folders, catalogs) <==>
              exists f, r :: f in folders && catalogs(f).Some? &&
                             r in catalogs(f).value && FolderAdmitted(r) && c == FolderCandidate(f, r)
  {
    FolderCandidatesMembers(folders, catalogs, c);
    if c in FolderCandidates(folders, catalogs) {
      var f :| f in folders && catalogs(f).Some? && c in FolderServiceCandidates(f, catalogs(f).value);
      FolderServiceCandidatesMembers(f, catalogs(f).value, c);
    }
    if exists f, r :: f in folders && catalogs(f).Some? &&
                      r in catalogs(f).value && FolderAdmitted(r) && c == FolderCandidate(f, r) {
      var f, r :| f in folders && catalogs(f).Some? &&
                  r in catalogs(f).value && FolderAdmitted(r) && c == FolderCandidate(f, r);
      FolderServiceCandidatesMembers(f, catalogs(f).value, c);
    }
  }

  lemma KnownCandidatesMembers(known: OrderedMap<string, string>, c: Candidate)
    requires known.Valid()
    ensures c in KnownCandidates(known) <==>
              exists n :: n in known.entries && c == KnownCandidate(n, known.entries[n])
  {
    var cs := KnownCandidates(known);
    if exists n :: n in known.entries && c == KnownCandidate(n, known.entries[n]) {
      var n :| n in known.entries && c == KnownCandidate(n, known.entries[n]);
      var i :| 0 <= i < |known.keys| && known.keys[i] == n;
      assert cs[i] == c;
    }
  }

  /** `c` is one of the services a pass with these known services and this
      remote probes. */
  ghost predicate Planned(c: Candidate, known: OrderedMap<string, string>, remote: Remote)
    requires known.Valid()
  {
    || (exists n :: n in known.entries && c == KnownCandidate(n, known.entries[n]))
    || (remote.root.Some? &&
         ((exists r :: r in remote.root.value.services && RootAdmitted(r, known) && c == RootCandidate(r))
          || (exists f, r :: f in remote.root.value.folders && remote.folder(f).Some? &&
                            r in remote.folder(f).value && FolderAdmitted(r) && c == FolderCandidate(f, r))))
  }

  /** Admission: the pass probes every known service; a root service exactly
      when its type is FeatureServer or MapServer and its name is not known;
      a folder service of a readable folder exactly when its type is listed
      (folder services are not checked against the known services). */
  lemma PlanMembers(known: OrderedMap<string, string>, remote: Remote, c: Candidate)
    requires known.Valid()
    ensures c in Plan(known, remote) <==> Planned(c, known, remote)
  {
    KnownCandidatesMembers(known, c);
    match remote.root {
      case None =>
      case Some(cat) =>
        RootCandidatesMembers(cat.services, known, c);
        FolderPlanMembers(cat.folders, remote.folder, c);
    }
  }

  /** A pass in its three phases: known services; then, when the root
      catalog was read, its services, then its folders' services. */
  lemma DiscoverPhases(known: OrderedMap<string, string>, remote: Remote)
    requires known.Valid()
    ensures remote.root.None? ==> Discover(known, remote) == Run(Start(), KnownCandidates(known), remote.probe)
    ensures remote.root.Some? ==>
      Discover(known, remote) ==
        Run(Run(Run(Start(), KnownCandidates(known), remote.probe),
                RootCandidates(remote.root.value.services, known), remote.probe),
            FolderCandidates(remote.root.value.folders, remote.folder), remote.probe)
  {
    var knownCs := KnownCandidates(known);
    match remote.root {
      case None =>
        assert Plan(known, remote) == knownCs + [];
        assert knownCs + [] == knownCs;
      case Some(cat) =>
        var rootCs := RootCandidates(cat.services, known);
        var folderCs := FolderCandidates(cat.folders, remote.folder);
        assert Plan(known, remote) == (knownCs + rootCs) + folderCs;
        RunAppend(Start(), knownCs + rootCs, folderCs, remote.probe);
        RunAppend(Start(), knownCs, rootCs, remote.probe);
    }
  }

  // ---------------------------------------------------------------------
  // What a complete pass builds

  /** After a pass, every dataset is stored under its own id and every
      service entry under its own name, pointing at a dataset in the cache. */
  lemma DiscoverConsistent(known: OrderedMap<string, string>, remote: Remote)
    requires known.Valid()
    ensures Consistent(Discover(known, remote).datasets, Discover(known, remote).services)
  {
    RunConsistent(Start(), Plan(known, remote), remote.probe);
  }

  /** A pass probes the known services first, in registration order; when the
      root catalog cannot be read it probes nothing else. */
  lemma DiscoverProbes(known: OrderedMap<string, string>, remote: Remote)
    requires known.Valid()
    ensures var p := Discover(known, remote).probed;
      && |p| >= |known.keys|
      && (forall i :: 0 <= i < |known.keys| ==> p[i] == known.entries[known.keys[i]])
      && (remote.root.None? ==> |p| == |known.keys|)
  {
    RunProbed(Start(), Plan(known, remote), remote.probe);
  }

  /** A successfully probed candidate of the plan ends up in both caches. */
  lemma PlannedDiscovered(known: OrderedMap<string, string>, remote: Remote, c: Candidate)
    requires known.Valid()
    requires c in Plan(known, remote) && ProbeOk(remote.probe(c.url))
    ensures c.id in Discover(known, remote).datasets.entries
    ensures c.name in Discover(known, remote).services.entries
  {
    var cs := Plan(known, remote);
    var i :| 0 <= i < |cs| && cs[i] == c;
    assert AdmittedAt(cs, i, remote.probe);
    RunDatasetKeys(Start(), cs, remote.probe, c.id);
    RunServiceKeys(Start(), cs, remote.probe, c.name);
  }

  /** Per-item tolerance for known services: a known service whose probe
      succeeds is cached under its lower-cased name, whatever the other
      probes and catalogs return. */
  lemma KnownServiceDiscovered(known: OrderedMap<string, string>, remote: Remote, n: string)
    requires known.Valid() && n in known.entries
    requires ProbeOk(remote.probe(known.entries[n]))
    ensures Lower(n) in Discover(known, remote).datasets.entries
    ensures n in Discover(known, remote).services.entries
  {
    var c := KnownCandidate(n, known.entries[n]);
    PlanMembers(known, remote, c);
    PlannedDiscovered(known, remote, c);
  }

  /** Per-item tolerance for root services. */
  lemma RootServiceDiscovered(known: OrderedMap<string, string>, remote: Remote, r: ServiceRef)
    requires known.Valid() && remote.root.Some?
    requires r in remote.root.value.services && RootAdmitted(r, known)
    requires ProbeOk(remote.probe(ApiBase + "/" + r.name.GetOr("") + "/" + r.serviceType.GetOr("")))
    ensures Lower(r.name.GetOr("")) in Discover(known, remote).datasets.entries
    ensures r.name.GetOr("") in Discover(known, remote).services.entries
  {
    var c := RootCandidate(r);
    PlanMembers(known, remote, c);
    PlannedDiscovered(known, remote, c);
  }

  /** Per-item tolerance for folder services: a failing folder or a failing
      probe elsewhere does not keep this one out. */
  lemma FolderServiceDiscovered(known: OrderedMap<string, string>, remote: Remote, f: string, r: ServiceRef)
    requires known.Valid() && remote.root.Some?
    requires f in remote.root.value.folders && remote.folder(f).Some?
    requires r in remote.folder(f).value && FolderAdmitted(r)
    requires ProbeOk(remote.probe(ApiBase + "/" + (f + "/" + r.name.GetOr("")) + "/" + r.serviceType.GetOr("")))
    ensures FolderId(f, r.name.GetOr("")) in Discover(known, remote).datasets.entries
    ensures f + "/" + r.name.GetOr("") in Discover(known, remote).services.entries
  {
    var c := FolderCandidate(f, r);
    PlanMembers(known, remote, c);
    PlannedDiscovered(known, remote, c);
  }

  /** When the root catalog cannot be read, the new cache holds exactly the
      known services whose probes succeeded (the pass still replaces the
      cache): first the dataset ids, ... */
  lemma FailedRootCatalog(known: OrderedMap<string, string>, remote: Remote, k: string)
    requires known.Valid() && remote.root.None?
    ensures k in Discover(known, remote).datasets.entries <==>
              exists n :: n in known.entries && Lower(n) == k && ProbeOk(remote.probe(known.entries[n]))
  {
    var cs := Plan(known, remote);
    assert cs == KnownCandidates(known);
    RunDatasetKeys(Start(), cs, remote.probe, k);
    if exists i :: AdmittedAt(cs, i, remote.probe) && cs[i].id == k {
      var i :| AdmittedAt(cs, i, remote.probe) && cs[i].id == k;
      assert known.keys[i] in known.entries;
    }
    if exists n :: n in known.entries && Lower(n) == k && ProbeOk(remote.probe(known.entries[n])) {
      var n :| n in known.entries && Lower(n) == k && ProbeOk(remote.probe(known.entries[n]));
      KnownServiceDiscovered(known, remote, n);
    }
  }

  /** ... then the service names. */
  lemma FailedRootCatalogServices(known: OrderedMap<string, string>, remote: Remote, n: string)
    requires known.Valid() && remote.root.None?
    ensures n in Discover(known, remote).services.entries <==>
              n in known.entries && ProbeOk(remote.probe(known.entries[n]))
  {
    var cs := Plan(known, remote);
    assert cs == KnownCandidates(known);
    RunServiceKeys(Start(), cs, remote.probe, n);
    if exists i :: AdmittedAt(cs, i, remote.probe) && cs[i].name == n {
      var i :| AdmittedAt(cs, i, remote.probe) && cs[i].name == n;
      assert known.keys[i] in known.entries;
    }
    if n in known.entries && ProbeOk(remote.probe(known.entries[n])) {
      KnownServiceDiscovered(known, remote, n);
    }
  }

  /** Every cached dataset was built from a service the pass admitted and
      probed successfully, and from the last such service with that id. */
  lemma DatasetProvenance(known: OrderedMap<string, string>, remote: Remote, k: string)
    requires known.Valid() && k in Discover(known, remote).datasets.entries
    ensures exists c :: Planned(c, known, remote) && c.id == k && ProbeOk(remote.probe(c.url)) &&
              Discover(known, remote).datasets.entries[k] == MakeDataset(c, remote.probe(c.url).value)
  {
    var cs := Plan(known, remote);
    RunDatasetOrigin(cs, remote.probe, k);
    var i := LastAdmitted(cs, remote.probe, k).value;
    PlanMembers(known, remote, cs[i]);
  }

  /** Records of folder services: the id has no `/` and is the lower-cased
      folder and name joined by `_`; the folder is the last tag and the second
      category; the title falls back to the bare service name. */
  lemma FolderDatasetShape(f: string, r: ServiceRef, info: ServiceInfo)
    ensures var d := MakeDataset(FolderCandidate(f, r), info);
      && '/' !in d.id
      && d.id == ReplaceChar(Lower(f), '/', '_') + "_" + ReplaceChar(Lower(r.name.GetOr("")), '/', '_')
      && d.name == f + "/" + r.name.GetOr("")
      && d.tags == BaseTags + [f]
      && d.categories == [DefaultCategory, f]
      && (info.serviceDescription.None? ==> d.title == r.name.GetOr(""))
  {
    var name := r.name.GetOr("");
    LowerAppend(f, "/" + name);
    LowerAppend("/", name);
    ReplaceCharAppend(Lower(f), Lower("/") + Lower(name), '/', '_');
    ReplaceCharAppend(Lower("/"), Lower(name), '/', '_');
    assert ReplaceChar(Lower("/"), '/', '_') == "_";
  }

  /** Records of root and known services are stored under the lower-cased
      service name; a root service's URL is `api_base/name/type`, a known
      service's type is always "Feature Service". */
  lemma ServiceDatasetShape(n: string, url: string, r: ServiceRef, info: ServiceInfo)
    ensures var d := MakeDataset(KnownCandidate(n, url), info);
      d.id == Lower(n) && d.url == url && d.serviceType == "Feature Service" &&
      d.tags == BaseTags && d.categories == [DefaultCategory]
    ensures var d := MakeDataset(RootCandidate(r), info);
      d.id == Lower(r.name.GetOr("")) && d.serviceType == r.serviceType.GetOr("") &&
      d.url == ApiBase + "/" + r.name.GetOr("") + "/" + r.serviceType.GetOr("") &&
      d.tags == BaseTags && d.categories == [DefaultCategory]
  {
  }
}
