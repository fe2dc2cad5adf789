/** Admission of an application release manifest. */
module Manifest {
  import opened Domain
  import opened Collections
  import opened ReleaseText

  datatype Platform = Platform(os: string, architecture: string, variant: Option<string>)

  datatype Evidence = Evidence(reference: string, subjectDigest: string, sha256Digest: string)

  datatype SubjectKind = ImageIndex | ImageManifest

  datatype RuntimeEvidence = RuntimeEvidence(
    sbom: Evidence, vulnerabilityReport: Evidence, scanner: string, advisorySnapshotAt: string,
    policyDigest: string, capabilityChecksDigest: string)

  datatype Runtime = Runtime(platform: Platform, manifestDigest: string, configDigest: string, evidence: RuntimeEvidence)

  datatype OdooRuntime = OdooRuntime(
    officialSourceRef: string, deploymentRef: string, subjectDigest: string, subjectKind: SubjectKind,
    version: string, platforms: seq<Runtime>)

  datatype QualifiedRuntime = QualifiedRuntime(
    officialSourceRef: string, deploymentRef: string, subjectDigest: string, subjectKind: SubjectKind,
    platform: Platform, manifestDigest: string, configDigest: string)

  datatype Extension = Extension(
    platform: Platform, manifestDigest: string, configDigest: string, payloadDigest: string,
    pythonImplementation: string, pythonAbi: string, pythonPlatform: string,
    dependencyInventoryDigest: string, lockFileDigest: string, qualifiedRuntime: QualifiedRuntime,
    signature: Evidence, sbom: Evidence, vulnerabilityReport: Evidence)

  datatype Bundle = Bundle(ociRef: string, subjectDigest: string, platforms: seq<Extension>)

  datatype Pair = Pair(
    platform: Platform, odooManifestDigest: string, extensionManifestDigest: string, payloadDigest: string,
    qualificationDigest: string)

  datatype Dependency = Dependency(name: string, version: string)

  datatype ChangeClass = A | B | C

  datatype Compatibility = Incompatible | ReadOnly | ReadWrite

  datatype Postcondition = RegistryLoad | InstalledVersions | MigrationLedger | RequiredColumns | XmlidOwnership | Health

  datatype Manifest = Manifest(
    schemaVersion: nat, releaseId: string, sourceCommit: string, builtAt: string,
    runtime: OdooRuntime, bundle: Bundle, pairs: seq<Pair>,
    addons: map<string, string>, dependencies: seq<Dependency>,
    upgradeableFrom: seq<string>, compatibility: map<string, Compatibility>,
    bridgeContract: string, bridgeContractDigest: string, schemaEpoch: nat,
    changeClass: ChangeClass, postconditions: seq<Postcondition>, registryVersion: nat,
    admissionSignature: Evidence)

  /** What a pair's qualification digest is computed over. */
  datatype Qualification = Qualification(
    runtime: QualifiedRuntime, bundleDigest: string, manifestDigest: string, configDigest: string,
    payloadDigest: string, bridgeContractDigest: string, addons: map<string, string>)

  /** The foreign parts: recognising an RFC 3339 timestamp, and hashing a canonical document. */
  datatype Oracle = Oracle(timestamp: string -> bool, digest: Qualification -> string)

  datatype ManifestError =
    | SchemaVersion | BadReleaseId | SourceCommit | Digest | OciReference | Timestamp | BlankValue | Platforms
    | UnqualifiedRuntime | PairQualification | Version | CompatibilitySource | Postconditions | ClassBCompatibility

  datatype Check = Pass | Fail(error: ManifestError) {
    predicate IsFailure() { Fail? }
    function PropagateFailure(): Check
      requires Fail?
    {
      this
    }
  }

  function RuntimePlatform(r: Runtime): Platform { r.platform }
  function ExtensionPlatform(x: Extension): Platform { x.platform }
  function PairPlatform(p: Pair): Platform { p.platform }
  function DependencyName(d: Dependency): string { d.name }

  // ---------------------------------------------------------------- what an admissible manifest is

  predicate PlatformOk(p: Platform) {
    p.os == "linux" && !Blank(p.architecture) && (p.variant.Some? ==> !Blank(p.variant.value))
  }

  predicate EvidenceOk(e: Evidence) {
    IsDigest(e.subjectDigest) && IsDigest(e.sha256Digest) && BoundReference(e.reference, e.subjectDigest)
  }

  predicate AnyBlank(m: Manifest) {
    || Blank(m.runtime.version)
    || Blank(m.bridgeContract)
    || (exists k :: k in m.addons && Blank(m.addons[k]))
    || (exists d :: d in m.dependencies && (Blank(d.name) || Blank(d.version)))
  }

  function HeaderDigests(m: Manifest): seq<string> {
    [m.runtime.subjectDigest, m.bundle.subjectDigest, m.bridgeContractDigest]
  }

  predicate HeaderOk(m: Manifest, o: Oracle) {
    && m.schemaVersion == 2 && ReleaseId(m.releaseId) && HexDigest(m.sourceCommit, 40, 64) && o.timestamp(m.builtAt)
    && m.schemaEpoch > 0 && m.registryVersion > 0
    && !AnyBlank(m) && Distinct(Map(DependencyName, m.dependencies))
    && DigestsOk(HeaderDigests(m))
    && BoundReference(m.runtime.officialSourceRef, m.runtime.subjectDigest)
    && BoundReference(m.runtime.deploymentRef, m.runtime.subjectDigest)
    && BoundReference(m.bundle.ociRef, m.bundle.subjectDigest)
    && EvidenceOk(m.admissionSignature)
  }

  function RuntimeDigests(r: Runtime): seq<string> {
    [r.manifestDigest, r.configDigest, r.evidence.policyDigest, r.evidence.capabilityChecksDigest]
  }

  predicate ScanOk(o: Oracle, e: RuntimeEvidence) {
    && EvidenceOk(e.sbom) && EvidenceOk(e.vulnerabilityReport)
    && !Blank(e.scanner) && o.timestamp(e.advisorySnapshotAt)
  }

  predicate DigestsOk(ds: seq<string>) { forall d :: d in ds ==> IsDigest(d) }

  predicate RuntimeOk(o: Oracle, r: Runtime) {
    PlatformOk(r.platform) && DigestsOk(RuntimeDigests(r)) && ScanOk(o, r.evidence)
  }

  function ExtensionDigests(x: Extension): seq<string> {
    [x.manifestDigest, x.configDigest, x.payloadDigest, x.dependencyInventoryDigest, x.lockFileDigest]
  }

  function ExtensionEvidence(x: Extension): seq<Evidence> { [x.signature, x.sbom, x.vulnerabilityReport] }

  predicate PythonOk(x: Extension) {
    x.pythonImplementation == "cpython" && !Blank(x.pythonAbi) && !Blank(x.pythonPlatform)
  }

  predicate ExtensionOk(x: Extension) {
    && PlatformOk(x.platform)
    && DigestsOk(ExtensionDigests(x))
    && (forall e :: e in ExtensionEvidence(x) ==> EvidenceOk(e))
    && PythonOk(x)
  }

  predicate RuntimesOk(m: Manifest, o: Oracle) { forall r :: r in m.runtime.platforms ==> RuntimeOk(o, r) }

  predicate ExtensionsOk(m: Manifest) { forall x :: x in m.bundle.platforms ==> ExtensionOk(x) }

  /** The extension was qualified against this very runtime. */
  predicate QualifiedFor(m: Manifest, x: Extension, r: Runtime) {
    x.qualifiedRuntime ==
    QualifiedRuntime(m.runtime.officialSourceRef, m.runtime.deploymentRef, m.runtime.subjectDigest,
                     m.runtime.subjectKind, r.platform, r.manifestDigest, r.configDigest)
  }

  function ExpectedDigest(m: Manifest, o: Oracle, x: Extension): string {
    o.digest(Qualification(x.qualifiedRuntime, m.bundle.subjectDigest, x.manifestDigest, x.configDigest,
                           x.payloadDigest, m.bridgeContractDigest, m.addons))
  }

  /** The pair joins this runtime and this extension. */
  predicate Joins(m: Manifest, o: Oracle, p: Pair, r: Runtime, x: Extension) {
    && p.odooManifestDigest == r.manifestDigest
    && p.extensionManifestDigest == x.manifestDigest
    && p.payloadDigest == x.payloadDigest
    && p.qualificationDigest == ExpectedDigest(m, o, x)
  }

  /** Each of the three lists names each platform once, and all three name the same platforms. */
  predicate Parity(m: Manifest) {
    && m.runtime.platforms != []
    && Distinct(Map(RuntimePlatform, m.runtime.platforms))
    && Distinct(Map(ExtensionPlatform, m.bundle.platforms))
    && Distinct(Map(PairPlatform, m.pairs))
    && Elements(Map(RuntimePlatform, m.runtime.platforms)) == Elements(Map(ExtensionPlatform, m.bundle.platforms))
    && Elements(Map(RuntimePlatform, m.runtime.platforms)) == Elements(Map(PairPlatform, m.pairs))
  }

  predicate Together(m: Manifest, r: Runtime, x: Extension) {
    r in m.runtime.platforms && x in m.bundle.platforms && r.platform == x.platform
  }

  ghost predicate Agreement(m: Manifest, o: Oracle) {
    && (forall r, x :: Together(m, r, x) ==> QualifiedFor(m, x, r))
    && (forall r, x, p :: Together(m, r, x) && p in m.pairs && p.platform == x.platform ==> Joins(m, o, p, r, x))
  }

  predicate LineageOk(m: Manifest) {
    Distinct(m.upgradeableFrom) && m.releaseId !in m.upgradeableFrom
    && forall k :: k in m.compatibility ==> k in m.upgradeableFrom
  }

  predicate PostconditionsOk(m: Manifest) {
    Distinct(m.postconditions) && RegistryLoad in m.postconditions && Health in m.postconditions
  }

  predicate ClassOk(m: Manifest) {
    m.changeClass == B ==> exists k :: k in m.compatibility && m.compatibility[k] == ReadWrite
  }

  ghost predicate Admissible(m: Manifest, o: Oracle) {
    && HeaderOk(m, o) && RuntimesOk(m, o) && ExtensionsOk(m)
    && Parity(m) && Agreement(m, o)
    && LineageOk(m) && PostconditionsOk(m) && ClassOk(m)
  }

  // ---------------------------------------------------------------- what each error blames

  /** Every digest the manifest states directly, outside its evidence. */
  predicate States(m: Manifest, d: string) {
    || d in HeaderDigests(m)
    || (exists r :: r in m.runtime.platforms && d in RuntimeDigests(r))
    || (exists x :: x in m.bundle.platforms && d in ExtensionDigests(x))
  }

  predicate Cites(m: Manifest, e: Evidence) {
    || e == m.admissionSignature
    || (exists r :: r in m.runtime.platforms && (e == r.evidence.sbom || e == r.evidence.vulnerabilityReport))
    || (exists x :: x in m.bundle.platforms && e in ExtensionEvidence(x))
  }

  ghost predicate DigestFault(m: Manifest) {
    || (exists d :: States(m, d) && !IsDigest(d))
    || (exists e :: Cites(m, e) && !(IsDigest(e.subjectDigest) && IsDigest(e.sha256Digest)))
  }

  ghost predicate ReferenceFault(m: Manifest) {
    || !BoundReference(m.runtime.officialSourceRef, m.runtime.subjectDigest)
    || !BoundReference(m.runtime.deploymentRef, m.runtime.subjectDigest)
    || !BoundReference(m.bundle.ociRef, m.bundle.subjectDigest)
    || (exists e :: Cites(m, e) && !BoundReference(e.reference, e.subjectDigest))
  }

  ghost predicate TimestampFault(m: Manifest, o: Oracle) {
    || !o.timestamp(m.builtAt)
    || (exists r :: r in m.runtime.platforms
                    && (Blank(r.evidence.scanner) || !o.timestamp(r.evidence.advisorySnapshotAt)))
  }

  ghost predicate BlankFault(m: Manifest) {
    || AnyBlank(m)
    || !Distinct(Map(DependencyName, m.dependencies))
    || (exists r :: r in m.runtime.platforms && !PlatformOk(r.platform))
    || (exists x :: x in m.bundle.platforms && !(PlatformOk(x.platform) && PythonOk(x)))
  }

  ghost predicate QualifiedFault(m: Manifest) {
    exists r, x :: Together(m, r, x) && !QualifiedFor(m, x, r)
  }

  ghost predicate PairFault(m: Manifest, o: Oracle) {
    || (exists x :: x in m.bundle.platforms && forall p :: p in m.pairs ==> p.platform != x.platform)
    || (exists r, x, p :: Together(m, r, x) && p in m.pairs && p.platform == x.platform && !Joins(m, o, p, r, x))
  }

  /** The manifest has the defect the error names. */
  ghost predicate Faulty(m: Manifest, o: Oracle, e: ManifestError) {
    match e
    case SchemaVersion => m.schemaVersion != 2
    case BadReleaseId => !ReleaseId(m.releaseId)
    case SourceCommit => !HexDigest(m.sourceCommit, 40, 64)
    case Digest => DigestFault(m)
    case OciReference => ReferenceFault(m)
    case Timestamp => TimestampFault(m, o)
    case BlankValue => BlankFault(m)
    case Platforms => !Parity(m)
    case UnqualifiedRuntime => QualifiedFault(m)
    case PairQualification => PairFault(m, o)
    case Version => m.schemaEpoch == 0 || m.registryVersion == 0
    case CompatibilitySource => !LineageOk(m)
    case Postconditions => !PostconditionsOk(m)
    case ClassBCompatibility => !ClassOk(m)
  }

  lemma PairPresent(m: Manifest, x: Extension) returns (p: Pair)
    requires Parity(m) && x in m.bundle.platforms
    ensures p in m.pairs && p.platform == x.platform
  {
    KeyIn(ExtensionPlatform, m.bundle.platforms, x);
    p := KeyFrom(PairPlatform, m.pairs, x.platform);
  }

  lemma RuntimePresent(m: Manifest, x: Extension) returns (r: Runtime)
    requires Parity(m) && x in m.bundle.platforms
    ensures r in m.runtime.platforms && r.platform == x.platform
  {
    KeyIn(ExtensionPlatform, m.bundle.platforms, x);
    r := KeyFrom(RuntimePlatform, m.runtime.platforms, x.platform);
  }

  /** A manifest with any defect is not admissible. */
  lemma FaultyIsInadmissible(m: Manifest, o: Oracle, e: ManifestError)
    requires Faulty(m, o, e)
    ensures !Admissible(m, o)
  {
    if Admissible(m, o) && e == PairQualification {
      forall x | x in m.bundle.platforms
        ensures exists p :: p in m.pairs && p.platform == x.platform
      {
        var p := PairPresent(m, x);
      }
    }
  }

  // ---------------------------------------------------------------- the checks

  function CheckPlatform(p: Platform): Check { if PlatformOk(p) then Pass else Fail(BlankValue) }

  function CheckDigest(d: string): Check { if IsDigest(d) then Pass else Fail(Digest) }

  function CheckReference(value: string, digest: string): Check {
    if BoundReference(value, digest) then Pass else Fail(OciReference)
  }

  /** Passes sound evidence; a failure tells a bad digest from a reference to something else. */
  function CheckEvidence(e: Evidence): (r: Check)
    ensures r.Pass? <==> EvidenceOk(e)
    ensures r.Fail? ==> r.error in {Digest, OciReference}
    ensures r == Fail(Digest) <==> !(IsDigest(e.subjectDigest) && IsDigest(e.sha256Digest))
  {
    if CheckDigest(e.subjectDigest).Fail? then CheckDigest(e.subjectDigest)
    else if CheckDigest(e.sha256Digest).Fail? then CheckDigest(e.sha256Digest)
    else CheckReference(e.reference, e.subjectDigest)
  }

  method CheckDigests(ds: seq<string>) returns (r: Check)
    ensures r.Pass? <==> DigestsOk(ds)
    ensures r.Fail? ==> r.error == Digest
  {
    for i := 0 to |ds|
      invariant forall d :: d in ds[..i] ==> IsDigest(d)
    {
      assert ds[..i + 1] == ds[..i] + [ds[i]];
      :- CheckDigest(ds[i]);
    }
    assert ds[..|ds|] == ds;
    return Pass;
  }

  method CheckHeader(m: Manifest, o: Oracle) returns (r: Check)
    ensures r.Pass? ==> HeaderOk(m, o)
    ensures r.Fail? ==> Faulty(m, o, r.error)
  {
    if m.schemaVersion != 2 {
      return Fail(SchemaVersion);
    }
    if !ReleaseId(m.releaseId) {
      return Fail(BadReleaseId);
    }
    if !HexDigest(m.sourceCommit, 40, 64) {
      return Fail(SourceCommit);
    }
    if !o.timestamp(m.builtAt) {
      return Fail(Timestamp);
    }
    if m.schemaEpoch == 0 || m.registryVersion == 0 {
      return Fail(Version);
    }
    if AnyBlank(m) {
      return Fail(BlankValue);
    }
    var names := Map(DependencyName, m.dependencies);
    DistinctIffCardinality(names);
    if |Elements(names)| != |m.dependencies| {
      return Fail(BlankValue);
    }
    var digests := CheckDigests(HeaderDigests(m));
    if digests.Fail? {
      assert exists d :: d in HeaderDigests(m) && States(m, d) && !IsDigest(d);
      return digests;
    }
    :- CheckReference(m.runtime.officialSourceRef, m.runtime.subjectDigest);
    :- CheckReference(m.runtime.deploymentRef, m.runtime.subjectDigest);
    :- CheckReference(m.bundle.ociRef, m.bundle.subjectDigest);
    assert Cites(m, m.admissionSignature);
    :- CheckEvidence(m.admissionSignature);
    return Pass;
  }

  method CheckRuntime(m: Manifest, o: Oracle, r: Runtime, seen: set<Platform>) returns (c: Check)
    requires r in m.runtime.platforms
    requires r.platform in seen ==> !Parity(m)
    ensures c.Pass? ==> RuntimeOk(o, r) && r.platform !in seen
    ensures c.Fail? ==> Faulty(m, o, c.error)
  {
    assert forall d :: d in RuntimeDigests(r) ==> States(m, d);
    assert Cites(m, r.evidence.sbom) && Cites(m, r.evidence.vulnerabilityReport);
    :- CheckPlatform(r.platform);
    if r.platform in seen {
      return Fail(Platforms);
    }
    :- CheckDigest(r.manifestDigest);
    :- CheckDigest(r.configDigest);
    :- CheckEvidence(r.evidence.sbom);
    :- CheckEvidence(r.evidence.vulnerabilityReport);
    :- CheckDigest(r.evidence.policyDigest);
    :- CheckDigest(r.evidence.capabilityChecksDigest);
    if Blank(r.evidence.scanner) || !o.timestamp(r.evidence.advisorySnapshotAt) {
      return Fail(Timestamp);
    }
    return Pass;
  }

  /** `seen` are the keys of the first `i` members, all different. */
  ghost predicate Collected<T, K>(f: T -> K, s: seq<T>, i: nat, seen: set<K>)
    requires i <= |s|
  {
    Distinct(Map(f, s[..i])) && seen == Elements(Map(f, s[..i]))
  }

  /** Taking one more member into account: its key is new, or the whole list repeats a key. */
  lemma Collect<T, K>(f: T -> K, s: seq<T>, i: nat, seen: set<K>)
    requires i < |s| && Collected(f, s, i, seen)
    ensures f(s[i]) in seen ==> !Distinct(Map(f, s))
    ensures f(s[i]) !in seen ==> Collected(f, s, i + 1, seen + {f(s[i])})
  {
    var front := Map(f, s[..i]);
    assert Map(f, s[..i + 1]) == front + [f(s[i])];
    DistinctExtends(front, f(s[i]));
    ElementsExtend(front, f(s[i]));
    if f(s[i]) in front {
      var j :| 0 <= j < i && front[j] == f(s[i]);
      assert Map(f, s)[j] == Map(f, s)[i];
    }
  }

  lemma CollectedAll<T, K>(f: T -> K, s: seq<T>, seen: set<K>)
    requires Collected(f, s, |s|, seen)
    ensures Distinct(Map(f, s)) && seen == Elements(Map(f, s))
  {
    assert s[..|s|] == s;
  }

  lemma CollectRuntime(m: Manifest, i: nat, seen: set<Platform>)
    requires i < |m.runtime.platforms| && Collected(RuntimePlatform, m.runtime.platforms, i, seen)
    ensures var p := m.runtime.platforms[i].platform;
            if p in seen then !Parity(m) else Collected(RuntimePlatform, m.runtime.platforms, i + 1, seen + {p})
  {
    Collect(RuntimePlatform, m.runtime.platforms, i, seen);
  }

  lemma CollectExtension(m: Manifest, i: nat, seen: set<Platform>)
    requires i < |m.bundle.platforms| && Collected(ExtensionPlatform, m.bundle.platforms, i, seen)
    ensures var p := m.bundle.platforms[i].platform;
            if p in seen then !Parity(m) else Collected(ExtensionPlatform, m.bundle.platforms, i + 1, seen + {p})
  {
    Collect(ExtensionPlatform, m.bundle.platforms, i, seen);
  }

  /** The first `i` runtimes have passed and their platforms are `seen`. */
  ghost predicate RuntimesPassed(m: Manifest, o: Oracle, i: nat, seen: set<Platform>)
    requires i <= |m.runtime.platforms|
  {
    && Collected(RuntimePlatform, m.runtime.platforms, i, seen)
    && forall k :: 0 <= k < i ==> RuntimeOk(o, m.runtime.platforms[k])
  }

  lemma RuntimesStart(m: Manifest, o: Oracle)
    ensures RuntimesPassed(m, o, 0, {})
  {
  }

  lemma RuntimesNext(m: Manifest, o: Oracle, i: nat, seen: set<Platform>)
    requires i < |m.runtime.platforms| && RuntimesPassed(m, o, i, seen)
    ensures m.runtime.platforms[i].platform in seen ==> !Parity(m)
    ensures RuntimeOk(o, m.runtime.platforms[i]) && m.runtime.platforms[i].platform !in seen ==>
              RuntimesPassed(m, o, i + 1, seen + {m.runtime.platforms[i].platform})
  {
    CollectRuntime(m, i, seen);
  }

  lemma RuntimesEnd(m: Manifest, o: Oracle, seen: set<Platform>)
    requires RuntimesPassed(m, o, |m.runtime.platforms|, seen)
    ensures RuntimesOk(m, o) && Distinct(Map(RuntimePlatform, m.runtime.platforms))
    ensures seen == Elements(Map(RuntimePlatform, m.runtime.platforms))
  {
    CollectedAll(RuntimePlatform, m.runtime.platforms, seen);
  }

  /** Platforms are collected one by one; a repetition stops the loop. */
  method CheckRuntimes(m: Manifest, o: Oracle) returns (c: Check, seen: set<Platform>)
    ensures c.Pass? ==> RuntimesPassed(m, o, |m.runtime.platforms|, seen)
    ensures c.Fail? ==> Faulty(m, o, c.error)
  {
    c, seen := Pass, {};
    RuntimesStart(m, o);
    for i := 0 to |m.runtime.platforms|
      invariant c.Pass? && RuntimesPassed(m, o, i, seen)
    {
      RuntimesNext(m, o, i, seen);
      c := CheckRuntime(m, o, m.runtime.platforms[i], seen);
      if c.Fail? {
        return;
      }
      seen := seen + {m.runtime.platforms[i].platform};
    }
  }

  function RuntimeFor(m: Manifest, p: Platform): Option<Runtime> {
    Find(m.runtime.platforms, (r: Runtime) => r.platform == p)
  }

  function PairFor(m: Manifest, p: Platform): Option<Pair> {
    Find(m.pairs, (q: Pair) => q.platform == p)
  }

  /** The extension has a runtime it was qualified for and a pair that joins the two. */
  predicate Settled(m: Manifest, o: Oracle, x: Extension) {
    var r, p := RuntimeFor(m, x.platform), PairFor(m, x.platform);
    r.Some? && p.Some? && QualifiedFor(m, x, r.value) && Joins(m, o, p.value, r.value, x)
  }

  predicate Accepted(m: Manifest, o: Oracle, x: Extension) { ExtensionOk(x) && Settled(m, o, x) }

  method CheckContents(m: Manifest, o: Oracle, x: Extension, seen: set<Platform>) returns (c: Check)
    requires x in m.bundle.platforms
    requires x.platform in seen ==> !Parity(m)
    ensures c.Pass? ==> ExtensionOk(x) && x.platform !in seen
    ensures c.Fail? ==> Faulty(m, o, c.error)
  {
    var ds, es := ExtensionDigests(x), ExtensionEvidence(x);
    :- CheckPlatform(x.platform);
    if x.platform in seen {
      return Fail(Platforms);
    }
    var digests := CheckDigests(ds);
    if digests.Fail? {
      assert exists d :: d in ds && States(m, d) && !IsDigest(d);
      return digests;
    }
    for i := 0 to |es|
      invariant forall e :: e in es[..i] ==> EvidenceOk(e)
    {
      assert Cites(m, es[i]);
      :- CheckEvidence(es[i]);
      assert es[..i + 1] == es[..i] + [es[i]];
    }
    assert es[..|es|] == es;
    if !PythonOk(x) {
      return Fail(BlankValue);
    }
    return Pass;
  }

  method CheckExtension(m: Manifest, o: Oracle, x: Extension, seen: set<Platform>) returns (c: Check)
    requires x in m.bundle.platforms
    requires x.platform in seen ==> !Parity(m)
    ensures c.Pass? ==> Accepted(m, o, x) && x.platform !in seen
    ensures c.Fail? ==> Faulty(m, o, c.error)
  {
    c := CheckContents(m, o, x, seen);
    if c.Pass? {
      c := CheckPairing(m, o, x);
    }
  }

  method CheckPairing(m: Manifest, o: Oracle, x: Extension) returns (c: Check)
    requires x in m.bundle.platforms
    ensures c.Pass? <==> Settled(m, o, x)
    ensures c.Fail? ==> Faulty(m, o, c.error)
  {
    var r := RuntimeFor(m, x.platform);
    if r.None? {
      NoRuntime(m, x);
      return Fail(Platforms);
    }
    assert Together(m, r.value, x);
    if !QualifiedFor(m, x, r.value) {
      return Fail(UnqualifiedRuntime);
    }
    var p := PairFor(m, x.platform);
    if p.None? || !Joins(m, o, p.value, r.value, x) {
      return Fail(PairQualification);
    }
    return Pass;
  }

  lemma NoRuntime(m: Manifest, x: Extension)
    requires x in m.bundle.platforms && RuntimeFor(m, x.platform).None?
    ensures !Parity(m)
  {
    if Parity(m) {
      var r := RuntimePresent(m, x);
    }
  }

  /** The first `i` extensions have passed and their platforms are `seen`. */
  ghost predicate ExtensionsPassed(m: Manifest, o: Oracle, i: nat, seen: set<Platform>)
    requires i <= |m.bundle.platforms|
  {
    && Collected(ExtensionPlatform, m.bundle.platforms, i, seen)
    && forall k :: 0 <= k < i ==> Accepted(m, o, m.bundle.platforms[k])
  }

  lemma ExtensionsStart(m: Manifest, o: Oracle)
    ensures ExtensionsPassed(m, o, 0, {})
  {
  }

  lemma ExtensionsNext(m: Manifest, o: Oracle, i: nat, seen: set<Platform>)
    requires i < |m.bundle.platforms| && ExtensionsPassed(m, o, i, seen)
    ensures m.bundle.platforms[i].platform in seen ==> !Parity(m)
    ensures Accepted(m, o, m.bundle.platforms[i]) && m.bundle.platforms[i].platform !in seen ==>
              ExtensionsPassed(m, o, i + 1, seen + {m.bundle.platforms[i].platform})
  {
    CollectExtension(m, i, seen);
  }

  lemma ExtensionsEnd(m: Manifest, o: Oracle, seen: set<Platform>)
    requires ExtensionsPassed(m, o, |m.bundle.platforms|, seen)
    ensures ExtensionsOk(m) && Distinct(Map(ExtensionPlatform, m.bundle.platforms))
    ensures seen == Elements(Map(ExtensionPlatform, m.bundle.platforms))
    ensures forall x :: x in m.bundle.platforms ==> Settled(m, o, x)
  {
    CollectedAll(ExtensionPlatform, m.bundle.platforms, seen);
    forall x | x in m.bundle.platforms
      ensures Accepted(m, o, x)
    {
    }
  }

  method CheckExtensions(m: Manifest, o: Oracle) returns (c: Check, seen: set<Platform>)
    ensures c.Pass? ==> ExtensionsPassed(m, o, |m.bundle.platforms|, seen)
    ensures c.Fail? ==> Faulty(m, o, c.error)
  {
    c, seen := Pass, {};
    ExtensionsStart(m, o);
    for i := 0 to |m.bundle.platforms|
      invariant c.Pass? && ExtensionsPassed(m, o, i, seen)
    {
      ExtensionsNext(m, o, i, seen);
      c := CheckExtension(m, o, m.bundle.platforms[i], seen);
      if c.Fail? {
        return;
      }
      seen := seen + {m.bundle.platforms[i].platform};
    }
  }

  /** Lists of one length, each extension settled and no pair twice: the three lists name the same platforms. */
  lemma SettledGivesParity(m: Manifest, o: Oracle)
    requires |m.runtime.platforms| == |m.bundle.platforms| == |m.pairs| != 0
    requires Distinct(Map(ExtensionPlatform, m.bundle.platforms))
    requires forall x :: x in m.bundle.platforms ==> Settled(m, o, x)
    ensures Parity(m)
  {
    var rs := Map(RuntimePlatform, m.runtime.platforms);
    var xs := Map(ExtensionPlatform, m.bundle.platforms);
    var ps := Map(PairPlatform, m.pairs);
    forall k | k in Elements(xs)
      ensures k in Elements(rs) && k in Elements(ps)
    {
      var x := KeyFrom(ExtensionPlatform, m.bundle.platforms, k);
      KeyIn(RuntimePlatform, m.runtime.platforms, RuntimeFor(m, k).value);
      KeyIn(PairPlatform, m.pairs, PairFor(m, k).value);
    }
    Pigeonhole(xs, rs);
    Pigeonhole(xs, ps);
  }

  lemma SettledGivesAgreement(m: Manifest, o: Oracle)
    requires Parity(m) && forall x :: x in m.bundle.platforms ==> Settled(m, o, x)
    ensures Agreement(m, o)
  {
    forall r, x | Together(m, r, x)
      ensures QualifiedFor(m, x, r) && RuntimeFor(m, x.platform) == Some(r)
    {
      KeyDecides(RuntimePlatform, m.runtime.platforms, r, RuntimeFor(m, x.platform).value);
    }
    forall r, x, p | Together(m, r, x) && p in m.pairs && p.platform == x.platform
      ensures Joins(m, o, p, r, x)
    {
      KeyDecides(PairPlatform, m.pairs, p, PairFor(m, x.platform).value);
    }
  }

  lemma ParityGivesEqualLengths(m: Manifest)
    requires Parity(m)
    ensures |m.runtime.platforms| == |m.bundle.platforms| == |m.pairs|
  {
    DistinctIffCardinality(Map(RuntimePlatform, m.runtime.platforms));
    DistinctIffCardinality(Map(ExtensionPlatform, m.bundle.platforms));
    DistinctIffCardinality(Map(PairPlatform, m.pairs));
  }

  method CheckPlatforms(m: Manifest, o: Oracle) returns (c: Check)
    ensures c.Pass? ==> RuntimesOk(m, o) && ExtensionsOk(m) && Parity(m) && Agreement(m, o)
    ensures c.Fail? ==> Faulty(m, o, c.error)
  {
    if || m.runtime.platforms == []
       || |m.runtime.platforms| != |m.bundle.platforms|
       || |m.runtime.platforms| != |m.pairs|
    {
      if Parity(m) {
        ParityGivesEqualLengths(m);
      }
      return Fail(Platforms);
    }
    var runtimes, runtimePlatforms := CheckRuntimes(m, o);
    if runtimes.Fail? {
      return runtimes;
    }
    var extensions, extensionPlatforms := CheckExtensions(m, o);
    if extensions.Fail? {
      return extensions;
    }
    RuntimesEnd(m, o, runtimePlatforms);
    ExtensionsEnd(m, o, extensionPlatforms);
    var pairs := Map(PairPlatform, m.pairs);
    DistinctIffCardinality(pairs);
    if runtimePlatforms != extensionPlatforms || |Elements(pairs)| != |m.pairs| {
      return Fail(Platforms);
    }
    SettledGivesParity(m, o);
    SettledGivesAgreement(m, o);
    return Pass;
  }

  /** Early returns, hash sets and first matches decide exactly admissibility, and the error returned names a
      defect the manifest has. */
  method Validate(m: Manifest, o: Oracle) returns (c: Check)
    ensures c.Pass? <==> Admissible(m, o)
    ensures c.Fail? ==> Faulty(m, o, c.error)
  {
    c := CheckHeader(m, o);
    if c.Fail? {
      FaultyIsInadmissible(m, o, c.error);
      return;
    }
    c := CheckPlatforms(m, o);
    if c.Fail? {
      FaultyIsInadmissible(m, o, c.error);
      return;
    }
    c := CheckLineage(m);
  }

  method CheckLineage(m: Manifest) returns (c: Check)
    ensures c.Pass? <==> LineageOk(m) && PostconditionsOk(m) && ClassOk(m)
    ensures c.Fail? ==> forall o :: Faulty(m, o, c.error)
  {
    var sources := Elements(m.upgradeableFrom);
    DistinctIffCardinality(m.upgradeableFrom);
    if || |sources| != |m.upgradeableFrom|
       || m.releaseId in sources
       || exists k :: k in m.compatibility && k !in sources
    {
      return Fail(CompatibilitySource);
    }
    var required := Elements(m.postconditions);
    DistinctIffCardinality(m.postconditions);
    if |required| != |m.postconditions| || RegistryLoad !in required || Health !in required {
      return Fail(Postconditions);
    }
    if m.changeClass == B && !exists k :: k in m.compatibility && m.compatibility[k] == ReadWrite {
      return Fail(ClassBCompatibility);
    }
    return Pass;
  }

  // ---------------------------------------------------------------- consequences

  /** The same manifest with its lists in another order. */
  predicate Reordered(m: Manifest, n: Manifest) {
    && Permuted(m.runtime.platforms, n.runtime.platforms)
    && Permuted(m.bundle.platforms, n.bundle.platforms)
    && Permuted(m.pairs, n.pairs)
    && n == m.(runtime := m.runtime.(platforms := n.runtime.platforms),
               bundle := m.bundle.(platforms := n.bundle.platforms), pairs := n.pairs)
  }

  lemma ReorderedParity(m: Manifest, n: Manifest)
    requires Reordered(m, n) && Parity(m)
    ensures Parity(n)
  {
    PermutedElements(m.runtime.platforms, n.runtime.platforms);
    PermutedKeys(RuntimePlatform, m.runtime.platforms, n.runtime.platforms);
    PermutedKeys(ExtensionPlatform, m.bundle.platforms, n.bundle.platforms);
    PermutedKeys(PairPlatform, m.pairs, n.pairs);
  }

  lemma ReorderedAgreement(m: Manifest, n: Manifest, o: Oracle)
    requires Reordered(m, n) && Agreement(m, o)
    ensures Agreement(n, o)
  {
    PermutedElements(m.runtime.platforms, n.runtime.platforms);
    PermutedElements(m.bundle.platforms, n.bundle.platforms);
    PermutedElements(m.pairs, n.pairs);
    forall r, x | Together(n, r, x)
      ensures Together(m, r, x) && (QualifiedFor(m, x, r) <==> QualifiedFor(n, x, r))
    {
    }
    assert forall r, x, p :: Joins(m, o, p, r, x) <==> Joins(n, o, p, r, x);
  }

  lemma ReorderedAdmissible(m: Manifest, n: Manifest, o: Oracle)
    requires Reordered(m, n) && Admissible(m, o)
    ensures Admissible(n, o)
  {
    PermutedElements(m.runtime.platforms, n.runtime.platforms);
    PermutedElements(m.bundle.platforms, n.bundle.platforms);
    ReorderedParity(m, n);
    ReorderedAgreement(m, n, o);
  }

  /** Admission does not depend on the order in which platforms and qualifications are listed. */
  lemma OrderDoesNotMatter(m: Manifest, n: Manifest, o: Oracle)
    requires Reordered(m, n)
    ensures Admissible(m, o) <==> Admissible(n, o)
  {
    if Admissible(m, o) {
      ReorderedAdmissible(m, n, o);
    }
    if Admissible(n, o) {
      ReorderedAdmissible(n, m, o);
    }
  }

  /** In an admissible manifest every runtime platform has exactly one extension and one pair, whose digests are
      the runtime's and the extension's own. */
  lemma PlatformsMatchOneToOne(m: Manifest, o: Oracle, r: Runtime) returns (x: Extension, p: Pair)
    requires Admissible(m, o) && r in m.runtime.platforms
    ensures x in m.bundle.platforms && p in m.pairs && x.platform == r.platform == p.platform
    ensures forall y :: y in m.bundle.platforms && y.platform == r.platform ==> y == x
    ensures forall q :: q in m.pairs && q.platform == r.platform ==> q == p
    ensures p.odooManifestDigest == r.manifestDigest == x.qualifiedRuntime.manifestDigest
    ensures p.extensionManifestDigest == x.manifestDigest && p.payloadDigest == x.payloadDigest
  {
    KeyIn(RuntimePlatform, m.runtime.platforms, r);
    x := KeyFrom(ExtensionPlatform, m.bundle.platforms, r.platform);
    p := KeyFrom(PairPlatform, m.pairs, r.platform);
    assert Together(m, r, x);
    forall y | y in m.bundle.platforms && y.platform == r.platform
      ensures y == x
    {
      KeyDecides(ExtensionPlatform, m.bundle.platforms, x, y);
    }
    forall q | q in m.pairs && q.platform == r.platform
      ensures q == p
    {
      KeyDecides(PairPlatform, m.pairs, p, q);
    }
  }

  /** And back: every pair stands for exactly one runtime and one extension. */
  lemma PairsMatchOneToOne(m: Manifest, o: Oracle, p: Pair) returns (r: Runtime, x: Extension)
    requires Admissible(m, o) && p in m.pairs
    ensures Together(m, r, x) && r.platform == p.platform && QualifiedFor(m, x, r) && Joins(m, o, p, r, x)
    ensures forall s, y :: Together(m, s, y) && s.platform == p.platform ==> s == r && y == x
  {
    KeyIn(PairPlatform, m.pairs, p);
    r := KeyFrom(RuntimePlatform, m.runtime.platforms, p.platform);
    x := KeyFrom(ExtensionPlatform, m.bundle.platforms, p.platform);
    forall s, y | Together(m, s, y) && s.platform == p.platform
      ensures s == r && y == x
    {
      KeyDecides(RuntimePlatform, m.runtime.platforms, r, s);
      KeyDecides(ExtensionPlatform, m.bundle.platforms, x, y);
    }
  }

  function SelectedPlatform(m: Manifest): Option<(Runtime, Extension, Pair)> {
    if |m.runtime.platforms| != 1 then None
    else
      var r := m.runtime.platforms[0];
      var x := Find(m.bundle.platforms, (v: Extension) => v.platform == r.platform);
      var p := PairFor(m, r.platform);
      if x.Some? && p.Some? then Some((r, x.value, p.value)) else None
  }

  /** Selection succeeds on an admissible manifest exactly when it has a single platform, and what it selects
      belongs together. */
  lemma SelectionIsTotal(m: Manifest, o: Oracle)
    requires Admissible(m, o)
    ensures SelectedPlatform(m).Some? <==> |m.runtime.platforms| == 1
    ensures SelectedPlatform(m).Some? ==>
              var (r, x, p) := SelectedPlatform(m).value;
              m.runtime.platforms == [r] && m.bundle.platforms == [x] && m.pairs == [p]
              && QualifiedFor(m, x, r) && Joins(m, o, p, r, x)
  {
    if |m.runtime.platforms| == 1 {
      ParityGivesEqualLengths(m);
      var r := m.runtime.platforms[0];
      var x, p := PlatformsMatchOneToOne(m, o, r);
      assert Together(m, r, x);
    }
  }
}
