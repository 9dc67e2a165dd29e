/** The bookkeeping of the model pipeline: the in-memory registry of model
    versions with its latest and production markers, promotion and
    retention cleanup; the retraining decision and training history; and the
    prediction log with its recent accuracy and drift check.

    Training, evaluation, model files and the registry's JSON file are left
    out: a training run is represented by its metrics, and the version
    string, creation time and path it would get from the clock and the file
    system are supplied by the caller. Metrics are modelled as a map from
    metric name to a real. */
module ModelPipeline {

  import opened Wrappers
  import opened Seqs
  import opened Sets
  import opened Sorting
  import opened Ratios
  import ResumeData

  type Metrics = map<string, real>

  /** One registered version. */
  datatype VersionInfo = VersionInfo(version: string, path: string, metrics: Metrics, createdAt: string)

  /** The registry entry of one model name. */
  datatype ModelEntry = ModelEntry(versions: seq<VersionInfo>, latest: Option<string>, production: Option<string>)

  function VersionName(v: VersionInfo): string {
    v.version
  }

  function Named(version: string): VersionInfo -> bool {
    (v: VersionInfo) => v.version == version
  }

  /** Record `k` is the first with that version string. */
  predicate FirstWith(versions: seq<VersionInfo>, version: string, k: int) {
    && 0 <= k < |versions|
    && versions[k].version == version
    && forall j :: 0 <= j < k ==> versions[j].version != version
  }

  /** The first version record with that version string: two versions
      registered within the same second share their string, and `next(...)`
      then finds the earlier record. */
  function FindVersion(versions: seq<VersionInfo>, version: string): (r: Option<VersionInfo>)
    ensures r.None? <==> version !in Map(versions, VersionName)
    ensures r.Some? ==> r.value in versions && r.value.version == version
    ensures r.Some? ==> exists k :: FirstWith(versions, version, k)
    ensures forall k :: FirstWith(versions, version, k) ==> r == Some(versions[k])
  {
    FirstNamed(versions, version);
    First(versions, Named(version))
  }

  lemma FirstNamed(versions: seq<VersionInfo>, version: string)
    ensures First(versions, Named(version)).None? <==> version !in Map(versions, VersionName)
    ensures First(versions, Named(version)).Some? ==> exists k :: FirstWith(versions, version, k)
    ensures forall k :: FirstWith(versions, version, k) ==> First(versions, Named(version)) == Some(versions[k])
  {
    forall k | FirstWith(versions, version, k)
      ensures First(versions, Named(version)) == Some(versions[k])
    {
      assert forall j :: 0 <= j < k ==> !Named(version)(versions[j]);
      FirstFromUnique(versions, 0, Named(version), k);
    }
    if First(versions, Named(version)).None? {
      forall i | 0 <= i < |versions| ensures Map(versions, VersionName)[i] != version {
        assert !Named(version)(versions[i]);
        assert Map(versions, VersionName)[i] == versions[i].version;
      }
    } else {
      var k := FirstFrom(versions, 0, Named(version));
      assert Map(versions, VersionName)[k] == version;
      assert FirstWith(versions, version, k);
    }
  }

  /** "latest" and "production" name the entry's markers; any other string
      names itself. */
  function Resolve(entry: ModelEntry, version: string): (r: Option<string>)
    ensures version == "latest" ==> r == entry.latest
    ensures version == "production" ==> r == entry.production
    ensures version != "latest" && version != "production" ==> r == Some(version)
  {
    if version == "latest" then entry.latest
    else if version == "production" then entry.production
    else Some(version)
  }

  /** The entry a first registration creates. */
  const EmptyEntry := ModelEntry([], None, None)

  /** The metrics of the version the string resolves to, if the model
      has such a version. */
  function MetricsOf(registry: map<string, ModelEntry>, name: string, version: string): (r: Option<Metrics>)
    ensures name !in registry ==> r.None?
    ensures r.Some? ==> exists v :: v in registry[name].versions && Resolve(registry[name], version) == Some(v.version)
                                    && r.value == v.metrics
    ensures forall k :: name in registry && Resolve(registry[name], version).Some?
                        && FirstWith(registry[name].versions, Resolve(registry[name], version).value, k)
                        ==> r == Some(registry[name].versions[k].metrics)
    ensures (name in registry && Resolve(registry[name], version).Some?
             && Resolve(registry[name], version).value in Map(registry[name].versions, VersionName)) ==> r.Some?
  {
    if name !in registry then None
    else
      match Resolve(registry[name], version)
      case None => None
      case Some(v) =>
        match FindVersion(registry[name].versions, v)
        case None => None
        case Some(info) => Some(info.metrics)
  }

  /** Whether a version resolves to a record with non-empty metrics. */
  predicate HasMetrics(registry: map<string, ModelEntry>, name: string, version: string) {
    MetricsOf(registry, name, version).Some? && MetricsOf(registry, name, version).value != map[]
  }

  function Compared(registry: map<string, ModelEntry>, name: string): string -> bool {
    (v: string) => HasMetrics(registry, name, v)
  }

  function MetricsValue(registry: map<string, ModelEntry>, name: string): string -> Metrics {
    (v: string) => MetricsOf(registry, name, v).GetOr(map[])
  }

  /** The keys of a list that pass `keep`, each with its value. */
  function Select<V>(keys: seq<string>, keep: string -> bool, val: string -> V): (m: map<string, V>)
    ensures forall k :: k in m <==> k in keys && keep(k)
    ensures forall k :: k in m ==> m[k] == val(k)
  {
    map k | k in keys && keep(k) :: val(k)
  }

  lemma SelectSnoc<V>(keys: seq<string>, k: string, keep: string -> bool, val: string -> V)
    ensures Select(keys + [k], keep, val) == if keep(k) then Select(keys, keep, val)[k := val(k)] else Select(keys, keep, val)
  {
  }

  /** The registry after one more version of a model: the record is
      appended and becomes the latest, the first registration of a name
      creating its entry. */
  function Registered(registry: map<string, ModelEntry>, name: string, info: VersionInfo): map<string, ModelEntry> {
    var e := if name in registry then registry[name] else EmptyEntry;
    registry[name := ModelEntry(e.versions + [info], Some(info.version), e.production)]
  }

  /** Registration keeps every other model and the production marker,
      makes the new version the latest, and a version string not used
      before then resolves, as "latest", to the new metrics. */
  lemma RegisteredLatest(registry: map<string, ModelEntry>, name: string, info: VersionInfo)
    ensures var r := Registered(registry, name, info);
            name in r && r[name].latest == Some(info.version)
            && (forall n :: n in registry && n != name ==> n in r && r[n] == registry[n])
            && r[name].production == (if name in registry then registry[name].production else None)
            && info.version in Map(r[name].versions, VersionName)
    ensures (name !in registry || info.version !in Map(registry[name].versions, VersionName)) ==>
            MetricsOf(Registered(registry, name, info), name, "latest") == Some(info.metrics)
  {
    var e := if name in registry then registry[name] else EmptyEntry;
    var vs := e.versions + [info];
    MapSnoc(e.versions, info, VersionName);
    assert Map(vs, VersionName)[|e.versions|] == info.version;
    if info.version !in Map(e.versions, VersionName) {
      FirstNamed(e.versions, info.version);
      FirstNamedSnoc(e.versions, info);
    }
  }

  /** A version string new to a list is found at the record appended for it. */
  lemma FirstNamedSnoc(versions: seq<VersionInfo>, info: VersionInfo)
    requires First(versions, Named(info.version)).None?
    ensures First(versions + [info], Named(info.version)) == Some(info)
  {
    var vs := versions + [info];
    assert forall j :: 0 <= j < |versions| ==> vs[j] == versions[j];
    assert Named(info.version)(vs[|versions|]);
    FirstFromUnique(vs, 0, Named(info.version), |versions|);
  }

  /** Newer first: `sorted(key=created_at, reverse=True)` on the ISO
      timestamp strings. */
  function NewerFirst(): (VersionInfo, VersionInfo) -> bool {
    (a: VersionInfo, b: VersionInfo) => StrLt(b.createdAt, a.createdAt)
  }

  lemma NewerFirstStrict()
    ensures StrictOrder(NewerFirst())
  {
    forall a: VersionInfo ensures !StrLt(a.createdAt, a.createdAt) {
      StrLtIrreflexive(a.createdAt);
    }
    forall a: VersionInfo, b: VersionInfo, c: VersionInfo | StrLt(b.createdAt, a.createdAt) && StrLt(c.createdAt, b.createdAt)
      ensures StrLt(c.createdAt, a.createdAt)
    {
      StrLtTransitive(c.createdAt, b.createdAt, a.createdAt);
    }
  }

  /** `s[:k]`, a negative `k` counting from the end. */
  function PyPrefix<T>(s: seq<T>, k: int): (r: seq<T>)
    ensures |r| <= |s| && r == s[..|r|]
    ensures 0 <= k ==> |r| == if k <= |s| then k else |s|
    ensures k < 0 ==> |r| == if -k <= |s| then |s| + k else 0
  {
    if 0 <= k then (if k <= |s| then s[..k] else s)
    else if -k <= |s| then s[..|s| + k]
    else []
  }

  /** The `keepLast` newest records. */
  function Newest(versions: seq<VersionInfo>, keepLast: int): seq<VersionInfo> {
    PyPrefix(Sort(versions, NewerFirst()), keepLast)
  }

  /** The version strings a cleanup keeps: those of the newest records and
      the production version when it is set. */
  function KeepSet(entry: ModelEntry, keepLast: int): set<string> {
    SetOf(Map(Newest(entry.versions, keepLast), VersionName))
    + (if ResumeData.Truthy(entry.production) then {entry.production.value} else {})
  }

  function Kept(keep: set<string>): VersionInfo -> bool {
    (v: VersionInfo) => v.version in keep
  }

  function Dropped(keep: set<string>): VersionInfo -> bool {
    (v: VersionInfo) => v.version !in keep
  }

  /** The count of removed records and the records left make up the old
      list: nothing is lost and nothing invented. */
  lemma CleanupPartition(versions: seq<VersionInfo>, keep: set<string>)
    ensures |Filter(versions, Kept(keep))| + |Filter(versions, Dropped(keep))| == |versions|
    ensures multiset(Filter(versions, Kept(keep))) + multiset(Filter(versions, Dropped(keep))) == multiset(versions)
  {
    FilterPartition(versions, Kept(keep), Dropped(keep));
  }

  /** A cleanup keeps every one of the newest records (there are
      `keepLast` of them when the list is longer) and every record of the
      production version. */
  lemma CleanupKeeps(entry: ModelEntry, keepLast: int, v: VersionInfo)
    ensures 0 <= keepLast < |entry.versions| ==> |Newest(entry.versions, keepLast)| == keepLast
    ensures v in Newest(entry.versions, keepLast) ==> v in entry.versions && Kept(KeepSet(entry, keepLast))(v)
    ensures ResumeData.Truthy(entry.production) && v.version == entry.production.value ==> Kept(KeepSet(entry, keepLast))(v)
  {
    var newest := Newest(entry.versions, keepLast);
    if v in newest {
      var i :| 0 <= i < |newest| && newest[i] == v;
      assert Sort(entry.versions, NewerFirst())[i] == v;
      SortMembers(entry.versions, NewerFirst(), v);
      MapMember(newest, VersionName, v);
    }
  }

  /** A removed record is not the production version, and none of the
      newest records was created before it. */
  lemma CleanupDropsOlder(entry: ModelEntry, keepLast: int, v: VersionInfo, w: VersionInfo)
    requires v in entry.versions && Dropped(KeepSet(entry, keepLast))(v)
    requires w in Newest(entry.versions, keepLast)
    ensures !(ResumeData.Truthy(entry.production) && v.version == entry.production.value)
    ensures !StrLt(w.createdAt, v.createdAt)
  {
    var sorted := Sort(entry.versions, NewerFirst());
    var newest := Newest(entry.versions, keepLast);
    NewerFirstStrict();
    SortSorted(entry.versions, NewerFirst());
    SortMembers(entry.versions, NewerFirst(), v);
    var j :| 0 <= j < |sorted| && sorted[j] == v;
    var i :| 0 <= i < |newest| && newest[i] == w;
    CleanupKeeps(entry, keepLast, v);
    assert v !in newest;
    assert forall k :: 0 <= k < |newest| ==> sorted[k] == newest[k];
    assert i < |newest| <= j;
    assert sorted[i] == w;
    assert !NewerFirst()(sorted[j], sorted[i]);
  }

  /** One step of the comparison loop: the metrics found for the next
      version are added exactly when they are non-empty. */
  lemma CompareStep(registry: map<string, ModelEntry>, name: string, keys: seq<string>, i: nat, m: Option<Metrics>)
    requires i < |keys| && m == MetricsOf(registry, name, keys[i])
    ensures Select(keys[..i + 1], Compared(registry, name), MetricsValue(registry, name))
            == if m.Some? && m.value != map[] then Select(keys[..i], Compared(registry, name), MetricsValue(registry, name))[keys[i] := m.value]
               else Select(keys[..i], Compared(registry, name), MetricsValue(registry, name))
  {
    assert keys[..i + 1] == keys[..i] + [keys[i]];
    SelectSnoc(keys[..i], keys[i], Compared(registry, name), MetricsValue(registry, name));
  }

  class ModelRegistry {
    var registry: map<string, ModelEntry>

    constructor ()
      ensures registry == map[]
    {
      registry := map[];
    }

    function EntryOf(name: string): ModelEntry
      reads this
    {
      if name in registry then registry[name] else EmptyEntry
    }

    /** Appends one version record and makes it the latest; the first
        registration of a name creates its entry first. */
    method RegisterModel(name: string, metrics: Metrics, version: string, path: string, createdAt: string)
      returns (v: string)
      modifies this
      ensures v == version
      ensures registry == Registered(old(registry), name, VersionInfo(version, path, metrics, createdAt))
    {
      if name !in registry {
        registry := registry[name := EmptyEntry];
      }
      var e := registry[name];
      registry := registry[name := e.(versions := e.versions + [VersionInfo(version, path, metrics, createdAt)])];
      registry := registry[name := registry[name].(latest := Some(version))];
      return version;
    }

    /** Points production at a version that exists; an unknown model or
        version changes nothing. */
    method PromoteToProduction(name: string, version: string) returns (ok: bool)
      modifies this
      ensures ok <==> name in old(registry) && version in Map(old(registry)[name].versions, VersionName)
      ensures ok ==> registry == old(registry)[name := old(registry)[name].(production := Some(version))]
      ensures !ok ==> registry == old(registry)
    {
      if name !in registry {
        return false;
      }
      var found := FindVersion(registry[name].versions, version);
      if found.None? {
        return false;
      }
      registry := registry[name := registry[name].(production := Some(version))];
      return true;
    }

    /** The versions of a model, or none for an unknown model. */
    function ListVersions(name: string): (vs: seq<VersionInfo>)
      reads this
      ensures name !in registry ==> vs == []
      ensures name in registry ==> vs == registry[name].versions
    {
      if name in registry then registry[name].versions else []
    }

    /** The metrics of the version the string resolves to. */
    function GetMetrics(name: string, version: string): (r: Option<Metrics>)
      reads this
      ensures r == MetricsOf(registry, name, version)
    {
      MetricsOf(registry, name, version)
    }

    /** The requested versions that have non-empty metrics, with them. */
    function Comparison(name: string, versions: seq<string>): (c: map<string, Metrics>)
      reads this
      ensures forall v :: v in c <==> v in versions && HasMetrics(registry, name, v)
      ensures forall v :: v in c ==> MetricsOf(registry, name, v) == Some(c[v])
    {
      Select(versions, Compared(registry, name), MetricsValue(registry, name))
    }

    /** The loop that collects each requested version whose metrics are
        non-empty. */
    method CompareVersions(name: string, versions: seq<string>) returns (c: map<string, Metrics>)
      ensures c == Comparison(name, versions)
      ensures name !in registry ==> c == map[]
    {
      c := map[];
      if name !in registry {
        assert forall v :: !HasMetrics(registry, name, v);
        return;
      }
      for i := 0 to |versions|
        invariant c == Select(versions[..i], Compared(registry, name), MetricsValue(registry, name))
      {
        var m := GetMetrics(name, versions[i]);
        CompareStep(registry, name, versions, i, m);
        if m.Some? && m.value != map[] {
          c := c[versions[i] := m.value];
        }
      }
      assert versions[..|versions|] == versions;
    }

    /** Keeps the `keepLast` newest records and the production version,
        removes the other records in their original order, and returns how
        many were removed; an unknown model or a list no longer than
        `keepLast` changes nothing. */
    method CleanupOldVersions(name: string, keepLast: int) returns (removed: nat)
      modifies this
      ensures name !in old(registry) || |old(registry)[name].versions| <= keepLast ==>
                removed == 0 && registry == old(registry)
      ensures name in old(registry) && |old(registry)[name].versions| > keepLast ==>
                var e := old(registry)[name];
                var keep := KeepSet(e, keepLast);
                removed == |Filter(e.versions, Dropped(keep))|
                && registry == old(registry)[name := e.(versions := Filter(e.versions, Kept(keep)))]
    {
      if name !in registry {
        return 0;
      }
      var e := registry[name];
      var versions := e.versions;
      if |versions| <= keepLast {
        return 0;
      }
      var newest := PyPrefix(Sort(versions, NewerFirst()), keepLast);
      var keep := CollectVersions(newest);
      var production := e.production;
      if production.Some? && production.value != [] {
        keep := keep + {production.value};
      }
      assert keep == KeepSet(e, keepLast);
      removed := CountDropped(versions, keep);
      registry := registry[name := e.(versions := Filter(versions, Kept(keep)))];
    }
  }

  /** The set of version strings of a list of records, one at a time. */
  method CollectVersions(records: seq<VersionInfo>) returns (keep: set<string>)
    ensures keep == SetOf(Map(records, VersionName))
  {
    keep := {};
    for i := 0 to |records|
      invariant keep == SetOf(Map(records[..i], VersionName))
    {
      assert records[..i + 1] == records[..i] + [records[i]];
      MapSnoc(records[..i], records[i], VersionName);
      SetOfSnoc(Map(records[..i], VersionName), records[i].version);
      keep := keep + {records[i].version};
    }
    assert records[..|records|] == records;
  }

  /** The records whose version is not kept, counted one at a time. */
  method CountDropped(versions: seq<VersionInfo>, keep: set<string>) returns (n: nat)
    ensures n == |Filter(versions, Dropped(keep))|
  {
    n := 0;
    for i := 0 to |versions|
      invariant n == |Filter(versions[..i], Dropped(keep))|
    {
      FilterStep(versions, i, Dropped(keep));
      if Dropped(keep)(versions[i]) {
        n := n + 1;
      }
    }
    assert versions[..|versions|] == versions;
  }

  // ------------------------------------------------------------ training

  /** One finished training run: its metrics, and the version string,
      model path and timestamps it would get from the clock and the file
      system. */
  datatype TrainingRun = TrainingRun(metrics: Metrics, version: string, path: string, createdAt: string, finishedAt: string)

  /** One entry of the training history. */
  datatype TrainingRecord = TrainingRecord(modelName: string, version: string, metrics: Metrics, timestamp: string)

  datatype RetrainReason = NoProductionModel | BelowThreshold(accuracy: real)

  /** `metrics.get("accuracy", 0)`. */
  function AccuracyOr0(m: Metrics): real {
    if "accuracy" in m then m["accuracy"] else 0.0
  }

  /** Whether the production metrics call for retraining, and why. The
      reason message reads the accuracy key directly, so metrics without an
      accuracy under a positive threshold end in a `KeyError`. */
  function RetrainDecision(current: Option<Metrics>, threshold: real): (r: Result<Option<RetrainReason>, string>)
    ensures r.Failure? <==> current.Some? && current.value != map[] && "accuracy" !in current.value && 0.0 < threshold
    ensures r.Success? ==> (r.value.Some? <==> current.None? || current.value == map[] || AccuracyOr0(current.value) < threshold)
    ensures r == Success(Some(NoProductionModel)) <==> current.None? || current.value == map[]
    ensures r.Success? && r.value.Some? && r.value.value.BelowThreshold? ==>
              current.Some? && "accuracy" in current.value
              && r.value.value.accuracy == current.value["accuracy"] && r.value.value.accuracy < threshold
  {
    if current.None? || current.value == map[] then Success(Some(NoProductionModel))
    else if AccuracyOr0(current.value) < threshold then
      if "accuracy" in current.value then Success(Some(BelowThreshold(current.value["accuracy"])))
      else Failure("KeyError: 'accuracy'")
    else Success(None)
  }

  datatype RetrainOutcome =
    | Retrained(version: string, metrics: Metrics, promoted: bool, reason: RetrainReason)
    | NotRetrained(currentMetrics: Option<Metrics>)

  function ForModel(name: string): TrainingRecord -> bool {
    (h: TrainingRecord) => h.modelName == name
  }

  /** The history of one model when a name is given, else all of it. */
  function HistoryOf(history: seq<TrainingRecord>, name: Option<string>): (h: seq<TrainingRecord>)
    ensures |h| <= |history|
    ensures !ResumeData.Truthy(name) ==> h == history
  {
    if ResumeData.Truthy(name) then Filter(history, ForModel(name.value)) else history
  }

  /** Asking for one model gives exactly its records, in recorded order. */
  lemma HistoryOfMeaning(history: seq<TrainingRecord>, name: string, t: TrainingRecord)
    requires name != []
    ensures t in HistoryOf(history, Some(name)) <==> t in history && t.modelName == name
    ensures |HistoryOf(history, Some(name))| == |history| <==> forall i :: 0 <= i < |history| ==> history[i].modelName == name
  {
    FilterMember(history, ForModel(name), t);
    FilterLength(history, ForModel(name));
  }

  class ModelTrainer {
    const registry: ModelRegistry
    var trainingHistory: seq<TrainingRecord>

    constructor (registry: ModelRegistry)
      ensures this.registry == registry && trainingHistory == []
    {
      this.registry := registry;
      trainingHistory := [];
    }

    /** The bookkeeping half of `train_and_evaluate`: registers the run's
        version and records it in the history. */
    method TrainAndEvaluate(name: string, run: TrainingRun) returns (version: string)
      modifies this, registry
      ensures version == run.version
      ensures registry.registry == Registered(old(registry.registry), name, VersionInfo(run.version, run.path, run.metrics, run.createdAt))
      ensures trainingHistory == old(trainingHistory) + [TrainingRecord(name, run.version, run.metrics, run.finishedAt)]
    {
      version := registry.RegisterModel(name, run.metrics, run.version, run.path, run.createdAt);
      trainingHistory := trainingHistory + [TrainingRecord(name, version, run.metrics, run.finishedAt)];
    }

    /** Retrains when the production metrics call for it, and promotes the
        new version exactly when its accuracy reaches the threshold;
        otherwise nothing changes. */
    method AutoRetrainIfNeeded(name: string, run: TrainingRun, threshold: real) returns (r: Result<RetrainOutcome, string>)
      requires "accuracy" in run.metrics
      modifies this, registry
      ensures var d := RetrainDecision(MetricsOf(old(registry.registry), name, "production"), threshold);
              (d.Failure? ==>
                 (r == Failure(d.error)
                  && registry.registry == old(registry.registry) && trainingHistory == old(trainingHistory)))
              && (d == Success(None) ==>
                 (r == Success(NotRetrained(MetricsOf(old(registry.registry), name, "production")))
                  && registry.registry == old(registry.registry) && trainingHistory == old(trainingHistory)))
              && (d.Success? && d.value.Some? ==>
                   var promoted := run.metrics["accuracy"] >= threshold;
                   var reg := Registered(old(registry.registry), name, VersionInfo(run.version, run.path, run.metrics, run.createdAt));
                   r == Success(Retrained(run.version, run.metrics, promoted, d.value.value))
                   && trainingHistory == old(trainingHistory) + [TrainingRecord(name, run.version, run.metrics, run.finishedAt)]
                   && registry.registry == (if promoted then reg[name := reg[name].(production := Some(run.version))] else reg))
    {
      var current := registry.GetMetrics(name, "production");
      var d := RetrainDecision(current, threshold);
      if d.Failure? {
        return Failure(d.error);
      }
      if d.value.None? {
        return Success(NotRetrained(current));
      }
      var version := TrainAndEvaluate(name, run);
      ghost var reg := registry.registry;
      RegisteredLatest(old(registry.registry), name, VersionInfo(run.version, run.path, run.metrics, run.createdAt));
      var promoted := false;
      if run.metrics["accuracy"] >= threshold {
        var ok := registry.PromoteToProduction(name, version);
        assert ok;
        promoted := true;
      }
      return Success(Retrained(version, run.metrics, promoted, d.value.value));
    }

    function GetTrainingHistory(name: Option<string>): (h: seq<TrainingRecord>)
      reads this
      ensures h == HistoryOf(trainingHistory, name)
    {
      HistoryOf(trainingHistory, name)
    }
  }

  // ---------------------------------------------------------- monitoring

  /** One logged prediction; `correct` is set exactly when the actual
      outcome is known. Timestamps are seconds. */
  datatype LogEntry<P> = LogEntry(timestamp: real, modelName: string, modelVersion: string, prediction: P,
                                  actual: Option<P>, confidence: Option<real>, correct: Option<bool>)

  datatype PerformanceReport = PerformanceReport(modelName: string, hours: int, total: nat, withFeedback: nat,
                                                 accuracy: Option<real>, averageConfidence: Option<real>)

  function IsRecent<P>(name: string, cutoff: real): LogEntry<P> -> bool {
    (e: LogEntry<P>) => e.modelName == name && e.timestamp > cutoff
  }

  function HasFeedback<P>(): LogEntry<P> -> bool {
    (e: LogEntry<P>) => e.actual.Some?
  }

  function IsCorrect<P>(): LogEntry<P> -> bool {
    (e: LogEntry<P>) => e.correct == Some(true)
  }

  function HasConfidence<P>(): LogEntry<P> -> bool {
    (e: LogEntry<P>) => e.confidence.Some?
  }

  function ConfidenceOf<P>(e: LogEntry<P>): real {
    e.confidence.GetOr(0.0)
  }

  function Sum(xs: seq<real>): real {
    if xs == [] then 0.0 else xs[0] + Sum(xs[1..])
  }

  /** The sum of values in `[lo, hi]` lies between `n * lo` and `n * hi`. */
  lemma {:induction false} SumBounds(xs: seq<real>, lo: real, hi: real)
    requires forall i :: 0 <= i < |xs| ==> lo <= xs[i] <= hi
    ensures |xs| as real * lo <= Sum(xs) <= |xs| as real * hi
  {
    if xs != [] {
      SumBounds(xs[1..], lo, hi);
    }
  }

  /** `np.mean`. */
  function Mean(xs: seq<real>): real
    requires xs != []
  {
    Sum(xs) / |xs| as real
  }

  /** A mean of values in `[lo, hi]` is in `[lo, hi]`. */
  lemma MeanBounds(xs: seq<real>, lo: real, hi: real)
    requires xs != []
    requires forall i :: 0 <= i < |xs| ==> lo <= xs[i] <= hi
    ensures lo <= Mean(xs) <= hi
  {
    var n := |xs| as real;
    SumBounds(xs, lo, hi);
    DivMonotone(n * lo, Sum(xs), n);
    DivMonotone(Sum(xs), n * hi, n);
    assert (n * lo) / n == lo && (n * hi) / n == hi;
  }

  /** The entries of one model logged after the cutoff. */
  function RecentLogs<P>(log: seq<LogEntry<P>>, name: string, hours: int, now: real): seq<LogEntry<P>> {
    Filter(log, IsRecent(name, now - (hours * 3600) as real))
  }

  /** The recent entries of one model: how many, how many with feedback,
      the share of those that were correct, and the mean of the given
      confidences; an error when there are no recent entries. */
  function PerformanceOf<P>(log: seq<LogEntry<P>>, name: string, hours: int, now: real): (r: Result<PerformanceReport, string>)
    ensures r.Failure? <==> RecentLogs(log, name, hours, now) == []
    ensures r.Success? ==> r.value.withFeedback <= r.value.total <= |log|
    ensures r.Success? ==> (r.value.accuracy.None? <==> r.value.withFeedback == 0)
    ensures r.Success? && r.value.accuracy.Some? ==> InUnit(r.value.accuracy.value)
  {
    var recent := RecentLogs(log, name, hours, now);
    if recent == [] then Failure("No recent predictions found")
    else
      var withActual := Filter(recent, HasFeedback());
      var correct := Filter(withActual, IsCorrect());
      var confidences := Map(Filter(recent, HasConfidence()), ConfidenceOf);
      Success(PerformanceReport(name, hours, |recent|, |withActual|,
                                if withActual == [] then None else Some(Ratio(|correct|, |withActual|)),
                                if confidences == [] then None else Some(Mean(confidences))))
  }

  /** Recent accuracy is 1 exactly when every recent prediction with
      feedback was correct, and 0 exactly when none was. */
  lemma AccuracyMeaning<P>(log: seq<LogEntry<P>>, name: string, hours: int, now: real)
    requires PerformanceOf(log, name, hours, now).Success?
    requires PerformanceOf(log, name, hours, now).value.accuracy.Some?
    ensures var acc := PerformanceOf(log, name, hours, now).value.accuracy.value;
            var withActual := Filter(RecentLogs(log, name, hours, now), HasFeedback());
            (acc == 1.0 <==> forall i :: 0 <= i < |withActual| ==> withActual[i].correct == Some(true))
            && (acc == 0.0 <==> forall i :: 0 <= i < |withActual| ==> withActual[i].correct != Some(true))
  {
    var withActual := Filter(RecentLogs(log, name, hours, now), HasFeedback());
    assert PerformanceOf(log, name, hours, now).value.accuracy == Some(Ratio(|Filter(withActual, IsCorrect())|, |withActual|));
    FilterShare(withActual, IsCorrect());
    assert forall i :: 0 <= i < |withActual| ==> (IsCorrect()(withActual[i]) <==> withActual[i].correct == Some(true));
  }

  /** The share of a list that passes a test is 1 exactly when all pass,
      and 0 exactly when none does. */
  lemma FilterShare<T>(s: seq<T>, p: T -> bool)
    requires s != []
    ensures Ratio(|Filter(s, p)|, |s|) == 1.0 <==> forall i :: 0 <= i < |s| ==> p(s[i])
    ensures Ratio(|Filter(s, p)|, |s|) == 0.0 <==> forall i :: 0 <= i < |s| ==> !p(s[i])
  {
    FilterLength(s, p);
  }

  /** When every logged confidence is in the unit interval, so is the
      average. */
  lemma ConfidenceBounds<P>(log: seq<LogEntry<P>>, name: string, hours: int, now: real)
    requires forall i :: 0 <= i < |log| ==> log[i].confidence.Some? ==> InUnit(log[i].confidence.value)
    requires PerformanceOf(log, name, hours, now).Success?
    ensures var c := PerformanceOf(log, name, hours, now).value.averageConfidence;
            c.Some? ==> InUnit(c.value)
  {
    var recent := RecentLogs(log, name, hours, now);
    var given := Filter(recent, HasConfidence());
    var confidences := Map(given, ConfidenceOf);
    if confidences != [] {
      forall i | 0 <= i < |confidences| ensures 0.0 <= confidences[i] <= 1.0 {
        assert given[i] in recent && given[i].confidence.Some?;
        var k :| 0 <= k < |log| && log[k] == given[i];
      }
      MeanBounds(confidences, 0.0, 1.0);
    }
  }

  datatype DriftReport =
    | InsufficientData
    | DriftChecked(driftDetected: bool, current: PerformanceReport, threshold: real)

  /** Drift is flagged when the recent accuracy is below `1 - threshold`;
      without an accuracy there is too little data. */
  function DriftOf(perf: Result<PerformanceReport, string>, threshold: real): (d: DriftReport)
    ensures d.InsufficientData? <==> perf.Failure? || perf.value.accuracy.None?
    ensures d.DriftChecked? ==> d.current == perf.value
                                && (d.driftDetected <==> perf.value.accuracy.value < 1.0 - threshold)
  {
    if perf.Failure? || perf.value.accuracy.None? then InsufficientData
    else DriftChecked(perf.value.accuracy.value < 1.0 - threshold, perf.value, threshold)
  }

  /** With a non-negative threshold, flagged drift means some recent
      prediction with feedback was wrong. */
  lemma DriftMeansMistake<P>(log: seq<LogEntry<P>>, name: string, now: real, threshold: real)
    requires 0.0 <= threshold
    requires DriftOf(PerformanceOf(log, name, 24, now), threshold).DriftChecked?
    requires DriftOf(PerformanceOf(log, name, 24, now), threshold).driftDetected
    ensures exists e :: e in log && IsRecent(name, now - 86400.0)(e) && e.actual.Some? && e.correct != Some(true)
  {
    var recent := RecentLogs(log, name, 24, now);
    var withActual := Filter(recent, HasFeedback());
    AccuracyMeaning(log, name, 24, now);
    var i :| 0 <= i < |withActual| && withActual[i].correct != Some(true);
    assert withActual[i] in recent;
  }

  class ModelMonitor<P(==)> {
    var predictionsLog: seq<LogEntry<P>>

    constructor ()
      ensures predictionsLog == []
    {
      predictionsLog := [];
    }

    /** Appends one prediction; it is marked correct or not exactly when
        the actual outcome is given. */
    method LogPrediction(name: string, version: string, prediction: P, actual: Option<P>, confidence: Option<real>, now: real)
      modifies this
      ensures predictionsLog == old(predictionsLog) + [LogEntry(now, name, version, prediction, actual, confidence,
                                                                 if actual.Some? then Some(prediction == actual.value) else None)]
    {
      var correct := if actual.Some? then Some(prediction == actual.value) else None;
      predictionsLog := predictionsLog + [LogEntry(now, name, version, prediction, actual, confidence, correct)];
    }

    function GetRecentPerformance(name: string, hours: int, now: real): (r: Result<PerformanceReport, string>)
      reads this
      ensures r == PerformanceOf(predictionsLog, name, hours, now)
    {
      PerformanceOf(predictionsLog, name, hours, now)
    }

    /** The day's performance checked against the threshold. */
    function CheckForDrift(name: string, threshold: real, now: real): (d: DriftReport)
      reads this
      ensures d == DriftOf(PerformanceOf(predictionsLog, name, 24, now), threshold)
    {
      DriftOf(PerformanceOf(predictionsLog, name, 24, now), threshold)
    }
  }
}
