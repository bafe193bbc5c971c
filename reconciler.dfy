/**
 * The reconciler of pkg/rpdac/reportportal.go: the choice of service by object kind, the kind
 * switch that decodes an object file, ApplyObject's create / skip / update decision against a
 * remote store, and Apply's best-effort walk over a directory. The remote ReportPortal services
 * are modelled as stores keyed by project and object name that log every mutating call.
 */
module Reconciler {
  import opened Wrappers
  import opened Kind
  import Strings
  import Dashboards
  import Filters
  import Wire

  /** The objects the reconciler handles (the Object interface, reportportal.go:26-30). */
  datatype Object = DashboardObject(dashboard: Dashboards.Dashboard) | FilterObject(filter: Filters.Filter)

  /** Object.GetName. */
  function GetName(o: Object): (name: string)
    ensures o.DashboardObject? ==> name == o.dashboard.name
    ensures o.FilterObject? ==> name == Filters.GetName(o.filter)
  {
    match o
    case DashboardObject(d) => d.name
    case FilterObject(f) => Filters.GetName(f)
  }

  /**
   * Object.GetKind: a dashboard always reports the Dashboard kind, a filter reports its kind
   * field (filter.go:44-46).
   */
  function GetKind(o: Object): (kind: ObjectKind)
    ensures o.DashboardObject? ==> kind == DashboardKind
    ensures o.FilterObject? ==> kind == o.filter.kind
  {
    match o
    case DashboardObject(_) => DashboardKind
    case FilterObject(f) => Filters.GetKind(f)
  }

  /** Object.Equals: the kind's own equality; objects of different kinds never compare equal. */
  predicate ObjectEquals(a: Object, b: Object) {
    match (a, b)
    case (DashboardObject(x), DashboardObject(y)) => Dashboards.DashboardEquals(x, y)
    case (FilterObject(x), FilterObject(y)) => Filters.FilterEquals(x, y)
    case _ => false
  }

  lemma ObjectEqualsReflexive(o: Object)
    ensures ObjectEquals(o, o)
  {
    match o
    case DashboardObject(d) => Dashboards.DashboardEqualsReflexive(d);
    case FilterObject(f) => Filters.FilterEqualsReflexiveSymmetric(f, f);
  }

  /** Why UnmarshalObject fails: a YAML error, or a kind the switch refuses (reportportal.go:248). */
  datatype UnmarshalError = YamlError(message: string) | NotSupportedByExport(kind: string)

  /** The errors the reconciler returns, one per `return` of an error in reportportal.go. */
  datatype Error =
    | UnsupportedKind(kindName: string)
    | RetrieveFailed(kind: ObjectKind, name: string, lookupCause: string)
    | WriteFailed(project: string, name: string)
    | ReadFailed(file: string)
    | DecodeFailed(file: string, cause: UnmarshalError)
    | NotAFileOrDirectory(file: string)
    | StatFailed(statCause: string)
    | DirectoryWithoutRecursive(file: string)
    | SomeObjectsFailed

  /** The two services of a ReportPortal. */
  datatype ServiceName = DashboardService | FilterService

  /** ReportPortal.Service (reportportal.go:57-66). */
  function Service(kind: ObjectKind): (r: Result<ServiceName, Error>)
    ensures r == Ok(DashboardService) <==> kind == DashboardKind
    ensures r == Ok(FilterService) <==> kind == FilterKind
    ensures r.Err? ==> r.error == UnsupportedKind(String(kind)) && String(kind) == ""
  {
    if kind == DashboardKind then Ok(DashboardService)
    else if kind == FilterKind then Ok(FilterService)
    else Err(UnsupportedKind(String(kind)))
  }

  /** Every kind is served, except those that have no name; UnknownKind is one of them. */
  lemma ServiceSupportsNamedKinds(kind: ObjectKind)
    ensures Service(kind).Ok? <==> kind in Kinds
    ensures Service(UnknownKind).Err?
  {
  }

  /**
   * What the two YAML decodings of an object file yield: the `kind` key of the generic header
   * (None when the key is absent, Err when the document or the key is malformed), and the file
   * decoded as a dashboard and as a filter.
   */
  datatype Document = Document(kindTag: Result<Option<string>, string>,
                               asDashboard: Result<Dashboards.Dashboard, string>,
                               asFilter: Result<Filters.Filter, string>)

  /**
   * The first decoding, into a GenericObject: an absent key leaves the zero kind UnknownKind and
   * a tag goes through ObjectKind.UnmarshalYAML on a zero kind.
   */
  function GenericKind(doc: Document): (r: Result<ObjectKind, UnmarshalError>)
    ensures doc.kindTag.Err? <==> r.Err?
    ensures r.Err? ==> r.error == YamlError(doc.kindTag.error)
    ensures r.Ok? ==> r.value == UnknownKind || r.value == DashboardKind || r.value == FilterKind
  {
    match doc.kindTag
    case Err(m) => Err(YamlError(m))
    case Ok(None) => Ok(UnknownKind)
    case Ok(Some(tag)) =>
      TagRoundTrip(DashboardKind, UnknownKind);
      TagRoundTrip(FilterKind, UnknownKind);
      Ok(KindFromTag(tag, UnknownKind))
  }

  /**
   * The kind switch of UnmarshalObject (reportportal.go:239-254): Dashboard and UnknownKind decode a
   * dashboard, Filter a filter, anything else is refused. The second decoding reads the same `kind`
   * key, so the object's kind field is the kind switched on.
   */
  function ObjectForKind(kind: ObjectKind, doc: Document): (r: Result<Object, UnmarshalError>)
    ensures kind == DashboardKind || kind == UnknownKind ==>
              (r.Ok? <==> doc.asDashboard.Ok?) &&
              (r.Ok? ==> r.value == DashboardObject(doc.asDashboard.value.(kind := kind)))
    ensures kind == FilterKind ==>
              (r.Ok? <==> doc.asFilter.Ok?) &&
              (r.Ok? ==> r.value == FilterObject(doc.asFilter.value.(kind := kind)))
    ensures kind !in Kinds && kind != UnknownKind ==> r == Err(NotSupportedByExport(""))
  {
    if kind == DashboardKind || kind == UnknownKind then
      match doc.asDashboard
      case Err(m) => Err(YamlError(m))
      case Ok(d) => Ok(DashboardObject(d.(kind := kind)))
    else if kind == FilterKind then
      match doc.asFilter
      case Err(m) => Err(YamlError(m))
      case Ok(f) => Ok(FilterObject(f.(kind := kind)))
    else Err(NotSupportedByExport(String(kind)))
  }

  /** UnmarshalObject (reportportal.go:230-256). */
  function UnmarshalObject(doc: Document): Result<Object, UnmarshalError> {
    var kind :- GenericKind(doc);
    ObjectForKind(kind, doc)
  }

  /**
   * The dispatch on the tag: "Filter" decodes a filter, and "Dashboard", a missing key or any
   * tag the kinds table does not name decodes a dashboard.
   */
  lemma UnmarshalObjectDispatch(doc: Document)
    requires doc.kindTag.Ok?
    ensures doc.kindTag.value == Some("Filter") ==>
              UnmarshalObject(doc) == if doc.asFilter.Ok? then Ok(FilterObject(doc.asFilter.value.(kind := FilterKind)))
                                      else Err(YamlError(doc.asFilter.error))
    ensures doc.kindTag.value == Some("Dashboard") ==>
              UnmarshalObject(doc) == if doc.asDashboard.Ok? then Ok(DashboardObject(doc.asDashboard.value.(kind := DashboardKind)))
                                      else Err(YamlError(doc.asDashboard.error))
    ensures doc.kindTag.value != Some("Filter") && doc.kindTag.value != Some("Dashboard") ==>
              UnmarshalObject(doc) == if doc.asDashboard.Ok? then Ok(DashboardObject(doc.asDashboard.value.(kind := UnknownKind)))
                                      else Err(YamlError(doc.asDashboard.error))
  {
  }

  /**
   * The default branch of the switch (reportportal.go:247-248) is unreachable: the tag decoding
   * only yields named kinds or UnknownKind. Every decoded object has a kind Service accepts.
   */
  lemma UnmarshalObjectAlwaysServed(doc: Document)
    ensures UnmarshalObject(doc).Err? ==> UnmarshalObject(doc).error.YamlError?
    ensures UnmarshalObject(doc).Ok? ==> Service(GetKind(UnmarshalObject(doc).value)).Ok?
  {
  }

  // The remote side.

  datatype Key = Key(project: string, name: string)

  /** A mutating call on a service, as a mock service counts it. */
  datatype Call = CreateCall(project: string, target: Object) | UpdateCall(project: string, current: Object, target: Object)

  /** GetByName's three outcomes. */
  datatype Lookup = NotFound | Found(current: Object) | LookupFailed(cause: string)

  /**
   * A service's state: the objects it holds, the keys whose lookup or write fails (with the
   * cause), and the log of mutating calls it has received.
   */
  datatype StoreState = StoreState(objects: map<Key, Object>, failingLookups: map<Key, string>,
                                   failingWrites: set<Key>, log: seq<Call>)

  function LookupIn(st: StoreState, project: string, name: string): (l: Lookup)
    ensures l.LookupFailed? <==> Key(project, name) in st.failingLookups
    ensures l.Found? <==> Key(project, name) !in st.failingLookups && Key(project, name) in st.objects
    ensures l.Found? ==> l.current == st.objects[Key(project, name)]
  {
    var key := Key(project, name);
    if key in st.failingLookups then LookupFailed(st.failingLookups[key])
    else if key in st.objects then Found(st.objects[key])
    else NotFound
  }

  /** The state after a write of o at key: logged whether it fails or not, stored when it does not. */
  function Written(st: StoreState, key: Key, o: Object, call: Call): (r: StoreState)
    ensures r.log == st.log + [call]
    ensures r.failingLookups == st.failingLookups && r.failingWrites == st.failingWrites
    ensures r.objects == if key in st.failingWrites then st.objects else st.objects[key := o]
  {
    StoreState(if key in st.failingWrites then st.objects else st.objects[key := o],
               st.failingLookups, st.failingWrites, st.log + [call])
  }

  function WriteOutcome(st: StoreState, key: Key): (r: Outcome<Error>)
    ensures r.Fail? <==> key in st.failingWrites
  {
    if key in st.failingWrites then Fail(WriteFailed(key.project, key.name)) else Pass
  }

  /** One ReportPortal service (a ServiceInterface) reduced to the calls ApplyObject makes. */
  class Store {
    var objects: map<Key, Object>
    var failingLookups: map<Key, string>
    var failingWrites: set<Key>
    var log: seq<Call>

    constructor(objects: map<Key, Object>, failingLookups: map<Key, string>, failingWrites: set<Key>)
      ensures State() == StoreState(objects, failingLookups, failingWrites, [])
    {
      this.objects := objects;
      this.failingLookups := failingLookups;
      this.failingWrites := failingWrites;
      log := [];
    }

    function State(): StoreState
      reads this
    {
      StoreState(objects, failingLookups, failingWrites, log)
    }

    /** GetByName: reads and logs nothing. */
    method GetByName(project: string, name: string) returns (l: Lookup)
      ensures l == LookupIn(State(), project, name)
    {
      var key := Key(project, name);
      if key in failingLookups {
        l := LookupFailed(failingLookups[key]);
      } else if key in objects {
        l := Found(objects[key]);
      } else {
        l := NotFound;
      }
    }

    method Create(project: string, o: Object) returns (err: Outcome<Error>)
      modifies this
      ensures State() == Written(old(State()), Key(project, GetName(o)), o, CreateCall(project, o))
      ensures err == WriteOutcome(old(State()), Key(project, GetName(o)))
    {
      var key := Key(project, GetName(o));
      log := log + [CreateCall(project, o)];
      if key in failingWrites {
        err := Fail(WriteFailed(project, key.name));
      } else {
        objects := objects[key := o];
        err := Pass;
      }
    }

    method Update(project: string, current: Object, target: Object) returns (err: Outcome<Error>)
      modifies this
      ensures State() == Written(old(State()), Key(project, GetName(target)), target, UpdateCall(project, current, target))
      ensures err == WriteOutcome(old(State()), Key(project, GetName(target)))
    {
      var key := Key(project, GetName(target));
      log := log + [UpdateCall(project, current, target)];
      if key in failingWrites {
        err := Fail(WriteFailed(project, key.name));
      } else {
        objects := objects[key := target];
        err := Pass;
      }
    }
  }

  /** The states of both services. */
  datatype Remote = Remote(dashboards: StoreState, filters: StoreState) {
    function Get(s: ServiceName): StoreState {
      if s == DashboardService then dashboards else filters
    }

    function Set(s: ServiceName, st: StoreState): (r: Remote)
      ensures r.Get(s) == st
      ensures forall t :: t != s ==> r.Get(t) == Get(t)
    {
      if s == DashboardService then this.(dashboards := st) else this.(filters := st)
    }
  }

  /** A new state and the error, if any, that an operation returns. */
  datatype Step<S> = Step(state: S, outcome: Outcome<Error>)

  /** ApplyObject against the chosen service (reportportal.go:204-227). */
  function ApplyToStore(st: StoreState, project: string, o: Object): Step<StoreState> {
    var key := Key(project, GetName(o));
    match LookupIn(st, project, GetName(o))
    case LookupFailed(cause) => Step(st, Fail(RetrieveFailed(GetKind(o), GetName(o), cause)))
    case Found(current) =>
      if ObjectEquals(current, o) then Step(st, Pass)
      else Step(Written(st, key, o, UpdateCall(project, current, o)), WriteOutcome(st, key))
    case NotFound => Step(Written(st, key, o, CreateCall(project, o)), WriteOutcome(st, key))
  }

  /** ApplyObject (reportportal.go:197-228). */
  function ApplyObjectSpec(r: Remote, project: string, o: Object): Step<Remote> {
    match Service(GetKind(o))
    case Err(e) => Step(r, Fail(e))
    case Ok(s) =>
      var step := ApplyToStore(r.Get(s), project, o);
      Step(r.Set(s, step.state), step.outcome)
  }

  /** An unsupported kind fails before any service is asked anything. */
  lemma ApplyObjectUnsupported(r: Remote, project: string, o: Object)
    requires GetKind(o) !in Kinds
    ensures ApplyObjectSpec(r, project, o) == Step(r, Fail(UnsupportedKind("")))
  {
  }

  /** A failing lookup is reported and no Create or Update is issued (reportportal.go:204-207). */
  lemma ApplyObjectLookupFails(r: Remote, project: string, o: Object, s: ServiceName)
    requires Service(GetKind(o)) == Ok(s)
    requires Key(project, GetName(o)) in r.Get(s).failingLookups
    ensures ApplyObjectSpec(r, project, o) ==
            Step(r, Fail(RetrieveFailed(GetKind(o), GetName(o), r.Get(s).failingLookups[Key(project, GetName(o))])))
  {
  }

  /**
   * Nothing found: exactly one Create is issued, on the object's own service; the call succeeds
   * and stores the object unless the write fails (reportportal.go:209, 223-227).
   */
  lemma ApplyObjectCreates(r: Remote, project: string, o: Object, s: ServiceName)
    requires Service(GetKind(o)) == Ok(s)
    requires LookupIn(r.Get(s), project, GetName(o)).NotFound?
    ensures var after := ApplyObjectSpec(r, project, o).state;
            after.Get(s).log == r.Get(s).log + [CreateCall(project, o)] &&
            (forall t :: t != s ==> after.Get(t) == r.Get(t))
    ensures ApplyObjectSpec(r, project, o).outcome.Pass? <==> Key(project, GetName(o)) !in r.Get(s).failingWrites
    ensures ApplyObjectSpec(r, project, o).outcome.Pass? ==>
              LookupIn(ApplyObjectSpec(r, project, o).state.Get(s), project, GetName(o)) == Found(o)
  {
  }

  /** Found and equal: no mutating call at all, and success (reportportal.go:211-214). */
  lemma ApplyObjectSkips(r: Remote, project: string, o: Object, s: ServiceName)
    requires Service(GetKind(o)) == Ok(s)
    requires LookupIn(r.Get(s), project, GetName(o)).Found?
    requires ObjectEquals(LookupIn(r.Get(s), project, GetName(o)).current, o)
    ensures ApplyObjectSpec(r, project, o) == Step(r, Pass)
  {
    assert r.Set(s, r.Get(s)) == r;
  }

  /**
   * Found but different: exactly one Update of the found object to o, on the object's own service
   * (reportportal.go:216-220).
   */
  lemma ApplyObjectUpdates(r: Remote, project: string, o: Object, s: ServiceName)
    requires Service(GetKind(o)) == Ok(s)
    requires LookupIn(r.Get(s), project, GetName(o)).Found?
    requires !ObjectEquals(LookupIn(r.Get(s), project, GetName(o)).current, o)
    ensures var current := LookupIn(r.Get(s), project, GetName(o)).current;
            var after := ApplyObjectSpec(r, project, o).state;
            after.Get(s).log == r.Get(s).log + [UpdateCall(project, current, o)] &&
            (forall t :: t != s ==> after.Get(t) == r.Get(t))
    ensures ApplyObjectSpec(r, project, o).outcome.Pass? <==> Key(project, GetName(o)) !in r.Get(s).failingWrites
    ensures ApplyObjectSpec(r, project, o).outcome.Pass? ==>
              LookupIn(ApplyObjectSpec(r, project, o).state.Get(s), project, GetName(o)) == Found(o)
  {
  }

  /** ApplyObject issues at most one mutating call, and only ever appends to a log. */
  lemma ApplyObjectAtMostOneCall(r: Remote, project: string, o: Object)
    ensures var after := ApplyObjectSpec(r, project, o).state;
            forall t :: (after.Get(t).log == r.Get(t).log || (exists c :: after.Get(t).log == r.Get(t).log + [c]))
  {
    var service := Service(GetKind(o));
    if service.Ok? {
      var s := service.value;
      var after := ApplyObjectSpec(r, project, o).state;
      if after.Get(s).log != r.Get(s).log {
        var c := after.Get(s).log[|after.Get(s).log| - 1];
        assert after.Get(s).log == r.Get(s).log + [c];
      }
    }
  }

  /**
   * Applying an object that was applied successfully does nothing more and succeeds, against a
   * store that reads back exactly the object written. The ReportPortal services read back through
   * ToFilter and ToWidget instead; ApplyFilterReadBackUpdates and ApplyDashboardReadBackUpdates
   * show where that differs.
   */
  lemma ApplyObjectIdempotent(r: Remote, project: string, o: Object)
    requires ApplyObjectSpec(r, project, o).outcome.Pass?
    ensures var after := ApplyObjectSpec(r, project, o).state;
            ApplyObjectSpec(after, project, o) == Step(after, Pass)
  {
    var s := Service(GetKind(o)).value;
    var after := ApplyObjectSpec(r, project, o).state;
    ObjectEqualsReflexive(o);
    if LookupIn(r.Get(s), project, GetName(o)).Found? && ObjectEquals(LookupIn(r.Get(s), project, GetName(o)).current, o) {
      ApplyObjectSkips(r, project, o, s);
    }
    assert LookupIn(after.Get(s), project, GetName(o)).Found?;
    ApplyObjectSkips(after, project, o, s);
  }

  /**
   * A filter without a `conditions` or `orders` list, found on a service that reads back through
   * ToFilter, is never up to date: every apply issues an Update (filter.go:27, 32).
   */
  lemma ApplyFilterReadBackUpdates(r: Remote, project: string, f: Filters.Filter, wf: Wire.Filter)
    requires f.kind == FilterKind && (f.conditions.Nil? || f.orders.Nil?)
    requires LookupIn(r.filters, project, f.name) == Found(FilterObject(Filters.FilterFromWire(wf)))
    ensures var after := ApplyObjectSpec(r, project, FilterObject(f)).state;
            after.filters.log == r.filters.log + [UpdateCall(project, FilterObject(Filters.FilterFromWire(wf)), FilterObject(f))] &&
            after.dashboards == r.dashboards
  {
    Filters.FilterFromWireNeverEqualsNil(wf, f);
    ApplyObjectUpdates(r, project, FilterObject(f), FilterService);
  }

  /**
   * A dashboard with a widget lacking a `filters` or `contentFields` list, found on a service that
   * reads widgets back through ToWidget (which always builds both lists), is never up to date:
   * every apply issues an Update.
   */
  lemma ApplyDashboardReadBackUpdates(r: Remote, project: string, d: Dashboards.Dashboard,
                                      current: Dashboards.Dashboard, k: nat)
    requires d.widgets.Items? && k < |d.widgets.elems| && !Dashboards.NonNilLists(d.widgets.elems[k])
    requires current.widgets.Items? &&
             forall i :: 0 <= i < |current.widgets.elems| ==> Dashboards.NonNilLists(current.widgets.elems[i])
    requires LookupIn(r.dashboards, project, d.name) == Found(DashboardObject(current))
    ensures var after := ApplyObjectSpec(r, project, DashboardObject(d)).state;
            after.dashboards.log == r.dashboards.log + [UpdateCall(project, DashboardObject(current), DashboardObject(d))] &&
            after.filters == r.filters
  {
    Dashboards.ReadBackNeverEqualsNilWidgetList(current, d, k);
    ApplyObjectUpdates(r, project, DashboardObject(d), DashboardService);
  }

  // Files and directories.

  /** The bytes of a file, or a read error. */
  datatype Content = Unreadable | Readable(doc: Document)

  /** One entry a directory walk visits: its path, its base name, and what it is. */
  datatype Entry = Entry(path: string, name: string, walkError: bool, isDir: bool, content: Content)

  /** What os.Stat says of the path given to Apply. */
  datatype Target = Missing | StatError(cause: string) | File(content: Content) | Directory(entries: seq<Entry>)

  /** ApplyFile (reportportal.go:182-195). */
  function ApplyFileSpec(r: Remote, project: string, file: string, content: Content): Step<Remote> {
    match content
    case Unreadable => Step(r, Fail(ReadFailed(file)))
    case Readable(doc) =>
      match UnmarshalObject(doc)
      case Err(e) => Step(r, Fail(DecodeFailed(file, e)))
      case Ok(o) => ApplyObjectSpec(r, project, o)
  }

  /** An unreadable or undecodable file changes nothing remotely. */
  lemma ApplyFileErrorsFirst(r: Remote, project: string, file: string, content: Content)
    requires content.Unreadable? || UnmarshalObject(content.doc).Err?
    ensures ApplyFileSpec(r, project, file, content).state == r
    ensures ApplyFileSpec(r, project, file, content).outcome ==
            if content.Unreadable? then Fail(ReadFailed(file)) else Fail(DecodeFailed(file, UnmarshalObject(content.doc).error))
  {
  }

  /** The walk callback's filter (reportportal.go:147-160): no error, not a directory, a YAML name. */
  predicate Applicable(e: Entry) {
    !e.walkError && !e.isDir && (Strings.HasSuffix(e.name, ".yml") || Strings.HasSuffix(e.name, ".yaml"))
  }

  /** The state after the walk callback has seen the entries in order, and the `failed` flag. */
  datatype Walked = Walked(remote: Remote, failed: bool)

  function WalkSpec(r: Remote, project: string, entries: seq<Entry>): Walked
    decreases |entries|
  {
    if |entries| == 0 then Walked(r, false)
    else
      var before := WalkSpec(r, project, entries[..|entries| - 1]);
      var e := entries[|entries| - 1];
      if Applicable(e) then
        var step := ApplyFileSpec(before.remote, project, e.path, e.content);
        Walked(step.state, before.failed || step.outcome.Fail?)
      else before
  }

  /** Apply (reportportal.go:130-180). */
  function ApplySpec(r: Remote, project: string, file: string, target: Target, recursive: bool): Step<Remote> {
    match target
    case Missing => Step(r, Fail(NotAFileOrDirectory(file)))
    case StatError(cause) => Step(r, Fail(StatFailed(cause)))
    case File(content) => ApplyFileSpec(r, project, file, content)
    case Directory(entries) =>
      if !recursive then Step(r, Fail(DirectoryWithoutRecursive(file)))
      else
        var w := WalkSpec(r, project, entries);
        Step(w.remote, if w.failed then Fail(SomeObjectsFailed) else Pass)
  }

  /**
   * The walk does not stop at a failure: walking two runs of entries is walking the second from
   * where the first left off, whatever the first's flag, and the flags combine by `or`.
   */
  lemma {:induction false} WalkComposes(r: Remote, project: string, first: seq<Entry>, second: seq<Entry>)
    ensures var w1 := WalkSpec(r, project, first);
            var w2 := WalkSpec(w1.remote, project, second);
            WalkSpec(r, project, first + second) == Walked(w2.remote, w1.failed || w2.failed)
    decreases |second|
  {
    if |second| > 0 {
      var init := second[..|second| - 1];
      assert (first + second)[..|first + second| - 1] == first + init;
      assert (first + second)[|first + second| - 1] == second[|second| - 1];
      WalkComposes(r, project, first, init);
    } else {
      assert first + second == first;
    }
  }

  /** Entries the callback skips change nothing and set no flag. */
  lemma {:induction false} WalkSkipsInapplicable(r: Remote, project: string, entries: seq<Entry>)
    requires forall i :: 0 <= i < |entries| ==> !Applicable(entries[i])
    ensures WalkSpec(r, project, entries) == Walked(r, false)
    decreases |entries|
  {
    if |entries| > 0 {
      WalkSkipsInapplicable(r, project, entries[..|entries| - 1]);
    }
  }

  /**
   * The flag is set exactly when some applicable entry fails, each entry being applied to the
   * state the entries before it left (reportportal.go:162-165).
   */
  lemma {:induction false} WalkFailedIff(r: Remote, project: string, entries: seq<Entry>)
    ensures WalkSpec(r, project, entries).failed <==>
            exists i :: 0 <= i < |entries| && Applicable(entries[i]) &&
              ApplyFileSpec(WalkSpec(r, project, entries[..i]).remote, project, entries[i].path, entries[i].content).outcome.Fail?
    decreases |entries|
  {
    if |entries| > 0 {
      var n := |entries| - 1;
      var init := entries[..n];
      WalkFailedIff(r, project, init);
      forall i | 0 <= i < n ensures init[..i] == entries[..i] && init[i] == entries[i] { }
    }
  }

  /** A directory without `recursive` is refused before any file is applied (reportportal.go:139-143). */
  lemma ApplyDirectoryNeedsRecursive(r: Remote, project: string, file: string, entries: seq<Entry>)
    ensures ApplySpec(r, project, file, Directory(entries), false) == Step(r, Fail(DirectoryWithoutRecursive(file)))
  {
  }

  /** A recursive apply fails exactly when some applicable entry fails (reportportal.go:145-176). */
  lemma ApplyDirectoryFailsIff(r: Remote, project: string, file: string, entries: seq<Entry>)
    ensures ApplySpec(r, project, file, Directory(entries), true).outcome.Fail? <==>
            exists i :: 0 <= i < |entries| && Applicable(entries[i]) &&
              ApplyFileSpec(WalkSpec(r, project, entries[..i]).remote, project, entries[i].path, entries[i].content).outcome.Fail?
  {
    WalkFailedIff(r, project, entries);
  }

  /** A ReportPortal: one store per service. */
  class ReportPortal {
    const dashboards: Store
    const filters: Store

    constructor(dashboards: Store, filters: Store)
      requires dashboards != filters
      ensures this.dashboards == dashboards && this.filters == filters
    {
      this.dashboards := dashboards;
      this.filters := filters;
    }

    predicate Valid()
      reads this
    {
      dashboards != filters
    }

    function Snapshot(): Remote
      reads this, dashboards, filters
    {
      Remote(dashboards.State(), filters.State())
    }

    function StoreFor(s: ServiceName): Store
      reads this
    {
      if s == DashboardService then dashboards else filters
    }

    method ApplyObject(project: string, o: Object) returns (err: Outcome<Error>)
      requires Valid()
      modifies dashboards, filters
      ensures Step(Snapshot(), err) == ApplyObjectSpec(old(Snapshot()), project, o)
    {
      var service := Service(GetKind(o));
      if service.Err? {
        return Fail(service.error);
      }
      var store := StoreFor(service.value);
      var current := store.GetByName(project, GetName(o));
      match current
      case LookupFailed(cause) =>
        return Fail(RetrieveFailed(GetKind(o), GetName(o), cause));
      case Found(c) =>
        if ObjectEquals(c, o) {
          return Pass;
        }
        err := store.Update(project, c, o);
      case NotFound =>
        err := store.Create(project, o);
    }

    method ApplyFile(project: string, file: string, content: Content) returns (err: Outcome<Error>)
      requires Valid()
      modifies dashboards, filters
      ensures Step(Snapshot(), err) == ApplyFileSpec(old(Snapshot()), project, file, content)
    {
      if content.Unreadable? {
        return Fail(ReadFailed(file));
      }
      var o := UnmarshalObject(content.doc);
      if o.Err? {
        return Fail(DecodeFailed(file, o.error));
      }
      err := ApplyObject(project, o.value);
    }

    /** The WalkDir callback over every entry, with the `failed` flag (reportportal.go:145-167). */
    method Walk(project: string, entries: seq<Entry>) returns (failed: bool)
      requires Valid()
      modifies dashboards, filters
      ensures WalkSpec(old(Snapshot()), project, entries) == Walked(Snapshot(), failed)
    {
      failed := false;
      var i := 0;
      while i < |entries|
        invariant 0 <= i <= |entries|
        invariant WalkSpec(old(Snapshot()), project, entries[..i]) == Walked(Snapshot(), failed)
      {
        var e := entries[i];
        assert entries[..i + 1][..i] == entries[..i];
        if !e.walkError && !e.isDir && (Strings.HasSuffix(e.name, ".yml") || Strings.HasSuffix(e.name, ".yaml")) {
          var err := ApplyFile(project, e.path, e.content);
          if err.Fail? {
            failed := true;
          }
        }
        i := i + 1;
      }
      assert entries[..i] == entries;
    }

    method Apply(project: string, file: string, target: Target, recursive: bool) returns (err: Outcome<Error>)
      requires Valid()
      modifies dashboards, filters
      ensures Step(Snapshot(), err) == ApplySpec(old(Snapshot()), project, file, target, recursive)
    {
      match target
      case Missing =>
        err := Fail(NotAFileOrDirectory(file));
      case StatError(cause) =>
        err := Fail(StatFailed(cause));
      case File(content) =>
        err := ApplyFile(project, file, content);
      case Directory(entries) =>
        if !recursive {
          return Fail(DirectoryWithoutRecursive(file));
        }
        var failed := Walk(project, entries);
        if failed {
          return Fail(SomeObjectsFailed);
        }
        err := Pass;
    }
  }
}
