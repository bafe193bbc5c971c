/**
 * Local dashboards and widgets of pkg/rpdac/dashboard.go, their translation to and from the
 * ReportPortal API records, the kind check applied when a dashboard file is loaded, and the
 * equality used to decide whether a dashboard on the server is up to date.
 */
module Dashboards {
  import opened Wrappers
  import opened Equal
  import Strings
  import opened Kind
  import Fields
  import Wire

  datatype WidgetSize = WidgetSize(width: int, height: int)

  datatype WidgetPosition = WidgetPosition(positionX: int, positionY: int)

  /** WidgetContentParameters; option values stand for their JSON encoding. */
  datatype ContentParameters = ContentParameters(contentFields: Slice<string>, itemsCount: int,
                                                 widgetOptions: map<string, string>)

  datatype Widget = Widget(name: string, description: string, widgetType: string, widgetSize: WidgetSize,
                           widgetPosition: WidgetPosition, filters: Slice<string>,
                           contentParameters: ContentParameters)

  datatype Dashboard = Dashboard(kind: ObjectKind, name: string, description: string, widgets: Slice<Widget>)

  /** The errors of ToWidget (dashboard.go:90) and FromWidget (dashboard.go:113), wrapping the field error. */
  datatype WidgetError =
    | DecodeSubTypesError(widget: string, cause: Fields.FieldError)
    | EncodeSubTypesError(widget: string, cause: Fields.FieldError)

  /** The suffix FromWidget appends to a widget's name on the server (dashboard.go:119). */
  function HashSuffix(dashboardHash: string): string {
    " #" + dashboardHash
  }

  /** Content fields the codec can rewrite without a run-time panic. */
  predicate WellFormedFields(s: Slice<string>) {
    Fields.AllWellFormed(Elems(s))
  }

  /**
   * ToDashboard (dashboard.go:48-50): a Dashboard-kind local dashboard holding the given widgets
   * as they are, so a nil widget slice stays nil.
   */
  function ToDashboard(d: Wire.Dashboard, widgets: Slice<Widget>): (r: Dashboard)
    ensures r.kind == DashboardKind && String(r.kind) == "Dashboard"
    ensures r.name == d.name && r.description == d.description
    ensures r.widgets == widgets
  {
    Dashboard(DashboardKind, d.name, d.description, widgets)
  }

  /** The error of LoadDashboardFromFile for a kind other than Dashboard (dashboard.go:156). */
  datatype LoadError = ReadError(file: string) | ParseError(file: string) | InvalidKind(kind: string, file: string)

  /**
   * The kind check of LoadDashboardFromFile (dashboard.go:155-162) on the `kind` string the file
   * declares: an empty kind is taken to be Dashboard, Dashboard is accepted, and anything else is
   * refused with an error naming the kind and the file.
   */
  function CheckDashboardKind(file: string, declared: string): (r: Result<string, LoadError>)
    ensures r.Ok? <==> declared == "" || declared == "Dashboard"
    ensures r.Ok? ==> r.value == "Dashboard"
    ensures r.Err? ==> r.error == InvalidKind(declared, file)
  {
    if declared != "" && declared != "Dashboard" then Err(InvalidKind(declared, file))
    else Ok("Dashboard")
  }

  /**
   * The loader's string check against the kind tag decoding of kind.go: a file is accepted exactly
   * when it declares no kind or a tag that decodes to DashboardKind, and then the kind it is given
   * is DashboardKind's tag. A tag the kinds table does not name is refused here, although
   * UnmarshalObject would decode the same file as a dashboard.
   */
  lemma CheckDashboardKindMatchesTag(file: string, declared: string)
    ensures CheckDashboardKind(file, declared).Ok? <==>
            declared == "" || KindFromTag(declared, UnknownKind) == DashboardKind
    ensures CheckDashboardKind(file, declared).Ok? ==>
            CheckDashboardKind(file, declared).value == String(DashboardKind)
    ensures declared != "" && KindFromTag(declared, UnknownKind) == UnknownKind ==>
            CheckDashboardKind(file, declared).Err?
  {
    KindsDistinct();
  }

  /** The filter names of a server widget, in order (dashboard.go:83-86). */
  method AppliedFilterNames(applied: seq<Wire.Filter>) returns (names: seq<string>)
    ensures |names| == |applied|
    ensures forall j :: 0 <= j < |applied| ==> names[j] == applied[j].name
  {
    var filters := new string[|applied|];
    var j := 0;
    while j < |applied|
      invariant 0 <= j <= |applied|
      invariant forall k :: 0 <= k < j ==> filters[k] == applied[k].name
    {
      filters[j] := applied[j].name;
      j := j + 1;
    }
    names := filters[..];
  }

  /** The filter ids of a local widget, in order; an unknown name gives Go's zero value (dashboard.go:106-109). */
  method FilterIds(names: seq<string>, filtersMap: map<string, int>) returns (ids: seq<int>)
    ensures |ids| == |names|
    ensures forall j :: 0 <= j < |names| ==>
              ids[j] == (if names[j] in filtersMap then filtersMap[names[j]] else 0)
  {
    var filters := new int[|names|];
    var j := 0;
    while j < |names|
      invariant 0 <= j <= |names|
      invariant forall k :: 0 <= k < j ==>
                  filters[k] == (if names[k] in filtersMap then filtersMap[names[k]] else 0)
    {
      var f := names[j];
      filters[j] := if f in filtersMap then filtersMap[f] else 0;
      j := j + 1;
    }
    ids := filters[..];
  }

  /**
   * ToWidget as dashboard.go:81-102 writes it: three parameters, and the server's widget name is
   * copied unchanged (dashboard.go:94).
   */
  method ToWidgetAsWritten(w: Wire.Widget, dw: Wire.DashboardWidget, decodeSubTypesMap: map<string, string>)
    returns (r: Result<Widget, WidgetError>)
    requires Fields.AllWellFormed(w.contentParameters.contentFields)
    ensures r == WidgetFromWire(w, dw, w.name, decodeSubTypesMap)
  {
    var filters := AppliedFilterNames(w.appliedFilters);
    var fields := Fields.DecodeFieldsSubTypes(w.contentParameters.contentFields, decodeSubTypesMap);
    if fields.Err? {
      return Err(DecodeSubTypesError(w.name, fields.error));
    }
    assert filters == seq(|w.appliedFilters|, j requires 0 <= j < |w.appliedFilters| => w.appliedFilters[j].name);
    r := Ok(Widget(w.name, w.description, w.widgetType,
                   WidgetSize(dw.widgetSize.width, dw.widgetSize.height),
                   WidgetPosition(dw.widgetPosition.positionX, dw.widgetPosition.positionY),
                   Items(filters),
                   ContentParameters(Items(fields.value), w.contentParameters.itemsCount,
                                     w.contentParameters.widgetOptions)));
  }

  /**
   * ToWidget as its callers and tests use it (dashboard_test.go:1484-1639): the dashboard hash is
   * a parameter and the ` #<hash>` suffix FromWidget added is removed from the name; a name
   * without it is kept.
   */
  method ToWidget(w: Wire.Widget, dw: Wire.DashboardWidget, dashboardHash: string,
                  decodeSubTypesMap: map<string, string>)
    returns (r: Result<Widget, WidgetError>)
    requires Fields.AllWellFormed(w.contentParameters.contentFields)
    ensures r == WidgetFromWire(w, dw, Strings.TrimSuffix(w.name, HashSuffix(dashboardHash)), decodeSubTypesMap)
  {
    var filters := AppliedFilterNames(w.appliedFilters);
    var fields := Fields.DecodeFieldsSubTypes(w.contentParameters.contentFields, decodeSubTypesMap);
    if fields.Err? {
      return Err(DecodeSubTypesError(w.name, fields.error));
    }
    assert filters == seq(|w.appliedFilters|, j requires 0 <= j < |w.appliedFilters| => w.appliedFilters[j].name);
    var name := Strings.TrimSuffix(w.name, HashSuffix(dashboardHash));
    r := Ok(Widget(name, w.description, w.widgetType,
                   WidgetSize(dw.widgetSize.width, dw.widgetSize.height),
                   WidgetPosition(dw.widgetPosition.positionX, dw.widgetPosition.positionY),
                   Items(filters),
                   ContentParameters(Items(fields.value), w.contentParameters.itemsCount,
                                     w.contentParameters.widgetOptions)));
  }

  /**
   * The local widget a server widget and its placement translate to, named `name`: description,
   * type, item count and options from the widget, size and position from the placement, the
   * applied filters' names in order, and the content fields decoded in place; both lists are
   * non-nil. A content field the decode map cannot translate fails the whole translation.
   */
  function WidgetFromWire(w: Wire.Widget, dw: Wire.DashboardWidget, name: string,
                          decodeSubTypesMap: map<string, string>): (r: Result<Widget, WidgetError>)
    requires Fields.AllWellFormed(w.contentParameters.contentFields)
    ensures r.Ok? <==> Fields.DecodeFields(w.contentParameters.contentFields, decodeSubTypesMap).Ok?
    ensures r.Err? ==>
              r.error == DecodeSubTypesError(w.name, Fields.DecodeFields(w.contentParameters.contentFields, decodeSubTypesMap).error)
    ensures r.Ok? ==> r.value.name == name && r.value.description == w.description &&
                      r.value.widgetType == w.widgetType
    ensures r.Ok? ==> r.value.widgetSize == WidgetSize(dw.widgetSize.width, dw.widgetSize.height) &&
                      r.value.widgetPosition == WidgetPosition(dw.widgetPosition.positionX, dw.widgetPosition.positionY)
    ensures r.Ok? ==> r.value.filters.Items? && |r.value.filters.elems| == |w.appliedFilters| &&
                      forall j :: 0 <= j < |w.appliedFilters| ==> r.value.filters.elems[j] == w.appliedFilters[j].name
    ensures r.Ok? ==> r.value.contentParameters.contentFields ==
                      Items(Fields.DecodeFields(w.contentParameters.contentFields, decodeSubTypesMap).value)
    ensures r.Ok? ==> r.value.contentParameters.itemsCount == w.contentParameters.itemsCount &&
                      r.value.contentParameters.widgetOptions == w.contentParameters.widgetOptions
  {
    var fields := Fields.DecodeFields(w.contentParameters.contentFields, decodeSubTypesMap);
    if fields.Err? then Err(DecodeSubTypesError(w.name, fields.error))
    else
      Ok(Widget(name, w.description, w.widgetType,
                WidgetSize(dw.widgetSize.width, dw.widgetSize.height),
                WidgetPosition(dw.widgetPosition.positionX, dw.widgetPosition.positionY),
                Items(seq(|w.appliedFilters|, j requires 0 <= j < |w.appliedFilters| => w.appliedFilters[j].name)),
                ContentParameters(Items(fields.value), w.contentParameters.itemsCount,
                                  w.contentParameters.widgetOptions)))
  }

  /**
   * FromWidget (dashboard.go:104-140): the widget to create, named `<name> #<hash>`, and its
   * placement on the dashboard, which keeps the plain name; or the encoding error, with no records.
   */
  method FromWidget(dashboardHash: string, w: Widget, filtersMap: map<string, int>,
                    encodeSubTypesMap: map<string, string>)
    returns (r: Result<(Wire.NewWidget, Wire.DashboardWidget), WidgetError>)
    requires WellFormedFields(w.contentParameters.contentFields)
    ensures r == WidgetToWire(dashboardHash, w, filtersMap, encodeSubTypesMap)
  {
    var filters := FilterIds(Elems(w.filters), filtersMap);
    var fields := Fields.EncodeFieldsSubTypes(Elems(w.contentParameters.contentFields), encodeSubTypesMap);
    if fields.Err? {
      return Err(EncodeSubTypesError(w.name, fields.error));
    }
    assert filters == seq(Len(w.filters), j requires 0 <= j < Len(w.filters) => FilterId(Elems(w.filters)[j], filtersMap));
    var nw := Wire.NewWidget(w.name + HashSuffix(dashboardHash), w.description, true, w.widgetType,
                             Wire.ContentParameters(fields.value, w.contentParameters.itemsCount,
                                                    w.contentParameters.widgetOptions),
                             filters);
    var dw := Wire.DashboardWidget(0, true, w.name, w.widgetType,
                                   Wire.Size(w.widgetSize.width, w.widgetSize.height),
                                   Wire.Position(w.widgetPosition.positionX, w.widgetPosition.positionY));
    r := Ok((nw, dw));
  }

  /** The id a filter name resolves to in FromWidget: its entry, or 0. */
  function FilterId(name: string, filtersMap: map<string, int>): int {
    if name in filtersMap then filtersMap[name] else 0
  }

  /** The records FromWidget produces for a local widget. */
  function WidgetToWire(dashboardHash: string, w: Widget, filtersMap: map<string, int>,
                        encodeSubTypesMap: map<string, string>)
    : (r: Result<(Wire.NewWidget, Wire.DashboardWidget), WidgetError>)
    requires WellFormedFields(w.contentParameters.contentFields)
    ensures r.Ok? <==> Fields.DecodeFields(Elems(w.contentParameters.contentFields), encodeSubTypesMap).Ok?
    ensures r.Err? ==>
              r.error == EncodeSubTypesError(w.name, Fields.DecodeFields(Elems(w.contentParameters.contentFields), encodeSubTypesMap).error)
    ensures r.Ok? ==> r.value.0.name == w.name + " #" + dashboardHash && r.value.1.widgetName == w.name
    ensures r.Ok? ==> r.value.0.share && r.value.1.share
    ensures r.Ok? ==> r.value.0.description == w.description && r.value.0.widgetType == w.widgetType &&
                      r.value.1.widgetType == w.widgetType
    ensures r.Ok? ==> |r.value.0.filters| == Len(w.filters) &&
                      forall j :: 0 <= j < Len(w.filters) ==> r.value.0.filters[j] == FilterId(Elems(w.filters)[j], filtersMap)
    ensures r.Ok? ==> r.value.0.contentParameters ==
                      Wire.ContentParameters(Fields.DecodeFields(Elems(w.contentParameters.contentFields), encodeSubTypesMap).value,
                                             w.contentParameters.itemsCount, w.contentParameters.widgetOptions)
    ensures r.Ok? ==> r.value.1.widgetSize == Wire.Size(w.widgetSize.width, w.widgetSize.height) &&
                      r.value.1.widgetPosition == Wire.Position(w.widgetPosition.positionX, w.widgetPosition.positionY)
  {
    var fields := Fields.DecodeFields(Elems(w.contentParameters.contentFields), encodeSubTypesMap);
    if fields.Err? then Err(EncodeSubTypesError(w.name, fields.error))
    else
      var ids := seq(Len(w.filters), j requires 0 <= j < Len(w.filters) => FilterId(Elems(w.filters)[j], filtersMap));
      Ok((Wire.NewWidget(w.name + HashSuffix(dashboardHash), w.description, true, w.widgetType,
                         Wire.ContentParameters(fields.value, w.contentParameters.itemsCount,
                                                w.contentParameters.widgetOptions),
                         ids),
          Wire.DashboardWidget(0, true, w.name, w.widgetType,
                               Wire.Size(w.widgetSize.width, w.widgetSize.height),
                               Wire.Position(w.widgetPosition.positionX, w.widgetPosition.positionY))))
  }

  /**
   * The widget the server stores for a NewWidget: its fields, the given id and owner, and the
   * filters the ids resolve to.
   */
  function Stored(nw: Wire.NewWidget, id: int, owner: string, applied: seq<Wire.Filter>): Wire.Widget {
    Wire.Widget(nw.description, owner, nw.share, id, nw.name, nw.widgetType, nw.contentParameters, applied)
  }

  /** A local widget whose lists are non-nil, as ToWidget produces them. */
  predicate NonNilLists(w: Widget) {
    w.filters.Items? && w.contentParameters.contentFields.Items?
  }

  /** The widget with a nil filter or content-field list replaced by an empty one. */
  function WithNonNilLists(w: Widget): (r: Widget)
    ensures NonNilLists(r)
    ensures NonNilLists(w) ==> r == w
  {
    w.(filters := Items(Elems(w.filters)),
       contentParameters := w.contentParameters.(contentFields := Items(Elems(w.contentParameters.contentFields))))
  }

  /**
   * Round trip FromWidget then ToWidget: a widget created on the server and read back gives the
   * local widget again, with a nil list read back as an empty one (FromWidget and ToWidget both
   * allocate their lists with `make`), when the server resolves the filter ids to the same names
   * and the decode map undoes the encode map.
   */
  lemma WidgetRoundTrip(dashboardHash: string, w: Widget, filtersMap: map<string, int>,
                        encodeMap: map<string, string>, decodeMap: map<string, string>,
                        id: int, owner: string, applied: seq<Wire.Filter>)
    requires WellFormedFields(w.contentParameters.contentFields)
    requires WidgetToWire(dashboardHash, w, filtersMap, encodeMap).Ok?
    requires Fields.Undoes(decodeMap, encodeMap)
    requires |applied| == Len(w.filters) && forall j :: 0 <= j < |applied| ==> applied[j].name == Elems(w.filters)[j]
    ensures var (nw, dw) := WidgetToWire(dashboardHash, w, filtersMap, encodeMap).value;
            Fields.AllWellFormed(nw.contentParameters.contentFields) &&
            WidgetFromWire(Stored(nw, id, owner, applied), dw,
                           Strings.TrimSuffix(nw.name, HashSuffix(dashboardHash)), decodeMap) == Ok(WithNonNilLists(w))
    ensures NonNilLists(w) ==>
            var (nw, dw) := WidgetToWire(dashboardHash, w, filtersMap, encodeMap).value;
            WidgetFromWire(Stored(nw, id, owner, applied), dw,
                           Strings.TrimSuffix(nw.name, HashSuffix(dashboardHash)), decodeMap) == Ok(w)
  {
    var (nw, dw) := WidgetToWire(dashboardHash, w, filtersMap, encodeMap).value;
    Fields.FieldsRoundTrip(Elems(w.contentParameters.contentFields), encodeMap, decodeMap);
    Strings.TrimAppendedSuffix(w.name, HashSuffix(dashboardHash));
    assert nw.name == w.name + HashSuffix(dashboardHash);
    var back := WidgetFromWire(Stored(nw, id, owner, applied), dw, w.name, decodeMap);
    assert back.value.filters.elems == Elems(w.filters);
  }

  /**
   * A widget without a `filters` or `contentFields` list does not survive the round trip: it is
   * read back with an empty list, which Equals tells apart from nil, so every apply of the
   * unchanged dashboard sees a difference.
   */
  lemma WidgetRoundTripNilLists(dashboardHash: string, w: Widget, filtersMap: map<string, int>,
                                encodeMap: map<string, string>, decodeMap: map<string, string>,
                                id: int, owner: string, applied: seq<Wire.Filter>)
    requires WellFormedFields(w.contentParameters.contentFields) && !NonNilLists(w)
    requires WidgetToWire(dashboardHash, w, filtersMap, encodeMap).Ok?
    requires Fields.Undoes(decodeMap, encodeMap)
    requires |applied| == Len(w.filters) && forall j :: 0 <= j < |applied| ==> applied[j].name == Elems(w.filters)[j]
    ensures var (nw, dw) := WidgetToWire(dashboardHash, w, filtersMap, encodeMap).value;
            Fields.AllWellFormed(nw.contentParameters.contentFields) &&
            var back := WidgetFromWire(Stored(nw, id, owner, applied), dw,
                                       Strings.TrimSuffix(nw.name, HashSuffix(dashboardHash)), decodeMap);
            back.Ok? && back.value != w && !WidgetEquals(back.value, w)
  {
    WidgetRoundTrip(dashboardHash, w, filtersMap, encodeMap, decodeMap, id, owner, applied);
    WidgetNilListsDiffer(w);
    WidgetEqualsSymmetric(w, WithNonNilLists(w));
  }

  /**
   * Whatever the server holds, a widget read back by ToWidget never equals a local widget with a
   * nil filter or content-field list.
   */
  lemma WidgetFromWireNeverEqualsNil(w: Wire.Widget, dw: Wire.DashboardWidget, name: string,
                                     decodeSubTypesMap: map<string, string>, local: Widget)
    requires Fields.AllWellFormed(w.contentParameters.contentFields)
    requires WidgetFromWire(w, dw, name, decodeSubTypesMap).Ok?
    requires !NonNilLists(local)
    ensures !WidgetEquals(WidgetFromWire(w, dw, name, decodeSubTypesMap).value, local)
  {
  }

  /**
   * The same round trip through ToWidget as written keeps the ` #<hash>` suffix: the widget read
   * back is not the one written, and not equal to it, so every apply of an unchanged dashboard
   * sees a difference.
   */
  lemma WidgetRoundTripAsWritten(dashboardHash: string, w: Widget, filtersMap: map<string, int>,
                                 encodeMap: map<string, string>, decodeMap: map<string, string>,
                                 id: int, owner: string, applied: seq<Wire.Filter>)
    requires WellFormedFields(w.contentParameters.contentFields)
    requires WidgetToWire(dashboardHash, w, filtersMap, encodeMap).Ok?
    requires Fields.Undoes(decodeMap, encodeMap)
    ensures var (nw, dw) := WidgetToWire(dashboardHash, w, filtersMap, encodeMap).value;
            Fields.AllWellFormed(nw.contentParameters.contentFields) &&
            var back := WidgetFromWire(Stored(nw, id, owner, applied), dw, nw.name, decodeMap);
            back.Ok? && back.value.name == w.name + " #" + dashboardHash &&
            back.value != w && !WidgetEquals(back.value, w)
  {
    var (nw, dw) := WidgetToWire(dashboardHash, w, filtersMap, encodeMap).value;
    Fields.FieldsRoundTrip(Elems(w.contentParameters.contentFields), encodeMap, decodeMap);
    assert |w.name + " #" + dashboardHash| > |w.name|;
  }

  /**
   * Widget.Equals, as dashboard_test.go:1912-2087 states it: the same name, description, type,
   * size, position, item count and options, and the same filters and content fields in any order.
   * That a nil list equals only a nil list is not pinned by those tests; it follows from building
   * the comparison of filters and content fields on CompareStringSlices.
   */
  predicate WidgetEquals(a: Widget, b: Widget) {
    a.name == b.name && a.description == b.description && a.widgetType == b.widgetType &&
    a.widgetSize == b.widgetSize && a.widgetPosition == b.widgetPosition &&
    SameElements(a.filters, b.filters) &&
    SameElements(a.contentParameters.contentFields, b.contentParameters.contentFields) &&
    a.contentParameters.itemsCount == b.contentParameters.itemsCount &&
    a.contentParameters.widgetOptions == b.contentParameters.widgetOptions
  }

  /** The key by which dashboards compare their widgets: the widget name. */
  function WidgetKey(w: Widget): string { w.name }

  /** Widgets are never nil elements. */
  predicate NoNilWidget(w: Widget) { false }

  /**
   * Dashboard.Equals, as dashboard_test.go:1785-1910 states it: the same name and description,
   * and widgets that pair up by name under Widget.Equals, in any order; nil widgets equal only nil.
   */
  predicate DashboardEquals(a: Dashboard, b: Dashboard) {
    a.name == b.name && a.description == b.description &&
    SlicesEqual(a.widgets, b.widgets, WidgetKey, NoNilWidget, WidgetEquals)
  }

  /** Equals is reflexive on widgets. */
  lemma WidgetEqualsReflexive(w: Widget)
    ensures WidgetEquals(w, w)
  {
  }

  /** Equals is symmetric on widgets. */
  lemma WidgetEqualsSymmetric(a: Widget, b: Widget)
    ensures WidgetEquals(a, b) == WidgetEquals(b, a)
  {
  }

  /** Reordering a widget's filters or content fields does not change Equals (dashboard_test.go:2045-2087). */
  lemma WidgetEqualsOrderInsensitive(w: Widget, filters: seq<string>, fields: seq<string>)
    requires w.filters.Items? && multiset(filters) == multiset(w.filters.elems)
    requires w.contentParameters.contentFields.Items? &&
             multiset(fields) == multiset(w.contentParameters.contentFields.elems)
    ensures WidgetEquals(w, w.(filters := Items(filters),
                               contentParameters := w.contentParameters.(contentFields := Items(fields))))
  {
  }

  /** A nil filter or content-field list differs from an empty one, as CompareStringSlices decides. */
  lemma WidgetNilListsDiffer(w: Widget)
    requires w.filters.Nil? || w.contentParameters.contentFields.Nil?
    ensures !WidgetEquals(w, w.(filters := Items(Elems(w.filters)),
                                contentParameters := w.contentParameters.(contentFields := Items(Elems(w.contentParameters.contentFields)))))
  {
  }

  /** Every dashboard equals itself. */
  lemma DashboardEqualsReflexive(d: Dashboard)
    ensures DashboardEquals(d, d)
  {
    forall i | 0 <= i < Len(d.widgets) ensures WidgetEquals(Elems(d.widgets)[i], Elems(d.widgets)[i]) {
      WidgetEqualsReflexive(Elems(d.widgets)[i]);
    }
    SlicesEqualReflexive(d.widgets, WidgetKey, NoNilWidget, WidgetEquals);
  }

  /** Dashboard equality is symmetric. */
  lemma DashboardEqualsSymmetric(a: Dashboard, b: Dashboard)
    ensures DashboardEquals(a, b) == DashboardEquals(b, a)
  {
    forall x, y ensures WidgetEquals(x, y) == WidgetEquals(y, x) {
      WidgetEqualsSymmetric(x, y);
    }
    SlicesEqualSymmetric(a.widgets, b.widgets, WidgetKey, NoNilWidget, WidgetEquals);
  }

  /**
   * When widget names identify widgets, the order in which a dashboard lists its widgets does not
   * matter (dashboard_test.go:1874-1889).
   */
  lemma DashboardEqualsOrderInsensitive(d: Dashboard, widgets: seq<Widget>)
    requires d.widgets.Items? && multiset(widgets) == multiset(d.widgets.elems)
    requires KeysDetermine(d.widgets.elems, WidgetKey)
    ensures DashboardEquals(d, d.(widgets := Items(widgets)))
  {
    DashboardEqualsReflexive(d);
    SlicesEqualOrderInsensitive(d.widgets.elems, widgets, d.widgets, WidgetKey, NoNilWidget, WidgetEquals);
    SlicesEqualSymmetric(Items(widgets), d.widgets, WidgetKey, NoNilWidget, WidgetEquals) by {
      forall x, y ensures WidgetEquals(x, y) == WidgetEquals(y, x) {
        WidgetEqualsSymmetric(x, y);
      }
    }
  }

  /**
   * A dashboard read back from the server, whose widgets all come with non-nil lists, never equals
   * a local dashboard that has a widget with a nil filter or content-field list.
   */
  lemma ReadBackNeverEqualsNilWidgetList(remote: Dashboard, local: Dashboard, k: nat)
    requires remote.widgets.Items? && forall i :: 0 <= i < |remote.widgets.elems| ==> NonNilLists(remote.widgets.elems[i])
    requires local.widgets.Items? && k < |local.widgets.elems| && !NonNilLists(local.widgets.elems[k])
    ensures !DashboardEquals(remote, local)
  {
    var sl, sr := Sort(remote.widgets.elems, WidgetKey), Sort(local.widgets.elems, WidgetKey);
    if |sl| == |sr| {
      var w := local.widgets.elems[k];
      assert w in multiset(sr);
      var j :| 0 <= j < |sr| && sr[j] == w;
      assert sl[j] in multiset(remote.widgets.elems);
      assert !ElementsMatch(sl[j], sr[j], NoNilWidget, WidgetEquals);
    }
  }

  /**
   * ToDashboard keeps nil apart from empty: built from a nil widget slice, the dashboard equals no
   * dashboard that has a widget list, and built from a widget list, none that has nil widgets.
   */
  lemma ToDashboardKeepsNil(d: Wire.Dashboard, widgets: Slice<Widget>, local: Dashboard)
    requires widgets.Nil? != local.widgets.Nil?
    ensures !DashboardEquals(ToDashboard(d, widgets), local)
    ensures !DashboardEquals(local, ToDashboard(d, widgets))
  {
  }

  /** A dashboard with nil widgets differs from one with an empty list (dashboard_test.go:1842-1851). */
  lemma DashboardNilWidgetsDiffer(d: Dashboard)
    requires d.widgets.Nil?
    ensures !DashboardEquals(d, d.(widgets := Items([])))
  {
  }
}
