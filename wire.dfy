/**
 * The ReportPortal API records of pkg/reportportal that the translation functions read and
 * write. Only the fields the core touches are kept; a Go slice that is only ranged over or
 * measured is a `seq`, since nil and empty behave alike there.
 */
module Wire {

  /** An applied filter or a filter read from the server (reportportal.Filter). */
  datatype Filter = Filter(share: bool, id: int, name: string, filterType: string, description: string,
                           conditions: seq<Condition>, orders: seq<Order>)

  datatype Condition = Condition(filteringField: string, condition: string, value: string)

  datatype Order = Order(sortingColumn: string, isAsc: bool)

  /** reportportal.WidgetContentParameters; option values stand for their JSON encoding. */
  datatype ContentParameters = ContentParameters(contentFields: seq<string>, itemsCount: int,
                                                 widgetOptions: map<string, string>)

  /** A widget read from the server (reportportal.Widget). */
  datatype Widget = Widget(description: string, owner: string, share: bool, id: int, name: string,
                           widgetType: string, contentParameters: ContentParameters,
                           appliedFilters: seq<Filter>)

  /** A widget to be created (reportportal.NewWidget). */
  datatype NewWidget = NewWidget(name: string, description: string, share: bool, widgetType: string,
                                 contentParameters: ContentParameters, filters: seq<int>)

  datatype Size = Size(width: int, height: int)

  datatype Position = Position(positionX: int, positionY: int)

  /** The placement of a widget on a dashboard (reportportal.DashboardWidget). */
  datatype DashboardWidget = DashboardWidget(widgetId: int, share: bool, widgetName: string,
                                             widgetType: string, widgetSize: Size,
                                             widgetPosition: Position)

  /** A dashboard read from the server (reportportal.Dashboard). */
  datatype Dashboard = Dashboard(owner: string, share: bool, id: int, name: string, description: string,
                                 widgets: seq<DashboardWidget>)
}
