/**
 * The lead bundle's dashboard listener: `DashboardSubscriber::onWidgetDetailGenerate`
 * answers a "widget detail requested" event for one of eight lead widgets by
 * choosing a template, building its payload (a chart, a map, a table or the
 * lifecycle columns) from the lead and segment models, or by reporting a missing
 * permission, and then stopping the event's propagation.
 *
 * The models, the router and the translator are collaborators whose code is not
 * part of this model: they are function values, so every query is a fixed
 * function of its arguments. `Outcome` says, as a value, what the listener does
 * to an event; `DashboardSubscriber.OnWidgetDetailGenerate` does it step by step
 * on a `WidgetDetailEvent` and is proved to do exactly that.
 */
module Dashboard {
  import opened Wrappers
  import opened Php

  // ----- Widget types, templates, constants -----

  const CreatedLeadsInTime := "created.leads.in.time"
  const AnonymousVsIdentifiedLeads := "anonymous.vs.identified.leads"
  const LeadLifetime := "lead.lifetime"
  const MapOfLeads := "map.of.leads"
  const TopLists := "top.lists"
  const TopCreators := "top.creators"
  const TopOwners := "top.owners"
  const CreatedLeads := "created.leads"

  /** The keys of the subscriber's `$types`: the widgets this listener answers. */
  const WidgetTypes: set<string> :=
    {CreatedLeadsInTime, AnonymousVsIdentifiedLeads, LeadLifetime, MapOfLeads,
     TopLists, TopCreators, TopOwners, CreatedLeads}

  /** The widgets whose payload is reused from the cache when the event says so. */
  const CacheableTypes: set<string> :=
    {CreatedLeadsInTime, AnonymousVsIdentifiedLeads, MapOfLeads, TopLists,
     TopCreators, TopOwners, CreatedLeads}

  /** The widgets that need the "view others" permission. */
  const RestrictedTypes: set<string> := {TopCreators, TopOwners}

  /** The subscriber's `$bundle`, named in the missing-permission message. */
  const Bundle := "lead"

  const ChartTemplate := "MauticCoreBundle:Helper:chart.html.php"
  const MapTemplate := "MauticCoreBundle:Helper:map.html.php"
  const TableTemplate := "MauticCoreBundle:Helper:table.html.php"
  const LifecycleTemplate := "MauticCoreBundle:Helper:lifecycle.html.php"

  /** Vertical space taken by the widget's own chrome, and by the lifecycle widget's. */
  const ChromeHeight := 80
  const LifecycleChromeHeight := 180
  /** Height of one table row, used to derive a row limit from the widget height. */
  const RowHeight := 35
  /** How many lifecycle segments are shown when no segment is chosen. */
  const DefaultMaxSegments := 4

  const TopListsHead := ["mautic.dashboard.label.title", "mautic.lead.leads"]
  const UsersHead := ["mautic.user.account.permissions.editname", "mautic.lead.leads"]
  const CreatedLeadsHead := ["mautic.dashboard.label.title"]

  // ----- Collaborators -----

  /** `RouterInterface::generate`: a route name and its parameters to a URL. */
  type Router = (string, map<string, Value>) -> string
  /** `TranslatorInterface::trans`: a message key and its placeholders to a text. */
  type Translator = (string, map<string, string>) -> string

  /** The `LeadModel` queries the listener calls. */
  datatype LeadModel = LeadModel(
    leadsLineChartData: (Value, Value, Value, Value, Value, bool) -> Value,
    anonymousVsIdentifiedPieChartData: (Value, Value, bool) -> Value,
    leadMapData: (Value, Value, bool) -> Value,
    topOwners: (Value, Value, Value) -> seq<Record>,
    topCreators: (Value, Value, Value) -> seq<Record>,
    leadList: (Value, Value, Value, bool) -> seq<Record>)

  /** The `ListModel` (segment) queries the listener calls. */
  datatype ListModel = ListModel(
    topLists: (Value, Value, Value, bool) -> seq<Record>,
    lifeCycleSegments: (nat, Value, Value, bool, Value) -> seq<Record>,
    lifeCycleSegmentChartData: (Value, Value, Value, Value, Record, bool, Value) -> Value,
    stagesBarChartData: (Value, Value, Value, Value, Record, bool) -> Value,
    deviceGranularityData: (Value, Value, Value, Value, Record, bool) -> Value)

  /** Everything the subscriber is constructed with. */
  datatype Collaborators = Collaborators(
    leadModel: LeadModel, leadListModel: ListModel, router: Router, translator: Translator)

  /** The data queries, one per model method, in the order the listener issues them. */
  datatype Query =
    | GetLeadsLineChartData
    | GetAnonymousVsIdentifiedPieChartData
    | GetLeadMapData
    | GetTopLists
    | GetLifeCycleSegments
    | GetLifeCycleSegmentChartData
    | GetStagesBarChartData
    | GetDeviceGranularityData
    | GetTopOwners
    | GetTopCreators
    | GetLeadList

  // ----- The request and the payloads -----

  /**
   * The widget's parameters. A key the widget does not carry reads as `Null`,
   * as PHP reads a missing array key; the filter is `None` when the widget
   * carries none (or a null one).
   */
  datatype WidgetParams = WidgetParams(
    timeUnit: Value, dateFrom: Value, dateTo: Value, dateFormat: Value,
    limit: Value, flag: Value, filter: Option<Record>)

  /** The filter as an array to write into: writing a key into a missing filter creates an empty one first. */
  function FilterArray(p: WidgetParams): Record
  {
    if p.filter.Some? then p.filter.value else map[]
  }

  /**
   * What the listener reads from the event: the widget type, height and
   * parameters, whether a cached payload exists, whether the user may see other
   * users' data, and the event's own translator.
   */
  datatype Request = Request(
    widgetType: string, height: int, params: WidgetParams, cached: bool,
    canViewOthers: bool, eventTranslator: Translator)

  datatype CellType = Link | Text

  /** A table cell: a value, and for linked or plain-text cells a type and a link. */
  datatype Cell = Cell(value: Value, cellType: Option<CellType>, link: Option<string>)

  type Row = seq<Cell>

  /** The template data the listener sets: one shape per template. */
  datatype TemplateData =
    | Chart(chartType: string, chartHeight: int, chartData: Value)
    | GeoMap(height: int, data: Value)
    | Table(headItems: seq<string>, bodyItems: seq<Row>, raw: seq<Record>)
    | Lifecycle(
        columnName: seq<Value>, value: seq<Value>,
        widthDivisor: nat,  // the column width is 100 / widthDivisor percent
        link: seq<string>, chartType: string, chartHeight: int,
        chartItems: seq<Value>, stages: seq<Value>, devices: seq<Value>)

  /**
   * What handling an event amounts to: the template, data and error message it
   * sets (None: left as it was), whether it stops propagation, and the data
   * queries it issues.
   */
  datatype Effect = Effect(
    template: Option<string>, data: Option<TemplateData>, error: Option<string>,
    stops: bool, queries: seq<Query>)

  const NoEffect := Effect(None, None, None, false, [])

  // ----- Row limit -----

  /**
   * `round((height - 80) / 35 - 1)`: the number of table rows that fit in a
   * widget of this height, rounded to the nearest integer. As 35 is odd, an
   * integer height never lands exactly half-way, so the rounding direction of
   * PHP's `round` never matters.
   */
  function HeightLimit(height: int): (limit: int)
    ensures 2 * RowHeight * limit - RowHeight < 2 * (height - ChromeHeight - RowHeight)
    ensures 2 * (height - ChromeHeight - RowHeight) < 2 * RowHeight * limit + RowHeight
  {
    (2 * (height - ChromeHeight - RowHeight) + RowHeight) / (2 * RowHeight)
  }

  /** The limit handed to a table query: the explicit one unless it is `empty`. */
  function RowLimit(p: WidgetParams, height: int): Value
  {
    if IsEmpty(p.limit) then Int(HeightLimit(height)) else p.limit
  }

  // ----- Building rows -----

  /** Appends `f(x)` for each `x` of `s` in turn, as the listener's `foreach` loops do. */
  function MapSeq<A, B>(s: seq<A>, f: A -> B): (r: seq<B>)
    ensures |r| == |s|
    ensures forall i :: 0 <= i < |s| ==> r[i] == f(s[i])
  {
    if s == [] then [] else MapSeq(s[..|s| - 1], f) + [f(s[|s| - 1])]
  }

  /** A top-segments row: the segment name linking to the segment, its lead count linking to its contacts. */
  function TopListRow(router: Router, list: Record): Row
  {
    [Cell(Get(list, "name"), Some(Link),
          Some(router("mautic_segment_action", map["objectAction" := Str("edit"), "objectId" := Get(list, "id")]))),
     Cell(Get(list, "leads"), Some(Link),
          Some(router("mautic_contact_index", map["search" := Str("segment:" + ToStr(Get(list, "alias")))])))]
  }

  function TopListRows(router: Router, lists: seq<Record>): seq<Row>
  {
    MapSeq(lists, (l: Record) => TopListRow(router, l))
  }

  /** `first_name.' '.last_name`. */
  function OwnerName(owner: Record): Value
  {
    Str(ToStr(Get(owner, "first_name")) + " " + ToStr(Get(owner, "last_name")))
  }

  /** A top-owners row: the owner's name linking to the user, then the bare lead count. */
  function OwnerRow(router: Router, owner: Record): Row
  {
    [Cell(OwnerName(owner), Some(Link),
          Some(router("mautic_user_action", map["objectAction" := Str("edit"), "objectId" := Get(owner, "owner_id")]))),
     Cell(Get(owner, "leads"), None, None)]
  }

  function OwnerRows(router: Router, owners: seq<Record>): seq<Row>
  {
    MapSeq(owners, (o: Record) => OwnerRow(router, o))
  }

  /** A top-creators row: the creator's name linking to the user, then the bare lead count. */
  function CreatorRow(router: Router, creator: Record): Row
  {
    [Cell(Get(creator, "created_by_user"), Some(Link),
          Some(router("mautic_user_action", map["objectAction" := Str("edit"), "objectId" := Get(creator, "created_by")]))),
     Cell(Get(creator, "leads"), None, None)]
  }

  function CreatorRows(router: Router, creators: seq<Record>): seq<Row>
  {
    MapSeq(creators, (c: Record) => CreatorRow(router, c))
  }

  /** A created-leads row: the lead's name, a link to the lead when it has an id, plain text otherwise. */
  function LeadRow(router: Router, lead: Record): Row
  {
    var url := if IsSet(lead, "id")
               then router("mautic_contact_action", map["objectAction" := Str("view"), "objectId" := lead["id"]])
               else "";
    [Cell(Get(lead, "name"), Some(if IsSet(lead, "id") then Link else Text), Some(url))]
  }

  function LeadRows(router: Router, leads: seq<Record>): seq<Row>
  {
    MapSeq(leads, (l: Record) => LeadRow(router, l))
  }

  /** The single row shown when no lead was created in the period. */
  function NoResultsRecord(translator: Translator): Record
  {
    map["name" := Str(translator("mautic.report.report.noresults", map[]))]
  }

  function LeadsOrPlaceholder(leads: seq<Record>, translator: Translator): seq<Record>
  {
    if leads == [] then [NoResultsRecord(translator)] else leads
  }

  // ----- The lifecycle widget -----

  /** The chosen segments (`$params['flag']`) as passed to the segment query: none chosen is `[]`. */
  function SegmentFlag(p: WidgetParams): Value
  {
    if !p.flag.Null? then p.flag else List([])
  }

  /** How many segments the lifecycle widget asks for: 4, or as many as were chosen. */
  function SegmentCap(p: WidgetParams): nat
  {
    if !p.flag.Null? then Count(p.flag) else DefaultMaxSegments
  }

  /** The filter before the segment loop: the params' filter with `flag` set to the chosen segments. */
  function LifecycleFilter(p: WidgetParams): Record
  {
    FilterArray(p)["flag" := SegmentFlag(p)]
  }

  /** The stand-in segment shown when the segment query returns nothing. */
  function AllLeadsSegment(translator: Translator): Record
  {
    map["leads" := Int(0), "id" := Int(0),
        "name" := Str(translator("mautic.lead.all.leads", map[])), "alias" := Str("")]
  }

  function SegmentsOrPlaceholder(lists: seq<Record>, translator: Translator): seq<Record>
  {
    if lists == [] then [AllLeadsSegment(translator)] else lists
  }

  /** The contact-index link of a segment, searching for it unless its alias is (loosely) empty. */
  function SegmentLink(router: Router, segment: Record): string
  {
    if !LooselyEqualsEmptyString(Get(segment, "alias"))
    then router("mautic_contact_index", map["search" := Str("segment:" + ToStr(Get(segment, "alias")))])
    else router("mautic_contact_index", map[])
  }

  /** The filter for one segment's charts: restricted to the segment when it has an id, unrestricted otherwise. */
  function WithSegment(filter: Record, segment: Record): Record
  {
    if Truthy(Get(segment, "id"))
    then filter["leadlist_id" := Dict(map["value" := Get(segment, "id"), "list_column_name" := Str("t.id")])]
    else filter - {"leadlist_id"}
  }

  function ColumnNames(segments: seq<Record>): seq<Value>
  {
    MapSeq(segments, (s: Record) => Get(s, "name"))
  }

  function LeadCounts(segments: seq<Record>): seq<Value>
  {
    MapSeq(segments, (s: Record) => Get(s, "leads"))
  }

  function SegmentLinks(router: Router, segments: seq<Record>): seq<string>
  {
    MapSeq(segments, (s: Record) => SegmentLink(router, s))
  }

  function SegmentCharts(m: ListModel, p: WidgetParams, filter: Record, canViewOthers: bool, segments: seq<Record>): seq<Value>
  {
    MapSeq(segments, (s: Record) =>
      m.lifeCycleSegmentChartData(p.timeUnit, p.dateFrom, p.dateTo, p.dateFormat,
                                  WithSegment(filter, s), canViewOthers, Get(s, "name")))
  }

  function SegmentStages(m: ListModel, p: WidgetParams, filter: Record, canViewOthers: bool, segments: seq<Record>): seq<Value>
  {
    MapSeq(segments, (s: Record) =>
      m.stagesBarChartData(p.timeUnit, p.dateFrom, p.dateTo, p.dateFormat, WithSegment(filter, s), canViewOthers))
  }

  function SegmentDevices(m: ListModel, p: WidgetParams, filter: Record, canViewOthers: bool, segments: seq<Record>): seq<Value>
  {
    MapSeq(segments, (s: Record) =>
      m.deviceGranularityData(p.timeUnit, p.dateFrom, p.dateTo, p.dateFormat, WithSegment(filter, s), canViewOthers))
  }

  /** The three chart queries issued for each of `n` segments. */
  function PerSegmentQueries(n: nat): seq<Query>
  {
    if n == 0 then []
    else PerSegmentQueries(n - 1) + [GetLifeCycleSegmentChartData, GetStagesBarChartData, GetDeviceGranularityData]
  }

  /** The segments the lifecycle widget shows. */
  function LifecycleSegments(d: Collaborators, r: Request): seq<Record>
  {
    var p := r.params;
    var lists := d.leadListModel.lifeCycleSegments(SegmentCap(p), p.dateFrom, p.dateTo, r.canViewOthers, SegmentFlag(p));
    SegmentsOrPlaceholder(lists, r.eventTranslator)
  }

  function LifecyclePayload(d: Collaborators, r: Request): TemplateData
  {
    var p := r.params;
    var segments := LifecycleSegments(d, r);
    var filter := LifecycleFilter(p);
    Lifecycle(
      ColumnNames(segments), LeadCounts(segments), |segments|, SegmentLinks(d.router, segments),
      "pie", r.height - LifecycleChromeHeight,
      SegmentCharts(d.leadListModel, p, filter, r.canViewOthers, segments),
      SegmentStages(d.leadListModel, p, filter, r.canViewOthers, segments),
      SegmentDevices(d.leadListModel, p, filter, r.canViewOthers, segments))
  }

  // ----- The remaining payloads -----

  /**
   * The in-time chart's filter: the params' filter, with `flag` copied in when
   * it is set (creating the filter if there was none); null when there is
   * neither.
   */
  function InTimeFilter(p: WidgetParams): Value
  {
    if !p.flag.Null? then Dict(FilterArray(p)["flag" := p.flag])
    else if p.filter.Some? then Dict(p.filter.value)
    else Null
  }

  function InTimeChart(d: Collaborators, r: Request): TemplateData
  {
    var p := r.params;
    Chart("line", r.height - ChromeHeight,
          d.leadModel.leadsLineChartData(p.timeUnit, p.dateFrom, p.dateTo, p.dateFormat, InTimeFilter(p), r.canViewOthers))
  }

  function AnonymousVsIdentifiedChart(d: Collaborators, r: Request): TemplateData
  {
    Chart("pie", r.height - ChromeHeight,
          d.leadModel.anonymousVsIdentifiedPieChartData(r.params.dateFrom, r.params.dateTo, r.canViewOthers))
  }

  function LeadMap(d: Collaborators, r: Request): TemplateData
  {
    GeoMap(r.height - ChromeHeight, d.leadModel.leadMapData(r.params.dateFrom, r.params.dateTo, r.canViewOthers))
  }

  function TopListsTable(d: Collaborators, r: Request): TemplateData
  {
    var p := r.params;
    var lists := d.leadListModel.topLists(RowLimit(p, r.height), p.dateFrom, p.dateTo, r.canViewOthers);
    Table(TopListsHead, TopListRows(d.router, lists), lists)
  }

  function TopOwnersTable(d: Collaborators, r: Request): TemplateData
  {
    var p := r.params;
    var owners := d.leadModel.topOwners(RowLimit(p, r.height), p.dateFrom, p.dateTo);
    Table(UsersHead, OwnerRows(d.router, owners), owners)
  }

  function TopCreatorsTable(d: Collaborators, r: Request): TemplateData
  {
    var p := r.params;
    var creators := d.leadModel.topCreators(RowLimit(p, r.height), p.dateFrom, p.dateTo);
    Table(UsersHead, CreatorRows(d.router, creators), creators)
  }

  function CreatedLeadsRecords(d: Collaborators, r: Request): seq<Record>
  {
    var p := r.params;
    LeadsOrPlaceholder(d.leadModel.leadList(RowLimit(p, r.height), p.dateFrom, p.dateTo, r.canViewOthers), d.translator)
  }

  function CreatedLeadsTable(d: Collaborators, r: Request): TemplateData
  {
    var leads := CreatedLeadsRecords(d, r);
    Table(CreatedLeadsHead, LeadRows(d.router, leads), leads)
  }

  function MissingPermissionMessage(translator: Translator): string
  {
    translator("mautic.dashboard.missing.permission", map["%section%" := Bundle])
  }

  /** A widget that reuses its cached payload sets only its template; otherwise it computes `data` with `queries`. */
  function Resolved(template: string, cached: bool, data: TemplateData, queries: seq<Query>): Effect
  {
    Effect(Some(template), if cached then None else Some(data), None, true, if cached then [] else queries)
  }

  /** What `onWidgetDetailGenerate` does to an event carrying request `r`. */
  function Outcome(d: Collaborators, r: Request): Effect
  {
    if r.widgetType == CreatedLeadsInTime then
      Resolved(ChartTemplate, r.cached, InTimeChart(d, r), [GetLeadsLineChartData])
    else if r.widgetType == AnonymousVsIdentifiedLeads then
      Resolved(ChartTemplate, r.cached, AnonymousVsIdentifiedChart(d, r), [GetAnonymousVsIdentifiedPieChartData])
    else if r.widgetType == MapOfLeads then
      Resolved(MapTemplate, r.cached, LeadMap(d, r), [GetLeadMapData])
    else if r.widgetType == TopLists then
      Resolved(TableTemplate, r.cached, TopListsTable(d, r), [GetTopLists])
    else if r.widgetType == LeadLifetime then
      Effect(Some(LifecycleTemplate), Some(LifecyclePayload(d, r)), None, true,
             [GetLifeCycleSegments] + PerSegmentQueries(|LifecycleSegments(d, r)|))
    else if r.widgetType == TopOwners then
      if !r.canViewOthers then Effect(None, None, Some(MissingPermissionMessage(d.translator)), true, [])
      else Resolved(TableTemplate, r.cached, TopOwnersTable(d, r), [GetTopOwners])
    else if r.widgetType == TopCreators then
      if !r.canViewOthers then Effect(None, None, Some(MissingPermissionMessage(d.translator)), true, [])
      else Resolved(TableTemplate, r.cached, TopCreatorsTable(d, r), [GetTopCreators])
    else if r.widgetType == CreatedLeads then
      Resolved(TableTemplate, r.cached, CreatedLeadsTable(d, r), [GetLeadList])
    else
      NoEffect
  }

  // ----- The event -----

  /**
   * `WidgetDetailEvent` as far as this listener uses it: what it reads is fixed
   * when the event is raised; the template, template data, error message and
   * propagation flag are what listeners set.
   */
  class WidgetDetailEvent {
    const widgetType: string
    const height: int
    const params: WidgetParams
    const cached: bool
    /** The outcome of `hasPermission('form:forms:viewother')`. */
    const canViewOthers: bool
    const translator: Translator

    var template: Option<string>
    var templateData: Option<TemplateData>
    var errorMessage: Option<string>
    var propagationStopped: bool

    constructor (widgetType: string, height: int, params: WidgetParams, cached: bool,
                 canViewOthers: bool, translator: Translator)
      ensures this.widgetType == widgetType && this.height == height && this.params == params
      ensures this.cached == cached && this.canViewOthers == canViewOthers && this.translator == translator
      ensures template == None && templateData == None && errorMessage == None && !propagationStopped
    {
      this.widgetType := widgetType;
      this.height := height;
      this.params := params;
      this.cached := cached;
      this.canViewOthers := canViewOthers;
      this.translator := translator;
      template := None;
      templateData := None;
      errorMessage := None;
      propagationStopped := false;
    }

    /** The event's read-only part as a value. */
    function AsRequest(): Request
    {
      Request(widgetType, height, params, cached, canViewOthers, translator)
    }

    method SetTemplate(t: string)
      modifies this
      ensures template == Some(t)
      ensures templateData == old(templateData) && errorMessage == old(errorMessage)
      ensures propagationStopped == old(propagationStopped)
    {
      template := Some(t);
    }

    method SetTemplateData(data: TemplateData)
      modifies this
      ensures templateData == Some(data)
      ensures template == old(template) && errorMessage == old(errorMessage)
      ensures propagationStopped == old(propagationStopped)
    {
      templateData := Some(data);
    }

    method SetErrorMessage(message: string)
      modifies this
      ensures errorMessage == Some(message)
      ensures template == old(template) && templateData == old(templateData)
      ensures propagationStopped == old(propagationStopped)
    {
      errorMessage := Some(message);
    }

    method StopPropagation()
      modifies this
      ensures propagationStopped
      ensures template == old(template) && templateData == old(templateData)
      ensures errorMessage == old(errorMessage)
    {
      propagationStopped := true;
    }
  }

  // ----- The subscriber -----

  class DashboardSubscriber {
    const leadModel: LeadModel
    const leadListModel: ListModel
    const router: Router
    const translator: Translator

    constructor (leadModel: LeadModel, leadListModel: ListModel, router: Router, translator: Translator)
      ensures Deps() == Collaborators(leadModel, leadListModel, router, translator)
    {
      this.leadModel := leadModel;
      this.leadListModel := leadListModel;
      this.router := router;
      this.translator := translator;
    }

    function Deps(): Collaborators
    {
      Collaborators(leadModel, leadListModel, router, translator)
    }

    /** The row limit: counted from the widget height when `$params['limit']` is empty, passed through otherwise. */
    method ComputeLimit(params: WidgetParams, height: int) returns (limit: Value)
      ensures IsEmpty(params.limit) ==> limit == Int(HeightLimit(height))
      ensures !IsEmpty(params.limit) ==> limit == params.limit
    {
      if IsEmpty(params.limit) {
        limit := Int(HeightLimit(height));
      } else {
        limit := params.limit;
      }
    }

    /** One linked row per segment, in the segments' order. */
    method BuildTopListRows(lists: seq<Record>) returns (items: seq<Row>)
      ensures items == TopListRows(router, lists)
    {
      items := [];
      for i := 0 to |lists|
        invariant items == TopListRows(router, lists[..i])
      {
        assert lists[..i + 1][..i] == lists[..i];
        items := items + [TopListRow(router, lists[i])];
      }
      assert lists[..|lists|] == lists;
    }

    /** One row per owner, in the owners' order. */
    method BuildOwnerRows(owners: seq<Record>) returns (items: seq<Row>)
      ensures items == OwnerRows(router, owners)
    {
      items := [];
      for i := 0 to |owners|
        invariant items == OwnerRows(router, owners[..i])
      {
        assert owners[..i + 1][..i] == owners[..i];
        items := items + [OwnerRow(router, owners[i])];
      }
      assert owners[..|owners|] == owners;
    }

    /** One row per creator, in the creators' order. */
    method BuildCreatorRows(creators: seq<Record>) returns (items: seq<Row>)
      ensures items == CreatorRows(router, creators)
    {
      items := [];
      for i := 0 to |creators|
        invariant items == CreatorRows(router, creators[..i])
      {
        assert creators[..i + 1][..i] == creators[..i];
        items := items + [CreatorRow(router, creators[i])];
      }
      assert creators[..|creators|] == creators;
    }

    /** One row per lead, in the leads' order. */
    method BuildLeadRows(leads: seq<Record>) returns (items: seq<Row>)
      ensures items == LeadRows(router, leads)
    {
      items := [];
      for i := 0 to |leads|
        invariant items == LeadRows(router, leads[..i])
      {
        assert leads[..i + 1][..i] == leads[..i];
        var lead := leads[i];
        var url := if IsSet(lead, "id")
                   then router("mautic_contact_action", map["objectAction" := Str("view"), "objectId" := lead["id"]])
                   else "";
        var cellType := if IsSet(lead, "id") then Link else Text;
        items := items + [[Cell(Get(lead, "name"), Some(cellType), Some(url))]];
      }
      assert leads[..|leads|] == leads;
    }

    /**
     * The lifecycle loop: for each segment, its link, its chart filter (restricted
     * to the segment, or not), and its three charts, appended column by column.
     */
    method BuildLifecycleColumns(params: WidgetParams, filter: Record, canViewOthers: bool, segments: seq<Record>)
      returns (columnName: seq<Value>, value: seq<Value>, link: seq<string>,
               chartItems: seq<Value>, stages: seq<Value>, devices: seq<Value>, queries: seq<Query>)
      ensures columnName == ColumnNames(segments) && value == LeadCounts(segments)
      ensures link == SegmentLinks(router, segments)
      ensures chartItems == SegmentCharts(leadListModel, params, filter, canViewOthers, segments)
      ensures stages == SegmentStages(leadListModel, params, filter, canViewOthers, segments)
      ensures devices == SegmentDevices(leadListModel, params, filter, canViewOthers, segments)
      ensures queries == PerSegmentQueries(|segments|)
    {
      columnName, value, link, chartItems, stages, devices, queries := [], [], [], [], [], [], [];
      var current := filter;
      for i := 0 to |segments|
        invariant columnName == ColumnNames(segments[..i]) && value == LeadCounts(segments[..i])
        invariant link == SegmentLinks(router, segments[..i])
        invariant chartItems == SegmentCharts(leadListModel, params, filter, canViewOthers, segments[..i])
        invariant stages == SegmentStages(leadListModel, params, filter, canViewOthers, segments[..i])
        invariant devices == SegmentDevices(leadListModel, params, filter, canViewOthers, segments[..i])
        invariant queries == PerSegmentQueries(i)
        invariant i == 0 ==> current == filter
        invariant 0 < i ==> current == WithSegment(filter, segments[i - 1])
      {
        assert segments[..i + 1][..i] == segments[..i];
        var segment := segments[i];
        var listUrl;
        if !LooselyEqualsEmptyString(Get(segment, "alias")) {
          listUrl := router("mautic_contact_index", map["search" := Str("segment:" + ToStr(Get(segment, "alias")))]);
        } else {
          listUrl := router("mautic_contact_index", map[]);
        }
        if Truthy(Get(segment, "id")) {
          current := current["leadlist_id" := Dict(map["value" := Get(segment, "id"), "list_column_name" := Str("t.id")])];
        } else {
          current := current - {"leadlist_id"};
        }
        assert current == WithSegment(filter, segment) by {
          if 0 < i {
            WithSegmentOverwrites(filter, segments[i - 1], segment);
          }
        }
        var column := leadListModel.lifeCycleSegmentChartData(
          params.timeUnit, params.dateFrom, params.dateTo, params.dateFormat, current, canViewOthers, Get(segment, "name"));
        columnName := columnName + [Get(segment, "name")];
        value := value + [Get(segment, "leads")];
        link := link + [listUrl];
        chartItems := chartItems + [column];
        stages := stages + [leadListModel.stagesBarChartData(
          params.timeUnit, params.dateFrom, params.dateTo, params.dateFormat, current, canViewOthers)];
        devices := devices + [leadListModel.deviceGranularityData(
          params.timeUnit, params.dateFrom, params.dateTo, params.dateFormat, current, canViewOthers)];
        queries := queries + [GetLifeCycleSegmentChartData, GetStagesBarChartData, GetDeviceGranularityData];
      }
      assert segments[..|segments|] == segments;
    }

    /**
     * The event after handling is the event before with `Outcome`'s effect
     * applied: what it sets replaces the old value, the rest stays; `issued`
     * lists the data queries made.
     */
    twostate predicate Answered(event: WidgetDetailEvent, issued: seq<Query>)
      reads event
    {
      var eff := Outcome(Deps(), event.AsRequest());
      && event.template == eff.template.OrElse(old(event.template))
      && event.templateData == eff.data.OrElse(old(event.templateData))
      && event.errorMessage == eff.error.OrElse(old(event.errorMessage))
      && event.propagationStopped == (old(event.propagationStopped) || eff.stops)
      && issued == eff.queries
    }

    /**
     * Answers the event if its type is one of the lead widgets and leaves it
     * untouched otherwise. Returns the data queries issued, in order.
     */
    method OnWidgetDetailGenerate(event: WidgetDetailEvent) returns (issued: seq<Query>)
      modifies event
      ensures Answered(event, issued)
    {
      if event.widgetType == CreatedLeadsInTime {
        issued := AnswerLeadsInTime(event);
        return;
      }
      if event.widgetType == AnonymousVsIdentifiedLeads {
        issued := AnswerAnonymousVsIdentified(event);
        return;
      }
      if event.widgetType == MapOfLeads {
        issued := AnswerMapOfLeads(event);
        return;
      }
      if event.widgetType == TopLists {
        issued := AnswerTopLists(event);
        return;
      }
      if event.widgetType == LeadLifetime {
        issued := AnswerLeadLifetime(event);
        return;
      }
      if event.widgetType == TopOwners {
        issued := AnswerTopOwners(event);
        return;
      }
      if event.widgetType == TopCreators {
        issued := AnswerTopCreators(event);
        return;
      }
      if event.widgetType == CreatedLeads {
        issued := AnswerCreatedLeads(event);
        return;
      }
      issued := [];
    }

    method AnswerLeadsInTime(event: WidgetDetailEvent) returns (issued: seq<Query>)
      requires event.widgetType == CreatedLeadsInTime
      modifies event
      ensures Answered(event, issued)
    {
      issued := [];
      var params := event.params;
      var filter: Value := if params.filter.Some? then Dict(params.filter.value) else Null;
      if !params.flag.Null? {
        var given := if params.filter.Some? then params.filter.value else map[];
        filter := Dict(given["flag" := params.flag]);
      }
      if !event.cached {
        event.SetTemplateData(Chart("line", event.height - ChromeHeight, leadModel.leadsLineChartData(
          params.timeUnit, params.dateFrom, params.dateTo, params.dateFormat, filter, event.canViewOthers)));
        issued := [GetLeadsLineChartData];
      }
      event.SetTemplate(ChartTemplate);
      event.StopPropagation();
    }

    method AnswerAnonymousVsIdentified(event: WidgetDetailEvent) returns (issued: seq<Query>)
      requires event.widgetType == AnonymousVsIdentifiedLeads
      modifies event
      ensures Answered(event, issued)
    {
      issued := [];
      if !event.cached {
        var params := event.params;
        event.SetTemplateData(Chart("pie", event.height - ChromeHeight,
          leadModel.anonymousVsIdentifiedPieChartData(params.dateFrom, params.dateTo, event.canViewOthers)));
        issued := [GetAnonymousVsIdentifiedPieChartData];
      }
      event.SetTemplate(ChartTemplate);
      event.StopPropagation();
    }

    method AnswerMapOfLeads(event: WidgetDetailEvent) returns (issued: seq<Query>)
      requires event.widgetType == MapOfLeads
      modifies event
      ensures Answered(event, issued)
    {
      issued := [];
      if !event.cached {
        var params := event.params;
        event.SetTemplateData(GeoMap(event.height - ChromeHeight,
          leadModel.leadMapData(params.dateFrom, params.dateTo, event.canViewOthers)));
        issued := [GetLeadMapData];
      }
      event.SetTemplate(MapTemplate);
      event.StopPropagation();
    }

    method AnswerTopLists(event: WidgetDetailEvent) returns (issued: seq<Query>)
      requires event.widgetType == TopLists
      modifies event
      ensures Answered(event, issued)
    {
      issued := [];
      if !event.cached {
        var params := event.params;
        var limit := ComputeLimit(params, event.height);
        var lists := leadListModel.topLists(limit, params.dateFrom, params.dateTo, event.canViewOthers);
        issued := [GetTopLists];
        var items: seq<Row> := [];
        if lists != [] {
          items := BuildTopListRows(lists);
        }
        event.SetTemplateData(Table(TopListsHead, items, lists));
      }
      event.SetTemplate(TableTemplate);
      event.StopPropagation();
    }

    method AnswerLeadLifetime(event: WidgetDetailEvent) returns (issued: seq<Query>)
      requires event.widgetType == LeadLifetime
      modifies event
      ensures Answered(event, issued)
    {
      var params := event.params;
      // The limit is computed as for the tables, but the lifecycle widget does not use it.
      var limit := ComputeLimit(params, event.height);
      var maxSegmentsToShow: nat := DefaultMaxSegments;
      var given := if params.filter.Some? then params.filter.value else map[];
      assert given == FilterArray(params);
      var filter := given["flag" := List([])];
      if !params.flag.Null? {
        filter := filter["flag" := params.flag];
        maxSegmentsToShow := Count(params.flag);
      }
      assert filter == given["flag" := SegmentFlag(params)];
      var lists := leadListModel.lifeCycleSegments(
        maxSegmentsToShow, params.dateFrom, params.dateTo, event.canViewOthers, filter["flag"]);
      issued := [GetLifeCycleSegments];
      if lists == [] {
        lists := [AllLeadsSegment(event.translator)];
      }
      assert filter == LifecycleFilter(params);
      var columnName, value, link, chartItems, stages, devices, queries :=
        BuildLifecycleColumns(params, filter, event.canViewOthers, lists);
      issued := issued + queries;
      event.SetTemplateData(Lifecycle(columnName, value, |lists|, link, "pie",
        event.height - LifecycleChromeHeight, chartItems, stages, devices));
      event.SetTemplate(LifecycleTemplate);
      event.StopPropagation();
    }

    method AnswerTopOwners(event: WidgetDetailEvent) returns (issued: seq<Query>)
      requires event.widgetType == TopOwners
      modifies event
      ensures Answered(event, issued)
    {
      issued := [];
      if !event.canViewOthers {
        event.SetErrorMessage(MissingPermissionMessage(translator));
        event.StopPropagation();
        return;
      }
      if !event.cached {
        var params := event.params;
        var limit := ComputeLimit(params, event.height);
        var owners := leadModel.topOwners(limit, params.dateFrom, params.dateTo);
        issued := [GetTopOwners];
        var items: seq<Row> := [];
        if owners != [] {
          items := BuildOwnerRows(owners);
        }
        event.SetTemplateData(Table(UsersHead, items, owners));
      }
      event.SetTemplate(TableTemplate);
      event.StopPropagation();
    }

    method AnswerTopCreators(event: WidgetDetailEvent) returns (issued: seq<Query>)
      requires event.widgetType == TopCreators
      modifies event
      ensures Answered(event, issued)
    {
      issued := [];
      if !event.canViewOthers {
        event.SetErrorMessage(MissingPermissionMessage(translator));
        event.StopPropagation();
        return;
      }
      if !event.cached {
        var params := event.params;
        var limit := ComputeLimit(params, event.height);
        var creators := leadModel.topCreators(limit, params.dateFrom, params.dateTo);
        issued := [GetTopCreators];
        var items: seq<Row> := [];
        if creators != [] {
          items := BuildCreatorRows(creators);
        }
        event.SetTemplateData(Table(UsersHead, items, creators));
      }
      event.SetTemplate(TableTemplate);
      event.StopPropagation();
    }

    method AnswerCreatedLeads(event: WidgetDetailEvent) returns (issued: seq<Query>)
      requires event.widgetType == CreatedLeads
      modifies event
      ensures Answered(event, issued)
    {
      issued := [];
      if !event.cached {
        var params := event.params;
        var limit := ComputeLimit(params, event.height);
        var leads := leadModel.leadList(limit, params.dateFrom, params.dateTo, event.canViewOthers);
        issued := [GetLeadList];
        if leads == [] {
          leads := [NoResultsRecord(translator)];
        }
        var items := BuildLeadRows(leads);
        event.SetTemplateData(Table(CreatedLeadsHead, items, leads));
      }
      event.SetTemplate(TableTemplate);
      event.StopPropagation();
    }
  }

  /** Restricting the filter to one segment discards whatever the previous segment set. */
  lemma WithSegmentOverwrites(filter: Record, previous: Record, segment: Record)
    ensures WithSegment(WithSegment(filter, previous), segment) == WithSegment(filter, segment)
  {
  }
}
