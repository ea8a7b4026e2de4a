/**
 * What the lead dashboard listener promises, proved of `Dashboard.Outcome`,
 * the effect `DashboardSubscriber.OnWidgetDetailGenerate` is proved to have.
 */
module DashboardProperties {
  import opened Wrappers
  import opened Php
  import opened Dashboard

  // ----- The row limit -----

  /** The limits of widgets 80, 115, 150 and 500 pixels high. */
  lemma HeightLimitExamples()
    ensures HeightLimit(80) == -1 && HeightLimit(115) == 0
    ensures HeightLimit(150) == 1 && HeightLimit(500) == 11
  {
  }

  /**
   * `HeightLimit` is the nearest integer to `(height - 80) / 35 - 1`: any
   * integer less than half a row away from it is that limit.
   */
  lemma HeightLimitIsNearest(height: int, limit: int)
    requires 70 * limit - 35 < 2 * (height - 115) < 70 * limit + 35
    ensures limit == HeightLimit(height)
  {
  }

  /** A taller widget never gets fewer rows. */
  lemma HeightLimitMonotone(lower: int, higher: int)
    requires lower <= higher
    ensures HeightLimit(lower) <= HeightLimit(higher)
  {
  }

  /** A table query gets the height-derived limit exactly when the explicit one is `empty`. */
  lemma RowLimitChoice(p: WidgetParams, height: int)
    ensures IsEmpty(p.limit) ==> RowLimit(p, height) == Int(HeightLimit(height))
    ensures !IsEmpty(p.limit) ==> RowLimit(p, height) == p.limit
    ensures p.limit == Null || p.limit == Int(0) || p.limit == Str("") || p.limit == Str("0") ==>
      RowLimit(p, height) == Int(HeightLimit(height))
  {
  }

  // ----- Which widgets are answered, and how -----

  /** The listener stops propagation exactly for the eight lead widgets. */
  lemma StopsExactlyKnownTypes(d: Collaborators, r: Request)
    ensures Outcome(d, r).stops <==> r.widgetType in WidgetTypes
  {
  }

  /** Any other widget type leaves the event untouched and queries nothing. */
  lemma UnknownTypeUntouched(d: Collaborators, r: Request)
    requires r.widgetType !in WidgetTypes
    ensures Outcome(d, r) == NoEffect
  {
  }

  /**
   * Top owners and top creators without the "view others" permission: an error
   * message, propagation stopped, no template, no data and no query.
   */
  lemma MissingPermission(d: Collaborators, r: Request)
    requires r.widgetType in RestrictedTypes && !r.canViewOthers
    ensures Outcome(d, r) ==
      Effect(None, None, Some(d.translator("mautic.dashboard.missing.permission", map["%section%" := "lead"])), true, [])
  {
  }

  /** An error message is set only for a restricted widget without the permission, and then nothing else is set. */
  lemma ErrorOnlyOnMissingPermission(d: Collaborators, r: Request)
    ensures Outcome(d, r).error.Some? <==> r.widgetType in RestrictedTypes && !r.canViewOthers
    ensures Outcome(d, r).error.Some? ==> Outcome(d, r).template.None? && Outcome(d, r).data.None?
  {
  }

  /**
   * A cached widget other than the lifecycle one: the template is set and
   * propagation stopped, but no data is set and no query is made.
   */
  lemma CachedRequestQueriesNothing(d: Collaborators, r: Request)
    requires r.widgetType in CacheableTypes && r.cached
    requires r.widgetType in RestrictedTypes ==> r.canViewOthers
    ensures Outcome(d, r).template.Some? && Outcome(d, r).stops
    ensures Outcome(d, r).data.None? && Outcome(d, r).queries == [] && Outcome(d, r).error.None?
  {
  }

  /** Every answered widget gets its template, and data exactly when it is not served from the cache. */
  lemma TemplatePerWidget(d: Collaborators, r: Request)
    requires r.widgetType in WidgetTypes - RestrictedTypes || r.canViewOthers
    requires r.widgetType in WidgetTypes
    ensures Outcome(d, r).template == Some(
      if r.widgetType in {CreatedLeadsInTime, AnonymousVsIdentifiedLeads} then ChartTemplate
      else if r.widgetType == MapOfLeads then MapTemplate
      else if r.widgetType == LeadLifetime then LifecycleTemplate
      else TableTemplate)
    ensures Outcome(d, r).data.Some? <==> !r.cached || r.widgetType == LeadLifetime
  {
  }

  // ----- Charts and the map -----

  /** Charts and the map are 80 pixels shorter than the widget; the lifecycle chart 180. */
  lemma ChartHeights(d: Collaborators, r: Request)
    requires !r.cached || r.widgetType == LeadLifetime
    ensures r.widgetType in {CreatedLeadsInTime, AnonymousVsIdentifiedLeads} ==>
      Outcome(d, r).data.Some? && Outcome(d, r).data.value.Chart? &&
      Outcome(d, r).data.value.chartHeight == r.height - 80
    ensures r.widgetType == MapOfLeads ==>
      Outcome(d, r).data.Some? && Outcome(d, r).data.value.GeoMap? &&
      Outcome(d, r).data.value.height == r.height - 80
    ensures r.widgetType == LeadLifetime ==>
      Outcome(d, r).data.Some? && Outcome(d, r).data.value.Lifecycle? &&
      Outcome(d, r).data.value.chartHeight == r.height - 180
  {
  }

  /**
   * The leads-in-time chart filters by `flag` when the widget has one, and by
   * the widget's filter otherwise; it gets null when the widget has neither.
   */
  lemma InTimeFlagCopied(p: WidgetParams)
    ensures !p.flag.Null? ==>
      InTimeFilter(p).Dict? && "flag" in InTimeFilter(p).entries && InTimeFilter(p).entries["flag"] == p.flag
    ensures InTimeFilter(p).Dict? ==> forall k :: k != "flag" ==>
      (k in InTimeFilter(p).entries <==> p.filter.Some? && k in p.filter.value)
    ensures InTimeFilter(p).Dict? && p.filter.Some? ==> forall k :: k != "flag" && k in p.filter.value ==>
      InTimeFilter(p).entries[k] == p.filter.value[k]
    ensures p.flag.Null? ==> InTimeFilter(p) == (if p.filter.Some? then Dict(p.filter.value) else Null)
    ensures InTimeFilter(p) == Null <==> p.flag.Null? && p.filter.None?
  {
  }

  // ----- Tables -----

  /** Top segments: one row per segment, its name and its lead count, both linked. */
  lemma TopListRowsShape(router: Router, lists: seq<Record>)
    ensures |TopListRows(router, lists)| == |lists|
    ensures forall i :: 0 <= i < |lists| ==>
      var row := TopListRows(router, lists)[i];
      && |row| == 2
      && row[0].value == Get(lists[i], "name") && row[0].cellType == Some(Link)
      && row[0].link == Some(router("mautic_segment_action",
                                    map["objectAction" := Str("edit"), "objectId" := Get(lists[i], "id")]))
      && row[1].value == Get(lists[i], "leads") && row[1].cellType == Some(Link)
      && row[1].link == Some(router("mautic_contact_index",
                                    map["search" := Str("segment:" + ToStr(Get(lists[i], "alias")))]))
  {
  }

  /** Top owners: one row per owner, the linked "first last" name, then the bare lead count. */
  lemma OwnerRowsShape(router: Router, owners: seq<Record>)
    ensures |OwnerRows(router, owners)| == |owners|
    ensures forall i :: 0 <= i < |owners| ==>
      var row := OwnerRows(router, owners)[i];
      && |row| == 2
      && row[0].value == Str(ToStr(Get(owners[i], "first_name")) + " " + ToStr(Get(owners[i], "last_name")))
      && row[0].cellType == Some(Link)
      && row[0].link == Some(router("mautic_user_action",
                                    map["objectAction" := Str("edit"), "objectId" := Get(owners[i], "owner_id")]))
      && row[1] == Cell(Get(owners[i], "leads"), None, None)
  {
  }

  /** Top creators: one row per creator, the linked user name, then the bare lead count. */
  lemma CreatorRowsShape(router: Router, creators: seq<Record>)
    ensures |CreatorRows(router, creators)| == |creators|
    ensures forall i :: 0 <= i < |creators| ==>
      var row := CreatorRows(router, creators)[i];
      && |row| == 2
      && row[0].value == Get(creators[i], "created_by_user") && row[0].cellType == Some(Link)
      && row[0].link == Some(router("mautic_user_action",
                                    map["objectAction" := Str("edit"), "objectId" := Get(creators[i], "created_by")]))
      && row[1] == Cell(Get(creators[i], "leads"), None, None)
  {
  }

  /** A created lead's cell is a link to the lead if and only if the lead has an id; otherwise plain text with no link. */
  lemma LeadRowsLinkIffId(router: Router, leads: seq<Record>)
    ensures |LeadRows(router, leads)| == |leads|
    ensures forall i :: 0 <= i < |leads| ==>
      var row := LeadRows(router, leads)[i];
      && |row| == 1 && row[0].value == Get(leads[i], "name")
      && (row[0].cellType == Some(Link) <==> IsSet(leads[i], "id"))
      && (IsSet(leads[i], "id") ==>
            row[0].link == Some(router("mautic_contact_action",
                                       map["objectAction" := Str("view"), "objectId" := leads[i]["id"]])))
      && (!IsSet(leads[i], "id") ==> row[0].cellType == Some(Text) && row[0].link == Some(""))
  {
  }

  /** The table widgets' bodies: one row per record the query returned. */
  lemma TableBodyPerRecord(d: Collaborators, r: Request)
    requires !r.cached
    requires r.widgetType in {TopLists, TopOwners, TopCreators}
    requires r.widgetType in RestrictedTypes ==> r.canViewOthers
    ensures Outcome(d, r).data.Some? && Outcome(d, r).data.value.Table?
    ensures |Outcome(d, r).data.value.bodyItems| == |Outcome(d, r).data.value.raw|
    ensures r.widgetType == TopLists ==>
      Outcome(d, r).data.value.raw == d.leadListModel.topLists(RowLimit(r.params, r.height), r.params.dateFrom, r.params.dateTo, r.canViewOthers)
    ensures r.widgetType == TopOwners ==>
      Outcome(d, r).data.value.raw == d.leadModel.topOwners(RowLimit(r.params, r.height), r.params.dateFrom, r.params.dateTo)
    ensures r.widgetType == TopCreators ==>
      Outcome(d, r).data.value.raw == d.leadModel.topCreators(RowLimit(r.params, r.height), r.params.dateFrom, r.params.dateTo)
  {
  }

  /** Created leads: one row per lead, or, when there is none, exactly one plain "no results" row. */
  lemma CreatedLeadsRows(d: Collaborators, r: Request)
    requires r.widgetType == CreatedLeads && !r.cached
    ensures var leads := d.leadModel.leadList(RowLimit(r.params, r.height), r.params.dateFrom, r.params.dateTo, r.canViewOthers);
      && Outcome(d, r).data.Some? && Outcome(d, r).data.value.Table?
      && (leads != [] ==> Outcome(d, r).data.value.raw == leads
                          && |Outcome(d, r).data.value.bodyItems| == |leads|)
      && (leads == [] ==>
            Outcome(d, r).data.value.bodyItems ==
              [[Cell(Str(d.translator("mautic.report.report.noresults", map[])), Some(Text), Some(""))]])
  {
    var leads := d.leadModel.leadList(RowLimit(r.params, r.height), r.params.dateFrom, r.params.dateTo, r.canViewOthers);
    if leads == [] {
      var rows := LeadRows(d.router, [NoResultsRecord(d.translator)]);
      assert |rows| == 1;
      assert rows[0] == LeadRow(d.router, NoResultsRecord(d.translator));
    }
  }

  // ----- The lifecycle widget -----

  /** The lifecycle widget ignores the cache: cached or not, it does the same. */
  lemma LifetimeIgnoresCache(d: Collaborators, r: Request)
    requires r.widgetType == LeadLifetime
    ensures Outcome(d, r) == Outcome(d, r.(cached := !r.cached))
  {
  }

  /** The segment query asks for as many segments as were chosen, or for 4 when none were. */
  lemma SegmentCapRule(d: Collaborators, r: Request)
    ensures var p := r.params;
      var asked := if !p.flag.Null? then Count(p.flag) else 4;
      var lists := d.leadListModel.lifeCycleSegments(asked, p.dateFrom, p.dateTo, r.canViewOthers, SegmentFlag(p));
      LifecycleSegments(d, r) == if lists == [] then [AllLeadsSegment(r.eventTranslator)] else lists
  {
  }

  /**
   * The lifecycle payload has one column per segment shown (at least one), in
   * each of its six parallel arrays, and its width is split between them.
   */
  lemma LifetimeColumnsAligned(d: Collaborators, r: Request)
    requires r.widgetType == LeadLifetime
    ensures var n := |LifecycleSegments(d, r)|;
      && Outcome(d, r).data.Some? && Outcome(d, r).data.value.Lifecycle?
      && var data := Outcome(d, r).data.value;
      && 1 <= n && data.widthDivisor == n
      && |data.columnName| == n && |data.value| == n && |data.link| == n
      && |data.chartItems| == n && |data.stages| == n && |data.devices| == n
  {
  }

  /** No segment found: a single "all leads" column with no leads, linking to the unfiltered contact list. */
  lemma LifetimePlaceholder(d: Collaborators, r: Request)
    requires r.widgetType == LeadLifetime
    requires var p := r.params;
      d.leadListModel.lifeCycleSegments(SegmentCap(p), p.dateFrom, p.dateTo, r.canViewOthers, SegmentFlag(p)) == []
    ensures LifecycleSegments(d, r) == [AllLeadsSegment(r.eventTranslator)]
    ensures Outcome(d, r).data.Some? && Outcome(d, r).data.value.Lifecycle?
    ensures Outcome(d, r).data.value.columnName == [Str(r.eventTranslator("mautic.lead.all.leads", map[]))]
    ensures Outcome(d, r).data.value.value == [Int(0)]
    ensures Outcome(d, r).data.value.link == [d.router("mautic_contact_index", map[])]
  {
    var all := AllLeadsSegment(r.eventTranslator);
    assert Get(all, "alias") == Str("");
    assert ColumnNames([all])[0] == Get(all, "name");
    assert LeadCounts([all])[0] == Get(all, "leads");
    assert SegmentLinks(d.router, [all])[0] == SegmentLink(d.router, all);
  }

  /** Each segment's column: its name, its lead count, and its link, which searches for the segment unless its alias is empty. */
  lemma LifetimeColumn(d: Collaborators, r: Request, k: nat)
    requires r.widgetType == LeadLifetime
    requires k < |LifecycleSegments(d, r)|
    ensures var s := LifecycleSegments(d, r)[k];
      && Outcome(d, r).data.Some? && Outcome(d, r).data.value.Lifecycle?
      && var data := Outcome(d, r).data.value;
      && k < |data.columnName| && data.columnName[k] == Get(s, "name")
      && k < |data.value| && data.value[k] == Get(s, "leads")
      && k < |data.link|
      && (LooselyEqualsEmptyString(Get(s, "alias")) ==> data.link[k] == d.router("mautic_contact_index", map[]))
      && (!LooselyEqualsEmptyString(Get(s, "alias")) ==>
            data.link[k] == d.router("mautic_contact_index", map["search" := Str("segment:" + ToStr(Get(s, "alias")))]))
  {
  }

  /**
   * Each segment's charts are filtered by the chosen segments, and restricted to
   * that segment exactly when it has an id; no segment's restriction carries
   * over to the next.
   */
  lemma SegmentChartFilter(p: WidgetParams, segment: Record)
    ensures var f := WithSegment(LifecycleFilter(p), segment);
      && "flag" in f && f["flag"] == SegmentFlag(p)
      && ("leadlist_id" in f <==> Truthy(Get(segment, "id")))
      && (Truthy(Get(segment, "id")) ==>
            f["leadlist_id"] == Dict(map["value" := Get(segment, "id"), "list_column_name" := Str("t.id")]))
      && (forall k :: k != "flag" && k != "leadlist_id" ==>
            (k in f <==> p.filter.Some? && k in p.filter.value))
      && (p.filter.Some? ==> forall k :: k != "flag" && k != "leadlist_id" && k in p.filter.value ==>
            f[k] == p.filter.value[k])
  {
  }

  /** The chart queries of the lifecycle widget: three per segment, in this order. */
  lemma {:induction false} PerSegmentQueriesShape(n: nat)
    ensures |PerSegmentQueries(n)| == 3 * n
    ensures forall k :: 0 <= k < n ==>
      && PerSegmentQueries(n)[3 * k] == GetLifeCycleSegmentChartData
      && PerSegmentQueries(n)[3 * k + 1] == GetStagesBarChartData
      && PerSegmentQueries(n)[3 * k + 2] == GetDeviceGranularityData
  {
    if n > 0 {
      PerSegmentQueriesShape(n - 1);
      var q := PerSegmentQueries(n);
      assert q == PerSegmentQueries(n - 1) + [GetLifeCycleSegmentChartData, GetStagesBarChartData, GetDeviceGranularityData];
      forall k | 0 <= k < n
        ensures q[3 * k] == GetLifeCycleSegmentChartData
        ensures q[3 * k + 1] == GetStagesBarChartData
        ensures q[3 * k + 2] == GetDeviceGranularityData
      {
        if k < n - 1 {
          assert 3 * k + 2 < 3 * (n - 1);
        }
      }
    }
  }

  /** The lifecycle widget queries the segments once and then charts each segment it shows. */
  lemma LifetimeQueries(d: Collaborators, r: Request)
    requires r.widgetType == LeadLifetime
    ensures |Outcome(d, r).queries| == 1 + 3 * |LifecycleSegments(d, r)|
    ensures Outcome(d, r).queries[0] == GetLifeCycleSegments
  {
    PerSegmentQueriesShape(|LifecycleSegments(d, r)|);
  }
}
