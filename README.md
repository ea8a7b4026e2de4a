# Lead dashboard widgets and sidebar canvases, in Dafny

This project models two small pieces of a marketing-automation CRM.

**The lead dashboard listener** (`DashboardSubscriber::onWidgetDetailGenerate`).
When the dashboard asks for one of the eight lead widgets, the listener does the following:
- it picks the widget's template;
- unless a cached payload exists, it builds the payload from the lead and segment models;
- the payload is a line or pie chart, a map, a table or the lifecycle columns;
- two widgets need the "view others" permission, and without it the listener reports an error instead;
- in every case it stops the event's propagation.

Any other widget type is left to other listeners.

The model has these parts:
- `WidgetDetailEvent` is a class whose template, template data, error message and propagation flag the listener sets.
- `DashboardSubscriber.OnWidgetDetailGenerate` does the work step by step, in the source's order, with the source's loops.
- The models, the router and the translator are function values, so each query is a fixed function of its arguments.
- The method returns the list of data queries it made. This is how "no query is made" is stated.
- `Dashboard.Outcome` gives, as a value, what handling a request does. The method is proved to have exactly that effect (`Answered`).
- The listener's properties are lemmas about `Outcome`, in module `DashboardProperties`.

**The sidebar canvas event** (`SidebarCanvasEvent`).
- It keeps three canvases: left, right and main.
- Each push replaces one canvas with a map that holds exactly three sections: `header`, `footer` and `content`.
- A supplied section that is set is kept. A missing or null section becomes `''`. Any other key is dropped.
- The class methods are proved against `Pushed`, a function on the value of the three canvases. The frame, replacement and idempotence properties are lemmas about `Pushed`.

PHP values are modelled in module `Php`: `isset`, `empty`, truthiness, `count`, string conversion and loose comparison with `''`, following PHP 7.

Points of the code that the model keeps as written:
- The lifecycle widget never consults the cache, unlike the other seven widgets.
- The limit is `round((height - 80) / 35 - 1)`, which equals `round((height - 80) / 35) - 1` for every integer height: 35 is odd, so no tie can occur.
- A parameter key the widget lacks reads as null, as PHP reads a missing key. It is not a precondition. A missing filter is `None`. PHP hands it to the leads-in-time query as null when no `flag` is set. Writing `flag` or `leadlist_id` into a missing filter creates the array first.
- The doc comment on `pushToMainCanvas` says a header is not allowed on the main canvas. The code stores it anyway, and so does the model (`MainKeepsHeader`).

## Model

| member | source | states |
|---|---|---|
| `Dashboard.HeightLimit` | app/bundles/LeadBundle/EventListener/DashboardSubscriber.php:153-158 | the height-derived limit is less than half a row away from (height − 115) / 35, and is never exactly half-way (35 is odd) |
| `DashboardProperties.HeightLimitExamples` | app/bundles/LeadBundle/EventListener/DashboardSubscriber.php:155 | heights 80, 115, 150 and 500 give limits −1, 0, 1 and 11 |
| `DashboardProperties.HeightLimitIsNearest` | app/bundles/LeadBundle/EventListener/DashboardSubscriber.php:155 | every integer within half a row of (height − 115) / 35 equals the computed limit, so the limit is the nearest-integer rounding |
| `DashboardProperties.HeightLimitMonotone` | app/bundles/LeadBundle/EventListener/DashboardSubscriber.php:155 | a taller widget never gets a smaller limit |
| `Dashboard.DashboardSubscriber.ComputeLimit` | app/bundles/LeadBundle/EventListener/DashboardSubscriber.php:313-318 | an `empty` limit parameter gives the height-derived limit; a non-empty one is passed through unchanged |
| `DashboardProperties.RowLimitChoice` | app/bundles/LeadBundle/EventListener/DashboardSubscriber.php:416-421 | the table queries get the height-derived limit when the parameter is null, 0, '' or '0', and the parameter itself when it is not empty |
| `Dashboard.MapSeq` | app/bundles/LeadBundle/EventListener/DashboardSubscriber.php:164-181 | building rows one record at a time gives one result per record, the i-th computed from the i-th record |
| `Dashboard.DashboardSubscriber.BuildTopListRows` | app/bundles/LeadBundle/EventListener/DashboardSubscriber.php:161-181 | the loop builds exactly one top-segment row per segment, in order |
| `Dashboard.DashboardSubscriber.BuildOwnerRows` | app/bundles/LeadBundle/EventListener/DashboardSubscriber.php:321-339 | the loop builds exactly one owner row per owner, in order |
| `Dashboard.DashboardSubscriber.BuildCreatorRows` | app/bundles/LeadBundle/EventListener/DashboardSubscriber.php:376-394 | the loop builds exactly one creator row per creator, in order |
| `Dashboard.DashboardSubscriber.BuildLeadRows` | app/bundles/LeadBundle/EventListener/DashboardSubscriber.php:432-446 | the loop builds exactly one lead row per lead, in order |
| `Dashboard.DashboardSubscriber.BuildLifecycleColumns` | app/bundles/LeadBundle/EventListener/DashboardSubscriber.php:230-281 | the lifecycle loop appends, for each segment, its name, lead count, link and three charts; each chart uses a filter restricted to that segment alone; the loop makes three chart queries per segment |
| `Dashboard.WithSegmentOverwrites` | app/bundles/LeadBundle/EventListener/DashboardSubscriber.php:241-248 | restricting the in-place filter to a segment discards the previous segment's restriction |
| `Dashboard.DashboardSubscriber.OnWidgetDetailGenerate` | app/bundles/LeadBundle/EventListener/DashboardSubscriber.php:84-462 | the event ends up with exactly the template, data, error and stop flag that `Outcome` gives, everything else as it was, and the returned queries are the ones `Outcome` lists |
| `Dashboard.DashboardSubscriber.AnswerLeadsInTime` | app/bundles/LeadBundle/EventListener/DashboardSubscriber.php:89-116 | the leads-in-time branch has `Outcome`'s effect |
| `Dashboard.DashboardSubscriber.AnswerAnonymousVsIdentified` | app/bundles/LeadBundle/EventListener/DashboardSubscriber.php:118-132 | the anonymous-versus-identified branch has `Outcome`'s effect |
| `Dashboard.DashboardSubscriber.AnswerMapOfLeads` | app/bundles/LeadBundle/EventListener/DashboardSubscriber.php:134-147 | the map branch has `Outcome`'s effect |
| `Dashboard.DashboardSubscriber.AnswerTopLists` | app/bundles/LeadBundle/EventListener/DashboardSubscriber.php:149-198 | the top-segments branch has `Outcome`'s effect |
| `Dashboard.DashboardSubscriber.AnswerLeadLifetime` | app/bundles/LeadBundle/EventListener/DashboardSubscriber.php:200-300 | the lifecycle branch has `Outcome`'s effect |
| `Dashboard.DashboardSubscriber.AnswerTopOwners` | app/bundles/LeadBundle/EventListener/DashboardSubscriber.php:302-355 | the top-owners branch has `Outcome`'s effect, including the permission check |
| `Dashboard.DashboardSubscriber.AnswerTopCreators` | app/bundles/LeadBundle/EventListener/DashboardSubscriber.php:357-410 | the top-creators branch has `Outcome`'s effect, including the permission check |
| `Dashboard.DashboardSubscriber.AnswerCreatedLeads` | app/bundles/LeadBundle/EventListener/DashboardSubscriber.php:412-461 | the created-leads branch has `Outcome`'s effect |
| `DashboardProperties.StopsExactlyKnownTypes` | app/bundles/LeadBundle/EventListener/DashboardSubscriber.php:89-462 | propagation is stopped if and only if the widget type is one of the eight lead widgets |
| `DashboardProperties.UnknownTypeUntouched` | app/bundles/LeadBundle/EventListener/DashboardSubscriber.php:89-462 | any other type sets no template, no data and no error, does not stop propagation and makes no query |
| `DashboardProperties.MissingPermission` | app/bundles/LeadBundle/EventListener/DashboardSubscriber.php:302-308 | top owners or creators without the permission: only the translated missing-permission message (section `lead`) and a stop; no template, no data, no query |
| `DashboardProperties.ErrorOnlyOnMissingPermission` | app/bundles/LeadBundle/EventListener/DashboardSubscriber.php:357-363 | an error is set if and only if a restricted widget lacks the permission, and then no template or data is set |
| `DashboardProperties.CachedRequestQueriesNothing` | app/bundles/LeadBundle/EventListener/DashboardSubscriber.php:97-113 | a cached widget, the lifecycle one excepted, gets its template and a stop, but no data, no error and no query |
| `DashboardProperties.TemplatePerWidget` | app/bundles/LeadBundle/EventListener/DashboardSubscriber.php:112-457 | each answered widget gets its own template (chart, map, lifecycle or table); data is set if and only if the widget is not cached or is the lifecycle one |
| `DashboardProperties.ChartHeights` | app/bundles/LeadBundle/EventListener/DashboardSubscriber.php:100-290 | the line chart, the pie chart and the map are 80 pixels shorter than the widget; the lifecycle chart is 180 pixels shorter |
| `DashboardProperties.InTimeFlagCopied` | app/bundles/LeadBundle/EventListener/DashboardSubscriber.php:93-95 | when `flag` is set, the leads-in-time chart's filter is an array with `flag` equal to it and otherwise the widget's filter keys and values, created if the widget had none; when `flag` is not set, it is the widget's filter, and null if there is none |
| `DashboardProperties.TopListRowsShape` | app/bundles/LeadBundle/EventListener/DashboardSubscriber.php:164-181 | one row per segment: its name linking to the segment's edit page by `id`, and its lead count linking to the contact index searching `segment:<alias>` |
| `DashboardProperties.OwnerRowsShape` | app/bundles/LeadBundle/EventListener/DashboardSubscriber.php:324-338 | one row per owner: `first_name.' '.last_name` linking to the user edit page by `owner_id`, then a value-only lead count |
| `DashboardProperties.CreatorRowsShape` | app/bundles/LeadBundle/EventListener/DashboardSubscriber.php:379-393 | one row per creator: the user name linking to the user edit page by `created_by`, then a value-only lead count |
| `DashboardProperties.LeadRowsLinkIffId` | app/bundles/LeadBundle/EventListener/DashboardSubscriber.php:434-445 | a lead's cell has type link, linking to the lead, if and only if the lead has an id; otherwise it has type text and link '' |
| `DashboardProperties.TableBodyPerRecord` | app/bundles/LeadBundle/EventListener/DashboardSubscriber.php:160-402 | the top segments, owners and creators tables hold one body row per record the query returned, and `raw` is that result, queried with the row limit; the top segments table is built whether or not the user may view others, the other two need that permission |
| `DashboardProperties.CreatedLeadsRows` | app/bundles/LeadBundle/EventListener/DashboardSubscriber.php:423-454 | one row per created lead; when there is none, exactly one text row whose value is the translated `mautic.report.report.noresults` |
| `DashboardProperties.LifetimeIgnoresCache` | app/bundles/LeadBundle/EventListener/DashboardSubscriber.php:200-299 | the lifecycle widget does the same whether or not a cached payload exists |
| `DashboardProperties.SegmentCapRule` | app/bundles/LeadBundle/EventListener/DashboardSubscriber.php:210-228 | the segment query asks for `count(flag)` segments when a flag is set and for 4 otherwise; an empty answer becomes the "all leads" placeholder |
| `DashboardProperties.LifetimeColumnsAligned` | app/bundles/LeadBundle/EventListener/DashboardSubscriber.php:259-293 | every one of the six lifecycle arrays has one entry per segment shown, at least one, and the width is divided by that count |
| `DashboardProperties.LifetimePlaceholder` | app/bundles/LeadBundle/EventListener/DashboardSubscriber.php:221-228 | no segment found: exactly one column, named by the translated "all leads", with 0 leads, linking to the contact index without a search |
| `DashboardProperties.LifetimeColumn` | app/bundles/LeadBundle/EventListener/DashboardSubscriber.php:235-261 | each column takes its segment's name and lead count; its link searches for `segment:<alias>` unless the alias is empty, in which case it has no search |
| `DashboardProperties.SegmentChartFilter` | app/bundles/LeadBundle/EventListener/DashboardSubscriber.php:211-248 | each segment's chart filter carries the chosen segments as `flag`, has `leadlist_id` if and only if the segment has a truthy id, and otherwise keeps exactly the widget's filter keys, with their values |
| `DashboardProperties.PerSegmentQueriesShape` | app/bundles/LeadBundle/EventListener/DashboardSubscriber.php:250-280 | the per-segment queries are exactly three per segment: segment chart, stages chart, device chart, in that order |
| `DashboardProperties.LifetimeQueries` | app/bundles/LeadBundle/EventListener/DashboardSubscriber.php:218-280 | the lifecycle widget queries the segments first, then makes three queries per segment shown |
| `SidebarCanvas.FillSections` | app/bundles/CoreBundle/Event/SidebarCanvasEvent.php:72-75 | filling a list of section names gives an entry for exactly those names, each the supplied value if set and '' otherwise |
| `SidebarCanvas.Normalised` | app/bundles/CoreBundle/Event/SidebarCanvasEvent.php:13-77 | a pushed canvas has exactly the keys header, footer and content, each the supplied value if set and '' otherwise; other supplied keys are dropped |
| `SidebarCanvas.SidebarCanvasEvent.constructor` | app/bundles/CoreBundle/Event/SidebarCanvasEvent.php:18-38 | all three canvases start empty |
| `SidebarCanvas.SidebarCanvasEvent.PushToLeftCanvas` | app/bundles/CoreBundle/Event/SidebarCanvasEvent.php:43-46 | pushing to the left canvas replaces it with the normalised sections and changes nothing else |
| `SidebarCanvas.SidebarCanvasEvent.PushToRightCanvas` | app/bundles/CoreBundle/Event/SidebarCanvasEvent.php:51-54 | pushing to the right canvas replaces it with the normalised sections and changes nothing else |
| `SidebarCanvas.SidebarCanvasEvent.PushToMainCanvas` | app/bundles/CoreBundle/Event/SidebarCanvasEvent.php:61-64 | pushing to the main canvas replaces it with the normalised sections and changes nothing else |
| `SidebarCanvas.SidebarCanvasEvent.SetCanvasSection` | app/bundles/CoreBundle/Event/SidebarCanvasEvent.php:70-78 | the loop over the section names builds the normalised canvas and stores it in the named canvas alone |
| `SidebarCanvas.SidebarCanvasEvent.GetCanvasContent` | app/bundles/CoreBundle/Event/SidebarCanvasEvent.php:87-98 | given a canvas name: that canvas's current sections; given none: a map with exactly the keys left, right and main, each holding that canvas |
| `SidebarCanvas.PushedKeys` | app/bundles/CoreBundle/Event/SidebarCanvasEvent.php:70-77 | after a push, the canvas holds exactly header, footer and content, each the supplied value if set and '' otherwise |
| `SidebarCanvas.PushReplaces` | app/bundles/CoreBundle/Event/SidebarCanvasEvent.php:72-77 | a push replaces the canvas wholesale: its earlier contents make no difference |
| `SidebarCanvas.PushFrame` | app/bundles/CoreBundle/Event/SidebarCanvasEvent.php:43-77 | pushing to one canvas leaves the other two unchanged |
| `SidebarCanvas.PushIdempotent` | app/bundles/CoreBundle/Event/SidebarCanvasEvent.php:70-78 | pushing the same sections twice gives the same state as pushing them once |
| `SidebarCanvas.RepushIsIdentity` | app/bundles/CoreBundle/Event/SidebarCanvasEvent.php:74 | pushing a canvas's own content back to it changes nothing |
| `SidebarCanvas.PushesCommute` | app/bundles/CoreBundle/Event/SidebarCanvasEvent.php:77 | pushes to two different canvases give the same state in either order |
| `SidebarCanvas.MainKeepsHeader` | app/bundles/CoreBundle/Event/SidebarCanvasEvent.php:59-63 | the main canvas keeps a supplied header, whatever its doc comment says |

## Left out

- The bodies of the lead and segment model queries, router URL generation and translation: they are opaque function values. Only which query is called, with which arguments, is modelled.
- `$this->checkPermissions($event)` (line 86) and `hasPermission`. The parent class and the event's permission store are not part of this model. `canViewOthers` is an input that stands for the result of `hasPermission('form:forms:viewother')`, the permission name the code checks.
- `WidgetDetailEvent` itself is not part of this model. `isCached()` is an input flag. The setters only store their argument; any cache write they do is out of scope.
- Event-dispatcher mechanics: only the "propagation stopped" flag is modelled.
- The lifecycle column width `100 / count($lists)` is a float division. The model records only the divisor, which is the number of segments.
- `round` returns a float in PHP. The model uses the integer it equals, and floating-point error for huge heights is not modelled.
- PHP 7 semantics are assumed. `'' == 0` is true, and `count` of a non-null scalar is 1.
- The widget's `filter` parameter is modelled as an array or missing (null). A filter that is some other value (string, number) is not modelled.
- `getLeadList` also receives the fixed arguments `[]` and `['canViewOthers' => $canViewOthers]`. They are left out of the query's signature.
- The limit the lifecycle branch computes (lines 203-208) is never used. The model computes it and drops it, as the code does.
- After the "no results" and "all leads" placeholders are added, the guards `if ($leads)` and `if ($lists)` always hold. The model leaves out their dead else branches, including the lifecycle widget returning without a template.
- `foreach (... as &$row)` takes rows by reference, which has no visible effect here: not modelled.
- `SidebarCanvasEvent::getTemplating` and the `PhpEngine` it returns: a foreign object passed through unchanged.
- `SidebarCanvas.SidebarCanvasEvent.GetCanvasContent`: the canvas argument is restricted to left, right or main (none meaning null). `$this->$canvas` with any other truthy string is not modelled. An empty string or `'0'` is not modelled either; the code treats those like null.
- The company list view and the two test files hold no logic that is modelled.
