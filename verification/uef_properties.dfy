/** What the UEF script does, stated over its step function: the handshake
    discipline, the reply to each host message, the route and portal tables, the
    close requests from the tool's page, and what each step may change. */
module UefProperties {
  import opened Optional
  import opened Js
  import opened Content
  import opened UefDemo
  import Strings
  import Query

  /** A window message that completes the handshake. */
  predicate IsHandshake(page: Page, input: Input) {
    && input.WindowMessage?
    && input.origin == page.lmsHost
    && Field(input.data, "type") == JString(HelloType)
    && input.ports > 0
  }

  /** A route name none of the route tests picks. */
  predicate QuietRoute(route: Json) {
    && ModalSize(route).None?
    && PanelSize(route).None?
    && route != JString(OutlineRoute)
    && route != JString(RecentActivityRoute)
  }

  /** The JSON text of an event's route data, as the route handlers pass it on. */
  function RouteText(lib: Lib, d: Json): string {
    OrUndefined(lib.stringify(Field(d, "routeData")))
  }

  // ---- URLs handed to the tool's iframes ----

  /** The query of the panel and base-navigation iframe: the encoded stored
      context, the page's uuid, the stored action, the LMS host and the locale. */
  function FrameParams(page: Page, lib: Lib, s: State): seq<Query.Param> {
    [("data", lib.encodeUriComponent(OrNull(s.context))), ("uuid", page.uuid),
     ("action", OrNull(s.action)), ("learn_url", page.lmsHost), ("locale", page.locale)]
  }

  /** The query of the modal iframe: `SHOW_MODAL`, the uuid, the LMS host, the
      locale and the encoded data. */
  function ModalParams(page: Page, lib: Lib, data: string): seq<Query.Param> {
    [("action", "SHOW_MODAL"), ("uuid", page.uuid), ("learn_url", page.lmsHost),
     ("locale", page.locale), ("data", lib.encodeUriComponent(data))]
  }

  /** The query of the banner iframe: `SHOW_BANNER`, the uuid, the LMS host, the
      locale and the encoded stored context. */
  function BannerParams(page: Page, lib: Lib, s: State): seq<Query.Param> {
    [("action", "SHOW_BANNER"), ("uuid", page.uuid), ("learn_url", page.lmsHost),
     ("locale", page.locale), ("data", lib.encodeUriComponent(OrNull(s.context)))]
  }

  /** The last four parameters of an iframe query, written after `first`. */
  lemma {:induction false} FourMore(base: string, first: Query.Param, ps: seq<Query.Param>, l1: string, l2: string, l3: string, l4: string)
    requires |ps| == 4
    requires l1 == "&" + ps[0].0 + "=" && l2 == "&" + ps[1].0 + "=" && l3 == "&" + ps[2].0 + "=" && l4 == "&" + ps[3].0 + "="
    ensures base + "?" + Query.Raw([first]) + l1 + ps[0].1 + l2 + ps[1].1 + l3 + ps[2].1 + l4 + ps[3].1
      == base + "?" + Query.Raw([first] + ps)
  {
    var ps1 := [first];
    Query.RawUrlSnoc(base, ps1, l1, ps[0]);
    var ps2 := ps1 + [ps[0]];
    Query.RawUrlSnoc(base, ps2, l2, ps[1]);
    var ps3 := ps2 + [ps[1]];
    Query.RawUrlSnoc(base, ps3, l3, ps[2]);
    var ps4 := ps3 + [ps[2]];
    Query.RawUrlSnoc(base, ps4, l4, ps[3]);
    assert ps4 + [ps[3]] == [first] + ps;
  }

  /** The panel and base-navigation iframe is the launch URL with the five
      parameters of `FrameParams` in raw form; it starts with the stored context,
      percent-encoded, as its `data` parameter. */
  lemma FrameSrcCarriesContext(page: Page, lib: Lib, s: State)
    ensures page.launchUrl + "?data=" + lib.encodeUriComponent(OrNull(s.context)) + "&uuid=" + page.uuid
      <= FrameSrc(page, lib, s)
    ensures FrameSrc(page, lib, s) == page.launchUrl + "?" + Query.Raw(FrameParams(page, lib, s))
  {
    var ps := FrameParams(page, lib, s);
    Query.RawUrlOne(page.launchUrl, "?data=", ps[0]);
    FourMore(page.launchUrl, ps[0], ps[1..], "&uuid=", "&action=", "&learn_url=", "&locale=");
    assert [ps[0]] + ps[1..] == ps;
  }

  /** The modal iframe is the launch URL with the five parameters of `ModalParams`
      in raw form; it ends with the data it was opened with, percent-encoded. */
  lemma ModalSrcCarriesData(page: Page, lib: Lib, data: string)
    ensures Strings.EndsWith(ModalSrc(page, lib, data), "&data=" + lib.encodeUriComponent(data))
    ensures ModalSrc(page, lib, data) == page.launchUrl + "?" + Query.Raw(ModalParams(page, lib, data))
  {
    var prefix := page.launchUrl + "?action=SHOW_MODAL" + "&uuid=" + page.uuid + "&learn_url="
      + page.lmsHost + "&locale=" + page.locale;
    Strings.ConcatAssoc(prefix, "&data=", lib.encodeUriComponent(data));
    Strings.EndsWithAppend(prefix, "&data=" + lib.encodeUriComponent(data));
    var ps := ModalParams(page, lib, data);
    ShowAction(page.launchUrl, "?action=SHOW_MODAL", "SHOW_MODAL");
    FourMore(page.launchUrl, ps[0], ps[1..], "&uuid=", "&learn_url=", "&locale=", "&data=");
    assert [ps[0]] + ps[1..] == ps;
  }

  /** The banner iframe is the launch URL with the five parameters of
      `BannerParams` in raw form; it ends with the stored context,
      percent-encoded. */
  lemma BannerSrcCarriesContext(page: Page, lib: Lib, s: State)
    ensures Strings.EndsWith(BannerSrc(page, lib, s), "&data=" + lib.encodeUriComponent(OrNull(s.context)))
    ensures BannerSrc(page, lib, s) == page.launchUrl + "?" + Query.Raw(BannerParams(page, lib, s))
  {
    var prefix := page.launchUrl + "?action=SHOW_BANNER" + "&uuid=" + page.uuid + "&learn_url="
      + page.lmsHost + "&locale=" + page.locale;
    var data := lib.encodeUriComponent(OrNull(s.context));
    Strings.ConcatAssoc(prefix, "&data=", data);
    Strings.EndsWithAppend(prefix, "&data=" + data);
    var ps := BannerParams(page, lib, s);
    ShowAction(page.launchUrl, "?action=SHOW_BANNER", ps[0].1);
    FourMore(page.launchUrl, ps[0], ps[1..], "&uuid=", "&learn_url=", "&locale=", "&data=");
    assert [ps[0]] + ps[1..] == ps;
  }

  /** A fixed `?action=` parameter written as one literal. */
  lemma ShowAction(base: string, lit: string, action: string)
    requires lit == "?action=" + action
    ensures base + lit == base + "?" + Query.Raw([("action", action)])
  {
    Query.RawUrlOne(base, "?action=", ("action", action));
    Strings.ConcatAssoc(base, "?action=", action);
  }

  /** An iframe query read back: what precedes `?` is the launch URL and the
      parameters come back in order, when the launch URL has no `?` and no name or
      value holds `&`. */
  lemma {:induction false} FrameUrlRead(launchUrl: string, ps: seq<Query.Param>)
    requires |ps| == 5
    requires '?' !in launchUrl
    requires forall i :: 0 <= i < 5 ==> '&' !in ps[i].1
    requires Query.Names(ps) == ["data", "uuid", "action", "learn_url", "locale"]
          || Query.Names(ps) == ["action", "uuid", "learn_url", "locale", "data"]
    ensures Strings.SplitFirst(launchUrl + "?" + Query.Raw(ps), '?').0 == launchUrl
    ensures Query.QueryOf(launchUrl + "?" + Query.Raw(ps)) == ps
  {
    assert "learn_url" == "learn" + "_url";
    assert Query.Delimited(ps);
    Strings.SplitFirstAt(launchUrl, Query.Raw(ps), '?');
    Query.RawUrlRoundTrip(launchUrl, ps);
  }

  /** The tool's page reads the panel iframe's query back as the encoded context,
      the uuid, the stored action, the LMS host and the locale, in order. */
  lemma FrameSrcQuery(page: Page, lib: Lib, s: State)
    requires '?' !in page.launchUrl
    requires forall i :: 0 <= i < 5 ==> '&' !in FrameParams(page, lib, s)[i].1
    ensures Strings.SplitFirst(FrameSrc(page, lib, s), '?').0 == page.launchUrl
    ensures Query.QueryOf(FrameSrc(page, lib, s)) == [
      ("data", lib.encodeUriComponent(OrNull(s.context))), ("uuid", page.uuid),
      ("action", OrNull(s.action)), ("learn_url", page.lmsHost), ("locale", page.locale)]
  {
    FrameSrcCarriesContext(page, lib, s);
    FrameUrlRead(page.launchUrl, FrameParams(page, lib, s));
  }

  /** The tool's page reads the modal iframe's query back as `SHOW_MODAL`, the
      uuid, the LMS host, the locale and the encoded data, in order. */
  lemma ModalSrcQuery(page: Page, lib: Lib, data: string)
    requires '?' !in page.launchUrl
    requires forall i :: 0 <= i < 5 ==> '&' !in ModalParams(page, lib, data)[i].1
    ensures Strings.SplitFirst(ModalSrc(page, lib, data), '?').0 == page.launchUrl
    ensures Query.QueryOf(ModalSrc(page, lib, data)) == [
      ("action", "SHOW_MODAL"), ("uuid", page.uuid), ("learn_url", page.lmsHost),
      ("locale", page.locale), ("data", lib.encodeUriComponent(data))]
  {
    ModalSrcCarriesData(page, lib, data);
    FrameUrlRead(page.launchUrl, ModalParams(page, lib, data));
  }

  /** The tool's page reads the banner iframe's query back as `SHOW_BANNER`, the
      uuid, the LMS host, the locale and the encoded stored context, in order. */
  lemma BannerSrcQuery(page: Page, lib: Lib, s: State)
    requires '?' !in page.launchUrl
    requires forall i :: 0 <= i < 5 ==> '&' !in BannerParams(page, lib, s)[i].1
    ensures Strings.SplitFirst(BannerSrc(page, lib, s), '?').0 == page.launchUrl
    ensures Query.QueryOf(BannerSrc(page, lib, s)) == [
      ("action", "SHOW_BANNER"), ("uuid", page.uuid), ("learn_url", page.lmsHost),
      ("locale", page.locale), ("data", lib.encodeUriComponent(OrNull(s.context)))]
  {
    BannerSrcCarriesContext(page, lib, s);
    FrameUrlRead(page.launchUrl, BannerParams(page, lib, s));
  }

  // ---- the handshake ----

  /** Loading and then receiving the host's hello with a port opens the channel
      and asks for authorization with the launch token. */
  lemma HandshakeAuthorizes(page: Page, lib: Lib, context: Option<string>, action: Option<string>, hello: Input)
    requires IsHandshake(page, hello)
    ensures var boot := Start(page, context, action);
      Step(page, lib, boot.state, hello) == Effects(boot.state.(channelOpen := true), [Authorize(page.token)])
  {
  }

  /** A window message from another origin, without data, or without a `type`
      changes nothing and posts nothing. */
  lemma UntrustedMessageIgnored(page: Page, lib: Lib, s: State, origin: string, data: Json, ports: nat)
    requires origin != page.lmsHost || !Truthy(data) || !Truthy(Field(data, "type"))
    ensures Step(page, lib, s, WindowMessage(origin, data, ports)) == Effects(s, [])
  {
  }

  /** One step from a closed channel: only the handshake opens it, and nothing is
      posted otherwise. */
  lemma ClosedStep(page: Page, lib: Lib, s: State, input: Input)
    requires !s.channelOpen
    ensures var r := Step(page, lib, s, input);
      if IsHandshake(page, input) then r.sent == [Authorize(page.token)] && r.state.channelOpen
      else r.sent == [] && !r.state.channelOpen
  {
  }

  /** Until the handshake, the script posts nothing on the channel and the channel
      stays closed, whatever arrives. */
  lemma {:induction false} NothingBeforeHandshake(page: Page, lib: Lib, s: State, inputs: seq<Input>)
    requires !s.channelOpen
    requires forall i :: 0 <= i < |inputs| ==> !IsHandshake(page, inputs[i])
    ensures Run(page, lib, s, inputs).sent == []
    ensures !Run(page, lib, s, inputs).state.channelOpen
    decreases |inputs|
  {
    if |inputs| > 0 {
      ClosedStep(page, lib, s, inputs[0]);
      NothingBeforeHandshake(page, lib, Step(page, lib, s, inputs[0]).state, inputs[1..]);
    }
  }

  /** From a closed channel, the first message the script ever posts on it is the
      authorization request. */
  lemma {:induction false} AuthorizationComesFirst(page: Page, lib: Lib, s: State, inputs: seq<Input>)
    requires !s.channelOpen
    ensures var r := Run(page, lib, s, inputs); r.sent == [] || r.sent[0] == Authorize(page.token)
    decreases |inputs|
  {
    if |inputs| > 0 {
      ClosedStep(page, lib, s, inputs[0]);
      if !IsHandshake(page, inputs[0]) {
        AuthorizationComesFirst(page, lib, Step(page, lib, s, inputs[0]).state, inputs[1..]);
      }
    }
  }

  // ---- host messages ----

  /** After authorization the script subscribes to events and registers its
      base-navigation entry and its course-details entry, in that order. */
  lemma AuthorizedRegisters(page: Page, lib: Lib, s: State, d: Json)
    requires s.channelOpen && Field(d, "type") == JString(AuthorizeType)
    ensures var r := Step(page, lib, s, ChannelMessage(d));
      && r.state == s
      && |r.sent| == 3
      && r.sent[0] == Subscribe(["click", "route", "portal:new", "portal:remove"])
      && r.sent[1].BasenavRegister? && r.sent[1].routeName == "uefTest"
      && Find(r.sent[1].initialContents, "ButtonLink", "to") == ["uefTest"]
      && Texts(r.sent[1].initialContents) == ["UEF Test"]
      && r.sent[2] == CourseDetailRegister("UEF Test")
  {
  }

  /** The response to the script's own panel renders the tool into that portal,
      twice with the same contents, and remembers the portal; a response to any
      other panel changes nothing. */
  lemma PanelResponseRendersTwice(page: Page, lib: Lib, s: State, d: Json)
    requires s.channelOpen && Field(d, "type") == JString(PanelResponseType)
    ensures var r := Step(page, lib, s, ChannelMessage(d));
      Field(d, "correlationId") == JString(PanelCorrelationId) ==>
        && r.state == s.(panelId := Field(d, "portalId"))
        && r.sent == [PortalRender(Field(d, "portalId"), FrameIn("span", FrameSrc(page, lib, s))),
                      PortalRender(Field(d, "portalId"), FrameIn("span", FrameSrc(page, lib, s)))]
    ensures Field(d, "correlationId") != JString(PanelCorrelationId) ==>
      Step(page, lib, s, ChannelMessage(d)) == Effects(s, [])
  {
  }

  /** The close button of the modal closes the modal the host last reported. */
  lemma ModalCloseUsesReportedId(page: Page, lib: Lib, s: State, response: Json, click: Json)
    requires s.channelOpen
    requires Field(response, "type") == JString(ModalResponseType)
    requires Field(click, "type") == JString(CallbackType)
    requires Field(click, "callbackId") == JString(ModalCloseCallback)
    ensures Run(page, lib, s, [ChannelMessage(response), ChannelMessage(click)])
      == Effects(s.(modalId := Field(response, "modalId")), [PortalModalClose(Field(response, "modalId"))])
  {
    var e := Step(page, lib, s, ChannelMessage(response));
    assert e == Effects(s.(modalId := Field(response, "modalId")), []);
    assert [ChannelMessage(response), ChannelMessage(click)][1..] == [ChannelMessage(click)];
  }

  /** The course-details button opens a full panel for the stored context; with
      nothing stored, the text `null` is stored and used. */
  lemma CourseDetailsOpensPanel(page: Page, lib: Lib, s: State, d: Json)
    requires s.channelOpen
    requires Field(d, "type") == JString(CallbackType)
    requires Field(d, "callbackId") == JString(CourseDetailsCallback)
    ensures Step(page, lib, s, ChannelMessage(d))
      == Effects(s.(context := Some(OrNull(s.context)), action := Some("SHOW_PANEL")),
                 [PortalPanel("panel-1", "full", "UEF Demo", "panel-1-close")])
  {
  }

  // ---- routes ----

  /** An event reaches the route handlers and then the portal handlers. */
  lemma EventStep(page: Page, lib: Lib, s: State, d: Json)
    requires s.channelOpen && Field(d, "type") == JString(EventType)
    ensures Step(page, lib, s, ChannelMessage(d)) == OnPortalNew(page, lib, d, OnRoute(page, lib, d, Effects(s, [])))
  {
  }

  /** A route event outside a new portal is handled by the route tests alone. */
  lemma RouteStep(page: Page, lib: Lib, s: State, d: Json)
    requires s.channelOpen && Field(d, "type") == JString(EventType)
    requires Field(d, "eventType") != JString("portal:new")
    ensures Step(page, lib, s, ChannelMessage(d)) == OnRoute(page, lib, d, Effects(s, []))
  {
    EventStep(page, lib, s, d);
  }

  /** The outline and recent-activity routes are in neither size table. */
  lemma UntabledRoutes()
    ensures ModalSize(JString(OutlineRoute)).None? && PanelSize(JString(OutlineRoute)).None?
    ensures ModalSize(JString(RecentActivityRoute)).None? && PanelSize(JString(RecentActivityRoute)).None?
    ensures OutlineRoute != RecentActivityRoute
  {
  }

  /** The route tests leave the effects of a quiet route alone. */
  lemma QuietRouteUnchanged(page: Page, lib: Lib, d: Json, e: Effects)
    requires QuietRoute(Field(d, "routeName"))
    ensures OnRoute(page, lib, d, e) == e
  {
    var route, text := Field(d, "routeName"), RouteText(lib, d);
    assert ModalRoute(page, lib, route, text, e) == e;
    assert PanelRoute(route, text, e) == e;
  }

  /** A new portal on a quiet route is handled by the portal tests alone. */
  lemma PortalStep(page: Page, lib: Lib, s: State, d: Json)
    requires s.channelOpen && Field(d, "type") == JString(EventType)
    requires QuietRoute(Field(d, "routeName"))
    ensures Step(page, lib, s, ChannelMessage(d)) == OnPortalNew(page, lib, d, Effects(s, []))
  {
    EventStep(page, lib, s, d);
    QuietRouteUnchanged(page, lib, d, Effects(s, []));
  }

  /** No route name is in two route tables. */
  lemma RouteTablesDisjoint(route: Json)
    ensures ModalSize(route).Some? ==> PanelSize(route).None?
    ensures ModalSize(route).Some? || PanelSize(route).Some? ==>
      route != JString(OutlineRoute) && route != JString(RecentActivityRoute)
  {
  }

  /** A route of the modal table opens one modal of the table's width showing the
      route data, and changes no state. */
  lemma RouteOpensModal(page: Page, lib: Lib, s: State, d: Json)
    requires s.channelOpen && Field(d, "type") == JString(EventType)
    requires Field(d, "eventType") != JString("portal:new")
    requires ModalSize(Field(d, "routeName")).Some?
    ensures var r := Step(page, lib, s, ChannelMessage(d));
      && r.state == s
      && |r.sent| == 1
      && r.sent[0].PortalModal? && r.sent[0].modalId == JString("modal-1")
      && Find(r.sent[0].contents, "Modal", "width") == [ModalSize(Field(d, "routeName")).value]
      && Find(r.sent[0].contents, "iframe", "src") == [ModalSrc(page, lib, RouteText(lib, d))]
    ensures Strings.EndsWith(ModalSrc(page, lib, RouteText(lib, d)),
      "&data=" + lib.encodeUriComponent(RouteText(lib, d)))
  {
    var route, text := Field(d, "routeName"), RouteText(lib, d);
    ModalSrcCarriesData(page, lib, text);
    RouteTablesDisjoint(route);
    EventStep(page, lib, s, d);
    var e1 := ModalRoute(page, lib, route, text, Effects(s, []));
    assert e1 == RenderModal(page, lib, ModalSize(route).value, text, Effects(s, []));
    assert PanelRoute(route, text, e1) == e1;
    assert OnRoute(page, lib, d, Effects(s, [])) == e1;
  }

  /** A route of the panel table stores the route data as the context and asks
      for a panel of the table's size. */
  lemma RouteOpensPanel(page: Page, lib: Lib, s: State, d: Json)
    requires s.channelOpen && Field(d, "type") == JString(EventType)
    requires Field(d, "eventType") != JString("portal:new")
    requires PanelSize(Field(d, "routeName")).Some?
    ensures Step(page, lib, s, ChannelMessage(d))
      == Effects(s.(context := Some(RouteText(lib, d)), action := Some("SHOW_PANEL")),
                 [PortalPanel("panel-1", PanelSize(Field(d, "routeName")).value, "UEF Demo", "panel-1-close")])
  {
    var route, text := Field(d, "routeName"), RouteText(lib, d);
    var e0 := Effects(s, []);
    RouteTablesDisjoint(route);
    RouteStep(page, lib, s, d);
    assert ModalRoute(page, lib, route, text, e0) == e0;
    var e2 := OpenPanel(PanelSize(route).value, text, e0);
    assert PanelRoute(route, text, e0) == e2;
    assert RecentActivityNotices(d, e2) == e2;
  }

  /** The course outline route only stores its route data as the context. */
  lemma OutlineStoresContext(page: Page, lib: Lib, s: State, d: Json)
    requires s.channelOpen && Field(d, "type") == JString(EventType)
    requires Field(d, "eventType") != JString("portal:new")
    requires Field(d, "routeName") == JString(OutlineRoute)
    ensures Step(page, lib, s, ChannelMessage(d)) == Effects(s.(context := Some(RouteText(lib, d))), [])
  {
    RouteStep(page, lib, s, d);
    UntabledRoutes();
    var route, text := Field(d, "routeName"), RouteText(lib, d);
    var e0 := Effects(s, []);
    assert ModalRoute(page, lib, route, text, e0) == e0;
    assert PanelRoute(route, text, e0) == e0;
    assert RecentActivityNotices(d, Effects(s.(context := Some(text)), [])) == Effects(s.(context := Some(text)), []);
  }

  /** The three notices, one per analytics anchor, in order. */
  lemma AnchorsNotified(d: Json, e: Effects)
    requires Field(d, "type") == JString(EventType) && Field(d, "eventType") == JString("route")
    requires Field(d, "routeName") == JString(RecentActivityRoute)
    ensures RecentActivityNotices(d, e) == Effects(e.state, e.sent + [
      PortalNotification("notification:analytics:selector",
        "feature.base.stream.notification.bar.create.button", NotificationCard()),
      PortalNotification("notification:analytics:selector",
        "components.directives.pagehelp.directive.link.helpIcon", NotificationCard()),
      PortalNotification("notification:analytics:selector",
        "recentActivity.base.navigation.handleBase.link", NotificationCard())])
  {
  }

  /** Entering the recent-activity page anchors one notification at each of the
      three analytics ids, in order. */
  lemma RecentActivityNotifies(page: Page, lib: Lib, s: State, d: Json)
    requires s.channelOpen && Field(d, "type") == JString(EventType)
    requires Field(d, "eventType") == JString("route")
    requires Field(d, "routeName") == JString(RecentActivityRoute)
    ensures Step(page, lib, s, ChannelMessage(d)) == Effects(s, [
      PortalNotification("notification:analytics:selector",
        "feature.base.stream.notification.bar.create.button", NotificationCard()),
      PortalNotification("notification:analytics:selector",
        "components.directives.pagehelp.directive.link.helpIcon", NotificationCard()),
      PortalNotification("notification:analytics:selector",
        "recentActivity.base.navigation.handleBase.link", NotificationCard())])
  {
    RouteStep(page, lib, s, d);
    UntabledRoutes();
    var route, text := Field(d, "routeName"), RouteText(lib, d);
    var e0 := Effects(s, []);
    assert ModalRoute(page, lib, route, text, e0) == e0;
    assert PanelRoute(route, text, e0) == e0;
    assert OnRoute(page, lib, d, e0) == RecentActivityNotices(d, e0);
    AnchorsNotified(d, e0);
  }

  /** The recent-activity route name on an event that is not a route change (nor a
      new portal) sends no notification and changes nothing. */
  lemma RecentActivityNeedsRouteEvent(page: Page, lib: Lib, s: State, d: Json)
    requires s.channelOpen && Field(d, "type") == JString(EventType)
    requires Field(d, "eventType") != JString("route") && Field(d, "eventType") != JString("portal:new")
    requires Field(d, "routeName") == JString(RecentActivityRoute)
    ensures Step(page, lib, s, ChannelMessage(d)) == Effects(s, [])
  {
    RouteStep(page, lib, s, d);
    UntabledRoutes();
    var route, text := Field(d, "routeName"), RouteText(lib, d);
    var e0 := Effects(s, []);
    assert ModalRoute(page, lib, route, text, e0) == e0;
    assert PanelRoute(route, text, e0) == e0;
    assert OnRoute(page, lib, d, e0) == RecentActivityNotices(d, e0);
  }

  /** Any other route event, outside a new portal, does nothing. */
  lemma QuietRouteIgnored(page: Page, lib: Lib, s: State, d: Json)
    requires s.channelOpen && Field(d, "type") == JString(EventType)
    requires Field(d, "eventType") != JString("portal:new")
    requires QuietRoute(Field(d, "routeName"))
    ensures Step(page, lib, s, ChannelMessage(d)) == Effects(s, [])
  {
    RouteStep(page, lib, s, d);
    QuietRouteUnchanged(page, lib, d, Effects(s, []));
  }

  // ---- new portals ----

  /** A new course banner portal shows the tool with the stored context. */
  lemma BannerShowsContext(page: Page, lib: Lib, s: State, d: Json)
    requires s.channelOpen && Field(d, "type") == JString(EventType)
    requires QuietRoute(Field(d, "routeName"))
    requires Field(d, "eventType") == JString("portal:new")
    requires Field(d, "selector") == JString(BannerSelector)
    ensures var r := Step(page, lib, s, ChannelMessage(d));
      && r.state == s
      && |r.sent| == 1
      && r.sent[0].PortalRender? && r.sent[0].portalId == Field(d, "portalId")
      && Find(r.sent[0].contents, "iframe", "src") == [BannerSrc(page, lib, s)]
  {
    PortalStep(page, lib, s, d);
  }

  /** The base-navigation portal of this script's route stores `LOAD_BASENAV`
      and the route parameters, remembers the portal as the panel and shows the
      tool there. */
  lemma BaseNavLoads(page: Page, lib: Lib, s: State, d: Json)
    requires s.channelOpen && Field(d, "type") == JString(EventType)
    requires QuietRoute(Field(d, "routeName"))
    requires Field(d, "eventType") == JString("portal:new")
    requires Field(d, "selector") == JString(BaseNavSelector)
    requires Prop(Field(d, "selectorData"), "routeName") == Some(JString(BaseNavRoute))
    ensures var r := Step(page, lib, s, ChannelMessage(d));
      var params := JsString(Field(Field(d, "selectorData"), "routeParameters"));
      && r.state == s.(action := Some("LOAD_BASENAV"), context := Some(params), panelId := Field(d, "portalId"))
      && r.sent == [PortalRender(Field(d, "portalId"), FrameIn("span", FrameSrc(page, lib, r.state)))]
  {
    PortalStep(page, lib, s, d);
  }

  /** A base-navigation portal of another route, or one without selector data,
      does nothing. */
  lemma OtherBaseNavIgnored(page: Page, lib: Lib, s: State, d: Json)
    requires s.channelOpen && Field(d, "type") == JString(EventType)
    requires QuietRoute(Field(d, "routeName"))
    requires Field(d, "eventType") == JString("portal:new")
    requires Field(d, "selector") == JString(BaseNavSelector)
    requires Prop(Field(d, "selectorData"), "routeName") != Some(JString(BaseNavRoute))
    ensures Step(page, lib, s, ChannelMessage(d)) == Effects(s, [])
  {
    PortalStep(page, lib, s, d);
  }

  /** A new course-details portal gets the card whose button fires the
      course-details callback. */
  lemma CourseDetailsCardRendered(page: Page, lib: Lib, s: State, d: Json)
    requires s.channelOpen && Field(d, "type") == JString(EventType)
    requires QuietRoute(Field(d, "routeName"))
    requires Field(d, "eventType") == JString("portal:new")
    requires Field(d, "selector") == JString(CourseDetailsSelector)
    ensures var r := Step(page, lib, s, ChannelMessage(d));
      && r.state == s
      && |r.sent| == 1
      && r.sent[0].PortalRender? && r.sent[0].portalId == Field(d, "portalId")
      && Find(r.sent[0].contents, "button", "onClick") == [CourseDetailsCallback]
      && Texts(r.sent[0].contents) == ["UEF Test", "Click Here"]
  {
    PortalStep(page, lib, s, d);
  }

  // ---- across steps ----

  /** What the course outline stores is what the course banner then shows: the
      banner iframe ends with the outline's route data, percent-encoded. */
  lemma OutlineContextReachesBanner(page: Page, lib: Lib, s: State, outline: Json, banner: Json)
    requires s.channelOpen
    requires Field(outline, "type") == JString(EventType)
    requires Field(outline, "eventType") != JString("portal:new")
    requires Field(outline, "routeName") == JString(OutlineRoute)
    requires Field(banner, "type") == JString(EventType)
    requires QuietRoute(Field(banner, "routeName"))
    requires Field(banner, "eventType") == JString("portal:new")
    requires Field(banner, "selector") == JString(BannerSelector)
    ensures var r := Run(page, lib, s, [ChannelMessage(outline), ChannelMessage(banner)]);
      && |r.sent| == 1
      && r.sent[0].PortalRender?
      && (exists src ::
            && Find(r.sent[0].contents, "iframe", "src") == [src]
            && Strings.EndsWith(src, "&data=" + lib.encodeUriComponent(RouteText(lib, outline))))
  {
    var s1 := s.(context := Some(RouteText(lib, outline)));
    OutlineStoresContext(page, lib, s, outline);
    BannerShowsContext(page, lib, s1, banner);
    BannerSrcCarriesContext(page, lib, s1);
    assert [ChannelMessage(outline), ChannelMessage(banner)][1..] == [ChannelMessage(banner)];
  }

  /** A close request from the tool's page closes the panel the tool was last
      rendered into. */
  lemma CloseRequestTargetsRenderedPanel(page: Page, lib: Lib, s: State, d: Json, closeEvent: Option<string>)
    requires s.channelOpen
    requires Field(d, "type") == JString(PanelResponseType)
    requires Field(d, "correlationId") == JString(PanelCorrelationId)
    requires lib.parseJson(OrNull(closeEvent)) == Some(JObject(map["type" := JString(ClosePanelType)]))
    ensures var r := Run(page, lib, s, [ChannelMessage(d), StorageEvent(Some("event"), closeEvent)]);
      |r.sent| == 3 && r.sent[2] == PortalPanelClose(Field(d, "portalId"))
  {
    PanelResponseRendersTwice(page, lib, s, d);
    assert [ChannelMessage(d), StorageEvent(Some("event"), closeEvent)][1..] == [StorageEvent(Some("event"), closeEvent)];
  }

  /** What one step may change: the channel opens only by the handshake and never
      closes; the modal id changes only by a modal response; the panel id changes
      only to a portal the same step rendered into. */
  lemma StepFrame(page: Page, lib: Lib, s: State, input: Input)
    ensures var r := Step(page, lib, s, input);
      r.state.channelOpen == (s.channelOpen || IsHandshake(page, input))
    ensures var r := Step(page, lib, s, input);
      r.state.modalId != s.modalId ==>
        input.ChannelMessage? && Field(input.data, "type") == JString(ModalResponseType)
        && r.state.modalId == Field(input.data, "modalId")
    ensures var r := Step(page, lib, s, input);
      r.state.panelId != s.panelId ==> RenderedLast(r)
  {
  }
}
