/** The script the UEF launch page runs inside the host LMS (Learn Ultra), as a
    state machine: every event the page receives -- a window message, a message
    on the host's channel, a `storage` event from another same-origin window --
    maps the script's state to a new state and the messages it posts.

    The state holds the module variables (`messageChannel` as "the channel is
    open", `panelId`, `modalId`) and the two `localStorage` items the script
    reads back (`context`, `action`). A handler that throws part-way keeps what
    it already did; the points where the script throws are marked. */
module UefDemo {
  import opened Optional
  import opened Js
  import opened Content

  /** The values the launch page injects as window globals (`__lmsHost`,
      `__token`, `__launchUrl`, `__uuid`, `__locale`). */
  datatype Page = Page(lmsHost: string, token: Json, launchUrl: string, uuid: string, locale: string)

  datatype State = State(
    /** `messageChannel` has been set by the handshake. */
    channelOpen: bool,
    /** The portal the panel contents were last rendered into. */
    panelId: Json,
    /** The modal id the host last reported. */
    modalId: Json,
    /** `localStorage.getItem('context')`. */
    context: Option<string>,
    /** `localStorage.getItem('action')`. */
    action: Option<string>)

  /** What reaches the script. */
  datatype Input =
      /** A `message` event on the window: sender origin, data, number of ports. */
    | WindowMessage(origin: string, data: Json, ports: nat)
      /** A message on the host's channel. */
    | ChannelMessage(data: Json)
      /** A `storage` event: another window changed `localStorage`. `key` is
          `None` when the storage was cleared, `newValue` when the item was
          removed. */
    | StorageEvent(key: Option<string>, newValue: Option<string>)

  /** The messages the script posts. */
  datatype Envelope =
      /** `integration:hello`, posted to the parent window at load. */
    | IntegrationHello
    | Authorize(token: Json)
    | Subscribe(subscriptions: seq<string>)
    | BasenavRegister(routeName: string, displayName: string, initialContents: Node)
    | CourseDetailRegister(registrationName: string)
    | PortalRender(portalId: Json, contents: Node)
    | PortalNotification(selectorType: string, selectorValue: string, contents: Node)
    | PortalPanel(correlationId: string, panelType: string, panelTitle: string, onCloseCallbackId: string)
    | PortalModal(modalId: Json, contents: Node)
    | PortalPanelClose(id: Json)
    | PortalModalClose(modalId: Json)

  /** The state after a handler and the channel messages it posted, in order. */
  datatype Effects = Effects(state: State, sent: seq<Envelope>)

  /** The script at load: the handshake has not happened, and the parent window
      is sent `integration:hello`, addressed to `helloOrigin`. */
  datatype Boot = Boot(state: State, hello: Envelope, helloOrigin: string)

  const HelloType := "integration:hello"
  const AuthorizeType := "authorization:authorize"
  const PanelResponseType := "portal:panel:response"
  const ModalResponseType := "portal:modal:response"
  const CallbackType := "portal:callback"
  const EventType := "event:event"
  const PanelCorrelationId := "panel-1"
  const PanelCloseCallback := "panel-1-close"
  const PanelTitle := "UEF Demo"
  const ModalId := "modal-1"
  const RegistrationName := "UEF Test"
  const BaseNavRoute := "uefTest"
  const Subscriptions := ["click", "route", "portal:new", "portal:remove"]
  const NotificationSelector := "notification:analytics:selector"
  const NotificationAnchors := [
    "feature.base.stream.notification.bar.create.button",
    "components.directives.pagehelp.directive.link.helpIcon",
    "recentActivity.base.navigation.handleBase.link"]
  const StorageEventKey := "event"
  const ClosePanelType := "demo:closePanel"
  const OrganizationsRoute := "base.organizations"
  const CalendarRoute := "base.calendar"
  const MessagesRoute := "base.messages"
  const AssessmentRoute := "base.courses.peek.course.outline.peek.gradebook-item.assessment"
  const BooksAndToolsRoute := "base.courses.peek.course.outline.peek.books-and-tools"
  const SubmissionGradingRoute :=
    "base.courses.peek.course.grades.peek.gradebook-item.assessment.peek.submission-grading"
  const OutlineRoute := "base.courses.peek.course.outline"
  const RecentActivityRoute := "base.recentActivity"
  const BannerSelector := "course.banner.top"
  const BaseNavSelector := "base.integration"
  const CourseDetailsSelector := "course.outline.details"

  /** `v.key` on a value already known not to be `null` or `undefined`. */
  function Field(v: Json, key: string): Json {
    Prop(v, key).GetOr(JUndefined)
  }

  /** The script at load, with whatever `localStorage` already holds. */
  function Start(page: Page, context: Option<string>, action: Option<string>): (r: Boot)
    ensures !r.state.channelOpen && r.state.panelId == JUndefined && r.state.modalId == JUndefined
    ensures r.state.context == context && r.state.action == action
    ensures r.hello == IntegrationHello && r.helloOrigin == page.lmsHost
  {
    Boot(State(false, JUndefined, JUndefined, context, action), IntegrationHello, page.lmsHost)
  }

  function Send(e: Effects, m: Envelope): Effects {
    e.(sent := e.sent + [m])
  }

  /** The last message of `e` renders into the portal `e` remembers as the panel. */
  predicate RenderedLast(e: Effects) {
    |e.sent| > 0 && e.sent[|e.sent| - 1].PortalRender? && e.sent[|e.sent| - 1].portalId == e.state.panelId
  }

  /** `onPostMessageReceived`: only a message from the LMS origin whose data has
      a truthy `type` is looked at, and only `integration:hello` is acted on. Its
      first port becomes the channel (with no port, wrapping `undefined` throws
      and nothing changes) and the launch token is sent for authorization. */
  function OnPostMessage(page: Page, s: State, origin: string, data: Json, ports: nat): (r: Effects)
    ensures r.sent != [] <==>
      origin == page.lmsHost && Field(data, "type") == JString(HelloType) && ports > 0
    ensures r.sent != [] ==> r.sent == [Authorize(page.token)] && r.state == s.(channelOpen := true)
    ensures r.sent == [] ==> r.state == s
  {
    if origin != page.lmsHost || !Truthy(data) || !Truthy(Field(data, "type")) then Effects(s, [])
    else if Field(data, "type") != JString(HelloType) then Effects(s, [])
    else if ports == 0 then Effects(s, [])
    else Effects(s.(channelOpen := true), [Authorize(page.token)])
  }

  /** `onAuthorizedWithUltra`: subscribe to events, register the base navigation
      entry and the course-details entry. */
  function Registrations(e: Effects): (r: Effects)
    ensures r.state == e.state
    ensures r.sent == e.sent + [
      Subscribe(Subscriptions),
      BasenavRegister(BaseNavRoute, RegistrationName, BaseNavButton(RegistrationName)),
      CourseDetailRegister(RegistrationName)]
  {
    var e1 := Send(e, Subscribe(Subscriptions));
    var e2 := Send(e1, BasenavRegister(BaseNavRoute, RegistrationName, BaseNavButton(RegistrationName)));
    Send(e2, CourseDetailRegister(RegistrationName))
  }

  /** The iframe address of `renderPanelContents` and `renderBaseNavContents`. */
  function FrameSrc(page: Page, lib: Lib, s: State): string {
    page.launchUrl + "?data=" + lib.encodeUriComponent(OrNull(s.context)) + "&uuid=" + page.uuid
      + "&action=" + OrNull(s.action) + "&learn_url=" + page.lmsHost + "&locale=" + page.locale
  }

  /** The iframe address of `renderModal`. */
  function ModalSrc(page: Page, lib: Lib, data: string): string {
    page.launchUrl + "?action=SHOW_MODAL" + "&uuid=" + page.uuid + "&learn_url=" + page.lmsHost
      + "&locale=" + page.locale + "&data=" + lib.encodeUriComponent(data)
  }

  /** The iframe address of `showBanner`. */
  function BannerSrc(page: Page, lib: Lib, s: State): string {
    page.launchUrl + "?action=SHOW_BANNER" + "&uuid=" + page.uuid + "&learn_url=" + page.lmsHost
      + "&locale=" + page.locale + "&data=" + lib.encodeUriComponent(OrNull(s.context))
  }

  /** The shared body of `renderPanelContents` and `renderBaseNavContents`: remember
      the portal as the panel and render the tool's iframe into it. */
  function ShowFrame(page: Page, lib: Lib, portalId: Json, e: Effects): (r: Effects)
    ensures r.state == e.state.(panelId := portalId)
    ensures r.sent == e.sent + [PortalRender(portalId, FrameIn("span", FrameSrc(page, lib, e.state)))]
    ensures Find(r.sent[|r.sent| - 1].contents, "iframe", "src") == [FrameSrc(page, lib, e.state)]
  {
    Send(e.(state := e.state.(panelId := portalId)),
         PortalRender(portalId, FrameIn("span", FrameSrc(page, lib, e.state))))
  }

  /** `renderPanelContents`: acts only on the response to the panel this script
      opened. */
  function RenderPanelContents(page: Page, lib: Lib, d: Json, e: Effects): (r: Effects)
    ensures Field(d, "correlationId") != JString(PanelCorrelationId) ==> r == e
    ensures Field(d, "correlationId") == JString(PanelCorrelationId) ==>
      r == ShowFrame(page, lib, Field(d, "portalId"), e)
  {
    if Field(d, "correlationId") == JString(PanelCorrelationId) then ShowFrame(page, lib, Field(d, "portalId"), e)
    else e
  }

  /** `openPanel(size, data)`: store `data` as the context and `SHOW_PANEL` as the
      action, then ask the host for a panel. */
  function OpenPanel(size: string, data: string, e: Effects): (r: Effects)
    ensures r.state == e.state.(context := Some(data), action := Some("SHOW_PANEL"))
    ensures r.sent == e.sent + [PortalPanel(PanelCorrelationId, size, PanelTitle, PanelCloseCallback)]
  {
    Send(e.(state := e.state.(context := Some(data), action := Some("SHOW_PANEL"))),
         PortalPanel(PanelCorrelationId, size, PanelTitle, PanelCloseCallback))
  }

  /** `renderModal(size, data)`: open a modal showing the tool with `data`. */
  function RenderModal(page: Page, lib: Lib, size: string, data: string, e: Effects): (r: Effects)
    ensures r.state == e.state && |r.sent| == |e.sent| + 1 && r.sent[..|e.sent|] == e.sent
    ensures r.sent[|e.sent|].PortalModal? && r.sent[|e.sent|].modalId == JString(ModalId)
    ensures Find(r.sent[|e.sent|].contents, "iframe", "src") == [ModalSrc(page, lib, data)]
    ensures Find(r.sent[|e.sent|].contents, "Modal", "width") == [size]
  {
    Send(e, PortalModal(JString(ModalId), ModalDialog(size, ModalSrc(page, lib, data))))
  }

  /** `showNotification(id)`: a notification anchored at analytics id `id`. */
  function ShowNotification(id: string, e: Effects): (r: Effects)
    ensures r.state == e.state && |r.sent| == |e.sent| + 1 && r.sent[..|e.sent|] == e.sent
    ensures r.sent[|e.sent|].PortalNotification?
    ensures r.sent[|e.sent|].selectorType == NotificationSelector && r.sent[|e.sent|].selectorValue == id
  {
    Send(e, PortalNotification(NotificationSelector, id, NotificationCard()))
  }

  /** The `portal:callback` switch: closing the modal, or the course-details
      button opening a full panel with the stored context (`null` when there is
      none, which is then stored as the text `null`). */
  function OnCallback(id: Json, e: Effects): (r: Effects)
    ensures id == JString(ModalCloseCallback) ==> r == Send(e, PortalModalClose(e.state.modalId))
    ensures id == JString(CourseDetailsCallback) ==> r == OpenPanel("full", OrNull(e.state.context), e)
    ensures id != JString(ModalCloseCallback) && id != JString(CourseDetailsCallback) ==> r == e
  {
    if id == JString(ModalCloseCallback) then Send(e, PortalModalClose(e.state.modalId))
    else if id == JString(CourseDetailsCallback) then OpenPanel("full", OrNull(e.state.context), e)
    else e
  }

  /** The modal size for a route that opens a modal. */
  function ModalSize(route: Json): (r: Option<string>)
    ensures r.Some? ==> r.value in {"large", "medium", "small"}
    ensures r == Some("large") <==> route == JString(OrganizationsRoute)
    ensures r == Some("medium") <==> route == JString(CalendarRoute) || route == JString(AssessmentRoute)
    ensures r == Some("small") <==> route == JString(MessagesRoute)
    ensures r.None? <==>
      && route != JString(OrganizationsRoute) && route != JString(CalendarRoute)
      && route != JString(MessagesRoute) && route != JString(AssessmentRoute)
  {
    if route == JString(OrganizationsRoute) then Some("large")
    else if route == JString(CalendarRoute) then Some("medium")
    else if route == JString(MessagesRoute) then Some("small")
    else if route == JString(AssessmentRoute) then Some("medium")
    else None
  }

  /** The panel size for a route that opens a panel. */
  function PanelSize(route: Json): (r: Option<string>)
    ensures r.Some? ==> r.value in {"full", "small"}
    ensures r == Some("full") <==> route == JString(BooksAndToolsRoute)
    ensures r == Some("small") <==> route == JString(SubmissionGradingRoute)
    ensures r.None? <==> route != JString(BooksAndToolsRoute) && route != JString(SubmissionGradingRoute)
  {
    if route == JString(BooksAndToolsRoute) then Some("full")
    else if route == JString(SubmissionGradingRoute) then Some("small")
    else None
  }

  /** The modal routes of `eventUltraMessageReceived`. */
  function ModalRoute(page: Page, lib: Lib, route: Json, text: string, e: Effects): (r: Effects)
    ensures r.state == e.state && e.sent <= r.sent
    ensures ModalSize(route).None? ==> r == e
  {
    match ModalSize(route)
    case Some(size) => RenderModal(page, lib, size, text, e)
    case None => e
  }

  /** The panel routes of `eventUltraMessageReceived`. */
  function PanelRoute(route: Json, text: string, e: Effects): (r: Effects)
    ensures r.state.channelOpen == e.state.channelOpen
    ensures r.state.panelId == e.state.panelId && r.state.modalId == e.state.modalId
    ensures e.sent <= r.sent
    ensures PanelSize(route).None? ==> r == e
  {
    match PanelSize(route)
    case Some(size) => OpenPanel(size, text, e)
    case None => e
  }

  /** The notifications of `eventUltraMessageReceived` for the recent-activity
      page, one per anchor, in order. */
  function RecentActivityNotices(d: Json, e: Effects): (r: Effects)
    ensures r.state == e.state && e.sent <= r.sent
    ensures r.sent != e.sent <==> (Field(d, "type") == JString(EventType)
      && Field(d, "eventType") == JString("route") && Field(d, "routeName") == JString(RecentActivityRoute))
    ensures r.sent == e.sent ==> r == e
  {
    if Field(d, "type") == JString(EventType) && Field(d, "eventType") == JString("route")
       && Field(d, "routeName") == JString(RecentActivityRoute)
    then ShowNotification(NotificationAnchors[2], ShowNotification(NotificationAnchors[1],
           ShowNotification(NotificationAnchors[0], e)))
    else e
  }

  /** The route part of `eventUltraMessageReceived`. The route tests are separate
      `if`s in the script, run in this order. The route data goes along as its
      JSON text (`undefined` when there is none). */
  function OnRoute(page: Page, lib: Lib, d: Json, e: Effects): (r: Effects)
    ensures r.state.channelOpen == e.state.channelOpen
    ensures r.state.panelId == e.state.panelId && r.state.modalId == e.state.modalId
    ensures e.sent <= r.sent
  {
    var route := Field(d, "routeName");
    var text := OrUndefined(lib.stringify(Field(d, "routeData")));
    var e2 := PanelRoute(route, text, ModalRoute(page, lib, route, text, e));
    var e3 := if route == JString(OutlineRoute) then e2.(state := e2.state.(context := Some(text))) else e2;
    RecentActivityNotices(d, e3)
  }

  /** The `portal:new` part of `eventUltraMessageReceived`: fill the course banner,
      the base-navigation page this script registered, or the course-details
      entry. Reading `selectorData.routeName` of a missing `selectorData` throws. */
  function OnPortalNew(page: Page, lib: Lib, d: Json, e: Effects): (r: Effects)
    ensures r.state.channelOpen == e.state.channelOpen && r.state.modalId == e.state.modalId
    ensures e.sent <= r.sent
    ensures r.state.panelId != e.state.panelId ==> RenderedLast(r)
  {
    var portal := Field(d, "portalId");
    var selector := Field(d, "selector");
    if Field(d, "eventType") != JString("portal:new") then e
    else if selector == JString(BannerSelector) then
      Send(e, PortalRender(portal, FrameIn("div", BannerSrc(page, lib, e.state))))
    else if selector == JString(BaseNavSelector) then
      var data := Field(d, "selectorData");
      match Prop(data, "routeName")
      case None => e
      case Some(name) =>
        if name == JString(BaseNavRoute) then
          var params := JsString(Field(data, "routeParameters"));
          ShowFrame(page, lib, portal, e.(state := e.state.(action := Some("LOAD_BASENAV"), context := Some(params))))
        else e
    else if selector == JString(CourseDetailsSelector) then
      Send(e, PortalRender(portal, CourseDetailsCard(RegistrationName, "Click Here")))
    else e
  }

  /** `eventUltraMessageReceived`. */
  function OnEvent(page: Page, lib: Lib, d: Json, e: Effects): (r: Effects)
    ensures r.state.channelOpen == e.state.channelOpen && r.state.modalId == e.state.modalId
    ensures r.state.panelId != e.state.panelId ==> RenderedLast(r)
  {
    OnPortalNew(page, lib, d, OnRoute(page, lib, d, e))
  }

  /** The message types `onMessageFromUltra` tests for. */
  datatype Kind = AuthorizeMsg | PanelResponseMsg | ModalResponseMsg | CallbackMsg | EventMsg | OtherMsg

  /** The type test a channel message passes; at most one, since the type names
      differ. */
  function KindOf(t: Json): (k: Kind)
    ensures k == AuthorizeMsg <==> t == JString(AuthorizeType)
    ensures k == PanelResponseMsg <==> t == JString(PanelResponseType)
    ensures k == ModalResponseMsg <==> t == JString(ModalResponseType)
    ensures k == CallbackMsg <==> t == JString(CallbackType)
    ensures k == EventMsg <==> t == JString(EventType)
  {
    if t == JString(AuthorizeType) then AuthorizeMsg
    else if t == JString(PanelResponseType) then PanelResponseMsg
    else if t == JString(ModalResponseType) then ModalResponseMsg
    else if t == JString(CallbackType) then CallbackMsg
    else if t == JString(EventType) then EventMsg
    else OtherMsg
  }

  /** The reply tests of `onMessageFromUltra`, before the event test: separate
      `if`s, run in order; `portal:panel:response` is compared twice, so the panel
      contents are rendered twice. */
  function Replies(page: Page, lib: Lib, d: Json, k: Kind, e: Effects): (r: Effects)
    ensures r.state.channelOpen == e.state.channelOpen
    ensures r.state.modalId != e.state.modalId ==> k == ModalResponseMsg && r.state.modalId == Field(d, "modalId")
    ensures r.state.panelId != e.state.panelId ==> RenderedLast(r)
  {
    var e1 := if k == AuthorizeMsg then Registrations(e) else e;
    var e2 := if k == PanelResponseMsg then RenderPanelContents(page, lib, d, e1) else e1;
    var e3 := if k == ModalResponseMsg then e2.(state := e2.state.(modalId := Field(d, "modalId"))) else e2;
    var e4 := if k == CallbackMsg then OnCallback(Field(d, "callbackId"), e3) else e3;
    if k == PanelResponseMsg then RenderPanelContents(page, lib, d, e4) else e4
  }

  /** `onMessageFromUltra`: the reply tests, then the event test; an event passes
      none of the reply tests, since the type names differ. Data that is `null` or
      `undefined` throws at the first test. */
  function OnMessageFromUltra(page: Page, lib: Lib, s: State, d: Json): (r: Effects)
    ensures r.state.channelOpen == s.channelOpen
    ensures r.state.modalId != s.modalId ==>
      Field(d, "type") == JString(ModalResponseType) && r.state.modalId == Field(d, "modalId")
    ensures r.state.panelId != s.panelId ==> RenderedLast(r)
  {
    if d == JNull || d == JUndefined then Effects(s, [])
    else
      var k := KindOf(Field(d, "type"));
      if k == EventMsg then OnEvent(page, lib, d, Effects(s, []))
      else Replies(page, lib, d, k, Effects(s, []))
  }

  /** How a `storage` event changes the two items this script reads. */
  function Stored(s: State, key: Option<string>, newValue: Option<string>): (r: State)
    ensures r.channelOpen == s.channelOpen && r.panelId == s.panelId && r.modalId == s.modalId
    ensures r.context == (if key == Some("context") then newValue else if key.None? then None else s.context)
    ensures r.action == (if key == Some("action") then newValue else if key.None? then None else s.action)
  {
    match key
    case None => s.(context := None, action := None)
    case Some(k) =>
      if k == "context" then s.(context := newValue)
      else if k == "action" then s.(action := newValue)
      else s
  }

  /** `onEventFromIframe`: the tool's page asks, through the `event` item, for the
      panel to be closed. `JSON.parse` of a removed item parses `null`; a parse
      error, a message without properties, or a closed channel throws. */
  function OnStorage(lib: Lib, s: State, key: Option<string>, newValue: Option<string>): (r: Effects)
    ensures r.state == Stored(s, key, newValue)
    ensures r.sent == [] || r.sent == [PortalPanelClose(s.panelId)]
    ensures r.sent != [] <==>
      && key == Some(StorageEventKey)
      && s.channelOpen
      && lib.parseJson(OrNull(newValue)).Some?
      && Prop(lib.parseJson(OrNull(newValue)).value, "type") == Some(JString(ClosePanelType))
  {
    var s1 := Stored(s, key, newValue);
    if key != Some(StorageEventKey) then Effects(s1, [])
    else
      match lib.parseJson(OrNull(newValue))
      case None => Effects(s1, [])
      case Some(message) =>
        match Prop(message, "type")
        case None => Effects(s1, [])
        case Some(t) =>
          if t == JString(ClosePanelType) && s1.channelOpen then Effects(s1, [PortalPanelClose(s1.panelId)])
          else Effects(s1, [])
  }

  /** One event. Channel messages cannot arrive before the handshake opened the
      channel. */
  function Step(page: Page, lib: Lib, s: State, input: Input): (r: Effects)
    ensures input.ChannelMessage? && !s.channelOpen ==> r == Effects(s, [])
    ensures input.WindowMessage? ==> r.sent == [] || r.sent == [Authorize(page.token)]
    ensures input.StorageEvent? ==> r.state == Stored(s, input.key, input.newValue)
  {
    match input
    case WindowMessage(origin, data, ports) => OnPostMessage(page, s, origin, data, ports)
    case ChannelMessage(data) => if s.channelOpen then OnMessageFromUltra(page, lib, s, data) else Effects(s, [])
    case StorageEvent(key, newValue) => OnStorage(lib, s, key, newValue)
  }

  /** A sequence of events, one after the other; the messages posted are
      concatenated in order. */
  function Run(page: Page, lib: Lib, s: State, inputs: seq<Input>): (r: Effects)
    ensures |inputs| == 0 ==> r == Effects(s, [])
    ensures |inputs| == 1 ==> r == Step(page, lib, s, inputs[0])
    decreases |inputs|
  {
    if |inputs| == 0 then Effects(s, [])
    else
      var e := Step(page, lib, s, inputs[0]);
      var rest := Run(page, lib, e.state, inputs[1..]);
      Effects(rest.state, e.sent + rest.sent)
  }
}
