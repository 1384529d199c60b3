/** The running application: a single component holding the current view, the
    visibility and contents of its custom alert, and the image last captured.
    `Step` is the transition table over that state, one event per tap handler
    or library callback; class `App` holds the same four fields and has one
    method per event, each tied to `Step`. The lemmas state which events can
    reach which views and what each event leaves unchanged.

    The camera permission request, the picker callback and the simulated
    detection delay are asynchronous in the application. Here the permission
    answer and the picker response are parameters of the press event. The
    delayed detection is a separate event: a capture adds its `setTimeout`
    callback to the pending timers, and the event can arrive at any later
    moment while that timer is pending. */
module KredentiaApp {

  import opened Types
  import BottomTabBar

  // The eight names of `ViewType`.
  const ScannerView := "qr-scanner"
  const SelectorView := "institution-selector"
  const HomeView := "home"
  const NotificationsView := "notifications"
  const DocumentDetailView := "document-detail"
  const DocumentsView := "documents"
  const IdentificationsView := "identifications"
  const SettingsView := "settings"

  predicate IsViewType(v: string)
  {
    || v == ScannerView || v == SelectorView || v == HomeView || v == NotificationsView
    || v == DocumentDetailView || v == DocumentsView || v == IdentificationsView || v == SettingsView
  }

  /** The screen `renderCurrentView` draws. */
  datatype Page =
    | ScannerPage | SelectorPage | HomePage | NotificationsPage
    | DocumentDetailPage | DocumentsPage | IdentificationsPage | SettingsPage

  /** The dispatch on the current view; a name outside `ViewType` draws home. */
  function RenderCurrentView(view: string): (p: Page)
    ensures !IsViewType(view) ==> p == HomePage
  {
    if view == ScannerView then ScannerPage
    else if view == SelectorView then SelectorPage
    else if view == HomeView then HomePage
    else if view == NotificationsView then NotificationsPage
    else if view == DocumentDetailView then DocumentDetailPage
    else if view == DocumentsView then DocumentsPage
    else if view == IdentificationsView then IdentificationsPage
    else if view == SettingsView then SettingsPage
    else HomePage
  }

  /** The four screens that draw the bottom tab bar. */
  predicate HasTabBar(p: Page)
  {
    p == HomePage || p == DocumentsPage || p == IdentificationsPage || p == SettingsPage
  }

  /** Every view name draws its own screen, so no two names share one. */
  lemma RenderDispatchInjective(v: string, w: string)
    requires IsViewType(v) && IsViewType(w)
    ensures RenderCurrentView(v) == RenderCurrentView(w) ==> v == w
  {
  }

  /** The tab bar is drawn on a view exactly when that view is one of the tab ids. */
  lemma TabBarExactlyOnTabViews(v: string)
    requires IsViewType(v)
    ensures HasTabBar(RenderCurrentView(v)) <==> BottomTabBar.IsTabId(v)
  {
  }

  /** The stored confirm callback. Every callback the application builds sets
      the current view. */
  datatype Action = GoTo(view: string)

  datatype AlertConfig = AlertConfig(title: string, message: string, onConfirm: Option<Action>)

  /** An image picker asset, kept opaque. */
  datatype Asset = Asset(uri: string)

  /** What the camera or gallery picker hands back. */
  datatype PickerResponse = PickerResponse(didCancel: bool, errorMessage: Option<string>, assets: seq<Asset>)

  datatype PickerOutcome = Cancelled | Failed | Picked(asset: Asset) | NoAsset

  /** The branch order of both picker callbacks: cancel first, then a truthy
      error message, then a first asset. */
  function Classify(r: PickerResponse): (o: PickerOutcome)
    ensures o == Cancelled <==> r.didCancel
    ensures o == Failed <==> !r.didCancel && Truthy(r.errorMessage)
    ensures o.Picked? <==> !r.didCancel && !Truthy(r.errorMessage) && |r.assets| > 0
    ensures o.Picked? ==> o.asset == r.assets[0]
  {
    if r.didCancel then Cancelled
    else if Truthy(r.errorMessage) then Failed
    else if |r.assets| > 0 then Picked(r.assets[0])
    else NoAsset
  }

  /** Which picker scheduled a simulated detection. */
  datatype Source = FromCamera | FromGallery

  /** The component's four state fields, and the detection timers the runtime
      holds for it: each scheduled `setTimeout` not yet run, by its source. */
  datatype AppState = AppState(
    currentView: string,
    showAlert: bool,
    alertConfig: AlertConfig,
    scannedImage: Option<Asset>,
    timers: multiset<Source>)

  datatype Event =
    | CameraPressed(granted: bool, response: PickerResponse)
    | GalleryPressed(response: PickerResponse)
    | DetectionFired(source: Source)
    | DemoPressed
    | AlertConfirmed
    | AlertCancelled
    | AddPressed
    | InstitutionPressed
    | BellPressed
    | DocumentCardPressed
    | NotificationCardPressed
    | IdentificationCardPressed
    | BackPressed
    | CopyPressed
    | TabPressed(index: nat)

  function Initial(): AppState
  {
    AppState(ScannerView, false, AlertConfig("", "", None), None, multiset{})
  }

  const DetectedTitle := "QR Detectado"
  const DemoTitle := "Demo QR"
  const CopiedTitle := "Copiado"

  /** The alerts the application raises. */
  const PermissionAlert := AlertConfig("Permiso Requerido", "Necesitamos acceso a la cámara para escanear códigos QR", None)
  const CameraErrorAlert := AlertConfig("Error", "No se pudo acceder a la cámara", None)
  const DemoAlert := AlertConfig(DemoTitle, "Simulando detección de código QR para demostración", Some(GoTo(SelectorView)))
  const HashCopiedAlert := AlertConfig(CopiedTitle, "Hash IPFS copiado al portapapeles", None)
  const WalletCopiedAlert := AlertConfig(CopiedTitle, "Dirección de wallet copiada al portapapeles", None)

  const CameraDetectedMessage := "Se detectó un código QR válido. ¿Deseas continuar?"
  const GalleryDetectedMessage := "Se detectó un código QR en la imagen. ¿Deseas continuar?"

  /** The alert a completed simulated detection raises. */
  function DetectedAlert(source: Source): AlertConfig
  {
    match source
    case FromCamera => AlertConfig(DetectedTitle, CameraDetectedMessage, Some(GoTo(SelectorView)))
    case FromGallery => AlertConfig(DetectedTitle, GalleryDetectedMessage, Some(GoTo(SelectorView)))
  }

  /** The titles of the two alerts whose confirm opens the institution selector. */
  predicate OpensSelector(title: string)
  {
    title == DetectedTitle || title == DemoTitle
  }

  /** What every reachable state satisfies: the view is a `ViewType` name, and a
      stored callback only ever opens the institution selector, from one of the
      two alerts that carry it. */
  predicate Inv(s: AppState)
  {
    IsViewType(s.currentView) && CallbackOpensSelector(s.alertConfig)
  }

  predicate CallbackOpensSelector(c: AlertConfig)
  {
    c.onConfirm.Some? ==> c.onConfirm.value == GoTo(SelectorView) && OpensSelector(c.title)
  }

  /** The buttons each screen offers. */
  predicate OnPage(p: Page, e: Event)
  {
    match e
    case CameraPressed(_, _) => p == ScannerPage
    case GalleryPressed(_) => p == ScannerPage
    case DemoPressed => p == ScannerPage
    case AddPressed => p == SelectorPage
    case InstitutionPressed => p == SelectorPage
    case BellPressed => p == HomePage
    case DocumentCardPressed => p == HomePage || p == DocumentsPage
    case NotificationCardPressed => p == NotificationsPage
    case IdentificationCardPressed => p == IdentificationsPage
    case BackPressed =>
      p == NotificationsPage || p == DocumentDetailPage || p == DocumentsPage
      || p == IdentificationsPage || p == SettingsPage
    case CopyPressed => p == DocumentDetailPage || p == SettingsPage
    case TabPressed(i) => HasTabBar(p) && i < |BottomTabBar.Tabs|
    case _ => false
  }

  /** While the alert is visible its modal takes every touch, so only its two
      buttons can be pressed; otherwise the current screen's buttons can. A
      pending detection timer can fire in any state. */
  predicate Enabled(s: AppState, e: Event)
  {
    match e
    case DetectionFired(source) => source in s.timers
    case AlertConfirmed => s.showAlert
    case AlertCancelled => s.showAlert
    case _ => !s.showAlert && OnPage(RenderCurrentView(s.currentView), e)
  }

  /** `showCustomAlert`: the whole configuration is replaced and made visible. */
  function WithAlert(s: AppState, c: AlertConfig): (t: AppState)
    ensures t.showAlert && t.alertConfig == c
    ensures t.currentView == s.currentView && t.scannedImage == s.scannedImage && t.timers == s.timers
  {
    s.(showAlert := true, alertConfig := c)
  }

  /** The transition table. */
  function Step(s: AppState, e: Event): AppState
  {
    match e
    case CameraPressed(granted, response) =>
      if !granted then
        WithAlert(s, PermissionAlert)
      else
        (match Classify(response)
         case Failed => WithAlert(s, CameraErrorAlert)
         case Picked(asset) => s.(scannedImage := Some(asset), timers := s.timers + multiset{FromCamera})
         case _ => s)
    case GalleryPressed(response) =>
      (match Classify(response)
       case Picked(asset) => s.(scannedImage := Some(asset), timers := s.timers + multiset{FromGallery})
       case _ => s)
    case DetectionFired(source) =>
      WithAlert(s.(timers := s.timers - multiset{source}), DetectedAlert(source))
    case DemoPressed =>
      WithAlert(s, DemoAlert)
    case AlertConfirmed =>
      (match s.alertConfig.onConfirm
       case Some(GoTo(v)) => s.(showAlert := false, currentView := v)
       case None => s.(showAlert := false))
    case AlertCancelled => s.(showAlert := false)
    case AddPressed => s.(scannedImage := None, currentView := ScannerView)
    case InstitutionPressed => s.(currentView := HomeView)
    case BellPressed => s.(currentView := NotificationsView)
    case DocumentCardPressed => s.(currentView := DocumentDetailView)
    case NotificationCardPressed => s.(currentView := DocumentDetailView)
    case IdentificationCardPressed => s.(currentView := SettingsView)
    case BackPressed => s.(currentView := HomeView)
    case CopyPressed =>
      if s.currentView == DocumentDetailView
      then WithAlert(s, HashCopiedAlert)
      else WithAlert(s, WalletCopiedAlert)
    case TabPressed(i) =>
      if i < |BottomTabBar.Tabs| then s.(currentView := BottomTabBar.PressedTabId(i)) else s
  }

  /** The detection an event schedules: only a picked image schedules one. */
  function ScheduledDetection(e: Event): (d: Option<Source>)
    ensures d == Some(FromCamera) <==> e.CameraPressed? && e.granted && Classify(e.response).Picked?
    ensures d == Some(FromGallery) <==> e.GalleryPressed? && Classify(e.response).Picked?
  {
    match e
    case CameraPressed(granted, response) =>
      if granted && Classify(response).Picked? then Some(FromCamera) else None
    case GalleryPressed(response) =>
      if Classify(response).Picked? then Some(FromGallery) else None
    case _ => None
  }

  /** The timer an event adds to the pending ones: the detection it schedules. */
  function Scheduled(e: Event): multiset<Source>
  {
    match ScheduledDetection(e)
    case Some(src) => multiset{src}
    case None => multiset{}
  }

  /** A capture adds its detection timer; a detection firing removes its own;
      no other event touches the pending timers. */
  lemma StepTimers(s: AppState, e: Event)
    ensures e.DetectionFired? ==> Step(s, e).timers == s.timers - multiset{e.source}
    ensures !e.DetectionFired? ==> Step(s, e).timers == s.timers + Scheduled(e)
  {
    match e
    case CameraPressed(granted, r) =>
      if granted && Classify(r).Picked? {
        assert Step(s, e).timers == s.timers + multiset{FromCamera};
      } else {
        assert Scheduled(e) == multiset{};
      }
    case GalleryPressed(r) =>
      if Classify(r).Picked? {
        assert Step(s, e).timers == s.timers + multiset{FromGallery};
      } else {
        assert Scheduled(e) == multiset{};
      }
    case DetectionFired(src) =>
    case _ =>
      TimersUntouched(s, e);
      assert Scheduled(e) == multiset{};
      assert s.timers + multiset{} == s.timers;
  }

  /** The events other than the two pickers and a detection keep the timers. */
  lemma TimersUntouched(s: AppState, e: Event)
    requires !e.CameraPressed? && !e.GalleryPressed? && !e.DetectionFired?
    ensures Step(s, e).timers == s.timers
  {
  }

  /** Every event keeps the invariant. */
  lemma StepKeepsInv(s: AppState, e: Event)
    requires Inv(s)
    ensures Inv(Step(s, e))
  {
    StepKeepsCallback(s, e);
    StepKeepsViewType(s, e);
  }

  /** Only the 'QR Detectado' and 'Demo QR' alerts store a callback. */
  lemma StepKeepsCallback(s: AppState, e: Event)
    requires CallbackOpensSelector(s.alertConfig)
    ensures CallbackOpensSelector(Step(s, e).alertConfig)
  {
  }

  /** Every view an event sets is a `ViewType` name. */
  lemma StepKeepsViewType(s: AppState, e: Event)
    requires Inv(s)
    ensures IsViewType(Step(s, e).currentView)
  {
    if e.TabPressed? && e.index < |BottomTabBar.Tabs| {
      BottomTabBar.TabsTable();
    }
  }

  /** The state after a sequence of events. */
  function Run(s: AppState, events: seq<Event>): AppState
    decreases |events|
  {
    if |events| == 0 then s else Run(Step(s, events[0]), events[1..])
  }

  /** Every event of the sequence is enabled when it happens. */
  predicate Feasible(s: AppState, events: seq<Event>)
    decreases |events|
  {
    |events| == 0 || (Enabled(s, events[0]) && Feasible(Step(s, events[0]), events[1..]))
  }

  /** Whatever events happen, the state satisfies the invariant: every view
      entered is one of the eight `ViewType` names. */
  lemma {:induction false} RunKeepsInv(s: AppState, events: seq<Event>)
    requires Inv(s)
    ensures Inv(Run(s, events))
    decreases |events|
  {
    if |events| > 0 {
      StepKeepsInv(s, events[0]);
      RunKeepsInv(Step(s, events[0]), events[1..]);
    }
  }

  lemma InitialSatisfiesInv()
    ensures Inv(Initial())
    ensures Initial().currentView == ScannerView && !Initial().showAlert
    ensures Initial().alertConfig == AlertConfig("", "", None) && Initial().scannedImage.None?
  {
  }

  /** The institution selector is entered only by confirming a 'QR Detectado'
      or 'Demo QR' alert. */
  lemma SelectorOnlyByConfirm(s: AppState, e: Event)
    requires Inv(s) && s.currentView != SelectorView && Step(s, e).currentView == SelectorView
    ensures e == AlertConfirmed
    ensures s.alertConfig.onConfirm == Some(GoTo(SelectorView)) && OpensSelector(s.alertConfig.title)
  {
    if e.TabPressed? && e.index < |BottomTabBar.Tabs| {
      BottomTabBar.TabsTable();
    }
  }

  /** The scanner is re-entered only through the selector's `+`, which also
      forgets the captured image. */
  lemma ScannerOnlyByAdd(s: AppState, e: Event)
    requires Inv(s) && Enabled(s, e)
    requires s.currentView != ScannerView && Step(s, e).currentView == ScannerView
    ensures e == AddPressed && s.currentView == SelectorView
    ensures Step(s, e).scannedImage.None?
  {
    if e.TabPressed? && e.index < |BottomTabBar.Tabs| {
      BottomTabBar.TabsTable();
    }
  }

  /** Each back arrow, on the five screens that have one, goes home and
      changes nothing else. */
  lemma BackGoesHome(s: AppState)
    ensures Enabled(s, BackPressed) <==>
              !s.showAlert && RenderCurrentView(s.currentView) in
                {NotificationsPage, DocumentDetailPage, DocumentsPage, IdentificationsPage, SettingsPage}
    ensures Step(s, BackPressed) == s.(currentView := HomeView)
  {
  }

  /** Cancel only hides the alert. */
  lemma CancelOnlyHides(s: AppState)
    ensures Step(s, AlertCancelled) == s.(showAlert := false)
  {
  }

  /** Confirm hides the alert and then runs the stored callback, if any. */
  lemma ConfirmRunsStoredAction(s: AppState)
    ensures s.alertConfig.onConfirm.None? ==> Step(s, AlertConfirmed) == s.(showAlert := false)
    ensures s.alertConfig.onConfirm.Some? ==>
              Step(s, AlertConfirmed) == s.(showAlert := false, currentView := s.alertConfig.onConfirm.value.view)
  {
  }

  /** A second alert before the first is dismissed overwrites it: the first
      has no effect on what is shown or on what confirming does. */
  lemma LastAlertWins(s: AppState, first: AlertConfig, second: AlertConfig)
    ensures WithAlert(WithAlert(s, first), second) == WithAlert(s, second)
    ensures Step(WithAlert(WithAlert(s, first), second), AlertConfirmed)
            == Step(WithAlert(s, second), AlertConfirmed)
  {
  }

  /** The camera outcomes: a denied permission or a camera error shows its
      alert and changes nothing else; a cancel, or a response with no asset,
      changes nothing; a capture stores the image and shows no alert yet. */
  lemma CameraOutcomes(s: AppState, granted: bool, r: PickerResponse)
    ensures !granted ==>
              Step(s, CameraPressed(granted, r))
              == WithAlert(s, PermissionAlert)
    ensures granted && Classify(r) == Failed ==>
              Step(s, CameraPressed(granted, r)) == WithAlert(s, CameraErrorAlert)
    ensures granted && (Classify(r) == Cancelled || Classify(r) == NoAsset) ==>
              Step(s, CameraPressed(granted, r)) == s
    ensures granted && Classify(r).Picked? ==>
              Step(s, CameraPressed(granted, r))
              == s.(scannedImage := Some(r.assets[0]), timers := s.timers + multiset{FromCamera})
  {
  }

  /** A gallery error shows no alert: only a picked image changes the state. */
  lemma GalleryOutcomes(s: AppState, r: PickerResponse)
    ensures !Classify(r).Picked? ==> Step(s, GalleryPressed(r)) == s
    ensures Classify(r).Picked? ==>
              Step(s, GalleryPressed(r))
              == s.(scannedImage := Some(r.assets[0]), timers := s.timers + multiset{FromGallery})
  {
  }

  /** A capture schedules its detection, which can then fire; it leaves the
      image stored and offers the selector through a 'QR Detectado' alert. */
  lemma CaptureThenDetection(s: AppState, r: PickerResponse, viaCamera: bool)
    requires Classify(r).Picked?
    ensures var e := if viaCamera then CameraPressed(true, r) else GalleryPressed(r);
            var src := if viaCamera then FromCamera else FromGallery;
            && ScheduledDetection(e) == Some(src)
            && Enabled(Step(s, e), DetectionFired(src))
            && var t := Step(Step(s, e), DetectionFired(src));
               && t.scannedImage == Some(r.assets[0])
               && t.showAlert && t.alertConfig.title == DetectedTitle
               && Step(t, AlertConfirmed).currentView == SelectorView
  {
  }

  /** A scheduled detection is never cancelled: whatever view is current when
      it completes, its alert appears over that view, and confirming it opens
      the institution selector. Only the timer that ran is removed. */
  lemma DetectionIgnoresView(s: AppState, source: Source)
    requires source in s.timers
    ensures Enabled(s, DetectionFired(source))
    ensures Step(s, DetectionFired(source))
            == WithAlert(s.(timers := s.timers - multiset{source}), DetectedAlert(source))
    ensures Step(Step(s, DetectionFired(source)), AlertConfirmed).currentView == SelectorView
  {
  }

  /** A detection that fires was pending when the run started or was scheduled
      by an earlier capture of the run. */
  lemma {:induction false} FiredTimerWasPending(s: AppState, events: seq<Event>, k: nat, src: Source)
    requires Feasible(s, events) && k < |events| && events[k] == DetectionFired(src)
    ensures src in s.timers || exists j :: 0 <= j < k && ScheduledDetection(events[j]) == Some(src)
    decreases k
  {
    if k == 0 {
      assert Enabled(s, DetectionFired(src));
    } else {
      var t := Step(s, events[0]);
      assert Feasible(t, events[1..]);
      FiredTimerWasPending(t, events[1..], k - 1, src);
      if src in t.timers {
        PendingAfterStep(s, events[0], src);
      } else {
        var j :| 0 <= j < k - 1 && ScheduledDetection(events[1..][j]) == Some(src);
        assert events[1..][j] == events[j + 1];
      }
    }
  }

  /** A timer pending after an event was pending before it or scheduled by it. */
  lemma PendingAfterStep(s: AppState, e: Event, src: Source)
    requires src in Step(s, e).timers
    ensures src in s.timers || ScheduledDetection(e) == Some(src)
  {
    StepTimers(s, e);
  }

  /** From the initial state no detection fires without a capture before it. */
  lemma DetectionNeedsCapture(events: seq<Event>, k: nat, src: Source)
    requires Feasible(Initial(), events) && k < |events| && events[k] == DetectionFired(src)
    ensures exists j :: 0 <= j < k && ScheduledDetection(events[j]) == Some(src)
  {
    FiredTimerWasPending(Initial(), events, k, src);
  }

  /** The tab bar's presses are offered only on the four tab views, and each
      sets the view to the pressed tab's id. */
  lemma TabPressOnlyOnTabViews(s: AppState, i: nat)
    requires Inv(s) && Enabled(s, TabPressed(i))
    ensures BottomTabBar.IsTabId(s.currentView)
    ensures Step(s, TabPressed(i)) == s.(currentView := BottomTabBar.Tabs[i].id)
  {
  }

  /** Running two sequences one after the other is running their concatenation,
      and the concatenation is feasible when both parts are. */
  lemma {:induction false} RunAppend(s: AppState, first: seq<Event>, second: seq<Event>)
    ensures Run(s, first + second) == Run(Run(s, first), second)
    ensures Feasible(s, first) && Feasible(Run(s, first), second) ==> Feasible(s, first + second)
    decreases |first|
  {
    if |first| == 0 {
      assert first + second == second;
    } else {
      assert (first + second)[0] == first[0];
      assert (first + second)[1..] == first[1..] + second;
      RunAppend(Step(s, first[0]), first[1..], second);
    }
  }

  /** The first event of a sequence runs first. */
  lemma RunCons(s: AppState, e: Event, rest: seq<Event>)
    ensures Run(s, [e] + rest) == Run(Step(s, e), rest)
    ensures Feasible(s, [e] + rest) <==> Enabled(s, e) && Feasible(Step(s, e), rest)
  {
    assert ([e] + rest)[0] == e;
    assert ([e] + rest)[1..] == rest;
  }

  /** The demo alert, confirmed, then any institution: the way home. */
  const ToHome: seq<Event> := [DemoPressed, AlertConfirmed, InstitutionPressed]

  lemma ReachHome()
    ensures Feasible(Initial(), ToHome[..2]) && Run(Initial(), ToHome[..2]).currentView == SelectorView
    ensures Feasible(Initial(), ToHome) && Run(Initial(), ToHome) == AppState(HomeView, false, DemoAlert, None, multiset{})
  {
    var s1 := AppState(ScannerView, true, DemoAlert, None, multiset{});
    var s2 := AppState(SelectorView, false, DemoAlert, None, multiset{});
    var s3 := AppState(HomeView, false, DemoAlert, None, multiset{});
    assert Step(Initial(), DemoPressed) == s1;
    assert Step(s1, AlertConfirmed) == s2;
    assert Step(s2, InstitutionPressed) == s3;
    RunCons(s2, InstitutionPressed, []);
    RunCons(s1, AlertConfirmed, [InstitutionPressed]);
    RunCons(s1, AlertConfirmed, []);
    assert ToHome == [DemoPressed] + [AlertConfirmed, InstitutionPressed];
    assert ToHome[..2] == [DemoPressed] + [AlertConfirmed];
    RunCons(Initial(), DemoPressed, [AlertConfirmed, InstitutionPressed]);
    RunCons(Initial(), DemoPressed, [AlertConfirmed]);
  }

  /** Every one of the eight views can be reached from the initial state by
      enabled events. */
  lemma AllViewsReachable(v: string)
    requires IsViewType(v)
    ensures exists events :: Feasible(Initial(), events) && Run(Initial(), events).currentView == v
  {
    ReachHome();
    var home := Run(Initial(), ToHome);
    if v == ScannerView {
      assert Feasible(Initial(), []) && Run(Initial(), []).currentView == v;
    } else if v == SelectorView {
      assert Feasible(Initial(), ToHome[..2]) && Run(Initial(), ToHome[..2]).currentView == v;
    } else if v == HomeView {
      assert Feasible(Initial(), ToHome) && Run(Initial(), ToHome).currentView == v;
    } else {
      BottomTabBar.TabsTable();
      var e :=
        if v == NotificationsView then BellPressed
        else if v == DocumentDetailView then DocumentCardPressed
        else if v == DocumentsView then TabPressed(1)
        else if v == IdentificationsView then TabPressed(2)
        else TabPressed(3);
      assert Enabled(home, e) && Step(home, e).currentView == v;
      RunCons(home, e, []);
      RunAppend(Initial(), ToHome, [e]);
      assert Feasible(Initial(), ToHome + [e]) && Run(Initial(), ToHome + [e]).currentView == v;
    }
  }

  class App {
    var currentView: string
    var showAlert: bool
    var alertConfig: AlertConfig
    var scannedImage: Option<Asset>
    /** The detection timers scheduled and not yet run. */
    var timers: multiset<Source>

    function State(): AppState
      reads this
    {
      AppState(currentView, showAlert, alertConfig, scannedImage, timers)
    }

    predicate Valid()
      reads this
    {
      Inv(State())
    }

    constructor ()
      ensures Valid() && State() == Initial()
    {
      currentView := ScannerView;
      showAlert := false;
      alertConfig := AlertConfig("", "", None);
      scannedImage := None;
      timers := multiset{};
    }

    method ShowCustomAlert(title: string, message: string, onConfirm: Option<Action>)
      requires Valid()
      requires onConfirm.Some? ==> onConfirm.value == GoTo(SelectorView) && OpensSelector(title)
      modifies this
      ensures Valid() && State() == WithAlert(old(State()), AlertConfig(title, message, onConfirm))
    {
      alertConfig := AlertConfig(title, message, onConfirm);
      showAlert := true;
    }

    /** The camera button, with the permission answer and the camera's
        response; returns the detection it schedules, if any. */
    method OpenCamera(granted: bool, response: PickerResponse) returns (timer: Option<Source>)
      requires Valid() && Enabled(State(), CameraPressed(granted, response))
      modifies this
      ensures Valid() && State() == Step(old(State()), CameraPressed(granted, response))
      ensures timer == ScheduledDetection(CameraPressed(granted, response))
    {
      timer := None;
      if !granted {
        ShowCustomAlert(PermissionAlert.title, PermissionAlert.message, None);
        return;
      }
      if response.didCancel {
      } else if Truthy(response.errorMessage) {
        ShowCustomAlert(CameraErrorAlert.title, CameraErrorAlert.message, None);
      } else if |response.assets| > 0 {
        scannedImage := Some(response.assets[0]);
        timers := timers + multiset{FromCamera};
        timer := Some(FromCamera);
      }
    }

    method OpenGallery(response: PickerResponse) returns (timer: Option<Source>)
      requires Valid() && Enabled(State(), GalleryPressed(response))
      modifies this
      ensures Valid() && State() == Step(old(State()), GalleryPressed(response))
      ensures timer == ScheduledDetection(GalleryPressed(response))
    {
      timer := None;
      if response.didCancel {
      } else if Truthy(response.errorMessage) {
      } else if |response.assets| > 0 {
        scannedImage := Some(response.assets[0]);
        timers := timers + multiset{FromGallery};
        timer := Some(FromGallery);
      }
    }

    /** A pending detection timer running. */
    method DetectionCompletes(source: Source)
      requires Valid() && Enabled(State(), DetectionFired(source))
      modifies this
      ensures Valid() && State() == Step(old(State()), DetectionFired(source))
    {
      timers := timers - multiset{source};
      var c := DetectedAlert(source);
      ShowCustomAlert(c.title, c.message, c.onConfirm);
    }

    method PressDemo()
      requires Valid() && Enabled(State(), DemoPressed)
      modifies this
      ensures Valid() && State() == Step(old(State()), DemoPressed)
    {
      ShowCustomAlert(DemoAlert.title, DemoAlert.message, DemoAlert.onConfirm);
    }

    method Confirm()
      requires Valid() && Enabled(State(), AlertConfirmed)
      modifies this
      ensures Valid() && State() == Step(old(State()), AlertConfirmed)
    {
      showAlert := false;
      if alertConfig.onConfirm.Some? {
        currentView := alertConfig.onConfirm.value.view;
      }
    }

    /** The cancel button, and the hardware back button while the alert shows. */
    method Cancel()
      requires Valid() && Enabled(State(), AlertCancelled)
      modifies this
      ensures Valid() && State() == Step(old(State()), AlertCancelled)
    {
      showAlert := false;
    }

    /** The selector's `+`. */
    method PressAdd()
      requires Valid() && Enabled(State(), AddPressed)
      modifies this
      ensures Valid() && State() == Step(old(State()), AddPressed)
    {
      scannedImage := None;
      currentView := ScannerView;
    }

    /** Any of the selector's four institution buttons. */
    method PressInstitution()
      requires Valid() && Enabled(State(), InstitutionPressed)
      modifies this
      ensures Valid() && State() == Step(old(State()), InstitutionPressed)
    {
      currentView := HomeView;
    }

    method PressBell()
      requires Valid() && Enabled(State(), BellPressed)
      modifies this
      ensures Valid() && State() == Step(old(State()), BellPressed)
    {
      currentView := NotificationsView;
    }

    /** A document card on home or on the documents list. */
    method PressDocumentCard()
      requires Valid() && Enabled(State(), DocumentCardPressed)
      modifies this
      ensures Valid() && State() == Step(old(State()), DocumentCardPressed)
    {
      currentView := DocumentDetailView;
    }

    method PressNotificationCard()
      requires Valid() && Enabled(State(), NotificationCardPressed)
      modifies this
      ensures Valid() && State() == Step(old(State()), NotificationCardPressed)
    {
      currentView := DocumentDetailView;
    }

    /** An identification card: it opens the settings view. */
    method PressIdentificationCard()
      requires Valid() && Enabled(State(), IdentificationCardPressed)
      modifies this
      ensures Valid() && State() == Step(old(State()), IdentificationCardPressed)
    {
      currentView := SettingsView;
    }

    method PressBack()
      requires Valid() && Enabled(State(), BackPressed)
      modifies this
      ensures Valid() && State() == Step(old(State()), BackPressed)
    {
      currentView := HomeView;
    }

    /** The copy button of the document detail view or of the settings view. */
    method PressCopy()
      requires Valid() && Enabled(State(), CopyPressed)
      modifies this
      ensures Valid() && State() == Step(old(State()), CopyPressed)
    {
      if currentView == DocumentDetailView {
        ShowCustomAlert(HashCopiedAlert.title, HashCopiedAlert.message, None);
      } else {
        ShowCustomAlert(WalletCopiedAlert.title, WalletCopiedAlert.message, None);
      }
    }

    /** `onTabPress(tab.id)` on the bottom tab bar. */
    method PressTab(index: nat)
      requires Valid() && Enabled(State(), TabPressed(index))
      modifies this
      ensures Valid() && State() == Step(old(State()), TabPressed(index))
    {
      BottomTabBar.TabsTable();
      currentView := BottomTabBar.PressedTabId(index);
    }
  }
}
