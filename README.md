# kredentia-app, modelled in Dafny

kredentia-app is a React Native mockup of a digital-credentials wallet. The user
scans a join code, picks an issuing institution, and then browses:
- signed documents and their signature progress;
- identification cards;
- notifications;
- the settings screen.

All data is static sample data.

This project models two parts of the app:

1. **The live application in `App.tsx`.** It is one component with four state
   fields:
   - the current view;
   - whether the custom alert is visible;
   - the alert's title, message and optional confirm callback;
   - the last captured image.

   Taps and picker callbacks change these fields.
   - Module `KredentiaApp` gives the transition table as a pure function `Step` over `AppState`.
   - `AppState` also holds the pending detection timers, the `setTimeout` callbacks the runtime keeps for the component.
   - Class `App` holds the same fields and has one method per event. Each method's contract ties the new state to `Step` of the old one.
   - Lemmas over `Step` and over event sequences (`Run`, `Feasible`) state what each event changes and keeps, and which events can enter which views.
   - An invariant (`Inv`) holds on every reachable state.
2. **The screens and components.** Each one is a module of pure functions:
   - the status tables, counts and slices;
   - lookups by id, with a not-found branch;
   - the signature progress dots;
   - the relative time of a notification;
   - the expired/active labels;
   - the tab highlight rule;
   - the status badge.

   The two pieces of local screen state are small classes:
   - the card face flag of the identification card;
   - the `scanning` flag of the QR screen.

   The screens' `navigation.navigate(...)` calls become returned `Route` values.

The modules follow the source files:

| module | file |
|---|---|
| `Types` | `src/types/index.ts` |
| `MockData` | `src/utils/mockData.ts` |
| `StatusBadge`, `BottomTabBar` | `src/components/` |
| one module per screen | `src/screens/` |
| `KredentiaApp` | `App.tsx` |

Other modules:
- `StatusTables` holds the status colour and icon tables once. HomeScreen and DocumentsListScreen carry identical copies; DocumentDetailScreen defines an unused copy of the colour table only.
- `Lookup` holds the first-match search by id once; both detail screens use it.
- `Decimal` renders integers as JavaScript template literals do, and proves that the rendering can be read back.

How the model represents the source:
- Dates are integer milliseconds.
- Each "now" is a parameter (`now`, `loaded`).
- JavaScript truthiness of an optional string is `Types.Truthy`: absent and `""` are both false.

What the code does, which the model keeps:
- **Progress.** In the sample data the stored progress always equals the signed fraction (`MockData.ProgressMatchesSignatures`).
- **Picker failures.** A picker cancel and a gallery error raise no alert (`KredentiaApp.CameraOutcomes`, `KredentiaApp.GalleryOutcomes`).
- **Detection timer.** The detection timer is never cancelled: a completed detection raises its alert over whatever view is current (`KredentiaApp.DetectionIgnoresView`).
- **Identification cards.** In `App.tsx`, pressing an identification card opens the settings view.

## Model

| member | source | states |
|---|---|---|
| Types.ParseDocumentStatus | src/types/index.ts:11 | a parsed document status renders back to the same literal |
| Types.ParseSignatureStatus | src/types/index.ts:20 | a parsed signature status renders back to the same literal |
| Types.ParseNotificationType | src/types/index.ts:50 | a parsed notification type renders back to the same literal |
| Types.MakeRoute | src/types/index.ts:63-70 | a route built from a name and a parameter has exactly that name and parameter |
| Types.DocumentStatusClosed | src/types/index.ts:11 | a document status is exactly one of 'pendiente', 'completado', 'rechazado'; every status round-trips through its literal |
| Types.SignatureStatusClosed | src/types/index.ts:20-21 | a signature status is exactly one of 'pendiente', 'firmado'; every status round-trips |
| Types.NotificationTypeClosed | src/types/index.ts:49-50 | a notification type is exactly one of 'signature', 'document', 'general'; every type round-trips |
| Types.RouteParamsShape | src/types/index.ts:63-70 | every route round-trips through its name and parameter; a parameter is present exactly on DocumentDetail and IdentificationDetail |
| Types.BottomTabsExactlyFour | src/types/index.ts:72-77 | the bottom-tab list has exactly four parameterless tabs with distinct names, and every tab is in it |
| Decimal.NatToStringRoundTrip | src/screens/NotificationsScreen.tsx:41-45 | the decimal digits of a natural number read back to that number |
| Decimal.IntToStringRoundTrip | src/screens/NotificationsScreen.tsx:41-45 | a rendered integer parses back to itself, so two different counts never render alike |
| StatusBadge.BadgeColor | src/components/StatusBadge.js:13-25 | 'completado' and 'verificado' give #2ECC71, 'pendiente' #F39C12, 'rechazado' #E74C3C; any other status gives a truthy custom colour, else #95A5A6 |
| StatusBadge.BadgeLabel | src/components/StatusBadge.js:29 | the label is the text when it is truthy, otherwise the status |
| StatusBadge.CustomColorIgnoredForKnown | src/components/StatusBadge.js:13-25 | for the four known statuses the colour does not depend on the custom colour and is never the grey fallback |
| StatusBadge.FallbackOnlyForUnknown | src/components/StatusBadge.js:22-23 | a colour other than the three table colours is produced only for an unknown status |
| BottomTabBar.PressedTabId | src/components/BottomTabBar.js:26 | a press hands over exactly the pressed tab's id, which is a tab id |
| BottomTabBar.Highlights | src/components/BottomTabBar.js:19-36 | one highlight flag per tab, set exactly when the current view equals that tab's id |
| BottomTabBar.TabsTable | src/components/BottomTabBar.js:10-15 | four tabs in the order home, documents, identifications, settings, with distinct ids; a view is a tab id exactly when some tab has it |
| BottomTabBar.AtMostOneHighlighted | src/components/BottomTabBar.js:24 | two highlighted tabs are the same tab |
| BottomTabBar.NoHighlightOffTabs | src/components/BottomTabBar.js:24 | on a view that is not a tab id, such as notifications, no tab is highlighted |
| BottomTabBar.ExactlyOneHighlightedOnTab | src/components/BottomTabBar.js:24 | on a tab view exactly one tab is highlighted |
| StatusTables.StatusColor | src/screens/HomeScreen.tsx:42-49 | completado gives #4CAF50, pendiente #FF9800, rechazado #F44336, any other string #757575 |
| StatusTables.StatusIcon | src/screens/HomeScreen.tsx:51-58 | completado gives ✅, pendiente ⏳, rechazado ❌, any other string 📄 |
| StatusTables.TypedStatusIdentified | src/screens/DocumentsListScreen.tsx:28-44 | a typed status never reaches a fallback, and both its colour and its icon determine it |
| StatusTables.FallbackExactlyForUnknown | src/screens/HomeScreen.tsx:42-58 | the fallback colour and icon appear exactly for strings outside the status union |
| Lookup.Find | src/screens/DocumentDetailScreen.tsx:34 | `find` by id: the first record whose id matches, or nothing exactly when no record has it |
| Lookup.FindOwnKey | src/screens/IdentificationDetailScreen.tsx:32 | with distinct ids, looking up a record's own id finds that record |
| DocumentDetailScreen.FindDocument | src/screens/DocumentDetailScreen.tsx:34 | the result is the first document with the id, or nothing exactly when no document has it |
| DocumentDetailScreen.FindOwnId | src/screens/DocumentDetailScreen.tsx:34 | with distinct ids, looking up a document's own id finds that document |
| DocumentDetailScreen.CompletedSignatures | src/screens/DocumentDetailScreen.tsx:72-73 | the signed count is at most the total; it equals the total exactly when all are signed, and is 0 exactly when none is |
| DocumentDetailScreen.ProgressDots | src/screens/DocumentDetailScreen.tsx:79-86 | one dot per signature; the completed dots form a prefix, and their number is the signed count |
| DocumentDetailScreen.DotsIgnoreSignatureOrder | src/screens/DocumentDetailScreen.tsx:84 | two signature lists of equal length and equal signed count give the same dots, whatever the order of the signatures |
| DocumentDetailScreen.SignatureRowOf | src/screens/DocumentDetailScreen.tsx:108-123 | the icon is ✅ exactly when the signature is signed, else ⏳; the date line appears exactly when a signing date is present |
| DocumentDetailScreen.InfoRows | src/screens/DocumentDetailScreen.tsx:138-190 | four rows (institution, issuer, network, IPFS hash), each copy button copying exactly its own row's value |
| DocumentDetailScreen.DetailPage | src/screens/DocumentDetailScreen.tsx:33-44 | not found exactly when the lookup fails; otherwise the found document's type, dots, signature rows and information rows |
| NotificationsScreen.UnreadCount | src/screens/NotificationsScreen.tsx:24 | the unread count is at most the list length, and 0 exactly when every notification is read |
| NotificationsScreen.PressNotification | src/screens/NotificationsScreen.tsx:26-30 | a press navigates to DocumentDetail with the notification's document id exactly when that id is truthy |
| NotificationsScreen.MinutesBetween | src/screens/NotificationsScreen.tsx:38 | the elapsed minutes are the floor of the elapsed milliseconds over 60000 |
| NotificationsScreen.Bucket | src/screens/NotificationsScreen.tsx:40-46 | under 60 minutes the minutes themselves; from 60 to 1439, hours between 1 and 23 rounded down; from 1440 on, days of at least 1 rounded down |
| NotificationsScreen.FormatTimeMinutes | src/screens/NotificationsScreen.tsx:40-41 | m whole elapsed minutes, m below 60, read "m min ago" |
| NotificationsScreen.FormatTimeHours | src/screens/NotificationsScreen.tsx:42-43 | h whole elapsed hours, 1 ≤ h ≤ 23, read "h h ago" |
| NotificationsScreen.FormatTimeDays | src/screens/NotificationsScreen.tsx:44-46 | d whole elapsed days, d ≥ 1, read "d d ago" |
| NotificationsScreen.FormatTimeBoundaries | src/screens/NotificationsScreen.tsx:40-46 | the bucket edges: 59 minutes read "59 min ago", 60 "1 h ago", 1439 "23 h ago", 1440 "1 d ago" |
| NotificationsScreen.RenderedCountReadsBack | src/screens/NotificationsScreen.tsx:41-45 | a relative time is the count followed by its unit, and the count part parses back to the bucket's number |
| NotificationsScreen.NotificationsPage | src/screens/NotificationsScreen.tsx:57-95 | one row per notification in order; an unread dot exactly on the unread ones; the empty state exactly for an empty list; the badge equals both the unread count and the number of dotted rows |
| NotificationsScreen.UnreadCountIsDots | src/screens/NotificationsScreen.tsx:24 | the unread count equals the number of rows that show an unread dot |
| HomeScreen.CountStatus | src/screens/HomeScreen.tsx:26-28 | a status count is at most the list length, and 0 exactly when no document has that status |
| HomeScreen.TallyCoversAll | src/screens/HomeScreen.tsx:26-29 | the pending, completed and rejected counts add up to the number of documents |
| HomeScreen.NotificationBadge | src/screens/HomeScreen.tsx:30 | the bell badge is shown exactly when some notification is unread, and then carries the positive unread count |
| HomeScreen.BellPress | src/screens/HomeScreen.tsx:34-36 | the bell navigates to Notifications, without a parameter |
| HomeScreen.SummaryOf | src/screens/HomeScreen.tsx:26-29 | the summary holds the three status counts, which add up to the total |
| HomeScreen.RecentDocuments | src/screens/HomeScreen.tsx:32 | the first min(3, n) documents, in their original order |
| HomeScreen.SubtitleStatus | src/screens/HomeScreen.tsx:119 | the subtitle reads 'Pendiente' exactly for a pending document and 'Completado' otherwise, rejected included |
| HomeScreen.RecentCards | src/screens/HomeScreen.tsx:104-119 | one card per recent document, each pressing through to DocumentDetail with its own id |
| HomeScreen.RecentCardOpensItsDocument | src/screens/HomeScreen.tsx:38-40 | with distinct ids, the detail lookup for card i's route finds document i |
| DocumentsListScreen.DocumentCards | src/screens/DocumentsListScreen.tsx:57-74 | one card per document in order, with its own title, status icon, colour, subtitle 'issuedBy - institution', and a press to DocumentDetail with its own id |
| DocumentsListScreen.CardOpensItsDocument | src/screens/DocumentsListScreen.tsx:24-26 | with distinct ids, the detail screen opened from card i is found and shows document i |
| IdentificationsListScreen.StatusIcon | src/screens/IdentificationsListScreen.tsx:57 | 🔒 exactly for an expired identification, ✅ otherwise |
| IdentificationsListScreen.FooterText | src/screens/IdentificationsListScreen.tsx:81 | 'Expirado' exactly for an expired identification, 'Activo' otherwise |
| IdentificationsListScreen.IdentificationCards | src/screens/IdentificationsListScreen.tsx:39-88 | one card per identification; badge style, icon and footer agree with the stored flag; each press navigates to IdentificationDetail with the card's own id |
| IdentificationsListScreen.EmptyStateExactlyWithoutCards | src/screens/IdentificationsListScreen.tsx:88 | the empty state is shown exactly when there are no cards |
| IdentificationDetailScreen.FindIdentification | src/screens/IdentificationDetailScreen.tsx:32 | the result is the first identification with the id, or nothing exactly when none has it |
| IdentificationDetailScreen.FindOwnId | src/screens/IdentificationDetailScreen.tsx:32 | with distinct ids, looking up an identification's own id finds that identification |
| IdentificationDetailScreen.CardFace.constructor | src/screens/IdentificationDetailScreen.tsx:33 | the card starts on its front face |
| IdentificationDetailScreen.CardFace.Press | src/screens/IdentificationDetailScreen.tsx:49-51 | a press negates the face flag |
| IdentificationDetailScreen.PressTwice | src/screens/IdentificationDetailScreen.tsx:49-51 | two presses restore the face shown before them |
| IdentificationDetailScreen.Instruction | src/screens/IdentificationDetailScreen.tsx:142 | 'Mostrando parte posterior' exactly while the back is shown, 'Mostrando parte frontal' otherwise |
| IdentificationDetailScreen.BackStatus | src/screens/IdentificationDetailScreen.tsx:121-125 | red 'Expirado' exactly for an expired identification, green 'Activo' otherwise |
| IdentificationDetailScreen.DetailPage | src/screens/IdentificationDetailScreen.tsx:31-43 | not found exactly when the lookup fails; otherwise the front face exactly when the flag is false, the back face with its status line, and the matching instruction |
| InstitutionSelectorScreen.SelectInstitution | src/screens/InstitutionSelectorScreen.tsx:24-31 | selecting any institution, 'home' included, navigates to Home |
| InstitutionSelectorScreen.AddQR | src/screens/InstitutionSelectorScreen.tsx:33-35 | the `+` button navigates to QRScanner |
| InstitutionSelectorScreen.InstitutionButtons | src/screens/InstitutionSelectorScreen.tsx:48-68 | one button per institution in order; 'home' gets the house icon and its own style, every other one its short name; all lead to Home |
| QRScannerScreen.ScanAlert | src/screens/QRScannerScreen.tsx:28-41 | non-empty data raises 'QR Detectado' whose OK navigates to InstitutionSelector; empty data raises 'Error'/'QR no válido' with no navigation |
| QRScannerScreen.GalleryAlert | src/screens/QRScannerScreen.tsx:52-58 | the gallery button raises an information alert that never navigates |
| QRScannerScreen.ScanButtonText | src/screens/QRScannerScreen.tsx:98 | 'Escaneando...' exactly while scanning, 'Simular Escaneo' otherwise |
| QRScannerScreen.MockScanSucceeds | src/screens/QRScannerScreen.tsx:47-49 | the simulated detection's data always leads to the institution selector |
| QRScannerScreen.Scanner.constructor | src/screens/QRScannerScreen.tsx:23 | scanning starts false |
| QRScannerScreen.Scanner.SimulateQRScan | src/screens/QRScannerScreen.tsx:44-50 | a scan, offered only while no scan is in progress (the button is `disabled={scanning}`), sets scanning, and the pending detection will deliver 'mock_qr_data' |
| QRScannerScreen.Scanner.HandleQRScan | src/screens/QRScannerScreen.tsx:25-42 | a detection clears scanning whatever its data, and raises that data's alert |
| QRScannerScreen.Scanner.ButtonState | src/screens/QRScannerScreen.tsx:95-98 | the scan button is disabled, and labelled 'Escaneando...', exactly while scanning |
| QRScannerScreen.ScanRoundTrip | src/screens/QRScannerScreen.tsx:44-49 | a full simulated scan ends with scanning cleared and the institution selector offered |
| MockData.DocumentIdsDistinct | src/utils/mockData.ts:20-72 | four documents with pairwise distinct ids |
| MockData.ProgressMatchesSignatures | src/utils/mockData.ts:23-79 | for each document, progress × number of signatures equals the signed count: 3/5, 2/2, 2/2, 1/2 |
| MockData.SignedAtExactlyWhenSigned | src/utils/mockData.ts:25-78 | a signing date is present exactly on the signed signatures |
| MockData.StatusTally | src/utils/mockData.ts:35-84 | the home summary of the sample is 4 documents: 1 pending, 2 completed, 1 rejected |
| MockData.NotificationReferencesResolve | src/utils/mockData.ts:123-132 | every notification's document id names a sample document |
| MockData.UnreadCountIsTwo | src/utils/mockData.ts:126-135 | both notifications are unread, so the unread count and the home badge are 2 |
| MockData.NotificationTimesAtLoad | src/utils/mockData.ts:125-134 | at load time the two notifications read "2 h ago" and "4 h ago" |
| MockData.InstitutionsWellFormed | src/utils/mockData.ts:8-15 | institution ids are distinct, and the user's selected institution 'cns' is one of them |
| MockData.IdentificationsActive | src/utils/mockData.ts:89-113 | both identifications are stored as not expired, with distinct ids, although their expiry date precedes any later load |
| MockData.RecentAreFirstThree | src/utils/mockData.ts:18-87 | the home recent list is documents '1', '2' and '3' |
| KredentiaApp.RenderCurrentView | App.tsx:589-610 | a view name outside ViewType renders the home screen |
| KredentiaApp.RenderDispatchInjective | App.tsx:589-606 | the eight view names render eight different screens |
| KredentiaApp.TabBarExactlyOnTabViews | App.tsx:338-341 | the tab bar is drawn on a view exactly when that view is one of the tab ids |
| KredentiaApp.Classify | App.tsx:121-136 | picker responses are handled in this order: cancel first, then a truthy error, then the first asset |
| KredentiaApp.WithAlert | App.tsx:85-88 | showing an alert replaces the whole configuration, makes it visible, and keeps the view and the image |
| KredentiaApp.ScheduledDetection | App.tsx:127-136 | a detection is scheduled exactly by a granted camera capture or a gallery pick that yields an asset |
| KredentiaApp.StepKeepsInv | App.tsx:71-610 | every event keeps the view a ViewType name and any stored callback one that opens the selector |
| KredentiaApp.StepKeepsCallback | App.tsx:131-134 | only the 'QR Detectado' and 'Demo QR' alerts store a callback, and it opens the institution selector |
| KredentiaApp.StepKeepsViewType | App.tsx:48-49 | every transition target is one of the eight ViewType names |
| KredentiaApp.RunKeepsInv | App.tsx:48-49 | after any sequence of events the view is still a ViewType name |
| KredentiaApp.InitialSatisfiesInv | App.tsx:71-78 | the initial state: qr-scanner view, no alert, empty configuration, no image |
| KredentiaApp.SelectorOnlyByConfirm | App.tsx:134 | the institution selector is entered only by confirming a 'QR Detectado' or 'Demo QR' alert |
| KredentiaApp.ScannerOnlyByAdd | App.tsx:250-253 | the scanner is re-entered only by the selector's `+`, which clears the scanned image |
| KredentiaApp.BackGoesHome | App.tsx:349 | a back arrow exists exactly on notifications, document detail, documents, identifications and settings, and goes home changing nothing else |
| KredentiaApp.CancelOnlyHides | App.tsx:175 | cancel hides the alert and changes nothing else |
| KredentiaApp.ConfirmRunsStoredAction | App.tsx:176-181 | confirm hides the alert and then runs the stored callback only when there is one |
| KredentiaApp.LastAlertWins | App.tsx:85-88 | a second alert before dismissal overwrites the first, so only the second one's confirm can run |
| KredentiaApp.CameraOutcomes | App.tsx:107-136 | a denied permission shows 'Permiso Requerido' and a camera error shows 'Error', each changing nothing else; a cancel or a response with no asset changes nothing; a capture stores the image and adds a camera detection timer |
| KredentiaApp.GalleryOutcomes | App.tsx:150-164 | a gallery error or cancel changes nothing and shows no alert; a pick stores the image and adds a gallery detection timer |
| KredentiaApp.CaptureThenDetection | App.tsx:127-136 | a capture schedules its detection, which can then fire; the image is kept, 'QR Detectado' shows, and its confirm opens the selector |
| KredentiaApp.DetectionIgnoresView | App.tsx:130-136 | a pending detection is never cancelled: whatever view is current, it can fire, only its own timer is removed, its alert appears and its confirm opens the selector |
| KredentiaApp.StepTimers | App.tsx:130 | a capture adds the timer it schedules, a firing detection removes its own, and no other event touches the pending timers |
| KredentiaApp.FiredTimerWasPending | App.tsx:127-136 | a detection that fires in a run was pending at the start or scheduled by an earlier capture of the run |
| KredentiaApp.DetectionNeedsCapture | App.tsx:127-136 | from the initial state, every detection that fires is preceded by a capture that scheduled it |
| KredentiaApp.TabPressOnlyOnTabViews | App.tsx:338-341 | tab presses are offered only on the four tab views, and set the view to the pressed tab's id |
| KredentiaApp.ReachHome | App.tsx:229-263 | the demo alert, confirmed, reaches the selector; one institution press then reaches home |
| KredentiaApp.AllViewsReachable | App.tsx:48-49 | each of the eight views is reached from the initial state by some sequence of enabled events |
| KredentiaApp.App.constructor | App.tsx:71-78 | the application starts in the initial state, which satisfies the invariant |
| KredentiaApp.App.ShowCustomAlert | App.tsx:85-88 | the configuration is replaced and made visible |
| KredentiaApp.App.OpenCamera | App.tsx:106-139 | the camera button moves the state as the transition table says and returns the detection it schedules |
| KredentiaApp.App.OpenGallery | App.tsx:142-166 | the gallery button moves the state as the transition table says and returns the detection it schedules |
| KredentiaApp.App.DetectionCompletes | App.tsx:130-136 | a pending detection timer runs: it is removed and raises the 'QR Detectado' alert |
| KredentiaApp.App.PressDemo | App.tsx:229-234 | the demo button raises the 'Demo QR' alert, whose confirm opens the selector |
| KredentiaApp.App.Confirm | App.tsx:176-181 | confirm hides the alert and runs the stored callback |
| KredentiaApp.App.Cancel | App.tsx:175 | cancel hides the alert |
| KredentiaApp.App.PressAdd | App.tsx:250-253 | `+` clears the image and returns to the scanner |
| KredentiaApp.App.PressInstitution | App.tsx:263-284 | any of the four institution buttons goes home |
| KredentiaApp.App.PressBell | App.tsx:299 | the bell opens notifications |
| KredentiaApp.App.PressDocumentCard | App.tsx:331 | a document card on home or on the documents list opens document detail |
| KredentiaApp.App.PressNotificationCard | App.tsx:361-368 | a notification card opens document detail |
| KredentiaApp.App.PressIdentificationCard | App.tsx:476-494 | an identification card opens the settings view |
| KredentiaApp.App.PressBack | App.tsx:380 | a back arrow goes home |
| KredentiaApp.App.PressCopy | App.tsx:405 | copy on document detail shows the 'Hash IPFS copiado' alert, and on settings the 'Dirección de wallet copiada' alert |
| KredentiaApp.App.PressTab | App.tsx:455-458 | a tab press sets the view to that tab's id |

## Left out

- Rendering, styles and `Dimensions`-based sizes: they only lay things out.
- The image picker and the camera permission request. They are foreign calls, with these consequences:
  - the permission answer and the picker response are parameters of the button events;
  - an exception during the permission request counts as a denial, as the code returns false;
  - the asynchronous wait is collapsed into the press event.
- The `setTimeout` delays of the simulated detections are not modelled as time. Each detection completing is a separate event, `DetectionFired`, which can arrive at any moment while its timer is pending; the order in which pending timers run is not constrained. No timer cancellation is modelled, because the code has none.
- The native `Alert.alert` dialogs and `Clipboard.setString` are not modelled. Only the alert's contents and the copied value are modelled. This affects:
  - the document detail copy confirmation ('Texto copiado al portapapeles');
  - the 'Abrir Certificado' alert;
  - every alert of the settings screen.
- React Navigation's `goBack()` is not modelled: its target depends on a library-managed stack that the screens never mount. `App.tsx` has no history either; its back arrows go home.
- The displayed progress percentage and the bar widths are not modelled: they use floating point. The stored progress is an exact `real`, used only to relate it to the signature count.
- `new Date()`, `Date.now()` and `toLocaleDateString` are not modelled. The current instant is a parameter. Dates are kept as milliseconds and are not formatted.
- The `new Date()` and `Date.now()` calls of `src/utils/mockData.ts` are separate calls while the module loads; the model treats them as one instant, `loaded`.
- `new Date(2025, 0, 25)` in the sample identifications is taken at midnight UTC: the device's time zone is not modelled.
- Number rendering beyond safe integers is not modelled. `Decimal.IntToString` renders any integer exactly, as JavaScript does for safe integers only.
- `src/navigation/AppNavigator.tsx` is not part of this model: it returns a static placeholder.
- `src/screens/SettingsScreen.tsx` is not part of this model. It has only fixed alerts and one alert-button navigation that depends on the native dialog.
- `src/components/DocumentCard.js`, `src/components/ProgressBar.js` and `src/components/CustomAlert.js` are not modelled: they only forward their callbacks or draw. The hardware back button on the custom alert is its cancel, so `KredentiaApp.App.Cancel` covers it.
- The local `mockDocuments` list inside `App.tsx` is not modelled: it feeds only the drawing of the document cards.
- The screens' `handleGoBack` handlers are not modelled, for the `goBack()` reason above.
- The screens' navigation calls are not simulated as a stack; each handler returns its `Route`.
