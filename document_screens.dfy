/** The status colour and icon tables of the document screens. The home screen
    and the documents list each carry an identical copy of both `switch` tables;
    the document detail screen defines an unused copy of the colour table only.
    They are defined once here. The tables take any string and fall back for one
    they do not know. */
module StatusTables {

  import opened Types

  const CompletedColor := "#4CAF50"
  const PendingColor := "#FF9800"
  const RejectedColor := "#F44336"
  const NeutralColor := "#757575"

  const CompletedIcon := "✅"
  const PendingIcon := "⏳"
  const RejectedIcon := "❌"
  const FallbackIcon := "📄"

  function StatusColor(status: string): (c: string)
    ensures status == "completado" ==> c == CompletedColor
    ensures status == "pendiente" ==> c == PendingColor
    ensures status == "rechazado" ==> c == RejectedColor
    ensures status !in {"completado", "pendiente", "rechazado"} ==> c == NeutralColor
  {
    match status
    case "completado" => CompletedColor
    case "pendiente" => PendingColor
    case "rechazado" => RejectedColor
    case _ => NeutralColor
  }

  function StatusIcon(status: string): (g: string)
    ensures status == "completado" ==> g == CompletedIcon
    ensures status == "pendiente" ==> g == PendingIcon
    ensures status == "rechazado" ==> g == RejectedIcon
    ensures status !in {"completado", "pendiente", "rechazado"} ==> g == FallbackIcon
  {
    match status
    case "completado" => CompletedIcon
    case "pendiente" => PendingIcon
    case "rechazado" => RejectedIcon
    case _ => FallbackIcon
  }

  /** A status of the typed union never reaches a fallback, and the three
      statuses get three different colours and three different icons, so
      colour and icon each identify the status. */
  lemma TypedStatusIdentified(s1: DocumentStatus, s2: DocumentStatus)
    ensures StatusColor(s1.Name()) != NeutralColor && StatusIcon(s1.Name()) != FallbackIcon
    ensures StatusColor(s1.Name()) == StatusColor(s2.Name()) ==> s1 == s2
    ensures StatusIcon(s1.Name()) == StatusIcon(s2.Name()) ==> s1 == s2
  {
  }

  /** The fallbacks are reached exactly by strings outside the union. */
  lemma FallbackExactlyForUnknown(status: string)
    ensures StatusColor(status) == NeutralColor <==> ParseDocumentStatus(status).None?
    ensures StatusIcon(status) == FallbackIcon <==> ParseDocumentStatus(status).None?
  {
  }
}

/** The document detail screen: the lookup of the routed document id, the
    signature progress dots, one row per signature, and the information rows
    whose copy buttons hand their value to the clipboard. */
module DocumentDetailScreen {

  import opened Types
  import Lookup

  predicate UniqueDocumentIds(docs: seq<Document>)
  {
    forall i, j :: 0 <= i < j < |docs| ==> docs[i].id != docs[j].id
  }

  function DocumentId(d: Document): string
  {
    d.id
  }

  /** `Array.prototype.find` on the id: the first match, or nothing. */
  function FindDocument(docs: seq<Document>, id: string): (r: Option<Document>)
    ensures r.None? <==> forall i :: 0 <= i < |docs| ==> docs[i].id != id
    ensures forall i :: 0 <= i < |docs| && docs[i].id == id && (forall j :: 0 <= j < i ==> docs[j].id != id)
                        ==> r == Some(docs[i])
    ensures r.Some? ==> r.value.id == id && r.value in docs
  {
    Lookup.Find(docs, DocumentId, id)
  }

  /** With distinct ids the lookup of a document's own id finds that document. */
  lemma FindOwnId(docs: seq<Document>, i: nat)
    requires UniqueDocumentIds(docs) && i < |docs|
    ensures FindDocument(docs, docs[i].id) == Some(docs[i])
  {
    Lookup.FindOwnKey(docs, DocumentId, i);
  }

  /** The number of `firmado` signatures. */
  function CompletedSignatures(sigs: seq<Signature>): (n: nat)
    ensures n <= |sigs|
    ensures n == |sigs| <==> forall i :: 0 <= i < |sigs| ==> sigs[i].status == Signed
    ensures n == 0 <==> forall i :: 0 <= i < |sigs| ==> sigs[i].status != Signed
  {
    if |sigs| == 0 then 0
    else CompletedSignatures(sigs[..|sigs| - 1]) + (if sigs[|sigs| - 1].status == Signed then 1 else 0)
  }

  function CountTrue(s: seq<bool>): (n: nat)
    ensures n <= |s|
  {
    if |s| == 0 then 0 else CountTrue(s[..|s| - 1]) + (if s[|s| - 1] then 1 else 0)
  }

  /** One dot per signature, coloured by its index against the completed count. */
  function ProgressDots(sigs: seq<Signature>): (dots: seq<bool>)
    ensures |dots| == |sigs|
    ensures forall i, j :: 0 <= i <= j < |dots| && dots[j] ==> dots[i]
    ensures CountTrue(dots) == CompletedSignatures(sigs)
  {
    var done := CompletedSignatures(sigs);
    var dots := seq(|sigs|, i requires 0 <= i < |sigs| => i < done);
    CountPrefix(|sigs|, done);
    dots
  }

  /** The dots form a completed prefix whatever the order of the signed
      signatures: a dot can be completed while the signature at its index is
      still pending. */
  lemma DotsIgnoreSignatureOrder(a: seq<Signature>, b: seq<Signature>)
    requires |a| == |b| && CompletedSignatures(a) == CompletedSignatures(b)
    ensures ProgressDots(a) == ProgressDots(b)
  {
    var da, db := ProgressDots(a), ProgressDots(b);
    forall i | 0 <= i < |da| ensures da[i] == db[i] {
      PrefixDotsAt(a, i);
      PrefixDotsAt(b, i);
    }
  }

  lemma PrefixDotsAt(sigs: seq<Signature>, i: nat)
    requires i < |sigs|
    ensures ProgressDots(sigs)[i] == (i < CompletedSignatures(sigs))
  {
  }

  lemma {:induction false} CountPrefix(n: nat, k: nat)
    requires k <= n
    ensures CountTrue(seq(n, i requires 0 <= i < n => i < k)) == k
  {
    var s := seq(n, i requires 0 <= i < n => i < k);
    if n > 0 {
      if k == n {
        CountAllTrue(s);
      } else {
        var t := seq(n - 1, i requires 0 <= i < n - 1 => i < k);
        assert s[..n - 1] == t;
        CountPrefix(n - 1, k);
      }
    }
  }

  lemma {:induction false} CountAllTrue(s: seq<bool>)
    requires forall i :: 0 <= i < |s| ==> s[i]
    ensures CountTrue(s) == |s|
  {
    if |s| > 0 {
      CountAllTrue(s[..|s| - 1]);
    }
  }

  datatype SignatureRow = SignatureRow(
    signerName: string,
    signerRole: string,
    icon: string,
    signedOn: Option<Millis>)

  /** A signature's row: the tick exactly when signed, and the date line
      exactly when a signing date is present. */
  function SignatureRowOf(sig: Signature): (row: SignatureRow)
    ensures row.icon == "✅" <==> sig.status == Signed
    ensures sig.status != Signed ==> row.icon == "⏳"
    ensures row.signedOn.Some? <==> sig.signedAt.Some?
    ensures row.signerName == sig.signerName && row.signerRole == sig.signerRole
  {
    SignatureRow(sig.signerName, sig.signerRole, if sig.status == Signed then "✅" else "⏳", sig.signedAt)
  }

  /** A labelled information row; `copies` is what its copy button puts on
      the clipboard. */
  datatype InfoRow = InfoRow(caption: string, value: string, copies: string)

  function InfoRows(doc: Document): (rows: seq<InfoRow>)
    ensures |rows| == 4
    ensures forall i :: 0 <= i < |rows| ==> rows[i].copies == rows[i].value
    ensures rows[0].value == doc.institution && rows[1].value == doc.issuedBy
    ensures rows[2].value == doc.network && rows[3].value == doc.ipfsHash
  {
    [ InfoRow("Institución:", doc.institution, doc.institution),
      InfoRow("Emitido por:", doc.issuedBy, doc.issuedBy),
      InfoRow("Red:", doc.network, doc.network),
      InfoRow("IPFS Hash:", doc.ipfsHash, doc.ipfsHash) ]
  }

  datatype Page =
    | NotFound
    | Found(title: string, dots: seq<bool>, rows: seq<SignatureRow>, info: seq<InfoRow>)

  /** The screen for a routed document id: the not-found state exactly when no
      document has the id, and otherwise the first such document's details. */
  function DetailPage(docs: seq<Document>, documentId: string): (p: Page)
    ensures p.NotFound? <==> FindDocument(docs, documentId).None?
    ensures p.Found? ==>
              var doc := FindDocument(docs, documentId).value;
              && p.title == doc.kind
              && p.dots == ProgressDots(doc.signatures)
              && |p.rows| == |doc.signatures|
              && (forall i :: 0 <= i < |p.rows| ==> p.rows[i] == SignatureRowOf(doc.signatures[i]))
              && p.info == InfoRows(doc)
  {
    match FindDocument(docs, documentId)
    case None => NotFound
    case Some(doc) =>
      Found(doc.kind, ProgressDots(doc.signatures),
            seq(|doc.signatures|, i requires 0 <= i < |doc.signatures| => SignatureRowOf(doc.signatures[i])),
            InfoRows(doc))
  }
}

/** The notifications screen: the unread count, the press rule, and the
    relative time of each notification. */
module NotificationsScreen {

  import opened Types
  import opened Decimal

  function UnreadCount(notifs: seq<Notification>): (n: nat)
    ensures n <= |notifs|
    ensures n == 0 <==> forall i :: 0 <= i < |notifs| ==> notifs[i].read
  {
    if |notifs| == 0 then 0
    else UnreadCount(notifs[..|notifs| - 1]) + (if notifs[|notifs| - 1].read then 0 else 1)
  }

  /** A press navigates to the referenced document exactly when the id is
      truthy; an absent or empty id does nothing. */
  function PressNotification(n: Notification): (r: Option<Route>)
    ensures r.Some? <==> Truthy(n.documentId)
    ensures r.Some? ==> r.value == DocumentDetail(n.documentId.value)
  {
    if Truthy(n.documentId) then Some(DocumentDetail(n.documentId.value)) else None
  }

  const MillisPerMinute := 60000

  /** Whole minutes elapsed, rounded down (also when `createdAt` is in the future). */
  function MinutesBetween(now: Millis, createdAt: Millis): (m: int)
    ensures m * MillisPerMinute <= now - createdAt < (m + 1) * MillisPerMinute
  {
    (now - createdAt) / MillisPerMinute
  }

  datatype Elapsed = MinutesAgo(minutes: int) | HoursAgo(hours: nat) | DaysAgo(days: nat)

  /** The three buckets, each with its count rounded down at its own unit. */
  function Bucket(diffInMinutes: int): (b: Elapsed)
    ensures diffInMinutes < 60 ==> b == MinutesAgo(diffInMinutes)
    ensures 60 <= diffInMinutes < 1440 ==>
              b.HoursAgo? && 1 <= b.hours <= 23 && b.hours * 60 <= diffInMinutes < (b.hours + 1) * 60
    ensures 1440 <= diffInMinutes ==>
              b.DaysAgo? && 1 <= b.days && b.days * 1440 <= diffInMinutes < (b.days + 1) * 1440
  {
    if diffInMinutes < 60 then MinutesAgo(diffInMinutes)
    else if diffInMinutes < 1440 then HoursAgo(diffInMinutes / 60)
    else DaysAgo(diffInMinutes / 1440)
  }

  function RenderElapsed(e: Elapsed): string
  {
    match e
    case MinutesAgo(m) => IntToString(m) + " min ago"
    case HoursAgo(h) => IntToString(h) + " h ago"
    case DaysAgo(d) => IntToString(d) + " d ago"
  }

  function FormatTime(now: Millis, createdAt: Millis): string
  {
    RenderElapsed(Bucket(MinutesBetween(now, createdAt)))
  }

  lemma MulNonneg(u: int, v: int)
    requires u >= 0 && v >= 0
    ensures u * v >= 0
  {
  }

  lemma MulBounds(e: int, d: int)
    requires d > 0
    ensures e >= 1 ==> e * d >= d
    ensures e <= -1 ==> e * d <= -d
    ensures e <= 0 ==> e * d <= 0
  {
    if e >= 1 {
      MulNonneg(e - 1, d);
      assert (e - 1) * d == e * d - d;
    }
    if e <= 0 {
      MulNonneg(-e, d);
      assert (-e) * d == -(e * d);
    }
    if e <= -1 {
      MulNonneg(-e - 1, d);
      assert (-e - 1) * d == -(e * d) - d;
    }
  }

  /** A quotient is determined by the bounds it lies between. */
  lemma DivisionDetermined(x: int, q: int, d: int)
    requires d > 0 && q * d <= x < (q + 1) * d
    ensures x / d == q
  {
    var r := x / d;
    assert x == r * d + x % d;
    assert (r - q) * d == r * d - q * d;
    assert (q + 1) * d == q * d + d;
    MulBounds(r - q, d);
  }

  /** Rounding down twice is rounding down once by the product. */
  lemma NestedDivision(x: int, a: int, b: int)
    requires a > 0 && b > 0
    ensures (x / a) / b == x / (a * b)
  {
    var m, q := x / a, x / (a * b);
    MulNonneg(a, b);
    assert x == m * a + x % a;
    assert x == q * (a * b) + x % (a * b);
    assert (m - q * b) * a == m * a - q * (a * b);
    assert ((q + 1) * b - m) * a == q * (a * b) + a * b - m * a;
    MulBounds(m - q * b, a);
    MulBounds((q + 1) * b - m, a);
    assert (q + 1) * b == q * b + b;
    DivisionDetermined(m, q, b);
  }

  /** The relative time of a notification, given the elapsed milliseconds in
      each bucket's own unit. */
  lemma FormatTimeMinutes(now: Millis, createdAt: Millis, m: int)
    requires m < 60 && m * 60000 <= now - createdAt < (m + 1) * 60000
    ensures FormatTime(now, createdAt) == IntToString(m) + " min ago"
  {
    DivisionDetermined(now - createdAt, m, 60000);
  }

  lemma FormatTimeHours(now: Millis, createdAt: Millis, h: nat)
    requires 1 <= h <= 23 && h * 3600000 <= now - createdAt < (h + 1) * 3600000
    ensures FormatTime(now, createdAt) == IntToString(h) + " h ago"
  {
    var m := MinutesBetween(now, createdAt);
    NestedDivision(now - createdAt, 60000, 60);
    DivisionDetermined(now - createdAt, h, 3600000);
    assert m / 60 == h;
    assert 60 <= m < 1440;
  }

  lemma FormatTimeDays(now: Millis, createdAt: Millis, d: nat)
    requires 1 <= d && d * 86400000 <= now - createdAt < (d + 1) * 86400000
    ensures FormatTime(now, createdAt) == IntToString(d) + " d ago"
  {
    var m := MinutesBetween(now, createdAt);
    NestedDivision(now - createdAt, 60000, 1440);
    DivisionDetermined(now - createdAt, d, 86400000);
    assert m / 1440 == d;
    assert 1440 <= m;
  }

  /** The bucket edges: 59 minutes, exactly one hour, 23 hours 59 minutes and
      exactly one day. */
  lemma FormatTimeBoundaries(t: Millis)
    ensures FormatTime(t + 59 * 60000, t) == "59 min ago"
    ensures FormatTime(t + 60 * 60000, t) == "1 h ago"
    ensures FormatTime(t + 1439 * 60000, t) == "23 h ago"
    ensures FormatTime(t + 1440 * 60000, t) == "1 d ago"
  {
    LastMinuteEdge(t);
    FirstHourEdge(t);
    LastHourEdge(t);
    FirstDayEdge(t);
  }

  lemma LastMinuteEdge(t: Millis)
    ensures FormatTime(t + 59 * 60000, t) == "59 min ago"
  {
    FormatTimeMinutes(t + 59 * 60000, t, 59);
    assert IntToString(59) == "59";
  }

  lemma FirstHourEdge(t: Millis)
    ensures FormatTime(t + 60 * 60000, t) == "1 h ago"
  {
    FormatTimeHours(t + 60 * 60000, t, 1);
  }

  lemma LastHourEdge(t: Millis)
    ensures FormatTime(t + 1439 * 60000, t) == "23 h ago"
  {
    FormatTimeHours(t + 1439 * 60000, t, 23);
    assert IntToString(23) == "23";
  }

  lemma FirstDayEdge(t: Millis)
    ensures FormatTime(t + 1440 * 60000, t) == "1 d ago"
  {
    FormatTimeDays(t + 1440 * 60000, t, 1);
  }

  function ElapsedCount(e: Elapsed): int
  {
    match e
    case MinutesAgo(m) => m
    case HoursAgo(h) => h
    case DaysAgo(d) => d
  }

  function UnitSuffix(e: Elapsed): string
  {
    match e
    case MinutesAgo(_) => " min ago"
    case HoursAgo(_) => " h ago"
    case DaysAgo(_) => " d ago"
  }

  /** A rendered relative time is the count followed by its unit, and the
      count part reads back to the bucket's number. */
  lemma RenderedCountReadsBack(e: Elapsed)
    ensures RenderElapsed(e) == IntToString(ElapsedCount(e)) + UnitSuffix(e)
    ensures var s := RenderElapsed(e);
            ParseInt(s[..|s| - |UnitSuffix(e)|]) == Some(ElapsedCount(e))
  {
    var n := IntToString(ElapsedCount(e));
    assert (n + UnitSuffix(e))[..|n|] == n;
    IntToStringRoundTrip(ElapsedCount(e), ElapsedCount(e));
  }

  datatype NotificationRow = NotificationRow(
    title: string,
    message: string,
    time: string,
    unreadDot: bool,
    press: Option<Route>)

  function RowOf(n: Notification, now: Millis): NotificationRow
  {
    NotificationRow(n.title, n.message, FormatTime(now, n.createdAt), !n.read, PressNotification(n))
  }

  datatype Page = Page(badge: nat, rows: seq<NotificationRow>, emptyState: bool)

  /** The screen: one row per notification in order, the empty state exactly
      for an empty list, and a header badge equal to the number of rows that
      show an unread dot. */
  function NotificationsPage(notifs: seq<Notification>, now: Millis): (p: Page)
    ensures |p.rows| == |notifs|
    ensures forall i :: 0 <= i < |notifs| ==> p.rows[i] == RowOf(notifs[i], now)
    ensures forall i :: 0 <= i < |notifs| ==> (p.rows[i].unreadDot <==> !notifs[i].read)
    ensures p.emptyState <==> |notifs| == 0
    ensures p.badge == UnreadCount(notifs) == |DottedRows(p.rows)|
  {
    var rows := seq(|notifs|, i requires 0 <= i < |notifs| => RowOf(notifs[i], now));
    UnreadCountIsDots(notifs, rows);
    Page(UnreadCount(notifs), rows, |notifs| == 0)
  }

  /** The positions of the rows that show an unread dot. */
  function DottedRows(rows: seq<NotificationRow>): set<int>
  {
    set i | 0 <= i < |rows| && rows[i].unreadDot
  }

  /** Removing the last row removes its position from the dotted set, if it was there. */
  lemma DottedRowsSplit(rows: seq<NotificationRow>)
    requires |rows| > 0
    ensures |DottedRows(rows)| == |DottedRows(rows[..|rows| - 1])| + (if rows[|rows| - 1].unreadDot then 1 else 0)
  {
    var n := |rows|;
    var prefix := rows[..n - 1];
    var before := DottedRows(prefix);
    assert before == set i | 0 <= i < n - 1 && rows[i].unreadDot;
    if rows[n - 1].unreadDot {
      assert DottedRows(rows) == before + {n - 1};
    } else {
      assert DottedRows(rows) == before;
    }
  }

  lemma {:induction false} UnreadCountIsDots(notifs: seq<Notification>, rows: seq<NotificationRow>)
    requires |rows| == |notifs|
    requires forall i :: 0 <= i < |notifs| ==> (rows[i].unreadDot <==> !notifs[i].read)
    ensures UnreadCount(notifs) == |DottedRows(rows)|
  {
    var n := |notifs|;
    if n > 0 {
      UnreadCountIsDots(notifs[..n - 1], rows[..n - 1]);
      DottedRowsSplit(rows);
    }
  }
}

/** The home screen: the status summary, the unread badge and the first three
    documents as cards. */
module HomeScreen {

  import opened Types
  import StatusTables
  import DocumentDetailScreen
  import NotificationsScreen

  function CountStatus(docs: seq<Document>, st: DocumentStatus): (n: nat)
    ensures n <= |docs|
    ensures n == 0 <==> forall i :: 0 <= i < |docs| ==> docs[i].status != st
  {
    if |docs| == 0 then 0
    else CountStatus(docs[..|docs| - 1], st) + (if docs[|docs| - 1].status == st then 1 else 0)
  }

  /** The three status counts cover the whole list, since the union is closed. */
  lemma {:induction false} TallyCoversAll(docs: seq<Document>)
    ensures CountStatus(docs, Pending) + CountStatus(docs, Completed) + CountStatus(docs, Rejected) == |docs|
  {
    if |docs| > 0 {
      TallyCoversAll(docs[..|docs| - 1]);
    }
  }

  /** The bell's badge: shown, with the unread count, only when that count is positive. */
  function NotificationBadge(notifs: seq<Notification>): (b: Option<nat>)
    ensures b.Some? <==> exists i :: 0 <= i < |notifs| && !notifs[i].read
    ensures b.Some? ==> b.value == NotificationsScreen.UnreadCount(notifs) > 0
  {
    var unread := NotificationsScreen.UnreadCount(notifs);
    if unread > 0 then Some(unread) else None
  }

  /** The bell navigates to the notifications screen, without a parameter. */
  function BellPress(): (r: Route)
    ensures r == Notifications && r.Param().None?
  {
    Notifications
  }

  datatype Summary = Summary(total: nat, pending: nat, completed: nat, rejected: nat)

  function SummaryOf(docs: seq<Document>): (s: Summary)
    ensures s.total == |docs| == s.pending + s.completed + s.rejected
    ensures s.pending == CountStatus(docs, Pending) && s.completed == CountStatus(docs, Completed)
    ensures s.rejected == CountStatus(docs, Rejected)
  {
    TallyCoversAll(docs);
    Summary(|docs|, CountStatus(docs, Pending), CountStatus(docs, Completed), CountStatus(docs, Rejected))
  }

  /** The first `min(3, |docs|)` documents, in their original order. */
  function RecentDocuments(docs: seq<Document>): (r: seq<Document>)
    ensures |r| == if |docs| < 3 then |docs| else 3
    ensures forall i :: 0 <= i < |r| ==> r[i] == docs[i]
  {
    if |docs| < 3 then docs else docs[..3]
  }

  /** 'Pendiente' exactly for a pending document; every other status, rejected
      included, reads 'Completado'. */
  function SubtitleStatus(st: DocumentStatus): (text: string)
    ensures text == "Pendiente" <==> st == Pending
    ensures st != Pending ==> text == "Completado"
  {
    if st.Name() == "pendiente" then "Pendiente" else "Completado"
  }

  datatype RecentCard = RecentCard(
    title: string,
    icon: string,
    statusText: string,
    subtitle: string,
    barColor: string,
    press: Route)

  function CardOf(doc: Document): RecentCard
  {
    RecentCard(doc.title, StatusTables.StatusIcon(doc.status.Name()), doc.status.Name(),
               doc.issuedBy + " - " + SubtitleStatus(doc.status),
               StatusTables.StatusColor(doc.status.Name()), DocumentDetail(doc.id))
  }

  /** One card per recent document, each pressing through to its own id. */
  function RecentCards(docs: seq<Document>): (cards: seq<RecentCard>)
    ensures |cards| == |RecentDocuments(docs)|
    ensures forall i :: 0 <= i < |cards| ==>
              cards[i] == CardOf(docs[i]) && cards[i].press == DocumentDetail(docs[i].id)
  {
    var recent := RecentDocuments(docs);
    seq(|recent|, i requires 0 <= i < |recent| => CardOf(recent[i]))
  }

  /** Pressing a recent card and looking up the routed id on the detail screen
      yields the very document of that card, when ids are distinct. */
  lemma RecentCardOpensItsDocument(docs: seq<Document>, i: nat)
    requires DocumentDetailScreen.UniqueDocumentIds(docs)
    requires i < |RecentCards(docs)|
    ensures DocumentDetailScreen.FindDocument(docs, RecentCards(docs)[i].press.documentId) == Some(docs[i])
  {
    DocumentDetailScreen.FindOwnId(docs, i);
  }
}

/** The documents tab: one card per document, in list order. */
module DocumentsListScreen {

  import opened Types
  import StatusTables
  import DocumentDetailScreen

  datatype ListCard = ListCard(
    title: string,
    icon: string,
    statusText: string,
    subtitle: string,
    barColor: string,
    network: string,
    press: Route)

  function CardOf(doc: Document): ListCard
  {
    ListCard(doc.title, StatusTables.StatusIcon(doc.status.Name()), doc.status.Name(),
             doc.issuedBy + " - " + doc.institution,
             StatusTables.StatusColor(doc.status.Name()), doc.network, DocumentDetail(doc.id))
  }

  /** Every document gets its card, in order, coloured and iconed by its own
      status and pressing through to its own id. */
  function DocumentCards(docs: seq<Document>): (cards: seq<ListCard>)
    ensures |cards| == |docs|
    ensures forall i :: 0 <= i < |docs| ==>
              && cards[i].press == DocumentDetail(docs[i].id)
              && cards[i].subtitle == docs[i].issuedBy + " - " + docs[i].institution
              && cards[i].barColor == StatusTables.StatusColor(docs[i].status.Name())
              && cards[i].icon == StatusTables.StatusIcon(docs[i].status.Name())
              && cards[i].title == docs[i].title
  {
    seq(|docs|, i requires 0 <= i < |docs| => CardOf(docs[i]))
  }

  /** With distinct ids, the detail screen opened from card `i` shows document `i`. */
  lemma CardOpensItsDocument(docs: seq<Document>, i: nat)
    requires DocumentDetailScreen.UniqueDocumentIds(docs) && i < |docs|
    ensures DocumentDetailScreen.DetailPage(docs, DocumentCards(docs)[i].press.documentId).Found?
    ensures DocumentDetailScreen.FindDocument(docs, DocumentCards(docs)[i].press.documentId) == Some(docs[i])
  {
    DocumentDetailScreen.FindOwnId(docs, i);
  }
}
