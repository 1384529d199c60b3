/** The identifications tab: one card per identification, labelled by its
    stored expiry flag, and an empty state. */
module IdentificationsListScreen {

  import opened Types

  datatype IdCard = IdCard(
    typeBadge: string,
    statusIcon: string,
    expiredBadge: bool,
    holderName: string,
    institution: string,
    network: string,
    footerText: string,
    press: Route)

  function StatusIcon(isExpired: bool): (g: string)
    ensures g == "🔒" <==> isExpired
    ensures !isExpired ==> g == "✅"
  {
    if isExpired then "🔒" else "✅"
  }

  function FooterText(isExpired: bool): (t: string)
    ensures t == "Expirado" <==> isExpired
    ensures !isExpired ==> t == "Activo"
  {
    if isExpired then "Expirado" else "Activo"
  }

  function CardOf(ident: Identification): IdCard
  {
    IdCard(ident.kind, StatusIcon(ident.isExpired), ident.isExpired, ident.holderName,
           ident.institution, ident.network, FooterText(ident.isExpired),
           IdentificationDetail(ident.id))
  }

  /** One card per identification, in order; icon, badge style and footer all
      agree with the stored flag, and the press carries the card's own id. */
  function IdentificationCards(ids: seq<Identification>): (cards: seq<IdCard>)
    ensures |cards| == |ids|
    ensures forall i :: 0 <= i < |ids| ==>
              && cards[i].press == IdentificationDetail(ids[i].id)
              && (cards[i].expiredBadge <==> ids[i].isExpired)
              && (cards[i].statusIcon == "🔒" <==> ids[i].isExpired)
              && (cards[i].footerText == "Expirado" <==> ids[i].isExpired)
  {
    seq(|ids|, i requires 0 <= i < |ids| => CardOf(ids[i]))
  }

  predicate ShowsEmptyState(ids: seq<Identification>)
  {
    |ids| == 0
  }

  /** The empty state and the cards exclude each other. */
  lemma EmptyStateExactlyWithoutCards(ids: seq<Identification>)
    ensures ShowsEmptyState(ids) <==> IdentificationCards(ids) == []
  {
  }
}

/** The identification card screen: the lookup of the routed id, a card face
    flipped by each press, and the labels of each face. */
module IdentificationDetailScreen {

  import opened Types
  import Lookup

  predicate UniqueIdentificationIds(ids: seq<Identification>)
  {
    forall i, j :: 0 <= i < j < |ids| ==> ids[i].id != ids[j].id
  }

  function IdentificationId(ident: Identification): string
  {
    ident.id
  }

  /** `Array.prototype.find` on the id: the first match, or nothing. */
  function FindIdentification(ids: seq<Identification>, id: string): (r: Option<Identification>)
    ensures r.None? <==> forall i :: 0 <= i < |ids| ==> ids[i].id != id
    ensures forall i :: 0 <= i < |ids| && ids[i].id == id && (forall j :: 0 <= j < i ==> ids[j].id != id)
                        ==> r == Some(ids[i])
    ensures r.Some? ==> r.value.id == id && r.value in ids
  {
    Lookup.Find(ids, IdentificationId, id)
  }

  /** With distinct ids the lookup of a card's own id finds that card. */
  lemma FindOwnId(ids: seq<Identification>, i: nat)
    requires UniqueIdentificationIds(ids) && i < |ids|
    ensures FindIdentification(ids, ids[i].id) == Some(ids[i])
  {
    Lookup.FindOwnKey(ids, IdentificationId, i);
  }

  /** The card's face state: `showBack` is false on entry and each press negates it. */
  class CardFace {
    var showBack: bool

    constructor ()
      ensures !showBack
    {
      showBack := false;
    }

    method Press()
      modifies this
      ensures showBack == !old(showBack)
    {
      showBack := !showBack;
    }

    predicate FrontShown()
      reads this
    {
      !showBack
    }
  }

  /** Two presses bring back the face shown before them. */
  method PressTwice(face: CardFace)
    modifies face
    ensures face.showBack == old(face.showBack)
    ensures face.FrontShown() == old(face.FrontShown())
  {
    face.Press();
    face.Press();
  }

  function Instruction(showBack: bool): (t: string)
    ensures t == "Mostrando parte posterior" <==> showBack
    ensures !showBack ==> t == "Mostrando parte frontal"
  {
    if showBack then "Mostrando parte posterior" else "Mostrando parte frontal"
  }

  datatype StatusLine = StatusLine(text: string, color: string)

  /** The status line on the back face: red 'Expirado' or green 'Activo'. */
  function BackStatus(ident: Identification): (s: StatusLine)
    ensures s.text == "Expirado" <==> ident.isExpired
    ensures s.color == "#F44336" <==> ident.isExpired
    ensures !ident.isExpired ==> s == StatusLine("Activo", "#4CAF50")
  {
    if ident.isExpired then StatusLine("Expirado", "#F44336") else StatusLine("Activo", "#4CAF50")
  }

  datatype Face =
    | Front(institution: string, kind: string, holderName: string, network: string, issuedBy: string)
    | Back(ipfsHash: string, status: StatusLine)

  datatype Page = NotFound | Shown(title: string, face: Face, instruction: string)

  /** The screen for a routed id: not found exactly when no identification has
      it; otherwise the front face exactly when `showBack` is false. */
  function DetailPage(ids: seq<Identification>, identificationId: string, showBack: bool): (p: Page)
    ensures p.NotFound? <==> FindIdentification(ids, identificationId).None?
    ensures p.Shown? ==>
              var ident := FindIdentification(ids, identificationId).value;
              && p.title == ident.kind
              && (p.face.Front? <==> !showBack)
              && (p.face.Back? ==> p.face.status == BackStatus(ident))
              && p.instruction == Instruction(showBack)
  {
    match FindIdentification(ids, identificationId)
    case None => NotFound
    case Some(ident) =>
      var face := if !showBack
        then Front(ident.institution, ident.kind, ident.holderName, ident.network, ident.issuedBy)
        else Back(ident.ipfsHash, BackStatus(ident));
      Shown(ident.kind, face, Instruction(showBack))
  }
}

/** The institution selector: every institution button and the `+` button
    produce a navigation intent. */
module InstitutionSelectorScreen {

  import opened Types

  /** Selecting any institution, 'home' or another, navigates home. */
  function SelectInstitution(institutionId: string): (r: Route)
    ensures r == Home
  {
    if institutionId == "home" then Home else Home
  }

  function AddQR(): (r: Route)
    ensures r == QRScanner
  {
    QRScanner
  }

  datatype Badge = HomeIcon | Initials(shortName: string)

  datatype Button = Button(badge: Badge, homeStyle: bool, press: Route)

  function ButtonOf(inst: Institution): Button
  {
    Button(if inst.id == "home" then HomeIcon else Initials(inst.shortName),
           inst.id == "home", SelectInstitution(inst.id))
  }

  /** One button per institution in order: 'home' gets the house icon and its
      own style, every other one its short name; all of them lead home. */
  function InstitutionButtons(insts: seq<Institution>): (buttons: seq<Button>)
    ensures |buttons| == |insts|
    ensures forall i :: 0 <= i < |insts| ==>
              && buttons[i].press == Home
              && (buttons[i].badge == HomeIcon <==> insts[i].id == "home")
              && (insts[i].id != "home" ==> buttons[i].badge == Initials(insts[i].shortName))
              && (buttons[i].homeStyle <==> insts[i].id == "home")
  {
    seq(|insts|, i requires 0 <= i < |insts| => ButtonOf(insts[i]))
  }
}

/** The scanner screen: a `scanning` flag set when a simulated scan starts and
    cleared when its detection arrives, and the alert that detection raises. */
module QRScannerScreen {

  import opened Types

  /** The data every simulated detection delivers. */
  const MockQRData := "mock_qr_data"

  /** A native alert: title, message, and where its OK button navigates. */
  datatype NativeAlert = NativeAlert(title: string, message: string, onOk: Option<Route>)

  /** The validity branch: any non-empty data is a QR code whose OK leads to the
      institution selector; empty data is an error with no navigation. */
  function ScanAlert(data: string): (a: NativeAlert)
    ensures a.onOk.Some? <==> |data| > 0
    ensures |data| > 0 ==> a.title == "QR Detectado" && a.onOk == Some(InstitutionSelector)
    ensures |data| == 0 ==> a == NativeAlert("Error", "QR no válido", None)
  {
    if |data| > 0 then
      NativeAlert("QR Detectado", "QR válido detectado. Navegando a selección de institución.",
                  Some(InstitutionSelector))
    else
      NativeAlert("Error", "QR no válido", None)
  }

  /** The gallery button only informs; it never navigates. */
  function GalleryAlert(): (a: NativeAlert)
    ensures a.onOk.None? && a.title == "Abrir Galería"
  {
    NativeAlert("Abrir Galería", "Funcionalidad de galería no implementada en el mockup", None)
  }

  function ScanButtonDisabled(scanning: bool): bool
  {
    scanning
  }

  function ScanButtonText(scanning: bool): (t: string)
    ensures t == "Escaneando..." <==> scanning
    ensures !scanning ==> t == "Simular Escaneo"
  {
    if scanning then "Escaneando..." else "Simular Escaneo"
  }

  /** The simulated scan always succeeds and leads to the institution selector. */
  lemma MockScanSucceeds()
    ensures ScanAlert(MockQRData).onOk == Some(InstitutionSelector)
  {
  }

  class Scanner {
    var scanning: bool

    constructor ()
      ensures !scanning
    {
      scanning := false;
    }

    /** Starts a scan; the returned data is what the pending detection will
        hand to `HandleQRScan`. The button is disabled while a scan is in
        progress, so the handler only runs when no scan is. */
    method SimulateQRScan() returns (pending: string)
      requires !scanning
      modifies this
      ensures scanning && pending == MockQRData
    {
      scanning := true;
      pending := MockQRData;
    }

    /** A detection clears the flag whatever the data, and raises its alert. */
    method HandleQRScan(data: string) returns (alert: NativeAlert)
      modifies this
      ensures !scanning
      ensures alert == ScanAlert(data)
    {
      scanning := false;
      alert := ScanAlert(data);
    }

    /** The scan button, disabled and relabelled while a scan is in progress. */
    function ButtonState(): (b: (bool, string))
      reads this
      ensures b.0 <==> scanning
      ensures b.1 == "Escaneando..." <==> scanning
    {
      (ScanButtonDisabled(scanning), ScanButtonText(scanning))
    }
  }

  /** A full simulated scan ends with the flag cleared and the selector offered. */
  method ScanRoundTrip(s: Scanner) returns (alert: NativeAlert)
    requires !s.scanning
    modifies s
    ensures !s.scanning && alert.onOk == Some(InstitutionSelector)
  {
    var data := s.SimulateQRScan();
    alert := s.HandleQRScan(data);
  }
}
