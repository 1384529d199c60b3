/** The record shapes of the credentials wallet: documents and their signatures,
    identification cards, institutions, notifications, the user, and the two
    navigation parameter lists. Dates are integer milliseconds since the epoch;
    an optional field (`x?: T`) is an `Option<T>`. */
module Types {

  datatype Option<+T> = None | Some(value: T)

  /** JavaScript truthiness of an optional string: absent and "" are falsy. */
  predicate Truthy(s: Option<string>)
  {
    s.Some? && s.value != ""
  }

  /** Milliseconds since the epoch, as `Date.getTime()` returns them. */
  type Millis = int

  /** The closed set of document states; `Name` gives the string literal the
      screens compare against. */
  datatype DocumentStatus = Pending | Completed | Rejected
  {
    function Name(): string
    {
      match this
      case Pending => "pendiente"
      case Completed => "completado"
      case Rejected => "rechazado"
    }
  }

  datatype SignatureStatus = Awaiting | Signed
  {
    function Name(): string
    {
      match this
      case Awaiting => "pendiente"
      case Signed => "firmado"
    }
  }

  datatype NotificationType = SignatureNotice | DocumentNotice | GeneralNotice
  {
    function Name(): string
    {
      match this
      case SignatureNotice => "signature"
      case DocumentNotice => "document"
      case GeneralNotice => "general"
    }
  }

  datatype Signature = Signature(
    id: string,
    signerName: string,
    signerRole: string,
    status: SignatureStatus,
    signedAt: Option<Millis>)

  /** `type` is a reserved word in Dafny, so the document's type is `kind`. */
  datatype Document = Document(
    id: string,
    title: string,
    kind: string,
    progress: real,
    signatures: seq<Signature>,
    institution: string,
    issuedBy: string,
    network: string,
    ipfsHash: string,
    status: DocumentStatus,
    createdAt: Millis,
    expiresAt: Option<Millis>)

  /** Unlike a document, an identification always carries an expiry date and a
      stored `isExpired` flag. */
  datatype Identification = Identification(
    id: string,
    kind: string,
    holderName: string,
    institution: string,
    issuedBy: string,
    network: string,
    ipfsHash: string,
    expiresAt: Millis,
    isExpired: bool,
    frontImageUrl: string,
    backImageUrl: string)

  datatype Institution = Institution(
    id: string,
    name: string,
    shortName: string,
    logoUrl: Option<string>)

  datatype Notification = Notification(
    id: string,
    title: string,
    message: string,
    documentId: Option<string>,
    kind: NotificationType,
    createdAt: Millis,
    read: bool)

  datatype User = User(
    id: string,
    name: string,
    walletAddress: string,
    profileImageUrl: Option<string>,
    selectedInstitution: Option<string>)

  /** The stack navigator's parameter list: a navigation intent. Only the two
      detail routes carry a parameter. */
  datatype Route =
    | QRScanner
    | InstitutionSelector
    | Home
    | Notifications
    | DocumentDetail(documentId: string)
    | IdentificationDetail(identificationId: string)
  {
    function Name(): string
    {
      match this
      case QRScanner => "QRScanner"
      case InstitutionSelector => "InstitutionSelector"
      case Home => "Home"
      case Notifications => "Notifications"
      case DocumentDetail(_) => "DocumentDetail"
      case IdentificationDetail(_) => "IdentificationDetail"
    }

    /** The route's parameter object, `undefined` for the four plain routes. */
    function Param(): Option<string>
    {
      match this
      case DocumentDetail(d) => Some(d)
      case IdentificationDetail(i) => Some(i)
      case _ => None
    }
  }

  /** The bottom-tab parameter list: four tabs, none with parameters. */
  datatype BottomTab = HomeTab | Documents | Identifications | Settings
  {
    function Name(): string
    {
      match this
      case HomeTab => "HomeTab"
      case Documents => "Documents"
      case Identifications => "Identifications"
      case Settings => "Settings"
    }
  }

  const AllBottomTabs: seq<BottomTab> := [HomeTab, Documents, Identifications, Settings]

  /** Reads a document status literal back; anything outside the union is rejected. */
  function ParseDocumentStatus(s: string): (r: Option<DocumentStatus>)
    ensures r.Some? ==> r.value.Name() == s
  {
    if s == "pendiente" then Some(Pending)
    else if s == "completado" then Some(Completed)
    else if s == "rechazado" then Some(Rejected)
    else None
  }

  function ParseSignatureStatus(s: string): (r: Option<SignatureStatus>)
    ensures r.Some? ==> r.value.Name() == s
  {
    if s == "pendiente" then Some(Awaiting)
    else if s == "firmado" then Some(Signed)
    else None
  }

  function ParseNotificationType(s: string): (r: Option<NotificationType>)
    ensures r.Some? ==> r.value.Name() == s
  {
    if s == "signature" then Some(SignatureNotice)
    else if s == "document" then Some(DocumentNotice)
    else if s == "general" then Some(GeneralNotice)
    else None
  }

  /** Builds a navigation intent from a route name and its parameter; a detail
      route without its id, or a plain route given one, is rejected. */
  function MakeRoute(name: string, param: Option<string>): (r: Option<Route>)
    ensures r.Some? ==> r.value.Name() == name && r.value.Param() == param
  {
    match param
    case None =>
      if name == "QRScanner" then Some(QRScanner)
      else if name == "InstitutionSelector" then Some(InstitutionSelector)
      else if name == "Home" then Some(Home)
      else if name == "Notifications" then Some(Notifications)
      else None
    case Some(p) =>
      if name == "DocumentDetail" then Some(DocumentDetail(p))
      else if name == "IdentificationDetail" then Some(IdentificationDetail(p))
      else None
  }

  /** A document status string is exactly one of the three literals. */
  lemma DocumentStatusClosed(s: string)
    ensures ParseDocumentStatus(s).Some? <==> s in {"pendiente", "completado", "rechazado"}
    ensures forall st: DocumentStatus :: ParseDocumentStatus(st.Name()) == Some(st)
  {
  }

  /** A signature status string is exactly one of the two literals. */
  lemma SignatureStatusClosed(s: string)
    ensures ParseSignatureStatus(s).Some? <==> s in {"pendiente", "firmado"}
    ensures forall st: SignatureStatus :: ParseSignatureStatus(st.Name()) == Some(st)
  {
  }

  lemma NotificationTypeClosed(s: string)
    ensures ParseNotificationType(s).Some? <==> s in {"signature", "document", "general"}
    ensures forall t: NotificationType :: ParseNotificationType(t.Name()) == Some(t)
  {
  }

  /** Every route round-trips through its name and parameter, and a parameter is
      present exactly for the two detail routes. */
  lemma RouteParamsShape(r: Route, name: string, param: Option<string>)
    ensures MakeRoute(r.Name(), r.Param()) == Some(r)
    ensures MakeRoute(name, param).Some? ==>
              (param.Some? <==> name in {"DocumentDetail", "IdentificationDetail"})
  {
  }

  /** The bottom tabs are exactly four, pairwise distinct by name. */
  lemma BottomTabsExactlyFour(t: BottomTab)
    ensures |AllBottomTabs| == 4 && t in AllBottomTabs
    ensures forall i, j :: 0 <= i < j < |AllBottomTabs| ==> AllBottomTabs[i].Name() != AllBottomTabs[j].Name()
  {
  }
}
