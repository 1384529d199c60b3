/** The fixed sample records the screens display. The records that call
    `new Date()` or `Date.now()` make those calls one after another while the
    data module loads; the model takes all of them as the single instant
    `loaded`. */
module MockData {

  import opened Types
  import DocumentDetailScreen
  import IdentificationDetailScreen
  import HomeScreen
  import NotificationsScreen

  const Hour: int := 60 * 60 * 1000
  const Day: int := 24 * Hour

  /** `new Date(2025, 0, 25)`, taken at midnight UTC. */
  const January25th2025: Millis := 1737763200000

  const MockUser: User := User("1", "John Hopediah", "0x123456789abcdef", None, Some("cns"))

  const MockInstitutions: seq<Institution> := [
    Institution("home", "Inicio", "🏠", None),
    Institution("umsa", "Universidad Mayor de San Andrés", "UMSA", None),
    Institution("cns", "Caja Nacional de Salud", "CNS", None),
    Institution("ssu", "Servicio de Salud Universal", "SSU", None)
  ]

  function MockDocuments(loaded: Millis): seq<Document>
  {
    var now := Some(loaded);
    [ Document("1", "Certificado Médico", "Certificado Médico", 0.6,
               [ Signature("1", "Dr. Pedro", "Médico Tratante", Signed, now),
                 Signature("2", "Dra. García", "Especialista", Signed, now),
                 Signature("3", "Enfermera López", "Enfermera", Signed, now),
                 Signature("4", "Dr. Martínez", "Director", Awaiting, None),
                 Signature("5", "Administración", "Administración", Awaiting, None) ],
               "CNS", "0x1246", "C-Chain", "QmXyZ123456789abcdef", Pending,
               loaded, Some(loaded + 30 * Day)),
      Document("2", "Diploma Universitario", "Diploma", 1.0,
               [ Signature("6", "Director", "Director", Signed, now),
                 Signature("7", "Secretario", "Secretario", Signed, now) ],
               "Criptocoders", "Universidad", "Avalanche", "QmAbc987654321fedcba", Completed,
               loaded - 7 * Day, None),
      Document("3", "Matrícula 2025", "Matrícula", 1.0,
               [ Signature("8", "Registro", "Oficina de Registro", Signed, now),
                 Signature("9", "Finanzas", "Departamento Financiero", Signed, now) ],
               "UMSA", "Universidad", "Avalanche", "QmDef456789012345678", Completed,
               loaded - 14 * Day, None),
      Document("4", "Record Académico", "Record", 0.5,
               [ Signature("10", "Coordinador", "Coordinador Académico", Signed, now),
                 Signature("11", "Decano", "Decano", Awaiting, None) ],
               "UMSA", "Universidad", "Avalanche", "QmGhi789012345678901", Rejected,
               loaded - 21 * Day, None) ]
  }

  const MockIdentifications: seq<Identification> := [
    Identification("1", "CNS", "John Hopediah", "CNS", "Caja Nacional de Salud", "C-Chain",
                   "QmId123456789abcdef", January25th2025, false,
                   "https://example.com/id-front.jpg", "https://example.com/id-back.jpg"),
    Identification("2", "UMSA", "John Hopediah", "UMSA", "Universidad Mayor de San Andrés", "C-Chain",
                   "QmId987654321fedcba", January25th2025, false,
                   "https://example.com/umsa-id-front.jpg", "https://example.com/umsa-id-back.jpg")
  ]

  function MockNotifications(loaded: Millis): seq<Notification>
  {
    [ Notification("1", "2da firma obtenida", "Certificado médico - CNS", Some("1"),
                   SignatureNotice, loaded - 2 * Hour, false),
      Notification("2", "2da firma obtenida", "Diploma - criptocoders", Some("2"),
                   SignatureNotice, loaded - 4 * Hour, false) ]
  }

  /** The document ids '1' to '4' are pairwise distinct. */
  lemma DocumentIdsDistinct(loaded: Millis)
    ensures DocumentDetailScreen.UniqueDocumentIds(MockDocuments(loaded))
    ensures |MockDocuments(loaded)| == 4
  {
  }

  /** Each stored progress equals the signed fraction: 3/5, 2/2, 2/2 and 1/2. */
  lemma ProgressMatchesSignatures(loaded: Millis)
    ensures forall d :: d in MockDocuments(loaded) ==>
              d.progress * (|d.signatures| as real) == DocumentDetailScreen.CompletedSignatures(d.signatures) as real
  {
    var docs := MockDocuments(loaded);
    SignedCount(docs[0].signatures, 3);
    SignedCount(docs[1].signatures, 2);
    SignedCount(docs[2].signatures, 2);
    SignedCount(docs[3].signatures, 1);
  }

  /** The signed count of a list whose signed entries are exactly its
      first `k`. */
  lemma SignedCount(sigs: seq<Signature>, k: nat)
    requires k <= |sigs|
    requires forall i :: 0 <= i < |sigs| ==> (sigs[i].status == Signed <==> i < k)
    ensures DocumentDetailScreen.CompletedSignatures(sigs) == k
  {
    if |sigs| > 0 {
      var prefix := sigs[..|sigs| - 1];
      SignedCount(prefix, if k == |sigs| then k - 1 else k);
    }
  }

  /** A signing date is present exactly on the `firmado` signatures. */
  lemma SignedAtExactlyWhenSigned(loaded: Millis)
    ensures forall d, s :: d in MockDocuments(loaded) && s in d.signatures ==>
              (s.signedAt.Some? <==> s.status == Signed)
  {
  }

  /** One pending, two completed and one rejected document. */
  lemma StatusTally(loaded: Millis)
    ensures HomeScreen.SummaryOf(MockDocuments(loaded)) == HomeScreen.Summary(4, 1, 2, 1)
  {
    var docs := MockDocuments(loaded);
    assert docs[..3][..2][..1][..0] == [];
    assert docs[..3][..2] == docs[..2] && docs[..2][..1] == docs[..1];
    assert HomeScreen.CountStatus(docs[..1], Pending) == 1;
    assert HomeScreen.CountStatus(docs[..2], Completed) == 1;
    assert HomeScreen.CountStatus(docs[..3], Completed) == 2;
    assert HomeScreen.CountStatus(docs[..3], Rejected) == 0;
  }

  /** Every notification's document id names a document of the sample list. */
  lemma NotificationReferencesResolve(loaded: Millis)
    ensures forall n :: n in MockNotifications(loaded) && n.documentId.Some? ==>
              DocumentDetailScreen.FindDocument(MockDocuments(loaded), n.documentId.value).Some?
  {
    var docs := MockDocuments(loaded);
    assert docs[0].id == "1" && docs[1].id == "2";
  }

  /** Both notifications are unread, so the home badge shows 2. */
  lemma UnreadCountIsTwo(loaded: Millis)
    ensures NotificationsScreen.UnreadCount(MockNotifications(loaded)) == 2
    ensures HomeScreen.NotificationBadge(MockNotifications(loaded)) == Some(2)
  {
    assert MockNotifications(loaded)[..1][..0] == [];
  }

  /** Right after loading, the notifications read two and four hours ago. */
  lemma NotificationTimesAtLoad(loaded: Millis)
    ensures NotificationsScreen.FormatTime(loaded, MockNotifications(loaded)[0].createdAt) == "2 h ago"
    ensures NotificationsScreen.FormatTime(loaded, MockNotifications(loaded)[1].createdAt) == "4 h ago"
  {
    NotificationsScreen.FormatTimeHours(loaded, loaded - 2 * Hour, 2);
    NotificationsScreen.FormatTimeHours(loaded, loaded - 4 * Hour, 4);
  }

  /** The institution ids are distinct and the user's selected one is among them. */
  lemma InstitutionsWellFormed()
    ensures forall i, j :: 0 <= i < j < |MockInstitutions| ==> MockInstitutions[i].id != MockInstitutions[j].id
    ensures MockUser.selectedInstitution.Some?
    ensures exists i :: 0 <= i < |MockInstitutions| && MockInstitutions[i].id == MockUser.selectedInstitution.value
  {
    assert MockInstitutions[2].id == "cns";
  }

  /** Both identifications are stored as not expired, with distinct ids; their
      expiry date nevertheless precedes any load after 25 January 2025, so the
      stored flag and the date disagree then. */
  lemma IdentificationsActive(loaded: Millis)
    ensures IdentificationDetailScreen.UniqueIdentificationIds(MockIdentifications)
    ensures forall ident :: ident in MockIdentifications ==> !ident.isExpired
    ensures loaded > January25th2025 ==>
              forall ident :: ident in MockIdentifications ==> ident.expiresAt < loaded
  {
  }

  /** The home screen's recent list holds documents '1', '2' and '3'. */
  lemma RecentAreFirstThree(loaded: Millis)
    ensures var r := HomeScreen.RecentDocuments(MockDocuments(loaded));
            |r| == 3 && r[0].id == "1" && r[1].id == "2" && r[2].id == "3"
  {
  }
}
