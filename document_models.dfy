/**
 * The closed enumerations and request records of the document models:
 * document types, tones and export formats as string-valued enums, the
 * defaults of a document request and the length rule of a refinement
 * request.
 */
module DocumentModels {
  import opened Outcomes

  /** `DocumentType(str, Enum)`: three members. */
  datatype DocumentType = Announcement | StudentCommunication | MeetingSummary {
    /** The member's `.value`. */
    function Value(): string {
      match this
      case Announcement => "Announcement"
      case StudentCommunication => "Student Communication"
      case MeetingSummary => "Meeting Summary"
    }
  }

  /** `ToneType(str, Enum)`: four members; FIRM's value is "Firm but polite". */
  datatype ToneType = Neutral | Friendly | Firm | Formal {
    function Value(): string {
      match this
      case Neutral => "Neutral"
      case Friendly => "Friendly"
      case Firm => "Firm but polite"
      case Formal => "Formal"
    }
  }

  /** `ExportFormat(str, Enum)`: the three tags of the exporter. */
  datatype ExportFormat = Pdf | Docx | Txt {
    function Value(): string {
      match this
      case Pdf => "pdf"
      case Docx => "docx"
      case Txt => "txt"
    }
  }

  /** Iteration order of `[dt.value for dt in DocumentType]`, the sidebar's options. */
  const DocumentTypes: seq<DocumentType> := [Announcement, StudentCommunication, MeetingSummary]
  const ToneTypes: seq<ToneType> := [Neutral, Friendly, Firm, Formal]

  /** `DocumentType(value)`: lookup by value, ValueError for any other string. */
  function ParseDocumentType(value: string): (r: Result<DocumentType>)
    ensures r.Ok? ==> r.value.Value() == value
    ensures r.Err? ==> r.error == InvalidEnumValue(value)
  {
    if value == "Announcement" then Ok(Announcement)
    else if value == "Student Communication" then Ok(StudentCommunication)
    else if value == "Meeting Summary" then Ok(MeetingSummary)
    else Err(InvalidEnumValue(value))
  }

  /** `ToneType(value)`. */
  function ParseToneType(value: string): (r: Result<ToneType>)
    ensures r.Ok? ==> r.value.Value() == value
    ensures r.Err? ==> r.error == InvalidEnumValue(value)
  {
    if value == "Neutral" then Ok(Neutral)
    else if value == "Friendly" then Ok(Friendly)
    else if value == "Firm but polite" then Ok(Firm)
    else if value == "Formal" then Ok(Formal)
    else Err(InvalidEnumValue(value))
  }

  /** `ExportFormat(value)`. */
  function ParseExportFormat(value: string): (r: Result<ExportFormat>)
    ensures r.Ok? ==> r.value.Value() == value
    ensures r.Err? ==> r.error == InvalidEnumValue(value)
  {
    if value == "pdf" then Ok(Pdf)
    else if value == "docx" then Ok(Docx)
    else if value == "txt" then Ok(Txt)
    else Err(InvalidEnumValue(value))
  }

  /** The options list enumerates every member exactly once, with distinct values. */
  lemma DocumentTypesEnumerated(t: DocumentType)
    ensures t in DocumentTypes
    ensures |DocumentTypes| == 3
    ensures forall i, j :: 0 <= i < j < |DocumentTypes| ==> DocumentTypes[i].Value() != DocumentTypes[j].Value()
  {
  }

  lemma ToneTypesEnumerated(t: ToneType)
    ensures t in ToneTypes
    ensures |ToneTypes| == 4
    ensures forall i, j :: 0 <= i < j < |ToneTypes| ==> ToneTypes[i].Value() != ToneTypes[j].Value()
  {
  }

  /** Value to member conversion succeeds on every member's value and gives that member back. */
  lemma DocumentTypeRoundTrip(t: DocumentType)
    ensures ParseDocumentType(t.Value()) == Ok(t)
  {
  }

  lemma ToneTypeRoundTrip(t: ToneType)
    ensures ParseToneType(t.Value()) == Ok(t)
  {
  }

  lemma ExportFormatRoundTrip(f: ExportFormat)
    ensures ParseExportFormat(f.Value()) == Ok(f)
  {
  }

  /** Distinct values: the value of a member determines the member. */
  lemma ValuesInjective(a: DocumentType, b: DocumentType, x: ToneType, y: ToneType, f: ExportFormat, g: ExportFormat)
    ensures a.Value() == b.Value() ==> a == b
    ensures x.Value() == y.Value() ==> x == y
    ensures f.Value() == g.Value() ==> f == g
  {
  }

  /** `DocumentRequest`: the optional fields and their defaults. */
  datatype DocumentRequest = DocumentRequest(
    prompt: string,
    docType: DocumentType,
    tone: ToneType,
    additionalContext: Option<string>,
    senderName: Option<string>,
    senderProfession: Option<string>,
    language: Option<string>)

  /** A request built from its three required fields only. */
  function NewDocumentRequest(prompt: string, docType: DocumentType, tone: ToneType): (r: DocumentRequest)
    ensures r.prompt == prompt && r.docType == docType && r.tone == tone
    ensures r.additionalContext == None && r.senderName == None && r.senderProfession == None
    ensures r.language == Some("English")
  {
    DocumentRequest(prompt, docType, tone, None, None, None, Some("English"))
  }

  const MinRefinementLength: nat := 10

  datatype RefinementRequest = RefinementRequest(refinementPrompt: string)

  /** Validation of `RefinementRequest`: `min_length=10` on the instruction. */
  function NewRefinementRequest(refinementPrompt: string): (r: Result<RefinementRequest>)
    ensures r.Ok? <==> |refinementPrompt| >= 10
    ensures r.Ok? ==> r.value.refinementPrompt == refinementPrompt
    ensures r.Err? ==> r.error == TooShort(|refinementPrompt|)
  {
    if |refinementPrompt| < MinRefinementLength then Err(TooShort(|refinementPrompt|))
    else Ok(RefinementRequest(refinementPrompt))
  }
}
