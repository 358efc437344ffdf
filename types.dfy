/** The records that flow through the consultation: the upstream analysis
    result, the optional patient context, one parsed opinion per specialist,
    the coordinator's consensus, and thrown errors. Demographic fields of a
    similar case are flat, as the analysis endpoint produces them. */
module Types {
  import opened Wrappers

  /** Fields that may be `undefined` in the JSON are `Option`s. */
  datatype SimilarCase = SimilarCase(
    imageId: string,
    similarity: int,
    diagnosis: Option<string>,
    age: Option<string>,
    sex: Option<string>,
    localization: Option<string>)

  datatype DiagnosisResult = DiagnosisResult(
    diagnosis: string,
    confidence: int,
    recommendation: string,
    similarCases: Option<seq<SimilarCase>>)

  datatype PatientContext = PatientContext(
    age: Option<int>,
    sex: Option<string>,
    symptoms: Option<string>,
    duration: Option<string>,
    medicalHistory: Option<string>)

  datatype AgentResponse = AgentResponse(
    role: string,
    name: string,
    assessment: string,
    confidence: int,
    keyFindings: seq<string>,
    recommendations: seq<string>)

  datatype Urgency = Low | Medium | High | Immediate

  /** The lower-case word the consensus carries for an urgency level. */
  function UrgencyName(u: Urgency): string {
    match u
    case Low => "low"
    case Medium => "medium"
    case High => "high"
    case Immediate => "immediate"
  }

  datatype Consensus = Consensus(diagnosis: string, confidence: int, summary: string, urgency: Urgency)

  datatype ConsultationResponse = ConsultationResponse(
    consensus: Consensus,
    specialists: seq<AgentResponse>,
    agreementScore: int,
    processingTime: int)

  /** A thrown value: an `Error` carrying its message, or anything else. */
  datatype Err = Error(message: string) | NonError

  /** `error instanceof Error ? error.message : 'Unknown error'` */
  function ErrorMessage(e: Err): string {
    match e
    case Error(m) => m
    case NonError => "Unknown error"
  }
}
