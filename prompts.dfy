/** The persona table and `formatInputForAgent`, the message every
    specialist receives: the upstream diagnosis, the similar cases numbered
    from one, an optional patient context and a closing request for the four
    sections the response parser reads. JavaScript's `||` defaults turn an
    absent or falsy value into a fixed word. */
module Prompts {
  import opened Wrappers
  import opened Text
  import opened Types

  /* ------------------------------------------------------------ personas */

  /** The six keys of `AGENT_PROMPTS`. */
  datatype Persona = Diagnostic | Dermatologist | Pathologist | Treatment | Risk | Coordinator

  /** Who each persona is told it is: the opening words of its prompt. */
  function Opening(p: Persona): string {
    match p
    case Diagnostic => "You are a diagnostic AI specialist"
    case Dermatologist => "You are Dr. Sarah Chen"
    case Pathologist => "You are Dr. James Wilson"
    case Treatment => "You are Dr. Maria Rodriguez"
    case Risk => "You are Dr. David Kim"
    case Coordinator => "You are Dr. Emily Thompson"
  }

  const DiagnosticBrief: string :=
    " analyzing dermatological images. Your "
    + "role is to provide an initial clinical "
    + "assessment based on visual features and "
    + "pattern recognition.\n"
    + "\n"
    + "Analyze the provided diagnosis "
    + "information and provide:\n"
    + "1. Initial assessment of the condition\n"
    + "2. Key visual indicators that led to "
    + "this diagnosis\n"
    + "3. Confidence level in the assessment\n"
    + "4. Any differential diagnoses to "
    + "consider\n"
    + "\n"
    + "Be thorough but concise. Focus on "
    + "objective findings."

  const DermatologistBrief: string :=
    ", a board-certified dermatologist with "
    + "20 years of clinical experience in skin "
    + "cancer detection and dermatological "
    + "conditions. You've diagnosed over "
    + "10,000 cases.\n"
    + "\n"
    + "Based on the analysis provided, give "
    + "your expert clinical opinion:\n"
    + "1. Clinical evaluation of the lesion "
    + "characteristics\n"
    + "2. Relevant dermoscopic features\n"
    + "3. Assessment of malignancy risk\n"
    + "4. Comparison with typical presentation "
    + "patterns\n"
    + "\n"
    + "Use your clinical experience to provide "
    + "nuanced insights that go beyond "
    + "algorithmic analysis."

  const PathologistBrief: string :=
    ", a pathologist specializing in "
    + "dermatopathology with expertise in "
    + "cellular and tissue-level analysis of "
    + "skin lesions.\n"
    + "\n"
    + "Provide your pathological perspective:\n"
    + "1. Cellular characteristics that would "
    + "be expected\n"
    + "2. Tissue-level concerns or markers\n"
    + "3. Histological features to investigate\n"
    + "4. Biopsy recommendations if applicable\n"
    + "\n"
    + "Focus on the microscopic and cellular "
    + "aspects that complement visual "
    + "diagnosis."

  const TreatmentBrief: string :=
    ", a treatment specialist and clinical "
    + "dermatologist focused on evidence-based "
    + "treatment protocols and patient care "
    + "pathways.\n"
    + "\n"
    + "Recommend appropriate next steps:\n"
    + "1. Immediate treatment recommendations\n"
    + "2. Follow-up care requirements\n"
    + "3. Monitoring protocols\n"
    + "4. Patient education points\n"
    + "\n"
    + "Base recommendations on current "
    + "clinical guidelines and best practices."

  const RiskBrief: string :=
    ", a risk assessment specialist focused "
    + "on urgency evaluation and triage of "
    + "dermatological conditions.\n"
    + "\n"
    + "Evaluate urgency and risk factors:\n"
    + "1. Immediate medical attention "
    + "requirements\n"
    + "2. Risk level assessment "
    + "(low/medium/high/immediate)\n"
    + "3. Warning signs that require "
    + "escalation\n"
    + "4. Timeline for medical consultation\n"
    + "\n"
    + "Prioritize patient safety while "
    + "avoiding unnecessary alarm."

  const CoordinatorBrief: string :=
    ", a senior medical coordinator "
    + "responsible for synthesizing multiple "
    + "specialist opinions into clear, "
    + "actionable patient guidance.\n"
    + "\n"
    + "Your task is to:\n"
    + "1. Review all specialist assessments\n"
    + "2. Identify areas of agreement and "
    + "disagreement\n"
    + "3. Synthesize a unified diagnosis and "
    + "recommendation\n"
    + "4. Provide clear, patient-friendly "
    + "guidance\n"
    + "5. Assign overall confidence and "
    + "urgency level\n"
    + "\n"
    + "Create a coherent narrative that "
    + "respects each specialist's input while "
    + "providing clear direction."

  /** The rest of each persona's prompt: its role and the points it is asked
      to cover. */
  function Brief(p: Persona): string {
    match p
    case Diagnostic => DiagnosticBrief
    case Dermatologist => DermatologistBrief
    case Pathologist => PathologistBrief
    case Treatment => TreatmentBrief
    case Risk => RiskBrief
    case Coordinator => CoordinatorBrief
  }

  /** `AGENT_PROMPTS[p]` */
  function SystemPrompt(p: Persona): string {
    Opening(p) + Brief(p)
  }

  /** The six personas open their prompts differently (the letters at 8
      and 12 already tell them apart); every opening starts with "You are ". */
  lemma OpeningInjective(p: Persona, q: Persona)
    ensures |Opening(p)| > 12 && |Opening(q)| > 12
    ensures Opening(p)[8] == Opening(q)[8] && Opening(p)[12] == Opening(q)[12] ==> p == q
    ensures Opening(p) == Opening(q) ==> p == q
    ensures Opening(p)[..8] == "You are "
  {
  }

  /** So no two keys of the table share a prompt. */
  lemma SystemPromptInjective(p: Persona, q: Persona)
    ensures SystemPrompt(p) == SystemPrompt(q) ==> p == q
  {
    if SystemPrompt(p) == SystemPrompt(q) {
      OpeningInjective(p, q);
      SameOpening(Opening(p), Brief(p), Opening(q), Brief(q));
    }
  }

  /** Every prompt opens with "You are ". */
  lemma SystemPromptOpens(p: Persona)
    ensures "You are " <= SystemPrompt(p)
  {
    OpeningInjective(p, p);
    OpensWith(Opening(p), Brief(p), "You are ");
  }

  /** Two prompts that are equal have openings that agree at 8 and 12. */
  lemma SameOpening(o1: string, b1: string, o2: string, b2: string)
    requires |o1| > 12 && |o2| > 12 && o1 + b1 == o2 + b2
    ensures o1[8] == o2[8] && o1[12] == o2[12]
  {
    assert (o1 + b1)[8] == o1[8] && (o2 + b2)[8] == o2[8];
    assert (o1 + b1)[12] == o1[12] && (o2 + b2)[12] == o2[12];
  }

  /** A prompt whose opening starts with `w` starts with `w`. */
  lemma OpensWith(o: string, b: string, w: string)
    requires |w| <= |o| && o[..|w|] == w
    ensures w <= o + b
  {
    assert (o + b)[..|w|] == w;
  }

  /* ------------------------------------------------------------ defaults */

  /** `${v || d}` for a string that may be absent: the empty string is falsy
      too. */
  function OrDefault(v: Option<string>, d: string): (r: string)
    ensures v.Some? && v.value != [] ==> r == v.value
    ensures v.None? || v.value == [] ==> r == d
    ensures d != [] ==> r != []
  {
    match v
    case Some(x) => if x != [] then x else d
    case None => d
  }

  /** `${v || d}` for a number that may be absent: zero is falsy. */
  function NumberOrDefault(v: Option<int>, d: string): (r: string)
    ensures v.Some? && v.value != 0 ==> r == IntToString(v.value)
    ensures v.None? || v.value == 0 ==> r == d
  {
    match v
    case Some(n) => if n != 0 then IntToString(n) else d
    case None => d
  }

  /** `${x}` for a value that may be `undefined`. */
  function Interpolate(v: Option<string>): (r: string)
    ensures v.Some? ==> r == v.value
    ensures v.None? ==> r == "undefined"
  {
    match v
    case Some(x) => x
    case None => "undefined"
  }

  /* ------------------------------------------------------- similar cases */

  /** The entry for the case numbered `n`. */
  function CaseEntry(n: nat, c: SimilarCase): string {
    Concat(["\n", NatToString(n), ". ", Interpolate(c.diagnosis), " (", IntToString(c.similarity), "% similar)\n",
            "   - Age: ", OrDefault(c.age, "Unknown"), ", Sex: ", OrDefault(c.sex, "Unknown"), "\n",
            "   - Location: ", OrDefault(c.localization, "Not specified"), "\n"])
  }

  /** `similarCases.map((c, i) => …)` from position `n - 1` on. */
  function CaseEntries(cs: seq<SimilarCase>, n: nat): (r: seq<string>)
    ensures |r| == |cs|
    decreases |cs|
  {
    if |cs| == 0 then [] else [CaseEntry(n, cs[0])] + CaseEntries(cs[1..], n + 1)
  }

  /** The entries keep the order of the cases and number them from `n`. */
  lemma {:induction false} CaseEntriesAt(cs: seq<SimilarCase>, n: nat, i: nat)
    requires i < |cs|
    ensures CaseEntries(cs, n)[i] == CaseEntry(n + i, cs[i])
    decreases i
  {
    if i > 0 {
      CaseEntriesAt(cs[1..], n + 1, i - 1);
      assert cs[1..][i - 1] == cs[i];
    }
  }

  const NoCases: string := "None available"

  /** `similarCases?.map(…).join('') || 'None available'`: an absent list
      and an empty one both leave the joined text empty, which is falsy. */
  function CasesText(sc: Option<seq<SimilarCase>>): string {
    match sc
    case None => NoCases
    case Some(cs) =>
      var t := Concat(CaseEntries(cs, 1));
      if t != [] then t else NoCases
  }

  /** Where the entry of case `i` starts in the joined text. */
  function CaseOffset(cs: seq<SimilarCase>, i: nat): nat
    requires i <= |cs|
  {
    |Concat(CaseEntries(cs, 1)[..i])|
  }

  /** Every case appears in the joined text under its number `i + 1`, and
      the entries do not overlap and keep the input order. */
  lemma {:induction false} CaseEntryPlaced(cs: seq<SimilarCase>, i: nat)
    requires i < |cs|
    ensures OccursAt(Concat(CaseEntries(cs, 1)), CaseOffset(cs, i), CaseEntry(i + 1, cs[i]))
    ensures forall j :: i < j <= |cs| ==> CaseOffset(cs, i) + |CaseEntry(i + 1, cs[i])| <= CaseOffset(cs, j)
  {
    CaseEntriesAt(cs, 1, i);
    ConcatPlaced(CaseEntries(cs, 1), i);
  }

  /** The joined text is empty exactly when there are no cases, since each
      entry starts with a line feed. */
  lemma {:induction false} ConcatEntriesEmpty(cs: seq<SimilarCase>)
    ensures Concat(CaseEntries(cs, 1)) == [] <==> |cs| == 0
    ensures |cs| > 0 ==> Concat(CaseEntries(cs, 1))[0] == '\n'
  {
    if |cs| > 0 {
      var es := CaseEntries(cs, 1);
      assert es[0] == CaseEntry(1, cs[0]);
      assert es[0][0] == '\n';
      assert Concat(es) == es[0] + Concat(es[1..]);
    }
  }

  /** 'None available' stands for an absent or empty list and nothing else:
      a non-empty list renders its entries. */
  lemma CasesTextNone(sc: Option<seq<SimilarCase>>)
    ensures CasesText(sc) == NoCases <==> sc.None? || |sc.value| == 0
    ensures sc.Some? && |sc.value| > 0 ==> CasesText(sc) == Concat(CaseEntries(sc.value, 1))
  {
    if sc.Some? {
      ConcatEntriesEmpty(sc.value);
      assert NoCases[0] == 'N';
    }
  }

  /* ----------------------------------------------------- patient context */

  const NotProvided: string := "Not provided"
  const ContextHeader: string := "PATIENT CONTEXT:\n"

  /** One `- Label: value` line. */
  function FieldLine(name: string, value: string): string {
    "- " + name + ": " + value + "\n"
  }

  /** The five field lines, in the template's order. */
  function ContextLines(c: PatientContext): seq<string> {
    [FieldLine("Age", NumberOrDefault(c.age, NotProvided)),
     FieldLine("Sex", OrDefault(c.sex, NotProvided)),
     FieldLine("Symptoms", OrDefault(c.symptoms, NotProvided)),
     FieldLine("Duration", OrDefault(c.duration, NotProvided)),
     FieldLine("Medical History", OrDefault(c.medicalHistory, NotProvided))]
  }

  function ContextFields(c: PatientContext): string {
    Concat(ContextLines(c))
  }

  /** `${patientContext ? `PATIENT CONTEXT: …` : ''}`: the block is there
      exactly when a context object is given (any object is truthy, an empty
      one too), and then it opens with its header. */
  function ContextBlock(pc: Option<PatientContext>): (r: string)
    ensures r == [] <==> pc.None?
    ensures pc.Some? ==> OccursAt(r, 0, ContextHeader)
  {
    match pc
    case None => []
    case Some(c) =>
      OccursPrefix(ContextHeader, ContextFields(c));
      ContextHeader + ContextFields(c)
  }

  /** The context object `{}` still yields the block, with every field
      'Not provided'. */
  lemma EmptyContextBlock()
    ensures ContextBlock(Some(PatientContext(None, None, None, None, None))) ==
            ContextHeader + Concat([FieldLine("Age", NotProvided), FieldLine("Sex", NotProvided),
                                    FieldLine("Symptoms", NotProvided), FieldLine("Duration", NotProvided),
                                    FieldLine("Medical History", NotProvided)])
  {
  }

  /* ------------------------------------------------------------- message */

  /** The closing request, one line per section asked for. */
  const InstructionLines: seq<string> := [
    "Provide your expert assessment in a structured format with:\n",
    "1. Assessment (2-3 sentences)\n",
    "2. Confidence (percentage)\n",
    "3. Key Findings (3-5 bullet points)\n",
    "4. Recommendations (2-4 bullet points)\n"]

  const Instructions: string := Concat(InstructionLines)

  /** The lines of the diagnosis section at the head of the message. */
  function DiagnosisLines(d: DiagnosisResult): seq<string> {
    ["\nDIAGNOSIS INFORMATION:\n",
     FieldLine("Condition", d.diagnosis),
     FieldLine("Confidence", IntToString(d.confidence) + "%"),
     FieldLine("Recommendation", d.recommendation),
     "\nSIMILAR CASES ANALYZED:\n"]
  }

  function DiagnosisSection(d: DiagnosisResult): string {
    Concat(DiagnosisLines(d))
  }

  /** The message laid out from its four sections. */
  function Assemble(head: string, cases: string, context: string, closing: string): string {
    head + cases + "\n\n" + context + "\n\n" + closing
  }

  /** `formatInputForAgent` */
  function FormatInputForAgent(d: DiagnosisResult, pc: Option<PatientContext>): string {
    Assemble(DiagnosisSection(d), CasesText(d.similarCases), ContextBlock(pc), Instructions)
  }

  /** What occurs in the head occurs in the message. */
  lemma {:induction false} HeadInMessage(head: string, cases: string, context: string, closing: string, k: nat, sub: string)
    requires OccursAt(head, k, sub)
    ensures Contains(Assemble(head, cases, context, closing), sub)
  {
    var s1 := head + cases;
    var s2 := s1 + "\n\n";
    var s3 := s2 + context;
    var s4 := s3 + "\n\n";
    OccursRight(head, k, sub, cases);
    OccursRight(s1, k, sub, "\n\n");
    OccursRight(s2, k, sub, context);
    OccursRight(s3, k, sub, "\n\n");
    OccursRight(s4, k, sub, closing);
  }

  /** The cases and the context sit whole right after the head. */
  lemma {:induction false} AssembleMiddle(head: string, cases: string, context: string, closing: string)
    ensures OccursAt(Assemble(head, cases, context, closing), |head|, cases + "\n\n" + context)
  {
    var mid := cases + "\n\n" + context;
    var s3 := head + cases + "\n\n" + context;
    assert s3 == head + mid + [];
    OccursInMiddle(head, mid, []);
    OccursRight(s3, |head|, mid, "\n\n" + closing);
    assert Assemble(head, cases, context, closing) == s3 + ("\n\n" + closing);
  }

  /** A header of the context sits after the cases and a blank line. */
  lemma {:induction false} AssembleHeader(head: string, cases: string, context: string, closing: string, header: string)
    requires OccursAt(context, 0, header)
    ensures OccursAt(Assemble(head, cases, context, closing), |head| + |cases| + 2, header)
  {
    var s2 := head + cases + "\n\n";
    OccursShift(context, 0, header, s2);
    OccursRight(s2 + context, |s2|, header, "\n\n" + closing);
    assert Assemble(head, cases, context, closing) == (s2 + context) + ("\n\n" + closing);
  }

  /** The message ends with the closing section. */
  lemma {:induction false} AssembleClosing(head: string, cases: string, context: string, closing: string)
    ensures var out := Assemble(head, cases, context, closing);
            |out| >= |closing| && out[|out| - |closing|..] == closing
  {
    var s4 := head + cases + "\n\n" + context + "\n\n";
    assert Assemble(head, cases, context, closing) == s4 + closing;
    assert (s4 + closing)[|s4|..] == closing;
  }

  /** The message names the condition, the confidence followed by '%' and
      the recommendation. */
  lemma {:induction false} FormatMentionsDiagnosis(d: DiagnosisResult, pc: Option<PatientContext>)
    ensures Contains(FormatInputForAgent(d, pc), FieldLine("Condition", d.diagnosis))
    ensures Contains(FormatInputForAgent(d, pc), FieldLine("Confidence", IntToString(d.confidence) + "%"))
    ensures Contains(FormatInputForAgent(d, pc), FieldLine("Recommendation", d.recommendation))
  {
    var lines := DiagnosisLines(d);
    var ct := CasesText(d.similarCases);
    var cb := ContextBlock(pc);
    ConcatPlaced(lines, 1);
    ConcatPlaced(lines, 2);
    ConcatPlaced(lines, 3);
    HeadInMessage(Concat(lines), ct, cb, Instructions, |Concat(lines[..1])|, lines[1]);
    HeadInMessage(Concat(lines), ct, cb, Instructions, |Concat(lines[..2])|, lines[2]);
    HeadInMessage(Concat(lines), ct, cb, Instructions, |Concat(lines[..3])|, lines[3]);
  }

  /** The cases appear whole right after the diagnosis section, followed by
      a blank line and the context block. */
  lemma {:induction false} FormatCasesThenContext(d: DiagnosisResult, pc: Option<PatientContext>)
    ensures OccursAt(FormatInputForAgent(d, pc), |DiagnosisSection(d)|, CasesText(d.similarCases) + "\n\n" + ContextBlock(pc))
  {
    AssembleMiddle(DiagnosisSection(d), CasesText(d.similarCases), ContextBlock(pc), Instructions);
  }

  /** A given context always shows its header, right after the cases and a
      blank line. */
  lemma {:induction false} FormatContextHeader(d: DiagnosisResult, c: PatientContext)
    ensures OccursAt(FormatInputForAgent(d, Some(c)), |DiagnosisSection(d)| + |CasesText(d.similarCases)| + 2, ContextHeader)
  {
    AssembleHeader(DiagnosisSection(d), CasesText(d.similarCases), ContextBlock(Some(c)), Instructions, ContextHeader);
  }

  /** The message always ends with the request for the four sections the
      response parser reads. */
  lemma {:induction false} FormatEndsWithInstructions(d: DiagnosisResult, pc: Option<PatientContext>)
    ensures var out := FormatInputForAgent(d, pc);
            |out| >= |Instructions| && out[|out| - |Instructions|..] == Instructions
  {
    AssembleClosing(DiagnosisSection(d), CasesText(d.similarCases), ContextBlock(pc), Instructions);
  }
}
