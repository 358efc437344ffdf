/** `runMultiAgentConsultation`: five specialists answer the same message,
    a coordinator reads their opinions and writes the consensus, and the
    spread of the specialists' confidences gives the agreement score. The
    language model is a parameter, `invoke`, that answers a persona's system
    prompt and a user message with a content block or a thrown error. The
    model client is built lazily, once, from the API key. */
module Consultation {
  import opened Wrappers
  import opened Text
  import opened Types
  import opened Prompts
  import ResponseParser
  import CoordinatorParser
  import Agreement

  /* ------------------------------------------------------------- client */

  /** The model client, made from the API key. */
  datatype Client = Client(apiKey: string)

  const MissingKey: string := "ANTHROPIC_API_KEY is not configured"

  /** An environment value is usable when it is set and not empty. */
  predicate KeyGiven(key: Option<string>) {
    key.Some? && key.value != []
  }

  /** The client slot after a call of `getAnthropicClient`, and what it returns. */
  datatype Acquired = Acquired(slot: Option<Client>, result: Result<Client, Err>)

  /** `getAnthropicClient`: a client already built is returned as it is;
      otherwise one is built from the key and kept, or the call throws and
      the slot stays empty. */
  function Acquire(slot: Option<Client>, key: Option<string>): (r: Acquired)
    ensures r.result.Success? <==> slot.Some? || KeyGiven(key)
    ensures r.result.Success? ==> r.slot == Some(r.result.value)
    ensures slot.Some? ==> r.result == Success(slot.value)
    ensures slot.None? && KeyGiven(key) ==> r.result.value.apiKey == key.value
    ensures r.result.Failure? ==> r.slot.None? && r.result.error == Error(MissingKey)
  {
    if slot.Some? then Acquired(slot, Success(slot.value))
    else if KeyGiven(key) then Acquired(Some(Client(key.value)), Success(Client(key.value)))
    else Acquired(None, Failure(Error(MissingKey)))
  }

  /** Once a client is built, every later call returns that same client and
      keeps it, whatever the environment then says. */
  lemma AcquireOnce(slot: Option<Client>, key: Option<string>, later: Option<string>)
    requires Acquire(slot, key).result.Success?
    ensures Acquire(Acquire(slot, key).slot, later) == Acquire(slot, key)
  {
  }

  /** A call that throws leaves nothing behind: a later call with a key set
      builds the client from that key. */
  lemma AcquireRetry(slot: Option<Client>, key: Option<string>, later: Option<string>)
    requires Acquire(slot, key).result.Failure? && KeyGiven(later)
    ensures Acquire(Acquire(slot, key).slot, later).result == Success(Client(later.value))
  {
  }

  /** The module-level `anthropic` handle. */
  class ClientSlot {
    var client: Option<Client>

    constructor()
      ensures client.None?
    {
      client := None;
    }

    method GetClient(key: Option<string>) returns (r: Result<Client, Err>)
      modifies this
      ensures Acquired(client, r) == Acquire(old(client), key)
    {
      if client.None? {
        if !KeyGiven(key) {
          return Failure(Error(MissingKey));
        }
        client := Some(Client(key.value));
      }
      r := Success(client.value);
    }
  }

  /* -------------------------------------------------------- specialists */

  /** One specialist: its persona (which fixes its system prompt), role and
      name. */
  datatype Profile = Profile(persona: Persona, role: string, name: string)

  /** The five specialists, in the order their answers are listed. */
  const Profiles: seq<Profile> := [
    Profile(Diagnostic, "Diagnostic AI", "AI Diagnostic System"),
    Profile(Dermatologist, "Dermatologist", "Dr. Sarah Chen"),
    Profile(Pathologist, "Pathologist", "Dr. James Wilson"),
    Profile(Treatment, "Treatment Specialist", "Dr. Maria Rodriguez"),
    Profile(Risk, "Risk Assessment", "Dr. David Kim")]

  /** The first content block of a model reply. */
  datatype Block = TextBlock(text: string) | OtherBlock

  /** A reply's text, empty when its first block is not text. */
  function ReplyText(b: Block): string {
    match b
    case TextBlock(t) => t
    case OtherBlock => []
  }

  type Model = (Persona, string) -> Result<Block, Err>

  /** One model call made under a persona's system prompt: it throws the
      missing-key error before reaching the model when no client can be
      built. */
  function Ask(ready: bool, invoke: Model, persona: Persona, message: string): (r: Result<Block, Err>)
    ensures !ready ==> r == Failure(Error(MissingKey))
    ensures ready ==> r == invoke(persona, message)
  {
    if ready then invoke(persona, message) else Failure(Error(MissingKey))
  }

  /** `SpecialistAgent.analyze` after a successful call: the parsed reply
      under the specialist's role and name. */
  function Analyze(p: Profile, content: string): (r: AgentResponse)
    ensures r.role == p.role && r.name == p.name
    ensures 0 <= r.confidence <= 100
    ensures |r.keyFindings| <= ResponseParser.MaxFindings
    ensures |r.recommendations| <= ResponseParser.MaxRecommendations
  {
    var parsed := ResponseParser.ParseResponse(content);
    AgentResponse(p.role, p.name, parsed.assessment, parsed.confidence, parsed.keyFindings, parsed.recommendations)
  }

  /** Adding one reply to the texts collected so far: an earlier failure
      stays, a new failure replaces the list. */
  function JoinStep(sofar: Result<seq<string>, Err>, reply: Result<Block, Err>): Result<seq<string>, Err> {
    match sofar
    case Failure(e) => Failure(e)
    case Success(acc) =>
      match reply
      case Failure(e) => Failure(e)
      case Success(b) => Success(acc + [ReplyText(b)])
  }

  /** `Promise.all` over the specialists' replies, taken in order. */
  function Gather(replies: seq<Result<Block, Err>>): (r: Result<seq<string>, Err>)
    ensures r.Success? ==> |r.value| == |replies|
    decreases |replies|
  {
    if |replies| == 0 then Success([])
    else JoinStep(Gather(replies[..|replies| - 1]), replies[|replies| - 1])
  }

  /** The replies of the five specialists to one message. */
  function Replies(ready: bool, invoke: Model, message: string): (r: seq<Result<Block, Err>>)
    ensures |r| == |Profiles|
    ensures forall i :: 0 <= i < |Profiles| ==> r[i] == Ask(ready, invoke, Profiles[i].persona, message)
  {
    seq(|Profiles|, i requires 0 <= i < |Profiles| => Ask(ready, invoke, Profiles[i].persona, message))
  }

  /** Each specialist's text parsed under its role and name. */
  function AnalyzeAll(ps: seq<Profile>, texts: seq<string>): (r: seq<AgentResponse>)
    requires |ps| == |texts|
    ensures |r| == |ps|
    ensures forall i :: 0 <= i < |ps| ==> r[i] == Analyze(ps[i], texts[i])
  {
    seq(|ps|, i requires 0 <= i < |ps| => Analyze(ps[i], texts[i]))
  }

  /** The join succeeds exactly when every reply does, and then keeps one
      text per reply, in the replies' order. */
  lemma {:induction false} GatherSuccess(replies: seq<Result<Block, Err>>)
    ensures Gather(replies).Success? <==> forall i :: 0 <= i < |replies| ==> replies[i].Success?
    ensures Gather(replies).Success? ==>
              |Gather(replies).value| == |replies| &&
              forall i :: 0 <= i < |replies| ==> Gather(replies).value[i] == ReplyText(replies[i].value)
    decreases |replies|
  {
    if |replies| > 0 {
      var n := |replies| - 1;
      GatherSuccess(replies[..n]);
      assert forall i :: 0 <= i < n ==> replies[..n][i] == replies[i];
    }
  }

  /** The join fails with the error of the first failing reply: no partial
      list survives a failure. */
  lemma {:induction false} GatherFailure(replies: seq<Result<Block, Err>>, k: nat)
    requires k < |replies| && replies[k].Failure?
    requires forall j :: 0 <= j < k ==> replies[j].Success?
    ensures Gather(replies) == Failure(replies[k].error)
    decreases |replies|
  {
    var n := |replies| - 1;
    if k < n {
      GatherFailure(replies[..n], k);
    } else {
      GatherSuccess(replies[..n]);
      assert forall j :: 0 <= j < n ==> replies[..n][j] == replies[j];
    }
  }

  /* -------------------------------------------------------- coordinator */

  /** One specialist's block in the coordinator's message. */
  function Opinion(s: AgentResponse): string {
    Concat([
      "\n" + s.name + " (" + s.role + "):\n",
      FieldLine("Assessment", s.assessment),
      FieldLine("Confidence", IntToString(s.confidence) + "%"),
      FieldLine("Key Findings", Join(s.keyFindings, "; ")),
      FieldLine("Recommendations", Join(s.recommendations, "; "))])
  }

  function Opinions(ss: seq<AgentResponse>): (r: seq<string>)
    ensures |r| == |ss|
    ensures forall i :: 0 <= i < |ss| ==> r[i] == Opinion(ss[i])
  {
    seq(|ss|, i requires 0 <= i < |ss| => Opinion(ss[i]))
  }

  /** The closing request of the coordinator's message. */
  const RequestLines: seq<string> := [
    "\n\nBased on all specialist inputs, provide:\n",
    "1. Consensus diagnosis\n",
    "2. Overall confidence level (0-100)\n",
    "3. Brief summary (2-3 sentences)\n",
    "4. Urgency level (low/medium/high/immediate)\n",
    "\nFormat your response clearly with these sections.\n"]

  function DiagnosisHeader(d: DiagnosisResult): string {
    "\nORIGINAL DIAGNOSIS: " + d.diagnosis + "\n"
  }

  /** `coordinatorInput`: the original diagnosis, the opinions separated by
      line feeds, and the request. */
  function CoordinatorInput(ss: seq<AgentResponse>, d: DiagnosisResult): string {
    Concat([DiagnosisHeader(d), "\nSPECIALIST OPINIONS:\n", Join(Opinions(ss), "\n"), Concat(RequestLines)])
  }

  /** The coordinator's message opens with the original diagnosis and shows
      every specialist under its name and role, with its confidence. */
  lemma {:induction false} CoordinatorInputMentions(ss: seq<AgentResponse>, d: DiagnosisResult, i: nat)
    requires i < |ss|
    ensures OccursAt(CoordinatorInput(ss, d), 0, DiagnosisHeader(d))
    ensures Contains(CoordinatorInput(ss, d), "\n" + ss[i].name + " (" + ss[i].role + "):\n")
    ensures Contains(CoordinatorInput(ss, d), FieldLine("Confidence", IntToString(ss[i].confidence) + "%"))
  {
    var parts := [DiagnosisHeader(d), "\nSPECIALIST OPINIONS:\n", Join(Opinions(ss), "\n"), Concat(RequestLines)];
    ConcatPlaced(parts, 0);
    assert parts[..0] == [];
    ConcatPlaced(parts, 2);
    var ops := Join(Opinions(ss), "\n");
    var at := |Concat(parts[..2])|;
    var lines := [
      "\n" + ss[i].name + " (" + ss[i].role + "):\n",
      FieldLine("Assessment", ss[i].assessment),
      FieldLine("Confidence", IntToString(ss[i].confidence) + "%"),
      FieldLine("Key Findings", Join(ss[i].keyFindings, "; ")),
      FieldLine("Recommendations", Join(ss[i].recommendations, "; "))];
    assert Opinion(ss[i]) == Concat(lines);
    JoinContains(Opinions(ss), "\n", i);
    var k :| 0 <= k <= |ops| && OccursAt(ops, k, Opinion(ss[i]));
    ConcatPlaced(lines, 0);
    ConcatPlaced(lines, 2);
    assert lines[..0] == [];
    OccursWithin(CoordinatorInput(ss, d), at, ops, k, Opinion(ss[i]), 0, lines[0]);
    OccursWithin(CoordinatorInput(ss, d), at, ops, k, Opinion(ss[i]), |Concat(lines[..2])|, lines[2]);
  }

  /** An occurrence inside an occurrence. */
  lemma OccursWithin(s: string, a: nat, t: string, b: nat, u: string, c: nat, v: string)
    requires OccursAt(s, a, t) && OccursAt(t, b, u) && OccursAt(u, c, v)
    ensures OccursAt(s, a + b + c, v) && Contains(s, v)
  {
    forall j | 0 <= j < |v|
      ensures s[a + b + c + j] == v[j]
    {
      assert u[c + j] == v[j];
      assert t[b + (c + j)] == u[c + j];
      assert s[a + (b + c + j)] == t[b + c + j];
    }
    assert s[a + b + c..a + b + c + |v|] == v;
    assert OccursAt(s, a + b + c, v);
  }

  /* --------------------------------------------------------- consultation */

  function Confidences(ss: seq<AgentResponse>): (r: seq<int>)
    ensures |r| == |ss|
    ensures forall i :: 0 <= i < |ss| ==> r[i] == ss[i].confidence
  {
    seq(|ss|, i requires 0 <= i < |ss| => ss[i].confidence)
  }

  /** The whole consultation, for a client that can or cannot be built: the
      specialists' answers, then the coordinator's consensus over them, the
      agreement score of their confidences and the elapsed time. */
  function Consult(ready: bool, invoke: Model, d: DiagnosisResult, input: string, elapsed: int): Result<ConsultationResponse, Err> {
    match Gather(Replies(ready, invoke, input))
    case Failure(e) => Failure(e)
    case Success(texts) =>
      Conclude(ready, invoke, AnalyzeAll(Profiles, texts), d, elapsed)
  }

  /** The coordinator's step, once every specialist has answered. */
  function Conclude(ready: bool, invoke: Model, ss: seq<AgentResponse>, d: DiagnosisResult, elapsed: int): Result<ConsultationResponse, Err>
    requires |ss| > 0
  {
    match Ask(ready, invoke, Coordinator, CoordinatorInput(ss, d))
    case Failure(e) => Failure(e)
    case Success(b) => Success(Respond(ss, b, d, elapsed))
  }

  /** The response of a consultation whose calls all succeeded: the
      coordinator's parsed consensus, the specialists' answers, the score of
      their agreement and the elapsed time. */
  function Respond(ss: seq<AgentResponse>, reply: Block, d: DiagnosisResult, elapsed: int): (r: ConsultationResponse)
    requires |ss| > 0
    ensures r.specialists == ss && r.processingTime == elapsed
    ensures 0 <= r.agreementScore <= 100
  {
    ConsultationResponse(
      CoordinatorParser.ParseConsensus(ReplyText(reply), d),
      ss,
      Agreement.AgreementScore(Confidences(ss)),
      elapsed)
  }

  /** The specialists' personas, in order. */
  const Specialists: seq<Persona> := [Diagnostic, Dermatologist, Pathologist, Treatment, Risk]

  /** The personas the model is called under, in order. */
  function Calls(ready: bool, invoke: Model, input: string): seq<Persona> {
    if !ready then []
    else Specialists
         + (if Gather(Replies(ready, invoke, input)).Success? then [Coordinator] else [])
  }

  /** One specialist's `analyze` call up to the model's reply: the client
      is fetched, and the model is asked only when there is one. */
  method AskSpecialist(slot: ClientSlot, key: Option<string>, invoke: Model, persona: Persona, input: string)
    returns (reply: Result<Block, Err>, called: bool)
    modifies slot
    ensures called == (old(slot.client).Some? || KeyGiven(key))
    ensures reply == Ask(called, invoke, persona, input)
    ensures slot.client == Acquire(old(slot.client), key).slot
  {
    var c := slot.GetClient(key);
    if c.Failure? {
      reply, called := Failure(c.error), false;
    } else {
      reply, called := invoke(persona, input), true;
    }
  }

  /** The `Promise.all` step: each specialist fetches the client and, when
      there is one, asks the model; the replies are joined in order. */
  method RunSpecialists(slot: ClientSlot, key: Option<string>, invoke: Model, input: string)
    returns (joined: Result<seq<string>, Err>, calls: seq<Persona>)
    modifies slot
    ensures joined == Gather(Replies(old(slot.client).Some? || KeyGiven(key), invoke, input))
    ensures calls == if old(slot.client).Some? || KeyGiven(key) then Specialists else []
    ensures slot.client == Acquire(old(slot.client), key).slot
  {
    ghost var ready := slot.client.Some? || KeyGiven(key);
    ghost var after := Acquire(slot.client, key).slot;
    ghost var all := Replies(ready, invoke, input);
    joined := Success([]);
    calls := [];
    var i := 0;
    while i < |Profiles|
      invariant 0 <= i <= |Profiles|
      invariant i > 0 ==> slot.client == after
      invariant i == 0 ==> Acquire(slot.client, key).slot == after
      invariant (slot.client.Some? || KeyGiven(key)) == ready
      invariant joined == Gather(all[..i])
      invariant ready ==> calls == Specialists[..i]
      invariant !ready ==> calls == []
    {
      var persona := Profiles[i].persona;
      var reply, called := AskSpecialist(slot, key, invoke, persona, input);
      if called {
        assert Specialists[..i + 1] == Specialists[..i] + [persona];
        calls := calls + [persona];
      }
      assert all[..i + 1][..i] == all[..i] && all[..i + 1][i] == reply;
      joined := JoinStep(joined, reply);
      i := i + 1;
    }
    assert all[..i] == all;
  }

  /** `coordinateConsensus` and the shaping of the response: the client is
      fetched again and the coordinator is asked about the opinions. */
  method RunCoordinator(slot: ClientSlot, key: Option<string>, invoke: Model,
                        ss: seq<AgentResponse>, d: DiagnosisResult, elapsed: int)
    returns (r: Result<ConsultationResponse, Err>, asked: bool)
    requires |ss| > 0
    modifies slot
    ensures r == Conclude(old(slot.client).Some? || KeyGiven(key), invoke, ss, d, elapsed)
    ensures asked == (old(slot.client).Some? || KeyGiven(key))
    ensures slot.client == Acquire(old(slot.client), key).slot
  {
    var c := slot.GetClient(key);
    if c.Failure? {
      return Failure(c.error), false;
    }
    var reply := invoke(Coordinator, CoordinatorInput(ss, d));
    if reply.Failure? {
      return Failure(reply.error), true;
    }
    r, asked := Success(Respond(ss, reply.value, d, elapsed)), true;
  }

  /** `runMultiAgentConsultation`: the message is formatted once and the
      consultation runs on it. */
  method RunConsultation(slot: ClientSlot, key: Option<string>, invoke: Model,
                         d: DiagnosisResult, pc: Option<PatientContext>, elapsed: int)
    returns (r: Result<ConsultationResponse, Err>, calls: seq<Persona>)
    modifies slot
    ensures r == Consult(old(slot.client).Some? || KeyGiven(key), invoke, d, FormatInputForAgent(d, pc), elapsed)
    ensures calls == Calls(old(slot.client).Some? || KeyGiven(key), invoke, FormatInputForAgent(d, pc))
    ensures slot.client == Acquire(old(slot.client), key).slot
  {
    var input := FormatInputForAgent(d, pc);
    r, calls := RunOn(slot, key, invoke, d, input, elapsed);
  }

  /** The consultation on a formatted message: the specialists first, and
      only when all of them answered, the coordinator. */
  method RunOn(slot: ClientSlot, key: Option<string>, invoke: Model,
               d: DiagnosisResult, input: string, elapsed: int)
    returns (r: Result<ConsultationResponse, Err>, calls: seq<Persona>)
    modifies slot
    ensures r == Consult(old(slot.client).Some? || KeyGiven(key), invoke, d, input, elapsed)
    ensures calls == Calls(old(slot.client).Some? || KeyGiven(key), invoke, input)
    ensures slot.client == Acquire(old(slot.client), key).slot
  {
    var joined;
    joined, calls := RunSpecialists(slot, key, invoke, input);
    if joined.Failure? {
      return Failure(joined.error), calls;
    }
    var asked;
    r, asked := RunCoordinator(slot, key, invoke, AnalyzeAll(Profiles, joined.value), d, elapsed);
    if asked {
      calls := calls + [Coordinator];
    }
  }

  /* ------------------------------------------------------------- lemmas */

  /** A finished consultation lists exactly the five specialists, in the
      fixed order, each the parsed reply the model gave under its persona,
      and scores their agreement within [0, 100]. */
  lemma {:induction false} ConsultSpecialists(ready: bool, invoke: Model, d: DiagnosisResult, input: string, elapsed: int, i: nat)
    requires Consult(ready, invoke, d, input, elapsed).Success?
    requires i < 5
    ensures var out := Consult(ready, invoke, d, input, elapsed).value;
            var reply := invoke(Profiles[i].persona, input);
            |out.specialists| == 5 &&
            out.specialists[i].role == Profiles[i].role && out.specialists[i].name == Profiles[i].name &&
            reply.Success? && out.specialists[i] == Analyze(Profiles[i], ReplyText(reply.value)) &&
            0 <= out.agreementScore <= 100
  {
    var rs := Replies(ready, invoke, input);
    GatherSuccess(rs);
    assert rs[i] == Ask(ready, invoke, Profiles[i].persona, input);
  }

  /** All or nothing: the consultation succeeds exactly when the client can
      be built and every specialist and then the coordinator answer. */
  lemma {:induction false} ConsultAllOrNothing(ready: bool, invoke: Model, d: DiagnosisResult, input: string, elapsed: int)
    ensures var rs := Replies(ready, invoke, input);
            Consult(ready, invoke, d, input, elapsed).Success? <==>
              ready && (forall i :: 0 <= i < 5 ==> rs[i].Success?) &&
              Gather(rs).Success? &&
              invoke(Coordinator, CoordinatorInput(AnalyzeAll(Profiles, Gather(rs).value), d)).Success?
  {
    var rs := Replies(ready, invoke, input);
    GatherSuccess(rs);
    if !ready {
      assert rs[0].Failure?;
    }
  }

  /** A failing specialist, the first in the fixed order to fail, fails the
      consultation with its error, whatever the coordinator would have said,
      and the coordinator is never called. */
  lemma {:induction false} SpecialistFailure(ready: bool, invoke: Model, other: Model, d: DiagnosisResult, input: string, elapsed: int, k: nat)
    requires k < 5
    requires ready
    requires invoke(Profiles[k].persona, input).Failure?
    requires forall j :: 0 <= j < k ==> invoke(Profiles[j].persona, input).Success?
    requires forall i :: 0 <= i < 5 ==> other(Profiles[i].persona, input) == invoke(Profiles[i].persona, input)
    ensures Consult(ready, invoke, d, input, elapsed) == Failure(invoke(Profiles[k].persona, input).error)
    ensures Consult(ready, other, d, input, elapsed) == Consult(ready, invoke, d, input, elapsed)
    ensures Coordinator !in Calls(ready, invoke, input)
  {
    var rs := Replies(ready, invoke, input);
    assert Replies(ready, other, input) == rs;
    GatherFailure(rs, k);
    assert Calls(ready, invoke, input) == Specialists;
  }

  /** Without a key and without a built client, nothing reaches the model
      and the consultation throws the missing-key error. */
  lemma {:induction false} NoKeyNoCalls(invoke: Model, d: DiagnosisResult, input: string, elapsed: int)
    ensures Consult(false, invoke, d, input, elapsed) == Failure(Error(MissingKey))
    ensures Calls(false, invoke, input) == []
  {
    var rs := Replies(false, invoke, input);
    GatherFailure(rs, 0);
  }
}
