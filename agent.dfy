/**
 * The document-request workflow (backend/agent.py): a graph with one
 * analysis node that picks a channel and two generator nodes, exactly one of
 * which runs before END. The state is an object whose nodes update it in
 * place; the language model is a function parameter from prompt to text.
 */
module Agent {
  import opened Wrappers

  /** A state entry: Python `None`, or a `str`. */
  type Field = Option<string>

  predicate Truthy(v: Field) {
    v.Some? && v.value != []
  }

  /** Python's `v or fallback`. */
  function Or(v: Field, fallback: string): string {
    if Truthy(v) then v.value else fallback
  }

  /** How an f-string renders an entry. */
  function Show(v: Field): string {
    if v.Some? then v.value else "None"
  }

  datatype Channel = Email | Sms {
    /** The `request_type` text. */
    function Key(): string {
      if Email? then "email" else "sms"
    }
  }

  /** The routing rule of `analyze_candidate`: email if present, else SMS if a phone is present, else email. */
  function Route(email: Field, phone: Field): (c: Channel)
    ensures c == Sms <==> !Truthy(email) && Truthy(phone)
  {
    if Truthy(email) then Email
    else if Truthy(phone) then Sms
    else Email
  }

  /** The rule's last branch: email is chosen although there is no email and no phone. */
  predicate TakesFallback(email: Field, phone: Field) {
    !Truthy(email) && !Truthy(phone)
  }

  /** What the model is asked: the email or the SMS prompt with its inputs. */
  datatype Prompt =
    | EmailPrompt(name: string, email: string, company: string, designation: string)
    | SmsPrompt(name: string, phone: string)

  /** The inputs of the email prompt, with the fallback texts for missing entries. */
  function EmailPromptFor(name: Field, email: Field, company: Field, designation: Field): (p: Prompt)
    ensures p.EmailPrompt? && p.name != [] && p.company != [] && p.designation != []
    ensures Truthy(name) ==> p.name == name.value
    ensures Truthy(email) ==> p.email == email.value
    ensures Truthy(company) ==> p.company == company.value
    ensures Truthy(designation) ==> p.designation == designation.value
    ensures !Truthy(name) ==> p.name == "Candidate"
    ensures !Truthy(email) ==> p.email == ""
    ensures !Truthy(company) ==> p.company == "your organization"
    ensures !Truthy(designation) ==> p.designation == "the position"
  {
    EmailPrompt(Or(name, "Candidate"), Or(email, ""), Or(company, "your organization"), Or(designation, "the position"))
  }

  /** The inputs of the SMS prompt, with the fallback texts for missing entries. */
  function SmsPromptFor(name: Field, phone: Field): (p: Prompt)
    ensures p.SmsPrompt? && p.name != []
    ensures Truthy(name) ==> p.name == name.value
    ensures Truthy(phone) ==> p.phone == phone.value
    ensures !Truthy(name) ==> p.name == "Candidate"
    ensures !Truthy(phone) ==> p.phone == ""
  {
    SmsPrompt(Or(name, "Candidate"), Or(phone, ""))
  }

  function PromptFor(c: Channel, name: Field, email: Field, phone: Field, company: Field, designation: Field): Prompt {
    if c == Email then EmailPromptFor(name, email, company, designation) else SmsPromptFor(name, phone)
  }

  function AnalyzeLog(name: Field): string {
    "Analyzing candidate: " + Show(name)
  }

  function GeneratedLog(c: Channel): string {
    if c == Email then "Generated personalized email request" else "Generated personalized SMS request"
  }

  // ---------------------------------------------------------------- the graph

  datatype Node = AnalyzeCandidateNode | GenerateEmailNode | GenerateSmsNode | EndNode

  const EntryPoint: Node := AnalyzeCandidateNode

  predicate IsGenerator(n: Node) {
    n == GenerateEmailNode || n == GenerateSmsNode
  }

  /**
   * The wiring of `_build_graph`: the analysis node branches on the router's
   * key ("email" or "sms"; any other key has no edge), and both generators
   * lead to END.
   */
  function Successor(n: Node, key: string): (r: Option<Node>)
    ensures r.Some? <==> IsGenerator(n) || (n == AnalyzeCandidateNode && (key == "email" || key == "sms"))
    ensures IsGenerator(n) ==> r == Some(EndNode)
    ensures n == AnalyzeCandidateNode && r.Some? ==> IsGenerator(r.value)
  {
    match n
    case AnalyzeCandidateNode =>
      if key == "email" then Some(GenerateEmailNode)
      else if key == "sms" then Some(GenerateSmsNode)
      else None
    case GenerateEmailNode => Some(EndNode)
    case GenerateSmsNode => Some(EndNode)
    case EndNode => None
  }

  function GeneratorFor(c: Channel): Node {
    if c == Email then GenerateEmailNode else GenerateSmsNode
  }

  /** The nodes visited from `n` when the router answers `key`, for at most `steps` edges. */
  function Walk(n: Node, key: string, steps: nat): seq<Node>
    decreases steps
  {
    if steps == 0 then [n]
    else match Successor(n, key)
      case None => [n]
      case Some(m) => [n] + Walk(m, key, steps - 1)
  }

  /**
   * Whatever channel is routed, a run visits the analysis node, the matching
   * generator and END, in that order: exactly one generator runs.
   */
  lemma OneGeneratorPerRun(c: Channel, steps: nat)
    requires steps >= 2
    ensures Walk(EntryPoint, c.Key(), steps) == [AnalyzeCandidateNode, GeneratorFor(c), EndNode]
    ensures forall i :: 0 <= i < 3 && IsGenerator(Walk(EntryPoint, c.Key(), steps)[i]) ==> i == 1
  {
    assert Walk(EndNode, c.Key(), steps - 2) == [EndNode];
    assert Walk(GeneratorFor(c), c.Key(), steps - 1) == [GeneratorFor(c), EndNode];
  }

  // ---------------------------------------------------------------- the state and its nodes

  /** `AgentState`, updated in place by the nodes. `modelCalls` records each model call. */
  class AgentState {
    var candidateName: Field
    var candidateEmail: Field
    var candidatePhone: Field
    var candidateCompany: Field
    var candidateDesignation: Field
    var requestMessage: string
    var requestType: string
    var messages: seq<string>
    ghost var modelCalls: seq<Prompt>

    constructor (name: Field, email: Field, phone: Field, company: Field, designation: Field)
      ensures candidateName == name && candidateEmail == email && candidatePhone == phone
      ensures candidateCompany == company && candidateDesignation == designation
      ensures requestMessage == "" && requestType == "" && messages == [] && modelCalls == []
    {
      candidateName, candidateEmail, candidatePhone := name, email, phone;
      candidateCompany, candidateDesignation := company, designation;
      requestMessage, requestType, messages := "", "", [];
      modelCalls := [];
    }

    function RoutedChannel(): Channel
      reads this
    {
      Route(candidateEmail, candidatePhone)
    }

    function CurrentPrompt(c: Channel): Prompt
      reads this
    {
      PromptFor(c, candidateName, candidateEmail, candidatePhone, candidateCompany, candidateDesignation)
    }

    /** `analyze_candidate`: log the candidate, then set the routed channel. */
    method AnalyzeCandidate()
      modifies this`messages, this`requestType
      ensures messages == old(messages) + [AnalyzeLog(candidateName)]
      ensures requestType == RoutedChannel().Key()
    {
      messages := messages + ["Analyzing candidate: " + Show(candidateName)];
      var routed: string;
      if Truthy(candidateEmail) {
        routed := "email";
      } else if Truthy(candidatePhone) {
        routed := "sms";
      } else {
        routed := "email";
      }
      requestType := routed;
    }

    /**
     * `route_request_type`: the key the analysis stored, unchanged. Once the
     * analysis has run, the key has an edge, to the routed channel's generator.
     */
    function RouteRequestType(): (key: string)
      reads this
      ensures requestType == RoutedChannel().Key() ==>
        Successor(AnalyzeCandidateNode, key) == Some(GeneratorFor(RoutedChannel()))
    {
      requestType
    }

    /** `generate_email_request`: one model call; its output becomes the message. */
    method GenerateEmailRequest(generate: Prompt -> string)
      modifies this`requestMessage, this`messages, this`modelCalls
      ensures requestMessage == generate(CurrentPrompt(Email))
      ensures messages == old(messages) + [GeneratedLog(Email)]
      ensures modelCalls == old(modelCalls) + [CurrentPrompt(Email)]
    {
      var prompt := EmailPromptFor(candidateName, candidateEmail, candidateCompany, candidateDesignation);
      modelCalls := modelCalls + [prompt];
      requestMessage := generate(prompt);
      messages := messages + ["Generated personalized email request"];
    }

    /** `generate_sms_request`: one model call; its output becomes the message. */
    method GenerateSmsRequest(generate: Prompt -> string)
      modifies this`requestMessage, this`messages, this`modelCalls
      ensures requestMessage == generate(CurrentPrompt(Sms))
      ensures messages == old(messages) + [GeneratedLog(Sms)]
      ensures modelCalls == old(modelCalls) + [CurrentPrompt(Sms)]
    {
      var prompt := SmsPromptFor(candidateName, candidatePhone);
      modelCalls := modelCalls + [prompt];
      requestMessage := generate(prompt);
      messages := messages + ["Generated personalized SMS request"];
    }
  }

  /**
   * `graph.invoke`: the entry node, then the generator the router's key
   * selects, then END. The candidate entries are never changed.
   */
  method RunWorkflow(s: AgentState, generate: Prompt -> string)
    modifies s`requestType, s`requestMessage, s`messages, s`modelCalls
    ensures s.requestType == s.RoutedChannel().Key()
    ensures s.requestMessage == generate(s.CurrentPrompt(s.RoutedChannel()))
    ensures s.messages == old(s.messages) + [AnalyzeLog(s.candidateName), GeneratedLog(s.RoutedChannel())]
    ensures s.modelCalls == old(s.modelCalls) + [s.CurrentPrompt(s.RoutedChannel())]
  {
    s.AnalyzeCandidate();
    var next := Successor(EntryPoint, s.RouteRequestType());
    if next == Some(GenerateEmailNode) {
      s.GenerateEmailRequest(generate);
    } else if next == Some(GenerateSmsNode) {
      s.GenerateSmsRequest(generate);
    }
  }

  /** `candidate_data.get(key, "")`: a missing key reads as "", a present `None` stays `None`. */
  function Lookup(data: map<string, Field>, key: string): Field {
    if key in data then data[key] else Some("")
  }

  /**
   * `request_documents`: a fresh state from the candidate data, one run of
   * the graph, and the message, channel and log it leaves. Exactly one model
   * call is made, with the prompt of the routed channel.
   */
  method RequestDocuments(candidateData: map<string, Field>, generate: Prompt -> string)
    returns (requestMessage: string, requestType: string, messages: seq<string>, ghost modelCalls: seq<Prompt>)
    ensures
      var name, email, phone := Lookup(candidateData, "name"), Lookup(candidateData, "email"), Lookup(candidateData, "phone");
      var c := Route(email, phone);
      var prompt := PromptFor(c, name, email, phone, Lookup(candidateData, "company"), Lookup(candidateData, "designation"));
      && requestType == c.Key()
      && requestMessage == generate(prompt)
      && messages == [AnalyzeLog(name), GeneratedLog(c)]
    ensures
      var email, phone := Lookup(candidateData, "email"), Lookup(candidateData, "phone");
      modelCalls == [PromptFor(Route(email, phone), Lookup(candidateData, "name"), email, phone,
                               Lookup(candidateData, "company"), Lookup(candidateData, "designation"))]
  {
    var state := new AgentState(
      Lookup(candidateData, "name"), Lookup(candidateData, "email"), Lookup(candidateData, "phone"),
      Lookup(candidateData, "company"), Lookup(candidateData, "designation"));
    RunWorkflow(state, generate);
    return state.requestMessage, state.requestType, state.messages, state.modelCalls;
  }
}
