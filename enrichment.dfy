/**
  `POST /api/gemini-techno/:notionDatabaseId`: validate the request, query the database for the
  records whose status is "Debut", then for each record in turn build a prompt, ask the generator,
  extract a competitor name, write it back when there is one, and send one e-mail.

  The collaborators are inputs: the outcome of the query, and for the record at each position the
  generated text (`None` when generation threw). The effects are outputs: the query issued, and
  per record the prompt sent to the generator, the patch issued (if any) and the e-mail sent.
 */
module Enrichment {
  import opened Wrappers
  import opened JsSemantics
  import opened Notion
  import opened Mappers
  import opened Routes
  import opened NameExtraction

  const MissingDatabaseId: string := "L'ID de la base Notion est requis."
  const MissingRecipient: string := "L'email du destinataire est requis."
  const MalformedQueryReply: string := "Réponse de Notion vide ou mal formée."
  const ProcessingFailed: string := "Erreur lors de la récupération des données ou du traitement."
  const ReportsSent: string := "Les rapports ont été envoyés par email avec succès."

  /** The filtered query: records whose "Competitor Status" select equals "Debut". */
  datatype DatabaseQuery = DatabaseQuery(databaseId: string, filterProperty: string, equals: string)
  const StatusProperty: string := "Competitor Status"
  const StartStatus: string := "Debut"

  /** The write-back: the page's "Nom du concurrent" title set to the extracted name. */
  datatype PatchCall = PatchCall(pageId: string, property: string, name: string)
  const NameProperty: string := "Nom du concurrent"

  const Subject: string := "Rapport de Veille Technologique et Prompt"
  const NoGeneratedName: string := "Pas de nom généré par Gemini"

  /** The data the e-mail's HTML shows, each as the template literal renders it. */
  datatype Report = Report(
    titre: string, identifiant: string, url: string, date: string, content: string,
    prompt: string, generatedName: string)

  datatype Email = Email(to: string, subject: string, report: Report)

  /** What the handler does for one record. */
  datatype Step = Step(generationPrompt: string, patch: Option<PatchCall>, email: Email)

  /** A request value that passes `if (!value)`: present and not empty. */
  predicate IsGiven(v: Option<string>) {
    v.Some? && v.value != ""
  }

  const Indent: string := "\n                "

  /** The fixed text of the prompt template around its four placeholders. */
  const PromptIntro: string :=
    Indent + "Voici les informations sur mon projet :"
    + Indent + "YAPA est une solution d'agrégation de paiements accessible à la fois en tant qu'application web et mobile. "
    + Indent + "Voici les informations sur un concurrent :"
    + "\n" + Indent + "URL : "
  const TitleLabel: string := Indent + "Titre : "
  const ContentLabel: string := Indent + "Contenu : "
  const DateLabel: string := Indent + "Date de publication : "
  const PromptOutro: string :=
    "\n" + Indent + "Recherche le nom du concurrent à partir de ces informations et donne uniquement le nom."
    + Indent + "Tu vas uniquement dire Le nom est: 'le_nom'"
    + "\n            "

  /** The prompt template, filled with the record's URL, title, content and publication date. */
  function Prompt(t: TaskRecord): string {
    PromptIntro + TemplateText(t.url) + TitleLabel + TemplateText(t.titre) + ContentLabel + TemplateText(t.content)
    + DateLabel + TemplateText(t.date) + PromptOutro
  }

  /** `competitorName || 'Pas de nom généré par Gemini'`. */
  function NameOrPlaceholder(name: Option<string>): (text: string)
    ensures text != ""
    ensures IsGiven(name) ==> text == name.value
    ensures !IsGiven(name) ==> text == NoGeneratedName
  {
    if IsGiven(name) then name.value else NoGeneratedName
  }

  /** The e-mail's data: the record's fields, the prompt verbatim, and the name or its placeholder. */
  function ReportOf(t: TaskRecord, prompt: string, name: Option<string>): Report {
    Report(TemplateText(t.titre), TemplateText(t.identifiant), TemplateText(t.url), TemplateText(t.date),
           TemplateText(t.content), prompt, NameOrPlaceholder(name))
  }

  /** The task records of the query's answer, one per page and in order, or the error that aborts the request. */
  function TasksOf(query: Result<Reply<Page>, JsError>): (r: Result<seq<TaskRecord>, JsError>)
    ensures r.Success? <==> (ResultsOf(query, MalformedQueryReply).Success?
                             && forall p :: p in ResultsOf(query, MalformedQueryReply).value ==> p.properties.Some?)
    ensures r.Success? ==> var pages := ResultsOf(query, MalformedQueryReply).value;
      |r.value| == |pages| && forall i :: 0 <= i < |pages| ==> Success(r.value[i]) == MapTask(pages[i])
    ensures r.Failure? ==> match ResultsOf(query, MalformedQueryReply)
                           case Failure(e) => r.error == e
                           case Success(_) => r.error == ReadOfUndefined("Identifiant")
  {
    match ResultsOf(query, MalformedQueryReply)
    case Failure(e) => Failure(e)
    case Success(pages) => ArrayMap(pages, MapTask)
  }

  /**
    `step` is what the handler does for `task` when the generator answered `generated`: the prompt
    goes to the generator; a patch with exactly the extracted name is issued if and only if that
    name is non-empty; one e-mail goes to `to` with the record's fields, the prompt, and the name
    or its placeholder.
   */
  predicate Handles(step: Step, task: TaskRecord, generated: Option<string>, to: string) {
    var name := CompetitorName(generated);
    && step.generationPrompt == Prompt(task)
    && (step.patch.Some? <==> IsGiven(name))
    && (step.patch.Some? ==> step.patch.value == PatchCall(task.id, NameProperty, name.value))
    && step.email == Email(to, Subject, ReportOf(task, Prompt(task), name))
  }

  /**
    The handler. A missing or empty database id is rejected first, then a missing or empty
    recipient, both with 400 and before any remote call. Otherwise the query is issued; if it throws
    or its answer is malformed the answer is 500 and nothing else happens; if not, every record is
    handled in order, and the answer is 200 whatever happened to the generations and patches.
   */
  method EnrichmentHandler(
    databaseId: Option<string>, recipientEmail: Option<string>,
    query: Result<Reply<Page>, JsError>, generate: nat -> Option<string>)
    returns (response: HttpResponse, issued: Option<DatabaseQuery>, steps: seq<Step>)
    ensures !IsGiven(databaseId) ==>
      response == HttpResponse(400, Rejected(MissingDatabaseId)) && issued == None && steps == []
    ensures IsGiven(databaseId) && !IsGiven(recipientEmail) ==>
      response == HttpResponse(400, Rejected(MissingRecipient)) && issued == None && steps == []
    ensures IsGiven(databaseId) && IsGiven(recipientEmail) ==>
      issued == Some(DatabaseQuery(databaseId.value, StatusProperty, StartStatus))
    ensures IsGiven(databaseId) && IsGiven(recipientEmail) && TasksOf(query).Failure? ==>
      response == HttpResponse(500, Failed(ProcessingFailed, TasksOf(query).error.message)) && steps == []
    ensures IsGiven(databaseId) && IsGiven(recipientEmail) && TasksOf(query).Success? ==>
      var tasks := TasksOf(query).value;
      && response == HttpResponse(200, Done(ReportsSent))
      && |steps| == |tasks|
      && forall j :: 0 <= j < |tasks| ==> Handles(steps[j], tasks[j], generate(j), recipientEmail.value)
  {
    issued, steps := None, [];
    if !IsGiven(databaseId) {
      response := HttpResponse(400, Rejected(MissingDatabaseId));
      return;
    }
    if !IsGiven(recipientEmail) {
      response := HttpResponse(400, Rejected(MissingRecipient));
      return;
    }
    issued := Some(DatabaseQuery(databaseId.value, StatusProperty, StartStatus));
    var notionData := TasksOf(query);
    if notionData.Failure? {
      response := HttpResponse(500, Failed(ProcessingFailed, notionData.error.message));
      return;
    }
    var tasks := notionData.value;
    steps := HandleAll(tasks, generate, recipientEmail.value);
    response := HttpResponse(200, Done(ReportsSent));
  }

  /** The loop over the records, in order. */
  method HandleAll(tasks: seq<TaskRecord>, generate: nat -> Option<string>, to: string) returns (steps: seq<Step>)
    ensures |steps| == |tasks|
    ensures forall j :: 0 <= j < |tasks| ==> Handles(steps[j], tasks[j], generate(j), to)
  {
    steps := [];
    var i := 0;
    while i < |tasks|
      invariant 0 <= i <= |tasks|
      invariant |steps| == i
      invariant forall j :: 0 <= j < i ==> Handles(steps[j], tasks[j], generate(j), to)
    {
      var step := HandleRecord(tasks[i], generate(i), to);
      steps := steps + [step];
      i := i + 1;
    }
  }

  /** The body of the loop, for one record and the generator's answer to its prompt. */
  method HandleRecord(data: TaskRecord, generatedText: Option<string>, to: string) returns (step: Step)
    ensures Handles(step, data, generatedText, to)
  {
    var prompt := Prompt(data);
    var competitorName := CompetitorName(generatedText);
    var patch := None;
    if IsGiven(competitorName) {
      patch := Some(PatchCall(data.id, NameProperty, competitorName.value));
    }
    var email := Email(to, Subject, ReportOf(data, prompt, competitorName));
    step := Step(prompt, patch, email);
  }

  /**
    A reply `Le nom est : <name>` for a well-formed name patches the record's page with exactly
    that name, and the e-mail reports it.
   */
  lemma NamedReplyIsPatched(step: Step, task: TaskRecord, name: string, to: string)
    requires name != "" && HasNoLineTerminator(name) && IsTrimmed(name)
    requires Handles(step, task, Some(Marker + name), to)
    ensures step.patch == Some(PatchCall(task.id, NameProperty, name))
    ensures step.email.to == to && step.email.report.generatedName == name
  {
    ReplyRoundTrip(name);
  }

  /**
    A failed generation, a refusal, or a reply in the very format the prompt requests
    (`Le nom est: '<name>'`) issues no patch; the e-mail is still sent, with the placeholder.
   */
  lemma UnmatchedReplyIsNotPatched(step: Step, task: TaskRecord, generated: Option<string>, to: string)
    requires generated == None || generated == Some("I cannot determine a name")
          || (generated.Some? && exists name :: ':' !in name && generated.value == "Le nom est: '" + name + "'")
    requires Handles(step, task, generated, to)
    ensures step.patch == None
    ensures step.email.to == to && step.email.report.generatedName == NoGeneratedName
    ensures step.email.report.prompt == step.generationPrompt
  {
    if generated == Some("I cannot determine a name") {
      RefusalGivesNoName(generated.value);
    } else if generated.Some? {
      var name :| ':' !in name && generated.value == "Le nom est: '" + name + "'";
      PromptFormatIsMissed(name);
    }
  }

  /** Every e-mail shows the record's title, URL, date and content as text, never empty, placeholders included. */
  lemma ReportFieldsNeverEmpty(step: Step, page: Page, generated: Option<string>, to: string)
    requires MapTask(page).Success?
    requires Handles(step, MapTask(page).value, generated, to)
    ensures var r := step.email.report;
      r.titre != "" && r.url != "" && r.date != "" && r.content != "" && r.generatedName != ""
  {
  }
}
