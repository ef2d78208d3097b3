/**
 * The chat application's session: the message list, the ledger of
 * generated documents, the current document and the flags, as one
 * `Session` object whose methods are the script's steps (initialisation,
 * the numbering loop, the newest-first listing, the preview buttons and
 * the submit handler). What one submission does to the session is also
 * stated as a function on values, `Handle`, so that lemmas can speak
 * about it.
 */
module StreamlitApp {
  import opened Outcomes
  import opened Strings
  import opened DocumentModels
  import opened LlmService
  import ExportService

  datatype Role = User | Assistant

  /** One chat bubble: `{"role": ..., "content": ...}`. */
  datatype Message = Message(role: Role, content: string)

  /**
   * One ledger entry: `{"type", "tone", "content", "timestamp"}` and, once
   * the numbering loop has run, `"doc_number"`. Type and tone are read
   * with `.get` and defaults, so they are optional here.
   */
  datatype Entry = Entry(docType: Option<string>, tone: Option<string>, content: string, timestamp: string,
                         docNumber: Option<nat>)

  /** The language selectbox's three options. */
  datatype Language = English | German | Both {
    function Value(): string {
      match this
      case English => "English"
      case German => "German"
      case Both => "Both"
    }
  }

  /**
   * The sidebar's widgets. The selectboxes offer the enum values only, so
   * a selection is a member; the text inputs are free text.
   */
  datatype Sidebar = Sidebar(docType: DocumentType, tone: ToneType, senderName: string, senderProfession: string,
                             language: Language)

  /** The part of the session one submission acts on. */
  datatype Ledger = Ledger(messages: seq<Message>, currentDocument: Option<string>, history: seq<Entry>,
                           isGenerating: bool, typing: bool)

  /** What a successful try block hands back: the type and tone to store and the document text. */
  datatype Produced = Produced(docType: string, tone: string, text: string)

  /** `[d["content"] for d in document_history]`. */
  function Contents(history: seq<Entry>): (docs: seq<string>)
    ensures |docs| == |history|
    ensures forall i :: 0 <= i < |history| ==> docs[i] == history[i].content
  {
    seq(|history|, i requires 0 <= i < |history| => history[i].content)
  }

  /** The contents of the assistant's messages, in order. */
  function AssistantContents(messages: seq<Message>): seq<string> {
    if messages == [] then []
    else AssistantContents(messages[..|messages| - 1])
         + (if messages[|messages| - 1].role == Assistant then [messages[|messages| - 1].content] else [])
  }

  /** An entry as the handler stores it: a type and a tone that convert back to members. */
  predicate Stored(entry: Entry) {
    && entry.docType.Some? && ParseDocumentType(entry.docType.value).Ok?
    && entry.tone.Some? && ParseToneType(entry.tone.value).Ok?
  }

  /**
   * What the session keeps true between reruns: every entry is stored as
   * the handler stores it, the assistant's messages are the entries'
   * contents, the current document is the newest entry's content, and no
   * submission is in progress.
   */
  predicate ValidLedger(ledger: Ledger) {
    && (forall i {:trigger Stored(ledger.history[i])} :: 0 <= i < |ledger.history| ==> Stored(ledger.history[i]))
    && AssistantContents(ledger.messages) == Contents(ledger.history)
    && ledger.currentDocument == (if ledger.history == [] then None
                                  else Some(ledger.history[|ledger.history| - 1].content))
    && !ledger.isGenerating && !ledger.typing
  }

  // ------------------------------------------------------------ submission

  /** The values the refine branch reads from the newest entry, and the members they convert to. */
  datatype RefineTarget = RefineTarget(typeValue: string, toneValue: string, docType: DocumentType, tone: ToneType)

  /**
   * `last_doc.get("type", doc_type)` and `last_doc.get("tone", tone)`, then
   * `DocumentType(...)` and `ToneType(...)`, in that order.
   */
  function Target(history: seq<Entry>, sidebar: Sidebar): (r: Result<RefineTarget>)
    requires history != []
    ensures var typeValue := history[|history| - 1].docType.GetOr(sidebar.docType.Value());
            var toneValue := history[|history| - 1].tone.GetOr(sidebar.tone.Value());
            && (r.Ok? <==> ParseDocumentType(typeValue).Ok? && ParseToneType(toneValue).Ok?)
            && (r.Ok? ==> r.value.typeValue == typeValue && r.value.toneValue == toneValue)
            && (r.Err? ==> r.error == InvalidEnumValue(if ParseDocumentType(typeValue).Err? then typeValue
                                                       else toneValue))
    ensures r.Ok? ==> r.value.docType.Value() == r.value.typeValue && r.value.tone.Value() == r.value.toneValue
  {
    var last := history[|history| - 1];
    var typeValue := last.docType.GetOr(sidebar.docType.Value());
    var toneValue := last.tone.GetOr(sidebar.tone.Value());
    match ParseDocumentType(typeValue)
    case Err(e) => Err(e)
    case Ok(docType) =>
      match ParseToneType(toneValue)
      case Err(e) => Err(e)
      case Ok(tone) => Ok(RefineTarget(typeValue, toneValue, docType, tone))
  }

  /**
   * What a branch of the try block stores for a model reply: the reply
   * text under the given type and tone, or the exception an empty or
   * missing reply raises.
   */
  function FromReply(reply: Reply, typeValue: string, toneValue: string): Result<Option<Produced>> {
    if reply.Replied? && reply.text != "" then Ok(Some(Produced(typeValue, toneValue, reply.text)))
    else Err(if reply.CallRaised? then ServiceFailure else EmptyResponse)
  }

  /**
   * The handler's reply check is the service's own: it succeeds exactly
   * when `generate_document` answers and `refine_document` yields chunks,
   * fails with the same exception otherwise, and stores the answered text,
   * which is also the join of the chunks.
   */
  lemma FromReplyAgrees(reply: Reply, docType: DocumentType, tone: ToneType, language: Option<string>)
    ensures var r := FromReply(reply, docType.Value(), tone.Value());
            var answer := Answer(reply, docType, tone, language);
            var chunks := ChunkedReply(reply, docType, tone);
            && (r.Ok? <==> answer.Ok?) && (r.Ok? <==> chunks.Ok?)
            && (r.Err? ==> r.error == answer.error && r.error == chunks.error)
            && (answer.Ok? ==> r.value == Some(Produced(docType.Value(), tone.Value(), answer.value.document)))
            && (chunks.Ok? ==> r.value == Some(Produced(docType.Value(), tone.Value(), Concat(Documents(chunks.value)))))
  {
    ChunkedReplyJoins(reply, docType, tone);
  }

  /**
   * The generate branch: the sidebar's type, tone, sender fields and
   * language, no additional context, bound into the type's template.
   */
  function Generate(svc: Service, prompt: string, sidebar: Sidebar): (r: Result<Option<Produced>>)
    requires Valid(svc)
    ensures r == FromReply(svc.model(BoundPrompt(sidebar.docType, sidebar.tone, prompt, Some(""), sidebar.senderName,
                                                 sidebar.senderProfession, Some(sidebar.language.Value()))),
                           sidebar.docType.Value(), sidebar.tone.Value())
  {
    match GenerateDocument(svc, sidebar.docType, sidebar.tone, prompt, Some(""), sidebar.senderName,
                           sidebar.senderProfession, Some(sidebar.language.Value()))
    case Err(e) => Err(e)
    case Ok(result) => Ok(Some(Produced(sidebar.docType.Value(), sidebar.tone.Value(), result.document)))
  }

  /**
   * The refine branch run to completion: refine the newest entry with
   * every entry's content as history, join the chunks, and store the
   * joined text when it is non-empty. The joined text is the reply
   * itself, so a reply the refinement accepts is always stored.
   */
  function RefineNewest(svc: Service, history: seq<Entry>, prompt: string, target: RefineTarget)
    : (r: Result<Option<Produced>>)
    requires history != []
    ensures r == FromReply(svc.model(RefinementPrompt(history[|history| - 1].content, prompt, target.docType,
                                                      target.tone, Contents(history))),
                           target.typeValue, target.toneValue)
  {
    var reply := svc.model(RefinementPrompt(history[|history| - 1].content, prompt, target.docType, target.tone,
                                            Contents(history)));
    ChunkedReplyJoins(reply, target.docType, target.tone);
    match Refine(svc, history[|history| - 1].content, prompt, target.docType, target.tone, Contents(history))
    case Err(e) => Err(e)
    case Ok(chunks) =>
      var full := Concat(Documents(chunks));
      if full != "" then Ok(Some(Produced(target.typeValue, target.toneValue, full))) else Ok(None)
  }

  /**
   * The try block of the submit handler, with the refinement generator run
   * to completion: construct the service; with an empty ledger generate,
   * otherwise refine the newest entry with its own type and tone and every
   * entry's content as history, and join the chunks. `Ok(None)` is a
   * refinement that joined to the empty text, which stores nothing.
   */
  function Attempt(history: seq<Entry>, prompt: string, sidebar: Sidebar, apiKey: Option<string>,
                   env: Option<string>, model: string -> Reply): Result<Option<Produced>>
  {
    match NewService(apiKey, env, model)
    case Err(e) => Err(e)
    case Ok(svc) =>
      if history == [] then Generate(svc, prompt, sidebar)
      else
        match Target(history, sidebar)
        case Err(e) => Err(e)
        case Ok(target) => RefineNewest(svc, history, prompt, target)
  }

  /**
   * The try block as the handler writes it: the refine branch iterates the
   * asynchronous generator with a plain `for`, which raises a TypeError
   * once the arguments are evaluated, so refinement never produces text.
   */
  function AttemptAsWritten(history: seq<Entry>, prompt: string, sidebar: Sidebar, apiKey: Option<string>,
                            env: Option<string>, model: string -> Reply): Result<Option<Produced>>
  {
    match NewService(apiKey, env, model)
    case Err(e) => Err(e)
    case Ok(svc) =>
      if history == [] then Generate(svc, prompt, sidebar)
      else
        match Target(history, sidebar)
        case Err(e) => Err(e)
        case Ok(_) => Err(AsyncGeneratorNotIterable)
  }

  /** Before the try block: the user's message is appended and the flags are raised. */
  function Ask(ledger: Ledger, prompt: string): Ledger {
    ledger.(messages := ledger.messages + [Message(User, prompt)], isGenerating := true, typing := true)
  }

  /**
   * After the try block: on success the assistant's message, the current
   * document and a new ledger entry; on any exception none of those; the
   * flags cleared either way.
   */
  function Conclude(ledger: Ledger, outcome: Result<Option<Produced>>, stamp: string): Ledger {
    if outcome.Ok? && outcome.value.Some? then
      var produced := outcome.value.value;
      Ledger(ledger.messages + [Message(Assistant, produced.text)], Some(produced.text),
             ledger.history + [Entry(Some(produced.docType), Some(produced.tone), produced.text, stamp, None)],
             false, false)
    else
      ledger.(isGenerating := false, typing := false)
  }

  /** The handler around the try block. */
  function Settle(ledger: Ledger, prompt: string, outcome: Result<Option<Produced>>, stamp: string): Ledger {
    Conclude(Ask(ledger, prompt), outcome, stamp)
  }

  /** One submission of the chat form: nothing happens for the empty prompt. */
  function Handle(ledger: Ledger, prompt: string, sidebar: Sidebar, apiKey: Option<string>, env: Option<string>,
                  model: string -> Reply, stamp: string): Ledger
  {
    if prompt == "" then ledger
    else Settle(ledger, prompt, Attempt(ledger.history, prompt, sidebar, apiKey, env, model), stamp)
  }

  function HandleAsWritten(ledger: Ledger, prompt: string, sidebar: Sidebar, apiKey: Option<string>,
                           env: Option<string>, model: string -> Reply, stamp: string): Ledger
  {
    if prompt == "" then ledger
    else Settle(ledger, prompt, AttemptAsWritten(ledger.history, prompt, sidebar, apiKey, env, model), stamp)
  }

  /**
   * Around the try block, whatever it produced: the user's message is
   * appended first; on success exactly one entry and one assistant message
   * with the produced text follow, the text becomes the current document,
   * and every earlier entry is left as it was; on any exception the
   * ledger and the current document are untouched. The flags end cleared.
   */
  lemma SettleEffects(ledger: Ledger, prompt: string, outcome: Result<Option<Produced>>, stamp: string)
    ensures var after := Settle(ledger, prompt, outcome, stamp);
            && after.messages[..|ledger.messages| + 1] == ledger.messages + [Message(User, prompt)]
            && !after.isGenerating && !after.typing
            && (outcome.Ok? && outcome.value.Some? ==>
                  && |after.history| == |ledger.history| + 1
                  && after.history[..|ledger.history|] == ledger.history
                  && after.history[|ledger.history|]
                     == Entry(Some(outcome.value.value.docType), Some(outcome.value.value.tone),
                              outcome.value.value.text, stamp, None)
                  && after.currentDocument == Some(outcome.value.value.text)
                  && after.messages == ledger.messages + [Message(User, prompt), Message(Assistant, outcome.value.value.text)])
            && (!(outcome.Ok? && outcome.value.Some?) ==>
                  && after.history == ledger.history
                  && after.currentDocument == ledger.currentDocument
                  && after.messages == ledger.messages + [Message(User, prompt)])
  {
    var after := Settle(ledger, prompt, outcome, stamp);
    assert after.messages[..|ledger.messages| + 1] == ledger.messages + [Message(User, prompt)];
  }

  /** Settling keeps the session's invariant when what is stored converts back to members. */
  lemma SettlePreservesValid(ledger: Ledger, prompt: string, outcome: Result<Option<Produced>>, stamp: string)
    requires ValidLedger(ledger)
    requires outcome.Ok? && outcome.value.Some? ==>
               ParseDocumentType(outcome.value.value.docType).Ok? && ParseToneType(outcome.value.value.tone).Ok?
    ensures ValidLedger(Settle(ledger, prompt, outcome, stamp))
  {
    var asked := ledger.messages + [Message(User, prompt)];
    AssistantContentsSnoc(ledger.messages, Message(User, prompt));
    if outcome.Ok? && outcome.value.Some? {
      var produced := outcome.value.value;
      var entry := Entry(Some(produced.docType), Some(produced.tone), produced.text, stamp, None);
      var history := ledger.history + [entry];
      assert Settle(ledger, prompt, outcome, stamp)
             == Ledger(asked + [Message(Assistant, produced.text)], Some(produced.text), history, false, false);
      AssistantContentsSnoc(asked, Message(Assistant, produced.text));
      assert Contents(history) == Contents(ledger.history) + [entry.content];
      forall i | 0 <= i < |history|
        ensures Stored(history[i])
      {
        if i < |ledger.history| {
          assert history[i] == ledger.history[i];
        }
      }
    } else {
      assert Settle(ledger, prompt, outcome, stamp)
             == Ledger(asked, ledger.currentDocument, ledger.history, false, false);
    }
  }

  /** Without a usable key the constructor's error is all a submission produces. */
  lemma AttemptNeedsKey(history: seq<Entry>, prompt: string, sidebar: Sidebar, apiKey: Option<string>,
                        env: Option<string>, model: string -> Reply)
    requires !Truthy(apiKey) && !Truthy(env)
    ensures Attempt(history, prompt, sidebar, apiKey, env, model) == Err(MissingApiKey)
  {
  }

  /**
   * With an empty ledger the sidebar's type, tone, sender fields and
   * language are bound into the generation prompt, and the reply is stored
   * under the sidebar's type and tone; an empty or missing reply raises.
   */
  lemma AttemptGenerates(history: seq<Entry>, prompt: string, sidebar: Sidebar, apiKey: Option<string>,
                         env: Option<string>, model: string -> Reply)
    requires Truthy(apiKey) || Truthy(env)
    requires history == []
    ensures Attempt(history, prompt, sidebar, apiKey, env, model)
            == FromReply(model(BoundPrompt(sidebar.docType, sidebar.tone, prompt, Some(""), sidebar.senderName,
                                           sidebar.senderProfession, Some(sidebar.language.Value()))),
                         sidebar.docType.Value(), sidebar.tone.Value())
  {
  }

  /**
   * With a non-empty ledger the newest entry is refined under its own
   * stored type and tone, with every entry's content as history; the
   * joined chunks are the reply itself, stored under that type and tone.
   */
  lemma AttemptRefines(history: seq<Entry>, prompt: string, sidebar: Sidebar, apiKey: Option<string>,
                       env: Option<string>, model: string -> Reply)
    requires Truthy(apiKey) || Truthy(env)
    requires history != [] && Stored(history[|history| - 1])
    ensures var last := history[|history| - 1];
            Attempt(history, prompt, sidebar, apiKey, env, model)
            == FromReply(model(RefinementPrompt(last.content, prompt, ParseDocumentType(last.docType.value).value,
                                                ParseToneType(last.tone.value).value, Contents(history))),
                         last.docType.value, last.tone.value)
  {
  }

  /** Whatever a submission stores converts back with `DocumentType(...)` and `ToneType(...)`. */
  lemma AttemptStoresMembers(history: seq<Entry>, prompt: string, sidebar: Sidebar, apiKey: Option<string>,
                             env: Option<string>, model: string -> Reply)
    ensures var outcome := Attempt(history, prompt, sidebar, apiKey, env, model);
            outcome.Ok? && outcome.value.Some? ==>
              ParseDocumentType(outcome.value.value.docType).Ok? && ParseToneType(outcome.value.value.tone).Ok?
  {
    var outcome := Attempt(history, prompt, sidebar, apiKey, env, model);
    if outcome.Ok? && outcome.value.Some? {
      if history == [] {
        assert outcome.value.value.docType == sidebar.docType.Value();
        assert outcome.value.value.tone == sidebar.tone.Value();
        DocumentTypeRoundTrip(sidebar.docType);
        ToneTypeRoundTrip(sidebar.tone);
      } else {
        var target := Target(history, sidebar).value;
        assert outcome.value.value.docType == target.typeValue && outcome.value.value.tone == target.toneValue;
      }
    }
  }

  lemma AssistantContentsSnoc(messages: seq<Message>, message: Message)
    ensures AssistantContents(messages + [message])
            == AssistantContents(messages) + (if message.role == Assistant then [message.content] else [])
  {
    assert (messages + [message])[..|messages|] == messages;
  }

  /** Every submission keeps the session's invariant. */
  lemma HandlePreservesValid(ledger: Ledger, prompt: string, sidebar: Sidebar, apiKey: Option<string>,
                             env: Option<string>, model: string -> Reply, stamp: string)
    requires ValidLedger(ledger)
    ensures ValidLedger(Handle(ledger, prompt, sidebar, apiKey, env, model, stamp))
  {
    if prompt != "" {
      var outcome := Attempt(ledger.history, prompt, sidebar, apiKey, env, model);
      AttemptStoresMembers(ledger.history, prompt, sidebar, apiKey, env, model);
      SettlePreservesValid(ledger, prompt, outcome, stamp);
    }
  }

  /**
   * On a valid session the refine branch never fails at converting the
   * stored type and tone back to members.
   */
  lemma StoredTargetConverts(ledger: Ledger, sidebar: Sidebar)
    requires ValidLedger(ledger) && ledger.history != []
    ensures Target(ledger.history, sidebar).Ok?
    ensures ledger.history[|ledger.history| - 1].docType == Some(Target(ledger.history, sidebar).value.typeValue)
  {
    assert Stored(ledger.history[|ledger.history| - 1]);
  }

  /** As written, once the ledger holds an entry no submission changes it or the current document. */
  lemma AsWrittenLedgerFrozen(ledger: Ledger, prompt: string, sidebar: Sidebar, apiKey: Option<string>,
                              env: Option<string>, model: string -> Reply, stamp: string)
    requires ledger.history != []
    ensures var after := HandleAsWritten(ledger, prompt, sidebar, apiKey, env, model, stamp);
            after.history == ledger.history && after.currentDocument == ledger.currentDocument
  {
    if prompt != "" {
      assert AttemptAsWritten(ledger.history, prompt, sidebar, apiKey, env, model).Err?;
    }
  }

  /**
   * One submission of a run: the chat input together with the settings in
   * force when it was sent, which may change from one submission to the next.
   */
  datatype Submission = Submission(prompt: string, sidebar: Sidebar, apiKey: Option<string>, env: Option<string>,
                                   model: string -> Reply, stamp: string)

  /** As written, the ledger never grows past one entry, whatever settings each submission brings. */
  lemma {:induction false} AsWrittenAtMostOne(ledger: Ledger, run: seq<Submission>)
    requires |ledger.history| <= 1
    ensures |RunAsWritten(ledger, run).history| <= 1
    decreases |run|
  {
    if run != [] {
      var s := run[0];
      var next := HandleAsWritten(ledger, s.prompt, s.sidebar, s.apiKey, s.env, s.model, s.stamp);
      if ledger.history != [] {
        AsWrittenLedgerFrozen(ledger, s.prompt, s.sidebar, s.apiKey, s.env, s.model, s.stamp);
      }
      AsWrittenAtMostOne(next, run[1..]);
    }
  }

  /** A run of submissions, each with its own settings, as written. */
  function RunAsWritten(ledger: Ledger, run: seq<Submission>): Ledger
    decreases |run|
  {
    if run == [] then ledger
    else
      var s := run[0];
      RunAsWritten(HandleAsWritten(ledger, s.prompt, s.sidebar, s.apiKey, s.env, s.model, s.stamp), run[1..])
  }

  /**
   * The input that shows the difference: one stored announcement, a
   * refinement request, a model that answers. The corrected handler
   * stores the refined text; the handler as written stores nothing.
   */
  lemma RefinementLostAsWritten()
    ensures var ledger := Ledger([Message(User, "Announce the exam"), Message(Assistant, "Dear students")],
                                 Some("Dear students"),
                                 [Entry(Some("Announcement"), Some("Neutral"), "Dear students", "09:00", None)],
                                 false, false);
            var sidebar := Sidebar(Announcement, Neutral, "", "", English);
            var model := (p: string) => Replied("Dear all");
            && Handle(ledger, "Address all staff", sidebar, Some("key"), None, model, "09:05").history
               == ledger.history + [Entry(Some("Announcement"), Some("Neutral"), "Dear all", "09:05", None)]
            && HandleAsWritten(ledger, "Address all staff", sidebar, Some("key"), None, model, "09:05").history
               == ledger.history
  {
    var history := [Entry(Some("Announcement"), Some("Neutral"), "Dear students", "09:00", None)];
    var sidebar := Sidebar(Announcement, Neutral, "", "", English);
    var model := (p: string) => Replied("Dear all");
    assert Truthy(Some("key"));
    assert Stored(history[0]);
    AttemptRefines(history, "Address all staff", sidebar, Some("key"), None, model);
  }

  // ------------------------------------------------------------ numbering

  /** `(doc.get('type', 'Unknown'), doc.get('tone', 'Neutral'))`. */
  function Key(entry: Entry): (string, string) {
    (entry.docType.GetOr("Unknown"), entry.tone.GetOr("Neutral"))
  }

  /** How many entries of `history` have the key `key`. */
  function CountKey(history: seq<Entry>, key: (string, string)): nat {
    if history == [] then 0
    else CountKey(history[..|history| - 1], key) + (if Key(history[|history| - 1]) == key then 1 else 0)
  }

  /** Each entry numbered by how many entries up to and including it share its key. */
  function Numbered(history: seq<Entry>): (numbered: seq<Entry>)
    ensures |numbered| == |history|
  {
    seq(|history|, i requires 0 <= i < |history| =>
      history[i].(docNumber := Some(CountKey(history[..i + 1], Key(history[i])))))
  }

  lemma CountKeyLast(history: seq<Entry>, i: nat)
    requires i < |history|
    ensures CountKey(history[..i + 1], Key(history[i])) == CountKey(history[..i], Key(history[i])) + 1
  {
    assert history[..i + 1][..i] == history[..i];
  }

  /** The count over a prefix never exceeds the count over a longer prefix. */
  lemma {:induction false} CountKeyMonotone(history: seq<Entry>, m: nat, n: nat, key: (string, string))
    requires m <= n <= |history|
    ensures CountKey(history[..m], key) <= CountKey(history[..n], key)
    decreases n - m
  {
    if m < n {
      CountKeyMonotone(history, m, n - 1, key);
      assert history[..n][..n - 1] == history[..n - 1];
    }
  }

  /** The count depends on the keys alone. */
  lemma {:induction false} CountKeyByKeys(a: seq<Entry>, b: seq<Entry>, key: (string, string))
    requires |a| == |b|
    requires forall i :: 0 <= i < |a| ==> Key(a[i]) == Key(b[i])
    ensures CountKey(a, key) == CountKey(b, key)
    decreases |a|
  {
    if a != [] {
      CountKeyByKeys(a[..|a| - 1], b[..|b| - 1], key);
    }
  }

  /**
   * Numbering changes nothing but the numbers, and every number is at
   * least 1.
   */
  lemma NumberedKeepsEntries(history: seq<Entry>, i: nat)
    requires i < |history|
    ensures Numbered(history)[i].(docNumber := history[i].docNumber) == history[i]
    ensures Key(Numbered(history)[i]) == Key(history[i])
    ensures Numbered(history)[i].docNumber.Some? && Numbered(history)[i].docNumber.value >= 1
  {
    CountKeyLast(history, i);
  }

  /**
   * Within one key the numbers strictly increase along the ledger, so two
   * entries of the same type and tone never share a number.
   */
  lemma NumberedIncreasing(history: seq<Entry>, i: nat, j: nat)
    requires i < j < |history| && Key(history[i]) == Key(history[j])
    ensures Numbered(history)[i].docNumber.value < Numbered(history)[j].docNumber.value
  {
    CountKeyLast(history, j);
    CountKeyMonotone(history, i + 1, j, Key(history[j]));
  }

  /** The loop resets its counts on every rerun, so numbering twice gives the same numbers. */
  lemma NumberedIdempotent(history: seq<Entry>)
    ensures Numbered(Numbered(history)) == Numbered(history)
  {
    var once := Numbered(history);
    var twice := Numbered(once);
    forall i | 0 <= i < |history|
      ensures twice[i] == once[i]
    {
      forall k | 0 <= k < i + 1
        ensures Key(once[k]) == Key(history[k])
      {
        NumberedKeepsEntries(history, k);
      }
      var key := Key(history[i]);
      assert Key(once[i]) == key;
      CountKeyByKeys(once[..i + 1], history[..i + 1], key);
      assert twice[i] == once[i].(docNumber := Some(CountKey(once[..i + 1], key)));
      assert once[i] == history[i].(docNumber := Some(CountKey(history[..i + 1], key)));
    }
  }

  /** Numbering keeps the session's invariant: types, tones and contents are untouched. */
  lemma NumberedKeepsValid(ledger: Ledger)
    requires ValidLedger(ledger)
    ensures ValidLedger(ledger.(history := Numbered(ledger.history)))
  {
    var numbered := Numbered(ledger.history);
    forall i | 0 <= i < |numbered|
      ensures numbered[i].(docNumber := ledger.history[i].docNumber) == ledger.history[i]
      ensures Stored(numbered[i])
    {
      NumberedKeepsEntries(ledger.history, i);
      assert Stored(ledger.history[i]);
    }
    assert Contents(numbered) == Contents(ledger.history);
  }

  // ------------------------------------------------------------ listing

  function Reverse<T>(s: seq<T>): seq<T> {
    if s == [] then [] else Reverse(s[1..]) + [s[0]]
  }

  /** `reversed(...)`: the idx-th item is the (idx+1)-th from the end. */
  lemma {:induction false} ReverseIndex<T>(s: seq<T>)
    ensures |Reverse(s)| == |s|
    ensures forall idx :: 0 <= idx < |s| ==> Reverse(s)[idx] == s[|s| - (idx + 1)]
  {
    if s != [] {
      ReverseIndex(s[1..]);
    }
  }

  /** `content[:100]` followed by `'...'` when the content is longer than 100. */
  function Snippet(content: string): (r: string)
    ensures |content| <= 100 ==> r == content
    ensures |content| > 100 ==> |r| == 103 && r[..100] == content[..100] && r[100..] == "..."
  {
    content[..Min(100, |content|)] + (if |content| > 100 then "..." else "")
  }

  /** The download file name: `TUM_{type}_{tone}.{extension}` with `Document` and `Neutral` as defaults. */
  function DownloadName(entry: Entry, extension: string): (r: string)
    ensures var typeValue := entry.docType.GetOr("Document");
            var toneValue := entry.tone.GetOr("Neutral");
            && |r| == 4 + |typeValue| + 1 + |toneValue| + 1 + |extension|
            && r[..4 + |typeValue|] == "TUM_" + typeValue
            && r[|r| - |extension| - 1..] == "." + extension
  {
    "TUM_" + entry.docType.GetOr("Document") + "_" + entry.tone.GetOr("Neutral") + "." + extension
  }

  /** `str(value)` of an optional string: Python prints a missing value as `None`. */
  function Shown(value: Option<string>): string {
    if value.Some? then value.value else "None"
  }

  /**
   * `{"doc_type": doc.get('type'), "tone": doc.get('tone')}`, the metadata
   * the sidebar exports with. Both keys are always present, so the
   * exporters' defaults never apply. A missing type is `None`, which the
   * exporters' `_create_filename` calls `.lower()` on, so that export
   * raises AttributeError; a missing tone is printed as `None`.
   */
  function ExportMetadata(entry: Entry): Result<ExportService.Metadata> {
    if entry.docType.None? then Err(NoneAttribute("lower"))
    else Ok(map["doc_type" := entry.docType.value, "tone" := Shown(entry.tone)])
  }

  /**
   * The sidebar's export succeeds exactly for an entry with a type, and
   * then its heading, tone line and file name carry the stored values;
   * every entry of a valid session has one.
   */
  lemma ExportMetadataHeading(entry: Entry)
    ensures ExportMetadata(entry).Ok? <==> entry.docType.Some?
    ensures ExportMetadata(entry).Err? ==> ExportMetadata(entry).error == NoneAttribute("lower")
    ensures ExportMetadata(entry).Ok? ==>
              && ExportService.Title(ExportMetadata(entry).value) == "TUM " + entry.docType.value
              && ExportService.ToneLine(ExportMetadata(entry).value) == "Tone: " + Shown(entry.tone)
              && ExportService.FilenameType(ExportMetadata(entry).value) == entry.docType.value
    ensures Stored(entry) ==> ExportMetadata(entry).Ok?
  {
    if entry.docType.Some? {
      var metadata := ExportMetadata(entry).value;
      assert metadata["doc_type"] == entry.docType.value;
      assert metadata["tone"] == Shown(entry.tone);
    }
  }

  /** What the sidebar shows for one entry. */
  datatype HistoryItem = HistoryItem(title: string, snippet: string, pdfName: string, docxName: string,
                                     exported: Result<ExportService.Metadata>)

  /** `[{type}_{tone}_{doc_number}]`, the snippet, the download names and the export metadata. */
  function Item(entry: Entry): HistoryItem
    requires entry.docNumber.Some?
  {
    HistoryItem("[" + entry.docType.GetOr("Unknown") + "_" + entry.tone.GetOr("Neutral") + "_"
                + NatToString(entry.docNumber.value) + "]",
                Snippet(entry.content), DownloadName(entry, "pdf"), DownloadName(entry, "docx"),
                ExportMetadata(entry))
  }

  // ------------------------------------------------------------ session

  /** `st.session_state` as the script uses it. */
  class Session {
    var messages: seq<Message>
    var currentDocument: Option<string>
    var documentHistory: seq<Entry>
    var isGenerating: bool
    var typing: bool
    var inputKey: nat
    var showPreview: bool
    var previewDocIdx: Option<nat>
    var promptInput: string

    /** The first run's initialisation of every key. */
    constructor ()
      ensures messages == [] && currentDocument == None && documentHistory == []
      ensures !isGenerating && !typing
      ensures inputKey == 0 && !showPreview && previewDocIdx == None && promptInput == ""
      ensures Valid()
    {
      messages := [];
      currentDocument := None;
      documentHistory := [];
      isGenerating := false;
      typing := false;
      inputKey := 0;
      showPreview := false;
      previewDocIdx := None;
      promptInput := "";
    }

    function State(): Ledger
      reads this
    {
      Ledger(messages, currentDocument, documentHistory, isGenerating, typing)
    }

    /** The ledger invariant, and a preview index that names a listed entry. */
    predicate Valid()
      reads this
    {
      ValidLedger(State()) && (previewDocIdx.Some? ==> previewDocIdx.value < |documentHistory|)
    }

    /** The sidebar's numbering step, which keeps the session valid. */
    method NumberHistory()
      requires Valid()
      modifies this
      ensures documentHistory == Numbered(old(documentHistory))
      ensures messages == old(messages) && currentDocument == old(currentDocument)
      ensures isGenerating == old(isGenerating) && typing == old(typing) && inputKey == old(inputKey)
      ensures showPreview == old(showPreview) && previewDocIdx == old(previewDocIdx)
      ensures promptInput == old(promptInput)
      ensures Valid()
    {
      NumberEntries();
      NumberedKeepsValid(old(State()));
    }

    /** The numbering loop: counts per (type, tone) key, written into each entry in place. */
    method NumberEntries()
      modifies this
      ensures documentHistory == Numbered(old(documentHistory))
      ensures messages == old(messages) && currentDocument == old(currentDocument)
      ensures isGenerating == old(isGenerating) && typing == old(typing) && inputKey == old(inputKey)
      ensures showPreview == old(showPreview) && previewDocIdx == old(previewDocIdx)
      ensures promptInput == old(promptInput)
    {
      ghost var original := documentHistory;
      ghost var numbered := Numbered(original);
      var docCounts: map<(string, string), nat> := map[];
      var i := 0;
      while i < |documentHistory|
        invariant 0 <= i <= |documentHistory| == |original|
        invariant forall k :: 0 <= k < i ==> documentHistory[k] == numbered[k]
        invariant forall k :: i <= k < |documentHistory| ==> documentHistory[k] == original[k]
        invariant forall key :: key in docCounts ==> docCounts[key] == CountKey(original[..i], key)
        invariant forall key :: key !in docCounts ==> CountKey(original[..i], key) == 0
        invariant messages == old(messages) && currentDocument == old(currentDocument)
        invariant isGenerating == old(isGenerating) && typing == old(typing) && inputKey == old(inputKey)
        invariant showPreview == old(showPreview) && previewDocIdx == old(previewDocIdx)
        invariant promptInput == old(promptInput)
      {
        var doc := documentHistory[i];
        var key := Key(doc);
        var count := (if key in docCounts then docCounts[key] else 0) + 1;
        docCounts := docCounts[key := count];
        assert original[..i + 1][..i] == original[..i];
        assert count == CountKey(original[..i + 1], key);
        documentHistory := documentHistory[i := doc.(docNumber := Some(count))];
        i := i + 1;
      }
      assert documentHistory == numbered;
    }

    /** The sidebar's listing, newest first. */
    method ListHistory() returns (items: seq<HistoryItem>)
      requires forall i :: 0 <= i < |documentHistory| ==> documentHistory[i].docNumber.Some?
      ensures |items| == |documentHistory|
      ensures forall idx :: 0 <= idx < |items| ==>
                items[idx] == Item(documentHistory[|documentHistory| - (idx + 1)])
    {
      var newestFirst := Reverse(documentHistory);
      ReverseIndex(documentHistory);
      items := [];
      for idx := 0 to |newestFirst|
        invariant |items| == idx
        invariant forall k :: 0 <= k < idx ==> items[k] == Item(newestFirst[k])
      {
        items := items + [Item(newestFirst[idx])];
      }
    }

    /** The Preview button of the idx-th listed item. */
    method PressPreview(idx: nat)
      requires Valid() && idx < |documentHistory|
      modifies this
      ensures showPreview && previewDocIdx == Some(idx)
      ensures State() == old(State()) && inputKey == old(inputKey) && promptInput == old(promptInput)
      ensures Previewed() == Some(documentHistory[|documentHistory| - (idx + 1)])
      ensures Valid()
    {
      ghost var before := State();
      showPreview := true;
      previewDocIdx := Some(idx);
      assert State() == before;
    }

    /** The Close Preview button. */
    method ClosePreview()
      requires Valid()
      modifies this
      ensures !showPreview && previewDocIdx == None
      ensures State() == old(State()) && inputKey == old(inputKey) && promptInput == old(promptInput)
      ensures Previewed() == None
      ensures Valid()
    {
      ghost var before := State();
      showPreview := false;
      previewDocIdx := None;
      assert State() == before;
    }

    /**
     * The entry the preview shows: `document_history[-(preview_doc_idx+1)]`.
     * The index is always in range on a valid session.
     */
    function Previewed(): Option<Entry>
      reads this
    {
      if showPreview && previewDocIdx.Some? && previewDocIdx.value < |documentHistory| then
        Some(documentHistory[|documentHistory| - (previewDocIdx.value + 1)])
      else None
    }

    /** One press of Send: the handler of the chat form. */
    method Submit(prompt: string, sidebar: Sidebar, apiKey: Option<string>, env: Option<string>,
                  model: string -> Reply, stamp: string)
      requires Valid()
      modifies this
      ensures State() == Handle(old(State()), prompt, sidebar, apiKey, env, model, stamp)
      ensures inputKey == old(inputKey) && showPreview == old(showPreview) && previewDocIdx == old(previewDocIdx)
      ensures promptInput == old(promptInput)
      ensures Valid()
    {
      if prompt == "" {
        return;
      }
      ghost var before := State();
      isGenerating := true;
      typing := true;
      messages := messages + [Message(User, prompt)];
      assert State() == Ask(before, prompt);
      var outcome := Request(documentHistory, prompt, sidebar, apiKey, env, model);
      Record(outcome, stamp);
      HandlePreservesValid(before, prompt, sidebar, apiKey, env, model, stamp);
    }

    /** The handler's effects once the try block is done. */
    method Record(outcome: Result<Option<Produced>>, stamp: string)
      modifies this
      ensures State() == Conclude(old(State()), outcome, stamp)
      ensures inputKey == old(inputKey) && showPreview == old(showPreview) && previewDocIdx == old(previewDocIdx)
      ensures promptInput == old(promptInput)
    {
      if outcome.Ok? && outcome.value.Some? {
        var produced := outcome.value.value;
        currentDocument := Some(produced.text);
        messages := messages + [Message(Assistant, produced.text)];
        documentHistory := documentHistory
                           + [Entry(Some(produced.docType), Some(produced.tone), produced.text, stamp, None)];
      }
      isGenerating := false;
      typing := false;
    }
  }

  /** `[chunk["document"] for chunk in ...]`, collected one chunk at a time. */
  method CollectDocuments(chunks: seq<Chunk>) returns (refinedChunks: seq<string>)
    ensures refinedChunks == Documents(chunks)
  {
    refinedChunks := [];
    for i := 0 to |chunks|
      invariant |refinedChunks| == i
      invariant forall k :: 0 <= k < i ==> refinedChunks[k] == chunks[k].document
    {
      refinedChunks := refinedChunks + [chunks[i].document];
    }
  }

  /** The refine branch of the try block. */
  method RefineBranch(llm: Service, history: seq<Entry>, prompt: string, target: RefineTarget)
    returns (outcome: Result<Option<Produced>>)
    requires history != []
    ensures outcome == RefineNewest(llm, history, prompt, target)
  {
    var lastDoc := history[|history| - 1];
    var historyDocs := Contents(history);
    var chunks := RefineDocument(llm, lastDoc.content, prompt, target.docType, target.tone, historyDocs);
    if chunks.Err? {
      return Err(chunks.error);
    }
    var refinedChunks := CollectDocuments(chunks.value);
    var fullResponse := Concat(refinedChunks);
    if fullResponse != "" {
      return Ok(Some(Produced(target.typeValue, target.toneValue, fullResponse)));
    }
    return Ok(None);
  }

  /** The try block, step by step: service, then the branch the ledger selects. */
  method Request(history: seq<Entry>, prompt: string, sidebar: Sidebar, apiKey: Option<string>,
                 env: Option<string>, model: string -> Reply) returns (outcome: Result<Option<Produced>>)
    ensures outcome == Attempt(history, prompt, sidebar, apiKey, env, model)
  {
    var service := NewService(apiKey, env, model);
    if service.Err? {
      return Err(service.error);
    }
    if history != [] {
      var target := Target(history, sidebar);
      if target.Err? {
        return Err(target.error);
      }
      outcome := RefineBranch(service.value, history, prompt, target.value);
    } else {
      outcome := Generate(service.value, prompt, sidebar);
    }
  }
}
