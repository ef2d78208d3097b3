# TUM-Admin: a verified model of the document assistant's core

TUM-Admin is a small Streamlit assistant. It drafts administrative emails for the
Technical University of Munich (announcements, student communications and meeting
summaries) with a Gemini model. It then refines them turn by turn and exports them
to PDF, DOCX or plain text. This project models the deterministic logic around the
model call and proves what that logic promises.

- `outcomes.dfy` (`Outcomes`) holds `Option`, `Result` and the errors the core
  raises: the missing API key, an empty or failed model reply, an invalid enum
  value, an unsupported export format, a too-short refinement, and a string
  method called on `None`.
- `strings.dfy` (`Strings`) holds the pieces of Python string behaviour the core
  uses: `"".join`, `"=" * n`, ASCII `lower`, one-character `replace`, `str(n)`
  and `os.path.join`.
- `document_models.dfy` (`DocumentModels`) holds the three string-valued enums,
  value-to-member conversion, the `DocumentRequest` defaults and the
  `RefinementRequest` length rule.
- `formatting.dfy` (`Formatting`) models `str.format` with keyword arguments. A
  template is a sequence of literal and placeholder segments. Binding is one pass
  of substitution, so a bound value is never scanned again.
- `llm_service.dfy` (`LlmService`) covers the service:
  - the constructor's key check;
  - the tone instruction table;
  - the three generation templates;
  - `generate_document`, with its defaults, empty-reply error and metadata;
  - `refine_document`, with its history section (built but never bound), its
    refinement prompt and its 50-character chunking.

  The Gemini model is a function parameter from the prompt to a reply.
- `template_text.dfy` (`TemplateText`) shows that the literal text of the three
  templates and of the four tone sentences contains no `{`. So no `{name}`
  marker survives in a generation prompt unless a caller's own value brings one.
- `export_service.dfy` (`ExportService`) covers the exporter:
  - file names;
  - the metadata defaults;
  - the PDF and DOCX documents, kept as the sequence of drawing calls each
    exporter makes;
  - the text file, as the string written;
  - the case-sensitive format dispatch.
- `streamlit_app.dfy` (`StreamlitApp`) models the session state as a class
  `Session`:
  - its initialisation;
  - the per-(type, tone) numbering loop;
  - the newest-first history listing, with snippets, download names and preview;
  - the submit handler, which generates or refines and then appends or leaves
    the ledger alone.

  The values behind it are the ledger, the submission functions and their
  lemmas. The submit handler exists twice. `HandleAsWritten` is the code as
  written. `Handle` is the evidently intended one, which the class uses. See
  "## Findings".

Clocks, the temporary directory, the API key sources and the model are parameters.

## Model

| member | source | states |
|---|---|---|
| Strings.Concat | streamlit_app.py:249 | joining a single part gives that part |
| Strings.ConcatAppend | streamlit_app.py:249 | joining the concatenation of two part lists is the concatenation of their joins |
| Strings.Repeat | export_service.py:44 | `c * n` has length n and every character is c |
| Strings.Lower | export_service.py:17 | lower-casing keeps the length and lowers each character in place |
| Strings.ReplaceChar | export_service.py:17 | the replacement keeps the length, swaps every `from` for `to` and keeps every other character |
| Strings.NatToString | llm_service.py:163 | `str(n)` is a non-empty run of decimal digits whose decimal value is n, with no leading zero unless n is 0 |
| Strings.DigitCharValue | llm_service.py:163 | each digit character has the value of its digit, and only 0 prints as '0' |
| Strings.PathJoin | export_service.py:34 | `os.path.join(dir, name)` starts with dir and ends with name, with one `/` between them exactly when dir is non-empty and does not already end in `/` |
| DocumentModels.ParseDocumentType | document_models.py:5-8 | conversion succeeds only with a member whose value is the input; otherwise ValueError for that value |
| DocumentModels.ParseToneType | document_models.py:10-14 | the same for tones |
| DocumentModels.ParseExportFormat | document_models.py:16-19 | the same for export formats |
| DocumentModels.DocumentTypesEnumerated | document_models.py:5-8 | the options list has exactly three members, holds every member and has pairwise distinct values |
| DocumentModels.ToneTypesEnumerated | document_models.py:10-14 | the same with four tones |
| DocumentModels.DocumentTypeRoundTrip | document_models.py:5-8 | converting a member's value gives back that member |
| DocumentModels.ToneTypeRoundTrip | document_models.py:10-14 | converting a tone's value gives back that tone, including "Firm but polite" |
| DocumentModels.ExportFormatRoundTrip | document_models.py:16-19 | converting a format's tag gives back that format |
| DocumentModels.ValuesInjective | document_models.py:5-19 | within each enum, equal values mean equal members |
| DocumentModels.NewDocumentRequest | document_models.py:21-28 | the three required fields are kept; context, sender name and profession default to None and language to "English" |
| DocumentModels.NewRefinementRequest | document_models.py:30-31 | accepted iff the instruction has at least 10 characters, which it keeps; otherwise a too-short error with the length |
| Formatting.Format | llm_service.py:130-137 | formatting succeeds iff every placeholder has an argument, and then gives the substituted text; a failure names a placeholder with no argument |
| Formatting.FieldNamesAppend | llm_service.py:31-53 | the placeholders of two joined templates are those of the first followed by those of the second |
| Formatting.FillAppend | llm_service.py:130-137 | substitution distributes over joining templates |
| Formatting.FillFieldVerbatim | llm_service.py:130-137 | a bound value appears verbatim in its slot, between the substitutions of what precedes and follows it |
| Formatting.FillDependsOnlyOnFields | llm_service.py:178-184 | arguments that the template has no placeholder for do not change the result |
| Formatting.TextThenFields | llm_service.py:46-51 | a literal followed by one placeholder has exactly that placeholder |
| Formatting.TextThenFill | llm_service.py:46-51 | binding it gives the literal followed by the argument |
| Formatting.NoMarkerSurvives | llm_service.py:129-137 | when neither the literals nor the arguments contain `{`, no `{` is left in the bound text |
| LlmService.ToneLookupTotal | llm_service.py:110-117 | each tone maps to its fixed sentence; any other key, including "Firm", maps to the Neutral sentence |
| LlmService.ToneInstructionFor | llm_service.py:110-117 | no contract of its own; stated by ToneLookupTotal |
| LlmService.ToneInstruction | llm_service.py:110-117 | no contract of its own; `_get_tone_instructions(tone)`, stated by ToneLookupTotal |
| LlmService.GenerationTemplateFields | llm_service.py:31-107 | every generation template's placeholders are language, prompt, tone, sender name, sender profession, language and additional context, in that order |
| LlmService.GenerationTemplateFill | llm_service.py:31-107 | binding a generation template gives its literal text with each argument in its slot |
| LlmService.GenerationTemplateFormat | llm_service.py:129-137 | with all six arguments present, formatting a generation template succeeds |
| LlmService.GenerationTemplateLiterals | llm_service.py:46-51 | the fixed labels between the fields of the shared shape contain no `{` |
| LlmService.BoundNoMarker | llm_service.py:129-137 | when the template's literal text and every bound value are free of `{`, no `{name}` marker survives in the bound prompt; for the three real templates the literal-text premise is discharged by TemplateText.PromptNoMarker |
| LlmService.NewService | llm_service.py:15-18 | the service is created iff the explicit key or the environment key is truthy; otherwise it fails with the missing-key error; the explicit key wins |
| LlmService.BindingLayout | llm_service.py:129-137 | the bound prompt places the defaulted language twice, the prompt, the tone's instruction sentence, the sender fields and the context defaulted to "" |
| LlmService.BoundPrompt | llm_service.py:129-137 | no contract of its own; the `template.format(...)` call, stated by BindingLayout, BoundNoMarker and TemplateText.PromptNoMarker |
| TemplateText.PreambleBraceFree | llm_service.py:33 | the opening paragraph shared by the three templates contains no `{` |
| TemplateText.OutputRuleBraceFree | llm_service.py:35 | the output rule after the first `{language}` field contains no `{` |
| TemplateText.StrictClosingBraceFree | llm_service.py:52 | the closing paragraph after the last field contains no `{` |
| TemplateText.AnnouncementGuidelinesBraceFree | llm_service.py:38-44 | the structure rules of the announcement template contain no `{` |
| TemplateText.StudentCommunicationGuidelinesBraceFree | llm_service.py:60-71 | the structure rules of the student communication template contain no `{` |
| TemplateText.MeetingSummaryGuidelinesBraceFree | llm_service.py:87-98 | the structure rules of the meeting summary template contain no `{` |
| TemplateText.NeutralInstructionBraceFree | llm_service.py:112 | the Neutral tone sentence contains no `{` |
| TemplateText.FriendlyInstructionBraceFree | llm_service.py:113 | the Friendly tone sentence contains no `{` |
| TemplateText.FirmInstructionBraceFree | llm_service.py:114 | the Firm tone sentence contains no `{` |
| TemplateText.FormalInstructionBraceFree | llm_service.py:115 | the Formal tone sentence contains no `{` |
| TemplateText.NounBraceFree | llm_service.py:35 | the name each template gives its email contains no `{` |
| TemplateText.HeadBraceFree | llm_service.py:32-35 | the literal text of every template before the first `{language}` field contains no `{` |
| TemplateText.GuidelinesBraceFree | llm_service.py:37-44 | the structure rules of every document type contain no `{` |
| TemplateText.RulesBraceFree | llm_service.py:35-46 | the literal text between the first `{language}` field and `{prompt}` contains no `{`, for every document type |
| TemplateText.TailBraceFree | llm_service.py:51-53 | the literal text after the last field contains no `{` |
| TemplateText.ToneInstructionBraceFree | llm_service.py:110-117 | the sentence bound to `{tone}` contains no `{`, whichever tone is asked for |
| TemplateText.ArgumentsBraceFree | llm_service.py:130-137 | the keyword arguments contain no `{` when the caller's prompt, sender fields, language and context contain none; the defaults "English" and "" contain none |
| TemplateText.BoundArgumentsBraceFree | llm_service.py:129-137 | binding those arguments into any template of the shared shape whose literal text has no `{` leaves no `{` |
| TemplateText.PromptNoMarker | llm_service.py:129-137 | for every document type and tone, when the caller's own values contain no `{`, the prompt sent to the model contains no `{`, so no `{name}` marker survives |
| LlmService.Answer | llm_service.py:138-148 | a non-empty reply becomes the document with metadata type value, tone value, language as passed and "Gemini Pro"; an empty or failed reply is an error and no document |
| LlmService.GenerateDocument | llm_service.py:119-149 | generation is the answer to the model's reply to the bound prompt of the type's template |
| LlmService.NumberedLines | llm_service.py:162-163 | history line i reads `[i+1] entry` |
| LlmService.HistorySection | llm_service.py:159-164 | the section is empty iff the history is; otherwise it opens with the header and closes with the rule |
| LlmService.BuildHistorySection | llm_service.py:159-164 | the accumulator loop builds the section: empty for empty history, otherwise header, numbered lines and a rule |
| LlmService.RefinementShapeFields | llm_service.py:165-177 | the refinement template's only placeholders are the current document and the instruction |
| LlmService.RefinementShapeFill | llm_service.py:165-177 | binding it puts the current document and the instruction in their slots |
| LlmService.RefinementPromptLayout | llm_service.py:165-184 | the refinement prompt is literal text with the current document and the instruction verbatim |
| LlmService.RefinementPromptFrom | llm_service.py:178-184 | no contract of its own; the refinement `format` call for given literal text, stated by RefinementPromptLayout and RefinementPromptIgnoresHistory |
| LlmService.RefinementPrompt | llm_service.py:165-184 | no contract of its own; the refinement prompt with the source's literal text, stated by RefinementPromptLayout and RefinementPromptIgnoresHistory |
| LlmService.RefinementPromptIgnoresHistory | llm_service.py:159-184 | two calls that agree on document and instruction send the same prompt, whatever the history, tone and type: the extra keyword arguments reach no field |
| LlmService.Chunks | llm_service.py:188-191 | no contract of its own; stated by ChunksConcat, ChunksShape and ChunksFrom |
| LlmService.ChunksConcat | llm_service.py:188-191 | the 50-character chunks join back to the reply text |
| LlmService.ChunksShape | llm_service.py:188-191 | there are ceil(len/50) chunks; all but the last have length 50 and the last has 1 to 50 |
| LlmService.ChunksFrom | llm_service.py:190-191 | the chunks from offset i are the slice `text[i:i+50]` followed by the chunks after it |
| LlmService.Documents | llm_service.py:192-193 | the chunks' document texts, one per chunk, in order |
| LlmService.WithMetadata | llm_service.py:192-198 | every chunk carries its text and the same metadata |
| LlmService.ChunkedReply | llm_service.py:185-199 | no contract of its own; stated by ChunkedReplyJoins |
| LlmService.Refine | llm_service.py:151-199 | no contract of its own; stated by ChunkedReplyJoins and RefineDocument |
| LlmService.ChunkedReplyJoins | llm_service.py:185-199 | a non-empty reply yields chunks that join back to it, ceil(len/50) of them, each with the call's type, tone and "Gemini Pro"; an empty or failed reply is an error |
| LlmService.ChunkText | llm_service.py:188-199 | the stepped slicing loop yields exactly the chunk sequence with the metadata |
| LlmService.RefineDocument | llm_service.py:151-199 | refinement is the history section, the prompt, the model call and the chunked reply |
| ExportService.CreateFilename | export_service.py:15-18 | no contract of its own; stated by CreateFilenameParts |
| ExportService.ExportPath | export_service.py:33-34 | the returned path starts with the temporary directory and ends with the file name built from the type or "document" |
| ExportService.CreateFilenameParts | export_service.py:15-18 | the file name is `TUM_`, the type lower-cased with spaces as `_`, `_`, the time stamp, `.` and the extension |
| ExportService.SafeDocTypeClean | export_service.py:17 | the sanitised type keeps its length and has no space and no upper-case letter |
| ExportService.SafeDocType | export_service.py:17 | no contract of its own; `doc_type.lower().replace(" ", "_")`, stated by SafeDocTypeClean, SafeDocTypeKeepsClean and CreateFilenameParts |
| ExportService.SafeDocTypeKeepsClean | export_service.py:17 | sanitising an already clean type leaves it unchanged |
| ExportService.TextFile.constructor | export_service.py:54 | a newly opened file is empty |
| ExportService.TextFile.Write | export_service.py:55-60 | a write appends its text |
| ExportService.PdfDocument.constructor | export_service.py:21-22 | a new PDF has no drawing calls |
| ExportService.PdfDocument.Add | export_service.py:23-32 | a drawing call is appended |
| ExportService.DocxDocument.constructor | export_service.py:39 | a new document has no blocks |
| ExportService.DocxDocument.Add | export_service.py:40-45 | a block is appended |
| ExportService.TxtLayoutParts | export_service.py:55-60 | the text file is the header (title, rule, date, tone, rule) followed by the content verbatim as the final part |
| ExportService.Title | export_service.py:25 | no contract of its own; the heading, stated by MetadataDefaults and LayoutsAgree |
| ExportService.ToneLine | export_service.py:29 | no contract of its own; the tone line, stated by MetadataDefaults and LayoutsAgree |
| ExportService.FilenameType | export_service.py:33 | no contract of its own; the type a file is named after, stated by MetadataDefaults |
| ExportService.TxtHeader | export_service.py:55-59 | no contract of its own; everything written before the content, stated by TxtLayoutParts |
| ExportService.TxtLayout | export_service.py:55-60 | no contract of its own; the text file's contents, stated by TxtLayoutParts, TxtLayoutInjective and ExportToTxt |
| ExportService.PdfLayout | export_service.py:23-32 | no contract of its own; the PDF's drawing calls, stated by LayoutsAgree and RenderPdf |
| ExportService.DocxLayout | export_service.py:40-45 | no contract of its own; the document's blocks, stated by LayoutsAgree and ExportToDocx |
| ExportService.TxtLayoutInjective | export_service.py:55-60 | for fixed metadata and time, two contents give the same file iff they are equal |
| ExportService.LayoutsAgree | export_service.py:20-60 | the PDF, DOCX and text layouts show the same title, the same tone line and the content verbatim |
| ExportService.MetadataDefaults | export_service.py:25-33 | for any metadata: a missing type gives the heading "TUM Document" and the file name type "document", a missing tone gives "Tone: Standard", and a present key is shown as given |
| ExportService.ExportToPdf | export_service.py:20-36 | the PDF export makes the layout's calls and returns the temp directory joined with the pdf file name |
| ExportService.RenderPdf | export_service.py:21-32 | a new PDF receives heading, information lines and body, in that order |
| ExportService.DrawHeading | export_service.py:23-25 | bold 16-point TUM blue, centred title |
| ExportService.DrawInfo | export_service.py:26-29 | italic 10-point grey date and tone lines |
| ExportService.DrawBody | export_service.py:30-32 | regular 12-point black content as a multi-cell |
| ExportService.ExportToDocx | export_service.py:38-49 | the DOCX export writes heading, date, tone, rule and content and returns the joined docx path |
| ExportService.ExportToTxt | export_service.py:51-61 | the text export writes exactly the text layout and returns the joined txt path |
| ExportService.ExportTarget | export_service.py:63-71 | an unknown tag is rejected as unsupported |
| ExportService.ExportTargetIsEnum | export_service.py:63-71 | the accepted tags are exactly the export format values, case-sensitively; each routes to its own format |
| ExportService.ExportDocument | export_service.py:63-71 | dispatch succeeds iff the tag is accepted, then returns that exporter's path and output; otherwise it raises the unsupported-format error |
| StreamlitApp.Contents | streamlit_app.py:238 | the history's contents, one per entry, in order |
| StreamlitApp.Target | streamlit_app.py:234-236 | the refine branch reads the newest entry's type and tone, falling back to the sidebar's; it converts them and fails with the first invalid value |
| StreamlitApp.FromReply | streamlit_app.py:249-258 | no contract of its own; what a branch stores for a reply, stated by FromReplyAgrees |
| StreamlitApp.FromReplyAgrees | llm_service.py:139-148 | the handler's reply check succeeds exactly when `generate_document` answers and `refine_document` yields chunks, with the same exception otherwise, and stores the answered text, which is also the chunks' join |
| StreamlitApp.Generate | streamlit_app.py:259-268 | the generate branch binds the sidebar's type, tone, sender fields and language with no context and stores the reply under the sidebar's values |
| StreamlitApp.RefineNewest | streamlit_app.py:233-258 | the refine branch sends the newest content, the instruction and all contents as history; it stores the joined reply under the newest entry's values (corrected; see Findings streamlit_app.py:241) |
| StreamlitApp.Attempt | streamlit_app.py:230-278 | no contract of its own (corrected; see Findings streamlit_app.py:241); its routing is stated by AttemptNeedsKey, AttemptGenerates, AttemptRefines and AttemptStoresMembers |
| StreamlitApp.AttemptAsWritten | streamlit_app.py:230-281 | no contract of its own; the try block as written, where any refinement ends in the caught TypeError; stated by AsWrittenLedgerFrozen |
| StreamlitApp.Handle | streamlit_app.py:225-281 | no contract of its own (corrected; see Findings streamlit_app.py:241); stated by SettleEffects, HandlePreservesValid and Session.Submit |
| StreamlitApp.HandleAsWritten | streamlit_app.py:225-281 | no contract of its own; the handler as written, stated by AsWrittenLedgerFrozen, AsWrittenAtMostOne and RefinementLostAsWritten |
| StreamlitApp.Ask | streamlit_app.py:226-228 | no contract of its own; the flags set and the user message appended, stated by SettleEffects |
| StreamlitApp.Conclude | streamlit_app.py:249-258 | no contract of its own; on success the entry, the assistant message and the current document, then both flags reset, stated by SettleEffects and Session.Record |
| StreamlitApp.Settle | streamlit_app.py:225-281 | no contract of its own; Ask then Conclude, stated by SettleEffects and SettlePreservesValid |
| StreamlitApp.SettleEffects | streamlit_app.py:226-228 | the user message comes first and both flags end false; success appends one entry and one assistant message and sets the current document; failure changes neither |
| StreamlitApp.SettlePreservesValid | streamlit_app.py:249-258 | settling keeps the ledger invariant when what is stored converts back to members |
| StreamlitApp.AttemptNeedsKey | streamlit_app.py:231 | without a key, every submission fails with the missing-key error |
| StreamlitApp.AttemptGenerates | streamlit_app.py:259-278 | with a key and an empty history, a submission is generation from the sidebar |
| StreamlitApp.AttemptRefines | streamlit_app.py:233-258 | with a key and a stored newest entry, a submission refines that entry with its own type and tone and all contents as history (corrected; see Findings streamlit_app.py:241) |
| StreamlitApp.AttemptStoresMembers | streamlit_app.py:244-245 | whatever a submission stores converts back with `DocumentType(...)` and `ToneType(...)` |
| StreamlitApp.AssistantContentsSnoc | streamlit_app.py:252 | appending an assistant message adds its content to the assistant contents; any other message adds nothing |
| StreamlitApp.HandlePreservesValid | streamlit_app.py:225-281 | every submission keeps the ledger invariant (corrected; see Findings streamlit_app.py:241) |
| StreamlitApp.StoredTargetConverts | streamlit_app.py:244-245 | in a valid ledger the refine branch's conversion always succeeds and uses the newest entry's type |
| StreamlitApp.AsWrittenLedgerFrozen | streamlit_app.py:241-248 | as written, a submission over a non-empty history changes neither the history nor the current document |
| StreamlitApp.AsWrittenAtMostOne | streamlit_app.py:241-248 | as written, any run of submissions, each with its own sidebar, API key, environment, model and time stamp, from a ledger of at most one entry leaves at most one entry |
| StreamlitApp.RefinementLostAsWritten | streamlit_app.py:241-258 | for one stored announcement and a replying model, the intended handler appends the refined entry and the handler as written appends nothing |
| StreamlitApp.Numbered | streamlit_app.py:52-56 | numbering keeps the number of entries |
| StreamlitApp.CountKeyLast | streamlit_app.py:54-56 | each entry adds one to the count of its own key |
| StreamlitApp.CountKeyMonotone | streamlit_app.py:52-56 | a key's count never falls along the history |
| StreamlitApp.CountKeyByKeys | streamlit_app.py:52-56 | counts depend only on the entries' keys |
| StreamlitApp.NumberedKeepsEntries | streamlit_app.py:53-56 | numbering changes only the number, keeps each key (defaults "Unknown" and "Neutral") and gives a number of at least 1 |
| StreamlitApp.NumberedIncreasing | streamlit_app.py:52-56 | a later entry with the same key gets a larger number |
| StreamlitApp.NumberedIdempotent | streamlit_app.py:52-56 | numbering twice gives the same numbers as once, because the counts start afresh |
| StreamlitApp.NumberedKeepsValid | streamlit_app.py:52-56 | numbering keeps the ledger invariant |
| StreamlitApp.ReverseIndex | streamlit_app.py:57 | item idx of the newest-first list is entry `-(idx+1)` |
| StreamlitApp.Snippet | streamlit_app.py:59 | content of at most 100 characters is shown whole; longer content shows its first 100 characters and "..." |
| StreamlitApp.DownloadName | streamlit_app.py:72 | the download name starts with `TUM_` and the type or "Document", and ends with `.` and the extension |
| StreamlitApp.ExportMetadata | streamlit_app.py:67 | no contract of its own; its property is stated by ExportMetadataHeading |
| StreamlitApp.ExportMetadataHeading | streamlit_app.py:67 | the sidebar's export succeeds iff the entry has a type, since `None.lower()` raises AttributeError in `_create_filename` (export_service.py:17); it then shows "TUM " and the type, the tone or "None", and names the file after the type; every stored entry has a type |
| StreamlitApp.Item | streamlit_app.py:57-85 | no contract of its own; the listed title, snippet, download names and export of one entry, stated by Session.ListHistory, Snippet, DownloadName and ExportMetadataHeading |
| StreamlitApp.Session.constructor | streamlit_app.py:13-31 | every key starts empty, false, zero or None, and the session is valid |
| StreamlitApp.Session.NumberHistory | streamlit_app.py:52-56 | the numbering step renumbers the history, changes nothing else and keeps the session valid |
| StreamlitApp.Session.NumberEntries | streamlit_app.py:52-56 | the `doc_counts` loop sets each entry's number to its key's count so far |
| StreamlitApp.Session.ListHistory | streamlit_app.py:57-59 | the listing has one item per entry, newest first |
| StreamlitApp.Session.PressPreview | streamlit_app.py:62-64 | pressing preview on item idx previews entry `-(idx+1)`, the same entry the listing showed |
| StreamlitApp.Session.Previewed | streamlit_app.py:88-89 | no contract of its own; the entry the preview shows, stated by Session.PressPreview and Session.ClosePreview |
| StreamlitApp.Session.ClosePreview | streamlit_app.py:99 | closing clears the preview and changes nothing else |
| StreamlitApp.Session.Submit | streamlit_app.py:225-281 | a submission moves the session to the intended handler's new ledger, leaves the widget state and keeps the session valid (corrected; see Findings streamlit_app.py:241) |
| StreamlitApp.Session.Record | streamlit_app.py:249-258 | recording an outcome stores it as the ledger's conclusion |
| StreamlitApp.CollectDocuments | streamlit_app.py:240-248 | the collection loop gathers every chunk's document, in order (corrected; see Findings streamlit_app.py:241) |
| StreamlitApp.RefineBranch | streamlit_app.py:233-258 | the refine branch's steps compute the refine outcome (corrected; see Findings streamlit_app.py:241) |
| StreamlitApp.Request | streamlit_app.py:230-278 | the try block's steps compute the submission's outcome (corrected; see Findings streamlit_app.py:241) |

## Left out

- The Gemini and LangChain clients are not modelled. That covers `genai.configure`, the unused chat model and conversation memories, and the network call. The model is a parameter that returns a reply, no reply, or an exception.
- The async generator of `refine_document` is modelled as the finite chunk sequence it yields.
- `st.secrets` and `os.getenv` are the `apiKey` and `env` parameters.
- `datetime.now()` and its formatting are not modelled. Time stamps are parameters, already formatted.
- `tempfile.gettempdir()` is the exporter's `tempDir` parameter.
- Streamlit rendering is not modelled: CSS, HTML bubbles, the spinner, the typing indicator, the preview's HTML escaping and `rstrip`, and the text of `st.error`.
- The form's `clear_on_submit` and the widget keys are not modelled. `inputKey` and `promptInput` are initialised and otherwise left untouched.
- The sidebar exports each listed entry to temporary files and reads them back for the download buttons. That file I/O is not modelled; the model keeps the metadata passed and the download names.
- fpdf and python-docx rendering is not modelled, nor is `pdf.output` or `doc.save`. The exporters are modelled as the calls and blocks they add. The text export is modelled as the string written.
- Strings.Lower, ExportService.SafeDocTypeClean: `str.lower` is modelled on ASCII letters only, so "no upper-case letter" means no ASCII upper-case letter.
- An entry without a type makes the sidebar's export raise AttributeError, which stops the script. The model records the error in that entry's listed item and lists the remaining entries. No entry of a valid session lacks a type.
- The numbering loop sets `doc_number` inside each history dict in place. The model replaces the entry value at that index with one carrying the new number.
- Pydantic machinery beyond the defaults and the minimum length of the refinement instruction is not modelled. `ExportRequest` and `DocumentResponse` are declarations only.
- The natural-language wording of the templates is kept as opaque literal text. Nothing about the quality of model output is claimed.
- StreamlitApp.DownloadName: states the prefix and extension but not the tone in the middle of the name.
- ExportService.TxtLayoutParts: states the header and content split but not the inner order of the header lines. The header is defined by `TxtHeader` directly.

## Findings

| source | as written | input that shows it | evidently intended | confidence | as-written member | corrected member |
|---|---|---|---|---|---|---|
| streamlit_app.py:241 | the refine branch iterates the async generator `refine_document` with a plain `for`, which raises TypeError; the handler catches it, so a refinement never stores anything and the ledger never grows past its first entry | a ledger holding one entry ("Announcement", "Neutral", "Dear students"), the prompt "Address all staff", a key, and a model that replies "Dear all" | run the generator to completion (`async for`), join the chunks and append the refined entry | not executed | StreamlitApp.RefinementLostAsWritten | StreamlitApp.Session.Submit |
