# better-resume: tailored résumé generation and document assembly, in Dafny

This project models the core of better-resume, a service that tailors a
résumé to a job description and publishes it as a Google document. It has
two cooperating builders:

- **Content builder** (`ResumeGenerator`, from
  `app/services/resume_generator.py`). It holds five section slots that
  start unset: professional summary, selected experiences, skills, projects
  and coursework. Each generation stage fills its own slot from the reply of
  the generative service, and `Build` aggregates the slots into a
  `ResumeContent`. An unset slot is a validation error. The language policies
  also live here: a Korean summary may have one sentence more, and the
  coursework label depends on the language. So do the configuration
  constants: 150-word bullet limits, `MaxProjects` 2, `MaxCoursework` 5,
  `MaxSummarySentences` 2 and `MaxExperienceBullets` 4.
- **Document builder** (`GoogleDocs`, from `app/services/google_docs.py`). A
  class holding `requests: seq<Request>`, where `Request = Replace(marker,
  replacement)` is one replace-all-text request. Each `Add…` method only
  appends. `Build` submits the whole list as one batch and returns the
  document's id, title and url.
- **Language helper** (`Languages`, from `app/utils/language.py`). The two
  language codes and their display names.

Two smaller modules support these. `Decimal` renders a number the way an
f-string does, and parses it back; experience markers are numbered with it.
`ResumeRouter` holds the projection from generated content to document data
done by the résumé endpoint (`app/routers/resume.py`).

The remote calls are parameters. The generative service is an oracle: each
stage is given a `Reply`. `Replied(parsed)` is a completed call whose parsed
result may be `None`. `CallFailed(cause)` is a call that raised. The id of
the document copied from the template is given to the document builder's
constructor. The outcome of the batch submission is given to `Build`, which
returns the batch as a `BatchUpdate` value.

The model follows the code, also where its docstring or prompts suggest otherwise:

- The code compares the language with `"en"` for the template and the
  display name: every other code selects the Korean template and the name
  "Korean". It compares with `"kr"` for the sentence limit and the
  coursework label. A code such as `"ko"`, which the docstring of
  `generate_resume` names, therefore gets the Korean name with the English
  policies (`UnlistedCodeMixesPolicies`).
- The code stores a reply that did not parse as an unset slot. The
  remaining stages still run, and `build()` rejects the unset field.
- The code accepts formatted-bullet lists of any length and reads bullets 0
  and 1 of the first two projects without checking. With fewer than two
  bullets it fails like an out-of-range index before anything is appended,
  so the request list is unchanged.

## Model

| member | source | states |
|---|---|---|
| `Languages.LanguageName` | app/utils/language.py:6-8 | the name is "English" exactly for "en" and "Korean" exactly for every other code |
| `Languages.LanguageNameDeterminesCode` | app/utils/language.py:3-8 | over the two-valued literal type, equal names mean equal codes |
| `ResumeGenerator.SummarySentenceLimit` | app/services/resume_generator.py:71-75 | the limit is 3 (base + 1) exactly for "kr" and 2 for every other code |
| `ResumeGenerator.CourseworkPrefix` | app/services/resume_generator.py:242-244 | the label is "관련 수강과목:" exactly for "kr" and "Relevant Coursework:" otherwise |
| `ResumeGenerator.LanguagePoliciesAgree` | app/services/resume_generator.py:61-75 | for "en" and "kr", the Korean name (app/utils/language.py:8), the larger sentence limit (lines 71-75) and the Korean coursework label (lines 242-244) go together |
| `ResumeGenerator.UnlistedCodeMixesPolicies` | app/utils/language.py:8 | a code outside the literal type, such as "ko", is named Korean by the `!= "en"` test here, but gets the English sentence limit and coursework label from the `== "kr"` tests at app/services/resume_generator.py:73 and 243 |
| `ResumeGenerator.UnsetSections` | app/services/resume_generator.py:44-49 | lists each unset field by name, exactly when it is unset; the list is empty exactly when all five are set |
| `ResumeGenerator.ResumeContentBuilder.constructor` | app/services/resume_generator.py:61-75 | all five slots start unset; the language name and the sentence limit follow the language |
| `ResumeGenerator.ResumeContentBuilder.BuildProfessionalSummary` | app/services/resume_generator.py:98-108 | a completed call sets only the summary slot to the parsed reply and returns the same builder; a failed call changes nothing |
| `ResumeGenerator.ResumeContentBuilder.BuildSkills` | app/services/resume_generator.py:135-145 | sets only the skills slot, or changes nothing on a failed call |
| `ResumeGenerator.ResumeContentBuilder.BuildExperiences` | app/services/resume_generator.py:180-190 | sets only the experiences slot, or changes nothing on a failed call |
| `ResumeGenerator.ResumeContentBuilder.BuildProjects` | app/services/resume_generator.py:229-239 | sets only the projects slot, or changes nothing on a failed call |
| `ResumeGenerator.ResumeContentBuilder.BuildCoursework` | app/services/resume_generator.py:241-293 | sets only the coursework slot, or changes nothing on a failed call |
| `ResumeGenerator.ResumeContentBuilder.Build` | app/services/resume_generator.py:295-302 | succeeds exactly when every slot is set, with the five fields equal to the slots; otherwise a validation error naming the unset fields |
| `ResumeGenerator.GenerateResume` | app/services/resume_generator.py:305-327 | stages run in the order summary, skills, experiences, projects, coursework; the first failed call is the error; otherwise success exactly when every reply parsed, with the parsed sections as content |
| `Decimal.NatToString` | app/services/google_docs.py:133 | the rendering is non-empty, all digits, with no leading zero, and has one digit exactly below 10 |
| `Decimal.ValueOfNatToString` | app/services/google_docs.py:133 | parsing the rendering of n gives back n |
| `Decimal.NatToStringValueOf` | app/services/google_docs.py:133 | rendering the value of a canonical digit string gives back the string |
| `Decimal.NatToStringInjective` | app/services/google_docs.py:128-133 | two numbers render equally exactly when they are equal |
| `GoogleDocs.ExperienceMarker` | app/services/google_docs.py:133 | the marker of an experience is longer than the `{{experience_` prefix and `_placeholder}}` suffix together and carries the experience tag 'e' at index 2, which keeps it apart from every fixed marker |
| `GoogleDocs.ExperienceMarkerRoundTrip` | app/services/google_docs.py:128-133 | a string is the marker of experience i exactly when parsing it as an experience marker gives i |
| `GoogleDocs.ExperienceMarkerInjective` | app/services/google_docs.py:128-133 | experience markers of different positions differ |
| `GoogleDocs.TemplateFor` | app/services/google_docs.py:107-111 | "en" selects the English template id; every other code the Korean one |
| `GoogleDocs.TemplateFollowsLanguageName` | app/services/google_docs.py:107-111 | with two different template ids, the Korean template is chosen exactly when the language name is "Korean" |
| `GoogleDocs.DocumentUrl` | app/services/google_docs.py:259 | the url is the document url shape around the id, and parsing it gives back the id |
| `GoogleDocs.ProjectRequests` | app/services/google_docs.py:160-237 | no requests below two projects; otherwise ten requests with the project_one then project_two markers, or an index error naming the first project with fewer than two bullets |
| `GoogleDocs.ProjectRequestsUseFirstTwo` | app/services/google_docs.py:161-163 | projects after the second do not change the requests |
| `GoogleDocs.ProjectRequestTexts` | app/services/google_docs.py:165-232 | the ten texts are name, "(" + url + ")", date, bullet 0 and bullet 1 of the first project, then of the second |
| `GoogleDocs.AssemblyRequests` | app/services/google_docs.py:267-279 | the assembly succeeds exactly when the project requests do, and otherwise fails with their index error |
| `GoogleDocs.AssemblyLayout` | app/services/google_docs.py:267-279 | the batch holds 1 + n + 2 + (10 or 0) + 1 requests: summary, experiences numbered 1..n in input order, the two skills requests, the project block, coursework last |
| `GoogleDocs.AssemblyMarkersDistinct` | app/services/google_docs.py:116-248 | no two requests of a batch share a marker |
| `GoogleDocs.NoProjectMarkersBelowTwo` | app/services/google_docs.py:160-161 | with fewer than two projects the batch succeeds and replaces no project marker |
| `GoogleDocs.ResumeDocumentBuilder.constructor` | app/services/google_docs.py:104-114 | keeps the title and the copied document's id, selects the template by language, starts with no requests |
| `GoogleDocs.ResumeDocumentBuilder.AddProfessionalSummary` | app/services/google_docs.py:116-125 | appends exactly the summary request and returns the same builder |
| `GoogleDocs.ResumeDocumentBuilder.AddExperiences` | app/services/google_docs.py:127-139 | appends one request per experience, numbered from 1 in input order; nothing for an empty list |
| `GoogleDocs.ResumeDocumentBuilder.AddSkills` | app/services/google_docs.py:141-158 | appends the comma-separated skills request, then the skills summary request |
| `GoogleDocs.ResumeDocumentBuilder.AddProjects` | app/services/google_docs.py:160-237 | appends the project requests when they exist; on an index error fails with the requests unchanged |
| `GoogleDocs.ResumeDocumentBuilder.AddCoursework` | app/services/google_docs.py:239-248 | appends exactly the coursework request |
| `GoogleDocs.ResumeDocumentBuilder.Build` | app/services/google_docs.py:250-264 | submits all requests as one batch to the copied document; on success returns its id, the title and its url; a rejected submission is an assembly failure |
| `GoogleDocs.CreateResumeDocument` | app/services/google_docs.py:267-279 | the submitted batch is the whole assembly in the fixed order; success exactly when the projects assemble and the submission goes through, returning id, title and url; a rejected submission fails with "Failed to create resume document: " followed by its cause |
| `ResumeRouter.ResumeDataFor` | app/routers/resume.py:37-49 | the title is "<language name> Resume - <name>"; the experiences are the formatted texts in order; the other sections pass through |
| `ResumeRouter.PublishedExperiences` | app/routers/resume.py:40-53 | the i-th selected experience fills marker i + 1, and the batch grows by one request per experience |

## Left out

- The generative service calls and the prompt text are left out. Each stage's reply is a parameter. Word limits, sentence counts, top-N selection, relevance order, the Korean "translated (English)" format and the coursework label are only asked for in the prompts. Nothing checks them, so they are not postconditions; the configuration constants appear only in those prompts.
- The base résumé data (`resume_data`) and the job description only feed the prompts. The data is not modelled. A missing key in it, which raises while a prompt is built, is not modelled either.
- The Google Docs and Drive calls are left out: building the service, `read_document`, `create_document`, `update_document` and the batch execution. The copied document's id is a constructor parameter. A failed copy, which raises in the constructor, is not modelled. The submission outcome is a parameter of `Build`.
- The credentials held by the document builder, and the module-level generative client with its API key, are left out; they only reach the remote calls.
- Settings and TOML loading are left out; the template ids are the fields of `TemplateSettings`.
- The OAuth flow, credential storage, the HTTP routers and the wrapping of every error into an HTTP 400 are left out. The one exception is the title and experience projection in `ResumeRouter`.
- Replacement texts that themselves contain a marker are not modelled. The store's replace-all-text semantics are not modelled; `AssemblyMarkersDistinct` says only that no two requests share a marker.
