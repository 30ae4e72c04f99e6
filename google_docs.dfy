/**
 * Résumé document assembly (app/services/google_docs.py): a copied template
 * is populated by one batch of replace-all-text requests, each pairing a
 * literal marker of the template with its replacement text.
 *
 * The remote calls are parameters: the id of the copied document is given to
 * the builder's constructor, and the outcome of the batch submission is given
 * to Build, which returns the batch it submits as a BatchUpdate value.
 */
module GoogleDocs {
  import opened Wrappers
  import opened Decimal
  import opened Languages
  import opened ResumeGenerator

  /** One replace-all-text request: every occurrence of `marker` becomes `replacement`. */
  datatype Request = Replace(marker: string, replacement: string)

  datatype ResumeDocument = ResumeDocument(id: string, title: string, url: string)

  datatype ResumeData = ResumeData(
    title: string,
    professionalSummary: string,
    experiences: seq<string>,
    skills: SkillsSection,
    projects: ProjectsSection,
    coursework: CourseworkSection)

  /** The two template document ids, read from the environment. */
  datatype TemplateSettings = TemplateSettings(templateId: string, koreanTemplateId: string)

  /** The batch mutation sent to the document store. */
  datatype BatchUpdate = BatchUpdate(documentId: string, requests: seq<Request>)

  datatype SubmitOutcome = Submitted | Rejected(cause: string)

  datatype DocumentError =
      /** A project's formatted bullets were indexed past their end. */
    | BulletIndexError(project: nat, index: nat)
    | AssemblyFailed(detail: string)

  // --------------------------------------------------------------- markers

  const SummaryMarker := "{{professional_summary_placeholder}}"
  const SkillsMarker := "{{skills_placeholder}}"
  const SkillsSummaryMarker := "{{skills_summary_placeholder}}"
  const CourseworkMarker := "{{coursework_placeholder}}"

  const ProjectOneMarkers := [
    "{{project_one_name_placeholder}}",
    "{{project_one_link_placeholder}}",
    "{{project_one_duration_placeholder}}",
    "{{project_one_1_placeholder}}",
    "{{project_one_2_placeholder}}"]

  const ProjectTwoMarkers := [
    "{{project_two_name_placeholder}}",
    "{{project_two_link_placeholder}}",
    "{{project_two_duration_placeholder}}",
    "{{project_two_1_placeholder}}",
    "{{project_two_2_placeholder}}"]

  const ExperienceMarkerPrefix := "{{experience_"
  const ExperienceMarkerSuffix := "_placeholder}}"

  /** The marker of the experience at 1-based position `index`. */
  function ExperienceMarker(index: nat): (m: string)
    ensures |m| > |ExperienceMarkerPrefix| + |ExperienceMarkerSuffix|
    ensures m[2] == 'e'
  {
    ExperienceMarkerPrefix + NatToString(index) + ExperienceMarkerSuffix
  }

  /** The position an experience marker names, if `m` is one. */
  function ExperienceIndexOf(m: string): (r: Option<nat>)
  {
    var p, q := |ExperienceMarkerPrefix|, |ExperienceMarkerSuffix|;
    if |m| > p + q && m[..p] == ExperienceMarkerPrefix && m[|m| - q..] == ExperienceMarkerSuffix
       && IsCanonical(m[p..|m| - q])
    then Some(ValueOf(m[p..|m| - q]))
    else None
  }

  /** `m` is the marker of experience `i` exactly when parsing `m` yields `i`. */
  lemma ExperienceMarkerRoundTrip(m: string, i: nat)
    ensures ExperienceIndexOf(m) == Some(i) <==> m == ExperienceMarker(i)
  {
    var p, q := |ExperienceMarkerPrefix|, |ExperienceMarkerSuffix|;
    if m == ExperienceMarker(i) {
      var digits := NatToString(i);
      assert m[..p] == ExperienceMarkerPrefix;
      assert m[|m| - q..] == ExperienceMarkerSuffix;
      assert m[p..|m| - q] == digits;
      ValueOfNatToString(i);
    }
    if ExperienceIndexOf(m) == Some(i) {
      var digits := m[p..|m| - q];
      NatToStringValueOf(digits);
      assert m == m[..p] + digits + m[|m| - q..];
    }
  }

  lemma ExperienceMarkerInjective(i: nat, j: nat)
    ensures ExperienceMarker(i) == ExperienceMarker(j) <==> i == j
  {
    if ExperienceMarker(i) == ExperienceMarker(j) {
      ExperienceMarkerRoundTrip(ExperienceMarker(i), i);
      ExperienceMarkerRoundTrip(ExperienceMarker(j), j);
    }
  }

  // ----------------------------------------------------- template and url

  /** "en" selects the English template; every other code the Korean one. */
  function TemplateFor(language: string, templates: TemplateSettings): (id: string)
    ensures language == "en" ==> id == templates.templateId
    ensures language != "en" ==> id == templates.koreanTemplateId
  {
    if language == "en" then templates.templateId else templates.koreanTemplateId
  }

  /** The template follows the display name of the language. */
  lemma TemplateFollowsLanguageName(language: string, templates: TemplateSettings)
    requires templates.templateId != templates.koreanTemplateId
    ensures TemplateFor(language, templates) == templates.templateId <==> LanguageName(language) == "English"
    ensures TemplateFor(language, templates) == templates.koreanTemplateId <==> LanguageName(language) == "Korean"
  {
  }

  const DocumentUrlPrefix := "https://docs.google.com/document/d/"
  const DocumentUrlSuffix := "/edit"

  /** The id a document url names, if `url` has the document url shape. */
  function DocumentIdOfUrl(url: string): (id: Option<string>)
  {
    var p, q := |DocumentUrlPrefix|, |DocumentUrlSuffix|;
    if |url| >= p + q && url[..p] == DocumentUrlPrefix && url[|url| - q..] == DocumentUrlSuffix
    then Some(url[p..|url| - q])
    else None
  }

  function DocumentUrl(id: string): (url: string)
    ensures DocumentIdOfUrl(url) == Some(id)
  {
    var url := DocumentUrlPrefix + id + DocumentUrlSuffix;
    assert url[..|DocumentUrlPrefix|] == DocumentUrlPrefix;
    assert url[|url| - |DocumentUrlSuffix|..] == DocumentUrlSuffix;
    assert url[|DocumentUrlPrefix|..|url| - |DocumentUrlSuffix|] == id;
    url
  }

  // ------------------------------------------------ requests, as functions

  /** The marker each request targets, in batch order. */
  function Markers(rs: seq<Request>): (ms: seq<string>)
  {
    seq(|rs|, k requires 0 <= k < |rs| => rs[k].marker)
  }

  /** One request per experience, in input order, numbered from 1. */
  function ExperienceRequests(experiences: seq<string>): (rs: seq<Request>)
  {
    seq(|experiences|, k requires 0 <= k < |experiences| => Replace(ExperienceMarker(k + 1), experiences[k]))
  }

  function SkillsRequests(skills: SkillsSection): (rs: seq<Request>)
  {
    [Replace(SkillsMarker, skills.commaSeparatedText), Replace(SkillsSummaryMarker, skills.summaryText)]
  }

  /** Name, "(url)", date and the first two formatted bullets of a project. */
  function ProjectTexts(p: Project): (texts: seq<string>)
    requires |p.formattedBullets| >= 2
  {
    [p.name, "(" + p.url + ")", p.date, p.formattedBullets[0], p.formattedBullets[1]]
  }

  function ProjectBlock(markers: seq<string>, p: Project): (rs: seq<Request>)
    requires |markers| == 5 && |p.formattedBullets| >= 2
  {
    seq(5, k requires 0 <= k < 5 => Replace(markers[k], ProjectTexts(p)[k]))
  }

  /**
   * The project requests: none for fewer than two projects, else the ten
   * requests for the first two, failing like an out-of-range index when one
   * of those two has fewer than two formatted bullets.
   */
  function ProjectRequests(projects: seq<Project>): (r: Result<seq<Request>, DocumentError>)
    ensures |projects| < 2 ==> r == Success([])
    ensures r.Failure? <==> |projects| >= 2 && (|projects[0].formattedBullets| < 2 || |projects[1].formattedBullets| < 2)
    ensures r.Failure? && |projects[0].formattedBullets| < 2 ==> r.error == BulletIndexError(0, |projects[0].formattedBullets|)
    ensures r.Failure? && |projects[0].formattedBullets| >= 2 ==> r.error == BulletIndexError(1, |projects[1].formattedBullets|)
    ensures r.Success? && |projects| >= 2 ==> Markers(r.value) == ProjectOneMarkers + ProjectTwoMarkers
  {
    if |projects| < 2 then Success([])
    else if |projects[0].formattedBullets| < 2 then Failure(BulletIndexError(0, |projects[0].formattedBullets|))
    else if |projects[1].formattedBullets| < 2 then Failure(BulletIndexError(1, |projects[1].formattedBullets|))
    else Success(ProjectBlock(ProjectOneMarkers, projects[0]) + ProjectBlock(ProjectTwoMarkers, projects[1]))
  }

  /** Projects after the second never reach the document. */
  lemma ProjectRequestsUseFirstTwo(projects: seq<Project>)
    requires |projects| >= 2
    ensures ProjectRequests(projects) == ProjectRequests(projects[..2])
  {
  }

  /** The ten requests take their texts from the first project, then the second. */
  lemma ProjectRequestTexts(projects: seq<Project>)
    requires ProjectRequests(projects).Success? && |projects| >= 2
    ensures var rs := ProjectRequests(projects).value;
      && |rs| == 10
      && rs[0].replacement == projects[0].name
      && rs[1].replacement == "(" + projects[0].url + ")"
      && rs[2].replacement == projects[0].date
      && rs[3].replacement == projects[0].formattedBullets[0]
      && rs[4].replacement == projects[0].formattedBullets[1]
      && rs[5].replacement == projects[1].name
      && rs[6].replacement == "(" + projects[1].url + ")"
      && rs[7].replacement == projects[1].date
      && rs[8].replacement == projects[1].formattedBullets[0]
      && rs[9].replacement == projects[1].formattedBullets[1]
  {
    var one: seq<Request> := ProjectBlock(ProjectOneMarkers, projects[0]);
    var two: seq<Request> := ProjectBlock(ProjectTwoMarkers, projects[1]);
    assert ProjectRequests(projects).value == one + two;
    forall k | 0 <= k < 5
      ensures (one + two)[k].replacement == ProjectTexts(projects[0])[k]
      ensures (one + two)[5 + k].replacement == ProjectTexts(projects[1])[k]
    {
    }
  }

  /** The whole batch: summary, experiences, skills, projects, coursework. */
  function AssemblyRequests(data: ResumeData): (r: Result<seq<Request>, DocumentError>)
    ensures r.Success? <==> ProjectRequests(data.projects.projects).Success?
    ensures r.Failure? ==> r.error == ProjectRequests(data.projects.projects).error
  {
    match ProjectRequests(data.projects.projects)
    case Failure(e) => Failure(e)
    case Success(projectRequests) =>
      Success([Replace(SummaryMarker, data.professionalSummary)]
              + ExperienceRequests(data.experiences)
              + SkillsRequests(data.skills)
              + projectRequests
              + [Replace(CourseworkMarker, data.coursework.commaSeparatedText)])
  }

  /**
   * The batch succeeds exactly when the project requests do; it then holds
   * 1 + n + 2 + (10 or 0) + 1 requests for n experiences, in this order.
   */
  lemma AssemblyLayout(data: ResumeData)
    ensures AssemblyRequests(data).Success? <==> ProjectRequests(data.projects.projects).Success?
    ensures AssemblyRequests(data).Success? ==>
      var rs, n := AssemblyRequests(data).value, |data.experiences|;
      && |rs| == 1 + n + 2 + (if |data.projects.projects| >= 2 then 10 else 0) + 1
      && rs[0] == Replace(SummaryMarker, data.professionalSummary)
      && (forall i :: 0 <= i < n ==> rs[1 + i] == Replace(ExperienceMarker(i + 1), data.experiences[i]))
      && rs[n + 1] == Replace(SkillsMarker, data.skills.commaSeparatedText)
      && rs[n + 2] == Replace(SkillsSummaryMarker, data.skills.summaryText)
      && rs[n + 3..|rs| - 1] == ProjectRequests(data.projects.projects).value
      && rs[|rs| - 1] == Replace(CourseworkMarker, data.coursework.commaSeparatedText)
  {
  }

  // --------------------------------------------------- distinct markers

  ghost predicate Distinct(ms: seq<string>) {
    forall i, j :: 0 <= i < j < |ms| ==> ms[i] != ms[j]
  }

  lemma ExperienceMarkersDistinct(experiences: seq<string>)
    ensures Distinct(Markers(ExperienceRequests(experiences)))
    ensures forall m :: m in Markers(ExperienceRequests(experiences)) ==> |m| > 2 && m[2] == 'e'
  {
    var ms := Markers(ExperienceRequests(experiences));
    forall i, j | 0 <= i < j < |ms|
      ensures ms[i] != ms[j]
    {
      ExperienceMarkerInjective(i + 1, j + 1);
    }
  }

  /** Distinctness of a batch laid out as one, many, some, some, one markers. */
  lemma DistinctLayout(a: string, es: seq<string>, cs: seq<string>, ps: seq<string>, e: string)
    requires Distinct(es) && Distinct(cs) && Distinct(ps)
    requires forall m :: m in es ==> |m| > 2 && m[2] == 'e'
    requires |a| > 2 && a[2] != 'e' && a !in cs && a !in ps && a != e
    requires forall m :: m in cs ==> |m| > 2 && m[2] != 'e' && m !in ps && m != e
    requires forall m :: m in ps ==> |m| > 2 && m[2] != 'e' && m != e
    requires |e| > 2 && e[2] != 'e'
    ensures Distinct([a] + es + cs + ps + [e])
  {
  }

  /**
   * The project markers of a batch (none, or all ten) are pairwise distinct,
   * carry 'p' at index 2 and differ from the summary marker.
   */
  lemma ProjectMarkerTags(ps: seq<string>)
    requires ps == [] || ps == ProjectOneMarkers + ProjectTwoMarkers
    ensures Distinct(ps) && forall m :: m in ps ==> |m| > 2 && m[2] == 'p' && m != SummaryMarker
  {
  }

  /**
   * The summary, skills and coursework markers, and project markers as
   * `ProjectMarkerTags` describes them: the two skills markers differ; the
   * summary marker differs from the skills, project and coursework markers;
   * no skills or project marker is the coursework marker; and none of them
   * carries the experience tag 'e' at index 2.
   */
  lemma FixedMarkersDisjoint(ps: seq<string>)
    requires Distinct(ps) && forall m :: m in ps ==> |m| > 2 && m[2] == 'p' && m != SummaryMarker
    ensures Distinct([SkillsMarker, SkillsSummaryMarker])
    ensures SummaryMarker[2] != 'e' && SummaryMarker !in [SkillsMarker, SkillsSummaryMarker]
    ensures SummaryMarker !in ps && SummaryMarker != CourseworkMarker
    ensures forall m :: m in [SkillsMarker, SkillsSummaryMarker] ==> |m| > 2 && m[2] != 'e' && m !in ps && m != CourseworkMarker
    ensures forall m :: m in ps ==> |m| > 2 && m[2] != 'e' && m != CourseworkMarker
    ensures |CourseworkMarker| > 2 && CourseworkMarker[2] != 'e'
  {
  }

  /**
   * No two requests of a batch share a marker: each marker of the template
   * is the target of at most one request.
   */
  lemma AssemblyMarkersDistinct(data: ResumeData)
    requires AssemblyRequests(data).Success?
    ensures Distinct(Markers(AssemblyRequests(data).value))
  {
    var ps := Markers(ProjectRequests(data.projects.projects).value);
    var es := Markers(ExperienceRequests(data.experiences));
    AssemblyMarkers(data);
    ExperienceMarkersDistinct(data.experiences);
    ProjectMarkerTags(ps);
    FixedMarkersDisjoint(ps);
    DistinctLayout(SummaryMarker, es, [SkillsMarker, SkillsSummaryMarker], ps, CourseworkMarker);
  }

  /** The markers of a batch, section by section. */
  lemma AssemblyMarkers(data: ResumeData)
    requires AssemblyRequests(data).Success?
    ensures Markers(AssemblyRequests(data).value)
            == [SummaryMarker] + Markers(ExperienceRequests(data.experiences)) + [SkillsMarker, SkillsSummaryMarker]
               + Markers(ProjectRequests(data.projects.projects).value) + [CourseworkMarker]
  {
  }

  /** With fewer than two projects no project marker is replaced; the template keeps them. */
  lemma NoProjectMarkersBelowTwo(data: ResumeData)
    requires |data.projects.projects| < 2
    ensures AssemblyRequests(data).Success?
    ensures forall m :: m in Markers(AssemblyRequests(data).value) ==> m !in ProjectOneMarkers + ProjectTwoMarkers
  {
    var es := Markers(ExperienceRequests(data.experiences));
    AssemblyMarkers(data);
    assert Markers(ProjectRequests(data.projects.projects).value) == [];
    ExperienceMarkersDistinct(data.experiences);
    ProjectMarkerTags(ProjectOneMarkers + ProjectTwoMarkers);
    NonProjectMarkers(es, ProjectOneMarkers + ProjectTwoMarkers);
  }

  lemma NonProjectMarkers(es: seq<string>, ps: seq<string>)
    requires forall m :: m in es ==> |m| > 2 && m[2] == 'e'
    requires forall m :: m in ps ==> |m| > 2 && m[2] == 'p' && m != SummaryMarker
    ensures forall m :: m in [SummaryMarker] + es + [SkillsMarker, SkillsSummaryMarker] + [CourseworkMarker] ==> m !in ps
  {
  }

  // ------------------------------------------------------------- builder

  class ResumeDocumentBuilder {
    const title: string
    const templateId: string
    /** The id of the document copied from the template; the copy is remote. */
    const documentId: string
    var requests: seq<Request>

    constructor (title: string, language: string, templates: TemplateSettings, documentId: string)
      ensures this.title == title && this.documentId == documentId
      ensures templateId == TemplateFor(language, templates)
      ensures requests == []
    {
      this.title := title;
      this.templateId := TemplateFor(language, templates);
      this.documentId := documentId;
      this.requests := [];
    }

    method AddProfessionalSummary(summary: string) returns (builder: ResumeDocumentBuilder)
      modifies this
      ensures builder == this
      ensures requests == old(requests) + [Replace(SummaryMarker, summary)]
    {
      requests := requests + [Replace(SummaryMarker, summary)];
      return this;
    }

    method AddExperiences(experiences: seq<string>) returns (builder: ResumeDocumentBuilder)
      modifies this
      ensures builder == this
      ensures requests == old(requests) + ExperienceRequests(experiences)
    {
      var idx := 1;
      while idx <= |experiences|
        invariant 1 <= idx <= |experiences| + 1
        invariant requests == old(requests) + ExperienceRequests(experiences[..idx - 1])
      {
        assert ExperienceRequests(experiences[..idx]) ==
               ExperienceRequests(experiences[..idx - 1]) + [Replace(ExperienceMarker(idx), experiences[idx - 1])];
        requests := requests + [Replace(ExperienceMarker(idx), experiences[idx - 1])];
        idx := idx + 1;
      }
      assert experiences[..idx - 1] == experiences;
      return this;
    }

    method AddSkills(skills: SkillsSection) returns (builder: ResumeDocumentBuilder)
      modifies this
      ensures builder == this
      ensures requests == old(requests) + SkillsRequests(skills)
    {
      requests := requests + [Replace(SkillsMarker, skills.commaSeparatedText),
                              Replace(SkillsSummaryMarker, skills.summaryText)];
      return this;
    }

    /**
     * Fewer than two projects add nothing. Otherwise the ten requests are
     * built first and appended together, so an out-of-range bullet index
     * leaves the requests as they were.
     */
    method AddProjects(projects: ProjectsSection) returns (r: Result<ResumeDocumentBuilder, DocumentError>)
      modifies this
      ensures r.Success? <==> ProjectRequests(projects.projects).Success?
      ensures r.Success? ==> r.value == this && requests == old(requests) + ProjectRequests(projects.projects).value
      ensures r.Failure? ==> r.error == ProjectRequests(projects.projects).error && requests == old(requests)
    {
      if |projects.projects| >= 2 {
        var a := projects.projects[0];
        var b := projects.projects[1];
        if |a.formattedBullets| < 2 {
          return Failure(BulletIndexError(0, |a.formattedBullets|));
        }
        if |b.formattedBullets| < 2 {
          return Failure(BulletIndexError(1, |b.formattedBullets|));
        }
        var projectRequests := [
          Replace(ProjectOneMarkers[0], a.name),
          Replace(ProjectOneMarkers[1], "(" + a.url + ")"),
          Replace(ProjectOneMarkers[2], a.date),
          Replace(ProjectOneMarkers[3], a.formattedBullets[0]),
          Replace(ProjectOneMarkers[4], a.formattedBullets[1]),
          Replace(ProjectTwoMarkers[0], b.name),
          Replace(ProjectTwoMarkers[1], "(" + b.url + ")"),
          Replace(ProjectTwoMarkers[2], b.date),
          Replace(ProjectTwoMarkers[3], b.formattedBullets[0]),
          Replace(ProjectTwoMarkers[4], b.formattedBullets[1])];
        ghost var one: seq<Request> := ProjectBlock(ProjectOneMarkers, a);
        ghost var two: seq<Request> := ProjectBlock(ProjectTwoMarkers, b);
        ghost var textsA, textsB := ProjectTexts(a), ProjectTexts(b);
        assert textsA[1] == "(" + a.url + ")" && textsB[1] == "(" + b.url + ")";
        forall k | 0 <= k < 5
          ensures projectRequests[k] == one[k] && projectRequests[5 + k] == two[k]
        {
        }
        assert projectRequests[..5] == one;
        assert projectRequests[5..] == two;
        assert projectRequests == one + two;
        requests := requests + projectRequests;
      }
      return Success(this);
    }

    method AddCoursework(coursework: CourseworkSection) returns (builder: ResumeDocumentBuilder)
      modifies this
      ensures builder == this
      ensures requests == old(requests) + [Replace(CourseworkMarker, coursework.commaSeparatedText)]
    {
      requests := requests + [Replace(CourseworkMarker, coursework.commaSeparatedText)];
      return this;
    }

    /**
     * Submits all requests as one batch to the copied document. A rejected
     * submission becomes an assembly failure; the copied document stays.
     */
    method Build(submission: SubmitOutcome) returns (r: Result<ResumeDocument, DocumentError>, batch: BatchUpdate)
      ensures batch == BatchUpdate(documentId, requests)
      ensures r.Success? <==> submission.Submitted?
      ensures r.Success? ==> r.value == ResumeDocument(documentId, title, DocumentUrl(documentId))
      ensures submission.Rejected? ==> r.error == AssemblyFailed("Failed to create resume document: " + submission.cause)
    {
      batch := BatchUpdate(documentId, requests);
      match submission
      case Submitted =>
        r := Success(ResumeDocument(documentId, title, DocumentUrl(documentId)));
      case Rejected(cause) =>
        r := Failure(AssemblyFailed("Failed to create resume document: " + cause));
    }
  }

  /**
   * Copies the template for `language` (the copy's id is `documentId`), adds
   * summary, experiences, skills, projects and coursework in this order, and
   * submits the batch. `batch` is the submitted batch, None when adding the
   * projects failed before anything was submitted.
   */
  method CreateResumeDocument(
    data: ResumeData,
    language: string,
    templates: TemplateSettings,
    documentId: string,
    submission: SubmitOutcome)
    returns (r: Result<ResumeDocument, DocumentError>, templateId: string, batch: Option<BatchUpdate>)
    ensures templateId == TemplateFor(language, templates)
    ensures AssemblyRequests(data).Failure? ==> r == Failure(AssemblyRequests(data).error) && batch == None
    ensures AssemblyRequests(data).Success? ==> batch == Some(BatchUpdate(documentId, AssemblyRequests(data).value))
    ensures r.Success? <==> AssemblyRequests(data).Success? && submission.Submitted?
    ensures r.Success? ==> r.value == ResumeDocument(documentId, data.title, DocumentUrl(documentId))
    ensures AssemblyRequests(data).Success? && submission.Rejected? ==>
              r == Failure(AssemblyFailed("Failed to create resume document: " + submission.cause))
  {
    var builder := new ResumeDocumentBuilder(data.title, language, templates, documentId);
    templateId := builder.templateId;
    builder := builder.AddProfessionalSummary(data.professionalSummary);
    builder := builder.AddExperiences(data.experiences);
    builder := builder.AddSkills(data.skills);
    var added := builder.AddProjects(data.projects);
    if added.Failure? {
      return Failure(added.error), templateId, None;
    }
    builder := builder.AddCoursework(data.coursework);
    assert builder.requests == [Replace(SummaryMarker, data.professionalSummary)]
                               + ExperienceRequests(data.experiences)
                               + SkillsRequests(data.skills)
                               + ProjectRequests(data.projects.projects).value
                               + [Replace(CourseworkMarker, data.coursework.commaSeparatedText)];
    var submitted;
    r, submitted := builder.Build(submission);
    batch := Some(submitted);
  }
}
