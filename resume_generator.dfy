/**
 * Tailored résumé content (app/services/resume_generator.py): the schema of
 * each generated section, the configuration constants, the language policies,
 * and the builder that fills one section slot per generation stage.
 *
 * The generative service is an oracle: each stage receives its reply as a
 * parameter. `Replied(parsed)` is a completed call whose structured result is
 * `parsed` (None when the service output could not be parsed into the schema);
 * `CallFailed(cause)` is a call that raised.
 */
module ResumeGenerator {
  import opened Wrappers
  import opened Languages

  // ---------------------------------------------------------------- schema

  datatype ExperienceBullet = ExperienceBullet(
    what: string,
    how: string,
    impact: string,
    techStack: seq<string>,
    formattedText: string)

  datatype ProfessionalSummary = ProfessionalSummary(summary: string)

  datatype SkillsSection = SkillsSection(
    relevantTools: seq<string>,
    summaryText: string,
    commaSeparatedText: string)

  datatype CourseworkSection = CourseworkSection(
    selectedCoursework: seq<string>,
    commaSeparatedText: string)

  datatype Project = Project(
    name: string,
    url: string,
    date: string,
    techStack: seq<string>,
    formattedBullets: seq<string>)

  datatype ProjectsSection = ProjectsSection(projects: seq<Project>)

  datatype ResumeContent = ResumeContent(
    professionalSummary: ProfessionalSummary,
    selectedExperiences: seq<ExperienceBullet>,
    skills: SkillsSection,
    projects: ProjectsSection,
    coursework: CourseworkSection)

  // ------------------------------------------------------- stages and errors

  datatype Stage = SummaryStage | SkillsStage | ExperiencesStage | ProjectsStage | CourseworkStage

  datatype Reply<+T> = Replied(parsed: Option<T>) | CallFailed(cause: string)

  datatype ContentError =
    | GenerationFailed(stage: Stage, cause: string)
      /** The aggregate model rejected these fields, in declaration order. */
    | ValidationFailed(fields: seq<string>)

  // ------------------------------------------------------------- constants

  const MaxExperienceBulletWords: nat := 150
  const MaxProjectBulletWords: nat := 150
  const MaxProjects: nat := 2
  const MaxCoursework: nat := 5
  const MaxSummarySentences: nat := 2
  const MaxExperienceBullets: nat := 4

  const EnglishCourseworkPrefix := "Relevant Coursework:"
  const KoreanCourseworkPrefix := "관련 수강과목:"

  // ------------------------------------------------------ language policies

  /** Korean output is allowed one sentence more than the base limit. */
  function SummarySentenceLimit(language: string): (n: nat)
    ensures n == MaxSummarySentences + 1 <==> language == "kr"
    ensures n == MaxSummarySentences <==> language != "kr"
  {
    if language == "kr" then MaxSummarySentences + 1 else MaxSummarySentences
  }

  /** The label the coursework line is asked to start with. */
  function CourseworkPrefix(language: string): (prefix: string)
    ensures prefix == KoreanCourseworkPrefix <==> language == "kr"
    ensures prefix == EnglishCourseworkPrefix <==> language != "kr"
  {
    if language == "kr" then KoreanCourseworkPrefix else EnglishCourseworkPrefix
  }

  /**
   * For the two codes of the literal type, the Korean display name, the
   * larger sentence limit and the Korean coursework label go together.
   */
  lemma LanguagePoliciesAgree(language: Language)
    ensures LanguageName(language) == "Korean" <==> SummarySentenceLimit(language) == 3
    ensures LanguageName(language) == "Korean" <==> CourseworkPrefix(language) == KoreanCourseworkPrefix
  {
  }

  /**
   * A code outside the literal type (such as "ko") is named Korean, yet gets
   * the English sentence limit and coursework label.
   */
  lemma UnlistedCodeMixesPolicies(language: string)
    requires !IsLanguage(language)
    ensures LanguageName(language) == "Korean"
    ensures SummarySentenceLimit(language) == MaxSummarySentences
    ensures CourseworkPrefix(language) == EnglishCourseworkPrefix
  {
  }

  // ----------------------------------------------------------- aggregation

  /** The fields of the aggregate that are still unset, in declaration order. */
  function UnsetSections(
    summary: Option<ProfessionalSummary>,
    experiences: Option<seq<ExperienceBullet>>,
    skills: Option<SkillsSection>,
    projects: Option<ProjectsSection>,
    coursework: Option<CourseworkSection>): (fields: seq<string>)
    ensures "professional_summary" in fields <==> summary.None?
    ensures "selected_experiences" in fields <==> experiences.None?
    ensures "skills" in fields <==> skills.None?
    ensures "projects" in fields <==> projects.None?
    ensures "coursework" in fields <==> coursework.None?
    ensures fields == [] <==> summary.Some? && experiences.Some? && skills.Some? && projects.Some? && coursework.Some?
    ensures |fields| <= 5
  {
    (if summary.None? then ["professional_summary"] else [])
    + (if experiences.None? then ["selected_experiences"] else [])
    + (if skills.None? then ["skills"] else [])
    + (if projects.None? then ["projects"] else [])
    + (if coursework.None? then ["coursework"] else [])
  }

  // ---------------------------------------------------------------- builder

  class ResumeContentBuilder {
    const jobDescription: string
    const language: string
    const languageName: string
    const maxSummarySentences: nat

    var professionalSummary: Option<ProfessionalSummary>
    var selectedExperiences: Option<seq<ExperienceBullet>>
    var skills: Option<SkillsSection>
    var projects: Option<ProjectsSection>
    var coursework: Option<CourseworkSection>

    constructor (jobDescription: string, language: string)
      ensures this.jobDescription == jobDescription && this.language == language
      ensures languageName == LanguageName(language)
      ensures maxSummarySentences == SummarySentenceLimit(language)
      ensures professionalSummary == None && selectedExperiences == None && skills == None
      ensures projects == None && coursework == None
    {
      this.jobDescription := jobDescription;
      this.language := language;
      this.languageName := LanguageName(language);
      this.professionalSummary := None;
      this.selectedExperiences := None;
      this.skills := None;
      this.projects := None;
      this.coursework := None;
      this.maxSummarySentences := SummarySentenceLimit(language);
    }

    method BuildProfessionalSummary(reply: Reply<ProfessionalSummary>) returns (r: Result<ResumeContentBuilder, ContentError>)
      modifies this
      ensures reply.CallFailed? ==> r == Failure(GenerationFailed(SummaryStage, reply.cause)) && unchanged(this)
      ensures reply.Replied? ==> r == Success(this) && professionalSummary == reply.parsed
      ensures unchanged(this`selectedExperiences, this`skills, this`projects, this`coursework)
    {
      if reply.CallFailed? {
        return Failure(GenerationFailed(SummaryStage, reply.cause));
      }
      professionalSummary := reply.parsed;
      return Success(this);
    }

    method BuildSkills(reply: Reply<SkillsSection>) returns (r: Result<ResumeContentBuilder, ContentError>)
      modifies this
      ensures reply.CallFailed? ==> r == Failure(GenerationFailed(SkillsStage, reply.cause)) && unchanged(this)
      ensures reply.Replied? ==> r == Success(this) && skills == reply.parsed
      ensures unchanged(this`professionalSummary, this`selectedExperiences, this`projects, this`coursework)
    {
      if reply.CallFailed? {
        return Failure(GenerationFailed(SkillsStage, reply.cause));
      }
      skills := reply.parsed;
      return Success(this);
    }

    method BuildExperiences(reply: Reply<seq<ExperienceBullet>>) returns (r: Result<ResumeContentBuilder, ContentError>)
      modifies this
      ensures reply.CallFailed? ==> r == Failure(GenerationFailed(ExperiencesStage, reply.cause)) && unchanged(this)
      ensures reply.Replied? ==> r == Success(this) && selectedExperiences == reply.parsed
      ensures unchanged(this`professionalSummary, this`skills, this`projects, this`coursework)
    {
      if reply.CallFailed? {
        return Failure(GenerationFailed(ExperiencesStage, reply.cause));
      }
      selectedExperiences := reply.parsed;
      return Success(this);
    }

    method BuildProjects(reply: Reply<ProjectsSection>) returns (r: Result<ResumeContentBuilder, ContentError>)
      modifies this
      ensures reply.CallFailed? ==> r == Failure(GenerationFailed(ProjectsStage, reply.cause)) && unchanged(this)
      ensures reply.Replied? ==> r == Success(this) && projects == reply.parsed
      ensures unchanged(this`professionalSummary, this`selectedExperiences, this`skills, this`coursework)
    {
      if reply.CallFailed? {
        return Failure(GenerationFailed(ProjectsStage, reply.cause));
      }
      projects := reply.parsed;
      return Success(this);
    }

    /** The prompt of this stage carries CourseworkPrefix(language); the reply is not checked against it. */
    method BuildCoursework(reply: Reply<CourseworkSection>) returns (r: Result<ResumeContentBuilder, ContentError>)
      modifies this
      ensures reply.CallFailed? ==> r == Failure(GenerationFailed(CourseworkStage, reply.cause)) && unchanged(this)
      ensures reply.Replied? ==> r == Success(this) && coursework == reply.parsed
      ensures unchanged(this`professionalSummary, this`selectedExperiences, this`skills, this`projects)
    {
      if reply.CallFailed? {
        return Failure(GenerationFailed(CourseworkStage, reply.cause));
      }
      coursework := reply.parsed;
      return Success(this);
    }

    /** The aggregate of the five slots; an unset slot is a validation error. */
    function Build(): (r: Result<ResumeContent, ContentError>)
      reads this
      ensures r.Success? <==> professionalSummary.Some? && selectedExperiences.Some? && skills.Some? && projects.Some? && coursework.Some?
      ensures r.Success? ==> (
                && r.value.professionalSummary == professionalSummary.value
                && r.value.selectedExperiences == selectedExperiences.value
                && r.value.skills == skills.value
                && r.value.projects == projects.value
                && r.value.coursework == coursework.value)
      ensures r.Failure? ==> r.error == ValidationFailed(UnsetSections(professionalSummary, selectedExperiences, skills, projects, coursework))
    {
      match (professionalSummary, selectedExperiences, skills, projects, coursework)
      case (Some(s), Some(e), Some(k), Some(p), Some(c)) => Success(ResumeContent(s, e, k, p, c))
      case _ => Failure(ValidationFailed(UnsetSections(professionalSummary, selectedExperiences, skills, projects, coursework)))
    }
  }

  // ----------------------------------------------------------- the pipeline

  predicate NoCallFailed<A, B, C, D, E>(a: Reply<A>, b: Reply<B>, c: Reply<C>, d: Reply<D>, e: Reply<E>) {
    a.Replied? && b.Replied? && c.Replied? && d.Replied? && e.Replied?
  }

  /**
   * Runs the stages in the order summary, skills, experiences, projects,
   * coursework, then aggregates. The first stage whose call fails aborts the
   * run; otherwise the aggregate succeeds exactly when every reply parsed.
   */
  method GenerateResume(
    jobDescription: string,
    language: string,
    summary: Reply<ProfessionalSummary>,
    skills: Reply<SkillsSection>,
    experiences: Reply<seq<ExperienceBullet>>,
    projects: Reply<ProjectsSection>,
    coursework: Reply<CourseworkSection>)
    returns (r: Result<ResumeContent, ContentError>)
    ensures summary.CallFailed? ==> r == Failure(GenerationFailed(SummaryStage, summary.cause))
    ensures summary.Replied? && skills.CallFailed? ==> r == Failure(GenerationFailed(SkillsStage, skills.cause))
    ensures summary.Replied? && skills.Replied? && experiences.CallFailed? ==>
              r == Failure(GenerationFailed(ExperiencesStage, experiences.cause))
    ensures summary.Replied? && skills.Replied? && experiences.Replied? && projects.CallFailed? ==>
              r == Failure(GenerationFailed(ProjectsStage, projects.cause))
    ensures summary.Replied? && skills.Replied? && experiences.Replied? && projects.Replied? && coursework.CallFailed? ==>
              r == Failure(GenerationFailed(CourseworkStage, coursework.cause))
    ensures r.Success? <==> NoCallFailed(summary, skills, experiences, projects, coursework)
                            && summary.parsed.Some? && experiences.parsed.Some? && skills.parsed.Some?
                            && projects.parsed.Some? && coursework.parsed.Some?
    ensures r.Success? ==> r.value == ResumeContent(summary.parsed.value, experiences.parsed.value, skills.parsed.value,
                                                    projects.parsed.value, coursework.parsed.value)
    ensures NoCallFailed(summary, skills, experiences, projects, coursework) && r.Failure? ==>
              r.error == ValidationFailed(UnsetSections(summary.parsed, experiences.parsed, skills.parsed, projects.parsed, coursework.parsed))
  {
    var builder := new ResumeContentBuilder(jobDescription, language);
    var step := builder.BuildProfessionalSummary(summary);
    if step.Failure? { return Failure(step.error); }
    step := builder.BuildSkills(skills);
    if step.Failure? { return Failure(step.error); }
    step := builder.BuildExperiences(experiences);
    if step.Failure? { return Failure(step.error); }
    step := builder.BuildProjects(projects);
    if step.Failure? { return Failure(step.error); }
    step := builder.BuildCoursework(coursework);
    if step.Failure? { return Failure(step.error); }
    r := builder.Build();
  }
}
