/**
 * The hand-over from generated content to document data in the résumé
 * endpoint (app/routers/resume.py): the document title and the experiences
 * reduced to their formatted text.
 */
module ResumeRouter {
  import opened Languages
  import opened ResumeGenerator
  import opened GoogleDocs

  function ResumeDataFor(content: ResumeContent, language: string, personName: string): (data: ResumeData)
    ensures data.title == LanguageName(language) + " Resume - " + personName
    ensures data.professionalSummary == content.professionalSummary.summary
    ensures |data.experiences| == |content.selectedExperiences|
    ensures forall i :: 0 <= i < |data.experiences| ==>
              data.experiences[i] == content.selectedExperiences[i].formattedText
    ensures data.skills == content.skills && data.projects == content.projects && data.coursework == content.coursework
  {
    var experiences := content.selectedExperiences;
    ResumeData(
      LanguageName(language) + " Resume - " + personName,
      content.professionalSummary.summary,
      seq(|experiences|, i requires 0 <= i < |experiences| => experiences[i].formattedText),
      content.skills,
      content.projects,
      content.coursework)
  }

  /**
   * The i-th selected experience fills the marker numbered i + 1, and the
   * batch grows by exactly one request per selected experience.
   */
  lemma PublishedExperiences(content: ResumeContent, language: string, personName: string)
    requires AssemblyRequests(ResumeDataFor(content, language, personName)).Success?
    ensures var rs, n := AssemblyRequests(ResumeDataFor(content, language, personName)).value, |content.selectedExperiences|;
      && |rs| == n + 4 + (if |content.projects.projects| >= 2 then 10 else 0)
      && forall i :: 0 <= i < n ==>
           rs[1 + i] == Replace(ExperienceMarker(i + 1), content.selectedExperiences[i].formattedText)
  {
  }
}
