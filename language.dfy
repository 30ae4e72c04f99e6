/** Language codes and their display names (app/utils/language.py). */
module Languages {

  /** The two codes the language literal type admits. */
  predicate IsLanguage(code: string) {
    code == "en" || code == "kr"
  }

  type Language = code: string | IsLanguage(code) witness "en"

  /**
   * The display name of a code. Only "en" is compared; every other code,
   * including ones outside the literal type, is named Korean.
   */
  function LanguageName(code: string): (name: string)
    ensures name == "English" <==> code == "en"
    ensures name == "Korean" <==> code != "en"
  {
    if code == "en" then "English" else "Korean"
  }

  /** Over the literal type the name determines the code, and back. */
  lemma LanguageNameDeterminesCode(a: Language, b: Language)
    ensures LanguageName(a) == LanguageName(b) <==> a == b
  {
  }
}
