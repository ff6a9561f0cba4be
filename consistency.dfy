/**
 * How the three places that list languages relate: the selector's menu,
 * the options' supported languages and the provider's whitelist for a
 * saved choice name the same three codes, while each of them starts from a
 * different default.
 */
module Consistency {
  import opened Common
  import LanguageSelector
  import I18nSettings
  import I18nContext

  /** The codes every list of languages agrees on. */
  const Codes: set<string> := {"en", "fr", "ar"}

  /** The menu, the supported languages and the saved-language whitelist are the same set. */
  lemma SameLanguageSets()
    ensures (set c | c in LanguageSelector.Codes(LanguageSelector.Languages)) == Codes
    ensures (set c | c in I18nSettings.SupportedLanguages) == Codes
    ensures (set c | c in I18nContext.SavedLanguageWhitelist) == Codes
  {
    LanguageSelector.LanguageTable();
    var menu := LanguageSelector.Codes(LanguageSelector.Languages);
    assert forall c :: c in menu <==> c == "fr" || c == "en" || c == "ar";
  }

  /** Any language picked from the menu is accepted as a saved language on the next start. */
  lemma MenuChoiceIsRestorable(i: int)
    requires 0 <= i < |LanguageSelector.Languages|
    ensures I18nContext.AppliesSavedLanguage(Some(LanguageSelector.Languages[i].code))
  {
    LanguageSelector.LanguageTable();
    assert LanguageSelector.Languages[i].code in LanguageSelector.Codes(LanguageSelector.Languages);
  }

  /**
   * The defaults disagree: the provider starts in English, falls back to
   * French, the options default to Arabic, and the selector shows French
   * for an unknown code.
   */
  lemma DefaultsDiffer()
    ensures I18nContext.InitialLanguage == "en"
    ensures I18nContext.FallbackLanguage == "fr"
    ensures I18nSettings.GetOptions(None, None).lng == "ar"
    ensures LanguageSelector.CurrentLanguage("").code == "fr"
    ensures |{I18nContext.InitialLanguage, I18nContext.FallbackLanguage,
              I18nSettings.GetOptions(None, None).lng}| == 3
  {
    assert "" !in {"fr", "en", "ar"};
  }
}
