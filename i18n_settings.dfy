/**
 * The i18next options builder: fixed supported languages, fallbacks and
 * load path, with the language and the namespaces as defaulted parameters.
 */
module I18nSettings {
  import opened Common

  const DefaultLanguage := "ar"
  const DefaultNamespaces: seq<string> := ["common", "bills", "lofts", "owners", "dashboard"]
  const SupportedLanguages: seq<string> := ["en", "fr", "ar"]
  const LoadPath := "./public/locales/{{lng}}/{{ns}}.json"

  datatype Options = Options(
    debug: bool,
    supportedLngs: seq<string>,
    fallbackLng: string,
    lng: string,
    fallbackNS: string,
    defaultNS: string,
    ns: seq<string>,
    loadPath: string)

  /**
   * `getOptions(lng, ns)`. A JavaScript default applies only to a missing
   * (undefined) argument, so an empty language is kept as given.
   */
  function GetOptions(lng: Option<string>, ns: Option<seq<string>>): (o: Options)
    ensures o.lng == (if lng.Some? then lng.value else DefaultLanguage)
    ensures o.ns == (if ns.Some? then ns.value else DefaultNamespaces)
    ensures o.debug
    ensures o.supportedLngs == SupportedLanguages
    ensures o.fallbackLng == DefaultLanguage && o.fallbackLng in o.supportedLngs
    ensures o.defaultNS == o.fallbackNS == "common"
    ensures o.loadPath == LoadPath
  {
    Options(
      debug := true,
      supportedLngs := SupportedLanguages,
      fallbackLng := DefaultLanguage,
      lng := if lng.Some? then lng.value else DefaultLanguage,
      fallbackNS := "common",
      defaultNS := "common",
      ns := if ns.Some? then ns.value else DefaultNamespaces,
      loadPath := LoadPath)
  }

  /**
   * With no arguments the options name Arabic, and the default namespace is
   * one of the namespaces loaded.
   */
  lemma DefaultOptions()
    ensures GetOptions(None, None).lng == "ar"
    ensures GetOptions(None, None).lng in GetOptions(None, None).supportedLngs
    ensures GetOptions(None, None).defaultNS in GetOptions(None, None).ns
  {
    assert DefaultNamespaces[0] == "common";
  }

  /** Only the two parameters vary: any two calls agree on every other option. */
  lemma OptionsDifferOnlyInParameters(l1: Option<string>, n1: Option<seq<string>>,
                                      l2: Option<string>, n2: Option<seq<string>>)
    ensures GetOptions(l1, n1).(lng := "", ns := []) == GetOptions(l2, n2).(lng := "", ns := [])
  {
  }
}
