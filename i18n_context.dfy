/**
 * The i18n provider: its initialisation (applying a saved language only
 * from the whitelist), the context value it derives (readiness, the stub
 * translator), its guarded `changeLanguage`, and the namespace handling of
 * `useTranslation`. The i18next instance itself is foreign; only its current
 * language is kept.
 */
module I18nContext {
  import opened Common

  /** The languages a saved choice may name. */
  const SavedLanguageWhitelist: seq<string> := ["en", "fr", "ar"]

  /** The provider's language before initialisation. */
  const InitialLanguage := "en"

  /** The language used when the instance reports none. */
  const FallbackLanguage := "fr"

  /** The foreign i18next instance, reduced to its current language. */
  datatype Instance = Instance(language: string)

  /** `savedLanguage && ['en', 'fr', 'ar'].includes(savedLanguage)`. */
  predicate AppliesSavedLanguage(saved: Option<string>)
  {
    Truthy(saved) && saved.value in SavedLanguageWhitelist
  }

  /** How loading and `init()` of the instance went: the language it reports, or a throw. */
  datatype InitOutcome = InitLoaded(detectedLanguage: string) | InitThrew

  /** How an awaited `changeLanguage` on the instance went. */
  datatype CallOutcome = CallResolved | CallThrew

  /** Whether initialisation reaches `setI18nInstance`. */
  predicate InitSucceeds(init: InitOutcome, saved: Option<string>, savedChange: CallOutcome)
  {
    init.InitLoaded? && (AppliesSavedLanguage(saved) ==> savedChange == CallResolved)
  }

  /** The instance's language after a successful initialisation. */
  function InstanceLanguageAfterInit(init: InitOutcome, saved: Option<string>): (lang: string)
    requires init.InitLoaded?
    ensures AppliesSavedLanguage(saved) ==> lang == saved.value && lang in SavedLanguageWhitelist
    ensures !AppliesSavedLanguage(saved) ==> lang == init.detectedLanguage
  {
    if AppliesSavedLanguage(saved) then saved.value else init.detectedLanguage
  }

  /** What the provider hands to its consumers. */
  datatype ContextView = ContextView(stubTranslator: bool, ready: bool, language: string, rendersChildren: bool)

  /** `contextValue` and the provider's render decision. */
  function ContextValue(ready: bool, instance: Option<Instance>, currentLanguage: string): (v: ContextView)
    ensures v.stubTranslator <==> instance.None?
    ensures v.ready <==> ready && instance.Some?
    ensures v.rendersChildren <==> v.ready
    ensures v.language == currentLanguage
  {
    ContextView(instance.None?, ready && instance.Some?, currentLanguage, ready && instance.Some?)
  }

  /** `t` before an instance exists: the stub `() => ''`; afterwards the instance's own, which is foreign. */
  function Translate(instance: Option<Instance>, key: string, lookup: (Instance, string) -> string): (text: string)
    ensures instance.None? ==> text == ""
    ensures instance.Some? ==> text == lookup(instance.value, key)
  {
    if instance.None? then "" else lookup(instance.value, key)
  }

  class I18nProvider {
    var ready: bool
    var instance: Option<Instance>
    var currentLanguage: string

    constructor ()
      ensures !ready && instance == None && currentLanguage == InitialLanguage
    {
      ready := false;
      instance := None;
      currentLanguage := InitialLanguage;
    }

    function View(): ContextView
      reads this
    {
      ContextValue(ready, instance, currentLanguage)
    }

    /**
     * `initializeI18n`. A throw anywhere before `setI18nInstance` leaves only
     * `ready` set, which is not enough for the context to be ready.
     */
    method Initialize(init: InitOutcome, saved: Option<string>, savedChange: CallOutcome)
      modifies this
      ensures ready
      ensures !InitSucceeds(init, saved, savedChange) ==>
        instance == old(instance) && currentLanguage == old(currentLanguage)
      ensures InitSucceeds(init, saved, savedChange) ==>
        instance == Some(Instance(InstanceLanguageAfterInit(init, saved)))
        && currentLanguage == (if InstanceLanguageAfterInit(init, saved) != ""
                               then InstanceLanguageAfterInit(init, saved) else FallbackLanguage)
    {
      if !InitSucceeds(init, saved, savedChange) {
        ready := true;
        return;
      }
      var loaded := Instance(InstanceLanguageAfterInit(init, saved));
      instance := Some(loaded);
      currentLanguage := OrElse(Some(loaded.language), FallbackLanguage);
      ready := true;
    }

    /**
     * The context's `changeLanguage`: nothing without an instance; a throw
     * from the instance is caught, so the call itself never fails. A throw
     * from the later resource reloads comes after the language is set.
     */
    method ChangeLanguage(lng: string, change: CallOutcome)
      modifies this
      ensures ready == old(ready)
      ensures old(instance).None? || change == CallThrew ==>
        instance == old(instance) && currentLanguage == old(currentLanguage)
      ensures old(instance).Some? && change == CallResolved ==>
        instance == Some(Instance(lng)) && currentLanguage == lng
    {
      if instance.Some? && change == CallResolved {
        instance := Some(Instance(lng));
        currentLanguage := lng;
      }
    }
  }

  /** A provider whose initialisation threw is never ready and never renders its children. */
  method InitFailureIsNotReady(saved: Option<string>, savedChange: CallOutcome) returns (v: ContextView)
    ensures !v.ready && !v.rendersChildren && v.stubTranslator
    ensures v.language == InitialLanguage
  {
    var provider := new I18nProvider();
    provider.Initialize(InitThrew, saved, savedChange);
    v := provider.View();
  }

  /** The `namespaces` argument of `useTranslation`. */
  datatype NamespaceArg = NoNamespaces | Single(ns: string) | Several(list: seq<string>)

  /** `Array.isArray(namespaces) ? namespaces : [namespaces]`, behind the truthiness guard. */
  function NormaliseNamespaces(arg: NamespaceArg): (nss: seq<string>)
    ensures arg.NoNamespaces? ==> nss == []
    ensures arg.Single? && arg.ns != "" ==> nss == [arg.ns]
    ensures arg.Single? && arg.ns == "" ==> nss == []
    ensures arg.Several? ==> nss == arg.list
  {
    match arg
    case NoNamespaces => []
    case Single(ns) => if ns != "" then [ns] else []
    case Several(list) => list
  }

  /** The namespaces passed to `loadNamespaces`, in order: those without a bundle for the current language. */
  function NamespacesToLoad(nss: seq<string>, hasBundle: set<string>): (loads: seq<string>)
    ensures |loads| <= |nss|
    ensures forall ns :: ns in loads <==> ns in nss && ns !in hasBundle
  {
    if nss == [] then []
    else
      var rest := NamespacesToLoad(nss[1..], hasBundle);
      assert forall ns :: ns in nss <==> ns == nss[0] || ns in nss[1..];
      if nss[0] in hasBundle then rest else [nss[0]] + rest
  }

  /** `useTranslation`: throws outside a provider, otherwise returns the context and requests loads. */
  datatype UseResult = OutsideProvider | InsideProvider(context: ContextView, loads: seq<string>)

  function UseTranslation(context: Option<ContextView>, arg: NamespaceArg, hasBundle: set<string>): (r: UseResult)
    ensures r.OutsideProvider? <==> context.None?
    ensures r.InsideProvider? ==> r.context == context.value
    ensures r.InsideProvider? ==> forall ns :: ns in r.loads <==> ns in NormaliseNamespaces(arg) && ns !in hasBundle
  {
    if context.None? then OutsideProvider
    else InsideProvider(context.value, NamespacesToLoad(NormaliseNamespaces(arg), hasBundle))
  }

  /**
   * One `loadNamespaces` call per requested namespace, in the order asked:
   * the loads for two lists one after the other are the loads for each.
   */
  lemma {:induction false} LoadsKeepRequestOrder(a: seq<string>, b: seq<string>, hasBundle: set<string>)
    ensures NamespacesToLoad(a + b, hasBundle) == NamespacesToLoad(a, hasBundle) + NamespacesToLoad(b, hasBundle)
  {
    if a == [] {
      assert a + b == b;
    } else {
      assert (a + b)[0] == a[0];
      assert (a + b)[1..] == a[1..] + b;
      LoadsKeepRequestOrder(a[1..], b, hasBundle);
    }
  }

  /**
   * Loading never requests a namespace that already has a bundle, asking
   * again requests the same ones, and with no bundle present everything is
   * requested as given.
   */
  lemma {:induction false} LoadsSkipBundled(nss: seq<string>, hasBundle: set<string>)
    ensures NamespacesToLoad(nss, hasBundle) == NamespacesToLoad(NamespacesToLoad(nss, hasBundle), hasBundle)
    ensures forall ns :: ns in hasBundle ==> ns !in NamespacesToLoad(nss, hasBundle)
    ensures (forall ns :: ns in nss ==> ns !in hasBundle) ==> NamespacesToLoad(nss, hasBundle) == nss
  {
    if nss != [] {
      LoadsSkipBundled(nss[1..], hasBundle);
      var rest := NamespacesToLoad(nss[1..], hasBundle);
      if nss[0] !in hasBundle {
        assert ([nss[0]] + rest)[1..] == rest;
      }
      if forall ns :: ns in nss ==> ns !in hasBundle {
        assert nss[0] in nss;
        assert forall ns :: ns in nss[1..] ==> ns in nss;
        assert nss == [nss[0]] + nss[1..];
      }
    }
  }
}
