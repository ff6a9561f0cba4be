/**
 * The language selector in the header: its table of three languages, the
 * entry shown for the active language, the check marks of the menu, and the
 * change handler with its `isChanging` flag and the saved choice.
 */
module LanguageSelector {
  import opened Common

  datatype Language = Language(code: string, name: string, flagCode: string)

  /** The menu entries, in menu order. */
  const Languages: seq<Language> := [
    Language("fr", "Français", "FR"),
    Language("en", "English", "GB"),
    Language("ar", "العربية", "DZ")
  ]

  function Codes(ls: seq<Language>): (r: seq<string>)
    ensures |r| == |ls|
    ensures forall i :: 0 <= i < |ls| ==> r[i] == ls[i].code
  {
    if ls == [] then [] else [ls[0].code] + Codes(ls[1..])
  }

  /** The table holds exactly fr, en and ar, in that order, and no code twice. */
  lemma LanguageTable()
    ensures |Languages| == 3
    ensures Codes(Languages) == ["fr", "en", "ar"]
    ensures forall i, j :: 0 <= i < j < |Languages| ==> Languages[i].code != Languages[j].code
  {
  }

  /** `Array.prototype.find` on the code: the first entry with that code, if any. */
  function FindByCode(ls: seq<Language>, code: string): (r: Option<Language>)
    ensures r.Some? ==> r.value.code == code
    ensures r.Some? ==> exists i :: 0 <= i < |ls| && ls[i] == r.value &&
                         forall j :: 0 <= j < i ==> ls[j].code != code
    ensures r.None? <==> forall i :: 0 <= i < |ls| ==> ls[i].code != code
  {
    if ls == [] then None
    else if ls[0].code == code then Some(ls[0])
    else
      var r := FindByCode(ls[1..], code);
      assert forall i :: 1 <= i < |ls| ==> ls[i] == ls[1..][i - 1];
      r
  }

  /** `languages.find(lang => lang.code === language) || languages[0]`. */
  function CurrentLanguage(language: string): (l: Language)
    ensures l in Languages
    ensures language in {"fr", "en", "ar"} ==> l.code == language
    ensures language !in {"fr", "en", "ar"} ==> l == Languages[0]
  {
    LanguageTable();
    match FindByCode(Languages, language)
    case Some(l) => l
    case None => Languages[0]
  }

  /** The check mark of each menu entry: set where the entry's code is the active language. */
  function CheckMarks(language: string): (marks: seq<bool>)
    ensures |marks| == |Languages|
    ensures forall i :: 0 <= i < |Languages| ==> (marks[i] <==> Languages[i].code == language)
  {
    seq(|Languages|, i requires 0 <= i < |Languages| => Languages[i].code == language)
  }

  /** At most one entry carries the check mark, and one does exactly when the language is in the table. */
  lemma AtMostOneCheckMark(language: string)
    ensures forall i, j :: 0 <= i < j < |Languages| ==> !(CheckMarks(language)[i] && CheckMarks(language)[j])
    ensures (exists i :: 0 <= i < |Languages| && CheckMarks(language)[i]) <==> language in {"fr", "en", "ar"}
  {
    LanguageTable();
    var marks := CheckMarks(language);
    if language in {"fr", "en", "ar"} {
      var k := if language == "fr" then 0 else if language == "en" then 1 else 2;
      assert marks[k];
    }
  }

  /** The trigger button: disabled, with a spinner, while changing; otherwise the current flag. */
  datatype TriggerView = TriggerView(disabled: bool, spinner: bool, flag: Option<string>)

  function Trigger(isChanging: bool, language: string): (v: TriggerView)
    ensures v.disabled <==> isChanging
    ensures v.spinner <==> isChanging
    ensures v.flag.Some? <==> !isChanging
    ensures v.flag.Some? ==> v.flag.value == CurrentLanguage(language).flagCode
    ensures v.flag.Some? ==> v.flag.value in {"FR", "GB", "DZ"}
  {
    if isChanging then TriggerView(true, true, None)
    else TriggerView(false, false, Some(CurrentLanguage(language).flagCode))
  }

  /** How the awaited `changeLanguage(langCode)` ended. */
  datatype ChangeOutcome = ChangeResolved | ChangeRejected

  /** The selector's own state, and the `language` entry of local storage it writes. */
  class Selector {
    var isChanging: bool
    var savedLanguage: Option<string>

    constructor (saved: Option<string>)
      ensures !isChanging && savedLanguage == saved
    {
      isChanging := false;
      savedLanguage := saved;
    }

    /** The part of `handleLanguageChange` before the await: a no-op for the active code. */
    method BeginChange(language: string, langCode: string) returns (started: bool)
      modifies this
      ensures started <==> langCode != language
      ensures started ==> isChanging
      ensures !started ==> isChanging == old(isChanging)
      ensures savedLanguage == old(savedLanguage)
    {
      if langCode == language {
        return false;
      }
      isChanging := true;
      started := true;
    }

    /** The part after the await: save only when the change resolved; always clear the flag. */
    method CompleteChange(langCode: string, outcome: ChangeOutcome)
      modifies this
      ensures !isChanging
      ensures outcome == ChangeResolved ==> savedLanguage == Some(langCode)
      ensures outcome == ChangeRejected ==> savedLanguage == old(savedLanguage)
    {
      if outcome == ChangeResolved {
        savedLanguage := Some(langCode);
      }
      isChanging := false;
    }

    /** The whole handler, run as one step. */
    method HandleLanguageChange(language: string, langCode: string, outcome: ChangeOutcome)
      returns (changeCalled: bool)
      modifies this
      ensures changeCalled <==> langCode != language
      ensures !changeCalled ==> isChanging == old(isChanging) && savedLanguage == old(savedLanguage)
      ensures changeCalled ==> !isChanging
      ensures changeCalled ==>
        savedLanguage == (if outcome == ChangeResolved then Some(langCode) else old(savedLanguage))
    {
      changeCalled := BeginChange(language, langCode);
      if changeCalled {
        CompleteChange(langCode, outcome);
      }
    }
  }
}
