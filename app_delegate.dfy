/** The status-bar app (LanguageIndicator/AppDelegate.swift): it keeps the
    current input-source id, shows its label as the status-bar title, shows
    the indicator view on every input-source change while enabled, and offers
    a menu item that toggles `isEnabled`.

    The Text Input Sources id property is a parameter (None when it is
    missing); whether AppKit creates the indicator window is a parameter. */
module App {
  import opened Ui
  import Strings
  import MainIndicator
  import IndicatorView

  /** Status-bar title before the first successful input-source query. */
  const LaunchTitle: string := "언어"

  /** Menu titles: "disable" while enabled, "enable" while disabled. */
  const DisableTitle: string := "비활성화"
  const EnableTitle: string := "활성화"

  /** The label for input source `source`, from three fragments. */
  function AppDisplayText(source: string): (r: string)
    ensures r == MainIndicator.KoreanLabel || r == MainIndicator.OtherLabel
  {
    if Strings.Contains(source, "Korean") ||
       Strings.Contains(source, "2SetKorean") ||
       Strings.Contains(source, "HangulRoman")
    then MainIndicator.KoreanLabel
    else MainIndicator.OtherLabel
  }

  /** The three-fragment rule and main.swift's four-fragment rule give the
      same label for every identifier: "2SetKorean" and
      "com.apple.inputmethod.Korean" both contain "Korean". */
  lemma DisplayTextsAgree(source: string)
    ensures AppDisplayText(source) == MainIndicator.DisplayText(source)
    ensures AppDisplayText(source) == MainIndicator.KoreanLabel <==>
              Strings.Contains(source, "Korean") || Strings.Contains(source, "HangulRoman")
  {
    MainIndicator.DisplayTextKoreanOrHangulRoman(source);
    assert Strings.OccursAt("2SetKorean", "Korean", 4);
    if Strings.Contains(source, "2SetKorean") {
      Strings.ContainsTransitive(source, "2SetKorean", "Korean");
    }
  }

  /** Title of the menu item that toggles the indicator. */
  function ToggleTitle(enabled: bool): (r: string)
    ensures r == DisableTitle <==> enabled
    ensures r == EnableTitle <==> !enabled
  {
    if enabled then DisableTitle else EnableTitle
  }

  /** Toggling changes the title of the toggle item. */
  lemma ToggleTitleNamesAction(enabled: bool)
    ensures ToggleTitle(!enabled) != ToggleTitle(enabled)
  {
  }

  /** The cached id after updateCurrentInputSource: overwritten
      unconditionally when the id property is present. */
  function CachedSource(current: string, id: Option<string>): (r: string)
    ensures id.Some? ==> r == id.value
    ensures r == current || id.Some?
  {
    if id.Some? then id.value else current
  }

  /** A missing id leaves the cache; a present one replaces it, and a second
      update with the same result changes nothing. */
  lemma CachedSourceUpdate(current: string, id: Option<string>)
    ensures id.None? ==> CachedSource(current, id) == current
    ensures id.Some? ==> CachedSource(current, id) == id.value
    ensures CachedSource(CachedSource(current, id), id) == CachedSource(current, id)
  {
  }

  class AppDelegate {
    var currentInputSource: string
    var isEnabled: bool
    var statusTitle: string  // statusBarItem.button's title
    var languageIndicator: IndicatorView.LanguageIndicatorView

    ghost predicate Valid()
      reads this, languageIndicator
    {
      languageIndicator.Valid()
    }

    /** Object creation followed by applicationDidFinishLaunching: the status
        item gets its launch title, the view is created, and the input source
        is queried once. */
    constructor (id: Option<string>)
      ensures Valid() && fresh(languageIndicator)
      ensures languageIndicator.Current() == IndicatorView.Initial
      ensures isEnabled
      ensures currentInputSource == CachedSource("", id)
      ensures statusTitle == if id.Some? then AppDisplayText(id.value) else LaunchTitle
    {
      currentInputSource := "";
      isEnabled := true;
      statusTitle := LaunchTitle;
      languageIndicator := new IndicatorView.LanguageIndicatorView();
      new;
      UpdateCurrentInputSource(id);
    }

    method UpdateCurrentInputSource(id: Option<string>)
      modifies this`currentInputSource, this`statusTitle
      ensures currentInputSource == CachedSource(old(currentInputSource), id)
      ensures statusTitle == if id.Some? then AppDisplayText(id.value) else old(statusTitle)
    {
      if id.Some? {
        currentInputSource := id.value;
        statusTitle := GetLanguageDisplayText();
        DisplayTextsAgree(currentInputSource);
      }
    }

    method GetLanguageDisplayText() returns (r: string)
      ensures r == MainIndicator.KoreanLabel || r == MainIndicator.OtherLabel
      ensures r == MainIndicator.KoreanLabel <==>
                Strings.Contains(currentInputSource, "Korean") || Strings.Contains(currentInputSource, "HangulRoman")
    {
      r := AppDisplayText(currentInputSource);
      DisplayTextsAgree(currentInputSource);
    }

    /** The input source changed: refresh the cache and title always; show the
        indicator with the new label only while enabled. */
    method InputSourceChanged(id: Option<string>, created: bool)
      requires Valid()
      modifies this`currentInputSource, this`statusTitle, languageIndicator
      ensures Valid()
      ensures currentInputSource == CachedSource(old(currentInputSource), id)
      ensures statusTitle == if id.Some? then AppDisplayText(id.value) else old(statusTitle)
      ensures languageIndicator.Current() ==
                if isEnabled
                then IndicatorView.Show(old(languageIndicator.Current()), AppDisplayText(currentInputSource), created)
                else old(languageIndicator.Current())
    {
      UpdateCurrentInputSource(id);
      if isEnabled {
        var language := GetLanguageDisplayText();
        DisplayTextsAgree(currentInputSource);
        languageIndicator.ShowIndicator(language, created);
      }
    }

    /** The menu's toggle item title for the current setting. */
    method StatusBarButtonClicked() returns (toggleTitle: string)
      ensures toggleTitle == DisableTitle <==> isEnabled
      ensures toggleTitle == EnableTitle <==> !isEnabled
    {
      toggleTitle := ToggleTitle(isEnabled);
    }

    method ToggleEnabled()
      modifies this`isEnabled
      ensures isEnabled == !old(isEnabled)
    {
      isEnabled := !isEnabled;
    }
  }
}
