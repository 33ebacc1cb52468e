/**
 * The language dropdown of the navigation bar: its open flag, the choice
 * of a language, the close-on-outside-click listener, and the label shown
 * for the active language. The language itself lives in a shared context
 * whose setter is modelled as a plain assignment.
 */
module LanguageSelector {
  import opened Wrappers

  /** An entry of the `languages` table: a code and the short text shown for it. */
  datatype LanguageOption = LanguageOption(code: string, abbrev: string)

  const Languages: seq<LanguageOption> := [LanguageOption("en", "ENG"), LanguageOption("ar", "AR")]

  /** `table.find(lang => lang.code === code)`: the first entry carrying the code, if any. */
  function Find(table: seq<LanguageOption>, code: string): (r: Option<LanguageOption>)
    ensures r.None? <==> forall i :: 0 <= i < |table| ==> table[i].code != code
    ensures r.Some? ==> r.value.code == code
    ensures r.Some? ==> exists i :: (0 <= i < |table| && table[i] == r.value
      && forall j :: 0 <= j < i ==> table[j].code != code)
  {
    if table == [] then None
    else if table[0].code == code then Some(table[0])
    else
      Find(table[1..], code)
  }

  /** No two entries of the table share a code, so `find` can only return the entry of that code. */
  lemma CodesDistinct()
    ensures forall i, j :: 0 <= i < j < |Languages| ==> Languages[i].code != Languages[j].code
  {
  }

  /** `currentLanguage?.label`: nothing is shown for a code outside the table. */
  function CurrentAbbrev(language: string): (shown: Option<string>)
    ensures language == "en" ==> shown == Some("ENG")
    ensures language == "ar" ==> shown == Some("AR")
    ensures language != "en" && language != "ar" ==> shown == None
  {
    match Find(Languages, language)
    case Some(entry) => Some(entry.abbrev)
    case None => None
  }

  /** The trigger's accessible name says English exactly for `en`, and Arabic for every other code. */
  function TriggerAriaLabel(language: string): (name: string)
    ensures name == "Select language (currently English)" <==> language == "en"
    ensures name == "Select language (currently Arabic)" <==> language != "en"
  {
    "Select language (currently " + (if language == "en" then "English" else "Arabic") + ")"
  }

  /** The accessible name of the option button for `code`. */
  function OptionAriaLabel(code: string): (name: string)
    ensures name == "Switch to English" <==> code == "en"
    ensures name == "Switch to Arabic" <==> code != "en"
  {
    if code == "en" then "Switch to English" else "Switch to Arabic"
  }

  class Dropdown {
    /** The shared context's active language code. */
    var language: string
    var isOpen: bool

    constructor (language: string)
      ensures this.language == language && !isOpen
    {
      this.language := language;
      isOpen := false;
    }

    /** The trigger button. */
    method Toggle()
      modifies this
      ensures isOpen == !old(isOpen)
      ensures language == old(language)
    {
      isOpen := !isOpen;
    }

    /** An option button, one per table entry: set the language and close. */
    method Pick(option: LanguageOption)
      requires option in Languages
      modifies this
      ensures language == option.code && !isOpen
    {
      language := option.code;
      isOpen := false;
    }

    /**
     * The document's `mousedown` listener: a press outside the dropdown's
     * element closes it, a press inside changes nothing.
     */
    method HandleMouseDown(insideDropdown: bool)
      modifies this
      ensures isOpen == (old(isOpen) && insideDropdown)
      ensures language == old(language)
    {
      if !insideDropdown {
        isOpen := false;
      }
    }
  }
}
