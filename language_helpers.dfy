/** The supported-language table, the lookups from a language code to
    the speech engine's language name and to the display name, and the two
    language preferences kept in local storage. */
module LanguageHelpers {
  import opened Common
  import opened Storage

  datatype Language = Language(code: string, name: string, whisperCode: string)

  const SupportedLanguages: seq<Language> := [
    Language("en", "English", "english"),
    Language("ro", "Romanian", "romanian"),
    Language("es", "Spanish", "spanish"),
    Language("fr", "French", "french"),
    Language("de", "German", "german"),
    Language("it", "Italian", "italian"),
    Language("pt", "Portuguese", "portuguese"),
    Language("ru", "Russian", "russian"),
    Language("ja", "Japanese", "japanese"),
    Language("ko", "Korean", "korean"),
    Language("zh", "Chinese", "chinese"),
    Language("ar", "Arabic", "arabic"),
    Language("hi", "Hindi", "hindi")
  ]

  const TranscriberLanguageKey := "transcriber_language"
  const SummaryLanguageKey := "summary_language"
  const DefaultLanguageCode := "en"

  /** `table.find(lang => lang.code === code)`: the first entry with that code. */
  function Find(table: seq<Language>, code: string): (r: Option<Language>)
    ensures r.Some? ==> r.value in table && r.value.code == code
    ensures r.None? ==> forall i :: 0 <= i < |table| ==> table[i].code != code
  {
    if table == [] then None
    else if table[0].code == code then Some(table[0])
    else Find(table[1..], code)
  }

  /** The table lists each code once. */
  predicate CodesDistinct(table: seq<Language>) {
    forall i, j :: 0 <= i < j < |table| ==> table[i].code != table[j].code
  }

  /** In a table whose codes are distinct, `find` by the code of entry `i` gives entry `i`. */
  lemma {:induction false} FindEntry(table: seq<Language>, i: nat)
    requires CodesDistinct(table)
    requires i < |table|
    ensures Find(table, table[i].code) == Some(table[i])
  {
    if i > 0 {
      assert table[0].code != table[i].code;
      assert table[1..][i - 1] == table[i];
      FindEntry(table[1..], i - 1);
    }
  }

  /** The supported codes are pairwise distinct, so lookup by code is unambiguous. */
  lemma SupportedCodesDistinct()
    ensures CodesDistinct(SupportedLanguages)
  {
    var codes := ["en", "ro", "es", "fr", "de", "it", "pt", "ru", "ja", "ko", "zh", "ar", "hi"];
    assert forall i :: 0 <= i < |SupportedLanguages| ==> SupportedLanguages[i].code == codes[i];
    forall i, j | 0 <= i < j < |codes| ensures codes[i] != codes[j] {
      assert |codes[i]| == 2 && |codes[j]| == 2;
      assert codes[i][0] != codes[j][0] || codes[i][1] != codes[j][1];
    }
  }

  /** Every entry has a non-empty speech-engine name and display name. */
  lemma SupportedEntriesNamed()
    ensures forall i :: 0 <= i < |SupportedLanguages| ==>
      SupportedLanguages[i].whisperCode != "" && SupportedLanguages[i].name != ""
  {
  }

  /** `getWhisperLanguageCode(code)`: the entry's speech-engine language name, or "english". */
  function WhisperLanguageCode(code: string): (r: string)
    ensures exists i :: 0 <= i < |SupportedLanguages| && SupportedLanguages[i].whisperCode == r
  {
    assert SupportedLanguages[0].whisperCode == "english";
    var found := Find(SupportedLanguages, code);
    if found.Some? && found.value.whisperCode != "" then found.value.whisperCode else "english"
  }

  /** `getLanguageName(code)`: the entry's display name, or "English". */
  function LanguageName(code: string): (r: string)
    ensures exists i :: 0 <= i < |SupportedLanguages| && SupportedLanguages[i].name == r
  {
    assert SupportedLanguages[0].name == "English";
    var found := Find(SupportedLanguages, code);
    if found.Some? && found.value.name != "" then found.value.name else "English"
  }

  /** A supported code maps to its own entry's speech-engine name and display name. */
  lemma LookupSupported(i: nat)
    requires i < |SupportedLanguages|
    ensures WhisperLanguageCode(SupportedLanguages[i].code) == SupportedLanguages[i].whisperCode
    ensures LanguageName(SupportedLanguages[i].code) == SupportedLanguages[i].name
  {
    SupportedCodesDistinct();
    SupportedEntriesNamed();
    FindEntry(SupportedLanguages, i);
  }

  /** Any code not in the table falls back to English. */
  lemma LookupUnsupported(code: string)
    requires forall i :: 0 <= i < |SupportedLanguages| ==> SupportedLanguages[i].code != code
    ensures WhisperLanguageCode(code) == "english"
    ensures LanguageName(code) == "English"
  {
  }

  /** `getTranscriberLanguage()`: the stored code, or "en" when absent or empty. */
  function TranscriberLanguage(store: LocalStorage): (code: string)
    reads store
    ensures code != ""
  {
    OrDefault(store.GetItem(TranscriberLanguageKey), DefaultLanguageCode)
  }

  /** `getSummaryLanguage()`: the stored code, or "en" when absent or empty. */
  function SummaryLanguage(store: LocalStorage): (code: string)
    reads store
    ensures code != ""
  {
    OrDefault(store.GetItem(SummaryLanguageKey), DefaultLanguageCode)
  }

  /** `setTranscriberLanguage(code)`: the next read gives `code` back (or
      "en" for the empty code), and the summary language is untouched. */
  method SetTranscriberLanguage(store: LocalStorage, code: string)
    modifies store
    ensures store.items == old(store.items)[TranscriberLanguageKey := code]
    ensures TranscriberLanguage(store) == if code == "" then DefaultLanguageCode else code
    ensures SummaryLanguage(store) == old(SummaryLanguage(store))
  {
    store.SetItem(TranscriberLanguageKey, code);
  }

  /** `setSummaryLanguage(code)`: the next read gives `code` back (or
      "en" for the empty code), and the transcriber language is untouched. */
  method SetSummaryLanguage(store: LocalStorage, code: string)
    modifies store
    ensures store.items == old(store.items)[SummaryLanguageKey := code]
    ensures SummaryLanguage(store) == if code == "" then DefaultLanguageCode else code
    ensures TranscriberLanguage(store) == old(TranscriberLanguage(store))
  {
    store.SetItem(SummaryLanguageKey, code);
  }
}
