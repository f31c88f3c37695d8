/**
 * The English/French switch: the language code, the label of the switch
 * buttons, and which variant of a translatable element is shown and how.
 */
module Language {
  import opened Text

  /**
   * `currentLanguage === 'en' ? 'fr' : 'en'`. The code is whatever string the
   * page holds (a saved preference can be any text), so every code other than
   * "en" switches to English.
   */
  function Toggled(lang: string): (r: string)
    ensures r == "en" || r == "fr"
    ensures r != lang || lang !in {"en", "fr"}
    ensures lang != "en" ==> r == "en"
  {
    if lang == "en" then "fr" else "en"
  }

  /** On the two real codes, toggling twice restores the language. */
  lemma ToggleTwiceRestores(lang: string)
    requires lang == "en" || lang == "fr"
    ensures Toggled(Toggled(lang)) == lang
  {
  }

  /** Text of the language buttons: `currentLanguage === 'en' ? 'FR' : 'EN'`. */
  function ButtonLabel(lang: string): (text: string)
    ensures text == "FR" || text == "EN"
  {
    if lang == "en" then "FR" else "EN"
  }

  function UpperChar(c: char): char {
    if 'a' <= c <= 'z' then (c as int - 'a' as int + 'A' as int) as char else c
  }

  function Upper(s: string): (u: string)
    ensures |u| == |s| && forall i :: 0 <= i < |s| ==> u[i] == UpperChar(s[i])
  {
    if s == [] then [] else [UpperChar(s[0])] + Upper(s[1..])
  }

  /** Whatever the current code, the button names the language a click switches to. */
  lemma ButtonNamesNextLanguage(lang: string)
    ensures ButtonLabel(lang) == Upper(Toggled(lang))
  {
    var u := Upper(Toggled(lang));
    assert u == [u[0], u[1]];
  }

  /** What an element currently shows: plain text (`textContent`) or parsed markup (`innerHTML`). */
  datatype Content = Plain(text: string) | Markup(html: string)

  /** An element carrying `data-en` and `data-fr`, with what it shows now. */
  datatype Translatable = Translatable(en: string, fr: string, content: Content)

  /** An element is written as markup when either of its variants holds a tag. */
  predicate HasMarkup(e: Translatable) {
    ContainsTag(e.en) || ContainsTag(e.fr)
  }

  /** The variant for a language code: the English one for "en", the French one otherwise. */
  function TextFor(e: Translatable, lang: string): string {
    if lang == "en" then e.en else e.fr
  }

  /** What the element shows once the language `lang` is applied. */
  function Render(e: Translatable, lang: string): (c: Content)
    ensures c.Markup? <==> HasMarkup(e)
    ensures (if c.Markup? then c.html else c.text) == TextFor(e, lang)
  {
    if HasMarkup(e) then Markup(TextFor(e, lang)) else Plain(TextFor(e, lang))
  }

  /** An element never changes between text and markup when the language changes. */
  lemma RenderKindIndependentOfLanguage(e: Translatable, l1: string, l2: string)
    ensures Render(e, l1).Markup? == Render(e, l2).Markup?
  {
  }

  /** Variants without any '<' are always written as plain text. */
  lemma NoAngleBracketIsPlain(e: Translatable, lang: string)
    requires '<' !in e.en && '<' !in e.fr
    ensures Render(e, lang).Plain?
  {
    NoAngleBracketNoTag(e.en);
    NoAngleBracketNoTag(e.fr);
  }

  /** A variant holding a tag makes the element markup in both languages. */
  lemma TagMakesMarkup(e: Translatable, lang: string, i: nat, j: nat)
    requires i < j < |e.en| && e.en[i] == '<' && e.en[j] == '>'
    requires forall k :: i < k < j ==> e.en[k] != '>'
    ensures Render(e, lang).Markup?
  {
    ContainsTagComplete(e.en);
  }
}
