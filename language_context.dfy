/**
  The language context: a table of German and English strings per translation
  key, the current language (German until switched), the lookup `t` that falls
  back to the key itself, and `useLanguage`, which fails outside a provider.
 */
module LanguageContext {

  import opened Optional

  datatype Language = De | En

  /** One table entry; the type gives every key both a German and an English string. */
  datatype Entry = Entry(de: string, en: string)

  datatype Result<T> = Ok(value: T) | Error(message: string)

  /** `translation[language]`. */
  function Field(e: Entry, l: Language): string
  {
    match l
    case De => e.de
    case En => e.en
  }

  /** The six header entries at the top of the table: five tab titles and the platform title. */
  const HeaderEntries: map<string, Entry> := map[
    "header.digitalTwin" := Entry("Digitaler Zwilling", "Digital Twin"),
    "header.fleetRouting" := Entry("Flottenlogistik", "Fleet Logistics"),
    "header.predictive" := Entry("Vorausschauende Wartung", "Predictive Maintenance"),
    "header.energy" := Entry("Energiemanagement", "Energy Management"),
    "header.supplyChain" := Entry("Lieferkette", "Supply Chain"),
    "header.platformTitle" := Entry("Intelligente Fertigungsplattform", "Smart Manufacturing Platform")
  ]

  /** `t(key)`: the entry's string for the current language, or the key itself when there is no entry. */
  function Translate(table: map<string, Entry>, language: Language, key: string): (r: string)
    ensures key in table ==> r == Field(table[key], language)
    ensures key !in table ==> r == key
  {
    if key in table then Field(table[key], language) else key
  }

  /** Switching the language changes what present keys resolve to, and nothing for missing keys. */
  lemma SwitchOnlyAffectsPresentKeys(table: map<string, Entry>, l1: Language, l2: Language, key: string)
    ensures key !in table ==> Translate(table, l1, key) == Translate(table, l2, key) == key
    ensures key in table ==> Translate(table, l2, key) == Field(table[key], l2)
  {
  }

  /** The header tab titles in English. */
  lemma HeaderInEnglish()
    ensures Translate(HeaderEntries, En, "header.digitalTwin") == "Digital Twin"
    ensures Translate(HeaderEntries, De, "header.supplyChain") == "Lieferkette"
    ensures Translate(HeaderEntries, En, "header.unknown") == "header.unknown"
  {
    assert "header.unknown" != "header.digitalTwin";
    assert "header.unknown"[7] != "header.fleetRouting"[7] && "header.unknown"[7] != "header.predictive"[7];
    assert "header.unknown"[7] != "header.energy"[7] && "header.unknown"[7] != "header.supplyChain"[7];
  }

  /**
    The property names every plain JavaScript object inherits from
    `Object.prototype`; indexing the table object with one of them finds the
    inherited member rather than nothing.
   */
  const InheritedKeys: set<string> := {
    "constructor", "hasOwnProperty", "isPrototypeOf", "propertyIsEnumerable",
    "toLocaleString", "toString", "valueOf", "__proto__",
    "__defineGetter__", "__defineSetter__", "__lookupGetter__", "__lookupSetter__"
  }

  /**
    `t(key)` as written, on an object-literal table: an inherited member is a
    function or object, so `!translation` is false, and reading its `de` or `en`
    property gives `undefined`, modelled as `None`.
   */
  function TranslateAsWritten(table: map<string, Entry>, language: Language, key: string): (r: Option<string>)
    ensures key in table ==> r == Some(Field(table[key], language))
    ensures key !in table && key in InheritedKeys ==> r == None
    ensures key !in table && key !in InheritedKeys ==> r == Some(key)
  {
    if key in table then Some(Field(table[key], language))
    else if key in InheritedKeys then None
    else Some(key)
  }

  /** As written and intended agree on every key but the inherited property names. */
  lemma AsWrittenAgreesOffPrototype(table: map<string, Entry>, language: Language, key: string)
    ensures TranslateAsWritten(table, language, key) == Some(Translate(table, language, key)) <==>
      key in table || key !in InheritedKeys
  {
  }

  /** On the header table, `t("toString")` yields `undefined` instead of `"toString"`. */
  lemma ToStringIsNotFallenBack(language: Language)
    ensures TranslateAsWritten(HeaderEntries, language, "toString") == None
    ensures Translate(HeaderEntries, language, "toString") == "toString"
  {
    assert "toString" !in HeaderEntries by {
      assert forall k :: k in HeaderEntries ==> k[0] == 'h';
    }
  }

  /** What the context hands to its consumers. */
  datatype ContextValue = ContextValue(language: Language)

  /** `useLanguage`: the provider's value, or the error thrown outside a provider. */
  function UseLanguage(context: Option<ContextValue>): (r: Result<ContextValue>)
    ensures context.Some? <==> r.Ok?
    ensures r.Ok? ==> r.value == context.value
    ensures r.Error? ==> r.message == "useLanguage must be used within a LanguageProvider"
  {
    match context
    case None => Error("useLanguage must be used within a LanguageProvider")
    case Some(c) => Ok(c)
  }

  /** `LanguageProvider`: the language state over the translation table. */
  class LanguageProvider {
    const table: map<string, Entry>
    var language: Language

    /** A fresh provider speaks German. */
    constructor (table: map<string, Entry>)
      ensures this.table == table && language == De
    {
      this.table := table;
      language := De;
    }

    /** `setLanguage(l)`: afterwards every present key resolves to its `l` string. */
    method SetLanguage(l: Language)
      modifies this
      ensures language == l
      ensures forall key :: key in table ==> T(key) == Field(table[key], l)
      ensures forall key :: key !in table ==> T(key) == key
    {
      language := l;
    }

    /** `t` bound to the current language. */
    function T(key: string): (r: string)
      reads this
      ensures r == Translate(table, language, key)
    {
      Translate(table, language, key)
    }

    /** The value the provider hands to `useLanguage`. */
    function Value(): (v: ContextValue)
      reads this
      ensures v.language == language
    {
      ContextValue(language)
    }
  }
}
