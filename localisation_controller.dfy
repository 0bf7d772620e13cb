/**
  Localisation: translated strings by key in three languages, English being
  the key language and the fallback. The dictionaries are given to the
  constructor (reading them from CSV files is not part of this model).
  The static `_instance` with `Instance` and `Initialise` is the explicit
  object LocalisationInstance.
 */
module Localisation {
  import opened Wrappers
  import opened EventSlots

  datatype LanguageOption = English | Czech | Ukranian

  /** The language after a language swap: English, Ukranian, Czech, then English again; a swap always changes it. */
  function NextLanguage(l: LanguageOption): (next: LanguageOption)
    ensures next != l
  {
    match l
    case English => Ukranian
    case Ukranian => Czech
    case Czech => English
  }

  /** Three swaps come back to where they started, having visited every language. */
  lemma SwapCycle(l: LanguageOption)
    ensures NextLanguage(NextLanguage(NextLanguage(l))) == l
    ensures {l, NextLanguage(l), NextLanguage(NextLanguage(l))} == {English, Czech, Ukranian}
  {
  }

  /** The text Get returns for a key that no dictionary holds. */
  function NotFound(key: string): string
  {
    "ERROR: " + key + " NOT FOUND"
  }

  const NotInitialisedMessage := "Ensure you call Initialise() first"

  class LocalisationController {
    var currentLanguage: LanguageOption
    const englishDict: map<string, string>
    const czechDict: map<string, string>
    const ukranianDict: map<string, string>

    /**
      Starts in English and subscribes HandleLanguageSwap (as `swapId`) to
      the input channel's language-swap slot.
     */
    constructor (english: map<string, string>, czech: map<string, string>, ukranian: map<string, string>,
                 languageSwap: EventBase, swapId: HandlerId)
      modifies languageSwap
      ensures englishDict == english && czechDict == czech && ukranianDict == ukranian
      ensures currentLanguage == English
      ensures languageSwap.handlers == old(languageSwap.handlers) + [swapId]
    {
      englishDict, czechDict, ukranianDict := english, czech, ukranian;
      currentLanguage := English;
      new;
      languageSwap.Subscribe(swapId);
    }

    /** The dictionary of `l`. */
    function DictionaryOf(l: LanguageOption): map<string, string>
    {
      match l
      case English => englishDict
      case Czech => czechDict
      case Ukranian => ukranianDict
    }

    /**
      The text for `key` in the current language; failing that the English
      text; failing that the not-found message. It changes nothing.
     */
    function Get(key: string): (r: string)
      reads this
      ensures key in DictionaryOf(currentLanguage) ==> r == DictionaryOf(currentLanguage)[key]
      ensures key !in DictionaryOf(currentLanguage) && key in englishDict ==> r == englishDict[key]
      ensures key !in DictionaryOf(currentLanguage) && key !in englishDict ==> r == NotFound(key)
    {
      var activeDict := DictionaryOf(currentLanguage);
      if key in activeDict then activeDict[key]
      else if key in englishDict then englishDict[key]
      else NotFound(key)
    }

    /** Moves to the next language of the cycle. */
    method HandleLanguageSwap()
      modifies this
      ensures currentLanguage == NextLanguage(old(currentLanguage))
    {
      currentLanguage := NextLanguage(currentLanguage);
    }

    /** Selects `language`, whatever was selected before. */
    method SetLanguage(language: LanguageOption)
      modifies this
      ensures currentLanguage == language
    {
      currentLanguage := language;
    }
  }

  /** While English is selected, Get is the plain English lookup. */
  lemma GetInEnglish(c: LocalisationController, key: string)
    requires c.currentLanguage == English
    ensures c.Get(key) == if key in c.englishDict then c.englishDict[key] else NotFound(key)
  {
  }

  /** The static singleton slot `LocalisationController._instance`. */
  class LocalisationInstance {
    var instance: LocalisationController?

    constructor ()
      ensures instance == null
    {
      instance := null;
    }

    /** The controller; throws InvalidOperationException before `Initialise`. */
    function Instance(): (r: Result<LocalisationController>)
      reads this
      ensures r.Err? <==> instance == null
      ensures r.Err? ==> r.error == InvalidOperation(NotInitialisedMessage)
      ensures r.Ok? ==> r.value == instance
    {
      if instance == null then Err(InvalidOperation(NotInitialisedMessage))
      else var c: LocalisationController := instance; Ok(c)
    }

    /** Creates the controller the first time; later calls do nothing. */
    method Initialise(english: map<string, string>, czech: map<string, string>, ukranian: map<string, string>,
                      languageSwap: EventBase, swapId: HandlerId)
      modifies this, languageSwap
      ensures instance != null
      ensures old(instance) != null ==>
        instance == old(instance) && languageSwap.handlers == old(languageSwap.handlers)
      ensures old(instance) == null ==>
        && fresh(instance) && instance.currentLanguage == English
        && instance.englishDict == english && instance.czechDict == czech && instance.ukranianDict == ukranian
        && languageSwap.handlers == old(languageSwap.handlers) + [swapId]
    {
      if instance != null {
        return;
      }
      instance := new LocalisationController(english, czech, ukranian, languageSwap, swapId);
    }
  }
}
