/** The personalization settings store (src/context/PersonalizationContext.tsx): defaults,
    the tolerant reading of the stored JSON, the field-wise merges of the initial state and of
    `updateSettings`, and `resetSettings`. JSON parsing itself is not modelled: the outcome of
    `JSON.parse` on the stored text is an input. Tone and domain are plain strings, since the
    stored object is cast to the settings type without any check. */
module Personalization {
  import opened Common

  datatype Settings = Settings(rememberLongTermContext: bool, longTermContext: string,
                               responseTone: string, domainFocus: string, showAgentInternals: bool)

  /** A `Partial<PersonalizationSettings>`: each field may be absent. */
  datatype Partial = Partial(rememberLongTermContext: Option<bool>, longTermContext: Option<string>,
                             responseTone: Option<string>, domainFocus: Option<string>,
                             showAgentInternals: Option<bool>)

  /** What `JSON.parse` makes of the stored text. An array is an object to `typeof`; it has
      none of the settings' keys. */
  datatype Parsed = Unparsable | JsonNull | JsonScalar | JsonArray | JsonObject(fields: Partial)

  const Defaults := Settings(true, "", "professional", "general", true)

  const NoFields := Partial(None, None, None, None, None)

  /** `safeParse(localStorage.getItem(key))`: `stored` is the item, `parsed` the parse of it. */
  function SafeParse(stored: Option<string>, parsed: Parsed): (r: Option<Partial>)
    ensures !Present(stored) ==> r.None?
    ensures Present(stored) ==> (r.Some? <==> parsed.JsonObject? || parsed.JsonArray?)
    ensures r.Some? && parsed.JsonObject? ==> r.value == parsed.fields
  {
    if !Present(stored) then None
    else
      match parsed
      case JsonObject(fields) => Some(fields)
      case JsonArray => Some(NoFields)
      case _ => None
  }

  function Pick<T>(o: Option<T>, dflt: T): T {
    if o.Some? then o.value else dflt
  }

  /** `{ ...base, ...partial }`. */
  function Merge(base: Settings, p: Partial): (r: Settings)
    ensures p.rememberLongTermContext.Some? ==> r.rememberLongTermContext == p.rememberLongTermContext.value
    ensures p.rememberLongTermContext.None? ==> r.rememberLongTermContext == base.rememberLongTermContext
    ensures p.longTermContext.Some? ==> r.longTermContext == p.longTermContext.value
    ensures p.longTermContext.None? ==> r.longTermContext == base.longTermContext
    ensures p.responseTone.Some? ==> r.responseTone == p.responseTone.value
    ensures p.responseTone.None? ==> r.responseTone == base.responseTone
    ensures p.domainFocus.Some? ==> r.domainFocus == p.domainFocus.value
    ensures p.domainFocus.None? ==> r.domainFocus == base.domainFocus
    ensures p.showAgentInternals.Some? ==> r.showAgentInternals == p.showAgentInternals.value
    ensures p.showAgentInternals.None? ==> r.showAgentInternals == base.showAgentInternals
  {
    Settings(Pick(p.rememberLongTermContext, base.rememberLongTermContext),
             Pick(p.longTermContext, base.longTermContext),
             Pick(p.responseTone, base.responseTone),
             Pick(p.domainFocus, base.domainFocus),
             Pick(p.showAgentInternals, base.showAgentInternals))
  }

  /** The initial state: the defaults, overridden by whatever the stored object holds. */
  function Initial(stored: Option<string>, parsed: Parsed): Settings {
    Merge(Defaults, Pick(SafeParse(stored, parsed), NoFields))
  }

  /** Nothing stored, or nothing usable stored, gives exactly the defaults. */
  lemma InitialWithoutStoredObject(stored: Option<string>, parsed: Parsed)
    requires !Present(stored) || !(parsed.JsonObject? || parsed.JsonArray?)
    ensures Initial(stored, parsed) == Defaults
  {
  }

  /** Updating with the partial made of a whole settings value yields that value, whatever
      the settings were. */
  lemma MergeWholeReplaces(base: Settings, s: Settings)
    ensures Merge(base, Partial(Some(s.rememberLongTermContext), Some(s.longTermContext),
      Some(s.responseTone), Some(s.domainFocus), Some(s.showAgentInternals))) == s
  {
  }

  /** Two successive updates are one update with the later fields taking precedence. */
  lemma MergeTwice(base: Settings, p: Partial, q: Partial)
    ensures Merge(Merge(base, p), q) == Merge(base, Partial(
      if q.rememberLongTermContext.Some? then q.rememberLongTermContext else p.rememberLongTermContext,
      if q.longTermContext.Some? then q.longTermContext else p.longTermContext,
      if q.responseTone.Some? then q.responseTone else p.responseTone,
      if q.domainFocus.Some? then q.domainFocus else p.domainFocus,
      if q.showAgentInternals.Some? then q.showAgentInternals else p.showAgentInternals))
  {
  }

  /** The provider's state; `persisted` is what the effect last wrote to local storage. */
  class SettingsStore {
    var settings: Settings
    var persisted: Settings

    constructor (stored: Option<string>, parsed: Parsed)
      ensures settings == Initial(stored, parsed) && persisted == settings
    {
      settings := Initial(stored, parsed);
      persisted := settings;
    }

    /** `updateSettings(partial)`, followed by the persisting effect. */
    method UpdateSettings(p: Partial)
      modifies this
      ensures settings == Merge(old(settings), p) && persisted == settings
    {
      settings := Merge(settings, p);
      persisted := settings;
    }

    /** `resetSettings()`, followed by the persisting effect. */
    method ResetSettings()
      modifies this
      ensures settings == Defaults && persisted == Defaults
      ensures settings.rememberLongTermContext && settings.longTermContext == ""
      ensures settings.responseTone == "professional" && settings.domainFocus == "general"
      ensures settings.showAgentInternals
    {
      settings := Defaults;
      persisted := settings;
    }
  }
}
