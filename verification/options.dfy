/** The plugins' settings: the host's option table, the defaults registered for
    each option, PHP truthiness of option strings, and the validator of the
    display location. */
module Options {

  /** The host's option table, from option name to stored string. */
  type Store = map<string, string>

  const LocationKey := "wcp_location"
  const HeadlineKey := "wcp_headline"
  const WordCountKey := "wcp_wordcount"
  const CharCountKey := "wcp_charactercount"
  const ReadTimeKey := "wcp_readtime"

  /** Location value that puts the block before the content; "1" puts it after. */
  const Beginning := "0"
  const End := "1"

  const DefaultLocation := Beginning
  const DefaultHeadline := "Post Statistics"
  const DefaultToggle := "1"

  /** The host's option lookup: the stored value, or the given default when
      the option has never been stored. */
  function GetOption(store: Store, name: string, default: string): (v: string)
    ensures name in store ==> v == store[name]
    ensures name !in store ==> v == default
  {
    if name in store then store[name] else default
  }

  /** PHP truthiness of a string: only "" and "0" are false. */
  predicate Truthy(s: string) {
    s != "" && s != "0"
  }

  /** The configuration the content filter reads. */
  datatype Settings = Settings(
    location: string,
    headline: string,
    wordCount: string,
    charCount: string,
    readTime: string)
  {
    /** At least one of the three statistics is switched on. */
    predicate AnyToggle() {
      Truthy(wordCount) || Truthy(charCount) || Truthy(readTime)
    }
  }

  /** Reads the configuration, falling back to each option's registered
      default when it is unset. */
  function LoadSettings(store: Store): (s: Settings)
    ensures LocationKey in store ==> s.location == store[LocationKey]
    ensures LocationKey !in store ==> s.location == DefaultLocation
    ensures HeadlineKey in store ==> s.headline == store[HeadlineKey]
    ensures HeadlineKey !in store ==> s.headline == DefaultHeadline
    ensures WordCountKey in store ==> s.wordCount == store[WordCountKey]
    ensures WordCountKey !in store ==> s.wordCount == DefaultToggle
    ensures CharCountKey in store ==> s.charCount == store[CharCountKey]
    ensures CharCountKey !in store ==> s.charCount == DefaultToggle
    ensures ReadTimeKey in store ==> s.readTime == store[ReadTimeKey]
    ensures ReadTimeKey !in store ==> s.readTime == DefaultToggle
  {
    Settings(
      GetOption(store, LocationKey, DefaultLocation),
      GetOption(store, HeadlineKey, DefaultHeadline),
      GetOption(store, WordCountKey, DefaultToggle),
      GetOption(store, CharCountKey, DefaultToggle),
      GetOption(store, ReadTimeKey, DefaultToggle))
  }

  /** The option table holding exactly the given settings. */
  function StoreOf(s: Settings): Store {
    map[LocationKey := s.location, HeadlineKey := s.headline, WordCountKey := s.wordCount,
        CharCountKey := s.charCount, ReadTimeKey := s.readTime]
  }

  /** Every configuration can be stored and read back unchanged: no stored
      value is overridden by a default. */
  lemma LoadStoreOf(s: Settings)
    ensures LoadSettings(StoreOf(s)) == s
  {
  }

  /** A stored empty string turns the word line off, whatever else is
      stored: the stored value wins over the default. */
  lemma StoredEmptyToggleIsOff(store: Store)
    requires WordCountKey in store && store[WordCountKey] == ""
    ensures !Truthy(LoadSettings(store).wordCount)
  {
  }

  /** A fresh installation shows every statistic, before the content. */
  lemma FreshInstallDefaults()
    ensures LoadSettings(map[]).AnyToggle()
    ensures LoadSettings(map[]) == Settings(Beginning, DefaultHeadline, "1", "1", "1")
  {
  }

  /** The location invariant: unset (so the default applies) or one of the
      two accepted values. */
  predicate ValidLocation(store: Store) {
    LocationKey in store ==> store[LocationKey] == Beginning || store[LocationKey] == End
  }

  /** Outcome of the location validator: the value to store and whether an
      admin error notice was raised. */
  datatype Sanitized = Sanitized(value: string, rejected: bool)

  /** The location validator: accepts exactly "0" and "1"; anything else
      raises an error and yields the currently effective location. */
  function SanitizeLocation(store: Store, input: string): (r: Sanitized)
    ensures r.rejected <==> input != Beginning && input != End
    ensures !r.rejected ==> r.value == input
    ensures r.rejected ==> r.value == GetOption(store, LocationKey, DefaultLocation)
    ensures ValidLocation(store) ==> r.value == Beginning || r.value == End
  {
    if input != Beginning && input != End then
      Sanitized(GetOption(store, LocationKey, DefaultLocation), true)
    else
      Sanitized(input, false)
  }

  /** Saving the settings form: the location option receives the validated
      value. */
  function SaveLocation(store: Store, input: string): (s: Store)
    ensures LocationKey in s && s[LocationKey] == SanitizeLocation(store, input).value
    ensures forall k :: k in store && k != LocationKey ==> k in s && s[k] == store[k]
    ensures forall k :: k in s && k != LocationKey ==> k in store
  {
    store[LocationKey := SanitizeLocation(store, input).value]
  }

  /** Saving preserves the location invariant, whatever the input. */
  lemma SaveKeepsValidLocation(store: Store, input: string)
    requires ValidLocation(store)
    ensures ValidLocation(SaveLocation(store, input))
  {
  }

  /** A rejected input leaves the effective location as it was. */
  lemma RejectedSaveKeepsLocation(store: Store, input: string)
    requires input != Beginning && input != End
    ensures GetOption(SaveLocation(store, input), LocationKey, DefaultLocation)
         == GetOption(store, LocationKey, DefaultLocation)
  {
  }

  /** An accepted input becomes the effective location. */
  lemma AcceptedSaveSetsLocation(store: Store, input: string)
    requires input == Beginning || input == End
    ensures GetOption(SaveLocation(store, input), LocationKey, DefaultLocation) == input
  {
  }

  /** Submitting the same form twice has the effect of submitting it once. */
  lemma SaveLocationIdempotent(store: Store, input: string)
    ensures SaveLocation(SaveLocation(store, input), input) == SaveLocation(store, input)
  {
  }
}
