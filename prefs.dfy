/**
 * Generation options and the stored preference record, with the default
 * resolution that the popup (on load) and the background worker (on each
 * context-menu generation) both apply to what storage returns.
 */
module Prefs {

  datatype Option<T> = None | Some(value: T)

  /** The JavaScript values a stored preference field can hold. */
  datatype JsValue = Undefined | Null | Boolean(b: bool) | Number(n: int) | Text(s: string)

  /** JavaScript truthiness: what `||` and `if (x)` test. */
  predicate Truthy(v: JsValue)
  {
    match v
    case Undefined => false
    case Null => false
    case Boolean(b) => b
    case Number(n) => n != 0
    case Text(s) => s != ""
  }

  /** The object stored under `passwordPrefs`; a `None` length is a missing field. */
  datatype StoredPrefs = StoredPrefs(
    length: Option<int>,
    uppercase: JsValue,
    lowercase: JsValue,
    numbers: JsValue,
    symbols: JsValue)

  /** `{}`: the record the background worker uses when nothing is stored. */
  const EMPTY_PREFS: StoredPrefs := StoredPrefs(None, Undefined, Undefined, Undefined, Undefined)

  const DEFAULT_LENGTH: int := 16

  /** The options one generation runs with. */
  datatype Options = Options(
    length: int,
    uppercase: bool,
    lowercase: bool,
    numbers: bool,
    symbols: bool,
    excludeSimilar: bool)

  /** `prefs.length || 16`: a missing or zero length becomes the default. */
  function ResolveLength(stored: Option<int>): (length: int)
    ensures length != 0
    ensures stored == None || stored == Some(0) ==> length == DEFAULT_LENGTH
    ensures stored.Some? && stored.value != 0 ==> length == stored.value
  {
    match stored
    case None => DEFAULT_LENGTH
    case Some(n) => if n != 0 then n else DEFAULT_LENGTH
  }

  /** `prefs.flag !== false`: only a stored `false` turns a class off. */
  function ResolveFlag(stored: JsValue): (on: bool)
    ensures !on <==> stored == Boolean(false)
  {
    stored != Boolean(false)
  }

  /**
   * The options the stored record resolves to. Neither the popup nor the
   * background worker has a look-alike setting, so that flag is off.
   */
  function Resolve(stored: StoredPrefs): (options: Options)
    ensures options.length != 0 && !options.excludeSimilar
    ensures stored.length.Some? && stored.length.value != 0 ==> options.length == stored.length.value
    ensures !options.uppercase <==> stored.uppercase == Boolean(false)
    ensures !options.lowercase <==> stored.lowercase == Boolean(false)
    ensures !options.numbers <==> stored.numbers == Boolean(false)
    ensures !options.symbols <==> stored.symbols == Boolean(false)
  {
    Options(ResolveLength(stored.length), ResolveFlag(stored.uppercase), ResolveFlag(stored.lowercase),
            ResolveFlag(stored.numbers), ResolveFlag(stored.symbols), false)
  }

  /** With nothing stored, a generation uses 16 characters and all four classes. */
  lemma EmptyPrefsDefaults()
    ensures Resolve(EMPTY_PREFS) == Options(16, true, true, true, true, false)
  {
  }

  /**
   * Unlike the length, a flag is not tested for truthiness: a falsy value
   * other than `false` (missing, `null`, `0`, `""`) still means "on".
   */
  lemma FalsyFlagStaysOn(stored: JsValue)
    requires !Truthy(stored) && stored != Boolean(false)
    ensures ResolveFlag(stored)
  {
  }

  /** The record the popup writes after each generation. */
  function Saved(options: Options): (stored: StoredPrefs)
    ensures stored.length == Some(options.length)
    ensures Truthy(stored.uppercase) == options.uppercase && Truthy(stored.lowercase) == options.lowercase
    ensures Truthy(stored.numbers) == options.numbers && Truthy(stored.symbols) == options.symbols
    ensures ResolveFlag(stored.uppercase) == options.uppercase && ResolveFlag(stored.lowercase) == options.lowercase
    ensures ResolveFlag(stored.numbers) == options.numbers && ResolveFlag(stored.symbols) == options.symbols
  {
    StoredPrefs(Some(options.length), Boolean(options.uppercase), Boolean(options.lowercase),
                Boolean(options.numbers), Boolean(options.symbols))
  }

  /**
   * Saving the options of a generation and loading them again gives the
   * same options back for every nonzero length. The length is stored here
   * as a number, so a zero would come back as the default; the popup
   * stores the slider's text, whose truthiness this model does not keep.
   */
  lemma SaveLoadRoundTrip(options: Options)
    requires options.length != 0 && !options.excludeSimilar
    ensures Resolve(Saved(options)) == options
  {
  }
}
