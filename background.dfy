/**
 * The service worker's copy of the generator: the computation inside the
 * storage callback of `generatePasswordFromStorage`, run when the context
 * menu item is clicked.
 */
module Background {
  import opened CharSets
  import opened Prefs
  import opened Utils

  /** `result.passwordPrefs || {}`: the stored record, or the empty one. */
  function PrefsOrEmpty(stored: Option<StoredPrefs>): (prefs: StoredPrefs)
  {
    if stored.Some? then stored.value else EMPTY_PREFS
  }

  /**
   * Without the look-alike filter, the pool this copy (and the popup)
   * builds is the one the shared utility builds from the same flags.
   */
  lemma PoolMatchesUtils(options: Options)
    requires !options.excludeSimilar
    ensures UnfilteredPool(options.uppercase, options.lowercase, options.numbers, options.symbols) ==
      AvailableChars(options)
  {
  }

  /**
   * Resolve the stored record with its defaults, build the pool, fall back
   * to lowercase, and draw one character per word.
   */
  method GeneratePasswordFromStorage(stored: Option<StoredPrefs>, words: seq<Word32>) returns (password: string)
    requires Resolve(PrefsOrEmpty(stored)).length <= |words|
    ensures var o := Resolve(PrefsOrEmpty(stored));
      |password| == Iterations(o.length) &&
      (forall i :: 0 <= i < |password| ==>
        password[i] == CharAt(UnfilteredPool(o.uppercase, o.lowercase, o.numbers, o.symbols), words[i]))
    ensures var o := Resolve(PrefsOrEmpty(stored));
      forall i :: 0 <= i < |password| ==> password[i] == CharAt(AvailableChars(o), words[i])
  {
    var prefs := PrefsOrEmpty(stored);

    var length := ResolveLength(prefs.length);
    var includeUppercase := ResolveFlag(prefs.uppercase);
    var includeLowercase := ResolveFlag(prefs.lowercase);
    var includeNumbers := ResolveFlag(prefs.numbers);
    var includeSymbols := ResolveFlag(prefs.symbols);

    var availableChars := AppendSelected(includeUppercase, includeLowercase, includeNumbers, includeSymbols);
    if |availableChars| == 0 {
      availableChars := LOWERCASE;
    }

    password := DrawPassword(availableChars, length, words);
    PoolMatchesUtils(Resolve(prefs));
  }

  /**
   * With nothing stored, the worker draws 16 characters from the full
   * 88-character pool in the order upper, lower, digits, symbols.
   */
  lemma NothingStoredDefaults()
    ensures var o := Resolve(PrefsOrEmpty(None));
      o.length == 16 &&
      UnfilteredPool(o.uppercase, o.lowercase, o.numbers, o.symbols) == UPPERCASE + LOWERCASE + NUMBERS + SYMBOLS &&
      Iterations(o.length) == 16
  {
    EmptyPrefsDefaults();
    FullPool(16);
  }
}
