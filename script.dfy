/**
 * The popup: its controls (length slider, four class checkboxes, password
 * field, strength text), the generation it runs on every change, the
 * strength indicator, and loading the stored preferences at start-up.
 */
module Script {
  import opened CharSets
  import opened Prefs
  import opened Utils

  /** The strength indicator's three labels, weakest first. */
  datatype Strength = Weak | Medium | Strong
  {
    function Rank(): nat
    {
      match this
      case Weak => 0
      case Medium => 1
      case Strong => 2
    }

    function Text(): string
    {
      match this
      case Weak => "Weak"
      case Medium => "Medium"
      case Strong => "Strong"
    }
  }

  /** The class `[!@#$%^&*()_+\-=\[\]{}|;:,.<>?]` of the symbol test. */
  predicate IsSymbol(c: char)
  {
    c == '!' || c == '@' || c == '#' || c == '$' || c == '%' || c == '^' || c == '&' ||
    c == '*' || c == '(' || c == ')' || c == '_' || c == '+' || c == '-' || c == '=' ||
    c == '[' || c == ']' || c == '{' || c == '}' || c == '|' || c == ';' || c == ':' ||
    c == ',' || c == '.' || c == '<' || c == '>' || c == '?'
  }

  predicate HasSymbol(s: string) { exists i :: 0 <= i < |s| && IsSymbol(s[i]) }

  /** The symbol test matches exactly the characters of the symbol alphabet. */
  lemma SymbolTestIsSymbolSet(c: char)
    ensures IsSymbol(c) <==> c in SYMBOLS
  {
  }

  /** One point per satisfied test: length 8, length 16, upper, lower, digit, symbol. */
  function StrengthScore(password: string): (score: nat)
    ensures score <= 6
    ensures |password| < 8 ==> score <= 4
    ensures password == "" ==> score == 0
  {
    (if |password| >= 8 then 1 else 0) + (if |password| >= 16 then 1 else 0) +
    (if HasUpper(password) then 1 else 0) + (if HasLower(password) then 1 else 0) +
    (if HasDigit(password) then 1 else 0) + (if HasSymbol(password) then 1 else 0)
  }

  /** Score 2 or less is weak, 3 or 4 medium, 5 or more strong. */
  function StrengthLabel(score: int): (strength: Strength)
    ensures strength == Weak <==> score <= 2
    ensures strength == Medium <==> 3 <= score <= 4
    ensures strength == Strong <==> score >= 5
  {
    if score <= 2 then Weak
    else if score <= 4 then Medium
    else Strong
  }

  /** A higher score never gets a weaker label. */
  lemma LabelMonotone(a: int, b: int)
    requires a <= b
    ensures StrengthLabel(a).Rank() <= StrengthLabel(b).Rank()
  {
  }

  /** A password shorter than 8 characters is never labelled strong. */
  lemma ShortNeverStrong(password: string)
    requires |password| < 8
    ensures StrengthLabel(StrengthScore(password)) != Strong
  {
  }

  /** Two passwords with the same character classes present. */
  predicate SameClasses(p: string, q: string)
  {
    HasUpper(p) == HasUpper(q) && HasLower(p) == HasLower(q) &&
    HasDigit(p) == HasDigit(q) && HasSymbol(p) == HasSymbol(q)
  }

  /** With the classes fixed, a longer password never scores lower. */
  lemma ScoreMonotoneInLength(p: string, q: string)
    requires SameClasses(p, q) && |p| <= |q|
    ensures StrengthScore(p) <= StrengthScore(q)
    ensures StrengthLabel(StrengthScore(p)).Rank() <= StrengthLabel(StrengthScore(q)).Rank()
  {
    LabelMonotone(StrengthScore(p), StrengthScore(q));
  }

  /**
   * A password drawn from the lowercase fallback pool earns at most the
   * two length points and the lowercase point: never strong.
   */
  lemma LowercaseOnlyNeverStrong(password: string)
    requires forall i :: 0 <= i < |password| ==> password[i] in LOWERCASE
    ensures StrengthScore(password) <= 3
    ensures StrengthLabel(StrengthScore(password)) != Strong
  {
    forall i | 0 <= i < |password|
      ensures IsLower(password[i]) && !IsSymbol(password[i])
    {
      AlphabetClasses(password[i]);
    }
  }

  class Popup {
    // The controls the popup reads and writes.
    var lengthSlider: int
    var includeUppercase: bool
    var includeLowercase: bool
    var includeNumbers: bool
    var includeSymbols: bool
    var passwordDisplay: string
    var strengthText: string
    // The `passwordPrefs` entry of the extension's local storage.
    var storage: Option<StoredPrefs>

    constructor (length: int, upper: bool, lower: bool, numbers: bool, symbols: bool, stored: Option<StoredPrefs>)
      ensures lengthSlider == length
      ensures includeUppercase == upper && includeLowercase == lower
      ensures includeNumbers == numbers && includeSymbols == symbols
      ensures passwordDisplay == "" && strengthText == ""
      ensures storage == stored
    {
      lengthSlider := length;
      includeUppercase, includeLowercase := upper, lower;
      includeNumbers, includeSymbols := numbers, symbols;
      passwordDisplay, strengthText := "", "";
      storage := stored;
    }

    /** The options the controls describe (the popup has no look-alike setting). */
    function Settings(): Options
      reads this
    {
      Options(lengthSlider, includeUppercase, includeLowercase, includeNumbers, includeSymbols, false)
    }

    /** `updateStrengthIndicator(password)`, keeping only the label it shows. */
    method UpdateStrengthIndicator(password: string)
      modifies this`strengthText
      ensures strengthText == StrengthLabel(StrengthScore(password)).Text()
    {
      var score := StrengthScore(password);
      if score <= 2 {
        strengthText := "Weak";
      } else if score <= 4 {
        strengthText := "Medium";
      } else {
        strengthText := "Strong";
      }
    }

    /** `savePreferences()`: store the slider and the four checkboxes. */
    method SavePreferences()
      modifies this`storage
      ensures storage == Some(Saved(Settings()))
    {
      storage := Some(StoredPrefs(Some(lengthSlider), Boolean(includeUppercase), Boolean(includeLowercase),
                                  Boolean(includeNumbers), Boolean(includeSymbols)));
    }

    /**
     * The pool part of `generatePassword()`: append the checked alphabets;
     * when none is checked, use lowercase and check its box.
     */
    method BuildPoolAndRecheck() returns (availableChars: string)
      modifies this`includeLowercase
      ensures availableChars == old(UnfilteredPool(includeUppercase, includeLowercase, includeNumbers, includeSymbols))
      ensures availableChars == Selected(includeUppercase, includeLowercase, includeNumbers, includeSymbols)
      ensures includeLowercase == (old(includeLowercase) || NoClassSelected(old(Settings())))
      ensures NoClassSelected(old(Settings())) ==> availableChars == LOWERCASE
    {
      availableChars := AppendSelected(includeUppercase, includeLowercase, includeNumbers, includeSymbols);
      if |availableChars| == 0 {
        availableChars := LOWERCASE;
        includeLowercase := true;
        LowercaseOnlySelected();
      }
    }

    /**
     * The end of `generatePassword()`: show the password, update the
     * strength indicator and save the settings.
     */
    method ShowPassword(password: string)
      modifies this`passwordDisplay, this`strengthText, this`storage
      ensures passwordDisplay == password
      ensures strengthText == StrengthLabel(StrengthScore(password)).Text()
      ensures storage == Some(Saved(Settings()))
    {
      passwordDisplay := password;
      UpdateStrengthIndicator(password);
      SavePreferences();
    }

    /**
     * `generatePassword()`: build the pool from the checkboxes, check the
     * lowercase box when none is checked, draw one character per word,
     * show the password and its strength, save the settings.
     */
    method GeneratePassword(words: seq<Word32>)
      requires lengthSlider <= |words|
      modifies this`includeLowercase, this`passwordDisplay, this`strengthText, this`storage
      ensures lengthSlider == old(lengthSlider)
      ensures includeUppercase == old(includeUppercase) && includeNumbers == old(includeNumbers)
      ensures includeSymbols == old(includeSymbols)
      ensures includeLowercase == (old(includeLowercase) || old(NoClassSelected(Settings())))
      ensures |passwordDisplay| == Iterations(lengthSlider)
      ensures forall i :: 0 <= i < |passwordDisplay| ==>
        passwordDisplay[i] == CharAt(old(UnfilteredPool(includeUppercase, includeLowercase, includeNumbers, includeSymbols)), words[i])
      ensures old(UnfilteredPool(includeUppercase, includeLowercase, includeNumbers, includeSymbols)) ==
        Selected(includeUppercase, includeLowercase, includeNumbers, includeSymbols)
      ensures strengthText == StrengthLabel(StrengthScore(passwordDisplay)).Text()
      ensures old(NoClassSelected(Settings())) ==> strengthText != "Strong"
      ensures storage == Some(Saved(Settings()))
    {
      var length := lengthSlider;
      var availableChars := BuildPoolAndRecheck();
      var password := DrawPassword(availableChars, length, words);
      if availableChars == LOWERCASE {
        LowercaseOnlyNeverStrong(password);
      }
      ShowPassword(password);
    }

    /**
     * `loadPreferences()`: when a record is stored, set the slider and the
     * checkboxes from it with the defaults applied, then generate.
     */
    method LoadPreferences(words: seq<Word32>)
      requires (if storage.Some? then Resolve(storage.value).length else lengthSlider) <= |words|
      modifies this
      ensures var o := if old(storage).Some? then Resolve(old(storage).value) else old(Settings());
        lengthSlider == o.length &&
        includeUppercase == o.uppercase && includeNumbers == o.numbers && includeSymbols == o.symbols &&
        includeLowercase == (o.lowercase || NoClassSelected(o)) &&
        |passwordDisplay| == Iterations(o.length) &&
        (forall i :: 0 <= i < |passwordDisplay| ==>
          passwordDisplay[i] == CharAt(UnfilteredPool(o.uppercase, o.lowercase, o.numbers, o.symbols), words[i]))
      ensures strengthText == StrengthLabel(StrengthScore(passwordDisplay)).Text()
      ensures storage == Some(Saved(Settings()))
    {
      if storage.Some? {
        var prefs := storage.value;
        lengthSlider := ResolveLength(prefs.length);
        includeUppercase := ResolveFlag(prefs.uppercase);
        includeLowercase := ResolveFlag(prefs.lowercase);
        includeNumbers := ResolveFlag(prefs.numbers);
        includeSymbols := ResolveFlag(prefs.symbols);
      }
      GeneratePassword(words);
    }
  }
}
