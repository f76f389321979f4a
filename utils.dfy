/**
 * The shared generation engine: secure index drawing, pool construction
 * with the optional look-alike filter and the lowercase fallback, the
 * sampling loop, the entropy pool-size estimate and the crack-time ladder.
 */
module Utils {
  import opened CharSets
  import opened Prefs

  /** One unsigned 32-bit word from the secure random source. */
  type Word32 = w: int | 0 <= w < 0x1_0000_0000

  /** `getRandomInt(max)`: the random word reduced modulo `max + 1`. */
  function GetRandomInt(word: Word32, max: int): (r: nat)
    requires max >= 0
    ensures r <= max
    ensures word <= max ==> r == word
  {
    word % (max + 1)
  }

  /** The character the sampling loop appends for one random word. */
  function CharAt(pool: string, word: Word32): (c: char)
    requires |pool| > 0
    ensures c in pool
  {
    pool[GetRandomInt(word, |pool| - 1)]
  }

  /** How often `for (let i = 0; i < length; i++)` runs. */
  function Iterations(length: int): (count: nat)
  {
    if length > 0 then length else 0
  }

  /** `s.replace(/[l1IO0]/g, '')`: every look-alike removed, order kept. */
  function RemoveSimilar(s: string): (r: string)
    ensures |r| <= |s|
  {
    if s == [] then []
    else RemoveSimilar(s[..|s| - 1]) + (if IsSimilar(s[|s| - 1]) then [] else [s[|s| - 1]])
  }

  /** Exactly the characters that are no look-alikes survive the filter. */
  lemma {:induction false} RemoveSimilarMembers(s: string, c: char)
    ensures c in RemoveSimilar(s) <==> c in s && !IsSimilar(c)
  {
    if s != [] {
      RemoveSimilarMembers(s[..|s| - 1], c);
      assert s == s[..|s| - 1] + [s[|s| - 1]];
    }
  }

  /** Filtering a concatenation filters each part. */
  lemma {:induction false} RemoveSimilarAppend(a: string, b: string)
    ensures RemoveSimilar(a + b) == RemoveSimilar(a) + RemoveSimilar(b)
  {
    if b == [] {
      assert a + b == a;
    } else {
      var ab := a + b;
      assert ab[|ab| - 1] == b[|b| - 1] && ab[..|ab| - 1] == a + b[..|b| - 1];
      RemoveSimilarAppend(a, b[..|b| - 1]);
    }
  }

  /** A string without look-alikes is left as it is. */
  lemma {:induction false} RemoveSimilarKeeps(s: string)
    requires forall i :: 0 <= i < |s| ==> !IsSimilar(s[i])
    ensures RemoveSimilar(s) == s
  {
    if s != [] {
      RemoveSimilarKeeps(s[..|s| - 1]);
      assert s == s[..|s| - 1] + [s[|s| - 1]];
    }
  }

  /** A string of look-alikes only is removed entirely. */
  lemma {:induction false} RemoveSimilarDrops(s: string)
    requires forall i :: 0 <= i < |s| ==> IsSimilar(s[i])
    ensures RemoveSimilar(s) == []
  {
    if s != [] {
      RemoveSimilarDrops(s[..|s| - 1]);
    }
  }

  /** A single look-alike at index k is cut out and nothing else changes. */
  lemma {:induction false} RemoveSimilarOnlyAt(s: string, k: nat)
    requires k < |s| && IsSimilar(s[k])
    requires forall i :: 0 <= i < |s| && i != k ==> !IsSimilar(s[i])
    ensures RemoveSimilar(s) == s[..k] + s[k + 1..]
  {
    var n := |s| - 1;
    if k == n {
      RemoveSimilarKeeps(s[..n]);
    } else {
      RemoveSimilarOnlyAt(s[..n], k);
      assert s[..n][..k] == s[..k];
      assert s[k + 1..] == s[..n][k + 1..] + [s[n]];
    }
  }

  /** Two look-alikes at indices j < k are cut out and nothing else changes. */
  lemma {:induction false} RemoveSimilarTwoAt(s: string, j: nat, k: nat)
    requires j < k < |s| && IsSimilar(s[j]) && IsSimilar(s[k])
    requires forall i :: 0 <= i < |s| && i != j && i != k ==> !IsSimilar(s[i])
    ensures RemoveSimilar(s) == s[..j] + s[j + 1..k] + s[k + 1..]
  {
    var n := |s| - 1;
    if k == n {
      RemoveSimilarOnlyAt(s[..n], j);
      assert s[..n][..j] == s[..j] && s[..n][j + 1..] == s[j + 1..k];
    } else {
      RemoveSimilarTwoAt(s[..n], j, k);
      assert s[..n][..j] == s[..j] && s[..n][j + 1..k] == s[j + 1..k];
      assert s[k + 1..] == s[..n][k + 1..] + [s[n]];
    }
  }

  // Where the look-alikes sit in each alphabet.
  lemma LowercaseLookAlikes()
    ensures IsSimilar(LOWERCASE[11])
    ensures forall i :: 0 <= i < |LOWERCASE| && i != 11 ==> !IsSimilar(LOWERCASE[i])
  {
  }

  lemma UppercaseLookAlikes()
    ensures IsSimilar(UPPERCASE[8]) && IsSimilar(UPPERCASE[14])
    ensures forall i :: 0 <= i < |UPPERCASE| && i != 8 && i != 14 ==> !IsSimilar(UPPERCASE[i])
  {
  }

  lemma NumbersLookAlikes()
    ensures IsSimilar(NUMBERS[0]) && IsSimilar(NUMBERS[1])
    ensures forall i :: 2 <= i < |NUMBERS| ==> !IsSimilar(NUMBERS[i])
  {
  }

  lemma SymbolsLookAlikes()
    ensures forall i :: 0 <= i < |SYMBOLS| ==> !IsSimilar(SYMBOLS[i])
  {
  }

  // The filtered alphabets are proved in two steps: a cut lemma says which
  // positions the filter removes, and a splice lemma spells out the
  // remaining slices as a literal. The cut lemmas take the alphabet as a
  // parameter pinned by their requires (or by its look-alike positions)
  // so that the verifier reasons about positions instead of unfolding the
  // recursive filter over the 26-character literal, which it cannot do
  // within its resource budget.

  /** Cutting the look-alike out of a string that is the lowercase alphabet. */
  lemma LowercaseCut(s: string)
    requires s == LOWERCASE
    ensures RemoveSimilar(s) == s[..11] + s[12..]
  {
    LowercaseLookAlikes();
    RemoveSimilarOnlyAt(s, 11);
  }

  lemma LowercaseSplice()
    ensures LOWERCASE[..11] + LOWERCASE[12..] == "abcdefghijkmnopqrstuvwxyz"
  {
  }

  /** The fallback with look-alikes excluded: the lowercase alphabet without `l`. */
  lemma FilteredLowercase()
    ensures RemoveSimilar(LOWERCASE) == "abcdefghijkmnopqrstuvwxyz"
    ensures |RemoveSimilar(LOWERCASE)| == 25
  {
    LowercaseCut(LOWERCASE);
    LowercaseSplice();
  }

  /** Cutting the two look-alikes out of a string laid out like the uppercase alphabet. */
  lemma UppercaseCut(s: string)
    requires |s| == 26 && IsSimilar(s[8]) && IsSimilar(s[14])
    requires forall i :: 0 <= i < |s| && i != 8 && i != 14 ==> !IsSimilar(s[i])
    ensures RemoveSimilar(s) == s[..8] + s[9..14] + s[15..]
  {
    RemoveSimilarTwoAt(s, 8, 14);
  }

  lemma UppercaseSplice()
    ensures UPPERCASE[..8] + UPPERCASE[9..14] + UPPERCASE[15..] == "ABCDEFGHJKLMNPQRSTUVWXYZ"
  {
  }

  lemma FilteredUppercase()
    ensures RemoveSimilar(UPPERCASE) == "ABCDEFGHJKLMNPQRSTUVWXYZ"
  {
    UppercaseLookAlikes();
    UppercaseCut(UPPERCASE);
    UppercaseSplice();
  }

  lemma FilteredNumbers()
    ensures RemoveSimilar(NUMBERS) == "23456789"
  {
    NumbersLookAlikes();
    assert NUMBERS == NUMBERS[..2] + NUMBERS[2..];
    RemoveSimilarAppend(NUMBERS[..2], NUMBERS[2..]);
    RemoveSimilarDrops(NUMBERS[..2]);
    RemoveSimilarKeeps(NUMBERS[2..]);
  }

  /** A selection of at least one class holds a character that is no look-alike. */
  lemma SelectedKeepsOne(upper: bool, lower: bool, numbers: bool, symbols: bool)
    requires upper || lower || numbers || symbols
    ensures |RemoveSimilar(Selected(upper, lower, numbers, symbols))| > 0
  {
    var c := if upper then 'A' else if lower then 'a' else if numbers then '2' else '!';
    assert c in UPPERCASE || c in LOWERCASE || c in NUMBERS || c in SYMBOLS by {
      assert UPPERCASE[0] == 'A' && LOWERCASE[0] == 'a' && NUMBERS[2] == '2' && SYMBOLS[0] == '!';
    }
    SelectedMembers(upper, lower, numbers, symbols, c);
    RemoveSimilarMembers(Selected(upper, lower, numbers, symbols), c);
  }

  /**
   * The pool `generatePasswordLogic` draws from: the selected classes,
   * without look-alikes when asked, and the lowercase alphabet (filtered
   * the same way) when that leaves nothing.
   */
  function AvailableChars(options: Options): (pool: string)
    ensures 0 < |pool| <= 88
  {
    var selected := Selected(options.uppercase, options.lowercase, options.numbers, options.symbols);
    var filtered := if options.excludeSimilar then RemoveSimilar(selected) else selected;
    if |filtered| > 0 then filtered
    else
      FilteredLowercase();
      if options.excludeSimilar then RemoveSimilar(LOWERCASE) else LOWERCASE
  }

  /** With the filter on, no look-alike is in the pool. */
  lemma PoolExcludesSimilar(options: Options, c: char)
    requires options.excludeSimilar && c in AvailableChars(options)
    ensures !IsSimilar(c) && c !in SIMILAR
  {
    var selected := Selected(options.uppercase, options.lowercase, options.numbers, options.symbols);
    RemoveSimilarMembers(selected, c);
    RemoveSimilarMembers(LOWERCASE, c);
    SimilarMembers(c);
  }

  /**
   * The pool holds exactly the characters of the selected classes (of the
   * lowercase alphabet when no class is selected), minus the look-alikes
   * when they are excluded.
   */
  lemma PoolMembers(options: Options, c: char)
    ensures c in AvailableChars(options) <==>
      (if NoClassSelected(options) then c in LOWERCASE
       else c in Selected(options.uppercase, options.lowercase, options.numbers, options.symbols)) &&
      (options.excludeSimilar ==> !IsSimilar(c))
  {
    var selected := Selected(options.uppercase, options.lowercase, options.numbers, options.symbols);
    RemoveSimilarMembers(selected, c);
    RemoveSimilarMembers(LOWERCASE, c);
    if !NoClassSelected(options) {
      SelectedKeepsOne(options.uppercase, options.lowercase, options.numbers, options.symbols);
    }
  }

  /** All four classes and no filter: the 88 characters in the fixed order. */
  lemma FullPool(length: int)
    ensures AvailableChars(Options(length, true, true, true, true, false)) == UPPERCASE + LOWERCASE + NUMBERS + SYMBOLS
    ensures |AvailableChars(Options(length, true, true, true, true, false))| == 88
  {
  }

  /** All four classes with the filter: 24 + 25 + 8 + 26 = 83 characters. */
  lemma FullPoolWithoutSimilar(length: int)
    ensures AvailableChars(Options(length, true, true, true, true, true)) ==
      "ABCDEFGHJKLMNPQRSTUVWXYZ" + "abcdefghijkmnopqrstuvwxyz" + "23456789" + SYMBOLS
    ensures |AvailableChars(Options(length, true, true, true, true, true))| == 83
  {
    FilteredUppercase();
    FilteredLowercase();
    FilteredNumbers();
    SymbolsLookAlikes();
    RemoveSimilarKeeps(SYMBOLS);
    RemoveSimilarAppend(UPPERCASE + LOWERCASE + NUMBERS, SYMBOLS);
    RemoveSimilarAppend(UPPERCASE + LOWERCASE, NUMBERS);
    RemoveSimilarAppend(UPPERCASE, LOWERCASE);
  }

  /** No class selected: exactly the lowercase alphabet, or it without `l`. */
  lemma NoClassPool(length: int, excludeSimilar: bool)
    ensures AvailableChars(Options(length, false, false, false, false, excludeSimilar)) ==
      if excludeSimilar then "abcdefghijkmnopqrstuvwxyz" else LOWERCASE
  {
    FilteredLowercase();
  }

  /**
   * The first half of `generatePasswordLogic`: append the selected
   * alphabets, strip look-alikes when asked, fall back to lowercase.
   */
  method BuildAvailableChars(options: Options) returns (availableChars: string)
    ensures availableChars == AvailableChars(options)
    ensures |availableChars| > 0
  {
    availableChars := AppendSelected(options.uppercase, options.lowercase, options.numbers, options.symbols);

    if options.excludeSimilar {
      availableChars := RemoveSimilar(availableChars);
    }

    if |availableChars| == 0 {
      var fallback := LOWERCASE;
      if options.excludeSimilar {
        fallback := RemoveSimilar(fallback);
      }
      availableChars := fallback;
    }
  }

  /**
   * The loop every copy runs: for each of the `length` positions, draw a
   * word and append the pool character at that word's index.
   */
  method DrawPassword(availableChars: string, length: int, words: seq<Word32>) returns (password: string)
    requires |availableChars| > 0 && length <= |words|
    ensures |password| == Iterations(length)
    ensures forall i :: 0 <= i < |password| ==> password[i] == CharAt(availableChars, words[i])
  {
    password := "";
    var i := 0;
    while i < length
      invariant i <= Iterations(length)
      invariant |password| == i
      invariant forall j :: 0 <= j < i ==> password[j] == CharAt(availableChars, words[j])
    {
      var randomIndex := GetRandomInt(words[i], |availableChars| - 1);
      password := password + [availableChars[randomIndex]];
      i := i + 1;
    }
  }

  /**
   * `generatePasswordLogic(options)`, with `words` the values the secure
   * source delivers, one per character.
   */
  method GeneratePasswordLogic(options: Options, words: seq<Word32>) returns (password: string)
    requires options.length <= |words|
    ensures |password| == Iterations(options.length)
    ensures forall i :: 0 <= i < |password| ==> password[i] == CharAt(AvailableChars(options), words[i])
    ensures forall i :: 0 <= i < |password| ==> password[i] in AvailableChars(options)
    ensures options.excludeSimilar ==> forall i :: 0 <= i < |password| ==> password[i] !in SIMILAR
  {
    var availableChars := BuildAvailableChars(options);
    password := DrawPassword(availableChars, options.length, words);

    forall i | 0 <= i < |password|
      ensures options.excludeSimilar ==> password[i] !in SIMILAR
    {
      if options.excludeSimilar {
        PoolExcludesSimilar(options, password[i]);
      }
    }
  }

  /**
   * The pool-size estimate inside `calculateEntropyLogic`: 0 for the empty
   * string, otherwise 26, 26, 10 and 32 for each of lowercase, uppercase,
   * digit and "anything else" that occurs in the password.
   */
  function EntropyPoolSize(password: string): (poolSize: nat)
    ensures poolSize == 0 <==> password == ""
    ensures password != "" ==> 10 <= poolSize <= 94
  {
    if password == "" then 0
    else
      assert IsLower(password[0]) || IsUpper(password[0]) || IsDigit(password[0]) || IsOther(password[0]);
      (if HasLower(password) then 26 else 0) + (if HasUpper(password) then 26 else 0) +
      (if HasDigit(password) then 10 else 0) + (if HasOther(password) then 32 else 0)
  }

  /** None of the four class flags is set. */
  predicate NoClassSelected(options: Options)
  {
    !options.uppercase && !options.lowercase && !options.numbers && !options.symbols
  }

  /** The weights of the classes the options select (the lowercase fallback when none). */
  function SelectionWeight(options: Options): (weight: nat)
  {
    if NoClassSelected(options) then 26
    else (if options.uppercase then 26 else 0) + (if options.lowercase then 26 else 0) +
         (if options.numbers then 10 else 0) + (if options.symbols then 32 else 0)
  }

  /**
   * The estimate is read from the characters present, not from the pool:
   * for a password drawn from the pool it never exceeds the weight of the
   * selected classes (and is smaller when a class happens not to be drawn).
   */
  lemma EstimateWithinSelection(options: Options, password: string)
    requires forall i :: 0 <= i < |password| ==> password[i] in AvailableChars(options)
    ensures EntropyPoolSize(password) <= SelectionWeight(options)
  {
    forall i | 0 <= i < |password|
      ensures IsUpper(password[i]) ==> options.uppercase
      ensures IsLower(password[i]) ==> options.lowercase || NoClassSelected(options)
      ensures IsDigit(password[i]) ==> options.numbers
      ensures IsOther(password[i]) ==> options.symbols
    {
      PoolCharClass(options, password[i]);
    }
  }

  /** Which class flag a pool character's class requires. */
  lemma PoolCharClass(options: Options, c: char)
    requires c in AvailableChars(options)
    ensures IsUpper(c) ==> options.uppercase
    ensures IsLower(c) ==> options.lowercase || NoClassSelected(options)
    ensures IsDigit(c) ==> options.numbers
    ensures IsOther(c) ==> options.symbols
  {
    PoolMembers(options, c);
    SelectedMembers(options.uppercase, options.lowercase, options.numbers, options.symbols, c);
    AlphabetClasses(c);
  }

  /** The buckets of `estimateCrackTimeLogic`, in increasing order. */
  datatype CrackTime = Instant | LessThanAMinute | Minutes | Hours | Days | Months | Years | Centuries
  {
    function Rank(): nat
    {
      match this
      case Instant => 0
      case LessThanAMinute => 1
      case Minutes => 2
      case Hours => 3
      case Days => 4
      case Months => 5
      case Years => 6
      case Centuries => 7
    }
  }

  /** Upper bounds, in seconds, of every bucket but the last. */
  const CRACK_TIME_BOUNDS: seq<real> := [1.0, 60.0, 3600.0, 86400.0, 2592000.0, 31536000.0, 3153600000.0]

  /** The bucket ladder of `estimateCrackTimeLogic` for a duration in seconds. */
  function CrackTimeBucket(seconds: real): (bucket: CrackTime)
    ensures bucket == Instant <==> seconds < 1.0
    ensures bucket == LessThanAMinute <==> 1.0 <= seconds < 60.0
    ensures bucket == Centuries <==> seconds >= 3153600000.0
  {
    if seconds < 1.0 then Instant
    else if seconds < 60.0 then LessThanAMinute
    else if seconds < 3600.0 then Minutes
    else if seconds < 86400.0 then Hours
    else if seconds < 2592000.0 then Days
    else if seconds < 31536000.0 then Months
    else if seconds < 3153600000.0 then Years
    else Centuries
  }

  /**
   * The ladder picks bucket k exactly when the duration reaches the k-th
   * bound and stays strictly below the next one.
   */
  lemma CrackTimeInterval(seconds: real)
    ensures var k := CrackTimeBucket(seconds).Rank();
      k <= |CRACK_TIME_BOUNDS| &&
      (k > 0 ==> CRACK_TIME_BOUNDS[k - 1] <= seconds) &&
      (k < |CRACK_TIME_BOUNDS| ==> seconds < CRACK_TIME_BOUNDS[k])
  {
  }

  /** A longer duration never lands in an earlier bucket. */
  lemma CrackTimeMonotone(s: real, t: real)
    requires s <= t
    ensures CrackTimeBucket(s).Rank() <= CrackTimeBucket(t).Rank()
  {
  }
}
