/**
 * The fixed alphabets that every copy of the generator declares, the
 * character classes its regular expressions test, and the pool that the
 * popup and background copies build (no look-alike filter).
 */
module CharSets {

  const UPPERCASE: string := "ABCDEFGHIJKLMNOPQRSTUVWXYZ"
  const LOWERCASE: string := "abcdefghijklmnopqrstuvwxyz"
  const NUMBERS: string := "0123456789"
  const SYMBOLS: string := "!@#$%^&*()_+-=[]{}|;:,.<>?"
  /** Visually ambiguous glyphs; only the shared utility copy strips them. */
  const SIMILAR: string := "l1IO0"

  /** Membership in SIMILAR, spelled out as the fallback's `/[l1IO0]/` class. */
  predicate IsSimilar(c: char) { c == 'l' || c == '1' || c == 'I' || c == 'O' || c == '0' }

  lemma SimilarMembers(c: char)
    ensures c in SIMILAR <==> IsSimilar(c)
  {
  }

  // The classes `[A-Z]`, `[a-z]`, `[0-9]` and `[^a-zA-Z0-9]`.
  predicate IsUpper(c: char) { 'A' <= c <= 'Z' }
  predicate IsLower(c: char) { 'a' <= c <= 'z' }
  predicate IsDigit(c: char) { '0' <= c <= '9' }
  predicate IsOther(c: char) { !IsUpper(c) && !IsLower(c) && !IsDigit(c) }

  // `/[X]/.test(s)`: some character of s is in the class.
  predicate HasUpper(s: string) { exists i :: 0 <= i < |s| && IsUpper(s[i]) }
  predicate HasLower(s: string) { exists i :: 0 <= i < |s| && IsLower(s[i]) }
  predicate HasDigit(s: string) { exists i :: 0 <= i < |s| && IsDigit(s[i]) }
  predicate HasOther(s: string) { exists i :: 0 <= i < |s| && IsOther(s[i]) }

  /** Each alphabet lies inside the class its regular expression tests for. */
  lemma AlphabetClasses(c: char)
    ensures c in UPPERCASE ==> IsUpper(c)
    ensures c in LOWERCASE ==> IsLower(c)
    ensures c in NUMBERS ==> IsDigit(c)
    ensures c in SYMBOLS ==> IsOther(c)
  {
    UppercaseClass();
    LowercaseClass();
    NumbersClass();
    SymbolsClass();
  }

  lemma UppercaseClass()
    ensures forall i :: 0 <= i < |UPPERCASE| ==> IsUpper(UPPERCASE[i])
  {
  }

  lemma LowercaseClass()
    ensures forall i :: 0 <= i < |LOWERCASE| ==> IsLower(LOWERCASE[i])
  {
  }

  lemma NumbersClass()
    ensures forall i :: 0 <= i < |NUMBERS| ==> IsDigit(NUMBERS[i])
  {
  }

  lemma SymbolsClass()
    ensures forall i :: 0 <= i < |SYMBOLS| ==> IsOther(SYMBOLS[i])
  {
  }

  /**
   * The selected classes appended in the fixed order uppercase, lowercase,
   * digits, symbols (the four `+=` lines of each copy).
   */
  function Selected(upper: bool, lower: bool, numbers: bool, symbols: bool): (r: string)
    ensures r == [] <==> !upper && !lower && !numbers && !symbols
    ensures |r| <= 88
  {
    (if upper then UPPERCASE else "") + (if lower then LOWERCASE else "") +
    (if numbers then NUMBERS else "") + (if symbols then SYMBOLS else "")
  }

  /** The `availableChars += …` lines themselves, one per selected class. */
  method AppendSelected(upper: bool, lower: bool, numbers: bool, symbols: bool) returns (availableChars: string)
    ensures availableChars == Selected(upper, lower, numbers, symbols)
  {
    ghost var part1 := if upper then UPPERCASE else "";
    ghost var part2 := if lower then LOWERCASE else "";
    ghost var part3 := if numbers then NUMBERS else "";
    availableChars := "";
    if upper { availableChars := availableChars + UPPERCASE; }
    assert availableChars == part1;
    if lower { availableChars := availableChars + LOWERCASE; }
    assert availableChars == part1 + part2;
    if numbers { availableChars := availableChars + NUMBERS; }
    assert availableChars == part1 + part2 + part3;
    if symbols { availableChars := availableChars + SYMBOLS; }
  }

  /** A character is selected exactly when it belongs to one of the selected classes. */
  lemma SelectedMembers(upper: bool, lower: bool, numbers: bool, symbols: bool, c: char)
    ensures c in Selected(upper, lower, numbers, symbols) <==>
      (upper && c in UPPERCASE) || (lower && c in LOWERCASE) ||
      (numbers && c in NUMBERS) || (symbols && c in SYMBOLS)
  {
  }

  /** Checking only the lowercase box selects exactly the fallback pool. */
  lemma LowercaseOnlySelected()
    ensures Selected(false, true, false, false) == LOWERCASE
  {
    assert Selected(false, true, false, false) == "" + LOWERCASE + "" + "";
  }

  /**
   * The pool of the popup and background copies: the selected classes, or
   * the whole lowercase alphabet when none is selected.
   */
  function UnfilteredPool(upper: bool, lower: bool, numbers: bool, symbols: bool): (r: string)
    ensures |r| > 0
    ensures upper || lower || numbers || symbols ==> r == Selected(upper, lower, numbers, symbols)
    ensures !upper && !lower && !numbers && !symbols ==> r == LOWERCASE
  {
    var selected := Selected(upper, lower, numbers, symbols);
    if |selected| == 0 then LOWERCASE else selected
  }
}
