/** Recognised words to scale degrees: the solfège table and the lookup that
    lower-cases a word and, failing an exact match, retries with everything but
    the letters a-z removed. */
module Solfege {
  import opened Wrappers
  import opened Text

  /** The table `solfegeToNumber`: the degree a syllable names, `None` for a word
      that is not one of its own keys. */
  function SolfegeToNumber(w: string): Option<int> {
    if w == "do" then Some(1) else if w == "re" then Some(2) else if w == "mi" then Some(3)
    else if w == "fa" then Some(4) else if w == "so" || w == "sol" then Some(5)
    else if w == "la" then Some(6) else if w == "ti" || w == "si" then Some(7)
    else None
  }

  predicate IsLowerLetter(c: char) {
    'a' <= c <= 'z'
  }

  predicate AllLowerLetters(s: string) {
    forall k :: 0 <= k < |s| ==> IsLowerLetter(s[k])
  }

  /** Every syllable is two or three lower-case letters and names a degree 1..7. */
  lemma SyllableShape(w: string)
    requires SolfegeToNumber(w).Some?
    ensures AllLowerLetters(w) && 2 <= |w| <= 3
    ensures 1 <= SolfegeToNumber(w).value <= 7
  {
  }

  /** No word longer than three characters is a syllable. */
  lemma LongWordsNotSyllables(w: string)
    requires |w| > 3
    ensures SolfegeToNumber(w).None?
  {
  }

  /** Every degree 1..7 has a syllable. */
  lemma EveryDegreeNamed(d: int)
    requires 1 <= d <= 7
    ensures SolfegeToNumber(["do", "re", "mi", "fa", "so", "la", "ti"][d - 1]) == Some(d)
  {
  }

  /** `s.replace(/[^a-z]/g, '')`. */
  function KeepLowerLetters(s: string): (r: string)
    ensures AllLowerLetters(r) && |r| <= |s|
  {
    if s == [] then []
    else (if IsLowerLetter(s[0]) then [s[0]] else []) + KeepLowerLetters(s[1..])
  }

  /** Removing the non-letters distributes over concatenation. */
  lemma {:induction false} KeepLowerLettersAppend(a: string, b: string)
    ensures KeepLowerLetters(a + b) == KeepLowerLetters(a) + KeepLowerLetters(b)
    decreases |a|
  {
    if a != [] {
      var head := if IsLowerLetter(a[0]) then [a[0]] else [];
      assert (a + b)[0] == a[0] && (a + b)[1..] == a[1..] + b;
      assert KeepLowerLetters(a + b) == head + KeepLowerLetters(a[1..] + b);
      KeepLowerLettersAppend(a[1..], b);
      assert KeepLowerLetters(a) == head + KeepLowerLetters(a[1..]);
      assert head + (KeepLowerLetters(a[1..]) + KeepLowerLetters(b))
          == (head + KeepLowerLetters(a[1..])) + KeepLowerLetters(b);
    } else {
      assert a + b == b;
    }
  }

  /** Letters only: nothing is removed. */
  lemma {:induction false} KeepLowerLettersOfLetters(s: string)
    requires AllLowerLetters(s)
    ensures KeepLowerLetters(s) == s
    decreases |s|
  {
    if s != [] {
      KeepLowerLettersOfLetters(s[1..]);
    }
  }

  /** No letters: everything is removed. */
  lemma {:induction false} KeepLowerLettersOfNonLetters(s: string)
    requires forall k :: 0 <= k < |s| ==> !IsLowerLetter(s[k])
    ensures KeepLowerLetters(s) == []
    decreases |s|
  {
    if s != [] {
      KeepLowerLettersOfNonLetters(s[1..]);
    }
  }

  // ---------------------------------------------------------------------------
  // The lookup as written

  /** The properties every plain object inherits from `Object.prototype`; the
      `in` operator finds them as it finds the table's own keys. */
  predicate ObjectPrototypeMember(m: string) {
    || m == "constructor" || m == "__proto__" || m == "hasOwnProperty" || m == "isPrototypeOf"
    || m == "propertyIsEnumerable" || m == "toLocaleString" || m == "toString" || m == "valueOf"
    || m == "__defineGetter__" || m == "__defineSetter__" || m == "__lookupGetter__" || m == "__lookupSetter__"
  }

  /** What a property read of the table yields: a degree, an inherited member (a
      function or an object, not a number) or `undefined`. */
  datatype Lookup = Degree(n: int) | Inherited(name: string) | Undefined

  /** `w in solfegeToNumber ? solfegeToNumber[w] : …`: own keys first, then the
      inherited members. */
  function PropertyOf(w: string): (r: Lookup)
    ensures r.Undefined? <==> SolfegeToNumber(w).None? && !ObjectPrototypeMember(w)
  {
    if SolfegeToNumber(w).Some? then Degree(SolfegeToNumber(w).value)
    else if ObjectPrototypeMember(w) then Inherited(w)
    else Undefined
  }

  /** `mapWordToNumber(word)` as written: `null`, `undefined` and the empty string
      give `undefined`; each `w in solfegeToNumber` test also accepts inherited
      members. */
  function MapWordToNumberAsWritten(word: Option<string>): (r: Lookup)
    ensures word.None? || word.value == [] ==> r.Undefined?
    ensures r.Degree? ==> 1 <= r.n <= 7
    ensures r.Inherited? ==> ObjectPrototypeMember(r.name)
  {
    if word.None? || word.value == [] then Undefined
    else
      var w := Lower(word.value);
      if !PropertyOf(w).Undefined? then PropertyOf(w)
      else PropertyOf(KeepLowerLetters(w))
  }

  /** As written, too, the letter case of a word never matters. */
  lemma CaseInsensitiveAsWritten(word: string)
    ensures MapWordToNumberAsWritten(Some(word)) == MapWordToNumberAsWritten(Some(Lower(word)))
  {
    LowerIdempotent(word);
  }

  /** A word whose lower case is an inherited member name is answered with that
      member, never with a degree or `undefined`. */
  lemma InheritedAnswered(word: string)
    requires ObjectPrototypeMember(Lower(word))
    ensures MapWordToNumberAsWritten(Some(word)) == Inherited(Lower(word))
  {
    assert |Lower(word)| >= 7;
    LongWordsNotSyllables(Lower(word));
  }

  /** `constructor`, a word a recogniser can return, is such a word. */
  lemma ConstructorIsInherited()
    ensures MapWordToNumberAsWritten(Some("constructor")) == Inherited("constructor")
  {
    LowerOfNoUpper("constructor");
    InheritedAnswered("constructor");
  }

  // ---------------------------------------------------------------------------
  // The lookup as intended: own keys only

  /** `mapWordToNumber(word)` with the membership tests restricted to the table's
      own syllables. */
  function MapWordToNumber(word: Option<string>): (r: Option<int>)
    ensures word.None? || word.value == [] ==> r.None?
    ensures r.Some? ==> 1 <= r.value <= 7
  {
    if word.None? || word.value == [] then None
    else
      var w := Lower(word.value);
      if SolfegeToNumber(w).Some? then SolfegeToNumber(w)
      else SolfegeToNumber(KeepLowerLetters(w))
  }

  /** Every syllable is recognised as its degree, whatever its letter case. */
  lemma SyllablesRecognised(w: string)
    requires SolfegeToNumber(w).Some?
    ensures MapWordToNumber(Some(w)) == SolfegeToNumber(w)
    ensures MapWordToNumber(Some(Upper(w))) == SolfegeToNumber(w)
  {
    SyllableShape(w);
    LowerOfNoUpper(w);
    LowerOfUpper(w);
  }

  /** The letter case of a word never matters. */
  lemma CaseInsensitive(word: string)
    ensures MapWordToNumber(Some(word)) == MapWordToNumber(Some(Lower(word)))
  {
    LowerIdempotent(word);
  }

  /** A syllable followed by punctuation, digits or spaces is still recognised. */
  lemma TrailingNonLettersIgnored(w: string, tail: string)
    requires SolfegeToNumber(w).Some? && tail != []
    requires forall k :: 0 <= k < |tail| ==> !IsLowerLetter(tail[k]) && !('A' <= tail[k] <= 'Z')
    ensures MapWordToNumber(Some(w + tail)) == SolfegeToNumber(w)
  {
    SyllableShape(w);
    var s := w + tail;
    LowerOfNoUpper(s);
    assert SolfegeToNumber(s).None? by {
      assert !IsLowerLetter(s[|w|]);
    }
    KeepLowerLettersAppend(w, tail);
    KeepLowerLettersOfLetters(w);
    KeepLowerLettersOfNonLetters(tail);
    assert w + [] == w;
  }

  /** A string with an upper-case letter differs from its lower case. */
  lemma HasUpper(m: string, i: nat)
    requires i < |m| && 'A' <= m[i] <= 'Z'
    ensures Lower(m) != m
  {
    assert Lower(m)[i] == LowerAscii(m[i]);
  }

  /** All inherited member names but `constructor` and `__proto__` hold an
      upper-case letter, so no lower-cased word equals them. */
  lemma InheritedMembersWithUpper(m: string) returns (i: nat)
    requires ObjectPrototypeMember(m) && m != "constructor" && m != "__proto__"
    ensures i < |m| && 'A' <= m[i] <= 'Z'
  {
    i := if m == "hasOwnProperty" then 3
      else if m == "isPrototypeOf" || m == "toLocaleString" || m == "toString" then 2
      else if m == "propertyIsEnumerable" then 10
      else if m == "valueOf" then 5
      else 8;
    assert 'A' <= m[i] <= 'Z';
  }

  /** Neither lower-case inherited name reduces to a syllable once the non-letters
      are removed. */
  lemma LowerCaseInheritedMembers(m: string)
    requires ObjectPrototypeMember(m) && Lower(m) == m
    ensures SolfegeToNumber(KeepLowerLetters(m)).None?
  {
    if m == "constructor" {
      LettersNotSyllable(m);
    } else if m == "__proto__" {
      ProtoLetters();
      LongWordsNotSyllables("proto");
    } else {
      var i := InheritedMembersWithUpper(m);
      assert false;
    }
  }

  /** A word of more than three letters a-z is kept whole, so it is no syllable. */
  lemma LettersNotSyllable(w: string)
    requires AllLowerLetters(w) && |w| > 3
    ensures SolfegeToNumber(KeepLowerLetters(w)).None?
  {
    KeepLowerLettersOfLetters(w);
    LongWordsNotSyllables(w);
  }

  /** `__proto__` without its underscores is `proto`. */
  lemma ProtoLetters()
    ensures KeepLowerLetters("__proto__") == "proto"
  {
    var under, letters := "__", "proto";
    assert under + (letters + under) == "__proto__";
    KeepLowerLettersAppend(under, letters + under);
    KeepLowerLettersAppend(letters, under);
    KeepLowerLettersOfNonLetters(under);
    KeepLowerLettersOfLetters(letters);
    assert [] + (letters + []) == letters;
  }

  /** The two lookups agree on every word that yields a degree; the as-written one
      differs only by answering some words with an inherited member where the
      intended one answers `undefined`. */
  lemma AsWrittenAgreesOnDegrees(word: Option<string>)
    ensures MapWordToNumberAsWritten(word).Degree? <==> MapWordToNumber(word).Some?
    ensures MapWordToNumber(word).Some? ==> MapWordToNumberAsWritten(word) == Degree(MapWordToNumber(word).value)
    ensures MapWordToNumberAsWritten(word).Undefined? ==> MapWordToNumber(word).None?
  {
    if word.Some? && word.value != [] {
      var w := Lower(word.value);
      if SolfegeToNumber(w).None? && ObjectPrototypeMember(w) {
        LowerIdempotent(word.value);
        LowerCaseInheritedMembers(w);
      }
    }
  }
}
