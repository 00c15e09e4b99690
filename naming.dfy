/**
 * serde's `rename_all = "camelCase"` rule, which gives each field of every
 * OpenAPI record its wire name from its Rust identifier: PascalCase first
 * (underscores dropped, the first character and every character after an
 * underscore upper-cased), then the first character lower-cased again.
 */
module Naming {

  function ToAsciiUppercase(c: char): char
  {
    if 'a' <= c <= 'z' then (c as int - 32) as char else c
  }

  function ToAsciiLowercase(c: char): char
  {
    if 'A' <= c <= 'Z' then (c as int + 32) as char else c
  }

  predicate NoUnderscore(s: string)
  {
    forall i | 0 <= i < |s| :: s[i] != '_'
  }

  /** serde's PascalCase pass; `capitalize` says whether the next character
    * starts a word. */
  function Pascal(ident: string, capitalize: bool): (r: string)
    ensures NoUnderscore(r)
    ensures |r| <= |ident|
  {
    if ident == [] then []
    else if ident[0] == '_' then Pascal(ident[1..], true)
    else if capitalize then [ToAsciiUppercase(ident[0])] + Pascal(ident[1..], false)
    else [ident[0]] + Pascal(ident[1..], false)
  }

  /** The wire name serde derives for a field identifier. */
  function CamelCase(ident: string): (r: string)
    ensures NoUnderscore(r)
  {
    var pascal := Pascal(ident, true);
    if pascal == [] then [] else [ToAsciiLowercase(pascal[0])] + pascal[1..]
  }

  // ---------------------------------------------------------------------
  // The same rule on an identifier given as its underscore-separated words
  // ---------------------------------------------------------------------

  /** The snake_case identifier made of `words`. */
  function Snake(words: seq<string>): string
    requires words != []
  {
    if |words| == 1 then words[0] else words[0] + "_" + Snake(words[1..])
  }

  function Capitalize(w: string): string
  {
    if w == [] then [] else [ToAsciiUppercase(w[0])] + w[1..]
  }

  function PascalWords(words: seq<string>): string
  {
    if words == [] then [] else Capitalize(words[0]) + PascalWords(words[1..])
  }

  /** The first word as it is, every later word capitalized. */
  function CamelWords(words: seq<string>): string
    requires words != []
  {
    words[0] + PascalWords(words[1..])
  }

  lemma {:induction false} PascalOfWord(w: string, capitalize: bool)
    requires NoUnderscore(w)
    ensures Pascal(w, capitalize) == if capitalize then Capitalize(w) else w
  {
    if w != [] {
      PascalOfWord(w[1..], false);
    }
  }

  lemma {:induction false} PascalAcrossUnderscore(w: string, rest: string, capitalize: bool)
    requires NoUnderscore(w)
    ensures Pascal(w + "_" + rest, capitalize) == Pascal(w, capitalize) + Pascal(rest, true)
  {
    var s := w + "_" + rest;
    if w == [] {
      assert s[0] == '_' && s[1..] == rest;
    } else {
      assert s[0] == w[0] && s[1..] == w[1..] + "_" + rest;
      PascalAcrossUnderscore(w[1..], rest, false);
    }
  }

  lemma {:induction false} PascalOfSnake(words: seq<string>)
    requires words != []
    requires forall i | 0 <= i < |words| :: NoUnderscore(words[i])
    ensures Pascal(Snake(words), true) == PascalWords(words)
  {
    PascalOfWord(words[0], true);
    if |words| > 1 {
      PascalAcrossUnderscore(words[0], Snake(words[1..]), true);
      PascalOfSnake(words[1..]);
    }
  }

  /** camelCase lower-cases the first character of the PascalCase form. */
  lemma {:induction false} CamelCaseOfPascal(ident: string, c: char, rest: string)
    requires Pascal(ident, true) == [c] + rest
    ensures CamelCase(ident) == [ToAsciiLowercase(c)] + rest
  {
    var p := Pascal(ident, true);
    assert p[0] == c && p[1..] == rest;
  }

  /** A non-empty word capitalized: its first character upper-cased. */
  lemma CapitalizeFirst(w: string, tail: string)
    requires w != []
    ensures Capitalize(w) + tail == [ToAsciiUppercase(w[0])] + (w[1..] + tail)
  {
  }

  /** The PascalCase form of a snake_case identifier: its first word
    * capitalized, then the later words capitalized. */
  lemma {:induction false} PascalOfSnakeSplit(words: seq<string>)
    requires words != [] && words[0] != []
    requires forall i | 0 <= i < |words| :: NoUnderscore(words[i])
    ensures Pascal(Snake(words), true) == [ToAsciiUppercase(words[0][0])] + (words[0][1..] + PascalWords(words[1..]))
  {
    PascalOfSnake(words);
    CapitalizeFirst(words[0], PascalWords(words[1..]));
  }

  /** For a snake_case identifier whose first word starts with anything but
    * a capital letter, serde's camelCase is the word-level rule. */
  lemma {:induction false} CamelCaseOfSnake(words: seq<string>)
    requires words != [] && words[0] != [] && !('A' <= words[0][0] <= 'Z')
    requires forall i | 0 <= i < |words| :: NoUnderscore(words[i])
    ensures CamelCase(Snake(words)) == CamelWords(words)
  {
    var w, tail := words[0], PascalWords(words[1..]);
    PascalOfSnakeSplit(words);
    CamelCaseOfPascal(Snake(words), ToAsciiUppercase(w[0]), w[1..] + tail);
    LowerOfUpper(w[0]);
    FirstAndRest(w, tail);
  }

  lemma FirstAndRest(w: string, tail: string)
    requires w != []
    ensures [w[0]] + (w[1..] + tail) == w + tail
  {
    assert w == [w[0]] + w[1..];
  }

  lemma LowerOfUpper(c: char)
    requires !('A' <= c <= 'Z')
    ensures ToAsciiLowercase(ToAsciiUppercase(c)) == c
  {
  }
}
