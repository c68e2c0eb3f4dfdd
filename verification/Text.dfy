/** The few string operations the modelled code borrows from Go's library; strings are sequences of runes. */
module Text {

  /** unicode.IsSpace. */
  predicate IsSpace(c: char) {
    || c == ' ' || c == '\t' || c == '\n' || c == '\U{0b}' || c == '\U{0c}' || c == '\r'
    || c == '\U{85}' || c == '\U{a0}' || c == '\U{1680}' || '\U{2000}' <= c <= '\U{200a}'
    || c == '\U{2028}' || c == '\U{2029}' || c == '\U{202f}' || c == '\U{205f}' || c == '\U{3000}'
  }

  function TrimLeft(s: string): (r: string)
    ensures |r| <= |s|
    ensures r != "" ==> !IsSpace(r[0])
  {
    if s != "" && IsSpace(s[0]) then TrimLeft(s[1..]) else s
  }

  function TrimRight(s: string): (r: string)
    ensures r <= s
    ensures r != "" ==> !IsSpace(r[|r| - 1])
  {
    if s != "" && IsSpace(s[|s| - 1]) then TrimRight(s[..|s| - 1]) else s
  }

  /** strings.TrimSpace. */
  function TrimSpace(s: string): (r: string)
    ensures Trimmed(r)
  {
    TrimRight(TrimLeft(s))
  }

  predicate Trimmed(s: string) {
    s == "" || (!IsSpace(s[0]) && !IsSpace(s[|s| - 1]))
  }

  lemma TrimmedStays(s: string)
    requires Trimmed(s)
    ensures TrimSpace(s) == s
  {
  }

  /** A character that trimming stops at. */
  predicate HasText(s: string) {
    exists i :: 0 <= i < |s| && !IsSpace(s[i])
  }

  lemma {:induction false} TrimLeftKeepsText(s: string)
    ensures HasText(TrimLeft(s)) <==> HasText(s)
    decreases |s|
  {
    if s != "" && IsSpace(s[0]) {
      TrimLeftKeepsText(s[1..]);
      if HasText(s) {
        var i :| 0 <= i < |s| && !IsSpace(s[i]);
        assert s[1..][i - 1] == s[i];
      }
      if HasText(s[1..]) {
        var i :| 0 <= i < |s[1..]| && !IsSpace(s[1..][i]);
        assert s[i + 1] == s[1..][i];
      }
    }
  }

  lemma {:induction false} TrimRightKeepsText(s: string)
    ensures HasText(TrimRight(s)) <==> HasText(s)
    decreases |s|
  {
    if s != "" && IsSpace(s[|s| - 1]) {
      TrimRightKeepsText(s[..|s| - 1]);
      if HasText(s) {
        var i :| 0 <= i < |s| && !IsSpace(s[i]);
        assert s[..|s| - 1][i] == s[i];
      }
    }
  }

  /** Trimming leaves nothing exactly of what has no text. */
  lemma TrimmedAway(s: string)
    ensures TrimSpace(s) != "" <==> HasText(s)
  {
    TrimLeftKeepsText(s);
    TrimRightKeepsText(TrimLeft(s));
    var t := TrimSpace(s);
    if t != "" {
      assert !IsSpace(t[0]);
    }
  }

  function Run(s: string): (n: nat)
    ensures n <= |s|
    ensures s != "" && !IsSpace(s[0]) ==> n > 0
  {
    if s == "" || IsSpace(s[0]) then 0 else 1 + Run(s[1..])
  }

  /** strings.Fields. */
  function Fields(s: string): seq<string>
    decreases |s|
  {
    var t := TrimLeft(s);
    if t == "" then [] else [t[..Run(t)]] + Fields(t[Run(t)..])
  }

  /** A word: something, and no white space. */
  predicate Word(w: string) {
    w != "" && forall i :: 0 <= i < |w| ==> !IsSpace(w[i])
  }

  /** Words with a space before each. */
  function Spoken(words: seq<string>): string {
    if words == [] then "" else " " + words[0] + Spoken(words[1..])
  }

  lemma {:induction false} RunOfWord(w: string, tail: string)
    requires (forall i :: 0 <= i < |w| ==> !IsSpace(w[i])) && (tail != "" ==> tail[0] == ' ')
    ensures Run(w + tail) == |w|
    decreases |w|
  {
    if w == "" {
      assert w + tail == tail;
    } else {
      assert (w + tail)[1..] == w[1..] + tail;
      RunOfWord(w[1..], tail);
    }
  }

  lemma FieldsStep(w: string, tail: string)
    requires Word(w) && (tail != "" ==> tail[0] == ' ')
    ensures Fields(w + tail) == [w] + Fields(tail)
    ensures Fields(" " + w + tail) == [w] + Fields(tail)
  {
    RunOfWord(w, tail);
    var s := " " + w + tail;
    assert s[1..] == w + tail;
    assert TrimLeft(s) == w + tail && TrimLeft(w + tail) == w + tail;
    assert (w + tail)[..|w|] == w && (w + tail)[|w|..] == tail;
  }

  /** Words spoken are the fields heard. */
  lemma {:induction false} FieldsOfSpoken(words: seq<string>)
    requires forall w :: w in words ==> Word(w)
    ensures Fields(Spoken(words)) == words
    decreases |words|
  {
    if words != [] {
      assert words[0] in words;
      FieldsOfSpoken(words[1..]);
      FieldsStep(words[0], Spoken(words[1..]));
    }
  }

  lemma {:induction false} SpokenEnds(words: seq<string>)
    requires (forall w :: w in words ==> Word(w)) && words != []
    ensures var s := Spoken(words); s != "" && !IsSpace(s[|s| - 1])
    decreases |words|
  {
    assert words[0] in words;
    if words[1..] != [] {
      SpokenEnds(words[1..]);
    }
  }

  /** Trimming spoken words leaves their fields. */
  lemma FieldsOfTrimmed(words: seq<string>)
    requires forall w :: w in words ==> Word(w)
    ensures Fields(TrimSpace(Spoken(words))) == words
  {
    if words != [] {
      var s, tail := Spoken(words), Spoken(words[1..]);
      var first := words[0];
      assert first in words;
      SpokenEnds(words);
      assert s == " " + first + tail && s[1..] == first + tail;
      assert TrimLeft(s) == first + tail;
      assert TrimSpace(s) == first + tail;
      FieldsOfSpoken(words[1..]);
      FieldsStep(first, tail);
    }
  }

  /** strings.TrimPrefix. */
  function TrimPrefix(s: string, prefix: string): string {
    if prefix <= s then s[|prefix|..] else s
  }

  /** Simple case folding, as far as the letters of the phrases compared with it go: the long s folds to s. */
  function Fold(c: char): char {
    if 'A' <= c <= 'Z' then c - 'A' + 'a' else if c == '\U{17f}' then 's' else c
  }

  predicate EqualFold(s: string, lower: string) {
    |s| == |lower| && forall i :: 0 <= i < |s| ==> Fold(s[i]) == lower[i]
  }
}
