/** The two string operations the GPU accounting relies on: Go's `strings.TrimSpace` and,
    restricted to the letters that matter, `strings.ToLower`. */
module Text {

  /** Go's `unicode.IsSpace`. */
  predicate IsSpace(c: char) {
    var u := c as int;
    || 0x09 <= u <= 0x0D || u == 0x20 || u == 0x85 || u == 0xA0
    || u == 0x1680 || 0x2000 <= u <= 0x200A
    || u == 0x2028 || u == 0x2029 || u == 0x202F || u == 0x205F || u == 0x3000
  }

  function TrimLeft(s: string): string {
    if s != "" && IsSpace(s[0]) then TrimLeft(s[1..]) else s
  }

  function TrimRight(s: string): string {
    if s != "" && IsSpace(s[|s| - 1]) then TrimRight(s[..|s| - 1]) else s
  }

  function TrimSpace(s: string): string {
    TrimRight(TrimLeft(s))
  }

  /** Nothing left to trim at either end. */
  predicate Tight(s: string) {
    s != "" ==> !IsSpace(s[0]) && !IsSpace(s[|s| - 1])
  }

  lemma {:induction false} TrimRightTight(s: string)
    requires s != "" ==> !IsSpace(s[0])
    ensures Tight(TrimRight(s))
    decreases |s|
  {
    if s == "" || !IsSpace(s[|s| - 1]) {
    } else {
      TrimRightTight(s[..|s| - 1]);
    }
  }

  lemma {:induction false} TrimLeftStart(s: string)
    ensures TrimLeft(s) != "" ==> !IsSpace(TrimLeft(s)[0])
    decreases |s|
  {
    if s == "" || !IsSpace(s[0]) {
    } else {
      TrimLeftStart(s[1..]);
    }
  }

  /** Trimming leaves a tight string, so trimming again changes nothing. */
  lemma TrimSpaceIdempotent(s: string)
    ensures Tight(TrimSpace(s))
    ensures TrimSpace(TrimSpace(s)) == TrimSpace(s)
  {
    TrimLeftStart(s);
    TrimRightTight(TrimLeft(s));
  }

  /** ASCII lower-casing.  No character outside ASCII lower-cases to one of the letters of
      "true", "yes" or "on", so for `WantsGPU` this agrees with the Unicode mapping. */
  function LowerChar(c: char): char {
    if 'A' <= c <= 'Z' then (c as int + 32) as char else c
  }

  function ToLower(s: string): string {
    if s == "" then "" else [LowerChar(s[0])] + ToLower(s[1..])
  }

  // ---- Which strings these are, character by character ----

  /** The white space characters, one by one. */
  const WHITE := "\t\n\U{0B}\U{0C}\r \U{85}\U{A0}\U{1680}" +
    "\U{2000}\U{2001}\U{2002}\U{2003}\U{2004}\U{2005}\U{2006}\U{2007}\U{2008}\U{2009}\U{200A}" +
    "\U{2028}\U{2029}\U{202F}\U{205F}\U{3000}"

  predicate AllWhite(s: string) {
    forall i :: 0 <= i < |s| ==> s[i] in WHITE
  }

  lemma WhiteConcat(a: string, b: string)
    requires (a != "" ==> AllWhite(a)) && (b != "" ==> AllWhite(b))
    ensures AllWhite(a + b) && AllWhite("")
  {
  }

  /** Nothing but these characters is white space. */
  lemma SpaceIsWhite(c: char)
    ensures IsSpace(c) <==> c in WHITE
  {
    if IsSpace(c) {
      assert exists i :: 0 <= i < |WHITE| && WHITE[i] == c by {
        SpaceHasIndex(c);
      }
    }
  }

  lemma SpaceHasIndex(c: char)
    requires IsSpace(c)
    ensures exists i :: 0 <= i < |WHITE| && WHITE[i] == c
  {
    var u := c as int;
    var i := if u <= 0x0D then u - 0x09 else if u == 0x20 then 5 else if u == 0x85 then 6 else if u == 0xA0 then 7
             else if u == 0x1680 then 8 else if u <= 0x200A then 9 + (u - 0x2000) else if u == 0x2028 then 20
             else if u == 0x2029 then 21 else if u == 0x202F then 22 else if u == 0x205F then 23 else 24;
    assert WHITE[i] == c;
  }

  /** `core` is what is left of `s` without the white space around it. */
  ghost predicate IsCore(s: string, core: string) {
    && (core != "" ==> core[0] !in WHITE && core[|core| - 1] !in WHITE)
    && exists a, b :: AllWhite(a) && AllWhite(b) && s == a + core + b
  }

  lemma WhiteChar(c: char)
    requires IsSpace(c)
    ensures AllWhite([c])
  {
    SpaceIsWhite(c);
  }

  lemma {:induction false} TrimRightSplits(s: string) returns (b: string)
    ensures AllWhite(b) && s == TrimRight(s) + b
    decreases |s|
  {
    hide AllWhite, IsSpace;
    b := "";
    WhiteConcat("", "");
    if s == "" || !IsSpace(s[|s| - 1]) {
    } else {
      var last := s[|s| - 1];
      WhiteChar(last);
      var rest := TrimRightSplits(s[..|s| - 1]);
      b := rest + [last];
      WhiteConcat(rest, [last]);
      assert s == s[..|s| - 1] + [last];
    }
  }

  lemma {:induction false} TrimLeftSplits(s: string) returns (a: string)
    ensures AllWhite(a) && s == a + TrimLeft(s)
    decreases |s|
  {
    hide AllWhite, IsSpace;
    a := "";
    WhiteConcat("", "");
    if s == "" || !IsSpace(s[0]) {
    } else {
      WhiteChar(s[0]);
      var rest := TrimLeftSplits(s[1..]);
      a := [s[0]] + rest;
      WhiteConcat([s[0]], rest);
      assert s == [s[0]] + s[1..];
    }
  }

  /** Trimming finds the core. */
  lemma TrimSpaceFindsCore(s: string)
    ensures IsCore(s, TrimSpace(s))
  {
    var a := TrimLeftSplits(s);
    var b := TrimRightSplits(TrimLeft(s));
    assert s == a + TrimSpace(s) + b;
    TrimSpaceIdempotent(s);
    var core := TrimSpace(s);
    if core != "" {
      SpaceIsWhite(core[0]);
      SpaceIsWhite(core[|core| - 1]);
    }
  }

  lemma TightIsCore(s: string)
    requires Tight(s)
    ensures IsCore(s, s)
  {
    assert AllWhite("") && s == "" + s + "";
    if s != "" {
      SpaceIsWhite(s[0]);
      SpaceIsWhite(s[|s| - 1]);
    }
  }

  lemma {:induction false} TrimLeftOf(a: string, t: string)
    requires AllWhite(a) && (t != "" ==> t[0] !in WHITE)
    ensures TrimLeft(a + t) == t
    decreases |a|
  {
    if a == "" {
      assert a + t == t;
      if t != "" {
        SpaceIsWhite(t[0]);
      }
    } else {
      SpaceIsWhite(a[0]);
      assert (a + t)[1..] == a[1..] + t;
      TrimLeftOf(a[1..], t);
    }
  }

  lemma {:induction false} TrimRightOf(t: string, b: string)
    requires AllWhite(b) && (t != "" ==> t[|t| - 1] !in WHITE)
    ensures TrimRight(t + b) == t
    decreases |b|
  {
    if b == "" {
      assert t + b == t;
      if t != "" {
        SpaceIsWhite(t[|t| - 1]);
      }
    } else {
      SpaceIsWhite(b[|b| - 1]);
      assert (t + b)[..|t + b| - 1] == t + b[..|b| - 1];
      TrimRightOf(t, b[..|b| - 1]);
    }
  }

  lemma {:induction false} TrimLeftAll(a: string)
    requires AllWhite(a)
    ensures TrimLeft(a) == ""
  {
    TrimLeftOf(a, "");
    assert a + "" == a;
  }

  /** The core is unique: white space around a string that has none at its ends is all that trimming
      takes away. */
  lemma TrimSpaceOf(s: string, core: string)
    requires IsCore(s, core)
    ensures TrimSpace(s) == core
  {
    hide AllWhite, TrimLeft, TrimRight;
    var a, b :| AllWhite(a) && AllWhite(b) && s == a + core + b;
    if core == "" {
      WhiteConcat(a, b);
      assert s == a + b;
      TrimLeftAll(s);
      TrimRightOf("", "");
      assert "" + "" == "";
    } else {
      assert s == a + (core + b);
      TrimLeftOf(a, core + b);
      TrimRightOf(core, b);
    }
  }

  /** The string is the word in any mixture of capital and small letters. */
  predicate Spells(s: string, word: string) {
    |s| == |word| && forall i :: 0 <= i < |s| ==> s[i] == word[i] || (s[i], word[i]) in CASES
  }

  /** The capital and small letters of "true", "yes" and "on". */
  const CASES := {('T', 't'), ('R', 'r'), ('U', 'u'), ('E', 'e'), ('Y', 'y'), ('S', 's'), ('O', 'o'), ('N', 'n')}

  /** The words of `TaskWantsGPU`. */
  const WORDS := {"1", "true", "yes", "on"}

  lemma {:induction false} LowerAt(s: string, i: nat)
    requires i < |s|
    ensures |ToLower(s)| == |s| && ToLower(s)[i] == LowerChar(s[i])
  {
    if |s| == 1 {
    } else {
      LowerAt(s[1..], if i == 0 then 0 else i - 1);
    }
  }

  lemma {:induction false} LowerLength(s: string)
    ensures |ToLower(s)| == |s|
  {
    if s == "" {
    } else {
      LowerAt(s, 0);
    }
  }

  /** Lower-casing a string gives one of the words exactly if the string spells it. */
  lemma LowerSpells(s: string, word: string)
    requires word in WORDS
    ensures ToLower(s) == word <==> Spells(s, word)
  {
    LowerLength(s);
    forall i | 0 <= i < |s| ensures ToLower(s)[i] == LowerChar(s[i]) {
      LowerAt(s, i);
    }
    if |s| == |word| {
      forall i | 0 <= i < |s| ensures LowerChar(s[i]) == word[i] <==> s[i] == word[i] || (s[i], word[i]) in CASES {
        LowerCases(s[i], word, i);
      }
    }
  }

  lemma LowerCases(c: char, word: string, i: nat)
    requires word in WORDS && i < |word|
    ensures LowerChar(c) == word[i] <==> c == word[i] || (c, word[i]) in CASES
  {
  }

  lemma SpelledIsTight(s: string, word: string)
    requires word in WORDS && Spells(s, word)
    ensures s != "" && s[0] !in WHITE && s[|s| - 1] !in WHITE
  {
    forall c | IsSpace(c) ensures (forall w :: (c, w) !in CASES) && c !in "1trueyson" {
    }
    SpaceIsWhite(s[0]);
    SpaceIsWhite(s[|s| - 1]);
  }
}
