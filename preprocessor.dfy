/**
 * `preprocess_text`: lowercase, drop every character that is neither a letter,
 * a digit nor whitespace, then collapse whitespace runs to single spaces and
 * strip both ends (`' '.join(text.split())`).
 *
 * Characters are classified by their ASCII meaning.
 */
module TextPreprocessor {

  predicate IsUpper(c: char) {
    'A' <= c <= 'Z'
  }

  /** ASCII letters and digits (`str.isalnum`). */
  predicate IsAlnum(c: char) {
    'a' <= c <= 'z' || 'A' <= c <= 'Z' || '0' <= c <= '9'
  }

  /** ASCII whitespace as `str.isspace` and `str.split` see it: tab to carriage return, the four separators 0x1C-0x1F, and space. */
  predicate IsSpace(c: char) {
    9 <= c as int <= 13 || 28 <= c as int <= 32
  }

  /** A character the result may hold other than its single spaces. */
  predicate IsLowerAlnum(c: char) {
    IsAlnum(c) && !IsUpper(c)
  }

  /** `str.lower` on one character. */
  function Lower(c: char): (d: char)
    ensures !IsUpper(d)
    ensures IsAlnum(d) <==> IsAlnum(c)
    ensures IsSpace(d) <==> IsSpace(c)
    ensures !IsUpper(c) ==> d == c
  {
    if IsUpper(c) then (c as int + 32) as char else c
  }

  function LowerAll(s: string): (r: string)
    ensures |r| == |s| && forall i :: 0 <= i < |s| ==> r[i] == Lower(s[i])
  {
    seq(|s|, i requires 0 <= i < |s| => Lower(s[i]))
  }

  /** `''.join(c for c in text if c.isalnum() or c.isspace())`. */
  function Filtered(s: string): string {
    if s == [] then []
    else (if IsAlnum(s[0]) || IsSpace(s[0]) then [s[0]] else []) + Filtered(s[1..])
  }

  /** Leading whitespace removed. */
  function DropSpaces(s: string): (r: string)
    ensures |r| <= |s|
    ensures forall i :: 0 <= i < |s| - |r| ==> IsSpace(s[i])
    ensures r != [] ==> !IsSpace(r[0])
  {
    if s == [] || !IsSpace(s[0]) then s else DropSpaces(s[1..])
  }

  /** What `DropSpaces` leaves is a suffix of its input. */
  lemma {:induction false} DropSpacesSuffix(s: string)
    ensures DropSpaces(s) == s[|s| - |DropSpaces(s)|..]
  {
    if s != [] && IsSpace(s[0]) {
      DropSpacesSuffix(s[1..]);
      assert s[1..][|s| - 1 - |DropSpaces(s)|..] == s[|s| - |DropSpaces(s)|..];
    }
  }

  /** The longest prefix holding no whitespace. */
  function WordPrefix(s: string): (w: string)
    ensures |w| <= |s| && w == s[..|w|]
    ensures forall i :: 0 <= i < |w| ==> !IsSpace(w[i])
    ensures |w| < |s| ==> IsSpace(s[|w|])
  {
    if s == [] || IsSpace(s[0]) then []
    else
      var w := WordPrefix(s[1..]);
      assert s[..|w| + 1] == [s[0]] + w;
      [s[0]] + w
  }

  lemma WordPrefixIsWord(t: string)
    requires t != [] && !IsSpace(t[0])
    ensures IsWord(WordPrefix(t))
  {
  }

  lemma AllWordsCons(w: string, rest: seq<string>)
    requires IsWord(w) && forall i :: 0 <= i < |rest| ==> IsWord(rest[i])
    ensures forall i :: 0 <= i < |rest| + 1 ==> IsWord(([w] + rest)[i])
  {
  }

  /** A non-empty run of non-whitespace characters. */
  predicate IsWord(w: string) {
    w != [] && forall i :: 0 <= i < |w| ==> !IsSpace(w[i])
  }

  /** `str.split()` with no separator: the maximal whitespace-free runs, in order. */
  function Words(s: string): (ws: seq<string>)
    ensures forall i :: 0 <= i < |ws| ==> IsWord(ws[i])
    decreases |s|
  {
    var t := DropSpaces(s);
    if t == [] then []
    else
      var w := WordPrefix(t);
      WordPrefixIsWord(t);
      var rest := Words(t[|w|..]);
      AllWordsCons(w, rest);
      [w] + rest
  }

  /** `' '.join(ws)`. */
  function Join(ws: seq<string>): string {
    if ws == [] then []
    else if |ws| == 1 then ws[0]
    else ws[0] + " " + Join(ws[1..])
  }

  /** `preprocess_text(text)`. */
  function Preprocess(text: string): (r: string)
    ensures Normalised(r)
  {
    var ws := Words(Filtered(LowerAll(text)));
    JoinNormalised(ws);
    Join(ws)
  }

  // ---------------------------------------------------------------------
  // Specification helpers
  // ---------------------------------------------------------------------

  /** The non-whitespace characters of `s`, in order. */
  function NonSpace(s: string): string {
    if s == [] then [] else (if IsSpace(s[0]) then [] else [s[0]]) + NonSpace(s[1..])
  }

  /** The letters and digits of `s`, in order. */
  function AlnumOf(s: string): string {
    if s == [] then [] else (if IsAlnum(s[0]) then [s[0]] else []) + AlnumOf(s[1..])
  }

  function Flatten(ws: seq<string>): string {
    if ws == [] then [] else ws[0] + Flatten(ws[1..])
  }

  /** No whitespace at either end, every whitespace character a plain space, never two in a row. */
  predicate Normalised(r: string) {
    (r != [] ==> !IsSpace(r[0]) && !IsSpace(r[|r| - 1])) &&
    (forall i :: 0 <= i < |r| && IsSpace(r[i]) ==> r[i] == ' ') &&
    (forall i :: 0 <= i < |r| - 1 ==> !(IsSpace(r[i]) && IsSpace(r[i + 1])))
  }

  // ---------------------------------------------------------------------
  // Shape of the result
  // ---------------------------------------------------------------------

  lemma {:induction false} JoinNonEmpty(ws: seq<string>)
    requires ws != [] && IsWord(ws[0])
    ensures |Join(ws)| >= |ws[0]| && Join(ws)[..|ws[0]|] == ws[0]
  {
    if |ws| > 1 {
      assert Join(ws) == ws[0] + (" " + Join(ws[1..]));
    }
  }

  lemma {:induction false} JoinNormalised(ws: seq<string>)
    requires forall i :: 0 <= i < |ws| ==> IsWord(ws[i])
    ensures Normalised(Join(ws))
  {
    if |ws| > 1 {
      var w := ws[0];
      var rest := Join(ws[1..]);
      JoinNormalised(ws[1..]);
      JoinNonEmpty(ws[1..]);
      var r := Join(ws);
      assert r == w + " " + rest;
      assert |r| == |w| + 1 + |rest|;
      forall i | 0 <= i < |r|
        ensures i < |w| ==> r[i] == w[i]
        ensures i == |w| ==> r[i] == ' '
        ensures i > |w| ==> r[i] == rest[i - |w| - 1]
      {
      }
      assert rest[0] == ws[1][0];
    }
  }

  lemma DropSpacesOfWord(w: string, rest: string)
    requires IsWord(w)
    ensures DropSpaces(w + rest) == w + rest
  {
  }

  lemma {:induction false} WordPrefixOfWord(w: string, rest: string)
    requires forall i :: 0 <= i < |w| ==> !IsSpace(w[i])
    requires rest == [] || IsSpace(rest[0])
    ensures WordPrefix(w + rest) == w
  {
    if w != [] {
      assert (w + rest)[1..] == w[1..] + rest;
      WordPrefixOfWord(w[1..], rest);
    }
  }

  lemma {:induction false} DropOneSpace(s: string)
    ensures Words(" " + s) == Words(s)
  {
    assert (" " + s)[1..] == s;
  }

  /** A word followed by whitespace or nothing is the first word. */
  lemma WordsCons(w: string, rest: string)
    requires IsWord(w) && (rest == [] || IsSpace(rest[0]))
    ensures Words(w + rest) == [w] + Words(rest)
  {
    DropSpacesOfWord(w, rest);
    WordPrefixOfWord(w, rest);
    assert (w + rest)[|w|..] == rest;
  }

  lemma JoinCons(ws: seq<string>)
    requires |ws| > 1
    ensures Join(ws) == ws[0] + (" " + Join(ws[1..]))
  {
  }

  lemma WordsOfJoinOne(ws: seq<string>)
    requires |ws| == 1 && IsWord(ws[0])
    ensures Words(Join(ws)) == ws
  {
    var w := ws[0];
    assert Join(ws) == w;
    assert Words(w) == [w] by {
      assert w + [] == w;
      WordsCons(w, []);
      WordsOfNothing();
    }
    assert [w] == ws;
  }

  lemma WordsOfNothing()
    ensures Words([]) == []
  {
  }

  lemma WordsOfJoinMore(ws: seq<string>)
    requires |ws| > 1 && IsWord(ws[0])
    requires Words(Join(ws[1..])) == ws[1..]
    ensures Words(Join(ws)) == ws
  {
    JoinCons(ws);
    WordsOfJoinStep(ws[0], ws[1..]);
    assert [ws[0]] + ws[1..] == ws;
  }

  lemma WordsOfJoinStep(w: string, ws: seq<string>)
    requires IsWord(w) && ws != []
    requires Words(Join(ws)) == ws
    ensures Words(w + (" " + Join(ws))) == [w] + ws
  {
    WordsCons(w, " " + Join(ws));
    DropOneSpace(Join(ws));
  }

  /** Splitting a join of words gives the words back. */
  lemma {:induction false} WordsOfJoin(ws: seq<string>)
    requires forall i :: 0 <= i < |ws| ==> IsWord(ws[i])
    ensures Words(Join(ws)) == ws
  {
    if ws == [] {
      assert Words([]) == [];
    } else if |ws| == 1 {
      WordsOfJoinOne(ws);
    } else {
      WordsOfJoin(ws[1..]);
      WordsOfJoinMore(ws);
    }
  }

  // ---------------------------------------------------------------------
  // Which characters survive
  // ---------------------------------------------------------------------

  lemma {:induction false} NonSpaceAppend(a: string, b: string)
    ensures NonSpace(a + b) == NonSpace(a) + NonSpace(b)
  {
    if a != [] {
      assert (a + b)[0] == a[0];
      assert (a + b)[1..] == a[1..] + b;
      NonSpaceAppend(a[1..], b);
      var head := if IsSpace(a[0]) then [] else [a[0]];
      assert NonSpace(a + b) == head + NonSpace((a + b)[1..]);
      assert head + (NonSpace(a[1..]) + NonSpace(b)) == (head + NonSpace(a[1..])) + NonSpace(b);
    } else {
      assert a + b == b;
    }
  }

  lemma {:induction false} NonSpaceOfWord(w: string)
    requires forall i :: 0 <= i < |w| ==> !IsSpace(w[i])
    ensures NonSpace(w) == w
  {
    if w != [] {
      NonSpaceOfWord(w[1..]);
      assert w == [w[0]] + w[1..];
    }
  }

  lemma {:induction false} NonSpaceOfSpaces(s: string)
    requires forall i :: 0 <= i < |s| ==> IsSpace(s[i])
    ensures NonSpace(s) == []
  {
    if s != [] {
      NonSpaceOfSpaces(s[1..]);
    }
  }

  lemma {:induction false} NonSpaceOfJoin(ws: seq<string>)
    requires forall i :: 0 <= i < |ws| ==> IsWord(ws[i])
    ensures NonSpace(Join(ws)) == Flatten(ws)
  {
    if ws == [] {
    } else if |ws| == 1 {
      NonSpaceOfWord(ws[0]);
      assert Flatten(ws) == ws[0] + [];
    } else {
      NonSpaceOfJoin(ws[1..]);
      NonSpaceAppend(ws[0] + " ", Join(ws[1..]));
      NonSpaceAppend(ws[0], " ");
      NonSpaceOfWord(ws[0]);
      assert NonSpace(" ") == [];
    }
  }

  lemma {:induction false} FlattenOfWords(s: string)
    ensures Flatten(Words(s)) == NonSpace(s)
    decreases |s|
  {
    if s == [] {
      WordsOfNothing();
    } else if IsSpace(s[0]) {
      FlattenOfWords(s[1..]);
      FlattenSkipsSpace(s);
    } else {
      WordPrefixIsWord(s);
      FlattenOfWords(s[|WordPrefix(s)|..]);
      FlattenAfterWord(s);
    }
  }

  lemma FlattenSkipsSpace(s: string)
    requires s != [] && IsSpace(s[0])
    requires Flatten(Words(s[1..])) == NonSpace(s[1..])
    ensures Flatten(Words(s)) == NonSpace(s)
  {
    assert DropSpaces(s) == DropSpaces(s[1..]);
    assert Words(s) == Words(s[1..]);
    assert [] + NonSpace(s[1..]) == NonSpace(s[1..]);
  }

  lemma FlattenAfterWord(s: string)
    requires s != [] && !IsSpace(s[0])
    requires Flatten(Words(s[|WordPrefix(s)|..])) == NonSpace(s[|WordPrefix(s)|..])
    ensures Flatten(Words(s)) == NonSpace(s)
  {
    var w := WordPrefix(s);
    var rest := s[|w|..];
    WordPrefixIsWord(s);
    assert s == w + rest;
    WordsCons(w, rest);
    NonSpaceAppend(w, rest);
    NonSpaceOfWord(w);
    assert ([w] + Words(rest))[1..] == Words(rest);
  }

  lemma {:induction false} NonSpaceOfFiltered(s: string)
    ensures NonSpace(Filtered(s)) == AlnumOf(s)
  {
    if s != [] {
      NonSpaceOfFiltered(s[1..]);
      var head := if IsAlnum(s[0]) || IsSpace(s[0]) then [s[0]] else [];
      NonSpaceAppend(head, Filtered(s[1..]));
    }
  }

  /**
   * The non-space characters of the result are exactly the letters and
   * digits of the lowercased input, in their original order. (Where the
   * spaces fall is stated by `PunctuationVanishes` and `WhitespaceSeparates`.)
   */
  lemma KeepsAlnumInOrder(text: string)
    ensures NonSpace(Preprocess(text)) == AlnumOf(LowerAll(text))
  {
    var t := Filtered(LowerAll(text));
    NonSpaceOfJoin(Words(t));
    FlattenOfWords(t);
    NonSpaceOfFiltered(LowerAll(text));
  }

  lemma {:induction false} AlnumOfLower(s: string)
    requires forall i :: 0 <= i < |s| ==> !IsUpper(s[i])
    ensures forall i :: 0 <= i < |AlnumOf(s)| ==> IsLowerAlnum(AlnumOf(s)[i])
  {
    if s != [] {
      AlnumOfLower(s[1..]);
    }
  }

  lemma {:induction false} NonSpaceHas(s: string, i: nat)
    requires i < |s| && !IsSpace(s[i])
    ensures s[i] in NonSpace(s)
  {
    if i > 0 {
      NonSpaceHas(s[1..], i - 1);
    }
  }

  /**
   * The result holds only lowercase letters, digits and single spaces, with
   * no space at either end and no two spaces in a row.
   */
  lemma ResultShape(text: string)
    ensures Normalised(Preprocess(text))
    ensures forall i :: 0 <= i < |Preprocess(text)| ==> Preprocess(text)[i] == ' ' || IsLowerAlnum(Preprocess(text)[i])
    ensures forall i :: 0 <= i < |Preprocess(text)| ==> !IsUpper(Preprocess(text)[i])
  {
    var r := Preprocess(text);
    JoinNormalised(Words(Filtered(LowerAll(text))));
    KeepsAlnumInOrder(text);
    AlnumOfLower(LowerAll(text));
    forall i | 0 <= i < |r| && !IsSpace(r[i])
      ensures IsLowerAlnum(r[i])
    {
      NonSpaceHas(r, i);
    }
  }

  lemma {:induction false} FilteredKeepsAll(s: string)
    requires forall i :: 0 <= i < |s| ==> IsSpace(s[i]) || IsAlnum(s[i])
    ensures Filtered(s) == s
  {
    if s != [] {
      FilteredKeepsAll(s[1..]);
      assert s == [s[0]] + s[1..];
    }
  }

  /** Preprocessing a preprocessed text changes nothing. */
  lemma Idempotent(text: string)
    ensures Preprocess(Preprocess(text)) == Preprocess(text)
  {
    var r := Preprocess(text);
    ResultShape(text);
    assert LowerAll(r) == r;
    FilteredKeepsAll(r);
    WordsOfJoin(Words(Filtered(LowerAll(text))));
  }

  /** Text with no letter or digit (the empty text included) becomes empty. */
  lemma NoAlnumGivesEmpty(text: string)
    requires forall i :: 0 <= i < |text| ==> !IsAlnum(text[i])
    ensures Preprocess(text) == []
  {
    KeepsAlnumInOrder(text);
    JoinNormalised(Words(Filtered(LowerAll(text))));
    NoAlnumOf(LowerAll(text));
    NothingVisible(Preprocess(text));
  }

  lemma NothingVisible(r: string)
    requires Normalised(r) && NonSpace(r) == []
    ensures r == []
  {
  }

  lemma {:induction false} NoAlnumOf(s: string)
    requires forall i :: 0 <= i < |s| ==> !IsAlnum(s[i])
    ensures AlnumOf(s) == []
  {
    if s != [] {
      NoAlnumOf(s[1..]);
    }
  }

  /** An apostrophe is deleted, not turned into a space: `"Don't"` becomes `"dont"`. */
  lemma ApostropheDeleted()
    ensures Preprocess("Don't") == "dont"
  {
    LowerDont();
    FilteredDont();
    assert "dont" + [] == "dont";
    WordsCons("dont", []);
  }

  lemma LowerDont()
    ensures LowerAll("Don't") == "don't"
  {
    assert Lower('D') == 'd';
  }

  lemma FilteredDont()
    ensures Filtered("don't") == "dont"
  {
    assert Filtered("t") == "t";
    assert Filtered("'t") == "t";
    assert Filtered("n't") == "nt";
    assert Filtered("on't") == "ont";
  }

  // ---------------------------------------------------------------------
  // Where the spaces fall
  // ---------------------------------------------------------------------

  lemma LowerAllAppend(a: string, b: string)
    ensures LowerAll(a + b) == LowerAll(a) + LowerAll(b)
  {
  }

  lemma {:induction false} FilteredAppend(a: string, b: string)
    ensures Filtered(a + b) == Filtered(a) + Filtered(b)
  {
    if a == [] {
      assert a + b == b;
    } else {
      var head := if IsAlnum(a[0]) || IsSpace(a[0]) then [a[0]] else [];
      assert (a + b)[0] == a[0];
      assert (a + b)[1..] == a[1..] + b;
      assert Filtered(a + b) == head + Filtered(a[1..] + b);
      FilteredAppend(a[1..], b);
      assert head + (Filtered(a[1..]) + Filtered(b)) == (head + Filtered(a[1..])) + Filtered(b);
    }
  }

  /**
   * A character that is neither a letter, a digit nor whitespace is deleted
   * without leaving a space: the text reads as if it had never been there.
   */
  lemma PunctuationVanishes(a: string, c: char, b: string)
    requires !IsAlnum(c) && !IsSpace(c)
    ensures Preprocess(a + [c] + b) == Preprocess(a + b)
  {
    var la, lb := LowerAll(a), LowerAll(b);
    LowerAllAppend(a + [c], b);
    LowerAllAppend(a, [c]);
    LowerAllAppend(a, b);
    assert LowerAll([c]) == [Lower(c)];
    assert LowerAll(a + [c] + b) == la + [Lower(c)] + lb;
    FilteredAppend(la + [Lower(c)], lb);
    FilteredAppend(la, [Lower(c)]);
    FilteredAppend(la, lb);
    assert Filtered([Lower(c)]) == [] + Filtered([]);
    assert Filtered(la + [Lower(c)]) == Filtered(la);
    assert Filtered(LowerAll(a + [c] + b)) == Filtered(LowerAll(a + b));
  }

  /** Leading whitespace does not change the words. */
  lemma {:induction false} WordsSkipSpaces(sp: string, y: string)
    requires forall i :: 0 <= i < |sp| ==> IsSpace(sp[i])
    ensures Words(sp + y) == Words(y)
  {
    if sp == [] {
      assert sp + y == y;
    } else {
      var s := sp + y;
      assert s[1..] == sp[1..] + y;
      assert DropSpaces(s) == DropSpaces(s[1..]);
      assert Words(s) == Words(s[1..]);
      WordsSkipSpaces(sp[1..], y);
    }
  }

  /** Text that starts with whitespace adds its words after those of whatever precedes it. */
  lemma {:induction false} WordsAround(x: string, z: string)
    requires z != [] && IsSpace(z[0])
    ensures Words(x + z) == Words(x) + Words(z)
    decreases |x|
  {
    if x == [] {
      assert x + z == z;
      WordsOfNothing();
    } else if IsSpace(x[0]) {
      WordsAround(x[1..], z);
      WordsAroundSpace(x, z);
    } else {
      var w := WordPrefix(x);
      var rest := x[|w|..];
      WordPrefixIsWord(x);
      assert x == w + rest;
      WordsAround(rest, z);
      WordsAroundWord(x, w, rest, z);
    }
  }

  lemma WordsDropSpace(s: string)
    requires s != [] && IsSpace(s[0])
    ensures Words(s) == Words(s[1..])
  {
    assert DropSpaces(s) == DropSpaces(s[1..]);
  }

  lemma WordsAroundSpace(x: string, z: string)
    requires x != [] && IsSpace(x[0])
    requires Words(x[1..] + z) == Words(x[1..]) + Words(z)
    ensures Words(x + z) == Words(x) + Words(z)
  {
    var s := x + z;
    assert s[0] == x[0];
    assert s[1..] == x[1..] + z;
    WordsDropSpace(s);
    WordsDropSpace(x);
  }

  lemma WordsAroundWord(x: string, w: string, rest: string, z: string)
    requires x == w + rest
    requires IsWord(w) && (rest == [] || IsSpace(rest[0]))
    requires z != [] && IsSpace(z[0])
    requires Words(rest + z) == Words(rest) + Words(z)
    ensures Words(x + z) == Words(x) + Words(z)
  {
    var t := x + z;
    var tail := rest + z;
    assert tail[0] == if rest == [] then z[0] else rest[0];
    Regrouped(x, w, rest, z);
    WordsConsAt(t, w, tail);
    WordsConsAt(x, w, rest);
    ConsThenAppend(Words(x), Words(rest), Words(t), Words(tail), Words(z), w);
  }

  lemma Regrouped(x: string, w: string, rest: string, z: string)
    requires x == w + rest
    ensures x + z == w + (rest + z)
  {
  }

  lemma ConsThenAppend(a: seq<string>, b: seq<string>, c: seq<string>, d: seq<string>, e: seq<string>, w: string)
    requires a == [w] + b && c == [w] + d && d == b + e
    ensures c == a + e
  {
  }

  lemma WordsConsAt(t: string, w: string, rest: string)
    requires t == w + rest
    requires IsWord(w) && (rest == [] || IsSpace(rest[0]))
    ensures Words(t) == [w] + Words(rest)
  {
    WordsCons(w, rest);
  }

  lemma {:induction false} JoinAppend(u: seq<string>, v: seq<string>)
    requires u != [] && v != []
    ensures Join(u + v) == Join(u) + " " + Join(v)
  {
    assert (u + v)[0] == u[0];
    assert (u + v)[1..] == u[1..] + v;
    if |u| == 1 {
      assert u[1..] + v == v;
    } else {
      JoinAppend(u[1..], v);
    }
  }

  lemma JoinEmpty(ws: seq<string>)
    requires forall i :: 0 <= i < |ws| ==> IsWord(ws[i])
    ensures Join(ws) == [] <==> ws == []
  {
    if ws != [] {
      JoinNonEmpty(ws);
    }
  }

  /**
   * Whitespace between two pieces of text becomes exactly one space when
   * both pieces keep a letter or digit, and disappears otherwise; a run of
   * whitespace of any length and kind counts as one.
   */
  lemma WhitespaceSeparates(a: string, sp: string, b: string)
    requires sp != [] && forall i :: 0 <= i < |sp| ==> IsSpace(sp[i])
    ensures Preprocess(a + sp + b) ==
      if Preprocess(a) == [] then Preprocess(b)
      else if Preprocess(b) == [] then Preprocess(a)
      else Preprocess(a) + " " + Preprocess(b)
  {
    var fa := Filtered(LowerAll(a));
    var fb := Filtered(LowerAll(b));
    LowerAllAppend(a + sp, b);
    LowerAllAppend(a, sp);
    assert LowerAll(sp) == sp;
    FilteredKeepsAll(sp);
    FilteredAppend(LowerAll(a) + sp, LowerAll(b));
    FilteredAppend(LowerAll(a), sp);
    assert Filtered(LowerAll(a + sp + b)) == fa + sp + fb;
    assert fa + sp + fb == fa + (sp + fb);
    WordsAround(fa, sp + fb);
    WordsSkipSpaces(sp, fb);
    var u := Words(fa);
    var v := Words(fb);
    JoinEmpty(u);
    JoinEmpty(v);
    if u == [] {
      assert u + v == v;
    } else if v == [] {
      assert u + v == u;
    } else {
      JoinAppend(u, v);
    }
  }

  /** A run of whitespace reads the same as a single space. */
  lemma SpaceRunIsOneSpace(a: string, sp: string, b: string)
    requires sp != [] && forall i :: 0 <= i < |sp| ==> IsSpace(sp[i])
    ensures Preprocess(a + sp + b) == Preprocess(a + " " + b)
  {
    WhitespaceSeparates(a, sp, b);
    WhitespaceSeparates(a, " ", b);
  }
}
