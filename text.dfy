/**
 * Text helpers used by the scoring rules (job_agent/core/scoring.py):
 * `_norm` (lower-case, collapse whitespace runs, strip), Python's substring
 * test `p in t`, the word-boundary regular expression `\bword\b` and the
 * first-integer search `(\d+)`. Case and whitespace follow Python's rules for
 * ASCII characters; other characters are left as they are.
 */
module Text {
  import opened Wrappers

  // ---------------------------------------------------------------------
  // Characters

  /** The ASCII characters that `\s` and `str.strip()` treat as whitespace: blank, tab, line
      feed, vertical tab, form feed, carriage return, and the four separators U+001C-U+001F. */
  predicate IsSpace(c: char) {
    c == ' ' || '\t' <= c <= '\r' || '\U{001C}' <= c <= '\U{001F}'
  }

  predicate IsUpper(c: char) {
    'A' <= c <= 'Z'
  }

  /** The ASCII digits, which are all that `\d` matches here. */
  predicate IsDigit(c: char) {
    '0' <= c <= '9'
  }

  /** The ASCII characters that `\b` counts as part of a word: letters, digits and '_'. */
  predicate IsWordChar(c: char) {
    'a' <= c <= 'z' || 'A' <= c <= 'Z' || IsDigit(c) || c == '_'
  }

  function LowerChar(c: char): char {
    if IsUpper(c) then (c as int + 32) as char else c
  }

  // ---------------------------------------------------------------------
  // Normalisation: `re.sub(r"\s+", " ", text.lower()).strip()`

  function Lower(s: string): string {
    seq(|s|, i requires 0 <= i < |s| => LowerChar(s[i]))
  }

  /** Drops the leading run of whitespace (`lstrip`): what is dropped is all whitespace, and what
      is kept is the rest of the text, starting at its first non-whitespace character. */
  function DropSpaces(s: string): (r: string)
    ensures |r| <= |s|
    ensures forall i :: 0 <= i < |s| - |r| ==> IsSpace(s[i])
    ensures r == [] || !IsSpace(r[0])
  {
    if s != [] && IsSpace(s[0]) then
      var r := DropSpaces(s[1..]);
      assert forall i :: 1 <= i < |s| - |r| ==> s[i] == s[1..][i - 1];
      r
    else s
  }

  /** What `DropSpaces` keeps is the end of the text. */
  lemma {:induction false} DropSpacesIsSuffix(s: string)
    ensures DropSpaces(s) == s[|s| - |DropSpaces(s)|..]
  {
    if s != [] && IsSpace(s[0]) {
      DropSpacesIsSuffix(s[1..]);
    }
  }

  /** Drops the trailing run of whitespace (`rstrip`): what is dropped is all whitespace, and what
      is kept is the text up to its last non-whitespace character. */
  function DropTrailingSpaces(s: string): (r: string)
    ensures |r| <= |s| && r == s[..|r|]
    ensures forall i :: |r| <= i < |s| ==> IsSpace(s[i])
    ensures r == [] || !IsSpace(r[|r| - 1])
  {
    if s != [] && IsSpace(s[|s| - 1]) then
      var r := DropTrailingSpaces(s[..|s| - 1]);
      assert forall i :: |r| <= i < |s| - 1 ==> s[i] == s[..|s| - 1][i];
      r
    else s
  }

  /** Replaces every maximal run of whitespace by a single blank. */
  function Collapse(s: string): string
    decreases |s|
  {
    if s == [] then []
    else if IsSpace(s[0]) then [' '] + Collapse(DropSpaces(s[1..]))
    else [s[0]] + Collapse(s[1..])
  }

  /** `_norm` (scoring.py:7-8). */
  function Norm(s: string): string {
    DropTrailingSpaces(DropSpaces(Collapse(Lower(s))))
  }

  /** The shape of every `_norm` result: lower case, blanks only, single blanks, no blank at either end. */
  predicate IsNormal(t: string) {
    && (forall i :: 0 <= i < |t| ==> !IsUpper(t[i]) && (IsSpace(t[i]) ==> t[i] == ' '))
    && (forall i :: 0 <= i < |t| - 1 ==> t[i] == ' ' ==> t[i + 1] != ' ')
    && (t != [] ==> t[0] != ' ' && t[|t| - 1] != ' ')
  }

  /** Characters free of upper case and of whitespace other than the blank. */
  predicate Folded(s: string) {
    forall i :: 0 <= i < |s| ==> !IsUpper(s[i]) && (IsSpace(s[i]) ==> s[i] == ' ')
  }

  /** No two adjacent blanks. */
  predicate SingleBlanks(s: string) {
    forall i :: 0 <= i < |s| - 1 ==> s[i] == ' ' ==> s[i + 1] != ' '
  }

  lemma {:induction false} CollapseShape(s: string)
    requires forall i :: 0 <= i < |s| ==> !IsUpper(s[i])
    ensures Folded(Collapse(s)) && SingleBlanks(Collapse(s))
    ensures Collapse(s) == [] <==> s == []
    ensures s != [] ==> (Collapse(s)[0] == ' ' <==> IsSpace(s[0]))
    decreases |s|
  {
    if s == [] {
    } else if IsSpace(s[0]) {
      var rest := DropSpaces(s[1..]);
      DropSpacesIsSuffix(s[1..]);
      CollapseShape(rest);
      assert Collapse(s) == [' '] + Collapse(rest);
    } else {
      CollapseShape(s[1..]);
      assert Collapse(s) == [s[0]] + Collapse(s[1..]);
    }
  }

  lemma {:induction false} CollapseOfCollapsed(t: string)
    requires Folded(t) && SingleBlanks(t)
    ensures Collapse(t) == t
    decreases |t|
  {
    if t != [] {
      assert Folded(t[1..]) && SingleBlanks(t[1..]);
      CollapseOfCollapsed(t[1..]);
      if IsSpace(t[0]) {
        assert t[1..] == [] || t[1] != ' ';
        assert DropSpaces(t[1..]) == t[1..];
      }
    }
  }

  lemma SliceKeepsShape(s: string, a: nat, b: nat)
    requires a <= b <= |s|
    requires Folded(s) && SingleBlanks(s)
    ensures Folded(s[a..b]) && SingleBlanks(s[a..b])
  {
    var u := s[a..b];
    forall i | 0 <= i < |u| - 1
      ensures u[i] == ' ' ==> u[i + 1] != ' '
    {
      assert u[i] == s[a + i] && u[i + 1] == s[a + i + 1];
    }
  }

  lemma LowerHasNoUpper(s: string)
    ensures forall i :: 0 <= i < |Lower(s)| ==> !IsUpper(Lower(s)[i])
  {
  }

  lemma StripGivesNormal(c: string)
    requires Folded(c) && SingleBlanks(c)
    ensures IsNormal(DropTrailingSpaces(DropSpaces(c)))
  {
    var d := DropSpaces(c);
    DropSpacesIsSuffix(c);
    SliceKeepsShape(c, |c| - |d|, |c|);
    var r := DropTrailingSpaces(d);
    SliceKeepsShape(d, 0, |r|);
    assert r != [] ==> r[0] == d[0];
  }

  /** `_norm` always returns text in normal form. */
  lemma NormIsNormal(s: string)
    ensures IsNormal(Norm(s))
  {
    LowerHasNoUpper(s);
    CollapseShape(Lower(s));
    StripGivesNormal(Collapse(Lower(s)));
  }

  /** Text already in normal form is left as it is by `_norm`. */
  lemma NormFixesNormal(t: string)
    requires IsNormal(t)
    ensures Norm(t) == t
  {
    assert Lower(t) == t;
    CollapseOfCollapsed(t);
  }

  /** `_norm` is idempotent. */
  lemma NormIdempotent(s: string)
    ensures Norm(Norm(s)) == Norm(s)
  {
    NormIsNormal(s);
    NormFixesNormal(Norm(s));
  }

  lemma LowerAppend(a: string, b: string)
    ensures Lower(a + b) == Lower(a) + Lower(b)
  {
  }

  /** Joining a normal text that ends in a non-blank and a folded, single-blank text that ends in
      a non-blank gives a normal text. */
  lemma NormalAppend(a: string, b: string)
    requires IsNormal(a) && a != [] && Folded(b) && SingleBlanks(b) && b != [] && b[|b| - 1] != ' '
    ensures IsNormal(a + b)
  {
    var t := a + b;
    forall i | 0 <= i < |t| - 1
      ensures t[i] == ' ' ==> t[i + 1] != ' '
    {
      if i + 1 < |a| {
        assert t[i] == a[i] && t[i + 1] == a[i + 1];
      } else if i + 1 > |a| {
        assert t[i] == b[i - |a|] && t[i + 1] == b[i + 1 - |a|];
      }
    }
  }

  /** Text whose lower-case form is already normal, possibly followed by one blank, normalises
      to that form. */
  lemma NormOfCleanText(s: string, t: string, pad: string)
    requires IsNormal(t) && (pad == "" || (pad == " " && t != ""))
    requires Lower(s) == t + pad
    ensures Norm(s) == t
  {
    var c := t + pad;
    assert Folded(c) && SingleBlanks(c);
    CollapseOfCollapsed(c);
    assert c == [] || !IsSpace(c[0]);
    assert DropSpaces(c) == c;
    if pad == " " {
      assert c[..|c| - 1] == t;
      assert DropTrailingSpaces(c) == DropTrailingSpaces(t);
    }
  }

  // ---------------------------------------------------------------------
  // What `_norm` keeps: the words of the text, joined by single blanks

  /** A non-empty run of non-whitespace characters. */
  predicate IsWord(w: string) {
    w != [] && forall i :: 0 <= i < |w| ==> !IsSpace(w[i])
  }

  /** The leading run of non-whitespace characters. */
  function WordPrefix(s: string): (w: string)
    ensures |w| <= |s| && w == s[..|w|]
    ensures forall i :: 0 <= i < |w| ==> !IsSpace(w[i])
    ensures |w| == |s| || IsSpace(s[|w|])
  {
    if s != [] && !IsSpace(s[0]) then [s[0]] + WordPrefix(s[1..]) else []
  }

  /** `str.split()`: the maximal runs of non-whitespace characters, in order. */
  function Words(s: string): seq<string>
    decreases |s|
  {
    var t := DropSpaces(s);
    if t == [] then []
    else
      var w := WordPrefix(t);
      [w] + Words(t[|w|..])
  }

  /** Every entry of `Words(s)` is a word: non-empty, and free of whitespace. */
  lemma {:induction false} WordsAreWords(s: string)
    ensures forall i :: 0 <= i < |Words(s)| ==> IsWord(Words(s)[i])
    decreases |s|
  {
    var t := DropSpaces(s);
    if t != [] {
      var w := WordPrefix(t);
      var r := t[|w|..];
      WordsAreWords(r);
      assert Words(s) == [w] + Words(r);
    }
  }

  /** `" ".join(ws)`. */
  function JoinWords(ws: seq<string>): string {
    if ws == [] then []
    else if |ws| == 1 then ws[0]
    else ws[0] + " " + JoinWords(ws[1..])
  }

  /** Collapsing keeps a leading run of non-whitespace characters as it is. */
  lemma {:induction false} CollapseWord(w: string, r: string)
    requires forall i :: 0 <= i < |w| ==> !IsSpace(w[i])
    ensures Collapse(w + r) == w + Collapse(r)
    decreases |w|
  {
    if w != [] {
      var u := w + r;
      assert u[0] == w[0] && u[1..] == w[1..] + r;
      CollapseWord(w[1..], r);
      assert w == [w[0]] + w[1..];
    } else {
      assert w + r == r;
    }
  }

  /** Stripping leading whitespace and collapsing runs commute. */
  lemma LeadingStripOfCollapse(u: string)
    ensures DropSpaces(Collapse(u)) == Collapse(DropSpaces(u))
  {
    if u != [] && IsSpace(u[0]) {
      var rest := DropSpaces(u[1..]);
      assert DropSpaces(u) == rest;
      assert Collapse(u) == [' '] + Collapse(rest);
      if rest != [] {
        assert Collapse(rest) == [rest[0]] + Collapse(rest[1..]);
      }
    } else if u != [] {
      assert Collapse(u) == [u[0]] + Collapse(u[1..]);
    }
  }

  lemma Regroup(a: string, b: string, c: string, d: string)
    ensures a + (b + (c + d)) == a + b + c + d
  {
  }

  /** How `Words` takes a text apart: leading whitespace, the first word, then the rest, which
      is empty or starts with whitespace. */
  lemma WordsStep(t: string)
    requires DropSpaces(t) != []
    ensures var d := DropSpaces(t);
            var w := WordPrefix(d);
            && d == w + d[|w|..] && w != []
            && Words(t) == [w] + Words(d[|w|..])
            && (d[|w|..] == [] || IsSpace(d[|w|..][0]))
  {
    var d := DropSpaces(t);
    var w := WordPrefix(d);
    assert d == w + d[|w|..];
  }

  /** One blank when the text ends in whitespace after a word, and nothing otherwise. */
  function Trail(t: string): string {
    if t != [] && Words(t) != [] && IsSpace(t[|t| - 1]) then " " else ""
  }

  /** Collapsing the text after its leading whitespace gives its words joined by single blanks,
      followed by one blank when the text ends in whitespace after a word. */
  lemma {:induction false} CollapseIsJoinedWords(t: string)
    ensures Collapse(DropSpaces(t)) == JoinWords(Words(t)) + Trail(t)
    decreases |t|
  {
    var d := DropSpaces(t);
    if d == [] {
      assert Words(t) == [];
    } else {
      WordsStep(t);
      var w := WordPrefix(d);
      var r := d[|w|..];
      DropSpacesIsSuffix(t);
      assert t[|t| - 1] == d[|d| - 1];
      if r == [] {
        CollapseWord(w, r);
        assert Words(r) == [];
        assert t[|t| - 1] == w[|w| - 1];
        assert JoinWords([w]) == w;
      } else {
        CollapseIsJoinedWords(r);
        assert t[|t| - 1] == r[|r| - 1];
        CollapseAfterWord(t, w, r);
      }
    }
  }

  /** The step of `CollapseIsJoinedWords` where whitespace follows the first word. */
  lemma CollapseAfterWord(t: string, w: string, r: string)
    requires IsWord(w) && r != [] && IsSpace(r[0])
    requires DropSpaces(t) == w + r && Words(t) == [w] + Words(r)
    requires t != [] && t[|t| - 1] == r[|r| - 1]
    requires Collapse(DropSpaces(r)) == JoinWords(Words(r)) + Trail(r)
    ensures Collapse(w + r) == JoinWords(Words(t)) + Trail(t)
  {
    CollapseWord(w, r);
    var rest := DropSpaces(r);
    assert rest == DropSpaces(r[1..]);
    assert Collapse(r) == [' '] + Collapse(rest);
    if Words(r) == [] {
      assert rest == [];
      assert IsSpace(r[|r| - 1]);
    } else {
      assert ([w] + Words(r))[1..] == Words(r);
      Regroup(w, " ", JoinWords(Words(r)), Trail(r));
    }
  }

  /** Words joined by blanks end in a word character, never in whitespace. */
  lemma {:induction false} JoinedWordsEnd(ws: seq<string>)
    requires forall i :: 0 <= i < |ws| ==> IsWord(ws[i])
    ensures var j := JoinWords(ws); j == [] || !IsSpace(j[|j| - 1])
    decreases |ws|
  {
    if |ws| > 1 {
      JoinedWordsEnd(ws[1..]);
    }
  }

  /** `_norm(s)` is `" ".join(s.lower().split())`: the words of the lower-cased text, in order,
      with every run of whitespace between two words replaced by exactly one blank, and the
      whitespace at either end dropped. */
  lemma NormJoinsWords(s: string)
    ensures Norm(s) == JoinWords(Words(Lower(s)))
  {
    var u := Lower(s);
    var j := JoinWords(Words(u));
    LeadingStripOfCollapse(u);
    CollapseIsJoinedWords(u);
    WordsAreWords(u);
    JoinedWordsEnd(Words(u));
    if Trail(u) == " " {
      assert (j + " ")[..|j|] == j;
      assert DropTrailingSpaces(j + " ") == DropTrailingSpaces(j);
    }
  }

  /** The characters of `s` other than whitespace, in order. */
  function NonSpace(s: string): string {
    if s == [] then [] else (if IsSpace(s[0]) then [] else [s[0]]) + NonSpace(s[1..])
  }

  function Flatten(ws: seq<string>): string {
    if ws == [] then [] else ws[0] + Flatten(ws[1..])
  }

  lemma {:induction false} NonSpaceAppend(a: string, b: string)
    ensures NonSpace(a + b) == NonSpace(a) + NonSpace(b)
    decreases |a|
  {
    if a != [] {
      assert (a + b)[1..] == a[1..] + b;
      NonSpaceAppend(a[1..], b);
    } else {
      assert a + b == b;
    }
  }

  lemma {:induction false} NonSpaceOfBlanks(s: string)
    requires forall i :: 0 <= i < |s| ==> IsSpace(s[i])
    ensures NonSpace(s) == []
    decreases |s|
  {
    if s != [] {
      NonSpaceOfBlanks(s[1..]);
    }
  }

  lemma {:induction false} NonSpaceOfWord(w: string)
    requires forall i :: 0 <= i < |w| ==> !IsSpace(w[i])
    ensures NonSpace(w) == w
    decreases |w|
  {
    if w != [] {
      NonSpaceOfWord(w[1..]);
      assert w == [w[0]] + w[1..];
    }
  }

  /** Splitting into words keeps every non-whitespace character, in order. */
  lemma {:induction false} WordsKeepText(t: string)
    ensures Flatten(Words(t)) == NonSpace(t)
    decreases |t|
  {
    var d := DropSpaces(t);
    var k := |t| - |d|;
    DropSpacesIsSuffix(t);
    assert t == t[..k] + d;
    NonSpaceAppend(t[..k], d);
    NonSpaceOfBlanks(t[..k]);
    assert NonSpace(t) == NonSpace(d);
    if d == [] {
      assert Words(t) == [];
    } else {
      WordsStep(t);
      var w := WordPrefix(d);
      var r := d[|w|..];
      NonSpaceAppend(w, r);
      NonSpaceOfWord(w);
      WordsKeepText(r);
      assert ([w] + Words(r))[1..] == Words(r);
      assert Flatten([w] + Words(r)) == w + Flatten(Words(r));
    }
  }

  /** Joining words with blanks adds nothing but the blanks. */
  lemma {:induction false} NonSpaceOfJoin(ws: seq<string>)
    requires forall i :: 0 <= i < |ws| ==> IsWord(ws[i])
    ensures NonSpace(JoinWords(ws)) == Flatten(ws)
    decreases |ws|
  {
    if |ws| == 1 {
      NonSpaceOfWord(ws[0]);
      assert Flatten(ws) == ws[0] + Flatten([]);
    } else if |ws| > 1 {
      NonSpaceOfJoin(ws[1..]);
      NonSpaceOfWord(ws[0]);
      NonSpaceAppend(ws[0] + " ", JoinWords(ws[1..]));
      NonSpaceAppend(ws[0], " ");
    }
  }

  /** `_norm` drops whitespace only: every other character of the lower-cased text is kept, in
      order. */
  lemma NormKeepsText(s: string)
    ensures NonSpace(Norm(s)) == NonSpace(Lower(s))
  {
    NormJoinsWords(s);
    WordsAreWords(Lower(s));
    NonSpaceOfJoin(Words(Lower(s)));
    WordsKeepText(Lower(s));
  }

  // ---------------------------------------------------------------------
  // Substring containment: Python's `p in t`

  predicate Occurs(p: string, t: string)
    decreases |t|
  {
    |p| <= |t| && (t[..|p|] == p || Occurs(p, t[1..]))
  }

  /** `p` stands at position `i` of `t`. */
  predicate OccursAtPos(p: string, t: string, i: nat) {
    i + |p| <= |t| && t[i..i + |p|] == p
  }

  /** `p in t` holds exactly when `p` is found at some position of `t`. */
  lemma {:induction false} OccursIff(p: string, t: string)
    ensures Occurs(p, t) <==> exists i: nat :: OccursAtPos(p, t, i)
    decreases |t|
  {
    if |p| <= |t| && t[..|p|] != p {
      OccursIff(p, t[1..]);
      if Occurs(p, t[1..]) {
        var i: nat :| OccursAtPos(p, t[1..], i);
        assert t[i + 1..i + 1 + |p|] == t[1..][i..i + |p|];
        assert OccursAtPos(p, t, i + 1);
      } else {
        assert forall j: nat :: !OccursAtPos(p, t[1..], j);
        forall i: nat
          ensures !OccursAtPos(p, t, i)
        {
          if i > 0 && i + |p| <= |t| {
            assert t[i..i + |p|] == t[1..][i - 1..i - 1 + |p|];
            assert !OccursAtPos(p, t[1..], i - 1);
          }
        }
      }
    } else if |p| <= |t| {
      assert OccursAtPos(p, t, 0);
    }
  }

  lemma OccursAt(p: string, t: string, i: nat)
    requires OccursAtPos(p, t, i)
    ensures Occurs(p, t)
  {
    OccursIff(p, t);
  }

  lemma OccursInAppend(p: string, a: string, b: string)
    ensures Occurs(p, a) ==> Occurs(p, a + b)
    ensures Occurs(p, b) ==> Occurs(p, a + b)
  {
    OccursIff(p, a);
    OccursIff(p, b);
    if Occurs(p, a) {
      var i: nat :| OccursAtPos(p, a, i);
      assert (a + b)[i..i + |p|] == a[i..i + |p|];
      OccursAt(p, a + b, i);
    }
    if Occurs(p, b) {
      var i: nat :| OccursAtPos(p, b, i);
      assert (a + b)[|a| + i..|a| + i + |p|] == b[i..i + |p|];
      OccursAt(p, a + b, |a| + i);
    }
  }

  /** A keyword holding a character that the text lacks cannot occur in it. */
  lemma MissingCharNoOccurrence(p: string, t: string, c: char)
    requires c in p && c !in t
    ensures !Occurs(p, t)
  {
    forall i: nat
      ensures !OccursAtPos(p, t, i)
    {
      if i + |p| <= |t| {
        assert c !in t[i..i + |p|];
      }
    }
    OccursIff(p, t);
  }

  // ---------------------------------------------------------------------
  // Word match: `re.search(r"\bw\b", t)` for a word `w` made of word characters

  predicate WordAt(t: string, w: string, i: nat)
    requires i <= |t|
  {
    && i + |w| <= |t|
    && t[i..i + |w|] == w
    && (i == 0 || !IsWordChar(t[i - 1]))
    && (i + |w| == |t| || !IsWordChar(t[i + |w|]))
  }

  predicate HasWordFrom(t: string, w: string, i: nat)
    requires i <= |t|
    decreases |t| - i
  {
    WordAt(t, w, i) || (i < |t| && HasWordFrom(t, w, i + 1))
  }

  predicate HasWord(t: string, w: string) {
    HasWordFrom(t, w, 0)
  }

  /** The regular-expression search succeeds exactly when the word stands at some position between boundaries. */
  lemma {:induction false} HasWordFromIff(t: string, w: string, i: nat)
    requires i <= |t|
    ensures HasWordFrom(t, w, i) <==> exists j :: i <= j <= |t| && WordAt(t, w, j)
    decreases |t| - i
  {
    if i < |t| {
      HasWordFromIff(t, w, i + 1);
    }
  }

  lemma WordFound(t: string, w: string, i: nat)
    requires i <= |t| && WordAt(t, w, i)
    ensures HasWord(t, w)
  {
    HasWordFromIff(t, w, 0);
  }

  // ---------------------------------------------------------------------
  // Decimal integers: `re.search(r"(\d+)", t)` with `int(...)`, and `str(n)`

  predicate AllDigits(s: string) {
    forall i :: 0 <= i < |s| ==> IsDigit(s[i])
  }

  function DigitValue(c: char): nat
    requires IsDigit(c)
  {
    c as int - '0' as int
  }

  function DigitChar(d: nat): char
    requires d < 10
  {
    ('0' as int + d) as char
  }

  /** The value of a run of decimal digits (leading zeros allowed, as for `int("007")`). */
  function DecimalValue(s: string): nat
    requires AllDigits(s)
  {
    if s == [] then 0 else 10 * DecimalValue(s[..|s| - 1]) + DigitValue(s[|s| - 1])
  }

  /** `str(n)` for a natural number. */
  function NatToDecimal(n: nat): (s: string)
    ensures |s| >= 1 && AllDigits(s)
  {
    if n < 10 then [DigitChar(n)] else NatToDecimal(n / 10) + [DigitChar(n % 10)]
  }

  /** `str(i)` for any integer. */
  function IntToDecimal(i: int): string {
    if i < 0 then "-" + NatToDecimal(-i) else NatToDecimal(i)
  }

  /** Reading back what `str(n)` wrote gives `n`. */
  lemma {:induction false} DecimalRoundTrip(n: nat)
    ensures DecimalValue(NatToDecimal(n)) == n
  {
    if n >= 10 {
      DecimalRoundTrip(n / 10);
      var s := NatToDecimal(n);
      assert s[..|s| - 1] == NatToDecimal(n / 10);
    }
  }

  /** The longest prefix of `t` made of digits. */
  function LeadingDigits(t: string): (d: string)
    ensures |d| <= |t| && AllDigits(d) && d == t[..|d|]
    ensures |d| == |t| || !IsDigit(t[|d|])
  {
    if t != [] && IsDigit(t[0]) then [t[0]] + LeadingDigits(t[1..]) else []
  }

  /** The value of the first maximal run of digits in `t`, if any (`re.search(r"(\d+)", t)`). */
  function FirstInteger(t: string): Option<nat> {
    if t == [] then None
    else if IsDigit(t[0]) then Some(DecimalValue(LeadingDigits(t)))
    else FirstInteger(t[1..])
  }

  /** The first integer search stops at the first digit and reads its whole run: a text starting with `str(n)`
      followed by a non-digit yields `n`. */
  lemma FirstIntegerOfDecimal(n: nat, rest: string)
    requires rest == [] || !IsDigit(rest[0])
    ensures FirstInteger(NatToDecimal(n) + rest) == Some(n)
  {
    var s := NatToDecimal(n);
    LeadingDigitsOfPrefix(s, rest);
    DecimalRoundTrip(n);
  }

  lemma {:induction false} LeadingDigitsOfPrefix(s: string, rest: string)
    requires AllDigits(s)
    requires rest == [] || !IsDigit(rest[0])
    ensures LeadingDigits(s + rest) == s
    decreases |s|
  {
    if s != [] {
      assert (s + rest)[1..] == s[1..] + rest;
      LeadingDigitsOfPrefix(s[1..], rest);
    } else {
      assert s + rest == rest;
    }
  }
}
