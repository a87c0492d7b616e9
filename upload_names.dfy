/**
 * The file names of the upload handler: `stringFormat`, which turns the
 * base name of an uploaded file into a safe ASCII name, and
 * `os.path.splitext`, which separates the extension it keeps.
 *
 * `stringFormat` starts from the NFKD normal form of its argument; the
 * normalisation itself and the Unicode `combining` property are inputs.
 */
module UploadNames {

  // ----- characters -----

  predicate IsUpper(c: char)
  {
    'A' <= c <= 'Z'
  }

  /** `str.lower` on one character; only ASCII letters change case here. */
  function LowerChar(c: char): (d: char)
    ensures !IsUpper(d)
    ensures !IsUpper(c) ==> d == c
    ensures IsUpper(c) ==> 'a' <= d <= 'z'
  {
    if IsUpper(c) then (c as int + 32) as char else c
  }

  /**
   * The characters the regular expression `[^a-zA-Z_0-9+_+-.]+` does not
   * remove.  In that class `+-.` is the range from '+' to '.', which also
   * admits ',' and '-'.
   */
  predicate Allowed(c: char)
  {
    'a' <= c <= 'z' || 'A' <= c <= 'Z' || '0' <= c <= '9' || c == '_' || '+' <= c <= '.'
  }

  /** What `stringFormat` can output: lower-case letters, digits and `_ + , - .` */
  predicate Safe(c: char)
  {
    'a' <= c <= 'z' || '0' <= c <= '9' || c == '_' || c == '+' || c == ',' || c == '-' || c == '.'
  }

  /** The characters `.strip("-_")` removes from both ends. */
  predicate Edge(c: char)
  {
    c == '-' || c == '_'
  }

  // ----- the four steps of `stringFormat` -----

  /** `''.join(c for c in s if not unicodedata.combining(c))` */
  function DropCombining(s: string, combining: char -> bool): (r: string)
    ensures forall i :: 0 <= i < |r| ==> !combining(r[i])
    ensures forall c :: c in r ==> c in s
  {
    if s == [] then []
    else
      var rest := DropCombining(s[..|s| - 1], combining);
      if combining(s[|s| - 1]) then rest else rest + [s[|s| - 1]]
  }

  /** `s.lower()` */
  function Lower(s: string): (r: string)
    ensures |r| == |s|
    ensures forall i :: 0 <= i < |s| ==> r[i] == LowerChar(s[i])
  {
    if s == [] then [] else Lower(s[..|s| - 1]) + [LowerChar(s[|s| - 1])]
  }

  /** `re.sub('[^a-zA-Z_0-9+_+-.]+', '', s)` */
  function KeepAllowed(s: string): (r: string)
    ensures forall i :: 0 <= i < |r| ==> Allowed(r[i])
    ensures forall c :: c in r ==> c in s
  {
    if s == [] then []
    else
      var rest := KeepAllowed(s[..|s| - 1]);
      if Allowed(s[|s| - 1]) then rest + [s[|s| - 1]] else rest
  }

  /** Every character of `s` that is not a combining mark survives `DropCombining`. */
  lemma {:induction false} DropCombiningKeeps(s: string, combining: char -> bool, c: char)
    requires c in s && !combining(c)
    ensures c in DropCombining(s, combining)
    decreases |s|
  {
    var init := s[..|s| - 1];
    if c != s[|s| - 1] {
      assert s == init + [s[|s| - 1]];
      DropCombiningKeeps(init, combining, c);
    }
  }

  /** Every allowed character of `s` survives `KeepAllowed`. */
  lemma {:induction false} KeepAllowedKeeps(s: string, c: char)
    requires c in s && Allowed(c)
    ensures c in KeepAllowed(s)
    decreases |s|
  {
    var init := s[..|s| - 1];
    if c != s[|s| - 1] {
      assert s == init + [s[|s| - 1]];
      KeepAllowedKeeps(init, c);
    }
  }

  /** How many dashes and underscores `s` starts with. */
  function LeadingEdges(s: string): (n: nat)
    ensures n <= |s|
    ensures forall j :: 0 <= j < n ==> Edge(s[j])
    ensures n == |s| || !Edge(s[n])
  {
    if s != [] && Edge(s[0]) then 1 + LeadingEdges(s[1..]) else 0
  }

  /** How many dashes and underscores `s` ends with. */
  function TrailingEdges(s: string): (n: nat)
    ensures n <= |s|
    ensures forall j :: |s| - n <= j < |s| ==> Edge(s[j])
    ensures n == |s| || !Edge(s[|s| - n - 1])
  {
    if s != [] && Edge(s[|s| - 1]) then 1 + TrailingEdges(s[..|s| - 1]) else 0
  }

  function StripLeading(s: string): string
  {
    s[LeadingEdges(s)..]
  }

  function StripTrailing(s: string): string
  {
    s[..|s| - TrailingEdges(s)]
  }

  /** `s.strip("-_")` */
  function Strip(s: string): string
  {
    StripTrailing(StripLeading(s))
  }

  /**
   * `stringFormat(string_arg)`, given the NFKD form `nfkd` of `string_arg`:
   * combining marks dropped, lower-cased, every character outside the
   * class removed, dashes and underscores stripped from both ends.
   */
  function StringFormat(nfkd: string, combining: char -> bool): string
  {
    Strip(KeepAllowed(Lower(DropCombining(nfkd, combining))))
  }

  /**
   * Dropping combining marks works character by character, in order: with
   * DropCombiningChar this determines the result for every input.
   */
  lemma {:induction false} DropCombiningAppend(s: string, t: string, combining: char -> bool)
    ensures DropCombining(s + t, combining) == DropCombining(s, combining) + DropCombining(t, combining)
    decreases |t|
  {
    if t == [] {
      assert s + t == s;
    } else {
      var t' := t[..|t| - 1];
      assert (s + t)[..|s + t| - 1] == s + t';
      assert (s + t)[|s + t| - 1] == t[|t| - 1];
      DropCombiningAppend(s, t', combining);
    }
  }

  lemma DropCombiningChar(c: char, combining: char -> bool)
    ensures DropCombining([c], combining) == if combining(c) then [] else [c]
  {
    assert [c][..0] == [];
  }

  /**
   * The regular expression removes characters one by one, keeping the order
   * of the rest: with KeepAllowedChar this determines the result for every
   * input.
   */
  lemma {:induction false} KeepAllowedAppend(s: string, t: string)
    ensures KeepAllowed(s + t) == KeepAllowed(s) + KeepAllowed(t)
    decreases |t|
  {
    if t == [] {
      assert s + t == s;
    } else {
      var t' := t[..|t| - 1];
      assert (s + t)[..|s + t| - 1] == s + t';
      assert (s + t)[|s + t| - 1] == t[|t| - 1];
      KeepAllowedAppend(s, t');
    }
  }

  lemma KeepAllowedChar(c: char)
    ensures KeepAllowed([c]) == if Allowed(c) then [c] else []
  {
    assert [c][..0] == [];
  }

  // ----- what `stringFormat` promises -----

  /** Every character of the result is a lower-case letter, a digit or one of `_ + , - .` */
  lemma {:induction false} StringFormatSafe(nfkd: string, combining: char -> bool)
    ensures forall i :: 0 <= i < |StringFormat(nfkd, combining)| ==> Safe(StringFormat(nfkd, combining)[i])
  {
    var kept := KeepAllowed(Lower(DropCombining(nfkd, combining)));
    KeptAreLower(Lower(DropCombining(nfkd, combining)));
    StripSafe(kept);
  }

  /** The result neither starts nor ends with '-' or '_'. */
  lemma StringFormatEdges(nfkd: string, combining: char -> bool)
    ensures var r := StringFormat(nfkd, combining);
            r == [] || (!Edge(r[0]) && !Edge(r[|r| - 1]))
  {
    StripEdges(KeepAllowed(Lower(DropCombining(nfkd, combining))));
  }

  /**
   * `stringFormat` is idempotent.  Its output is ASCII, which NFKD leaves
   * as it is and which holds no combining character, so the output is its
   * own normal form.
   */
  lemma {:induction false} StringFormatIdempotent(nfkd: string, combining: char -> bool)
    requires forall c :: c < 128 as char ==> !combining(c)
    ensures StringFormat(StringFormat(nfkd, combining), combining) == StringFormat(nfkd, combining)
  {
    var r := StringFormat(nfkd, combining);
    StringFormatSafe(nfkd, combining);
    StringFormatEdges(nfkd, combining);
    StringFormatKeepsCleanNames(r, combining);
  }

  /**
   * A name that is already clean (lower-case letters, digits and `_ + , - .`
   * only, no '-' or '_' at either end) comes out of `stringFormat`
   * unchanged: nothing the function may keep is removed.
   */
  lemma {:induction false} StringFormatKeepsCleanNames(s: string, combining: char -> bool)
    requires forall c :: c < 128 as char ==> !combining(c)
    requires forall i :: 0 <= i < |s| ==> Safe(s[i])
    requires s == [] || (!Edge(s[0]) && !Edge(s[|s| - 1]))
    ensures StringFormat(s, combining) == s
  {
    SafeAreAscii(s);
    DropCombiningNone(s, combining);
    LowerSafe(s);
    KeepAllowedSafe(s);
    StripClean(s);
  }

  // ----- helpers of the three lemmas above -----

  lemma {:induction false} KeptAreLower(s: string)
    requires forall i :: 0 <= i < |s| ==> !IsUpper(s[i])
    ensures forall i :: 0 <= i < |KeepAllowed(s)| ==> Safe(KeepAllowed(s)[i])
  {
    forall i | 0 <= i < |KeepAllowed(s)|
      ensures Safe(KeepAllowed(s)[i])
    {
      var c := KeepAllowed(s)[i];
      assert c in KeepAllowed(s);
      var k :| 0 <= k < |s| && s[k] == c;
    }
  }

  lemma StripSafe(s: string)
    requires AllSafe(s)
    ensures AllSafe(Strip(s))
  {
    var l := StripLeading(s);
    assert forall m :: 0 <= m < |l| ==> l[m] == s[LeadingEdges(s) + m];
  }

  lemma StripEdges(s: string)
    ensures var r := Strip(s);
            r == [] || (!Edge(r[0]) && !Edge(r[|r| - 1]))
  {
    var l := StripLeading(s);
    assert l != [] ==> l[0] == s[LeadingEdges(s)];
  }

  predicate AllSafe(s: string)
  {
    forall i :: 0 <= i < |s| ==> Safe(s[i])
  }

  lemma SafeAreAscii(s: string)
    requires AllSafe(s)
    ensures forall i :: 0 <= i < |s| ==> s[i] < 128 as char
  {
  }

  lemma {:induction false} DropCombiningNone(s: string, combining: char -> bool)
    requires forall i :: 0 <= i < |s| ==> !combining(s[i])
    ensures DropCombining(s, combining) == s
    decreases |s|
  {
    if s != [] {
      DropCombiningNone(s[..|s| - 1], combining);
      assert s[..|s| - 1] + [s[|s| - 1]] == s;
    }
  }

  lemma LowerSafe(s: string)
    requires AllSafe(s)
    ensures Lower(s) == s
  {
  }

  lemma {:induction false} KeepAllowedSafe(s: string)
    requires AllSafe(s)
    ensures KeepAllowed(s) == s
    decreases |s|
  {
    if s != [] {
      KeepAllowedSafe(s[..|s| - 1]);
      assert s[..|s| - 1] + [s[|s| - 1]] == s;
    }
  }

  lemma StripClean(s: string)
    requires s == [] || (!Edge(s[0]) && !Edge(s[|s| - 1]))
    ensures Strip(s) == s
  {
  }

  // ----- `os.path.splitext` -----

  /** The index of the last `c` in `s`, or -1. */
  function RFind(s: string, c: char): (i: int)
    ensures -1 <= i < |s|
    ensures i >= 0 ==> s[i] == c
    ensures forall j :: i < j < |s| ==> s[j] != c
  {
    if s == [] then -1
    else if s[|s| - 1] == c then |s| - 1
    else RFind(s[..|s| - 1], c)
  }

  /** Some character of `s[from..to]` is not a dot. */
  predicate SomeNonDot(s: string, from: int, to: int)
    requires 0 <= from <= to <= |s|
  {
    exists j :: from <= j < to && s[j] != '.'
  }

  /**
   * `os.path.splitext(p)`: the extension starts at the last dot when that
   * dot lies in the last path component and is not among its leading dots.
   */
  function SplitExt(p: string): (parts: (string, string))
    ensures parts.0 + parts.1 == p
    ensures parts.1 == [] || (parts.1[0] == '.' && '.' !in parts.1[1..] && '/' !in parts.1)
  {
    var sep, dot := RFind(p, '/'), RFind(p, '.');
    if dot > sep && SomeNonDot(p, sep + 1, dot) then
      assert p[..dot] + p[dot..] == p;
      (p[..dot], p[dot..])
    else
      assert p + [] == p;
      (p, [])
  }

  /**
   * What `splitext` means: there is an extension exactly when the last path
   * component holds a dot after some character that is not a dot, and the
   * extension then runs from the last dot to the end.
   */
  lemma SplitExtMeaning(p: string)
    ensures var sep := RFind(p, '/');
            SplitExt(p).1 != [] <==>
              exists i, j :: sep < j < i < |p| && p[i] == '.' && p[j] != '.'
    ensures SplitExt(p).1 != [] ==> SplitExt(p).1 == p[RFind(p, '.')..]
  {
    var sep, dot := RFind(p, '/'), RFind(p, '.');
    if SplitExt(p).1 != [] {
      var j :| sep + 1 <= j < dot && p[j] != '.';
      assert sep < j < dot < |p| && p[dot] == '.' && p[j] != '.';
    }
    if exists i, j :: sep < j < i < |p| && p[i] == '.' && p[j] != '.' {
      var i, j :| sep < j < i < |p| && p[i] == '.' && p[j] != '.';
      assert i <= dot;
      assert sep + 1 <= j < dot && p[j] != '.';
    }
  }

  /** `splitext` on the names of uploads: `data.csv`, `a.b.CSV`, `.csv` and `notes`. */
  lemma SplitExtExamples()
    ensures SplitExt("data.csv") == ("data", ".csv")
    ensures SplitExt("a.b.CSV") == ("a.b", ".CSV")
    ensures SplitExt(".csv") == (".csv", "")
    ensures SplitExt("dir.d/notes") == ("dir.d/notes", "")
  {
    var p := "data.csv";
    RFindAt(p, '/', -1);
    RFindAt(p, '.', 4);
    assert SomeNonDot(p, 0, 4) by { assert p[0] != '.'; }
    assert p[..4] == "data" && p[4..] == ".csv";
    p := "a.b.CSV";
    RFindAt(p, '/', -1);
    RFindAt(p, '.', 3);
    assert SomeNonDot(p, 0, 3) by { assert p[0] != '.'; }
    assert p[..3] == "a.b" && p[3..] == ".CSV";
    p := "dir.d/notes";
    RFindAt(p, '/', 5);
    RFindAt(p, '.', 3);
  }

  /** The last occurrence is the one with no occurrence after it. */
  lemma RFindAt(s: string, c: char, i: int)
    requires -1 <= i < |s| && (i >= 0 ==> s[i] == c)
    requires forall j :: i < j < |s| ==> s[j] != c
    ensures RFind(s, c) == i
  {
  }

  /** A name whose last component does not hold an extension is left whole. */
  lemma SplitExtNoDot(p: string)
    requires '.' !in p
    ensures SplitExt(p) == (p, [])
  {
  }
}
