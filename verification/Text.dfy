/** Text as the gateway handles it: Go's strings.TrimSpace, ToLower, EqualFold and Fields,
    on sequences of code points. */
module Text {

  /** The code points for which Go's unicode.IsSpace holds. */
  predicate IsSpace(c: char) {
    var u := c as int;
    || 9 <= u <= 13
    || u in {0x20, 0x85, 0xA0, 0x1680, 0x2028, 0x2029, 0x202F, 0x205F, 0x3000}
    || 0x2000 <= u <= 0x200A
  }

  // ---- Trimming ----

  /** The first position from i on that holds no space. */
  function SkipSpaces(s: string, i: nat): (n: nat)
    requires i <= |s|
    ensures i <= n <= |s|
    ensures forall j :: i <= j < n ==> IsSpace(s[j])
    ensures n < |s| ==> !IsSpace(s[n])
    decreases |s| - i
  {
    if i < |s| && IsSpace(s[i]) then SkipSpaces(s, i + 1) else i
  }

  /** The end of s[..n] without its trailing spaces. */
  function DropSpaces(s: string, n: nat): (m: nat)
    requires n <= |s|
    ensures m <= n
    ensures forall j :: m <= j < n ==> IsSpace(s[j])
    ensures m > 0 ==> !IsSpace(s[m - 1])
  {
    if n > 0 && IsSpace(s[n - 1]) then DropSpaces(s, n - 1) else n
  }

  function TrimLeft(s: string): string {
    s[SkipSpaces(s, 0)..]
  }

  function TrimRight(s: string): string {
    s[..DropSpaces(s, |s|)]
  }

  /** strings.TrimSpace. */
  function Trim(s: string): string {
    TrimRight(TrimLeft(s))
  }

  ghost predicate Trimmed(s: string) {
    s != "" ==> !IsSpace(s[0]) && !IsSpace(s[|s| - 1])
  }

  lemma TrimIsTrimmed(s: string)
    ensures Trimmed(Trim(s))
  {
    var l := TrimLeft(s);
    var n := DropSpaces(l, |l|);
    if n > 0 {
      assert l[0] == s[SkipSpaces(s, 0)];
    }
  }

  lemma TrimmedIsFixed(s: string)
    requires Trimmed(s)
    ensures Trim(s) == s
  {
    assert SkipSpaces(s, 0) == 0;
    assert s[0..] == s;
    assert DropSpaces(s, |s|) == |s|;
    assert s[..|s|] == s;
  }

  // ---- Letter case ----

  /** A case mapping of single code points: the lower case of each, and the class that it folds to. */
  datatype CaseMapping = CaseMapping(lower: char -> char, fold: char -> char)

  function AsciiLower(c: char): char {
    if 'A' <= c <= 'Z' then c + 32 as char else c
  }

  /** What the proofs use of Unicode's simple mapping: lower case is lower case, blanks map and fold to
      blanks and nothing else does, and ASCII letters have their usual lower case and fold only with it. */
  ghost predicate Lawful(m: CaseMapping) {
    forall c: char ::
      && m.lower(m.lower(c)) == m.lower(c)
      && (IsSpace(m.lower(c)) <==> IsSpace(c))
      && (IsSpace(m.fold(c)) <==> IsSpace(c))
      && (c as int < 128 ==> m.lower(c) == AsciiLower(c))
      && (forall d: char :: c as int < 128 && d as int < 128 && m.fold(c) == m.fold(d) ==> AsciiLower(c) == AsciiLower(d))
  }

  type LetterCase = m: CaseMapping | Lawful(m) witness CaseMapping(AsciiLower, AsciiLower)

  /** The mapping in force, which may be any lawful one: nothing here depends on more of it. */
  const LETTERS: LetterCase

  /** unicode.ToLower. */
  function LowerChar(c: char): char {
    LETTERS.lower(c)
  }

  /** The class of c under unicode.SimpleFold. */
  function FoldChar(c: char): char {
    LETTERS.fold(c)
  }

  /** strings.ToLower. */
  function Lower(s: string): (r: string)
    ensures |r| == |s|
    ensures forall i :: 0 <= i < |s| ==> r[i] == LowerChar(s[i])
  {
    seq(|s|, i requires 0 <= i < |s| => LowerChar(s[i]))
  }

  /** strings.EqualFold. */
  predicate EqualFold(a: string, b: string) {
    |a| == |b| && forall i :: 0 <= i < |a| ==> FoldChar(a[i]) == FoldChar(b[i])
  }

  /** strings.TrimSpace(strings.ToLower(s)): how every model name is normalised. */
  function Normalize(s: string): string {
    Trim(Lower(s))
  }

  lemma LowerIdempotent(s: string)
    ensures Lower(Lower(s)) == Lower(s)
  {
    assert Lawful(LETTERS);
  }

  lemma CaseKeepsSpaces(c: char)
    ensures IsSpace(LowerChar(c)) <==> IsSpace(c)
    ensures IsSpace(FoldChar(c)) <==> IsSpace(c)
  {
    assert Lawful(LETTERS);
  }

  lemma {:induction false} SkipSpacesLower(s: string, i: nat)
    requires i <= |s|
    ensures SkipSpaces(Lower(s), i) == SkipSpaces(s, i)
    decreases |s| - i
  {
    if i < |s| {
      CaseKeepsSpaces(s[i]);
      SkipSpacesLower(s, i + 1);
    }
  }

  lemma {:induction false} DropSpacesLower(s: string, n: nat)
    requires n <= |s|
    ensures DropSpaces(Lower(s), n) == DropSpaces(s, n)
  {
    if n > 0 {
      CaseKeepsSpaces(s[n - 1]);
      DropSpacesLower(s, n - 1);
    }
  }

  /** Lower-casing moves no space, so it commutes with trimming. */
  lemma TrimLower(s: string)
    ensures Trim(Lower(s)) == Lower(Trim(s))
  {
    hide IsSpace, LowerChar;
    SkipSpacesLower(s, 0);
    var l := TrimLeft(s);
    assert TrimLeft(Lower(s)) == Lower(l);
    DropSpacesLower(l, |l|);
    assert TrimRight(Lower(l)) == Lower(TrimRight(l));
  }

  lemma NormalizeIdempotent(s: string)
    ensures Normalize(Normalize(s)) == Normalize(s)
    ensures Lower(Normalize(s)) == Normalize(s)
    ensures Trim(Normalize(s)) == Normalize(s)
  {
    hide Trim;
    TrimLower(Lower(s));
    LowerIdempotent(s);
    TrimIsTrimmed(Lower(s));
    TrimmedIsFixed(Normalize(s));
  }

  // ---- Words ----

  /** The end of the word that runs through position i. */
  function WordEnd(s: string, i: nat): (n: nat)
    requires i <= |s|
    ensures i <= n <= |s|
    ensures forall j :: i <= j < n ==> !IsSpace(s[j])
    ensures n < |s| ==> IsSpace(s[n])
    decreases |s| - i
  {
    if i < |s| && !IsSpace(s[i]) then WordEnd(s, i + 1) else i
  }

  function FieldsFrom(s: string, i: nat): seq<string>
    requires i <= |s|
    decreases |s| - i
  {
    if i == |s| then []
    else if IsSpace(s[i]) then FieldsFrom(s, i + 1)
    else
      var n := WordEnd(s, i + 1);
      [s[i..n]] + FieldsFrom(s, n)
  }

  /** strings.Fields: the maximal runs of non-space code points. */
  function Fields(s: string): seq<string> {
    FieldsFrom(s, 0)
  }

  /** A word starts at position i. */
  predicate WordStart(s: string, i: nat)
    requires i < |s|
  {
    !IsSpace(s[i]) && (i == 0 || IsSpace(s[i - 1]))
  }

  /** The number of words of s, counted by where words start. */
  function Words(s: string): nat {
    if s == "" then 0
    else Words(s[..|s| - 1]) + (if WordStart(s, |s| - 1) then 1 else 0)
  }

  /** Gluing a to b merges the last word of a with the first word of b. */
  predicate Merges(a: string, b: string) {
    a != "" && b != "" && !IsSpace(a[|a| - 1]) && !IsSpace(b[0])
  }

  /** Word counts add up, less the one word that gluing may merge. */
  lemma {:induction false} WordsConcat(a: string, b: string)
    ensures Words(a + b) == Words(a) + Words(b) - (if Merges(a, b) then 1 else 0)
  {
    if b == "" {
      assert a + b == a;
    } else {
      var n := |b| - 1;
      assert (a + b)[..|a + b| - 1] == a + b[..n];
      WordsConcat(a, b[..n]);
    }
  }

  lemma {:induction false} WordsOfBlank(s: string)
    requires forall i :: 0 <= i < |s| ==> IsSpace(s[i])
    ensures Words(s) == 0
  {
    if s != "" { WordsOfBlank(s[..|s| - 1]); }
  }

  lemma {:induction false} WordsOfWord(s: string)
    requires s != "" && forall i :: 0 <= i < |s| ==> !IsSpace(s[i])
    ensures Words(s) == 1
  {
    if |s| > 1 { WordsOfWord(s[..|s| - 1]); }
  }

  lemma WordsPastSpace(s: string, i: nat)
    requires i < |s| && IsSpace(s[i])
    ensures Words(s[..i + 1]) == Words(s[..i])
  {
    assert s[..i + 1][..i] == s[..i];
  }

  lemma WordsPastWord(s: string, i: nat, n: nat)
    requires i < n <= |s| && forall j :: i <= j < n ==> !IsSpace(s[j])
    requires i == 0 || IsSpace(s[i - 1])
    ensures Words(s[..n]) == Words(s[..i]) + 1
  {
    assert s[..n] == s[..i] + s[i..n];
    WordsConcat(s[..i], s[i..n]);
    WordsOfWord(s[i..n]);
  }

  /** Splitting into fields and counting word starts agree. */
  lemma {:induction false} FieldsFromCountWords(s: string, i: nat)
    requires i <= |s|
    requires i == 0 || i == |s| || IsSpace(s[i - 1]) || IsSpace(s[i])
    ensures Words(s[..i]) + |FieldsFrom(s, i)| == Words(s)
    decreases |s| - i
  {
    hide IsSpace, Words;
    if i == |s| {
      assert s[..i] == s;
    } else if IsSpace(s[i]) {
      WordsPastSpace(s, i);
      FieldsFromCountWords(s, i + 1);
    } else {
      var n := WordEnd(s, i + 1);
      WordsPastWord(s, i, n);
      FieldsFromCountWords(s, n);
    }
  }

  lemma FieldsCountWords(s: string)
    ensures |Fields(s)| == Words(s)
  {
    FieldsFromCountWords(s, 0);
  }

  lemma WordsAfterSpaces(s: string, i: nat)
    requires i <= |s| && forall j :: 0 <= j < i ==> IsSpace(s[j])
    ensures Words(s[i..]) == Words(s)
  {
    assert s == s[..i] + s[i..];
    WordsConcat(s[..i], s[i..]);
    WordsOfBlank(s[..i]);
  }

  lemma WordsBeforeSpaces(s: string, n: nat)
    requires n <= |s| && forall j :: n <= j < |s| ==> IsSpace(s[j])
    ensures Words(s[..n]) == Words(s)
  {
    assert s == s[..n] + s[n..];
    WordsConcat(s[..n], s[n..]);
    WordsOfBlank(s[n..]);
  }

  /** Trimming never removes a word. */
  lemma TrimKeepsWords(s: string)
    ensures Words(Trim(s)) == Words(s)
  {
    hide Words, IsSpace;
    WordsAfterSpaces(s, SkipSpaces(s, 0));
    var l := TrimLeft(s);
    WordsBeforeSpaces(l, DropSpaces(l, |l|));
  }

  /** A text that starts with a word has at least one. */
  lemma {:induction false} WordsAtLeastOne(s: string)
    ensures s != "" && !IsSpace(s[0]) ==> Words(s) >= 1
  {
    if |s| > 1 { WordsAtLeastOne(s[..|s| - 1]); }
  }

  /** A text has words exactly when something is left after trimming. */
  lemma BlankMeansNoWords(s: string)
    ensures Trim(s) == "" <==> Words(s) == 0
  {
    TrimKeepsWords(s);
    TrimIsTrimmed(s);
    WordsAtLeastOne(Trim(s));
  }

  lemma WordsMonotone(a: string, b: string)
    ensures Words(a) <= Words(a + b)
  {
    WordsConcat(a, b);
    WordsAtLeastOne(b);
  }

  // ---- Joining ----

  /** The concatenation of all parts, as a strings.Builder holds it. */
  function Concat(parts: seq<string>): string {
    if parts == [] then "" else Concat(parts[..|parts| - 1]) + parts[|parts| - 1]
  }

  /** strings.Join. */
  function Join(parts: seq<string>, separator: string): string {
    if parts == [] then ""
    else if |parts| == 1 then parts[0]
    else Join(parts[..|parts| - 1], separator) + separator + parts[|parts| - 1]
  }

  lemma {:induction false} ConcatAppend(a: seq<string>, b: seq<string>)
    ensures Concat(a + b) == Concat(a) + Concat(b)
  {
    if b == [] {
      assert a + b == a;
      assert Concat(a) + "" == Concat(a);
    } else {
      var n := |b| - 1;
      assert (a + b)[..|a + b| - 1] == a + b[..n];
      assert (a + b)[|a + b| - 1] == b[n];
      ConcatAppend(a, b[..n]);
      var x, y, z := Concat(a), Concat(b[..n]), b[n];
      assert Concat(a + b) == (x + y) + z;
      assert (x + y) + z == x + (y + z);
      assert Concat(b) == y + z;
    }
  }
}
