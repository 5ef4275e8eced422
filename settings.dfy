/** The settings screen's escalation keywords: adding a typed keyword and
    removing one. */
module Settings {
  import opened Text
  import opened Lists

  const DEFAULT_KEYWORDS: seq<string> := ["speak to manager", "human", "escalate", "complaint", "legal"]

  /** The keyword list and the text in the new-keyword box. */
  datatype KeywordForm = KeywordForm(keywords: seq<string>, input: string)

  /** The form a typed keyword is stored in: trimmed, then lower-cased. */
  function Normalized(input: string): string {
    Lower(Trim(input))
  }

  /** Add the typed keyword unless it is blank or already listed; the box is
      cleared only when the keyword is added. */
  function AddKeyword(f: KeywordForm): KeywordForm {
    var k := Normalized(f.input);
    if Trim(f.input) != "" && k !in f.keywords then KeywordForm(f.keywords + [k], "")
    else f
  }

  /** Remove every occurrence of a keyword. */
  function RemoveKeyword(f: KeywordForm, kw: string): KeywordForm {
    f.(keywords := Filter(f.keywords, (k: string) => k != kw))
  }

  /** A stored keyword: non-empty, no white space at either end, no upper-case
      ASCII letter. */
  predicate Clean(k: string) {
    && k != ""
    && !IsSpace(k[0]) && !IsSpace(k[|k| - 1])
    && forall i :: 0 <= i < |k| ==> !('A' <= k[i] <= 'Z')
  }

  /** The list's invariant: clean keywords, none twice. */
  predicate Valid(keywords: seq<string>) {
    Distinct(keywords) && forall i :: 0 <= i < |keywords| ==> Clean(keywords[i])
  }

  /** The list the screen starts with satisfies the invariant. */
  lemma DefaultsValid()
    ensures Valid(DEFAULT_KEYWORDS)
  {
    DefaultsClean();
    var d := DEFAULT_KEYWORDS;
    assert d[0] != d[1] && d[0] != d[2] && d[0] != d[3] && d[0] != d[4];
    assert d[1] != d[2] && d[1] != d[3] && d[1] != d[4];
    assert d[2] != d[3] && d[2] != d[4] && d[3] != d[4];
  }

  lemma DefaultsClean()
    ensures forall i :: 0 <= i < |DEFAULT_KEYWORDS| ==> Clean(DEFAULT_KEYWORDS[i])
  {
    var d := DEFAULT_KEYWORDS;
    assert Clean(d[0]);
    assert Clean(d[1]);
    assert Clean(d[2]);
    assert Clean(d[3]);
    assert Clean(d[4]);
  }

  /** Lower-casing neither makes nor removes white space, and leaves no
      upper-case ASCII letter. */
  lemma LowerKeepsSpace(c: char)
    ensures IsSpace(LowerChar(c)) == IsSpace(c)
    ensures !('A' <= LowerChar(c) <= 'Z')
  {
  }

  /** A non-blank input normalizes to a clean keyword. */
  lemma NormalizedClean(input: string)
    requires Trim(input) != ""
    ensures Clean(Normalized(input))
  {
    TrimSpec(input);
    var t := Trim(input);
    var k := Lower(t);
    LowerKeepsSpace(t[0]);
    LowerKeepsSpace(t[|t| - 1]);
    assert k[0] == LowerChar(t[0]) && k[|k| - 1] == LowerChar(t[|t| - 1]);
  }

  /** Adding a keyword keeps the list valid, and changes the list exactly when
      the trimmed input is non-empty and its normalized form is new; then the
      form is appended at the end and the box is cleared. */
  lemma AddKeywordSpec(f: KeywordForm)
    requires Valid(f.keywords)
    ensures Valid(AddKeyword(f).keywords)
    ensures AddKeyword(f) != f <==> Trim(f.input) != "" && Normalized(f.input) !in f.keywords
    ensures AddKeyword(f) != f ==> AddKeyword(f) == KeywordForm(f.keywords + [Normalized(f.input)], "")
  {
    if Trim(f.input) != "" && Normalized(f.input) !in f.keywords {
      NormalizedClean(f.input);
      var r := f.keywords + [Normalized(f.input)];
      assert forall i :: 0 <= i < |f.keywords| ==> r[i] == f.keywords[i];
      assert |r| == |f.keywords| + 1;
    }
  }

  /** Removing a keyword keeps the list valid, takes out every occurrence of
      it, keeps every other keyword, and leaves the box alone. */
  lemma RemoveKeywordSpec(f: KeywordForm, kw: string)
    requires Valid(f.keywords)
    ensures Valid(RemoveKeyword(f, kw).keywords)
    ensures kw !in RemoveKeyword(f, kw).keywords
    ensures forall i :: 0 <= i < |f.keywords| && f.keywords[i] != kw ==> f.keywords[i] in RemoveKeyword(f, kw).keywords
    ensures RemoveKeyword(f, kw).input == f.input
  {
    FilterDistinct(f.keywords, (k: string) => k != kw);
  }

  /** Removing a keyword just added gives back the list it was added to. */
  lemma RemoveUndoesAdd(f: KeywordForm)
    requires Trim(f.input) != "" && Normalized(f.input) !in f.keywords
    ensures RemoveKeyword(AddKeyword(f), Normalized(f.input)).keywords == f.keywords
  {
    var k := Normalized(f.input);
    var p := (x: string) => x != k;
    FilterAppend(f.keywords, [k], p);
    FilterKeepsAll(f.keywords, p);
    assert Filter([k], p) == [];
  }
}
