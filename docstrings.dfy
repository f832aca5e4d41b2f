/**
 * `combine_docstrings`: splices the "Attributes" section of a parent class's
 * docstring into the docstring of the class it decorates. The regular
 * expression that finds the section is written out as a search for its first
 * match; letters are compared ASCII case-insensitively.
 */
module Docstrings {
  import opened Text

  /** The first position at or after `j` that is not whitespace. */
  function SkipSpaces(doc: string, j: nat): (k: nat)
    requires j <= |doc|
    ensures j <= k <= |doc|
    ensures forall m :: j <= m < k ==> IsSpace(doc[m])
    ensures k < |doc| ==> !IsSpace(doc[k])
    decreases |doc| - j
  {
    if j < |doc| && IsSpace(doc[j]) then SkipSpaces(doc, j + 1) else j
  }

  /** The first position at or after `j` that is not a dash. */
  function SkipDashes(doc: string, j: nat): (k: nat)
    requires j <= |doc|
    ensures j <= k <= |doc|
    ensures forall m :: j <= m < k ==> doc[m] == '-'
    ensures k < |doc| ==> doc[k] != '-'
    decreases |doc| - j
  {
    if j < |doc| && doc[j] == '-' then SkipDashes(doc, j + 1) else j
  }

  /** Where the whitespace run that ends at `i` begins. */
  function RunStart(doc: string, i: nat): (p: nat)
    requires i <= |doc|
    ensures p <= i
    ensures forall m :: p <= m < i ==> IsSpace(doc[m])
    ensures p > 0 ==> !IsSpace(doc[p - 1])
  {
    if i > 0 && IsSpace(doc[i - 1]) then RunStart(doc, i - 1) else i
  }

  /** One past the last newline in `doc[e..f]`, or `e` when there is none. */
  function NewlineEnd(doc: string, e: nat, f: nat): (k: nat)
    requires e <= f <= |doc|
    ensures e <= k <= f
    ensures k > e ==> doc[k - 1] == '\n'
    ensures forall m :: k <= m < f ==> doc[m] != '\n'
    decreases f
  {
    if f == e then e else if doc[f - 1] == '\n' then f else NewlineEnd(doc, e, f - 1)
  }

  /** A match of the section header: where the keyword is, and the span the match covers. */
  datatype Header = Header(at: nat, start: nat, end: nat) | NoHeader

  const Keyword := "attributes"

  /**
   * The match of `\s*Attributes\n\s*-+\s*\n` (ignoring case) that uses the
   * keyword at `i`: the whitespace before it, the keyword and a newline,
   * whitespace, at least one dash, and whitespace up to its last newline.
   */
  function HeaderAt(doc: string, i: nat): (h: Header)
    ensures h.Header? ==> h.at == i && h.start <= i < h.end <= |doc|
  {
    if i + 11 <= |doc| && Lower(doc[i..i + 10]) == Keyword && doc[i + 10] == '\n' then
      var d := SkipSpaces(doc, i + 11);
      var e := SkipDashes(doc, d);
      if e == d then NoHeader
      else
        var k := NewlineEnd(doc, e, SkipSpaces(doc, e));
        if k == e then NoHeader else Header(i, RunStart(doc, i), k)
    else NoHeader
  }

  /**
   * `doc[i + 11..k]` is the part of a match after the keyword at `i` and its
   * newline: whitespace up to `d`, the dashes from `d` to `e`, and whitespace
   * up to a newline at `k - 1`, with no newline in the whitespace that follows.
   */
  predicate RuleSpan(doc: string, i: nat, d: nat, e: nat, k: nat) {
    && i + 11 <= d < e < k <= |doc|
    && (forall m :: i + 11 <= m < d ==> IsSpace(doc[m]))
    && (forall m :: d <= m < e ==> doc[m] == '-')
    && (forall m :: e <= m < k ==> IsSpace(doc[m]))
    && doc[k - 1] == '\n'
    && (forall m :: k <= m < SkipSpaces(doc, k) ==> doc[m] != '\n')
  }

  /**
   * A match is the whitespace run before the keyword, the keyword (case
   * aside) and a newline, then a rule: whitespace, dashes, and whitespace up
   * to its last newline.
   */
  lemma HeaderShape(doc: string, i: nat)
    requires HeaderAt(doc, i).Header?
    ensures var h := HeaderAt(doc, i);
            && i + 11 <= h.end
            && Lower(doc[i..i + 10]) == Keyword && doc[i + 10] == '\n'
            && (forall m :: h.start <= m < i ==> IsSpace(doc[m]))
            && (h.start > 0 ==> !IsSpace(doc[h.start - 1]))
            && exists d, e :: RuleSpan(doc, i, d, e, h.end)
  {
    var d := SkipSpaces(doc, i + 11);
    var e := SkipDashes(doc, d);
    var k := NewlineEnd(doc, e, SkipSpaces(doc, e));
    SkipSpacesWithin(doc, e, k);
    assert RuleSpan(doc, i, d, e, k);
  }

  /** Skipping whitespace from inside a run ends where the whole run ends. */
  lemma {:induction false} SkipSpacesWithin(doc: string, j: nat, k: nat)
    requires j <= |doc| && j <= k <= SkipSpaces(doc, j)
    ensures SkipSpaces(doc, k) == SkipSpaces(doc, j)
    decreases k - j
  {
    if j < k {
      SkipSpacesWithin(doc, j + 1, k);
    }
  }

  /** The first keyword position at or after `i` at which the header matches. */
  function FirstHeaderFrom(doc: string, i: nat): (h: Header)
    ensures h.Header? ==> i <= h.at && HeaderAt(doc, h.at) == h
    ensures h.Header? ==> forall j :: i <= j < h.at ==> HeaderAt(doc, j).NoHeader?
    ensures h.NoHeader? ==> forall j :: i <= j ==> HeaderAt(doc, j).NoHeader?
    decreases |doc| - i
  {
    if i >= |doc| then NoHeader
    else if HeaderAt(doc, i).Header? then HeaderAt(doc, i)
    else FirstHeaderFrom(doc, i + 1)
  }

  /**
   * `pattern.split(doc, 1)`: the text before the first match, the match
   * itself (the pattern is one capturing group) and the rest; or the whole
   * text when nothing matches. Nothing is lost.
   */
  function Split(doc: string): (parts: seq<string>)
    ensures |parts| == 1 || |parts| == 3
    ensures |parts| == 1 ==> parts[0] == doc
    ensures |parts| == 3 ==> parts[0] + parts[1] + parts[2] == doc
  {
    var h := FirstHeaderFrom(doc, 0);
    if h.NoHeader? then [doc]
    else
      Rejoin(doc, h.start, h.end);
      [doc[..h.start], doc[h.start..h.end], doc[h.end..]]
  }

  lemma Rejoin(s: string, a: nat, b: nat)
    requires a <= b <= |s|
    ensures s[..a] + s[a..b] + s[b..] == s
  {
    assert s[..a] + s[a..b] == s[..b];
  }

  /** A match begins with nothing but whitespace before the keyword: no earlier text is taken. */
  lemma SplitAtFirstMatch(doc: string)
    requires |Split(doc)| == 3
    ensures var h := FirstHeaderFrom(doc, 0);
            && h.Header? && Split(doc)[0] == doc[..h.start]
            && (forall j :: 0 <= j < h.at ==> HeaderAt(doc, j).NoHeader?)
            && (forall m :: h.start <= m < h.at ==> IsSpace(doc[m]))
  {
  }

  const Rule := "-----------------------------"
  const SectionHeader := "Attributes\n----------"

  /** The block that introduces the parent's attributes. */
  function ParentBlock(baseName: string, parentAttributes: string): string {
    "\nInherited parameters from " + baseName + "\n" + Rule + "\n" + Strip(parentAttributes) + "\n"
  }

  /** The block that introduces the class's own attributes. */
  function ChildBlock(name: string, childAttributes: string): string {
    "Parameters from " + name + "\n" + Rule + "\n" + Strip(childAttributes) + "\n"
  }

  /**
   * The docstring the decorated class ends up with. A missing docstring is
   * the empty string: both are falsy and leave the class unchanged.
   */
  function CombinedDoc(childDoc: string, parentDoc: string, name: string, baseName: string): (doc: string)
    ensures childDoc == [] || parentDoc == [] ==> doc == childDoc
    ensures |Split(parentDoc)| < 3 ==> doc == childDoc
  {
    if parentDoc == [] || childDoc == [] then childDoc
    else
      var parentParts := Split(parentDoc);
      var childParts := Split(childDoc);
      if |parentParts| < 3 then childDoc
      else
        var parentBlock := ParentBlock(baseName, parentParts[2]);
        if |childParts| > 1 then
          Strip(childParts[0]) + "\n\n" + SectionHeader + "\n" + parentBlock + "\n" + ChildBlock(name, childParts[2])
        else
          childDoc + "\n\n" + SectionHeader + "\n" + parentBlock
  }

  /** `sub` occurs in `a + sub + b`. */
  lemma {:induction false} ContainsMiddle(a: string, sub: string, b: string)
    ensures Contains(a + sub + b, sub)
    decreases |a|
  {
    if a == [] {
      assert a + sub + b == sub + b;
      assert sub <= sub + b;
    } else {
      assert (a + sub + b)[1..] == a[1..] + sub + b;
      ContainsMiddle(a[1..], sub, b);
    }
  }

  /** The shape of the combined docstring when the class documents its attributes too. */
  lemma CombinedWithChildSection(childDoc: string, parentDoc: string, name: string, baseName: string)
    requires childDoc != [] && parentDoc != [] && |Split(parentDoc)| == 3 && |Split(childDoc)| == 3
    ensures CombinedDoc(childDoc, parentDoc, name, baseName) ==
              Strip(Split(childDoc)[0]) + "\n\n" + SectionHeader + "\n"
              + ParentBlock(baseName, Split(parentDoc)[2]) + "\n" + ChildBlock(name, Split(childDoc)[2])
  {
  }

  /** The shape of the combined docstring when only the parent documents its attributes. */
  lemma CombinedWithoutChildSection(childDoc: string, parentDoc: string, name: string, baseName: string)
    requires childDoc != [] && parentDoc != [] && |Split(parentDoc)| == 3 && |Split(childDoc)| == 1
    ensures CombinedDoc(childDoc, parentDoc, name, baseName) ==
              childDoc + "\n\n" + SectionHeader + "\n" + ParentBlock(baseName, Split(parentDoc)[2])
  {
  }

  /** Text that occurs in `s` occurs in any extension of `s`. */
  lemma {:induction false} ContainsExtend(s: string, sub: string, t: string)
    requires Contains(s, sub)
    ensures Contains(s + t, sub)
    decreases |s|
  {
    if !(sub <= s) {
      assert (s + t)[1..] == s[1..] + t;
      ContainsExtend(s[1..], sub, t);
    }
  }

  /** Regrouping a concatenation of four strings. */
  lemma Associates(a: string, b: string, c: string, d: string)
    ensures a + (b + c + d) == (a + b) + c + d
  {
  }

  /** The parent block carries the parent's stripped attributes. */
  lemma ParentBlockHolds(baseName: string, attributes: string, before: string)
    ensures Contains(before + ParentBlock(baseName, attributes), Strip(attributes))
  {
    var pre, body := "\nInherited parameters from " + baseName + "\n" + Rule + "\n", Strip(attributes);
    assert ParentBlock(baseName, attributes) == pre + body + "\n";
    Associates(before, pre, body, "\n");
    ContainsMiddle(before + pre, body, "\n");
  }

  /** The child block carries the class's stripped attributes. */
  lemma ChildBlockHolds(name: string, attributes: string, before: string)
    ensures Contains(before + ChildBlock(name, attributes), Strip(attributes))
  {
    var pre, body := "Parameters from " + name + "\n" + Rule + "\n", Strip(attributes);
    assert ChildBlock(name, attributes) == pre + body + "\n";
    Associates(before, pre, body, "\n");
    ContainsMiddle(before + pre, body, "\n");
  }

  /**
   * When both classes document their attributes, the new docstring holds
   * the parent's stripped attributes and the class's own.
   */
  lemma CombinedKeepsBothSections(childDoc: string, parentDoc: string, name: string, baseName: string)
    requires childDoc != [] && parentDoc != [] && |Split(parentDoc)| == 3 && |Split(childDoc)| == 3
    ensures Contains(CombinedDoc(childDoc, parentDoc, name, baseName), Strip(Split(parentDoc)[2]))
    ensures Contains(CombinedDoc(childDoc, parentDoc, name, baseName), Strip(Split(childDoc)[2]))
  {
    CombinedWithChildSection(childDoc, parentDoc, name, baseName);
    var head := Strip(Split(childDoc)[0]) + "\n\n" + SectionHeader + "\n";
    var block := ParentBlock(baseName, Split(parentDoc)[2]);
    var child := ChildBlock(name, Split(childDoc)[2]);
    ParentBlockHolds(baseName, Split(parentDoc)[2], head);
    ContainsExtend(head + block, Strip(Split(parentDoc)[2]), "\n");
    ContainsExtend(head + block + "\n", Strip(Split(parentDoc)[2]), child);
    ChildBlockHolds(name, Split(childDoc)[2], head + block + "\n");
  }

  /**
   * When only the parent documents its attributes, the new docstring is the
   * class's docstring followed by the parent's stripped attributes.
   */
  lemma CombinedExtendsChild(childDoc: string, parentDoc: string, name: string, baseName: string)
    requires childDoc != [] && parentDoc != [] && |Split(parentDoc)| == 3 && |Split(childDoc)| == 1
    ensures childDoc <= CombinedDoc(childDoc, parentDoc, name, baseName)
    ensures Contains(CombinedDoc(childDoc, parentDoc, name, baseName), Strip(Split(parentDoc)[2]))
  {
    CombinedWithoutChildSection(childDoc, parentDoc, name, baseName);
    var block := ParentBlock(baseName, Split(parentDoc)[2]);
    var head := childDoc + "\n\n" + SectionHeader + "\n";
    ParentBlockHolds(baseName, Split(parentDoc)[2], head);
    PrefixExtend(childDoc, childDoc, "\n\n");
    PrefixExtend(childDoc, childDoc + "\n\n", SectionHeader);
    PrefixExtend(childDoc, childDoc + "\n\n" + SectionHeader, "\n");
    PrefixExtend(childDoc, head, block);
  }

  /** A prefix of `s` is a prefix of any extension of `s`. */
  lemma PrefixExtend(p: string, s: string, t: string)
    requires p <= s
    ensures p <= s + t
  {
    assert (s + t)[..|p|] == s[..|p|];
  }

  /** A documented class: its name and the `__doc__` the decorator rewrites. */
  class DocumentedClass {
    const name: string
    var doc: string

    constructor (name: string, doc: string)
      ensures this.name == name && this.doc == doc
    {
      this.name := name;
      this.doc := doc;
    }
  }

  /**
   * `combine_docstrings(cls)` with `base` its `__base__`: the class's
   * docstring is replaced by the combined one and the same class is returned.
   */
  method CombineDocstrings(cls: DocumentedClass, base: DocumentedClass) returns (r: DocumentedClass)
    requires cls != base
    modifies cls
    ensures r == cls
    ensures cls.doc == CombinedDoc(old(cls.doc), base.doc, cls.name, base.name)
  {
    cls.doc := CombinedDoc(cls.doc, base.doc, cls.name, base.name);
    r := cls;
  }
}
