/** The text rendering of a WLO collection hierarchy
    (buildTree in src/components/CollectionTree.tsx): collections are grouped
    under their parent id, and every root is drawn with its descendants in
    box-drawing characters. */
module CollectionTree {
  import opened JsValue
  import opened Collections

  /** The WLOMetadata fields the renderer reads. */
  datatype WloCollection = WloCollection(
    title: string,
    refId: Option<string>,
    parentId: Option<string>,
    keywords: seq<string>,
    description: string,
    subject: string,
    educationalContext: seq<string>,
    wwwUrl: Option<string>)

  predicate Set(o: Option<string>) { o.Some? && o.value != "" }

  predicate HasParent(c: WloCollection) { Set(c.parentId) }

  /** `collection.parentId || 'root'`: the group a collection is filed under. */
  function ParentKey(c: WloCollection): (k: string)
    ensures k != ""
  {
    if HasParent(c) then c.parentId.value else "root"
  }

  /** `collection.refId || ''`: the group a collection's children are read from. */
  function RefKey(c: WloCollection): string {
    if Set(c.refId) then c.refId.value else ""
  }

  type Tree = map<string, seq<WloCollection>>

  // ------------------------------------------------------------- grouping

  /** The record of groups the `forEach` builds. */
  function Group(cs: seq<WloCollection>): Tree {
    if |cs| == 0 then map[]
    else
      var t := Group(cs[..|cs| - 1]);
      var c := cs[|cs| - 1];
      var k := ParentKey(c);
      t[k := (if k in t then t[k] else []) + [c]]
  }

  /** The collections filed under key k, in input order. */
  function ChildrenOf(cs: seq<WloCollection>, k: string): seq<WloCollection> {
    if |cs| == 0 then []
    else ChildrenOf(cs[..|cs| - 1], k) + (if ParentKey(cs[|cs| - 1]) == k then [cs[|cs| - 1]] else [])
  }

  /** The collections without a parent, in input order. */
  function RootsOf(cs: seq<WloCollection>): seq<WloCollection> {
    if |cs| == 0 then []
    else RootsOf(cs[..|cs| - 1]) + (if !HasParent(cs[|cs| - 1]) then [cs[|cs| - 1]] else [])
  }

  /** The grouping loop of buildTree. */
  method GroupCollections(cs: seq<WloCollection>) returns (tree: Tree, roots: seq<WloCollection>)
    ensures tree == Group(cs) && roots == RootsOf(cs)
  {
    tree := map[];
    roots := [];
    var i := 0;
    while i < |cs|
      invariant 0 <= i <= |cs|
      invariant tree == Group(cs[..i]) && roots == RootsOf(cs[..i])
    {
      assert cs[..i + 1][..i] == cs[..i];
      var c := cs[i];
      var parentId := if c.parentId.Some? && c.parentId.value != "" then c.parentId.value else "root";
      if parentId !in tree {
        tree := tree[parentId := []];
      }
      tree := tree[parentId := tree[parentId] + [c]];
      if !(c.parentId.Some? && c.parentId.value != "") {
        roots := roots + [c];
      }
      i := i + 1;
    }
    assert cs[..i] == cs;
  }

  /** A key has a group exactly when some collection is filed under it, and
      the group holds those collections in input order. */
  lemma {:induction false} GroupFacts(cs: seq<WloCollection>, k: string)
    ensures k in Group(cs) <==> exists i :: 0 <= i < |cs| && ParentKey(cs[i]) == k
    ensures k in Group(cs) ==> Group(cs)[k] == ChildrenOf(cs, k)
  {
    if |cs| > 0 {
      var n := |cs| - 1;
      GroupFacts(cs[..n], k);
      assert forall i :: 0 <= i < n ==> cs[..n][i] == cs[i];
      if ParentKey(cs[n]) == k && k !in Group(cs[..n]) {
        NoChildren(cs[..n], k);
      }
    }
  }

  lemma {:induction false} NoChildren(cs: seq<WloCollection>, k: string)
    requires forall i :: 0 <= i < |cs| ==> ParentKey(cs[i]) != k
    ensures ChildrenOf(cs, k) == []
  {
    if |cs| > 0 {
      NoChildren(cs[..|cs| - 1], k);
    }
  }

  /** The children under key k are exactly the collections filed under k. */
  lemma {:induction false} ChildrenMembers(cs: seq<WloCollection>, k: string, x: WloCollection)
    ensures x in ChildrenOf(cs, k) <==> x in cs && ParentKey(x) == k
  {
    if |cs| > 0 {
      var n := |cs| - 1;
      ChildrenMembers(cs[..n], k, x);
      assert cs == cs[..n] + [cs[n]];
    }
  }

  /** The roots are exactly the collections without a parent. */
  lemma {:induction false} RootsMembers(cs: seq<WloCollection>, x: WloCollection)
    ensures x in RootsOf(cs) <==> x in cs && !HasParent(x)
  {
    if |cs| > 0 {
      var n := |cs| - 1;
      RootsMembers(cs[..n], x);
      assert cs == cs[..n] + [cs[n]];
    }
  }

  /** A collection without a refId reads the '' group, which is always empty. */
  lemma NoRefNoChildren(cs: seq<WloCollection>)
    ensures "" !in Group(cs)
  {
    GroupFacts(cs, "");
  }

  // ------------------------------------------------------------- one line

  function BranchSymbol(isLast: bool): string {
    if isLast then "└── " else "├── "
  }

  /** The prefix of the lines beneath a branch (and of its children). */
  function ChildPrefix(prefix: string, isLast: bool): string {
    prefix + (if isLast then "    " else "│   ")
  }

  /** ` [subject | ctx1, ctx2]` */
  function Suffix(c: WloCollection): string {
    if c.subject != "" || |c.educationalContext| > 0 then
      " [" + c.subject
      + (if c.subject != "" && |c.educationalContext| > 0 then " | " else "")
      + (if |c.educationalContext| > 0 then Join(c.educationalContext, ", ") else "")
      + "]"
    else ""
  }

  /** The bracket holds the subject, then ` | `, then the joined contexts,
      each part only when set, and is empty exactly when both are unset. */
  lemma SuffixCases(c: WloCollection)
    ensures c.subject != "" && |c.educationalContext| > 0 ==>
      Suffix(c) == " [" + c.subject + " | " + Join(c.educationalContext, ", ") + "]"
    ensures c.subject != "" && |c.educationalContext| == 0 ==> Suffix(c) == " [" + c.subject + "]"
    ensures c.subject == "" && |c.educationalContext| > 0 ==> Suffix(c) == " [" + Join(c.educationalContext, ", ") + "]"
    ensures Suffix(c) == "" <==> c.subject == "" && |c.educationalContext| == 0
  {
    if c.subject != "" || |c.educationalContext| > 0 {
      assert |Suffix(c)| >= 2;
    }
  }

  function Header(c: WloCollection, prefix: string, isLast: bool): string {
    prefix + BranchSymbol(isLast) + c.title + Suffix(c) + "\n"
  }

  // ----------------------------------------------------- the description

  /** `s.split('\n')` */
  function Split(s: string): seq<string> {
    SplitAcc(s, "", [])
  }

  /** The pieces of `s` appended to the finished pieces `acc`, `cur` being
      the piece read so far. */
  function SplitAcc(s: string, cur: string, acc: seq<string>): seq<string>
    decreases |s|
  {
    if |s| == 0 then acc + [cur]
    else if s[0] == '\n' then SplitAcc(s[1..], "", acc + [cur])
    else SplitAcc(s[1..], cur + [s[0]], acc)
  }

  /** The finished pieces stay in front, and at least one piece follows them. */
  lemma {:induction false} SplitAccShape(s: string, cur: string, acc: seq<string>)
    ensures SplitAcc(s, cur, acc) == acc + SplitAcc(s, cur, [])
    ensures |SplitAcc(s, cur, [])| > 0
    decreases |s|
  {
    if |s| == 0 {
      assert [] + [cur] == [cur];
    } else if s[0] == '\n' {
      SplitAccShape(s[1..], "", acc + [cur]);
      SplitAccShape(s[1..], "", [cur]);
      assert [] + [cur] == [cur];
      assert acc + ([cur] + SplitAcc(s[1..], "", [])) == (acc + [cur]) + SplitAcc(s[1..], "", []);
    } else {
      SplitAccShape(s[1..], cur + [s[0]], acc);
    }
  }

  /** Joining the pieces read from `cur` on gives `cur + s`, and no piece
      holds a line break when `cur` holds none. */
  lemma {:induction false} SplitAccJoin(s: string, cur: string)
    requires '\n' !in cur
    ensures Join(SplitAcc(s, cur, []), "\n") == cur + s
    ensures forall i :: 0 <= i < |SplitAcc(s, cur, [])| ==> '\n' !in SplitAcc(s, cur, [])[i]
    decreases |s|
  {
    if |s| == 0 {
      assert [] + [cur] == [cur];
      assert cur + s == cur;
    } else if s[0] == '\n' {
      var rest := SplitAcc(s[1..], "", []);
      SplitAccJoin(s[1..], "");
      SplitAccShape(s[1..], "", [] + [cur]);
      assert [] + [cur] == [cur];
      var parts := [cur] + rest;
      assert SplitAcc(s, cur, []) == parts;
      assert parts[1..] == rest;
      assert Join(parts, "\n") == cur + "\n" + Join(rest, "\n");
      assert s == "\n" + s[1..];
      forall i | 0 <= i < |parts| ensures '\n' !in parts[i] {
        if i > 0 {
          assert parts[i] == rest[i - 1];
        }
      }
    } else {
      assert '\n' !in cur + [s[0]];
      SplitAccJoin(s[1..], cur + [s[0]]);
      assert (cur + [s[0]]) + s[1..] == cur + s;
    }
  }

  /** Splitting gives at least one piece, joining the pieces with the
      separator gives the text back, and no piece holds a line break. */
  lemma SplitJoin(s: string)
    ensures |Split(s)| > 0
    ensures Join(Split(s), "\n") == s
    ensures forall i :: 0 <= i < |Split(s)| ==> '\n' !in Split(s)[i]
  {
    SplitAccShape(s, "", []);
    SplitAccJoin(s, "");
    assert "" + s == s;
  }

  /** One description line, drawn under the branch. */
  function TextLine(cont: string, l: string): string {
    cont + "│ " + l + "\n"
  }

  /** The lines emitted for the description lines that are not blank, that is
      whose `trim()` is not empty (Trim(l) == "" exactly when IsBlank(l)). */
  function DescriptionLines(lines: seq<string>, cont: string): string {
    if |lines| == 0 then ""
    else
      var l := lines[|lines| - 1];
      DescriptionLines(lines[..|lines| - 1], cont) + (if !IsBlank(l) then TextLine(cont, l) else "")
  }

  /** A blank line adds nothing; every other line adds exactly its own text line. */
  lemma {:induction false} DescriptionLinesSnoc(lines: seq<string>, l: string, cont: string)
    ensures IsBlank(l) ==> DescriptionLines(lines + [l], cont) == DescriptionLines(lines, cont)
    ensures !IsBlank(l) ==> DescriptionLines(lines + [l], cont) == DescriptionLines(lines, cont) + TextLine(cont, l)
  {
    var s := lines + [l];
    assert s[|s| - 1] == l && s[..|s| - 1] == lines;
  }

  /** The description block: nothing for an empty description. */
  function DescriptionBlock(c: WloCollection, cont: string): string {
    if c.description == "" then "" else DescriptionLines(Split(c.description), cont)
  }

  /** The description of a collection, line by line. */
  method RenderDescription(c: WloCollection, cont: string) returns (out: string)
    ensures out == DescriptionBlock(c, cont)
  {
    out := "";
    if c.description != "" {
      out := RenderLines(Split(c.description), cont);
    }
  }

  /** The `descLines.forEach` loop. */
  method RenderLines(lines: seq<string>, cont: string) returns (out: string)
    ensures out == DescriptionLines(lines, cont)
  {
    out := "";
    var i := 0;
    assert lines[..0] == [];
    while i < |lines|
      invariant 0 <= i <= |lines|
      invariant out == DescriptionLines(lines[..i], cont)
    {
      assert lines[..i + 1] == lines[..i] + [lines[i]];
      DescriptionLinesSnoc(lines[..i], lines[i], cont);
      if !IsBlank(lines[i]) {
        out := out + TextLine(cont, lines[i]);
      }
      i := i + 1;
    }
    assert lines[..i] == lines;
  }

  /** The keywords line, emitted only when there are keywords. */
  function KeywordsLine(c: WloCollection, cont: string): (r: string)
    ensures r == "" <==> |c.keywords| == 0
  {
    if |c.keywords| > 0 then cont + "│ Keywords: " + Join(c.keywords, ", ") + "\n" else ""
  }

  /** The URL line, emitted only when the URL is set and not empty. */
  function UrlLine(c: WloCollection, cont: string): (r: string)
    ensures r == "" <==> !Set(c.wwwUrl)
  {
    if Set(c.wwwUrl) then cont + "│ URL: " + c.wwwUrl.value + "\n" else ""
  }

  /** Everything a branch emits before its children. */
  function Lines(c: WloCollection, prefix: string, isLast: bool): string {
    var cont := ChildPrefix(prefix, isLast);
    Header(c, prefix, isLast) + DescriptionBlock(c, cont) + KeywordsLine(c, cont) + UrlLine(c, cont)
  }

  // ------------------------------------------------------------ recursion

  /** `a + rest`, failing when the rest fails. */
  function Then(a: string, rest: Option<string>): Option<string> {
    if rest.None? then None else Some(a + rest.value)
  }

  function Kids(tree: Tree, c: WloCollection): seq<WloCollection> {
    var k := RefKey(c);
    if k in tree then tree[k] else []
  }

  /** renderBranch, allowed `depth` levels of nesting; None when the nesting
      is deeper, where the source recurses without end. */
  function Branch(tree: Tree, c: WloCollection, prefix: string, isLast: bool, depth: nat): Option<string>
    decreases depth, 1
  {
    if depth == 0 then None
    else Then(Lines(c, prefix, isLast), SiblingsFrom(tree, Kids(tree, c), ChildPrefix(prefix, isLast), 0, depth - 1))
  }

  /** The branches of kids[i..], the last one drawn as the last sibling. */
  function SiblingsFrom(tree: Tree, kids: seq<WloCollection>, prefix: string, i: nat, depth: nat): Option<string>
    requires i <= |kids|
    decreases depth, 2, |kids| - i
  {
    if i == |kids| then Some("")
    else
      var b := Branch(tree, kids[i], prefix, i == |kids| - 1, depth);
      if b.None? then None else Then(b.value, SiblingsFrom(tree, kids, prefix, i + 1, depth))
  }

  /** renderBranch: the lines of the collection, then each child's branch. */
  method RenderBranch(tree: Tree, c: WloCollection, prefix: string, isLast: bool, depth: nat) returns (r: Option<string>)
    ensures r == Branch(tree, c, prefix, isLast, depth)
    decreases depth, 1
  {
    if depth == 0 {
      return None;
    }
    var result := RenderLinesOf(c, prefix, isLast);
    r := RenderSiblings(tree, Kids(tree, c), ChildPrefix(prefix, isLast), depth - 1, result);
  }

  /** The lines renderBranch emits before it draws the children. */
  method RenderLinesOf(c: WloCollection, prefix: string, isLast: bool) returns (result: string)
    ensures result == Lines(c, prefix, isLast)
  {
    var childPrefix := ChildPrefix(prefix, isLast);
    var description := RenderDescription(c, childPrefix);
    result := Header(c, prefix, isLast) + description + KeywordsLine(c, childPrefix) + UrlLine(c, childPrefix);
  }

  /** `children.forEach((child, index) => result += renderBranch(...))` */
  method RenderSiblings(tree: Tree, kids: seq<WloCollection>, prefix: string, depth: nat, start: string) returns (r: Option<string>)
    ensures r == Then(start, SiblingsFrom(tree, kids, prefix, 0, depth))
    decreases depth, 2
  {
    var result := start;
    var i := 0;
    while i < |kids|
      invariant 0 <= i <= |kids|
      invariant Then(result, SiblingsFrom(tree, kids, prefix, i, depth)) == Then(start, SiblingsFrom(tree, kids, prefix, 0, depth))
    {
      var part := RenderBranch(tree, kids[i], prefix, i == |kids| - 1, depth);
      if part.None? {
        return None;
      }
      ThenAssoc(result, part.value, SiblingsFrom(tree, kids, prefix, i + 1, depth));
      result := result + part.value;
      i := i + 1;
    }
    assert result + "" == result;
    r := Some(result);
  }

  lemma ThenAssoc(a: string, b: string, rest: Option<string>)
    ensures Then(a, Then(b, rest)) == Then(a + b, rest)
  {
    if rest.Some? {
      assert a + (b + rest.value) == (a + b) + rest.value;
    }
  }

  /** buildTree: the roots' branches, the last root drawn as the last sibling,
      with one nesting level per collection allowed. */
  function Forest(cs: seq<WloCollection>): Option<string> {
    SiblingsFrom(Group(cs), RootsOf(cs), "", 0, |cs| + 1)
  }

  method BuildTree(cs: seq<WloCollection>) returns (text: Option<string>)
    ensures text == Forest(cs)
  {
    var tree, roots := GroupCollections(cs);
    text := RenderSiblings(tree, roots, "", |cs| + 1, "");
    assert forall o: Option<string> :: Then("", o) == o by {
      forall o: Option<string> ensures Then("", o) == o {
        if o.Some? {
          assert "" + o.value == o.value;
        }
      }
    }
  }

  // ----------------------------------------------------------- properties

  /** Every branch starts with its prefix, the symbol for its position and the title. */
  lemma BranchStarts(tree: Tree, c: WloCollection, prefix: string, isLast: bool, depth: nat)
    requires Branch(tree, c, prefix, isLast, depth).Some?
    ensures prefix + BranchSymbol(isLast) + c.title <= Branch(tree, c, prefix, isLast, depth).value
  {
    var head := prefix + BranchSymbol(isLast) + c.title;
    var cont := ChildPrefix(prefix, isLast);
    var header := Header(c, prefix, isLast);
    PrefixOfConcat(head, Suffix(c));
    PrefixOfConcat(head + Suffix(c), "\n");
    var d := header + DescriptionBlock(c, cont);
    var k := d + KeywordsLine(c, cont);
    var lines := k + UrlLine(c, cont);
    assert lines == Lines(c, prefix, isLast);
    PrefixOfConcat(header, DescriptionBlock(c, cont));
    PrefixOfConcat(d, KeywordsLine(c, cont));
    PrefixOfConcat(k, UrlLine(c, cont));
    var rest := SiblingsFrom(tree, Kids(tree, c), cont, 0, depth - 1);
    PrefixOfConcat(lines, rest.value);
  }

  /** Each sibling's branch, drawn from its position in the run, starts with
      the shared prefix and the symbol for that position: `└── ` for the last
      sibling only. */
  lemma SiblingStarts(tree: Tree, kids: seq<WloCollection>, prefix: string, j: nat, i: nat, depth: nat)
    requires j <= i < |kids|
    requires SiblingsFrom(tree, kids, prefix, j, depth).Some?
    ensures Branch(tree, kids[i], prefix, i == |kids| - 1, depth).Some?
    ensures prefix + BranchSymbol(i == |kids| - 1) + kids[i].title <= Branch(tree, kids[i], prefix, i == |kids| - 1, depth).value
  {
    SiblingsFromLater(tree, kids, prefix, j, i, depth);
    SiblingsFromStep(tree, kids, prefix, i, depth);
    BranchStarts(tree, kids[i], prefix, i == |kids| - 1, depth);
  }

  /** A run that is drawn from position j is drawn from every later position. */
  lemma SiblingsFromLater(tree: Tree, kids: seq<WloCollection>, prefix: string, j: nat, i: nat, depth: nat)
    requires j <= i <= |kids|
    requires SiblingsFrom(tree, kids, prefix, j, depth).Some?
    ensures SiblingsFrom(tree, kids, prefix, i, depth).Some?
  {
    var drawn := (k: nat) => k <= |kids| && SiblingsFrom(tree, kids, prefix, k, depth).Some?;
    forall k | j <= k < i && drawn(k) ensures drawn(k + 1) {
      SiblingsFromStep(tree, kids, prefix, k, depth);
    }
    StepsUp(drawn, j, i);
  }


  /** A run that is drawn draws its first branch and the rest of the run. */
  lemma SiblingsFromStep(tree: Tree, kids: seq<WloCollection>, prefix: string, j: nat, depth: nat)
    requires j < |kids| && SiblingsFrom(tree, kids, prefix, j, depth).Some?
    ensures Branch(tree, kids[j], prefix, j == |kids| - 1, depth).Some?
    ensures SiblingsFrom(tree, kids, prefix, j + 1, depth).Some?
  {
  }

  lemma PrefixOfConcat(a: string, b: string)
    ensures a <= a + b
  {
    assert (a + b)[..|a|] == a;
  }

  /** The collections a branch visits, in drawing order. */
  function VisitedBranch(tree: Tree, c: WloCollection, depth: nat): seq<WloCollection>
    decreases depth, 1
  {
    if depth == 0 then [] else [c] + VisitedFrom(tree, Kids(tree, c), 0, depth - 1)
  }

  function VisitedFrom(tree: Tree, kids: seq<WloCollection>, i: nat, depth: nat): seq<WloCollection>
    requires i <= |kids|
    decreases depth, 2, |kids| - i
  {
    if i == |kids| then [] else VisitedBranch(tree, kids[i], depth) + VisitedFrom(tree, kids, i + 1, depth)
  }

  /** Everything a branch visits is the branch's own collection or the child
      of a visited collection. */
  lemma {:induction false} VisitedParents(tree: Tree, c: WloCollection, depth: nat, w: WloCollection)
    requires w in VisitedBranch(tree, c, depth)
    ensures w == c || exists p :: p in VisitedBranch(tree, c, depth) && w in Kids(tree, p)
    decreases depth, 1
  {
    if w != c {
      var kids := Kids(tree, c);
      VisitedFromParents(tree, c, kids, 0, depth - 1, w);
    }
  }

  lemma {:induction false} VisitedFromParents(tree: Tree, parent: WloCollection, kids: seq<WloCollection>, i: nat, depth: nat, w: WloCollection)
    requires i <= |kids| && depth + 1 > 0
    requires kids == Kids(tree, parent)
    requires w in VisitedFrom(tree, kids, i, depth)
    ensures exists p :: p in VisitedBranch(tree, parent, depth + 1) && w in Kids(tree, p)
    decreases depth, 2, |kids| - i
  {
    var all := VisitedBranch(tree, parent, depth + 1);
    if w in VisitedBranch(tree, kids[i], depth) {
      VisitedParents(tree, kids[i], depth, w);
      SuffixOfVisited(tree, kids, 0, i, depth);
      if w == kids[i] {
        assert parent in all && w in Kids(tree, parent);
      } else {
        var p :| p in VisitedBranch(tree, kids[i], depth) && w in Kids(tree, p);
        assert p in all;
      }
    } else {
      VisitedFromParents(tree, parent, kids, i + 1, depth, w);
    }
  }

  /** A sibling's visited collections are visited by the parent as well. */
  lemma {:induction false} SuffixOfVisited(tree: Tree, kids: seq<WloCollection>, j: nat, i: nat, depth: nat)
    requires j <= i < |kids|
    ensures forall x :: x in VisitedBranch(tree, kids[i], depth) ==> x in VisitedFrom(tree, kids, j, depth)
    decreases i - j
  {
    if j < i {
      SuffixOfVisited(tree, kids, j + 1, i, depth);
    }
  }

  /** A collection is drawn only as a root or beneath a drawn collection whose
      refId is its parentId: one whose parent is never drawn never appears. */
  lemma {:induction false} DrawnOnlyBelowItsParent(cs: seq<WloCollection>, root: WloCollection, w: WloCollection)
    requires root in RootsOf(cs)
    requires w in VisitedBranch(Group(cs), root, |cs| + 1)
    ensures w == root || exists p :: p in VisitedBranch(Group(cs), root, |cs| + 1) && RefKey(p) == ParentKey(w) && w in cs
  {
    var tree := Group(cs);
    VisitedParents(tree, root, |cs| + 1, w);
    if w != root {
      var p :| p in VisitedBranch(tree, root, |cs| + 1) && w in Kids(tree, p);
      GroupFacts(cs, RefKey(p));
      ChildrenMembers(cs, RefKey(p), w);
    }
  }
}
