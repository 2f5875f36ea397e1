/**
 An immutable view of the parsed HCL/Terraform syntax tree. A `Node` is an
 element together with its chain of ancestors up to the file that contains
 it, so parents are reached by walking down the datatype instead of through
 back-references. The tree is taken to be well formed: a parent holds one
 element per child index, so two children of the same parent are the same
 element iff they sit at the same child index.
 */
module Psi {
  import opened Text

  /** The language a file is parsed as; Terraform is a dialect of HCL and its
      files are HCL files too. */
  datatype Language = HclLanguage | TerraformLanguage | OtherLanguage

  /** A file on disk: the directory identifies it, the name carries the extension. */
  datatype VirtualFile = VirtualFile(directory: string, name: string)

  /** A parsed file: whether the parser produced an HCL file, its language and
      the file it was read from. */
  datatype PsiFile = PsiFile(isHclFile: bool, language: Language, virtualFile: VirtualFile)

  /** A property value: a quoted string literal (already unquoted) or anything
      else (numbers, booleans, heredocs, references, lists, objects). */
  datatype Expression = StringLiteral(value: string) | OtherExpression

  /** `name = value`; the value is absent in an incomplete property. */
  datatype Property = Property(name: string, value: Option<Expression>)

  /** The braced body of a block, as far as property lookup sees it. */
  datatype BlockObject = BlockObject(properties: seq<Property>)

  /** The kinds of element a node can hold. A block carries its name elements
      already unquoted (element 0 is the block type, element 1 the declared
      name), its body when it has one, and the child index of its name
      identifier when it has one. */
  datatype Element =
    | Block(nameElements: seq<string>, body: Option<BlockObject>, nameIdentifier: Option<nat>)
    | ObjectElement
    | PropertyElement(property: Property)
    | Token
    | OtherElement

  datatype Node =
    | FileNode(file: PsiFile)
    | ChildNode(index: nat, element: Element, parent: Node)

  /** The number of ancestors of a node; a file has none. */
  function Depth(n: Node): nat {
    match n
    case FileNode(_) => 0
    case ChildNode(_, _, p) => 1 + Depth(p)
  }

  /** The immediate parent; a file's own parent (its directory) is outside the tree. */
  function Parent(n: Node): (r: Option<Node>)
    ensures r.None? <==> n.FileNode?
    ensures r.Some? ==> Depth(r.value) + 1 == Depth(n)
  {
    match n
    case FileNode(_) => None
    case ChildNode(_, _, p) => Some(p)
  }

  /** The ancestor `level` steps up (level 0 is the node itself), or None when
      the chain ends at the file before that. */
  function SuperParent(n: Node, level: nat): (r: Option<Node>)
    ensures r.Some? <==> level <= Depth(n)
    ensures r.Some? ==> Depth(r.value) + level == Depth(n)
    ensures r.Some? ==> ContainingFile(r.value) == ContainingFile(n)
    ensures r.Some? ==> IsAncestor(r.value, n)
    decreases level
  {
    if level == 0 then Some(n)
    else match Parent(n)
      case None => None
      case Some(p) => SuperParent(p, level - 1)
  }

  /** `a` lies on the ancestor chain of `n` (a node is its own ancestor). */
  predicate IsAncestor(a: Node, n: Node)
    decreases n
  {
    a == n || (n.ChildNode? && IsAncestor(a, n.parent))
  }

  /** An ancestor is never deeper than the node. */
  lemma {:induction false} AncestorDepth(a: Node, n: Node)
    requires IsAncestor(a, n)
    ensures Depth(a) <= Depth(n)
    ensures Depth(a) == Depth(n) ==> a == n
    decreases n
  {
    if a != n {
      AncestorDepth(a, n.parent);
    }
  }

  /** The ancestor chain holds one node per depth. */
  lemma {:induction false} AncestorAtDepthUnique(a: Node, b: Node, n: Node)
    requires IsAncestor(a, n) && IsAncestor(b, n) && Depth(a) == Depth(b)
    ensures a == b
    decreases n
  {
    if a == n {
      AncestorDepth(b, n);
    } else if b == n {
      AncestorDepth(a, n);
    } else {
      AncestorAtDepthUnique(a, b, n.parent);
    }
  }

  /** `SuperParent` finds exactly the ancestor `level` steps up: any ancestor
      `level` levels shallower than the node is its result. */
  lemma SuperParentIsTheAncestor(n: Node, level: nat, a: Node)
    requires IsAncestor(a, n) && Depth(a) + level == Depth(n)
    ensures SuperParent(n, level) == Some(a)
  {
    var r := SuperParent(n, level);
    AncestorAtDepthUnique(a, r.value, n);
  }

  /** The file at the top of the node's ancestor chain (a file contains itself). */
  function ContainingFile(n: Node): PsiFile {
    match n
    case FileNode(f) => f
    case ChildNode(_, _, p) => ContainingFile(p)
  }

  predicate IsBlock(n: Node) {
    n.ChildNode? && n.element.Block?
  }

  /** The `i`-th name element of a block, unquoted, or None when the block has
      fewer name elements (or the node is not a block). */
  function NameElementUnquoted(n: Node, i: nat): Option<string> {
    if IsBlock(n) && i < |n.element.nameElements| then Some(n.element.nameElements[i]) else None
  }

  /** The position of the first property of an object body with the given
      name, or None when no property has that name. */
  function FirstNamed(properties: seq<Property>, name: string): (r: Option<nat>)
    ensures r.None? <==> forall k :: 0 <= k < |properties| ==> properties[k].name != name
    ensures r.Some? ==> r.value < |properties| && properties[r.value].name == name
    ensures r.Some? ==> forall j :: 0 <= j < r.value ==> properties[j].name != name
    decreases |properties|
  {
    if |properties| == 0 then None
    else if properties[0].name == name then Some(0)
    else match FirstNamed(properties[1..], name)
      case None => None
      case Some(k) => Some(k + 1)
  }

  /** The property lookup of an object body: the first property with the name. */
  function FindProperty(properties: seq<Property>, name: string): (r: Option<Property>)
    ensures r.None? <==> forall k :: 0 <= k < |properties| ==> properties[k].name != name
    ensures r.Some? ==> r.value in properties && r.value.name == name
  {
    match FirstNamed(properties, name)
    case None => None
    case Some(k) => Some(properties[k])
  }
}
