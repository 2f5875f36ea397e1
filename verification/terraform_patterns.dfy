/**
 The structural classifier of Terraform configuration: which files are
 configuration, variables (`.tfvars`) or override files, which blocks are
 root blocks of a given type, which nested block is a backend, which module
 block lacks a usable `source`, and which token names its block.

 Each pattern of the plugin is one predicate over a `Node`. A pattern
 combinator `withSuperParent(level, p)` becomes `WithSuperParent(n, level, p)`,
 `and` becomes `&&`, and the "is an HCLBlock" class test becomes `IsBlock`.
 */
module TerraformPatterns {
  import opened Text
  import opened Psi

  /** The extension of Terraform configuration files. */
  const DefaultExtension: string := "tf"
  /** The extension of Terraform variable-value files. */
  const TfvarsExtension: string := "tfvars"
  /** What an override file name must end with. */
  const OverrideSuffix: string := "override." + DefaultExtension

  // ---------------------------------------------------------------------------
  // Files

  /** An HCL file in the Terraform language whose extension is `tfvars`. */
  predicate TerraformVariablesFile(f: PsiFile) {
    && f.isHclFile
    && f.language == TerraformLanguage
    && Extension(f.virtualFile.name) == Some(TfvarsExtension)
  }

  /** An HCL file in the Terraform language that is not a variables file. */
  predicate TerraformConfigFile(f: PsiFile) {
    && f.isHclFile
    && f.language == TerraformLanguage
    && !TerraformVariablesFile(f)
  }

  /** The override-name test: the name ends with `override.tf`, and either that
      is the whole name or the character just before it is '_'. */
  function IsOverrideFileName(t: string): (b: bool)
    ensures b ==> EndsWith(t, OverrideSuffix)
    ensures b ==> |t| == |OverrideSuffix| || t[|t| - |OverrideSuffix| - 1] == '_'
  {
    if !EndsWith(t, OverrideSuffix) then false
    // the suffix test makes |t| >= |OverrideSuffix|, so the index below is in range
    else |t| == |OverrideSuffix| || t[|t| - |OverrideSuffix| - 1] == '_'
  }

  /** A configuration file whose name marks it as an override file. */
  predicate ConfigOverrideFile(f: PsiFile) {
    && f.isHclFile
    && TerraformConfigFile(f)
    && IsOverrideFileName(f.virtualFile.name)
  }

  /** What may stand before `override.tf` in an override file name: nothing,
      or anything that ends with '_'. */
  predicate IsOverrideStem(stem: string) {
    |stem| == 0 || stem[|stem| - 1] == '_'
  }

  /** The override-name test, stated as a decomposition of the name. */
  lemma OverrideNameIffStem(t: string)
    ensures IsOverrideFileName(t) <==> exists stem :: IsOverrideStem(stem) && t == stem + OverrideSuffix
  {
    if IsOverrideFileName(t) {
      var stem := t[..|t| - |OverrideSuffix|];
      assert t == stem + OverrideSuffix;
      assert IsOverrideStem(stem);
    }
    if exists stem :: IsOverrideStem(stem) && t == stem + OverrideSuffix {
      var stem :| IsOverrideStem(stem) && t == stem + OverrideSuffix;
      assert t[|t| - |OverrideSuffix|..] == OverrideSuffix;
      if |stem| > 0 {
        assert t[|t| - |OverrideSuffix| - 1] == stem[|stem| - 1];
      }
    }
  }

  /** The boundary cases of the override-name test. */
  lemma OverrideNameExamples()
    ensures IsOverrideFileName("override.tf")
    ensures IsOverrideFileName("main_override.tf")
    ensures !IsOverrideFileName("xoverride.tf")
    ensures !IsOverrideFileName("main.tf")
    ensures !IsOverrideFileName("override.tfvars")
  {
    assert "main_override.tf"[16 - 11..] == OverrideSuffix;
    assert "override.tf"[0..] == OverrideSuffix;
    assert "xoverride.tf"[1..] == OverrideSuffix;
  }

  /** A name that passes the override test has extension `tf`, so it can never
      name a variables file. */
  lemma OverrideNameHasDefaultExtension(t: string)
    requires IsOverrideFileName(t)
    ensures Extension(t) == Some(DefaultExtension)
  {
    var stem := t[..|t| - 3];
    assert t == stem + ['.'] + DefaultExtension;
    ExtensionAfterLastDot(stem, DefaultExtension);
  }

  /** No file is both a configuration file and a variables file; every
      override file is a configuration file and so never a variables file. */
  lemma FileKindsExclusive(f: PsiFile)
    ensures !(TerraformConfigFile(f) && TerraformVariablesFile(f))
    ensures ConfigOverrideFile(f) ==> TerraformConfigFile(f) && !TerraformVariablesFile(f)
  {
  }

  /** An HCL file in the Terraform language named as an override file is an
      override file: its name alone rules out the variables extension. */
  lemma OverrideNamedTerraformFile(f: PsiFile)
    requires f.isHclFile && f.language == TerraformLanguage
    ensures ConfigOverrideFile(f) <==> IsOverrideFileName(f.virtualFile.name)
  {
    if IsOverrideFileName(f.virtualFile.name) {
      OverrideNameHasDefaultExtension(f.virtualFile.name);
      assert DefaultExtension != TfvarsExtension;
    }
  }

  // ---------------------------------------------------------------------------
  // Pattern combinators over nodes

  /** The node `level` steps up exists and matches `p`. */
  predicate WithSuperParent(n: Node, level: nat, p: Node -> bool) {
    match SuperParent(n, level)
    case None => false
    case Some(a) => p(a)
  }

  predicate WithParent(n: Node, p: Node -> bool) {
    WithSuperParent(n, 1, p)
  }

  /** A node that is a configuration file. */
  predicate IsConfigFileNode(n: Node) {
    n.FileNode? && TerraformConfigFile(n.file)
  }

  /** The block-type test: the first unquoted name element equals `blockType`. */
  predicate HasBlockType(n: Node, blockType: string) {
    NameElementUnquoted(n, 0) == Some(blockType)
  }

  // ---------------------------------------------------------------------------
  // Blocks

  /** A block whose parent is a configuration file. */
  predicate RootBlock(n: Node) {
    IsBlock(n) && WithParent(n, IsConfigFileNode)
  }

  /** A root block of the given type; the shape shared by the typed patterns
      that are built as "root block and type". */
  predicate TypedRootBlock(n: Node, blockType: string) {
    IsBlock(n) && RootBlock(n) && HasBlockType(n, blockType)
  }

  predicate ModuleRootBlock(n: Node) { TypedRootBlock(n, "module") }
  predicate VariableRootBlock(n: Node) { TypedRootBlock(n, "variable") }
  predicate OutputRootBlock(n: Node) { TypedRootBlock(n, "output") }
  predicate ResourceRootBlock(n: Node) { TypedRootBlock(n, "resource") }
  predicate DataSourceRootBlock(n: Node) { TypedRootBlock(n, "data") }
  predicate TerraformRootBlock(n: Node) { TypedRootBlock(n, "terraform") }
  predicate LocalsRootBlock(n: Node) { TypedRootBlock(n, "locals") }

  /** Written directly against the parent file rather than through RootBlock. */
  predicate ProviderRootBlock(n: Node) {
    IsBlock(n) && WithParent(n, IsConfigFileNode) && HasBlockType(n, "provider")
  }

  /** A `backend` block whose ancestor two levels up (past the braces of the
      enclosing body) is a root `terraform` block. */
  predicate Backend(n: Node) {
    IsBlock(n) && HasBlockType(n, "backend") && WithSuperParent(n, 2, TerraformRootBlock)
  }

  /** The `source` string of a block: its body's first `source` property, when
      that property's value is a string literal. */
  function SourceString(n: Node): (r: Option<string>)
    requires IsBlock(n)
    ensures r.Some? ==> n.element.body.Some?
    ensures r.Some? ==> Property("source", Some(StringLiteral(r.value))) in n.element.body.value.properties
    ensures r.Some? <==>
      && n.element.body.Some?
      && var found := FindProperty(n.element.body.value.properties, "source");
         found.Some? && found.value.value.Some? && found.value.value.value.StringLiteral?
    ensures r.Some? ==>
      FindProperty(n.element.body.value.properties, "source") == Some(Property("source", Some(StringLiteral(r.value))))
  {
    match n.element.body
    case None => None
    case Some(obj) =>
      match FindProperty(obj.properties, "source")
      case None => None
      case Some(p) =>
        match p.value
        case Some(StringLiteral(s)) => Some(s)
        case _ => None
  }

  /** A root `module` block with no usable `source`: no body, no `source`
      property, a value that is not a string literal, or a blank string. */
  predicate ModuleWithEmptySource(n: Node) {
    && IsBlock(n)
    && ModuleRootBlock(n)
    && match SourceString(n)
       case None => true
       case Some(s) => IsEmptyOrSpaces(s)
  }

  /** A token that is the name identifier of the block it sits in; identity of
      children is their position under the same parent. */
  predicate IsBlockNameIdentifier(t: Node) {
    match t
    case FileNode(_) => false
    case ChildNode(i, _, parent) =>
      parent.ChildNode? && parent.element.Block? && parent.element.nameIdentifier == Some(i)
  }

  /** A property node with the given name. */
  predicate PropertyWithName(n: Node, name: string) {
    n.ChildNode? && n.element.PropertyElement? && n.element.property.name == name
  }

  // ---------------------------------------------------------------------------
  // What the patterns mean

  /** A root block is exactly a block sitting directly in a configuration file. */
  lemma RootBlockIffConfigParent(n: Node)
    ensures RootBlock(n) <==> IsBlock(n) && n.parent.FileNode? && TerraformConfigFile(n.parent.file)
    ensures RootBlock(n) ==> TerraformConfigFile(ContainingFile(n))
  {
  }

  /** Each typed root pattern is a root block whose type label is that type. */
  lemma TypedRootBlocksMeaning(n: Node)
    ensures ModuleRootBlock(n) <==> RootBlock(n) && NameElementUnquoted(n, 0) == Some("module")
    ensures VariableRootBlock(n) <==> RootBlock(n) && NameElementUnquoted(n, 0) == Some("variable")
    ensures OutputRootBlock(n) <==> RootBlock(n) && NameElementUnquoted(n, 0) == Some("output")
    ensures ResourceRootBlock(n) <==> RootBlock(n) && NameElementUnquoted(n, 0) == Some("resource")
    ensures DataSourceRootBlock(n) <==> RootBlock(n) && NameElementUnquoted(n, 0) == Some("data")
    ensures TerraformRootBlock(n) <==> RootBlock(n) && NameElementUnquoted(n, 0) == Some("terraform")
    ensures LocalsRootBlock(n) <==> RootBlock(n) && NameElementUnquoted(n, 0) == Some("locals")
  {
  }

  /** The provider pattern, though written against the parent file, is the
      same as "root block whose type label is provider". */
  lemma ProviderRootBlockIsTypedRoot(n: Node)
    ensures ProviderRootBlock(n) <==> TypedRootBlock(n, "provider")
  {
  }

  /** A block has one type, so at most one typed root pattern holds. */
  lemma TypedRootBlocksExclusive(n: Node, t1: string, t2: string)
    requires TypedRootBlock(n, t1) && TypedRootBlock(n, t2)
    ensures t1 == t2
  {
  }

  /** A backend block sits in the body of a root `terraform` block, so it is
      not itself a root block, and its file is a configuration file. */
  lemma BackendMeaning(n: Node)
    ensures Backend(n) <==>
      && IsBlock(n)
      && NameElementUnquoted(n, 0) == Some("backend")
      && n.parent.ChildNode?
      && TerraformRootBlock(n.parent.parent)
    ensures Backend(n) ==> !RootBlock(n)
    ensures Backend(n) ==> TerraformConfigFile(ContainingFile(n))
  {
    if Backend(n) {
      var g := SuperParent(n, 2).value;
      assert ContainingFile(g) == ContainingFile(n);
      RootBlockIffConfigParent(g);
    }
  }

  /** The cases of the empty-source test for a root module block. */
  lemma ModuleWithEmptySourceCases(n: Node)
    ensures ModuleWithEmptySource(n) ==> ModuleRootBlock(n)
    ensures ModuleRootBlock(n) && n.element.body.None? ==> ModuleWithEmptySource(n)
    ensures ModuleRootBlock(n) && n.element.body.Some? ==>
      match FindProperty(n.element.body.value.properties, "source")
      case None => ModuleWithEmptySource(n)
      case Some(Property(_, Some(StringLiteral(s)))) => ModuleWithEmptySource(n) <==> IsEmptyOrSpaces(s)
      case Some(_) => ModuleWithEmptySource(n)
  {
  }

  const MainFile: PsiFile := PsiFile(true, TerraformLanguage, VirtualFile("/project", "main.tf"))

  /** `main.tf` is a configuration file. */
  lemma MainIsConfigFile()
    ensures TerraformConfigFile(MainFile)
    ensures !ConfigOverrideFile(MainFile)
  {
    assert "main.tf" == "main" + ['.'] + DefaultExtension;
    ExtensionAfterLastDot("main", DefaultExtension);
  }

  /** A root module block in `main.tf` with the given body. */
  function ModuleBlockInMain(body: Option<BlockObject>): Node {
    ChildNode(0, Block(["module", "m"], body, Some(1)), FileNode(MainFile))
  }

  /** A root module block in `main.tf` whose body sets `source` to `value`. */
  function ModuleWithSource(value: Expression): Node {
    ModuleBlockInMain(Some(BlockObject([Property("source", Some(value))])))
  }

  /** The module block of the examples is a root module block, whatever its body. */
  lemma ModuleBlockInMainIsRoot(body: Option<BlockObject>)
    ensures ModuleRootBlock(ModuleBlockInMain(body))
  {
    MainIsConfigFile();
  }

  /** An empty or blank source is flagged, a path is not. */
  lemma SourceStringExamples()
    ensures ModuleWithEmptySource(ModuleWithSource(StringLiteral("")))
    ensures ModuleWithEmptySource(ModuleWithSource(StringLiteral(" ")))
    ensures !ModuleWithEmptySource(ModuleWithSource(StringLiteral("./mod")))
  {
    ModuleBlockInMainIsRoot(Some(BlockObject([Property("source", Some(StringLiteral("")))])));
    ModuleBlockInMainIsRoot(Some(BlockObject([Property("source", Some(StringLiteral(" ")))])));
    assert SourceString(ModuleWithSource(StringLiteral(""))) == Some("");
    assert SourceString(ModuleWithSource(StringLiteral(" "))) == Some(" ");
    assert SourceString(ModuleWithSource(StringLiteral("./mod"))) == Some("./mod");
    assert "./mod"[0] == '.';
  }

  /** A missing body, a missing `source` and a non-string `source` are flagged. */
  lemma MissingSourceExamples()
    ensures ModuleWithEmptySource(ModuleBlockInMain(None))
    ensures ModuleWithEmptySource(ModuleBlockInMain(Some(BlockObject([]))))
    ensures ModuleWithEmptySource(ModuleWithSource(OtherExpression))
  {
    ModuleBlockInMainIsRoot(None);
    ModuleBlockInMainIsRoot(Some(BlockObject([])));
    ModuleBlockInMainIsRoot(Some(BlockObject([Property("source", Some(OtherExpression))])));
  }

  /** A module block in a variables file is not a root module block. */
  lemma ModuleInVariablesFileExample()
    ensures !ModuleWithEmptySource(
      ChildNode(0, Block(["module", "m"], None, None),
                FileNode(PsiFile(true, TerraformLanguage, VirtualFile("/project", "prod.tfvars")))))
  {
    assert "prod.tfvars" == "prod" + ['.'] + TfvarsExtension;
    ExtensionAfterLastDot("prod", TfvarsExtension);
  }

  /** A block has at most one name identifier among its children. */
  lemma NameIdentifierUnique(t1: Node, t2: Node)
    requires IsBlockNameIdentifier(t1) && IsBlockNameIdentifier(t2)
    requires t1.parent == t2.parent
    ensures t1.index == t2.index
  {
  }

  /** The name-identifier test fails for a child of anything but a block, and
      holds of a block's child exactly at the designated slot. */
  lemma BlockNameIdentifierMeaning(t: Node)
    ensures t.FileNode? || !IsBlock(t.parent) ==> !IsBlockNameIdentifier(t)
    ensures t.ChildNode? && IsBlock(t.parent) ==>
            (IsBlockNameIdentifier(t) <==> t.parent.element.nameIdentifier == Some(t.index))
  {
  }

  /** The property-name test accepts a property node exactly under its own name. */
  lemma PropertyWithNameMeaning(n: Node, name: string)
    ensures forall p :: n.ChildNode? && n.element == PropertyElement(p) ==> (PropertyWithName(n, name) <==> p.name == name)
    ensures n.FileNode? || !n.element.PropertyElement? ==> !PropertyWithName(n, name)
  {
  }

  /** The property pattern agrees with an object's property lookup: the
      property the lookup finds passes the pattern, and when some property of
      the object passes it, the lookup finds one. */
  lemma PropertyWithNameAgreesWithLookup(properties: seq<Property>, name: string, i: nat, parent: Node)
    ensures FindProperty(properties, name).Some? ==>
      PropertyWithName(ChildNode(i, PropertyElement(FindProperty(properties, name).value), parent), name)
    ensures (exists q :: q in properties && PropertyWithName(ChildNode(i, PropertyElement(q), parent), name)) ==>
      FindProperty(properties, name).Some?
  {
    if exists q :: q in properties && PropertyWithName(ChildNode(i, PropertyElement(q), parent), name) {
      var q :| q in properties && PropertyWithName(ChildNode(i, PropertyElement(q), parent), name);
      var k :| 0 <= k < |properties| && properties[k] == q;
      assert properties[k].name == name;
    }
  }

  // ---------------------------------------------------------------------------
  // All categories of a node at once

  /** The structural categories a block can fall into; a node may be in several. */
  datatype Category =
    | Root
    | ModuleBlock | VariableBlock | OutputBlock | ResourceBlock | DataSourceBlock
    | ProviderBlock | TerraformBlock | LocalsBlock
    | BackendBlock
    | EmptySourceModule

  /** The categories that fix a root block's type. */
  const TypedCategories: set<Category> :=
    {ModuleBlock, VariableBlock, OutputBlock, ResourceBlock, DataSourceBlock,
     ProviderBlock, TerraformBlock, LocalsBlock}

  /** The typed category named by a block's type label, if any. */
  function TypeCategory(n: Node): (c: Option<Category>)
    ensures c.Some? ==> c.value in TypedCategories
  {
    if HasBlockType(n, "module") then Some(ModuleBlock)
    else if HasBlockType(n, "variable") then Some(VariableBlock)
    else if HasBlockType(n, "output") then Some(OutputBlock)
    else if HasBlockType(n, "resource") then Some(ResourceBlock)
    else if HasBlockType(n, "data") then Some(DataSourceBlock)
    else if HasBlockType(n, "provider") then Some(ProviderBlock)
    else if HasBlockType(n, "terraform") then Some(TerraformBlock)
    else if HasBlockType(n, "locals") then Some(LocalsBlock)
    else None
  }

  /** The categories of a node, found by dispatching on its type label. */
  function Classify(n: Node): (r: set<Category>)
    ensures forall c1, c2 :: c1 in r && c2 in r && c1 in TypedCategories && c2 in TypedCategories ==> c1 == c2
    ensures r * TypedCategories != {} ==> Root in r
    ensures EmptySourceModule in r ==> ModuleBlock in r
    ensures BackendBlock in r ==> Root !in r && r * TypedCategories == {}
    ensures r != {} ==> IsBlock(n) && TerraformConfigFile(ContainingFile(n))
  {
    BackendMeaning(n);
    RootBlockIffConfigParent(n);
    (if RootBlock(n) then
       {Root}
       + (match TypeCategory(n) case Some(c) => {c} case None => {})
       + (if ModuleWithEmptySource(n) then {EmptySourceModule} else {})
     else {})
    + (if Backend(n) then {BackendBlock} else {})
  }

  /** The dispatch names a typed category exactly for its own type label. */
  lemma TypeCategoryMeaning(n: Node)
    ensures TypeCategory(n) == Some(ModuleBlock) <==> HasBlockType(n, "module")
    ensures TypeCategory(n) == Some(VariableBlock) <==> HasBlockType(n, "variable")
    ensures TypeCategory(n) == Some(OutputBlock) <==> HasBlockType(n, "output")
    ensures TypeCategory(n) == Some(ResourceBlock) <==> HasBlockType(n, "resource")
    ensures TypeCategory(n) == Some(DataSourceBlock) <==> HasBlockType(n, "data")
    ensures TypeCategory(n) == Some(ProviderBlock) <==> HasBlockType(n, "provider")
    ensures TypeCategory(n) == Some(TerraformBlock) <==> HasBlockType(n, "terraform")
    ensures TypeCategory(n) == Some(LocalsBlock) <==> HasBlockType(n, "locals")
  {
  }

  /** The dispatch agrees with the root and typed root patterns one by one. */
  lemma ClassifyAgreesWithTypedPatterns(n: Node)
    ensures Root in Classify(n) <==> RootBlock(n)
    ensures ModuleBlock in Classify(n) <==> ModuleRootBlock(n)
    ensures VariableBlock in Classify(n) <==> VariableRootBlock(n)
    ensures OutputBlock in Classify(n) <==> OutputRootBlock(n)
    ensures ResourceBlock in Classify(n) <==> ResourceRootBlock(n)
    ensures DataSourceBlock in Classify(n) <==> DataSourceRootBlock(n)
    ensures ProviderBlock in Classify(n) <==> ProviderRootBlock(n)
    ensures TerraformBlock in Classify(n) <==> TerraformRootBlock(n)
    ensures LocalsBlock in Classify(n) <==> LocalsRootBlock(n)
  {
    BackendMeaning(n);
    TypeCategoryMeaning(n);
  }

  /** The dispatch agrees with the backend and empty-source patterns. */
  lemma ClassifyAgreesWithNestedPatterns(n: Node)
    ensures BackendBlock in Classify(n) <==> Backend(n)
    ensures EmptySourceModule in Classify(n) <==> ModuleWithEmptySource(n)
  {
    BackendMeaning(n);
  }

  /** A root `variable "x"` block in `main.tf` is a root variable block and
      nothing else. */
  lemma ClassifyVariableExample()
    ensures Classify(ChildNode(0, Block(["variable", "x"], None, Some(1)), FileNode(MainFile)))
            == {Root, VariableBlock}
  {
    var n := ChildNode(0, Block(["variable", "x"], None, Some(1)), FileNode(MainFile));
    MainIsConfigFile();
    RootBlockIffConfigParent(n);
    assert NameElementUnquoted(n, 0) == Some("variable");
    assert SuperParent(n, 2).None?;
  }
}
