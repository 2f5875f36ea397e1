/**
 The inspection that reports a root `variable` block whose declared name is
 shared by another non-override variable of the same Terraform module.

 The module is given as the sequence of variable blocks it defines, in the
 order the module lists them. The inspection visits one block at a time.
 */
module DuplicatedVariableInspection {
  import opened Text
  import opened Psi
  import opened TerraformPatterns
  import Filtering

  datatype ProblemHighlightType = GenericError

  /** The quick fixes declared for the inspection; neither is implemented. */
  datatype QuickFix = DeleteVariableFix | RenameVariableFix

  /** One reported problem: the element, its description, how it is
      highlighted, and the fixes offered. */
  datatype Problem = Problem(element: Node, description: string,
                             highlight: ProblemHighlightType, fixes: seq<QuickFix>)

  /** What visiting a block ends in: the problems it registered, or a failed
      internal assertion (with assertions enabled). */
  datatype VisitResult = Registered(problems: seq<Problem>) | AssertionError

  /** The fixes offered with a report: the fix list is switched off, so none. */
  function GetFixes(): (fixes: seq<QuickFix>)
    ensures DeleteVariableFix !in fixes && RenameVariableFix !in fixes
  {
    if true then [] else [DeleteVariableFix, RenameVariableFix]
  }

  /** The description of a duplicate declaration. */
  function DuplicateMessage(name: string): string {
    "Variable '" + name + "' declared multiple times"
  }

  /** A declaration that counts towards a clash on `name`: its second name
      element is `name` and it does not live in an override file. */
  predicate IsCandidate(name: string, v: Node) {
    NameElementUnquoted(v, 1) == Some(name) && !ConfigOverrideFile(ContainingFile(v))
  }

  function CandidateFor(name: string): Node -> bool {
    v => IsCandidate(name, v)
  }

  /** The module's variables that count towards a clash on `name`, in order. */
  function SameNamed(name: string, variables: seq<Node>): (same: seq<Node>)
    ensures |same| <= |variables|
    ensures forall v :: v in same <==> v in variables && IsCandidate(name, v)
    ensures forall v :: multiset(same)[v] == if IsCandidate(name, v) then multiset(variables)[v] else 0
  {
    Filtering.Filter(CandidateFor(name), variables)
  }

  /** Visiting one block: skip anything but a root variable block, skip blocks
      of override files and blocks without a declared name; otherwise collect
      the same-named declarations and report the block when there are two or
      more. */
  function VisitBlock(block: Node, variables: seq<Node>): (r: VisitResult)
    ensures r.Registered? ==> |r.problems| <= 1
    ensures r.Registered? && |r.problems| == 1 ==>
      && r.problems[0].element == block
      && r.problems[0].highlight == GenericError
      && r.problems[0].fixes == []
      && VariableRootBlock(block)
      && !ConfigOverrideFile(ContainingFile(block))
    ensures r.AssertionError? ==> block !in variables
  {
    if !VariableRootBlock(block) then Registered([])
    else if ConfigOverrideFile(ContainingFile(block)) then Registered([])
    else match NameElementUnquoted(block, 1)
      case None => Registered([])
      case Some(name) =>
        var same := SameNamed(name, variables);
        if |same| == 0 then Registered([])
        else if |same| == 1 then
          if same[0] == block then Registered([]) else AssertionError
        else Registered([Problem(block, DuplicateMessage(name), GenericError, GetFixes())])
  }

  /** The block was reported as declared multiple times. */
  predicate Reported(block: Node, variables: seq<Node>) {
    var r := VisitBlock(block, variables);
    r.Registered? && |r.problems| > 0
  }

  // ---------------------------------------------------------------------------
  // Properties

  /** The guards: nothing is reported for a block that is not a root variable
      block, for a block of an override file, or for a block with no name. */
  lemma NotReportedWhenGuarded(block: Node, variables: seq<Node>)
    ensures !VariableRootBlock(block) ==> VisitBlock(block, variables) == Registered([])
    ensures ConfigOverrideFile(ContainingFile(block)) ==> VisitBlock(block, variables) == Registered([])
    ensures NameElementUnquoted(block, 1).None? ==> VisitBlock(block, variables) == Registered([])
  {
  }

  /** A block passing the guards is reported exactly when at least two of the
      module's declarations count towards its name, and the report names it. */
  lemma ReportedIffAtLeastTwo(block: Node, variables: seq<Node>, name: string)
    requires VariableRootBlock(block) && !ConfigOverrideFile(ContainingFile(block))
    requires NameElementUnquoted(block, 1) == Some(name)
    ensures Reported(block, variables) <==> |SameNamed(name, variables)| >= 2
    ensures Reported(block, variables) ==>
      VisitBlock(block, variables).problems == [Problem(block, "Variable '" + name + "' declared multiple times", GenericError, [])]
  {
  }

  /** The number of counting declarations, stated over positions: there are
      at least two exactly when two different positions of the module hold
      counting declarations. */
  lemma AtLeastTwoIffTwoPositions(name: string, variables: seq<Node>)
    ensures |SameNamed(name, variables)| >= 2 <==>
      exists i, j :: 0 <= i < j < |variables| && IsCandidate(name, variables[i]) && IsCandidate(name, variables[j])
  {
    Filtering.AtLeastTwoIffTwoPositions(CandidateFor(name), variables);
    var p := CandidateFor(name);
    assert forall i :: 0 <= i < |variables| ==> p(variables[i]) == IsCandidate(name, variables[i]);
  }

  /** The module lists each declaration once. */
  predicate Distinct(variables: seq<Node>) {
    forall i, j :: 0 <= i < j < |variables| ==> variables[i] != variables[j]
  }

  /** When the module lists each declaration once and contains the visited
      block, the block is reported exactly when some OTHER declaration of the
      module counts towards its name. */
  lemma ReportedIffSharedName(block: Node, variables: seq<Node>, name: string)
    requires VariableRootBlock(block) && !ConfigOverrideFile(ContainingFile(block))
    requires NameElementUnquoted(block, 1) == Some(name)
    requires block in variables && Distinct(variables)
    ensures Reported(block, variables) <==>
      exists other :: other in variables && other != block && IsCandidate(name, other)
  {
    var p := CandidateFor(name);
    assert p(block);
    Filtering.AtLeastTwoIffAnother(p, variables, block);
    ReportedIffAtLeastTwo(block, variables, name);
    assert forall y :: p(y) == IsCandidate(name, y);
  }

  /** The internal assertion cannot fail when the module's variables contain
      the visited block: the block always counts towards its own name, so the
      collected declarations are never empty, and a single one is the block. */
  lemma AssertionHolds(block: Node, variables: seq<Node>, name: string)
    requires VariableRootBlock(block) && !ConfigOverrideFile(ContainingFile(block))
    requires NameElementUnquoted(block, 1) == Some(name)
    requires block in variables
    ensures VisitBlock(block, variables).Registered?
    ensures |SameNamed(name, variables)| >= 1
    ensures |SameNamed(name, variables)| == 1 ==> SameNamed(name, variables) == [block]
  {
    var same := SameNamed(name, variables);
    assert block in same;
    if |same| == 1 {
      assert same[0] == block;
    }
  }

  /** Reports are symmetric: when one declaration is reported, every other
      root variable declaration counting towards the same name is reported
      too when visited, since both collect the same declarations. */
  lemma ReportSymmetric(a: Node, b: Node, variables: seq<Node>, name: string)
    requires Reported(a, variables)
    requires NameElementUnquoted(a, 1) == Some(name)
    requires VariableRootBlock(b) && IsCandidate(name, b)
    ensures Reported(b, variables)
    ensures VisitBlock(b, variables).problems[0].description == VisitBlock(a, variables).problems[0].description
  {
    ReportedIffAtLeastTwo(a, variables, name);
    ReportedIffAtLeastTwo(b, variables, name);
  }

  // ---------------------------------------------------------------------------
  // A worked example

  const OverrideFile: PsiFile := PsiFile(true, TerraformLanguage, VirtualFile("/project", "main_override.tf"))

  /** `main_override.tf` is an override file. */
  lemma OverrideFileIsOverride()
    ensures ConfigOverrideFile(OverrideFile)
  {
    OverrideNameExamples();
    OverrideNamedTerraformFile(OverrideFile);
  }

  /** A `variable "db_host"` block at child position `index` of `file`. */
  function DbHostIn(index: nat, file: PsiFile): Node {
    ChildNode(index, Block(["variable", "db_host"], None, Some(1)), FileNode(file))
  }

  /** A `db_host` declaration in `main.tf` is a root variable block and counts. */
  lemma MainDbHostCounts(index: nat)
    ensures VariableRootBlock(DbHostIn(index, MainFile))
    ensures IsCandidate("db_host", DbHostIn(index, MainFile))
  {
    MainIsConfigFile();
    RootBlockIffConfigParent(DbHostIn(index, MainFile));
  }

  /** A `db_host` declaration in `main_override.tf` does not count. */
  lemma OverrideDbHostDoesNotCount()
    ensures ConfigOverrideFile(ContainingFile(DbHostIn(0, OverrideFile)))
    ensures !IsCandidate("db_host", DbHostIn(0, OverrideFile))
  {
    OverrideFileIsOverride();
  }

  /** Two `db_host` declarations in `main.tf` and a third in
      `main_override.tf`: both `main.tf` declarations are reported. */
  lemma DbHostDuplicatesReported()
    ensures Reported(DbHostIn(0, MainFile), [DbHostIn(0, MainFile), DbHostIn(1, MainFile), DbHostIn(0, OverrideFile)])
    ensures Reported(DbHostIn(1, MainFile), [DbHostIn(0, MainFile), DbHostIn(1, MainFile), DbHostIn(0, OverrideFile)])
  {
    var all := [DbHostIn(0, MainFile), DbHostIn(1, MainFile), DbHostIn(0, OverrideFile)];
    MainDbHostCounts(0);
    MainDbHostCounts(1);
    AtLeastTwoIffTwoPositions("db_host", all);
    assert IsCandidate("db_host", all[0]) && IsCandidate("db_host", all[1]);
    ReportedIffAtLeastTwo(all[0], all, "db_host");
    ReportedIffAtLeastTwo(all[1], all, "db_host");
  }

  /** In the same module the override declaration itself is not reported. */
  lemma DbHostOverrideNotReported()
    ensures !Reported(DbHostIn(0, OverrideFile), [DbHostIn(0, MainFile), DbHostIn(1, MainFile), DbHostIn(0, OverrideFile)])
  {
    OverrideDbHostDoesNotCount();
    NotReportedWhenGuarded(DbHostIn(0, OverrideFile), [DbHostIn(0, MainFile), DbHostIn(1, MainFile), DbHostIn(0, OverrideFile)]);
  }

  /** A single `main.tf` declaration beside an override one is not reported. */
  lemma LoneDbHostNotReported()
    ensures !Reported(DbHostIn(0, MainFile), [DbHostIn(0, MainFile), DbHostIn(0, OverrideFile)])
  {
    var pair := [DbHostIn(0, MainFile), DbHostIn(0, OverrideFile)];
    MainDbHostCounts(0);
    OverrideDbHostDoesNotCount();
    AtLeastTwoIffTwoPositions("db_host", pair);
    assert !IsCandidate("db_host", pair[1]);
    ReportedIffAtLeastTwo(pair[0], pair, "db_host");
  }

  /** A module with a single `db_host` declaration reports nothing. */
  lemma SingleDbHostNotReported()
    ensures !Reported(DbHostIn(0, MainFile), [DbHostIn(0, MainFile)])
  {
    MainDbHostCounts(0);
    AssertionHolds(DbHostIn(0, MainFile), [DbHostIn(0, MainFile)], "db_host");
  }
}
