# Terraform structural patterns and the duplicated-variable inspection

This project models two pure pieces of the HCL/Terraform IDE plugin's
configuration analysis in Dafny, and proves properties about them.

- **The structural classifier** (`TerraformPatterns`). It decides whether a file is
  a Terraform configuration file, a `.tfvars` variables file or an override
  file. For a block it decides whether the block is a root block, a typed root
  block (`module`, `variable`, `output`, `resource`, `data`, `provider`,
  `terraform`, `locals`), a `backend` block inside a root `terraform` block, or a
  root `module` block with no usable `source`. It also tests whether a token is
  its block's name identifier and whether a property has a given name.
- **The duplicated-variable inspection** (`DuplicatedVariableInspection`). It
  visits a block. When the block is a root `variable` block outside override
  files and declares a name, the inspection collects the module's non-override
  variables with that name. It reports the block when there are two or more.

The syntax tree is immutable. A `Psi.Node` is an element with its chain of
ancestors up to its file (`FileNode` or `ChildNode(index, element, parent)`),
so no parent pointers are needed. The tree is taken to be well formed (one
element per child index of a parent), so two children of the same parent are
the same element iff they sit at the same child index. The name-identifier test
compares object identity in the plugin; here it compares positions.

Files:
- `text.dfy` (`Text`): suffix test, file-name extension, blank-string test.
- `psi.dfy` (`Psi`): files, blocks, properties, nodes, ancestors, property lookup.
- `filtering.dfy` (`Filtering`): sequence filter, and counting what it keeps by positions.
- `terraform_patterns.dfy` (`TerraformPatterns`): the patterns and what they mean.
- `duplicated_variable.dfy` (`DuplicatedVariableInspection`): the visitor and its properties.

Notes on the code:
- `ProviderRootBlock` is built with `withParent(TerraformConfigFile)` rather
  than `and(RootBlock)` like the other typed root patterns.
  `ProviderRootBlockIsTypedRoot` proves the two forms accept the same blocks.
- On zero candidates `visitBlock` returns silently; it asserts only when
  exactly one candidate is found.

## Model

| member | source | states |
|---|---|---|
| Text.Extension | src/kotlin/org/intellij/plugins/hcl/terraform/config/patterns/TerraformPatterns.kt:30 | The extension used by the `tfvars` test is absent iff the name has no '.'; otherwise it has no '.', and the name ends with '.' followed by it |
| Text.ExtensionAfterLastDot | src/kotlin/org/intellij/plugins/hcl/terraform/config/patterns/TerraformPatterns.kt:30 | For any stem and any dot-free text `e`, the extension of `stem + "." + e` is exactly `e` |
| Psi.SuperParent | src/kotlin/org/intellij/plugins/hcl/terraform/config/patterns/TerraformPatterns.kt:95 | The ancestor `level` steps up exists iff the node has at least `level` ancestors; it is on the node's ancestor chain, exactly `level` levels shallower, and in the same file |
| Psi.AncestorAtDepthUnique | src/kotlin/org/intellij/plugins/hcl/terraform/config/patterns/TerraformPatterns.kt:95 | Two ancestors of one node at the same depth are the same node, so `withSuperParent(level, …)` names a single ancestor |
| Psi.SuperParentIsTheAncestor | src/kotlin/org/intellij/plugins/hcl/terraform/config/patterns/TerraformPatterns.kt:95 | Any ancestor `level` levels above the node is exactly what the `level`-step lookup returns |
| Psi.FindProperty | src/kotlin/org/intellij/plugins/hcl/terraform/config/patterns/TerraformPatterns.kt:102 | The `source` lookup finds nothing iff no property has the name; a property it finds is in the body and has that name |
| TerraformPatterns.IsOverrideFileName | src/kotlin/org/intellij/plugins/hcl/terraform/config/patterns/TerraformPatterns.kt:39-45 | An accepted name ends with `override.tf` and either equals it or has '_' just before it; the index of that character is in range whenever the length differs from the suffix's |
| TerraformPatterns.OverrideNameIffStem | src/kotlin/org/intellij/plugins/hcl/terraform/config/patterns/TerraformPatterns.kt:39-45 | A name passes the override test iff it is `stem + "override.tf"` for a stem that is empty or ends with '_' |
| TerraformPatterns.OverrideNameExamples | src/kotlin/org/intellij/plugins/hcl/terraform/config/patterns/TerraformPatterns.kt:39-45 | `override.tf` and `main_override.tf` are accepted; `xoverride.tf`, `main.tf` and `override.tfvars` are rejected |
| TerraformPatterns.OverrideNameHasDefaultExtension | src/kotlin/org/intellij/plugins/hcl/terraform/config/patterns/TerraformPatterns.kt:27-46 | Every name passing the override test has extension `tf`, so it can never name a `tfvars` file |
| TerraformPatterns.FileKindsExclusive | src/kotlin/org/intellij/plugins/hcl/terraform/config/patterns/TerraformPatterns.kt:27-46 | No file is both a configuration file and a variables file; every override file is a configuration file, so it is never a variables file |
| TerraformPatterns.OverrideNamedTerraformFile | src/kotlin/org/intellij/plugins/hcl/terraform/config/patterns/TerraformPatterns.kt:35-46 | For an HCL file in the Terraform language, being an override file is exactly passing the override-name test |
| TerraformPatterns.MainIsConfigFile | src/kotlin/org/intellij/plugins/hcl/terraform/config/patterns/TerraformPatterns.kt:27-46 | `main.tf` is a configuration file and not an override file |
| TerraformPatterns.RootBlockIffConfigParent | src/kotlin/org/intellij/plugins/hcl/terraform/config/patterns/TerraformPatterns.kt:48-50 | A node is a root block iff it is a block whose immediate parent is a configuration file; the containing file of a root block is a configuration file |
| TerraformPatterns.TypedRootBlocksMeaning | src/kotlin/org/intellij/plugins/hcl/terraform/config/patterns/TerraformPatterns.kt:52-90 | Each of the module, variable, output, resource, data, terraform and locals patterns holds iff the node is a root block whose first unquoted label is that type |
| TerraformPatterns.ProviderRootBlockIsTypedRoot | src/kotlin/org/intellij/plugins/hcl/terraform/config/patterns/TerraformPatterns.kt:77-80 | The provider pattern, written against the parent file, accepts exactly the root blocks whose first label is `provider` |
| TerraformPatterns.TypedRootBlocksExclusive | src/kotlin/org/intellij/plugins/hcl/terraform/config/patterns/TerraformPatterns.kt:114-119 | A block that is a typed root block for two types has the same type in both: typed root patterns are mutually exclusive |
| TerraformPatterns.BackendMeaning | src/kotlin/org/intellij/plugins/hcl/terraform/config/patterns/TerraformPatterns.kt:92-95 | A backend is exactly a `backend` block whose grandparent is a root `terraform` block; a backend is never a root block, and it always lives in a configuration file |
| TerraformPatterns.SourceString | src/kotlin/org/intellij/plugins/hcl/terraform/config/patterns/TerraformPatterns.kt:102 | A `source` string is found iff the block has a body whose `source` lookup finds a property with a string-literal value, and then it is that literal's string |
| TerraformPatterns.ModuleWithEmptySourceCases | src/kotlin/org/intellij/plugins/hcl/terraform/config/patterns/TerraformPatterns.kt:97-105 | The empty-source pattern implies a root module block. Given a root module block, it holds with no body, with no `source` property, or with a non-string value; for a string value it holds iff the string is blank |
| TerraformPatterns.SourceStringExamples | src/kotlin/org/intellij/plugins/hcl/terraform/config/patterns/TerraformPatterns.kt:97-105 | `source = ""` and `source = " "` are flagged, `source = "./mod"` is not |
| TerraformPatterns.ModuleBlockInMainIsRoot | src/kotlin/org/intellij/plugins/hcl/terraform/config/patterns/TerraformPatterns.kt:48-55 | A `module` block placed directly in `main.tf` is a root module block, whatever its body |
| TerraformPatterns.MissingSourceExamples | src/kotlin/org/intellij/plugins/hcl/terraform/config/patterns/TerraformPatterns.kt:97-105 | A module block with no body, an empty body, or a non-string `source` is flagged |
| TerraformPatterns.ModuleInVariablesFileExample | src/kotlin/org/intellij/plugins/hcl/terraform/config/patterns/TerraformPatterns.kt:48-55 | A `module` block in a `.tfvars` file is not a root module block, so it is never flagged |
| TerraformPatterns.NameIdentifierUnique | src/kotlin/org/intellij/plugins/hcl/terraform/config/patterns/TerraformPatterns.kt:107-112 | Two children of the same block that both pass the name-identifier test both sit at the block's name-identifier child index |
| TerraformPatterns.BlockNameIdentifierMeaning | src/kotlin/org/intellij/plugins/hcl/terraform/config/patterns/TerraformPatterns.kt:107-112 | The name-identifier test fails when the parent is not a block; under a block it holds iff the element is at the block's name-identifier slot |
| TerraformPatterns.PropertyWithNameMeaning | src/kotlin/org/intellij/plugins/hcl/terraform/config/patterns/TerraformPatterns.kt:122-128 | The property-name pattern accepts a property node iff its name equals the given name, and it never accepts anything but a property |
| TerraformPatterns.PropertyWithNameAgreesWithLookup | src/kotlin/org/intellij/plugins/hcl/terraform/config/patterns/TerraformPatterns.kt:122-128 | The property an object's lookup finds for a name passes the property-name pattern, and when some property of the object passes it the lookup finds one |
| TerraformPatterns.TypeCategoryMeaning | src/kotlin/org/intellij/plugins/hcl/terraform/config/patterns/TerraformPatterns.kt:114-119 | The type dispatch names a typed category exactly when the block's first label is that category's type |
| TerraformPatterns.Classify | src/kotlin/org/intellij/plugins/hcl/terraform/config/patterns/TerraformPatterns.kt:48-105 | Across all categories at once: at most one typed category holds, any typed category implies root, empty-source implies module, a backend is neither root nor typed, and any match lies in a configuration file |
| TerraformPatterns.ClassifyAgreesWithTypedPatterns | src/kotlin/org/intellij/plugins/hcl/terraform/config/patterns/TerraformPatterns.kt:48-90 | The root category and each of the eight typed categories are present exactly when the corresponding pattern accepts the node |
| TerraformPatterns.ClassifyAgreesWithNestedPatterns | src/kotlin/org/intellij/plugins/hcl/terraform/config/patterns/TerraformPatterns.kt:92-105 | The backend and empty-source categories are present exactly when those patterns accept the node |
| TerraformPatterns.ClassifyVariableExample | src/kotlin/org/intellij/plugins/hcl/terraform/config/patterns/TerraformPatterns.kt:57-60 | A root `variable "x"` block in `main.tf` is in exactly the root and variable categories |
| Filtering.Filter | src/kotlin/org/intellij/plugins/hcl/terraform/config/inspection/TFDuplicatedVariableInspection.kt:41 | The filter keeps exactly the elements satisfying the predicate, each as often as in the input |
| Filtering.AtLeastTwoIffTwoPositions | src/kotlin/org/intellij/plugins/hcl/terraform/config/inspection/TFDuplicatedVariableInspection.kt:41-46 | The filter keeps two or more elements iff two different input positions satisfy the predicate |
| Filtering.AtLeastTwoIffAnother | src/kotlin/org/intellij/plugins/hcl/terraform/config/inspection/TFDuplicatedVariableInspection.kt:41-46 | In a repeat-free input containing a kept element, two or more are kept iff another element satisfies the predicate |
| DuplicatedVariableInspection.GetFixes | src/kotlin/org/intellij/plugins/hcl/terraform/config/inspection/TFDuplicatedVariableInspection.kt:51-57 | Neither the delete fix nor the rename fix is ever offered |
| DuplicatedVariableInspection.SameNamed | src/kotlin/org/intellij/plugins/hcl/terraform/config/inspection/TFDuplicatedVariableInspection.kt:41 | The collected declarations are exactly the module's variables whose second label is the name and whose file is not an override file, with their multiplicities |
| DuplicatedVariableInspection.VisitBlock | src/kotlin/org/intellij/plugins/hcl/terraform/config/inspection/TFDuplicatedVariableInspection.kt:33-48 | At most one problem is registered per visit. A problem is about the visited block, is a generic error with no fixes, and only concerns a root variable block outside override files. The assertion can fail only if the module's variables omit the block |
| DuplicatedVariableInspection.NotReportedWhenGuarded | src/kotlin/org/intellij/plugins/hcl/terraform/config/inspection/TFDuplicatedVariableInspection.kt:34-39 | Nothing is registered for a block that is not a root variable block, for a block of an override file, or for a block without a second label |
| DuplicatedVariableInspection.ReportedIffAtLeastTwo | src/kotlin/org/intellij/plugins/hcl/terraform/config/inspection/TFDuplicatedVariableInspection.kt:41-47 | A block passing the guards is reported iff two or more declarations are collected; the report is exactly `Variable '<name>' declared multiple times`, a generic error, no fixes |
| DuplicatedVariableInspection.AtLeastTwoIffTwoPositions | src/kotlin/org/intellij/plugins/hcl/terraform/config/inspection/TFDuplicatedVariableInspection.kt:41-46 | Two or more declarations are collected iff two different positions of the module hold non-override variables with the name |
| DuplicatedVariableInspection.ReportedIffSharedName | src/kotlin/org/intellij/plugins/hcl/terraform/config/inspection/TFDuplicatedVariableInspection.kt:41-47 | When the module lists each variable once and contains the block, the block is reported iff some other non-override variable of the module has its name |
| DuplicatedVariableInspection.AssertionHolds | src/kotlin/org/intellij/plugins/hcl/terraform/config/inspection/TFDuplicatedVariableInspection.kt:42-45 | When the module's variables contain the visited block, the collected declarations are never empty, a single one is the block itself, and the assertion never fails |
| DuplicatedVariableInspection.ReportSymmetric | src/kotlin/org/intellij/plugins/hcl/terraform/config/inspection/TFDuplicatedVariableInspection.kt:41-47 | If a block is reported, every root variable block of the module counted under the same name is reported too, with the same message |
| DuplicatedVariableInspection.MainDbHostCounts | src/kotlin/org/intellij/plugins/hcl/terraform/config/inspection/TFDuplicatedVariableInspection.kt:41 | A `variable "db_host"` block in `main.tf` is a root variable block and is counted under `db_host` |
| DuplicatedVariableInspection.OverrideDbHostDoesNotCount | src/kotlin/org/intellij/plugins/hcl/terraform/config/inspection/TFDuplicatedVariableInspection.kt:35-41 | A `variable "db_host"` block in `main_override.tf` lives in an override file and is not counted |
| DuplicatedVariableInspection.DbHostDuplicatesReported | src/kotlin/org/intellij/plugins/hcl/terraform/config/inspection/TFDuplicatedVariableInspection.kt:41-47 | With two `db_host` variables in `main.tf` and one in `main_override.tf`, both `main.tf` ones are reported |
| DuplicatedVariableInspection.DbHostOverrideNotReported | src/kotlin/org/intellij/plugins/hcl/terraform/config/inspection/TFDuplicatedVariableInspection.kt:35 | In that module the `main_override.tf` declaration is not reported |
| DuplicatedVariableInspection.LoneDbHostNotReported | src/kotlin/org/intellij/plugins/hcl/terraform/config/inspection/TFDuplicatedVariableInspection.kt:42-46 | A single `main.tf` declaration beside an override one is not reported |
| DuplicatedVariableInspection.SingleDbHostNotReported | src/kotlin/org/intellij/plugins/hcl/terraform/config/inspection/TFDuplicatedVariableInspection.kt:42-46 | A module whose only `db_host` declaration is the visited block reports nothing |
| DuplicatedVariableInspection.OverrideFileIsOverride | src/kotlin/org/intellij/plugins/hcl/terraform/config/patterns/TerraformPatterns.kt:35-46 | `main_override.tf` is an override file |

## Left out

- `TerraformSettingsPanel.java`: a settings UI with a file chooser and a background model reload. It is user interface and process plumbing, not analysis.
- The pattern library (`PlatformPatterns`, `PatternCondition`, `ProcessingContext`) is not reproduced. Each pattern is a plain predicate, `and` is `&&`, and `withSuperParent` is `Psi.SuperParent`.
- A file's own parent, its directory, is not modelled. `withSuperParent` past the file yields no ancestor, and no pattern used here accepts a directory.
- `withLanguage` and the "is an HCL file" class test are fields of `Psi.PsiFile`. Parsing is not modelled.
- `getTerraformModule` and `getDefinedVariables` are not part of this model. The module is a given sequence of variable blocks. The inspection takes no precondition about it; `AssertionHolds` and `ReportedIffSharedName` assume it contains the visited block.
- `Psi.Node`: a node is compared as a value, not by object identity. The tree is assumed well formed, with one element per child index of a parent, so value equality of nodes matches the plugin's identity test; `NameIdentifierUnique` and the `same[0] == block` test of `VisitBlock` rely on this, and a tree with two different elements at one child index is not modelled.
- `getNameElementUnquoted` unquoting: name elements are stored already unquoted.
- `Text.Extension`: the file extension is assumed to be the text after the last '.' of the name, with none when the name has no '.'. The platform's extension function is not part of this model.
- `Text.IsEmptyOrSpaces`: the platform's blank test is assumed to mean that every character is at most U+0020, which is what trimming removes. Strings are modelled as Unicode scalar values, the platform's as UTF-16 code units; every character this test and the name tests inspect is ASCII, so the answers agree. Its source is not part of this model.
- `Psi.FindProperty`: the object's property lookup is assumed to return the first property with the name. Its source is not part of this model.
- `TerraformFileType.DEFAULT_EXTENSION` and `TFVARS_EXTENSION` are not part of this model. They are the constants `tf` and `tfvars`.
- `ProblemsHolder.registerProblem` is modelled as the list of problems a visit returns.
- The `DeleteVariableFix` and `RenameVariableFix` bodies are unimplemented. `getFixes` never returns them, so only their names are modelled.
- `DuplicatedVariableInspection.VisitBlock`: the Kotlin `assert` is modelled as an `AssertionError` outcome, as it behaves with assertions enabled. With assertions disabled, that visit registers nothing.
- `createVisitor` and the inspection base class are registration plumbing and are not modelled.
- Determinism and freedom from side effects hold by construction, since every member is a pure function.
