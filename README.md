# Binary package-ID computation for a dependency-graph node

This project models, in Dafny, how Conan computes the binary package ID of one
node of the dependency graph (`compute_package_id` and
`run_validate_package_id`).

The computation runs in this order:

1. Read the five default package-id modes from the global configuration.
   Unset keys fall back to `semver_mode`, `minor_mode`, `full_mode`,
   `minor_mode` and None.
2. Walk `node.transitive_deps` in order. Each requirement deduces its own
   `package_id_mode`, and the deduced mode is stored on the requirement.
3. Every requirement whose mode is not None becomes a `RequirementInfo`. It
   carries the dependency's reference, the dependency's package ID and the
   deduced mode. It goes into the build-requirements map when the requirement
   is a build requirement, and into the host map otherwise.
4. Build the information record (`ConanInfo`) and store a clone of it as
   `original_info`. A `ConanException` raised while copying the options is
   re-raised with the recipe's name in front.
5. Run the recipe's optional `validate_build`. An invalid configuration
   raised there becomes `node.cant_build`.
6. Run `validate`. An invalid configuration raised there is recorded in
   `info.invalid`.
7. Run `package_id`, which may narrow the record, then `info.validate()`.
8. Hash the final record into `node.package_id`.

Layout:

- `wrappers.dfy`: the `Option`, `Result` and `Outcome` datatypes used across the model.
- `ordered_dict.dfy`: an insertion-ordered dictionary, written as a key sequence plus a map.
- `graph.dfy`: the entities.
  - Requirements, recipes and nodes are classes, because the computation assigns their fields.
  - The information record is a value.
  - Each recipe has a ghost `trace` that records, in order, the steps taken on it and the record each step saw.
- `compute_pid.dfy`: the operations.
  - The imperative operations are methods.
  - Each method is proved against a specification function: `Partition`, `ValidatePackageIdRun`, `ValidateBuildRun` or `HooksRun`.
  - The lemmas prove what these functions guarantee.

## Model

| member | source | states |
|---|---|---|
| `ComputePid.ReadModes` | conans/client/graph/compute_pid.py:14-19 | each default mode is the configured value when its key is set; otherwise it is semver_mode (unknown), minor_mode (non-embed), full_mode (embed), minor_mode (python) or None (build) |
| `Graph.Require.DeducePackageIdMode` | conans/client/graph/compute_pid.py:29-30 | the requirement's stored mode becomes the deduction's result for the consumer's package type, the dependency node and the four default modes |
| `ComputePid.PartitionRequirements` | conans/client/graph/compute_pid.py:25-37 | after the loop, every requirement holds its deduced mode, and the two maps are exactly the specification `Partition` of the entries under those modes |
| `ComputePid.PartitionKeys` | conans/client/graph/compute_pid.py:25-37 | both maps are well-formed ordered dictionaries; each map's key order is `transitive_deps` order restricted to the requirements it keeps (the reference `Kept`) |
| `ComputePid.KeptHas` | conans/client/graph/compute_pid.py:31-37 | a requirement is kept for a map if and only if some entry holds it with a non-None mode and that map's build flag |
| `ComputePid.PartitionPlacement` | conans/client/graph/compute_pid.py:31-37 | an entry with mode None is in neither map; otherwise it is in `build_data` exactly when it is a build requirement and in `data` otherwise, never in both, with the dependency's reference, package ID and the deduced mode |
| `ComputePid.PartitionOnlyKept` | conans/client/graph/compute_pid.py:31-37 | a key is in `data` (or `build_data`) if and only if an entry holds it with a non-None mode and build flag false (or true); no key is in both maps |
| `ComputePid.MakeInfo` | conans/client/graph/compute_pid.py:39-52 | a failed options copy yields `ConanException("<recipe>: <message>")`; otherwise the record holds both maps, the copied settings, options and conf, and python requires with the python mode, and is not marked invalid |
| `ComputePid.BuildConanInfo` | conans/client/graph/compute_pid.py:14-52 | the stored modes are the deduced ones; the result is the record `MakeInfo` builds from the partition under those modes and the configured python mode |
| `ComputePid.RunValidateBuild` | conans/client/graph/compute_pid.py:55-61 | the outcome, the new `cant_build` and the recorded step are those of the specification `ValidateBuildRun` |
| `ComputePid.RunValidatePackageId` | conans/client/graph/compute_pid.py:69-85 | the outcome, the new information record and the recorded steps are those of the specification `ValidatePackageIdRun` |
| `ComputePid.ValidatePackageIdOrder` | conans/client/graph/compute_pid.py:69-85 | the steps run in the order `validate`, `package_id`, `info.validate()`, each at most once; the first step sees the record as handed in; a defined `validate` runs first |
| `ComputePid.ValidatePackageIdEnds` | conans/client/graph/compute_pid.py:79-85 | a successful run ends with `info.validate()`, and its result is the final record |
| `ComputePid.ValidatePackageIdOutcome` | conans/client/graph/compute_pid.py:71-83 | the run succeeds if and only if `validate` raises nothing other than an invalid configuration and `package_id` raises nothing at all; a raised error names its method and nothing runs after it |
| `ComputePid.ValidateRecordsInvalid` | conans/client/graph/compute_pid.py:74-83 | an invalid configuration from `validate` is in `info.invalid` when the next step starts; `info.validate()` sees the record as a narrowing `package_id` left it |
| `ComputePid.ValidateBuildRecordsCantBuild` | conans/client/graph/compute_pid.py:55-63 | an invalid configuration from `validate_build` becomes `cant_build`, and otherwise `cant_build` is unchanged; any other error from it stops the run after one step; the run succeeds if and only if neither `validate_build` nor `validate` raises anything other than an invalid configuration and `package_id` raises nothing at all |
| `ComputePid.HooksOrder` | conans/client/graph/compute_pid.py:53-66 | all steps run in the fixed order `validate_build`, `validate`, `package_id`, `info.validate()`, hashing, each at most once; the first step sees the record as built |
| `ComputePid.HooksPackageId` | conans/client/graph/compute_pid.py:63-66 | a package ID is assigned if and only if the run succeeds; hashing is the last step, it comes right after `info.validate()`, and its result is the hash of the final record |
| `ComputePid.ValidateInvalidSeenLater` | conans/client/graph/compute_pid.py:70-77 | when `validate` raises an invalid configuration, the step after it sees the record marked invalid |
| `ComputePid.RunHooksAndHash` | conans/client/graph/compute_pid.py:47-66 | `original_info` is the record as built; the outcome, final record, steps, `cant_build` and package ID are those of the specification `HooksRun` |
| `ComputePid.ComputePackageId` | conans/client/graph/compute_pid.py:8-66 | all modes are deduced and stored. If the options copy fails, the error is returned and the recipe and node are left unchanged. Otherwise the new state is the one `HooksRun` gives for the built record |

## Left out

- The tests in `conans/test/functional/command/test_install_deploy.py` are not part of this model.
- `Requirement.deduce_package_id_mode`: its decision is the parameter `deduce`; only the result it stores is modelled.
- `ConanInfo.package_id()`: the hash is the parameter `hash`.
- `ConanInfo.validate()`: it is the parameter `validateInfo`. Any exception it or the hash raises is not modelled.
- `ConanInfo`, `RequirementsInfo`, `RequirementInfo` and `PythonRequiresInfo`: their internals are not modelled. The model keeps only the fields this computation fills.
- The settings, options and conf copies are fixed values of the recipe. A settings or conf copy that raises is not modelled. A failing options copy is a `Failure` carrying its message.
- `conanfile_exception_formatter`: an error from a recipe method is kept as the method's name plus its message, not as the formatted text.
- `conanfile_remove_attr`: the hiding of `cpp_info`, `settings` and `options` during `validate` and `package_id` is not modelled.
- Recipe methods (`hasattr`): a missing `validate_build`, `validate` or `package_id` is `Undefined` or `NoNarrowing`. A defined method is represented by its effect: it passes, it raises an invalid configuration, it raises something else, or (for `package_id`) it applies a fixed change to the record.
- `validate` and `validate_build` changing the record themselves is not modelled. `package_id` changes it only through its `Narrows` function.
- `python_requires`: it is an optional list of references. The case of a present but falsy `python_requires` object, which is passed through unconverted, is not modelled.
- `ComputePid.RunHooksAndHash`: the information record is a value, so `clone()` is a copy and aliasing between `info` and `original_info` is not modelled. The model does not show that later changes to `info` cannot reach `original_info`; it shows only that `original_info` is the record as built.
- Dependency nodes are read as values: their reference, package ID and package type.
- Other effects of requirements and dependency nodes on the graph are not modelled.
- Requirements are compared by object identity as keys of `transitive_deps`, `data` and `build_data`. Equality or hashing defined by the requirement class itself is not modelled.
- A failure of the options copy that is not a `ConanException` is not modelled. Such an error would propagate without the recipe-name prefix, but the options copy here is either its values or a `ConanException` message.
