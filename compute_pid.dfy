/**
 * The binary package-ID computation for one node of the dependency graph:
 * read the default package-id modes from the configuration, deduce a mode for
 * every transitive requirement and sort the kept ones into host and build
 * requirement maps, build the information record and keep a copy of it as
 * `original_info`, run the recipe's `validate_build`, `validate` and
 * `package_id` methods, and finally hash the information record into the
 * node's package ID.
 */
module ComputePid {
  import opened Wrappers
  import opened OrderedDict
  import opened Graph

  /** The global configuration, key to value. */
  type Config = map<string, string>

  const UnknownModeKey := "core.package_id:default_unknown_mode"
  const NonEmbedModeKey := "core.package_id:default_non_embed_mode"
  const EmbedModeKey := "core.package_id:default_embed_mode"
  const PythonModeKey := "core.package_id:default_python_mode"
  const BuildModeKey := "core.package_id:default_build_mode"

  /** The five default modes read from the configuration. */
  datatype PackageIdModes = PackageIdModes(unknown: Option<Mode>, nonEmbed: Option<Mode>,
                                           embed: Option<Mode>, python: Option<Mode>,
                                           build: Option<Mode>)

  /** `new_config.get(key, default=...)` */
  function ConfigGet(config: Config, key: string, default: Option<string>): Option<string> {
    if key in config then Some(config[key]) else default
  }

  /** Each mode is the configured value when the key is set, and its fixed default otherwise. */
  function ReadModes(config: Config): (m: PackageIdModes)
    ensures UnknownModeKey !in config ==> m.unknown == Some("semver_mode")
    ensures NonEmbedModeKey !in config ==> m.nonEmbed == Some("minor_mode")
    ensures EmbedModeKey !in config ==> m.embed == Some("full_mode")
    ensures PythonModeKey !in config ==> m.python == Some("minor_mode")
    ensures BuildModeKey !in config ==> m.build == None
    ensures UnknownModeKey in config ==> m.unknown == Some(config[UnknownModeKey])
    ensures NonEmbedModeKey in config ==> m.nonEmbed == Some(config[NonEmbedModeKey])
    ensures EmbedModeKey in config ==> m.embed == Some(config[EmbedModeKey])
    ensures PythonModeKey in config ==> m.python == Some(config[PythonModeKey])
    ensures BuildModeKey in config ==> m.build == Some(config[BuildModeKey])
  {
    PackageIdModes(ConfigGet(config, UnknownModeKey, Some("semver_mode")),
                   ConfigGet(config, NonEmbedModeKey, Some("minor_mode")),
                   ConfigGet(config, EmbedModeKey, Some("full_mode")),
                   ConfigGet(config, PythonModeKey, Some("minor_mode")),
                   ConfigGet(config, BuildModeKey, None))
  }

  // ---------------------------------------------------------------------------
  // Partition of the transitive requirements
  // ---------------------------------------------------------------------------

  /** The mode currently stored on each requirement, in `transitive_deps` order. */
  function CurrentModes(deps: seq<TransitiveDep>): (r: seq<Option<Mode>>)
    reads RequiresOf(deps)
    ensures |r| == |deps|
    ensures forall i | 0 <= i < |deps| :: r[i] == deps[i].require.packageIdMode
    decreases |deps|
  {
    if deps == [] then []
    else
      var n := |deps| - 1;
      assert RequiresOf(deps[..n]) <= RequiresOf(deps) by {
        forall t | t in deps[..n] ensures t in deps { }
      }
      CurrentModes(deps[..n]) + [deps[n].require.packageIdMode]
  }

  /** The mode the deduction gives each requirement, from the modes stored on them before. */
  function Deduced(deps: seq<TransitiveDep>, prior: seq<Option<Mode>>, packageType: PackageType,
                   modes: PackageIdModes, deduce: Deduce): seq<Option<Mode>>
    requires |prior| == |deps|
  {
    seq(|deps|, i requires 0 <= i < |deps| =>
      deduce(deps[i].require, prior[i], packageType, deps[i].node,
             modes.nonEmbed, modes.embed, modes.build, modes.unknown))
  }

  /** The two maps the loop fills: `data` (host requirements) and `build_data`. */
  datatype Split = Split(data: RequirementsInfo, buildData: RequirementsInfo)

  /** `RequirementInfo(dep_node.pref.ref, dep_node.pref.package_id, mode)` */
  function InfoFor(t: TransitiveDep, mode: Mode): RequirementInfo {
    RequirementInfo(t.node.pref.ref, t.node.pref.packageId, mode)
  }

  /**
   * Reference definition of each map's key order: the requirements of `deps`,
   * in order, whose deduced mode is not None and whose build flag is `build`.
   */
  function Kept(deps: seq<TransitiveDep>, modes: seq<Option<Mode>>, build: bool): seq<Require>
    requires |modes| == |deps|
  {
    if deps == [] then []
    else
      (if modes[0].Some? && deps[0].require.build == build then [deps[0].require] else [])
      + Kept(deps[1..], modes[1..], build)
  }

  /** A requirement is kept for a map exactly when some entry holds it with a mode and that map's build flag. */
  lemma {:induction false} KeptHas(deps: seq<TransitiveDep>, modes: seq<Option<Mode>>, build: bool, k: Require)
    requires |modes| == |deps|
    ensures k in Kept(deps, modes, build) <==>
            exists i | 0 <= i < |deps| :: deps[i].require == k && modes[i].Some? && k.build == build
  {
    if deps != [] {
      KeptHas(deps[1..], modes[1..], build, k);
      if k in Kept(deps[1..], modes[1..], build) {
        var i :| 0 <= i < |deps[1..]| && deps[1..][i].require == k && modes[1..][i].Some? && k.build == build;
        assert deps[i + 1].require == k && modes[i + 1].Some?;
      }
      if exists i | 0 <= i < |deps| :: deps[i].require == k && modes[i].Some? && k.build == build {
        var i :| 0 <= i < |deps| && deps[i].require == k && modes[i].Some? && k.build == build;
        if i > 0 {
          assert deps[1..][i - 1].require == k && modes[1..][i - 1].Some?;
        }
      }
    }
  }

  /** Kept, read from the back: the last entry is appended when it is kept. */
  lemma {:induction false} KeptSnoc(deps: seq<TransitiveDep>, modes: seq<Option<Mode>>, build: bool)
    requires |modes| == |deps| > 0
    ensures var n := |deps| - 1;
            Kept(deps, modes, build) ==
            Kept(deps[..n], modes[..n], build)
            + (if modes[n].Some? && deps[n].require.build == build then [deps[n].require] else [])
  {
    var n := |deps| - 1;
    if n > 0 {
      KeptSnoc(deps[1..], modes[1..], build);
      assert deps[1..][..n - 1] == deps[..n][1..];
      assert modes[1..][..n - 1] == modes[..n][1..];
    }
  }

  /** One iteration of the loop: a kept requirement goes into `build_data` or `data`. */
  function Insert(s: Split, t: TransitiveDep, mode: Option<Mode>): Split {
    if mode.None? then s
    else if t.require.build then Split(s.data, s.buildData.Put(t.require, InfoFor(t, mode.value)))
    else Split(s.data.Put(t.require, InfoFor(t, mode.value)), s.buildData)
  }

  /**
   * The two maps after the loop has visited every entry of `deps`, where
   * `modes[i]` is the mode deduced for `deps[i]`.
   */
  function Partition(deps: seq<TransitiveDep>, modes: seq<Option<Mode>>): Split
    requires |modes| == |deps|
    decreases |deps|
  {
    if deps == [] then Split(Empty(), Empty())
    else
      var n := |deps| - 1;
      Insert(Partition(deps[..n], modes[..n]), deps[n], modes[n])
  }

  /**
   * Both maps are well-formed ordered dictionaries, and each lists its keys in
   * `transitive_deps` order, restricted to the requirements it keeps.
   */
  lemma {:induction false} PartitionKeys(deps: seq<TransitiveDep>, modes: seq<Option<Mode>>)
    requires |modes| == |deps| && Distinct(deps)
    ensures var s := Partition(deps, modes);
            && s.data.Valid() && s.buildData.Valid()
            && s.data.keys == Kept(deps, modes, false)
            && s.buildData.keys == Kept(deps, modes, true)
    decreases |deps|
  {
    if deps != [] {
      var n := |deps| - 1;
      DistinctPrefix(deps, n);
      PartitionKeys(deps[..n], modes[..n]);
      KeptSnoc(deps, modes, false);
      KeptSnoc(deps, modes, true);
      KeptHas(deps[..n], modes[..n], deps[n].require.build, deps[n].require);
    }
  }

  /** Where one entry stands in the maps `s`, given its deduced mode. */
  predicate Placed(s: Split, t: TransitiveDep, mode: Option<Mode>) {
    var k := t.require;
    if mode.None? then k !in s.data.items && k !in s.buildData.items
    else if k.build then
      k in s.buildData.items && s.buildData.items[k] == InfoFor(t, mode.value) && k !in s.data.items
    else
      k in s.data.items && s.data.items[k] == InfoFor(t, mode.value) && k !in s.buildData.items
  }

  lemma DistinctPrefix(deps: seq<TransitiveDep>, n: nat)
    requires Distinct(deps) && n <= |deps|
    ensures Distinct(deps[..n])
  {
  }

  /** The maps after one more entry are the maps before it, with that entry inserted. */
  lemma PartitionSnoc(deps: seq<TransitiveDep>, modes: seq<Option<Mode>>, i: nat)
    requires |modes| == |deps| && i < |deps|
    ensures Partition(deps[..i + 1], modes[..i + 1]) == Insert(Partition(deps[..i], modes[..i]), deps[i], modes[i])
  {
    assert deps[..i + 1][..i] == deps[..i];
    assert modes[..i + 1][..i] == modes[..i];
  }

  /**
   * Where each entry lands: nowhere when its mode is None; otherwise in
   * `build_data` when it is a build requirement and in `data` when it is not,
   * never in both, and stored with the dependency's reference, package ID and
   * the deduced mode.
   */
  lemma {:induction false} PartitionPlacement(deps: seq<TransitiveDep>, modes: seq<Option<Mode>>, i: nat)
    requires |modes| == |deps| && Distinct(deps) && i < |deps|
    ensures Placed(Partition(deps, modes), deps[i], modes[i])
    decreases |deps|
  {
    var n := |deps| - 1;
    DistinctPrefix(deps, n);
    PartitionKeys(deps[..n], modes[..n]);
    var s0 := Partition(deps[..n], modes[..n]);
    var k := deps[n].require;
    assert Partition(deps, modes) == Insert(s0, deps[n], modes[n]);
    if i == n {
      KeptHas(deps[..n], modes[..n], false, k);
      KeptHas(deps[..n], modes[..n], true, k);
      assert k !in s0.data.items && k !in s0.buildData.items;
    } else {
      PartitionPlacement(deps[..n], modes[..n], i);
      assert deps[..n][i] == deps[i] && modes[..n][i] == modes[i];
      assert deps[i].require != k;
    }
  }

  /** Nothing else is in the maps: every key is a requirement of `deps` with a mode and the map's build flag. */
  lemma PartitionOnlyKept(deps: seq<TransitiveDep>, modes: seq<Option<Mode>>, k: Require)
    requires |modes| == |deps| && Distinct(deps)
    ensures var s := Partition(deps, modes);
            && (k in s.data.items <==>
                exists i | 0 <= i < |deps| :: deps[i].require == k && modes[i].Some? && !k.build)
            && (k in s.buildData.items <==>
                exists i | 0 <= i < |deps| :: deps[i].require == k && modes[i].Some? && k.build)
            && !(k in s.data.items && k in s.buildData.items)
  {
  }

  /**
   * The loop of `compute_package_id` over `node.transitive_deps`: stores the
   * deduced mode on every requirement and returns the two maps.
   */
  method PartitionRequirements(node: Node, modes: PackageIdModes, deduce: Deduce) returns (split: Split)
    requires node.Valid()
    modifies node.Requires()
    ensures CurrentModes(node.transitiveDeps) ==
            Deduced(node.transitiveDeps, old(CurrentModes(node.transitiveDeps)),
                    node.conanfile.packageType, modes, deduce)
    ensures split == Partition(node.transitiveDeps, CurrentModes(node.transitiveDeps))
  {
    var deps := node.transitiveDeps;
    var packageType := node.conanfile.packageType;
    ghost var prior := CurrentModes(deps);
    ghost var deduced := Deduced(deps, prior, packageType, modes, deduce);
    var data: RequirementsInfo := Empty();
    var buildData: RequirementsInfo := Empty();
    var i := 0;
    while i < |deps|
      invariant 0 <= i <= |deps|
      invariant forall j | 0 <= j < i :: deps[j].require.packageIdMode == deduced[j]
      invariant forall j | i <= j < |deps| :: deps[j].require.packageIdMode == prior[j]
      invariant Split(data, buildData) == Partition(deps[..i], deduced[..i])
    {
      ghost var before := Split(data, buildData);
      var t := deps[i];
      assert t.require in node.Requires() by { assert t in deps; }
      t.require.DeducePackageIdMode(deduce, packageType, t.node,
                                    modes.nonEmbed, modes.embed, modes.build, modes.unknown);
      assert t.require.packageIdMode == deduced[i];
      if t.require.packageIdMode.Some? {
        var reqInfo := InfoFor(t, t.require.packageIdMode.value);
        if t.require.build {
          buildData := buildData.Put(t.require, reqInfo);
        } else {
          data := data.Put(t.require, reqInfo);
        }
      }
      assert Split(data, buildData) == Insert(before, t, deduced[i]);
      PartitionSnoc(deps, deduced, i);
      i := i + 1;
    }
    assert deps[..i] == deps && deduced[..i] == deduced;
    assert CurrentModes(deps) == deduced;
    split := Split(data, buildData);
  }

  // ---------------------------------------------------------------------------
  // The information record
  // ---------------------------------------------------------------------------

  /**
   * The information record built from the recipe's copied settings, options
   * and conf, the two requirement maps and the python requires; a failure to
   * copy the options is re-raised with the recipe's name in front.
   */
  function MakeInfo(cf: ConanFile, split: Split, pythonMode: Option<Mode>): (r: Result<ConanInfo, Error>)
    ensures cf.options.Failure? ==> r == Failure(ConanException(cf.displayName + ": " + cf.options.error))
    ensures cf.options.Success? ==>
              && r.Success?
              && r.value.reqs == split.data && r.value.buildReqs == split.buildData
              && r.value.settings == cf.settings && r.value.options == cf.options.value
              && r.value.conf == cf.conf
              && r.value.pythonRequires == PythonRequiresInfo(cf.pythonRequires, pythonMode)
              && r.value.invalid == None
  {
    match cf.options
    case Failure(e) => Failure(ConanException(cf.displayName + ": " + e))
    case Success(copiedOptions) =>
      Success(ConanInfo(cf.settings, copiedOptions, split.data, split.buildData,
                        PythonRequiresInfo(cf.pythonRequires, pythonMode), cf.conf, None))
  }

  // ---------------------------------------------------------------------------
  // The hook sequence
  // ---------------------------------------------------------------------------

  function Rank(s: Step): nat {
    match s
    case ValidateBuildCalled => 0
    case ValidateCalled => 1
    case PackageIdCalled => 2
    case InfoValidated => 3
    case PackageIdComputed => 4
  }

  /** Steps were taken in the fixed order, each at most once: every step ranks above the one before. */
  ghost predicate InOrder(trace: seq<Event>)
    decreases |trace|
  {
    |trace| <= 1 || (Rank(trace[0].step) < Rank(trace[1].step) && InOrder(trace[1..]))
  }

  /** What `run_validate_package_id` leaves behind. */
  datatype HookRun = HookRun(outcome: Outcome<Error>, info: ConanInfo, trace: seq<Event>)

  /**
   * `run_validate_package_id` on a recipe whose information record is `info`:
   * `validate`, then `package_id`, then `info.validate()` (the parameter
   * `validateInfo`).
   */
  function ValidatePackageIdRun(validate: Check, narrowing: Narrowing, info: ConanInfo,
                                validateInfo: ConanInfo -> ConanInfo): HookRun
  {
    var validated := if validate.Undefined? then [] else [Event(ValidateCalled, info)];
    if validate.Fails? then
      HookRun(Fail(HookFailed("validate", validate.msg)), info, validated)
    else
      var info1 := if validate.Invalid? then info.(invalid := Some(validate.msg)) else info;
      var narrowed := validated + (if narrowing.NoNarrowing? then [] else [Event(PackageIdCalled, info1)]);
      match narrowing
      case NarrowingFails(msg) => HookRun(Fail(HookFailed("package_id", msg)), info1, narrowed)
      case NoNarrowing => HookRun(Pass, validateInfo(info1), narrowed + [Event(InfoValidated, info1)])
      case Narrows(apply) =>
        HookRun(Pass, validateInfo(apply(info1)), narrowed + [Event(InfoValidated, apply(info1))])
  }

  /**
   * `validate` runs first, then `package_id`, then `info.validate()`, and the
   * first step sees the record as it was handed in.
   */
  lemma ValidatePackageIdOrder(validate: Check, narrowing: Narrowing, info: ConanInfo,
                               validateInfo: ConanInfo -> ConanInfo)
    ensures var r := ValidatePackageIdRun(validate, narrowing, info, validateInfo);
            && InOrder(r.trace)
            && (r.trace != [] ==> r.trace[0].seen == info && Rank(r.trace[0].step) >= 1)
            && (!validate.Undefined? ==> r.trace[0].step == ValidateCalled)
  {
  }

  /** A successful run ends with `info.validate()`, whose result is the final record. */
  lemma ValidatePackageIdEnds(validate: Check, narrowing: Narrowing, info: ConanInfo,
                              validateInfo: ConanInfo -> ConanInfo)
    ensures var r := ValidatePackageIdRun(validate, narrowing, info, validateInfo);
            r.outcome.Pass? ==>
              && r.trace != []
              && r.trace[|r.trace| - 1].step == InfoValidated
              && r.info == validateInfo(r.trace[|r.trace| - 1].seen)
  {
  }

  /**
   * The run goes on to its end if and only if `validate` raises nothing other
   * than an invalid configuration and `package_id` raises nothing at all; an
   * error then names the method that raised it, and nothing after it runs.
   */
  lemma ValidatePackageIdOutcome(validate: Check, narrowing: Narrowing, info: ConanInfo,
                                 validateInfo: ConanInfo -> ConanInfo)
    ensures var r := ValidatePackageIdRun(validate, narrowing, info, validateInfo);
            && (r.outcome.Pass? <==> !validate.Fails? && !narrowing.NarrowingFails?)
            && (validate.Fails? ==> r.outcome == Fail(HookFailed("validate", validate.msg)) && |r.trace| == 1)
            && (!validate.Fails? && narrowing.NarrowingFails? ==>
                  && r.outcome == Fail(HookFailed("package_id", narrowing.msg))
                  && r.trace[|r.trace| - 1].step == PackageIdCalled)
  {
  }

  /**
   * An invalid configuration raised by `validate` is recorded in the record's
   * `invalid` before the next step; `package_id` then works on that record and
   * `info.validate()` on what `package_id` made of it.
   */
  lemma ValidateRecordsInvalid(validate: Check, narrowing: Narrowing, info: ConanInfo,
                               validateInfo: ConanInfo -> ConanInfo)
    ensures var r := ValidatePackageIdRun(validate, narrowing, info, validateInfo);
            && (validate.Invalid? ==> |r.trace| >= 2 && r.trace[1].seen.invalid == Some(validate.msg))
            && (r.outcome.Pass? && narrowing.Narrows? ==>
                  && |r.trace| >= 2
                  && r.trace[|r.trace| - 2].step == PackageIdCalled
                  && r.trace[|r.trace| - 1].seen == narrowing.apply(r.trace[|r.trace| - 2].seen))
  {
  }

  /** What the `validate_build` step leaves behind. */
  datatype BuildCheck = BuildCheck(outcome: Outcome<Error>, cantBuild: Option<string>, trace: seq<Event>)

  /** The `validate_build` step of `compute_package_id`, on a node whose `cant_build` is `cantBuild`. */
  function ValidateBuildRun(hook: Check, info: ConanInfo, cantBuild: Option<string>): BuildCheck {
    var checked := if hook.Undefined? then [] else [Event(ValidateBuildCalled, info)];
    match hook
    case Fails(msg) => BuildCheck(Fail(HookFailed("validate_build", msg)), cantBuild, checked)
    case Invalid(msg) => BuildCheck(Pass, Some(msg), checked)
    case _ => BuildCheck(Pass, cantBuild, checked)
  }

  /** What the hook sequence of `compute_package_id` leaves behind. */
  datatype Run = Run(outcome: Outcome<Error>, cantBuild: Option<string>, info: ConanInfo,
                     packageId: Option<PackageId>, trace: seq<Event>)

  /**
   * The part of `compute_package_id` after the information record is built:
   * `validate_build`, `run_validate_package_id`, and the package ID hashed
   * from the final information record by `hash`.
   */
  function HooksRun(cf: ConanFile, info: ConanInfo, cantBuild: Option<string>,
                    validateInfo: ConanInfo -> ConanInfo, hash: ConanInfo -> PackageId): Run
  {
    var b := ValidateBuildRun(cf.validateBuildHook, info, cantBuild);
    if b.outcome.Fail? then Run(b.outcome, b.cantBuild, info, None, b.trace)
    else
      var v := ValidatePackageIdRun(cf.validateHook, cf.packageIdHook, info, validateInfo);
      if v.outcome.Fail? then Run(v.outcome, b.cantBuild, v.info, None, b.trace + v.trace)
      else Run(Pass, b.cantBuild, v.info, Some(hash(v.info)), b.trace + v.trace + [Event(PackageIdComputed, v.info)])
  }

  /** `validate_build` records an invalid configuration as `cant_build` and does not stop the computation. */
  lemma ValidateBuildRecordsCantBuild(cf: ConanFile, info: ConanInfo, cantBuild: Option<string>,
                                      validateInfo: ConanInfo -> ConanInfo, hash: ConanInfo -> PackageId)
    ensures var r := HooksRun(cf, info, cantBuild, validateInfo, hash);
            && (cf.validateBuildHook.Invalid? ==> r.cantBuild == Some(cf.validateBuildHook.msg))
            && (!cf.validateBuildHook.Invalid? ==> r.cantBuild == cantBuild)
            && (cf.validateBuildHook.Fails? ==>
                  r.outcome == Fail(HookFailed("validate_build", cf.validateBuildHook.msg)) && |r.trace| == 1)
            && (r.outcome.Pass? <==>
                  !cf.validateBuildHook.Fails? && !cf.validateHook.Fails? && !cf.packageIdHook.NarrowingFails?)
  {
  }

  /** The trace of the hook sequence is made of the traces of its two parts and the hashing step. */
  lemma HooksTrace(cf: ConanFile, info: ConanInfo, cantBuild: Option<string>,
                   validateInfo: ConanInfo -> ConanInfo, hash: ConanInfo -> PackageId)
    ensures var r := HooksRun(cf, info, cantBuild, validateInfo, hash);
            var b := ValidateBuildRun(cf.validateBuildHook, info, cantBuild);
            var v := ValidatePackageIdRun(cf.validateHook, cf.packageIdHook, info, validateInfo);
            && (b.outcome.Fail? ==> r.trace == b.trace)
            && (b.outcome.Pass? && v.outcome.Fail? ==> r.trace == b.trace + v.trace)
            && (b.outcome.Pass? && v.outcome.Pass? ==>
                  r.trace == b.trace + v.trace + [Event(PackageIdComputed, v.info)])
  {
  }

  /**
   * The steps run in the fixed order `validate_build`, `validate`,
   * `package_id`, `info.validate()`, package ID, and the first of them sees
   * the record as built.
   */
  lemma HooksOrder(cf: ConanFile, info: ConanInfo, cantBuild: Option<string>,
                   validateInfo: ConanInfo -> ConanInfo, hash: ConanInfo -> PackageId)
    ensures var r := HooksRun(cf, info, cantBuild, validateInfo, hash);
            && InOrder(r.trace)
            && (r.trace != [] ==> r.trace[0].seen == info)
  {
    var b := ValidateBuildRun(cf.validateBuildHook, info, cantBuild);
    var v := ValidatePackageIdRun(cf.validateHook, cf.packageIdHook, info, validateInfo);
    HooksTrace(cf, info, cantBuild, validateInfo, hash);
    if b.outcome.Pass? {
      ValidatePackageIdOrder(cf.validateHook, cf.packageIdHook, info, validateInfo);
      if v.outcome.Pass? {
        ValidatePackageIdEnds(cf.validateHook, cf.packageIdHook, info, validateInfo);
        ComposedInOrder(b.trace, v.trace, [Event(PackageIdComputed, v.info)], info);
      } else {
        ComposedInOrder(b.trace, v.trace, [], info);
        assert b.trace + v.trace + [] == b.trace + v.trace;
      }
    }
  }

  /**
   * A package ID is assigned exactly when the run succeeds; it is the last
   * step, it comes right after `info.validate()`, and it is the hash of the
   * final record.
   */
  lemma HooksPackageId(cf: ConanFile, info: ConanInfo, cantBuild: Option<string>,
                       validateInfo: ConanInfo -> ConanInfo, hash: ConanInfo -> PackageId)
    ensures var r := HooksRun(cf, info, cantBuild, validateInfo, hash);
            && (r.outcome.Pass? <==> r.packageId.Some?)
            && (r.outcome.Pass? ==>
                  && |r.trace| >= 2
                  && r.trace[|r.trace| - 2].step == InfoValidated
                  && r.trace[|r.trace| - 1] == Event(PackageIdComputed, r.info)
                  && r.packageId == Some(hash(r.info)))
  {
  }

  /**
   * The `validate_build` step, then the steps of `run_validate_package_id`,
   * then at most one later step, stay in order and begin with the record `first`.
   */
  lemma ComposedInOrder(checked: seq<Event>, t: seq<Event>, tail: seq<Event>, first: ConanInfo)
    requires |checked| <= 1 && (checked != [] ==> checked[0] == Event(ValidateBuildCalled, first))
    requires InOrder(t) && (t != [] ==> Rank(t[0].step) >= 1 && t[0].seen == first)
    requires |tail| <= 1 && (tail != [] ==> t != [] && Rank(t[|t| - 1].step) < Rank(tail[0].step))
    ensures InOrder(checked + t + tail)
    ensures checked + t + tail != [] ==> (checked + t + tail)[0].seen == first
  {
    var u := checked + t;
    ConcatInOrder(checked, t);
    if u != [] {
      assert u[0].seen == first by {
        if checked == [] {
          assert u == t;
        }
      }
    }
    if tail == [] {
      assert u + tail == u;
    } else {
      assert u[|u| - 1] == t[|t| - 1];
      AppendInOrder(u, tail[0]);
      assert u + tail == u + [tail[0]];
    }
  }

  /** The `validate_build` step followed by the steps of `run_validate_package_id` stays in order. */
  lemma ConcatInOrder(checked: seq<Event>, t: seq<Event>)
    requires |checked| <= 1 && (checked != [] ==> checked[0].step == ValidateBuildCalled)
    requires InOrder(t) && (t != [] ==> Rank(t[0].step) >= 1)
    ensures InOrder(checked + t)
  {
    if checked == [] {
      assert checked + t == t;
    } else if t == [] {
      assert checked + t == checked;
    } else {
      assert (checked + t)[0] == checked[0] && (checked + t)[1] == t[0];
      assert (checked + t)[1..] == t;
    }
  }

  /** Appending a step that ranks above the last one keeps a trace in order. */
  lemma {:induction false} AppendInOrder(t: seq<Event>, e: Event)
    requires InOrder(t) && t != [] && Rank(t[|t| - 1].step) < Rank(e.step)
    ensures InOrder(t + [e])
    decreases |t|
  {
    if |t| > 1 {
      AppendInOrder(t[1..], e);
      assert (t + [e])[1..] == t[1..] + [e];
    }
  }

  /** An invalid configuration from `validate` is in the record the step right after `validate` sees. */
  lemma ValidateInvalidSeenLater(cf: ConanFile, info: ConanInfo, cantBuild: Option<string>,
                                 validateInfo: ConanInfo -> ConanInfo, hash: ConanInfo -> PackageId)
    requires cf.validateHook.Invalid? && !cf.validateBuildHook.Fails?
    ensures var r := HooksRun(cf, info, cantBuild, validateInfo, hash);
            exists i | 0 <= i < |r.trace| - 1 ::
              r.trace[i].step == ValidateCalled && r.trace[i + 1].seen.invalid == Some(cf.validateHook.msg)
  {
    var checked := ValidateBuildRun(cf.validateBuildHook, info, cantBuild).trace;
    var v := ValidatePackageIdRun(cf.validateHook, cf.packageIdHook, info, validateInfo);
    ValidatePackageIdOrder(cf.validateHook, cf.packageIdHook, info, validateInfo);
    ValidateRecordsInvalid(cf.validateHook, cf.packageIdHook, info, validateInfo);
    var r := HooksRun(cf, info, cantBuild, validateInfo, hash);
    assert r.trace[..|checked| + |v.trace|] == checked + v.trace;
    var i := |checked|;
    assert r.trace[i] == v.trace[0] && r.trace[i + 1] == v.trace[1];
  }

  // ---------------------------------------------------------------------------
  // The two operations
  // ---------------------------------------------------------------------------

  /** `run_validate_package_id(conanfile)` */
  method RunValidatePackageId(cf: ConanFile, validateInfo: ConanInfo -> ConanInfo) returns (r: Outcome<Error>)
    requires cf.info.Some?
    modifies cf`info, cf`trace
    ensures var run := ValidatePackageIdRun(cf.validateHook, cf.packageIdHook, old(cf.info.value), validateInfo);
            && r == run.outcome
            && cf.info == Some(run.info)
            && cf.trace == old(cf.trace) + run.trace
  {
    // Runs before hashing: a configuration marked invalid here must reach the ID.
    if !cf.validateHook.Undefined? {
      // `cpp_info` is hidden from `validate`
      cf.trace := cf.trace + [Event(ValidateCalled, cf.info.value)];
      match cf.validateHook
      case Passes =>
      case Invalid(msg) =>
        cf.info := Some(cf.info.value.(invalid := Some(msg)));
      case Fails(msg) =>
        return Fail(HookFailed("validate", msg));
    }
    // `package_id` narrows or changes the values; `cpp_info`, `settings` and `options` are hidden from it
    if !cf.packageIdHook.NoNarrowing? {
      cf.trace := cf.trace + [Event(PackageIdCalled, cf.info.value)];
      match cf.packageIdHook
      case Narrows(apply) =>
        cf.info := Some(apply(cf.info.value));
      case NarrowingFails(msg) =>
        return Fail(HookFailed("package_id", msg));
    }
    cf.trace := cf.trace + [Event(InfoValidated, cf.info.value)];
    cf.info := Some(validateInfo(cf.info.value));
    r := Pass;
  }

  /** The `validate_build` step of `compute_package_id`. */
  method RunValidateBuild(node: Node, info: ConanInfo) returns (r: Outcome<Error>)
    modifies node`cantBuild, node.conanfile`trace
    ensures var b := ValidateBuildRun(node.conanfile.validateBuildHook, info, old(node.cantBuild));
            && r == b.outcome
            && node.cantBuild == b.cantBuild
            && node.conanfile.trace == old(node.conanfile.trace) + b.trace
  {
    var cf := node.conanfile;
    r := Pass;
    if !cf.validateBuildHook.Undefined? {
      cf.trace := cf.trace + [Event(ValidateBuildCalled, info)];
      match cf.validateBuildHook
      case Passes =>
      case Invalid(msg) =>
        // consulted later, and only when this binary has to be built from sources
        node.cantBuild := Some(msg);
      case Fails(msg) =>
        r := Fail(HookFailed("validate_build", msg));
    }
  }

  /**
   * The first half of `compute_package_id`: read the default modes, deduce
   * and partition the requirements, and build the information record.
   */
  method BuildConanInfo(node: Node, config: Config, deduce: Deduce) returns (built: Result<ConanInfo, Error>)
    requires node.Valid()
    modifies node.Requires()
    ensures CurrentModes(node.transitiveDeps) ==
            Deduced(node.transitiveDeps, old(CurrentModes(node.transitiveDeps)),
                    node.conanfile.packageType, ReadModes(config), deduce)
    ensures built == MakeInfo(node.conanfile, Partition(node.transitiveDeps, CurrentModes(node.transitiveDeps)),
                              ReadModes(config).python)
  {
    var modes := ReadModes(config);
    var split := PartitionRequirements(node, modes, deduce);
    built := MakeInfo(node.conanfile, split, modes.python);
  }

  /**
   * The second half of `compute_package_id`: store the information record
   * and a clone of it as `original_info`, run `validate_build` and
   * `run_validate_package_id`, and hash the package ID.
   */
  method RunHooksAndHash(node: Node, info: ConanInfo,
                         validateInfo: ConanInfo -> ConanInfo, hash: ConanInfo -> PackageId)
    returns (r: Outcome<Error>)
    modifies node`cantBuild, node`packageId, node.conanfile`info, node.conanfile`originalInfo,
             node.conanfile`trace
    ensures var run := HooksRun(node.conanfile, info, old(node.cantBuild), validateInfo, hash);
            && r == run.outcome
            && node.conanfile.originalInfo == Some(info)
            && node.conanfile.info == Some(run.info)
            && node.conanfile.trace == old(node.conanfile.trace) + run.trace
            && node.cantBuild == run.cantBuild
            && node.packageId == (if run.packageId.Some? then run.packageId else old(node.packageId))
  {
    var cf := node.conanfile;
    ghost var b := ValidateBuildRun(cf.validateBuildHook, info, node.cantBuild);
    ghost var v := ValidatePackageIdRun(cf.validateHook, cf.packageIdHook, info, validateInfo);
    ghost var run := HooksRun(cf, info, node.cantBuild, validateInfo, hash);
    cf.info := Some(info);
    // clone(): a separate copy, which later changes to `info` leave alone
    cf.originalInfo := Some(info);

    r := RunValidateBuild(node, info);
    if r.Fail? {
      assert run == Run(b.outcome, b.cantBuild, info, None, b.trace);
      return;
    }

    r := RunValidatePackageId(cf, validateInfo);
    if r.Fail? {
      assert run == Run(v.outcome, b.cantBuild, v.info, None, b.trace + v.trace);
      return;
    }

    cf.trace := cf.trace + [Event(PackageIdComputed, cf.info.value)];
    node.packageId := Some(hash(cf.info.value));
    assert run == Run(Pass, b.cantBuild, v.info, Some(hash(v.info)), b.trace + v.trace + [Event(PackageIdComputed, v.info)]);
  }

  /** `compute_package_id(node, new_config)` */
  method ComputePackageId(node: Node, config: Config, deduce: Deduce,
                          validateInfo: ConanInfo -> ConanInfo, hash: ConanInfo -> PackageId)
    returns (r: Outcome<Error>)
    requires node.Valid()
    modifies node, node.conanfile, node.Requires()
    ensures CurrentModes(node.transitiveDeps) ==
            Deduced(node.transitiveDeps, old(CurrentModes(node.transitiveDeps)),
                    node.conanfile.packageType, ReadModes(config), deduce)
    ensures var cf := node.conanfile;
            var built := MakeInfo(cf, Partition(node.transitiveDeps, CurrentModes(node.transitiveDeps)),
                                  ReadModes(config).python);
            built.Failure? ==>
              && r == Fail(built.error)
              && cf.info == old(cf.info) && cf.originalInfo == old(cf.originalInfo)
              && cf.trace == old(cf.trace)
              && node.cantBuild == old(node.cantBuild) && node.packageId == old(node.packageId)
    ensures var cf := node.conanfile;
            var built := MakeInfo(cf, Partition(node.transitiveDeps, CurrentModes(node.transitiveDeps)),
                                  ReadModes(config).python);
            built.Success? ==>
              var run := HooksRun(cf, built.value, old(node.cantBuild), validateInfo, hash);
              && r == run.outcome
              && cf.originalInfo == Some(built.value)
              && cf.info == Some(run.info)
              && cf.trace == old(cf.trace) + run.trace
              && node.cantBuild == run.cantBuild
              && node.packageId == (if run.packageId.Some? then run.packageId else old(node.packageId))
  {
    var built := BuildConanInfo(node, config, deduce);
    if built.Failure? {
      return Fail(built.error);
    }
    ghost var modes := CurrentModes(node.transitiveDeps);
    r := RunHooksAndHash(node, built.value, validateInfo, hash);
    assert CurrentModes(node.transitiveDeps) == modes;
  }
}
