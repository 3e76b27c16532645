/**
 * The entities of the dependency graph that the package-ID computation reads
 * and writes: requirements, recipes (conanfiles), graph nodes, and the
 * information record (ConanInfo) from which a binary package ID is hashed.
 *
 * Requirements, recipes and nodes are objects whose fields the computation
 * assigns, so they are classes. The information record and everything inside
 * it are values: the computation builds them and replaces them whole.
 */
module Graph {
  import opened Wrappers
  import opened OrderedDict

  /** A package-id mode name, such as "semver_mode", "minor_mode" or "full_mode". */
  type Mode = string
  type PackageId = string
  type PackageType = string

  /**
   * Settings, options and conf as they are copied into an information record;
   * their structure is not modelled.
   */
  type Values = map<string, string>

  /** A recipe reference: name/version@user/channel#revision. */
  datatype Ref = Ref(name: string, version: string, user: Option<string>,
                     channel: Option<string>, revision: Option<string>)

  /** A package reference: a recipe reference and the package ID of one of its binaries. */
  datatype PRef = PRef(ref: Ref, packageId: Option<PackageId>)

  /** A dependency's node, as far as this computation looks at it. */
  datatype DepNode = DepNode(pref: PRef, packageType: PackageType)

  /**
   * The decision `Requirement.deduce_package_id_mode` takes, which is not
   * modelled: from the requirement, its current mode, the consumer's package
   * type, the dependency's node and the default non-embed, embed, build and
   * unknown modes, the mode this requirement gets (None: not part of the ID).
   */
  type Deduce = (Require, Option<Mode>, PackageType, DepNode,
                 Option<Mode>, Option<Mode>, Option<Mode>, Option<Mode>) -> Option<Mode>

  /** One requirement of a node; `packageIdMode` is set in place by the deduction. */
  class Require {
    const ref: Ref
    const build: bool
    var packageIdMode: Option<Mode>

    constructor (ref: Ref, build: bool, packageIdMode: Option<Mode>)
      ensures this.ref == ref && this.build == build && this.packageIdMode == packageIdMode
    {
      this.ref := ref;
      this.build := build;
      this.packageIdMode := packageIdMode;
    }

    /** `require.deduce_package_id_mode(...)`: stores the deduced mode on the requirement. */
    method DeducePackageIdMode(deduce: Deduce, packageType: PackageType, dep: DepNode,
                               nonEmbed: Option<Mode>, embed: Option<Mode>,
                               buildMode: Option<Mode>, unknown: Option<Mode>)
      modifies this
      ensures packageIdMode == deduce(this, old(packageIdMode), packageType, dep,
                                      nonEmbed, embed, buildMode, unknown)
    {
      packageIdMode := deduce(this, packageIdMode, packageType, dep,
                              nonEmbed, embed, buildMode, unknown);
    }
  }

  /** An entry of `node.transitive_deps`: the requirement and the node it resolved to. */
  datatype TransitiveDep = TransitiveDep(require: Require, node: DepNode)

  /** The keys of `transitive_deps` form a dictionary: no requirement occurs twice. */
  predicate Distinct(deps: seq<TransitiveDep>) {
    forall i, j | 0 <= i < j < |deps| :: deps[i].require != deps[j].require
  }

  function RequiresOf(deps: seq<TransitiveDep>): set<Require> {
    set t | t in deps :: t.require
  }

  /** What one dependency contributes to the information record. */
  datatype RequirementInfo = RequirementInfo(ref: Ref, packageId: Option<PackageId>, mode: Mode)

  /** The requirements part of an information record, keyed by requirement, in insertion order. */
  type RequirementsInfo = OrderedMap<Require, RequirementInfo>

  /** `PythonRequiresInfo(refs, python_mode)`; `refs` is None when the recipe has no python_requires. */
  datatype PythonRequiresInfo = PythonRequiresInfo(refs: Option<seq<Ref>>, mode: Option<Mode>)

  /** The information record (`ConanInfo`) from which the package ID is hashed. */
  datatype ConanInfo = ConanInfo(settings: Values, options: Values,
                                 reqs: RequirementsInfo, buildReqs: RequirementsInfo,
                                 pythonRequires: PythonRequiresInfo, conf: Values,
                                 invalid: Option<string>)

  /** What a `validate_build` or `validate` method of a recipe does when called. */
  datatype Check =
    | Undefined                 // the recipe does not define the method
    | Passes                    // it returns normally
    | Invalid(msg: string)      // it raises ConanInvalidConfiguration(msg)
    | Fails(msg: string)        // it raises any other error

  /** What a recipe's `package_id` method does when called. */
  datatype Narrowing =
    | NoNarrowing                                 // the recipe does not define the method
    | Narrows(apply: ConanInfo -> ConanInfo)      // it returns, having changed `self.info` so
    | NarrowingFails(msg: string)                 // it raises an error

  /** Errors that leave the computation. */
  datatype Error =
    | ConanException(msg: string)
    | HookFailed(hook: string, msg: string)   // a recipe method raised; the formatter names the method

  /** The steps of the hook sequence, in the order the computation takes them. */
  datatype Step = ValidateBuildCalled | ValidateCalled | PackageIdCalled | InfoValidated | PackageIdComputed

  /** One step taken, with the information record as it stood when the step began. */
  datatype Event = Event(step: Step, seen: ConanInfo)

  /** A recipe, with the results of the calls the computation makes into it. */
  class ConanFile {
    const displayName: string                 // str(conanfile)
    const packageType: PackageType
    const settings: Values                    // settings.copy_conaninfo_settings()
    const options: Result<Values, string>     // options.copy_conaninfo_options(), or its ConanException message
    const conf: Values                        // conf.copy_conaninfo_conf()
    const pythonRequires: Option<seq<Ref>>    // python_requires.all_refs(), None without python_requires
    const validateBuildHook: Check
    const validateHook: Check
    const packageIdHook: Narrowing
    var info: Option<ConanInfo>
    var originalInfo: Option<ConanInfo>
    /** The steps the computation took on this recipe, in order. */
    ghost var trace: seq<Event>

    constructor (displayName: string, packageType: PackageType, settings: Values,
                 options: Result<Values, string>, conf: Values, pythonRequires: Option<seq<Ref>>,
                 validateBuildHook: Check, validateHook: Check, packageIdHook: Narrowing)
      ensures this.displayName == displayName && this.packageType == packageType
      ensures this.settings == settings && this.options == options && this.conf == conf
      ensures this.pythonRequires == pythonRequires
      ensures this.validateBuildHook == validateBuildHook && this.validateHook == validateHook
      ensures this.packageIdHook == packageIdHook
      ensures info == None && originalInfo == None && trace == []
    {
      this.displayName := displayName;
      this.packageType := packageType;
      this.settings := settings;
      this.options := options;
      this.conf := conf;
      this.pythonRequires := pythonRequires;
      this.validateBuildHook := validateBuildHook;
      this.validateHook := validateHook;
      this.packageIdHook := packageIdHook;
      info := None;
      originalInfo := None;
      trace := [];
    }
  }

  /** A node of the dependency graph. `cantBuild` None stands for the initial False. */
  class Node {
    const conanfile: ConanFile
    const transitiveDeps: seq<TransitiveDep>
    var cantBuild: Option<string>
    var packageId: Option<PackageId>

    predicate Valid() {
      Distinct(transitiveDeps)
    }

    function Requires(): set<Require> {
      RequiresOf(transitiveDeps)
    }

    constructor (conanfile: ConanFile, transitiveDeps: seq<TransitiveDep>)
      requires Distinct(transitiveDeps)
      ensures Valid()
      ensures this.conanfile == conanfile && this.transitiveDeps == transitiveDeps
      ensures cantBuild == None && packageId == None
    {
      this.conanfile := conanfile;
      this.transitiveDeps := transitiveDeps;
      cantBuild := None;
      packageId := None;
    }
  }
}
