/** The shape of one parsed technique file. Every record is read-only once
    parsed, so each is a datatype; `HashMap` is `map`, `Vec` is `seq`. */
module ParseYaml {
  import opened Base

  datatype Technique = Technique(
    attackTechnique: string,
    displayName: string,
    atomicTests: seq<AtomicTest>)

  datatype AtomicTest = AtomicTest(
    name: string,
    autoGeneratedGuid: string,
    description: string,
    supportedPlatforms: seq<string>,
    executor: AtomicExecutor,
    /** An absent mapping in the file parses as the empty map. */
    inputArguments: map<string, InputArg>,
    dependencyExecutorName: Option<string>,
    dependencies: Option<seq<Dependency>>)

  datatype AtomicExecutor = AtomicExecutor(
    name: string,
    elevationRequired: Option<bool>,
    command: Option<string>,
    cleanupCommand: Option<string>,
    steps: Option<string>)

  datatype Dependency = Dependency(
    description: string,
    /** The check: its success means the dependency is already there. */
    prereqCommand: string,
    /** The remediation that fetches or installs the dependency. */
    getPrereqCommand: string)

  datatype InputArg = InputArg(
    description: string,
    default: string,
    argType: string)
}
