/**
 * The configuration container, modelled as a map from configuration name to
 * a configuration record, and the entities a configuration refers to.
 */
module Configurations {
  import opened Wrappers
  import opened JvmAttributes

  /** An opaque handle on the task that produces an artifact. */
  datatype TaskProvider = TaskProvider(taskName: string)

  /** An outgoing artifact whose file the producing task makes later. */
  datatype PublishArtifact = LazyPublishArtifact(producer: TaskProvider)

  /**
   * An artifact of the "classes" variant: one classes directory of a source
   * set, typed as a JVM class directory, depending on the source set's
   * compile tasks.
   */
  datatype ClassDirectoryArtifact = ClassDirectoryArtifact(file: string, compileDependencies: seq<string>)

  /** A capability coordinate. */
  datatype Capability = Capability(group: string, name: string, version: string)

  /** A named secondary variant of a configuration's outgoing publications. */
  datatype ConfigurationVariant = ConfigurationVariant(attributes: AttributeMap, artifacts: seq<ClassDirectoryArtifact>)

  /**
   * What the target-platform inference reads from a source set's Java
   * compile task: its compiler arguments, and the major version of its
   * target compatibility as the JavaVersion conversion reports it.
   */
  datatype CompileTask = CompileTask(compilerArgs: seq<string>, targetCompatibilityMajorVersion: int)

  /** A source set, reduced to what the utilities read from it. */
  datatype SourceSet = SourceSet(
    name: string,
    displayName: string,
    apiConfigurationName: string,
    apiElementsConfigurationName: string,
    implementationConfigurationName: string,
    compileConfigurationName: string,
    compileJava: CompileTask,
    classesDirs: seq<string>,
    compileDependencies: seq<string>)

  /** A target-platform inference registered to run before the configuration is locked. */
  datatype TargetPlatformAction = TargetPlatformAction(alwaysEnabled: bool, compileTask: CompileTask)

  /** One entry of the configuration container. */
  datatype Configuration = Configuration(
    description: Option<string>,
    visible: bool,
    canBeConsumed: bool,
    canBeResolved: bool,
    extendsFrom: set<string>,
    attributes: AttributeMap,
    artifacts: seq<PublishArtifact>,
    capabilities: seq<Capability>,
    variants: map<string, ConfigurationVariant>,
    beforeLocking: seq<TargetPlatformAction>)

  type ConfigurationMap = map<string, Configuration>

  /** A configuration as the container creates it: visible, consumable, resolvable and empty. */
  const NewConfiguration: Configuration :=
    Configuration(None, true, true, true, {}, map[], [], [], map[], [])

  /** The configuration `maybeCreate(name)` hands back. */
  function FindOrCreate(c: ConfigurationMap, name: string): (r: Configuration)
    ensures r == MaybeCreate(c, name)[name]
  {
    if name in c then c[name] else NewConfiguration
  }

  /** `maybeCreate(name)`: the container afterwards holds `name`, and nothing that was there changes. */
  function MaybeCreate(c: ConfigurationMap, name: string): (r: ConfigurationMap)
    ensures r.Keys == c.Keys + {name}
    ensures forall n :: n in c ==> r[n] == c[n]
    ensures name !in c ==> r[name] == NewConfiguration
  {
    if name in c then c else c[name := NewConfiguration]
  }
}
