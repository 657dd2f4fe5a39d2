/**
 * The JVM ecosystem utilities as objects: the utilities own the
 * configuration container (and the Java convention once one is set), and an
 * outgoing-elements builder accumulates its settings in fields until
 * `Build` writes them into the container. Every method is proved against
 * the matching function of JvmEcosystemSpec.
 */
module JvmEcosystem {
  import opened Wrappers
  import opened JvmAttributes
  import opened Configurations
  import opened TargetPlatform
  import opened JvmEcosystemSpec

  class JvmEcosystemUtilities {
    var configurations: ConfigurationMap
    var javaConvention: Option<JavaConvention>

    constructor (configurations: ConfigurationMap)
      ensures this.configurations == configurations && javaConvention == None
    {
      this.configurations := configurations;
      javaConvention := None;
    }

    method SetJavaConvention(convention: JavaConvention)
      modifies this
      ensures javaConvention == Some(convention) && configurations == old(configurations)
    {
      javaConvention := Some(convention);
    }

    /** `configurations.maybeCreate(name)`. */
    method MaybeCreate(name: string)
      modifies this
      ensures configurations == Configurations.MaybeCreate(old(configurations), name)
      ensures javaConvention == old(javaConvention)
    {
      if name !in configurations {
        configurations := configurations[name := NewConfiguration];
      }
    }

    /** `child.extendsFrom(parent)` on a configuration of the container. */
    method ExtendsFrom(child: string, parent: string)
      requires child in configurations
      modifies this
      ensures configurations == AddParent(old(configurations), child, parent)
      ensures javaConvention == old(javaConvention)
    {
      var cfg := configurations[child];
      configurations := configurations[child := cfg.(extendsFrom := cfg.extendsFrom + {parent})];
    }

    /** `addApiToSourceSet`: each missing lookup throws, after the changes before it. */
    method AddApiToSourceSet(ss: SourceSet) returns (failure: Option<Failure>)
      modifies this
      ensures Effect(configurations, failure) == AddApiEffect(old(configurations), ss)
      ensures javaConvention == old(javaConvention)
    {
      var api := ss.apiConfigurationName;
      MaybeCreate(api);
      var cfg := configurations[api];
      cfg := cfg.(visible := false);
      cfg := cfg.(description := Some(ApiDescription(ss)));
      cfg := cfg.(canBeResolved := false);
      cfg := cfg.(canBeConsumed := false);
      configurations := configurations[api := cfg];
      if ss.apiElementsConfigurationName !in configurations {
        return Some(UnknownConfiguration(ss.apiElementsConfigurationName));
      }
      ExtendsFrom(ss.apiElementsConfigurationName, api);
      if ss.implementationConfigurationName !in configurations {
        return Some(UnknownConfiguration(ss.implementationConfigurationName));
      }
      ExtendsFrom(ss.implementationConfigurationName, api);
      if ss.compileConfigurationName !in configurations {
        return Some(UnknownConfiguration(ss.compileConfigurationName));
      }
      ExtendsFrom(api, ss.compileConfigurationName);
      return None;
    }

    /** `configureAttributes`: runs an attribute action against the configuration's attributes. */
    method ConfigureAttributes(name: string, action: seq<DetailsCall>)
      requires name in configurations
      modifies this
      ensures configurations == old(configurations)[name := old(configurations)[name].(
                attributes := ApplyAll(old(configurations)[name].attributes, action))]
      ensures javaConvention == old(javaConvention)
    {
      var details := new AttributesDetails(configurations[name].attributes);
      details.Execute(action);
      configurations := configurations[name := configurations[name].(attributes := details.attributes)];
    }

    method ConfigureAsCompileClasspath(name: string)
      requires name in configurations
      modifies this
      ensures configurations == old(configurations)[name := old(configurations)[name].(
                attributes := ApplyAll(old(configurations)[name].attributes, CompileClasspathCalls))]
      ensures javaConvention == old(javaConvention)
    {
      ConfigureAttributes(name, CompileClasspathCalls);
    }

    method ConfigureAsRuntimeClasspath(name: string)
      requires name in configurations
      modifies this
      ensures configurations == old(configurations)[name := old(configurations)[name].(
                attributes := ApplyAll(old(configurations)[name].attributes, RuntimeClasspathCalls))]
      ensures javaConvention == old(javaConvention)
    {
      ConfigureAttributes(name, RuntimeClasspathCalls);
    }

    /** The artifacts provider of the classes variant: one artifact per classes directory. */
    static method CollectClassDirectoryArtifacts(ss: SourceSet) returns (artifacts: seq<ClassDirectoryArtifact>)
      ensures artifacts == ClassDirectoryArtifacts(ss.classesDirs, ss.compileDependencies)
    {
      artifacts := [];
      var i := 0;
      while i < |ss.classesDirs|
        invariant 0 <= i <= |ss.classesDirs|
        invariant artifacts == ClassDirectoryArtifacts(ss.classesDirs[..i], ss.compileDependencies)
      {
        assert ss.classesDirs[..i + 1][..i] == ss.classesDirs[..i];
        artifacts := artifacts + [ClassDirectoryArtifact(ss.classesDirs[i], ss.compileDependencies)];
        i := i + 1;
      }
      assert ss.classesDirs[..i] == ss.classesDirs;
    }

    /** `registerClassesDirVariant`. */
    method RegisterClassesDirVariant(ss: SourceSet, name: string)
      requires name in configurations
      modifies this
      ensures configurations == old(configurations)[name := WithClassesVariant(old(configurations)[name], ss)]
      ensures javaConvention == old(javaConvention)
    {
      var cfg := configurations[name];
      var variant := if ClassesVariant in cfg.variants then cfg.variants[ClassesVariant] else ConfigurationVariant(map[], []);
      variant := variant.(attributes := variant.attributes[LibraryElements := ElementsClasses]);
      var artifacts := CollectClassDirectoryArtifacts(ss);
      variant := variant.(artifacts := artifacts);
      configurations := configurations[name := cfg.(variants := cfg.variants[ClassesVariant := variant])];
    }

    /** `configureClassesDirectoryVariant`: registers the classes variant on the configuration of that name. */
    method ConfigureClassesDirectoryVariant(name: string, ss: SourceSet)
      modifies this
      ensures name in old(configurations) ==>
                configurations == old(configurations)[name := WithClassesVariant(old(configurations)[name], ss)]
      ensures name !in old(configurations) ==> configurations == old(configurations)
      ensures javaConvention == old(javaConvention)
    {
      if name in configurations {
        RegisterClassesDirVariant(ss, name);
      }
    }

    /** `useDefaultTargetPlatformInference`: always enabled when the configuration is consumable. */
    method UseDefaultTargetPlatformInference(name: string, ss: SourceSet)
      requires name in configurations
      modifies this
      ensures configurations == old(configurations)[name := old(configurations)[name].(
                beforeLocking := old(configurations)[name].beforeLocking
                                 + [TargetPlatformAction(old(configurations)[name].canBeConsumed, ss.compileJava)])]
      ensures javaConvention == old(javaConvention)
    {
      var cfg := configurations[name];
      configurations := configurations[name := cfg.(beforeLocking := cfg.beforeLocking + [TargetPlatformAction(cfg.canBeConsumed, ss.compileJava)])];
    }

    /** Runs a registered target-platform action on the configuration of that name. */
    method ApplyTargetPlatform(name: string, action: TargetPlatformAction) returns (failure: Option<Failure>)
      requires name in configurations
      modifies this
      ensures match AppliedTargetPlatform(old(configurations)[name], action, old(javaConvention))
              case Ok(cfg) => configurations == old(configurations)[name := cfg] && failure == None
              case Err(f) => configurations == old(configurations) && failure == Some(f)
      ensures javaConvention == old(javaConvention)
    {
      var version := TargetMajorVersion(action.alwaysEnabled, javaConvention, action.compileTask);
      match version
      case Err(e) =>
        failure := Some(TargetPlatformFailure(e));
      case Ok(None) =>
        failure := None;
      case Ok(Some(major)) =>
        var cfg := configurations[name];
        configurations := configurations[name := cfg.(attributes := cfg.attributes[TargetJvmVersion := JvmVersion(major)])];
        failure := None;
    }

    /** The artifacts loop of build(): one lazy artifact per producer, in order. */
    method AddArtifacts(name: string, producers: seq<TaskProvider>)
      requires name in configurations
      modifies this
      ensures configurations == old(configurations)[name := old(configurations)[name].(
                artifacts := old(configurations)[name].artifacts + LazyArtifacts(producers))]
      ensures javaConvention == old(javaConvention)
    {
      ghost var c0 := configurations;
      ghost var cfg0 := configurations[name];
      assert cfg0.artifacts + LazyArtifacts(producers[..0]) == cfg0.artifacts;
      assert c0[name := cfg0.(artifacts := cfg0.artifacts)] == c0;
      var i := 0;
      while i < |producers|
        invariant 0 <= i <= |producers|
        invariant configurations == c0[name := cfg0.(artifacts := cfg0.artifacts + LazyArtifacts(producers[..i]))]
        invariant javaConvention == old(javaConvention)
      {
        assert producers[..i + 1][..i] == producers[..i];
        var cnf := configurations[name];
        assert cnf.artifacts + [LazyPublishArtifact(producers[i])] == cfg0.artifacts + LazyArtifacts(producers[..i + 1]);
        configurations := configurations[name := cnf.(artifacts := cnf.artifacts + [LazyPublishArtifact(producers[i])])];
        i := i + 1;
      }
      assert producers[..i] == producers;
    }

    /** The capabilities loop of build(): each coordinate appended, in order. */
    method AddCapabilities(name: string, coordinates: seq<Capability>)
      requires name in configurations
      modifies this
      ensures configurations == old(configurations)[name := old(configurations)[name].(
                capabilities := old(configurations)[name].capabilities + coordinates)]
      ensures javaConvention == old(javaConvention)
    {
      ghost var c0 := configurations;
      ghost var cfg0 := configurations[name];
      assert cfg0.capabilities + coordinates[..0] == cfg0.capabilities;
      assert c0[name := cfg0.(capabilities := cfg0.capabilities)] == c0;
      var j := 0;
      while j < |coordinates|
        invariant 0 <= j <= |coordinates|
        invariant configurations == c0[name := cfg0.(capabilities := cfg0.capabilities + coordinates[..j])]
        invariant javaConvention == old(javaConvention)
      {
        assert coordinates[..j + 1] == coordinates[..j] + [coordinates[j]];
        var cnf := configurations[name];
        assert cnf.capabilities + [coordinates[j]] == cfg0.capabilities + coordinates[..j + 1];
        configurations := configurations[name := cnf.(capabilities := cnf.capabilities + [coordinates[j]])];
        j := j + 1;
      }
      assert coordinates[..j] == coordinates;
    }

    /** `createOutgoingElements`: a fresh builder, the caller's calls on it, then `build()`. */
    method CreateOutgoingElements(name: string, action: seq<BuilderCall>) returns (failure: Option<Failure>)
      modifies this
      ensures Effect(configurations, failure) == AfterBuild(old(configurations), Steps(NewBuilder(name), action))
      ensures javaConvention == old(javaConvention)
    {
      var builder := new ElementsBuilder(this, name);
      var i := 0;
      while i < |action|
        invariant 0 <= i <= |action|
        invariant builder.owner == this
        invariant builder.State() == Steps(NewBuilder(name), action[..i])
        invariant configurations == old(configurations) && javaConvention == old(javaConvention)
      {
        assert action[..i + 1][..i] == action[..i];
        builder.Apply(action[i]);
        i := i + 1;
      }
      assert action[..i] == action;
      failure := builder.Build();
    }
  }

  /** The outgoing-elements builder. */
  class ElementsBuilder {
    const owner: JvmEcosystemUtilities
    const name: string
    var description: Option<string>
    var api: bool
    var extendsFrom: seq<string>
    var sourceSet: Option<SourceSet>
    var artifactProducers: seq<TaskProvider>
    var attributesRefiner: seq<DetailsCall>
    var capabilities: seq<Capability>
    var classDirectory: bool

    /** The builder's settings as a value. */
    function State(): BuilderState
      reads this
    {
      BuilderState(name, description, api, extendsFrom, sourceSet, artifactProducers, attributesRefiner, capabilities, classDirectory)
    }

    constructor (owner: JvmEcosystemUtilities, name: string)
      ensures this.owner == owner && State() == NewBuilder(name)
    {
      this.owner := owner;
      this.name := name;
      description := None;
      api := false;
      extendsFrom := [];
      sourceSet := None;
      artifactProducers := [];
      attributesRefiner := [];
      capabilities := [];
      classDirectory := false;
    }

    method WithDescription(description: string)
      modifies this
      ensures State() == old(State()).(description := Some(description))
    {
      this.description := Some(description);
    }

    method ForApi()
      modifies this
      ensures State() == old(State()).(api := true)
    {
      api := true;
    }

    method ForRuntime()
      modifies this
      ensures State() == old(State()).(api := false)
    {
      api := false;
    }

    method ExtendsFrom(parents: seq<string>)
      modifies this
      ensures State() == old(State()).(extendsFrom := parents)
    {
      extendsFrom := parents;
    }

    method FromSourceSet(ss: SourceSet)
      modifies this
      ensures State() == old(State()).(sourceSet := Some(ss))
    {
      sourceSet := Some(ss);
    }

    method AddArtifact(producer: TaskProvider)
      modifies this
      ensures State() == old(State()).(artifactProducers := old(artifactProducers) + [producer])
    {
      artifactProducers := artifactProducers + [producer];
    }

    method Attributes(refiner: seq<DetailsCall>)
      modifies this
      ensures State() == old(State()).(attributesRefiner := refiner)
    {
      attributesRefiner := refiner;
    }

    method WithCapabilities(coordinates: seq<Capability>)
      modifies this
      ensures State() == old(State()).(capabilities := coordinates)
    {
      capabilities := coordinates;
    }

    method WithClassDirectoryVariant()
      modifies this
      ensures State() == old(State()).(classDirectory := true)
    {
      classDirectory := true;
    }

    /** Dispatches one builder call to its setter. */
    method Apply(call: BuilderCall)
      modifies this
      ensures State() == Step(old(State()), call)
    {
      match call
      case WithDescription(d) => WithDescription(d);
      case ForApi => ForApi();
      case ForRuntime => ForRuntime();
      case ExtendsFrom(ps) => ExtendsFrom(ps);
      case FromSourceSet(ss) => FromSourceSet(ss);
      case AddArtifact(p) => AddArtifact(p);
      case Attributes(r) => Attributes(r);
      case WithCapabilities(cs) => WithCapabilities(cs);
      case WithClassDirectoryVariant => WithClassDirectoryVariant();
    }

    /**
     * The settings build() writes into the configuration it found or
     * created: description, flags, parents and the attribute action.
     */
    method Configure(cfg: Configuration) returns (r: Configuration)
      ensures r.description == (if description.Some? then description else cfg.description)
      ensures !r.visible && r.canBeConsumed && !r.canBeResolved
      ensures r.extendsFrom == cfg.extendsFrom + (set p | p in extendsFrom)
      ensures r.attributes == ApplyAll(cfg.attributes, DefaultCalls(api) + attributesRefiner)
      ensures r.beforeLocking == cfg.beforeLocking && r.artifacts == cfg.artifacts
      ensures r.capabilities == cfg.capabilities && r.variants == cfg.variants
    {
      r := cfg;
      if description.Some? {
        r := r.(description := description);
      }
      r := r.(visible := false);
      r := r.(canBeConsumed := true);
      r := r.(canBeResolved := false);
      r := r.(extendsFrom := r.extendsFrom + set p | p in extendsFrom);

      // the attribute action: the defaults, then the refiner
      var details := new AttributesDetails(r.attributes);
      details.Library();
      details.AsJar();
      details.WithExternalDependencies();
      if api {
        details.ProvidingApi();
      } else {
        details.ProvidingRuntime();
      }
      DefaultCallsEffect(r.attributes, api);
      details.Execute(attributesRefiner);
      ApplyAllAppend(r.attributes, DefaultCalls(api), attributesRefiner);
      r := r.(attributes := details.attributes);
    }

    /** Find-or-create, the settings and the target-platform action of build(). */
    method WriteSettings()
      modifies owner
      ensures name in owner.configurations
      ensures owner.configurations == old(owner.configurations)[name := owner.configurations[name]]
      ensures var found := FindOrCreate(old(owner.configurations), name);
              var r := owner.configurations[name];
              && r.description == (if description.Some? then description else found.description)
              && !r.visible && r.canBeConsumed && !r.canBeResolved
              && r.extendsFrom == found.extendsFrom + (set p | p in extendsFrom)
              && r.attributes == ApplyAll(found.attributes, DefaultCalls(api) + attributesRefiner)
              && r.beforeLocking == found.beforeLocking + (if sourceSet.Some? then [TargetPlatformAction(true, sourceSet.value.compileJava)] else [])
              && r.artifacts == found.artifacts && r.capabilities == found.capabilities
              && r.variants == found.variants
      ensures owner.javaConvention == old(owner.javaConvention)
    {
      ghost var c := owner.configurations;
      owner.MaybeCreate(name);
      assert owner.configurations == c[name := FindOrCreate(c, name)];
      var cnf := Configure(owner.configurations[name]);
      owner.configurations := owner.configurations[name := cnf];
      if sourceSet.Some? {
        owner.UseDefaultTargetPlatformInference(name, sourceSet.value);
      }
    }

    /** The part of build() before its class-directory checks. */
    method Write()
      modifies owner
      ensures owner.configurations == old(owner.configurations)[name := Built(FindOrCreate(old(owner.configurations), name), State())]
      ensures owner.javaConvention == old(owner.javaConvention)
    {
      ghost var c := owner.configurations;
      WriteSettings();
      owner.AddArtifacts(name, artifactProducers);
      owner.AddCapabilities(name, capabilities);
      BuiltByFields(FindOrCreate(c, name), State(), owner.configurations[name]);
    }

    /**
     * `build()`: find-or-create the configuration and update it step by
     * step; the class-directory preconditions are checked last.
     */
    method Build() returns (failure: Option<Failure>)
      modifies owner
      ensures Effect(owner.configurations, failure) == AfterBuild(old(owner.configurations), State())
      ensures owner.javaConvention == old(owner.javaConvention)
    {
      Write();
      if classDirectory {
        if !api {
          return Some(RuntimeClassDirectoryVariant);
        }
        if sourceSet.None? {
          return Some(ClassDirectoryWithoutSourceSet);
        }
        owner.ConfigureClassesDirectoryVariant(name, sourceSet.value);
      }
      return None;
    }

    /** The four default setter calls of build() have the effect of DefaultCalls. */
    static lemma DefaultCallsEffect(m: AttributeMap, api: bool)
      ensures ApplyAll(m, DefaultCalls(api))
              == m[Category := CategoryLibrary][LibraryElements := ElementsJar][Bundling := BundlingExternal]
                  [Usage := if api then UsageJavaApi else UsageJavaRuntime]
    {
      var usage := if api then ProvidingApi else ProvidingRuntime;
      var none: seq<DetailsCall> := [];
      ApplyAllSnoc(m, none, Library);
      ApplyAllSnoc(m, [Library], AsJar);
      ApplyAllSnoc(m, [Library, AsJar], WithExternalDependencies);
      ApplyAllSnoc(m, [Library, AsJar, WithExternalDependencies], usage);
      assert none + [Library] == [Library];
      assert [Library] + [AsJar] == [Library, AsJar];
      assert [Library, AsJar] + [WithExternalDependencies] == [Library, AsJar, WithExternalDependencies];
      assert [Library, AsJar, WithExternalDependencies] + [usage] == DefaultCalls(api);
    }
  }
}
