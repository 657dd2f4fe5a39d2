/**
 * What the JVM ecosystem utilities do to the configuration container, as
 * functions of the container before the call: the outgoing-elements
 * builder and its build step, the api configuration wiring of a source set,
 * the "classes" variant, the classpath attribute presets and the
 * target-platform inference.
 */
module JvmEcosystemSpec {
  import opened Wrappers
  import opened JavaLang
  import opened JvmAttributes
  import opened Configurations
  import opened TargetPlatform

  /** The exceptions the utilities throw. */
  datatype Failure =
    | UnknownConfiguration(name: string)
    // a class-directory variant asked of a runtime (not api) builder
    | RuntimeClassDirectoryVariant
    // a class-directory variant asked of a builder without a source set
    | ClassDirectoryWithoutSourceSet
    | TargetPlatformFailure(cause: TargetPlatformError)

  /** The container after an operation, and the exception it threw, if any. */
  datatype Effect = Effect(configurations: ConfigurationMap, failure: Option<Failure>)

  // ---------------------------------------------------------------------
  // addApiToSourceSet

  function ApiDescription(ss: SourceSet): (r: string)
    ensures |r| == |ss.displayName| + 22 && r[21..|r| - 1] == ss.displayName
  {
    "API dependencies for " + ss.displayName + "."
  }

  /** `child.extendsFrom(parent)`: adds one parent, changes nothing else. */
  function AddParent(c: ConfigurationMap, child: string, parent: string): (r: ConfigurationMap)
    requires child in c
    ensures r.Keys == c.Keys
    ensures r[child] == c[child].(extendsFrom := c[child].extendsFrom + {parent})
    ensures forall n :: n in c && n != child ==> r[n] == c[n]
  {
    c[child := c[child].(extendsFrom := c[child].extendsFrom + {parent})]
  }

  /** The api configuration as `addApiToSourceSet` leaves it: hidden, neither resolvable nor consumable. */
  function HiddenApi(cfg: Configuration, ss: SourceSet): (r: Configuration)
    ensures !r.visible && !r.canBeResolved && !r.canBeConsumed && r.description == Some(ApiDescription(ss))
    ensures r.(visible := cfg.visible, description := cfg.description,
               canBeResolved := cfg.canBeResolved, canBeConsumed := cfg.canBeConsumed) == cfg
  {
    cfg.(visible := false, description := Some(ApiDescription(ss)), canBeResolved := false, canBeConsumed := false)
  }

  /**
   * `addApiToSourceSet`: find-or-create the api configuration and hide it,
   * make apiElements and implementation extend it, make it extend compile.
   * Each lookup by name throws when the name is missing, leaving the changes
   * made so far in place.
   */
  function AddApiEffect(c: ConfigurationMap, ss: SourceSet): (r: Effect)
    ensures r.configurations.Keys == c.Keys + {ss.apiConfigurationName}
    ensures var names := c.Keys + {ss.apiConfigurationName};
            r.failure ==
              if ss.apiElementsConfigurationName !in names then Some(UnknownConfiguration(ss.apiElementsConfigurationName))
              else if ss.implementationConfigurationName !in names then Some(UnknownConfiguration(ss.implementationConfigurationName))
              else if ss.compileConfigurationName !in names then Some(UnknownConfiguration(ss.compileConfigurationName))
              else None
    ensures forall n :: (n in c && n != ss.apiConfigurationName && n != ss.apiElementsConfigurationName
                         && n != ss.implementationConfigurationName) ==> r.configurations[n] == c[n]
  {
    var api := ss.apiConfigurationName;
    var c1 := MaybeCreate(c, api);
    var c2 := c1[api := HiddenApi(c1[api], ss)];
    if ss.apiElementsConfigurationName !in c2 then Effect(c2, Some(UnknownConfiguration(ss.apiElementsConfigurationName)))
    else
      var c3 := AddParent(c2, ss.apiElementsConfigurationName, api);
      if ss.implementationConfigurationName !in c3 then Effect(c3, Some(UnknownConfiguration(ss.implementationConfigurationName)))
      else
        var c4 := AddParent(c3, ss.implementationConfigurationName, api);
        if ss.compileConfigurationName !in c4 then Effect(c4, Some(UnknownConfiguration(ss.compileConfigurationName)))
        else Effect(AddParent(c4, api, ss.compileConfigurationName), None)
  }

  /** The api configuration is hidden even when a later lookup throws. */
  lemma AddApiHidesApi(c: ConfigurationMap, ss: SourceSet)
    ensures var r := AddApiEffect(c, ss).configurations[ss.apiConfigurationName];
            !r.visible && !r.canBeResolved && !r.canBeConsumed && r.description == Some(ApiDescription(ss))
  {
  }

  /**
   * When a later lookup throws, the edges wired before it stay: a missing
   * implementation leaves apiElements extending api, and a missing compile
   * leaves both apiElements and implementation extending api.
   */
  lemma AddApiKeepsEarlierWiring(c: ConfigurationMap, ss: SourceSet)
    ensures var e := AddApiEffect(c, ss);
            e.failure == Some(UnknownConfiguration(ss.implementationConfigurationName))
            && ss.implementationConfigurationName != ss.apiElementsConfigurationName
            ==> ss.apiConfigurationName in e.configurations[ss.apiElementsConfigurationName].extendsFrom
    ensures var e := AddApiEffect(c, ss);
            e.failure == Some(UnknownConfiguration(ss.compileConfigurationName))
            && ss.compileConfigurationName != ss.apiElementsConfigurationName
            && ss.compileConfigurationName != ss.implementationConfigurationName
            ==> && ss.apiConfigurationName in e.configurations[ss.apiElementsConfigurationName].extendsFrom
                && ss.apiConfigurationName in e.configurations[ss.implementationConfigurationName].extendsFrom
  {
  }

  /** On success, the extendsFrom edges are wired and configurations with other names are untouched. */
  lemma AddApiWiring(c: ConfigurationMap, ss: SourceSet)
    requires AddApiEffect(c, ss).failure == None
    ensures var r := AddApiEffect(c, ss).configurations;
            && ss.apiConfigurationName in r[ss.apiElementsConfigurationName].extendsFrom
            && ss.apiConfigurationName in r[ss.implementationConfigurationName].extendsFrom
            && ss.compileConfigurationName in r[ss.apiConfigurationName].extendsFrom
    ensures var r := AddApiEffect(c, ss).configurations;
            forall n :: (n in c && n != ss.apiConfigurationName && n != ss.apiElementsConfigurationName
                         && n != ss.implementationConfigurationName) ==> r[n] == c[n]
  {
  }

  /**
   * On success, the three configurations it touches change only as wired:
   * apiElements and implementation gain the api parent, and api is hidden
   * and gains the compile parent.
   */
  lemma AddApiOnlyWires(c: ConfigurationMap, ss: SourceSet)
    requires AddApiEffect(c, ss).failure == None
    requires ss.apiConfigurationName != ss.apiElementsConfigurationName
    requires ss.apiConfigurationName != ss.implementationConfigurationName
    ensures var r := AddApiEffect(c, ss).configurations;
            var elements := c[ss.apiElementsConfigurationName];
            r[ss.apiElementsConfigurationName] == elements.(extendsFrom := elements.extendsFrom + {ss.apiConfigurationName})
    ensures var r := AddApiEffect(c, ss).configurations;
            var implementation := c[ss.implementationConfigurationName];
            r[ss.implementationConfigurationName] == implementation.(extendsFrom := implementation.extendsFrom + {ss.apiConfigurationName})
    ensures var r := AddApiEffect(c, ss).configurations;
            var api := HiddenApi(MaybeCreate(c, ss.apiConfigurationName)[ss.apiConfigurationName], ss);
            r[ss.apiConfigurationName] == api.(extendsFrom := api.extendsFrom + {ss.compileConfigurationName})
  {
  }

  /** Adding a parent that is already there changes nothing. */
  lemma AddParentPresent(c: ConfigurationMap, child: string, parent: string)
    requires child in c && parent in c[child].extendsFrom
    ensures AddParent(c, child, parent) == c
  {
    assert c[child].extendsFrom + {parent} == c[child].extendsFrom;
  }

  /** A container already wired and hidden as `addApiToSourceSet` leaves it is left alone by it. */
  lemma AddApiFixedPoint(r: ConfigurationMap, ss: SourceSet)
    requires ss.apiConfigurationName in r && HiddenApi(r[ss.apiConfigurationName], ss) == r[ss.apiConfigurationName]
    requires ss.apiElementsConfigurationName in r && ss.apiConfigurationName in r[ss.apiElementsConfigurationName].extendsFrom
    requires ss.implementationConfigurationName in r && ss.apiConfigurationName in r[ss.implementationConfigurationName].extendsFrom
    requires ss.compileConfigurationName in r && ss.compileConfigurationName in r[ss.apiConfigurationName].extendsFrom
    ensures AddApiEffect(r, ss) == Effect(r, None)
  {
    var api := ss.apiConfigurationName;
    assert MaybeCreate(r, api) == r;
    assert r[api := HiddenApi(r[api], ss)] == r;
    AddParentPresent(r, ss.apiElementsConfigurationName, api);
    AddParentPresent(r, ss.implementationConfigurationName, api);
    AddParentPresent(r, api, ss.compileConfigurationName);
  }

  /** Calling `addApiToSourceSet` a second time changes nothing. */
  lemma AddApiIdempotent(c: ConfigurationMap, ss: SourceSet)
    requires AddApiEffect(c, ss).failure == None
    ensures AddApiEffect(AddApiEffect(c, ss).configurations, ss) == AddApiEffect(c, ss)
  {
    var e := AddApiEffect(c, ss);
    var api := ss.apiConfigurationName;
    AddApiWiring(c, ss);
    AddApiHidesApi(c, ss);
    assert HiddenApi(e.configurations[api], ss) == e.configurations[api];
    AddApiFixedPoint(e.configurations, ss);
  }

  // ---------------------------------------------------------------------
  // the "classes" variant

  const ClassesVariant: string := "classes"

  /** One class-directory artifact per classes directory, in order. */
  function ClassDirectoryArtifacts(dirs: seq<string>, compileDependencies: seq<string>): (r: seq<ClassDirectoryArtifact>)
    ensures |r| == |dirs|
  {
    if dirs == [] then []
    else ClassDirectoryArtifacts(dirs[..|dirs| - 1], compileDependencies) + [ClassDirectoryArtifact(dirs[|dirs| - 1], compileDependencies)]
  }

  lemma {:induction false} ClassDirectoryArtifactsOnePerDirectory(dirs: seq<string>, compileDependencies: seq<string>)
    ensures |ClassDirectoryArtifacts(dirs, compileDependencies)| == |dirs|
    ensures forall i :: 0 <= i < |dirs| ==>
              ClassDirectoryArtifacts(dirs, compileDependencies)[i] == ClassDirectoryArtifact(dirs[i], compileDependencies)
  {
    if dirs != [] {
      ClassDirectoryArtifactsOnePerDirectory(dirs[..|dirs| - 1], compileDependencies);
    }
  }

  /** `registerClassesDirVariant`: find-or-create the "classes" variant, tag it as classes, give it the source set's classes directories. */
  function WithClassesVariant(cfg: Configuration, ss: SourceSet): (r: Configuration)
    ensures r.variants.Keys == cfg.variants.Keys + {ClassesVariant}
    ensures r.(variants := cfg.variants) == cfg
  {
    var v := if ClassesVariant in cfg.variants then cfg.variants[ClassesVariant] else ConfigurationVariant(map[], []);
    cfg.(variants := cfg.variants[ClassesVariant := v.(
      attributes := v.attributes[LibraryElements := ElementsClasses],
      artifacts := ClassDirectoryArtifacts(ss.classesDirs, ss.compileDependencies))])
  }

  /**
   * The classes variant carries the classes library elements and one artifact
   * per classes directory; its other attributes, the other variants and the
   * rest of the configuration are unchanged; registering twice is registering once.
   */
  lemma ClassesVariantRegistered(cfg: Configuration, ss: SourceSet)
    ensures var r := WithClassesVariant(cfg, ss);
            && ClassesVariant in r.variants
            && Lookup(r.variants[ClassesVariant].attributes, LibraryElements) == Some(ElementsClasses)
            && r.variants[ClassesVariant].artifacts == ClassDirectoryArtifacts(ss.classesDirs, ss.compileDependencies)
            && r.(variants := cfg.variants) == cfg
    ensures var r := WithClassesVariant(cfg, ss);
            forall n :: n in cfg.variants && n != ClassesVariant ==> n in r.variants && r.variants[n] == cfg.variants[n]
    ensures ClassesVariant in cfg.variants ==>
            var before := cfg.variants[ClassesVariant].attributes;
            var after := WithClassesVariant(cfg, ss).variants[ClassesVariant].attributes;
            forall k :: k != LibraryElements ==> Lookup(after, k) == Lookup(before, k)
    ensures ClassesVariant !in cfg.variants ==>
            WithClassesVariant(cfg, ss).variants[ClassesVariant].attributes == map[LibraryElements := ElementsClasses]
  {
  }

  /** Registering the classes variant twice is registering it once. */
  lemma ClassesVariantIdempotent(cfg: Configuration, ss: SourceSet)
    ensures WithClassesVariant(WithClassesVariant(cfg, ss), ss) == WithClassesVariant(cfg, ss)
  {
    var r := WithClassesVariant(cfg, ss);
    var v := r.variants[ClassesVariant];
    assert v.attributes[LibraryElements := ElementsClasses] == v.attributes;
    assert v.(attributes := v.attributes[LibraryElements := ElementsClasses],
              artifacts := ClassDirectoryArtifacts(ss.classesDirs, ss.compileDependencies)) == v;
    assert r.variants[ClassesVariant := v] == r.variants;
  }

  // ---------------------------------------------------------------------
  // the outgoing-elements builder

  /** The fields of the builder. Unset lists are empty lists: build() treats both alike. */
  datatype BuilderState = BuilderState(
    name: string,
    description: Option<string>,
    api: bool,
    extendsFrom: seq<string>,
    sourceSet: Option<SourceSet>,
    artifactProducers: seq<TaskProvider>,
    attributesRefiner: seq<DetailsCall>,
    capabilities: seq<Capability>,
    classDirectory: bool)

  /** A fresh builder: nothing set, role runtime. */
  function NewBuilder(name: string): BuilderState
  {
    BuilderState(name, None, false, [], None, [], [], [], false)
  }

  /** One call on the builder. */
  datatype BuilderCall =
    | WithDescription(text: string)
    | ForApi
    | ForRuntime
    | ExtendsFrom(parents: seq<string>)
    | FromSourceSet(source: SourceSet)
    | AddArtifact(producer: TaskProvider)
    | Attributes(refiner: seq<DetailsCall>)
    | WithCapabilities(coordinates: seq<Capability>)
    | WithClassDirectoryVariant

  /** The builder fields, one per group of calls that write the same field. */
  datatype BuilderField =
    DescriptionField | RoleField | ExtendsFromField | SourceSetField | ArtifactsField | RefinerField | CapabilitiesField | ClassDirectoryField

  function Field(call: BuilderCall): BuilderField
  {
    match call
    case WithDescription(_) => DescriptionField
    case ForApi | ForRuntime => RoleField
    case ExtendsFrom(_) => ExtendsFromField
    case FromSourceSet(_) => SourceSetField
    case AddArtifact(_) => ArtifactsField
    case Attributes(_) => RefinerField
    case WithCapabilities(_) => CapabilitiesField
    case WithClassDirectoryVariant => ClassDirectoryField
  }

  /** One builder call: every setter overwrites its field, except addArtifact, which appends. */
  function Step(s: BuilderState, call: BuilderCall): (r: BuilderState)
    ensures r.name == s.name
    ensures s.artifactProducers <= r.artifactProducers
  {
    match call
    case WithDescription(d) => s.(description := Some(d))
    case ForApi => s.(api := true)
    case ForRuntime => s.(api := false)
    case ExtendsFrom(ps) => s.(extendsFrom := ps)
    case FromSourceSet(ss) => s.(sourceSet := Some(ss))
    case AddArtifact(p) => s.(artifactProducers := s.artifactProducers + [p])
    case Attributes(r) => s.(attributesRefiner := r)
    case WithCapabilities(cs) => s.(capabilities := cs)
    case WithClassDirectoryVariant => s.(classDirectory := true)
  }

  /** A sequence of builder calls, in order. The builder's name never changes. */
  function Steps(s: BuilderState, calls: seq<BuilderCall>): (r: BuilderState)
    ensures r.name == s.name
  {
    if calls == [] then s else Step(Steps(s, calls[..|calls| - 1]), calls[|calls| - 1])
  }

  /** The producers passed to addArtifact, in call order. */
  function Producers(calls: seq<BuilderCall>): seq<TaskProvider>
  {
    if calls == [] then []
    else
      var last := calls[|calls| - 1];
      Producers(calls[..|calls| - 1]) + if last.AddArtifact? then [last.producer] else []
  }

  lemma {:induction false} StepsAppend(s: BuilderState, xs: seq<BuilderCall>, ys: seq<BuilderCall>)
    ensures Steps(s, xs + ys) == Steps(Steps(s, xs), ys)
  {
    if ys == [] {
      assert xs + ys == xs;
    } else {
      assert (xs + ys)[..|xs + ys| - 1] == xs + ys[..|ys| - 1];
      StepsAppend(s, xs, ys[..|ys| - 1]);
    }
  }

  /** addArtifact appends: the producers end up one per call, in call order, after those already there. */
  lemma {:induction false} StepsArtifacts(s: BuilderState, calls: seq<BuilderCall>)
    ensures Steps(s, calls).artifactProducers == s.artifactProducers + Producers(calls)
  {
    if calls != [] {
      StepsArtifacts(s, calls[..|calls| - 1]);
    }
  }

  /** No call in `calls` writes field `f`. */
  predicate Untouched(calls: seq<BuilderCall>, f: BuilderField)
  {
    forall i :: 0 <= i < |calls| ==> Field(calls[i]) != f
  }

  /** One call leaves every field it does not write as it was. */
  lemma StepKeeps(s: BuilderState, call: BuilderCall)
    ensures Field(call) != DescriptionField ==> Step(s, call).description == s.description
    ensures Field(call) != RoleField ==> Step(s, call).api == s.api
    ensures Field(call) != ExtendsFromField ==> Step(s, call).extendsFrom == s.extendsFrom
    ensures Field(call) != SourceSetField ==> Step(s, call).sourceSet == s.sourceSet
    ensures Field(call) != RefinerField ==> Step(s, call).attributesRefiner == s.attributesRefiner
    ensures Field(call) != CapabilitiesField ==> Step(s, call).capabilities == s.capabilities
    ensures Step(s, call).classDirectory <==> s.classDirectory || call == WithClassDirectoryVariant
  {
  }

  lemma UntouchedSplit(calls: seq<BuilderCall>, f: BuilderField)
    requires calls != []
    ensures Untouched(calls, f) <==> Untouched(calls[..|calls| - 1], f) && Field(calls[|calls| - 1]) != f
  {
    if Untouched(calls[..|calls| - 1], f) && Field(calls[|calls| - 1]) != f {
      forall i | 0 <= i < |calls| ensures Field(calls[i]) != f {
        if i < |calls| - 1 {
          assert calls[i] == calls[..|calls| - 1][i];
        }
      }
    }
  }

  /** Calls on other fields leave each overwritten field as it was. */
  lemma {:induction false} StepsKeepFields(s: BuilderState, calls: seq<BuilderCall>)
    ensures Untouched(calls, DescriptionField) ==> Steps(s, calls).description == s.description
    ensures Untouched(calls, RoleField) ==> Steps(s, calls).api == s.api
    ensures Untouched(calls, ExtendsFromField) ==> Steps(s, calls).extendsFrom == s.extendsFrom
    ensures Untouched(calls, SourceSetField) ==> Steps(s, calls).sourceSet == s.sourceSet
    ensures Untouched(calls, RefinerField) ==> Steps(s, calls).attributesRefiner == s.attributesRefiner
    ensures Untouched(calls, CapabilitiesField) ==> Steps(s, calls).capabilities == s.capabilities
  {
    if calls != [] {
      var init := calls[..|calls| - 1];
      StepsKeepFields(s, init);
      StepKeeps(Steps(s, init), calls[|calls| - 1]);
      UntouchedSplit(calls, DescriptionField);
      UntouchedSplit(calls, RoleField);
      UntouchedSplit(calls, ExtendsFromField);
      UntouchedSplit(calls, SourceSetField);
      UntouchedSplit(calls, RefinerField);
      UntouchedSplit(calls, CapabilitiesField);
    }
  }

  /** The class-directory flag is set exactly when it was set before or some call sets it. */
  lemma {:induction false} StepsClassDirectory(s: BuilderState, calls: seq<BuilderCall>)
    ensures Steps(s, calls).classDirectory <==> s.classDirectory || WithClassDirectoryVariant in calls
  {
    if calls != [] {
      var init := calls[..|calls| - 1];
      var last := calls[|calls| - 1];
      StepsClassDirectory(s, init);
      StepKeeps(Steps(s, init), last);
      assert calls == init + [last];
      assert WithClassDirectoryVariant in calls <==> WithClassDirectoryVariant in init || last == WithClassDirectoryVariant;
    }
  }

  /** Calls on other fields leave a field as it was; the class-directory flag, once set, stays set. */
  lemma StepsUntouched(s: BuilderState, calls: seq<BuilderCall>)
    ensures Untouched(calls, DescriptionField) ==> Steps(s, calls).description == s.description
    ensures Untouched(calls, RoleField) ==> Steps(s, calls).api == s.api
    ensures Untouched(calls, ExtendsFromField) ==> Steps(s, calls).extendsFrom == s.extendsFrom
    ensures Untouched(calls, SourceSetField) ==> Steps(s, calls).sourceSet == s.sourceSet
    ensures Untouched(calls, RefinerField) ==> Steps(s, calls).attributesRefiner == s.attributesRefiner
    ensures Untouched(calls, CapabilitiesField) ==> Steps(s, calls).capabilities == s.capabilities
    ensures Steps(s, calls).classDirectory <==> s.classDirectory || WithClassDirectoryVariant in calls
  {
    StepsKeepFields(s, calls);
    StepsClassDirectory(s, calls);
  }

  /** Last call wins for every overwriting setter: a later call on another field does not undo it. */
  lemma LastCallWins(s: BuilderState, before: seq<BuilderCall>, call: BuilderCall, after: seq<BuilderCall>)
    requires Field(call) != ArtifactsField
    requires Untouched(after, Field(call))
    ensures var r := Steps(s, before + [call] + after);
            match call
            case WithDescription(d) => r.description == Some(d)
            case ForApi => r.api
            case ForRuntime => !r.api
            case ExtendsFrom(ps) => r.extendsFrom == ps
            case FromSourceSet(ss) => r.sourceSet == Some(ss)
            case Attributes(refiner) => r.attributesRefiner == refiner
            case WithCapabilities(cs) => r.capabilities == cs
            case WithClassDirectoryVariant => r.classDirectory
            case AddArtifact(_) => true
  {
    var mid := Steps(s, before + [call]);
    StepsAppend(s, before + [call], after);
    assert (before + [call])[..|before + [call]| - 1] == before;
    StepsUntouched(mid, after);
  }

  /** A builder on which forApi and forRuntime are never called builds a runtime variant. */
  lemma DefaultRoleIsRuntime(name: string, calls: seq<BuilderCall>)
    requires Untouched(calls, RoleField)
    ensures !Steps(NewBuilder(name), calls).api
  {
    StepsUntouched(NewBuilder(name), calls);
  }

  // ---------------------------------------------------------------------
  // build()

  /** The attribute calls of build(): library, jar, external, then the role's usage. */
  function DefaultCalls(api: bool): (r: seq<DetailsCall>)
    ensures |r| == 4
    ensures forall i, j :: 0 <= i < j < |r| ==> KeyOf(r[i]) != KeyOf(r[j])
  {
    [Library, AsJar, WithExternalDependencies, if api then ProvidingApi else ProvidingRuntime]
  }

  /** One lazy artifact per producer, in order. */
  function LazyArtifacts(producers: seq<TaskProvider>): (r: seq<PublishArtifact>)
    ensures |r| == |producers|
  {
    if producers == [] then []
    else LazyArtifacts(producers[..|producers| - 1]) + [LazyPublishArtifact(producers[|producers| - 1])]
  }

  lemma {:induction false} LazyArtifactsOnePerProducer(producers: seq<TaskProvider>)
    ensures |LazyArtifacts(producers)| == |producers|
    ensures forall i :: 0 <= i < |producers| ==> LazyArtifacts(producers)[i] == LazyPublishArtifact(producers[i])
  {
    if producers != [] {
      LazyArtifactsOnePerProducer(producers[..|producers| - 1]);
    }
  }

  lemma {:induction false} LazyArtifactsAppend(xs: seq<TaskProvider>, ys: seq<TaskProvider>)
    ensures LazyArtifacts(xs + ys) == LazyArtifacts(xs) + LazyArtifacts(ys)
  {
    if ys == [] {
      assert xs + ys == xs;
    } else {
      assert (xs + ys)[..|xs + ys| - 1] == xs + ys[..|ys| - 1];
      LazyArtifactsAppend(xs, ys[..|ys| - 1]);
    }
  }

  /** The configuration build() leaves behind, before its class-directory checks. */
  function Built(cfg: Configuration, b: BuilderState): (r: Configuration)
    ensures !r.visible && r.canBeConsumed && !r.canBeResolved
    ensures cfg.extendsFrom <= r.extendsFrom && cfg.artifacts <= r.artifacts && cfg.capabilities <= r.capabilities
    ensures r.variants == cfg.variants
  {
    var c1 := if b.description.Some? then cfg.(description := b.description) else cfg;
    var c2 := c1.(visible := false, canBeConsumed := true, canBeResolved := false);
    var c3 := c2.(extendsFrom := c2.extendsFrom + set p | p in b.extendsFrom);
    var c4 := c3.(attributes := ApplyAll(c3.attributes, DefaultCalls(b.api) + b.attributesRefiner));
    var c5 := if b.sourceSet.Some? then c4.(beforeLocking := c4.beforeLocking + [TargetPlatformAction(c4.canBeConsumed, b.sourceSet.value.compileJava)]) else c4;
    var c6 := c5.(artifacts := c5.artifacts + LazyArtifacts(b.artifactProducers));
    c6.(capabilities := c6.capabilities + b.capabilities)
  }

  /** Field by field, what build() does to the configuration it found or created. */
  lemma BuiltFields(cfg: Configuration, b: BuilderState)
    ensures var r := Built(cfg, b);
            && r.description == (if b.description.Some? then b.description else cfg.description)
            && !r.visible && r.canBeConsumed && !r.canBeResolved
            && r.extendsFrom == cfg.extendsFrom + (set p | p in b.extendsFrom)
            && r.attributes == ApplyAll(cfg.attributes, DefaultCalls(b.api) + b.attributesRefiner)
            && r.beforeLocking == cfg.beforeLocking + (if b.sourceSet.Some? then [TargetPlatformAction(true, b.sourceSet.value.compileJava)] else [])
            && r.artifacts == cfg.artifacts + LazyArtifacts(b.artifactProducers)
            && r.capabilities == cfg.capabilities + b.capabilities
            && r.variants == cfg.variants
  {
  }

  /** A configuration carrying every field build() writes is the one Built describes. */
  lemma BuiltByFields(cfg: Configuration, b: BuilderState, r: Configuration)
    requires r.description == (if b.description.Some? then b.description else cfg.description)
    requires !r.visible && r.canBeConsumed && !r.canBeResolved
    requires r.extendsFrom == cfg.extendsFrom + (set p | p in b.extendsFrom)
    requires r.attributes == ApplyAll(cfg.attributes, DefaultCalls(b.api) + b.attributesRefiner)
    requires r.beforeLocking == cfg.beforeLocking + (if b.sourceSet.Some? then [TargetPlatformAction(true, b.sourceSet.value.compileJava)] else [])
    requires r.artifacts == cfg.artifacts + LazyArtifacts(b.artifactProducers)
    requires r.capabilities == cfg.capabilities + b.capabilities
    requires r.variants == cfg.variants
    ensures r == Built(cfg, b)
  {
    BuiltFields(cfg, b);
  }

  /** The class-directory preconditions, role first, then source set. */
  function ClassDirectoryFailure(b: BuilderState): (r: Option<Failure>)
    ensures r == Some(RuntimeClassDirectoryVariant) <==> b.classDirectory && !b.api
    ensures r == Some(ClassDirectoryWithoutSourceSet) <==> b.classDirectory && b.api && b.sourceSet.None?
    ensures r == None <==> !b.classDirectory || (b.api && b.sourceSet.Some?)
  {
    if !b.classDirectory then None
    else if !b.api then Some(RuntimeClassDirectoryVariant)
    else if b.sourceSet.None? then Some(ClassDirectoryWithoutSourceSet)
    else None
  }

  /**
   * build(): find-or-create the configuration, update it, then check the
   * class-directory preconditions; only a successful check registers the
   * classes variant. A failed check leaves the updated configuration in place.
   */
  function AfterBuild(c: ConfigurationMap, b: BuilderState): (r: Effect)
    ensures r.configurations.Keys == c.Keys + {b.name}
    ensures forall n :: n in c && n != b.name ==> r.configurations[n] == c[n]
    ensures r.failure == ClassDirectoryFailure(b)
    ensures r.failure.Some? || !b.classDirectory ==> r.configurations[b.name] == Built(FindOrCreate(c, b.name), b)
    ensures r.failure.None? && b.classDirectory ==>
              r.configurations[b.name] == WithClassesVariant(Built(FindOrCreate(c, b.name), b), b.sourceSet.value)
  {
    var c1 := c[b.name := Built(FindOrCreate(c, b.name), b)];
    match ClassDirectoryFailure(b)
    case Some(f) => Effect(c1, Some(f))
    case None =>
      if b.classDirectory then Effect(c1[b.name := WithClassesVariant(c1[b.name], b.sourceSet.value)], None)
      else Effect(c1, None)
  }

  /** Whatever the checks decide, the built configuration differs from Built(...) in its variants at most. */
  lemma AfterBuildConfiguration(c: ConfigurationMap, b: BuilderState)
    ensures var built := Built(FindOrCreate(c, b.name), b);
            AfterBuild(c, b).configurations[b.name].(variants := built.variants) == built
  {
    if ClassDirectoryFailure(b).None? && b.classDirectory {
      ClassesVariantRegistered(Built(FindOrCreate(c, b.name), b), b.sourceSet.value);
    }
  }

  /** The attribute value build() gives a key before the refiner runs. */
  function BuildDefault(api: bool, previous: AttributeMap, k: Attribute): Option<AttributeValue>
  {
    match k
    case Category => Some(CategoryLibrary)
    case LibraryElements => Some(ElementsJar)
    case Bundling => Some(BundlingExternal)
    case Usage => Some(if api then UsageJavaApi else UsageJavaRuntime)
    case TargetJvmVersion => Lookup(previous, k)
  }

  /** The built configuration is consumable, not resolvable, invisible; the description is replaced only when one was given. */
  lemma BuildFlags(c: ConfigurationMap, b: BuilderState)
    ensures var r := AfterBuild(c, b).configurations[b.name];
            && !r.visible && r.canBeConsumed && !r.canBeResolved
            && r.description == if b.description.Some? then b.description else FindOrCreate(c, b.name).description
  {
    AfterBuildConfiguration(c, b);
    BuiltFields(FindOrCreate(c, b.name), b);
  }

  /**
   * The built attributes: each key holds the refiner's last write to it if
   * it writes it, and otherwise library / jar / external / the role's usage.
   */
  lemma BuildAttributes(c: ConfigurationMap, b: BuilderState, k: Attribute)
    ensures var r := AfterBuild(c, b).configurations[b.name].attributes;
            Lookup(r, k) == if LastWrite(b.attributesRefiner, k).Some? then LastWrite(b.attributesRefiner, k)
                            else BuildDefault(b.api, FindOrCreate(c, b.name).attributes, k)
  {
    var prev := FindOrCreate(c, b.name).attributes;
    var calls := DefaultCalls(b.api) + b.attributesRefiner;
    AfterBuildConfiguration(c, b);
    BuiltFields(FindOrCreate(c, b.name), b);
    ApplyAllLastWriteWins(prev, calls, k);
    LastWriteAppend(DefaultCalls(b.api), b.attributesRefiner, k);
    DefaultCallsWrite(b.api, k);
  }

  /** Without a refiner the four defaults hold exactly. */
  lemma BuildDefaultAttributes(c: ConfigurationMap, b: BuilderState)
    requires b.attributesRefiner == []
    ensures var r := AfterBuild(c, b).configurations[b.name].attributes;
            && Lookup(r, Category) == Some(CategoryLibrary)
            && Lookup(r, LibraryElements) == Some(ElementsJar)
            && Lookup(r, Bundling) == Some(BundlingExternal)
            && Lookup(r, Usage) == Some(if b.api then UsageJavaApi else UsageJavaRuntime)
  {
    BuildAttributes(c, b, Category);
    BuildAttributes(c, b, LibraryElements);
    BuildAttributes(c, b, Bundling);
    BuildAttributes(c, b, Usage);
  }

  /** The defaults build() writes before the refiner, key by key. */
  lemma DefaultCallsWrite(api: bool, k: Attribute)
    ensures LastWrite(DefaultCalls(api), k) == if k == TargetJvmVersion then None else BuildDefault(api, map[], k)
  {
    var calls := DefaultCalls(api);
    var c3, c2, c1 := calls[..3], calls[..2], calls[..1];
    assert c3[..2] == c2 && c2[..1] == c1 && c1[..0] == [];
    assert LastWrite(c1, k) == if k == Category then Some(CategoryLibrary) else None;
    assert LastWrite(c2, k) == if k == LibraryElements then Some(ElementsJar) else LastWrite(c1, k);
    assert LastWrite(c3, k) == if k == Bundling then Some(BundlingExternal) else LastWrite(c2, k);
    assert LastWrite(calls, k) == if k == Usage then BuildDefault(api, map[], Usage) else LastWrite(c3, k);
  }

  /** Artifacts and capabilities are appended to those already there; parents are added. */
  lemma BuildAppends(c: ConfigurationMap, b: BuilderState)
    ensures var prev := FindOrCreate(c, b.name);
            var r := AfterBuild(c, b).configurations[b.name];
            && r.artifacts == prev.artifacts + LazyArtifacts(b.artifactProducers)
            && r.capabilities == prev.capabilities + b.capabilities
            && r.extendsFrom == prev.extendsFrom + set p | p in b.extendsFrom
            && r.beforeLocking == prev.beforeLocking + if b.sourceSet.Some? then [TargetPlatformAction(true, b.sourceSet.value.compileJava)] else []
  {
    AfterBuildConfiguration(c, b);
    BuiltFields(FindOrCreate(c, b.name), b);
  }

  /**
   * Building twice with the same name keeps one configuration of that name,
   * which the second build updates: the artifacts of both builds accumulate.
   */
  lemma BuildTwiceUpdatesInPlace(c: ConfigurationMap, first: BuilderState, second: BuilderState)
    requires first.name == second.name
    ensures var r := AfterBuild(AfterBuild(c, first).configurations, second).configurations;
            && r.Keys == c.Keys + {first.name}
            && r[first.name].artifacts == FindOrCreate(c, first.name).artifacts
                                           + LazyArtifacts(first.artifactProducers) + LazyArtifacts(second.artifactProducers)
            && !r[first.name].visible && r[first.name].canBeConsumed && !r[first.name].canBeResolved
  {
    BuildAppends(c, first);
    BuildAppends(AfterBuild(c, first).configurations, second);
    BuildFlags(AfterBuild(c, first).configurations, second);
  }

  /** The outgoing configuration ends up with one artifact per addArtifact call, in call order. */
  lemma OutgoingArtifactsInCallOrder(c: ConfigurationMap, name: string, calls: seq<BuilderCall>)
    ensures AfterBuild(c, Steps(NewBuilder(name), calls)).configurations[name].artifacts
            == FindOrCreate(c, name).artifacts + LazyArtifacts(Producers(calls))
  {
    var b := Steps(NewBuilder(name), calls);
    StepsArtifacts(NewBuilder(name), calls);
    assert b.artifactProducers == Producers(calls);
    BuildAppends(c, b);
  }

  /** Without forApi, forRuntime or a refiner, the outgoing configuration has runtime usage. */
  lemma OutgoingDefaultsToRuntime(c: ConfigurationMap, name: string, calls: seq<BuilderCall>)
    requires Untouched(calls, RoleField) && Untouched(calls, RefinerField)
    ensures Lookup(AfterBuild(c, Steps(NewBuilder(name), calls)).configurations[name].attributes, Usage) == Some(UsageJavaRuntime)
  {
    var b := Steps(NewBuilder(name), calls);
    StepsKeepFields(NewBuilder(name), calls);
    BuildAttributes(c, b, Usage);
  }

  /**
   * The target-platform inference build() registers is always enabled,
   * because the configuration was made consumable first: it never skips and
   * never consults the convention.
   */
  lemma BuildInferenceAlwaysEnabled(c: ConfigurationMap, b: BuilderState, convention: Option<JavaConvention>)
    requires b.sourceSet.Some?
    ensures var actions := AfterBuild(c, b).configurations[b.name].beforeLocking;
            && |actions| > 0
            && actions[|actions| - 1] == TargetPlatformAction(true, b.sourceSet.value.compileJava)
    ensures var v := TargetMajorVersion(true, convention, b.sourceSet.value.compileJava);
            v != Err(NoJavaConvention) && (v.Ok? ==> v.value.Some?)
  {
    BuildAppends(c, b);
  }

  // ---------------------------------------------------------------------
  // classpath presets and the target platform

  /** configureAsCompileClasspath: library, api usage, external bundling. */
  const CompileClasspathCalls: seq<DetailsCall> := [Library, ProvidingApi, WithExternalDependencies]

  /** configureAsRuntimeClasspath: library, runtime usage, jar, external bundling. */
  const RuntimeClasspathCalls: seq<DetailsCall> := [Library, ProvidingRuntime, AsJar, WithExternalDependencies]

  /** The compile classpath preset writes category, usage and bundling, and leaves the library elements alone. */
  lemma CompileClasspathAttributes(m: AttributeMap)
    ensures var r := ApplyAll(m, CompileClasspathCalls);
            && Lookup(r, Category) == Some(CategoryLibrary)
            && Lookup(r, Usage) == Some(UsageJavaApi)
            && Lookup(r, Bundling) == Some(BundlingExternal)
            && Lookup(r, LibraryElements) == Lookup(m, LibraryElements)
            && Lookup(r, TargetJvmVersion) == Lookup(m, TargetJvmVersion)
  {
    var none: seq<DetailsCall> := [];
    ApplyAllSnoc(m, none, Library);
    ApplyAllSnoc(m, [Library], ProvidingApi);
    ApplyAllSnoc(m, [Library, ProvidingApi], WithExternalDependencies);
    assert none + [Library] == [Library];
    assert [Library] + [ProvidingApi] == [Library, ProvidingApi];
    assert [Library, ProvidingApi] + [WithExternalDependencies] == CompileClasspathCalls;
  }

  /** The runtime classpath preset writes category, usage, library elements and bundling. */
  lemma RuntimeClasspathAttributes(m: AttributeMap)
    ensures var r := ApplyAll(m, RuntimeClasspathCalls);
            && Lookup(r, Category) == Some(CategoryLibrary)
            && Lookup(r, Usage) == Some(UsageJavaRuntime)
            && Lookup(r, LibraryElements) == Some(ElementsJar)
            && Lookup(r, Bundling) == Some(BundlingExternal)
            && Lookup(r, TargetJvmVersion) == Lookup(m, TargetJvmVersion)
  {
    var none: seq<DetailsCall> := [];
    ApplyAllSnoc(m, none, Library);
    ApplyAllSnoc(m, [Library], ProvidingRuntime);
    ApplyAllSnoc(m, [Library, ProvidingRuntime], AsJar);
    ApplyAllSnoc(m, [Library, ProvidingRuntime, AsJar], WithExternalDependencies);
    assert none + [Library] == [Library];
    assert [Library] + [ProvidingRuntime] == [Library, ProvidingRuntime];
    assert [Library, ProvidingRuntime] + [AsJar] == [Library, ProvidingRuntime, AsJar];
    assert [Library, ProvidingRuntime, AsJar] + [WithExternalDependencies] == RuntimeClasspathCalls;
  }

  /**
   * Running a registered target-platform action: on success the target JVM
   * version attribute holds the chosen major version (or nothing changes
   * when inference is off); a failure changes nothing.
   */
  function AppliedTargetPlatform(cfg: Configuration, action: TargetPlatformAction, convention: Option<JavaConvention>): (r: Result<Configuration, Failure>)
    ensures r.Ok? ==> r.value.(attributes := cfg.attributes) == cfg
    ensures r.Ok? ==> forall k :: k != TargetJvmVersion ==> Lookup(r.value.attributes, k) == Lookup(cfg.attributes, k)
    ensures var v := TargetMajorVersion(action.alwaysEnabled, convention, action.compileTask);
            && (v.Err? <==> r.Err?)
            && (v.Ok? && v.value.Some? ==> r.Ok? && Lookup(r.value.attributes, TargetJvmVersion) == Some(JvmVersion(v.value.value)))
            && (v == Ok(None) ==> r == Ok(cfg))
    ensures var v := TargetMajorVersion(action.alwaysEnabled, convention, action.compileTask);
            r.Err? ==> v.Err? && r.error == TargetPlatformFailure(v.error)
  {
    match TargetMajorVersion(action.alwaysEnabled, convention, action.compileTask)
    case Err(e) => Err(TargetPlatformFailure(e))
    case Ok(None) => Ok(cfg)
    case Ok(Some(v)) => Ok(cfg.(attributes := cfg.attributes[TargetJvmVersion := JvmVersion(v)]))
  }
}
