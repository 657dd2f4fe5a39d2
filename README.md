# JVM ecosystem utilities and CodeNarc conventions, modelled in Dafny

This project models two parts of the Gradle build tool.

**The JVM ecosystem utilities (`DefaultJvmEcosystemUtilities`).** Plugins use them to:
- wire the `api` configuration of a source set;
- tag configurations with the JVM attributes (category, usage, bundling, library elements);
- register the "classes" variant of a configuration;
- infer the target JVM version of a configuration from its compile task;
- build outgoing-elements configurations through a builder.

**The naming conventions and defaults of the CodeNarc plugin (`CodeNarcPlugin`):**
- the report suffix, output location and required flag;
- the extension defaults;
- the default dependency coordinate;
- the task description.

Modules:

- `Wrappers`: `Option` and `Result`.
- `JavaLang`: the few JDK behaviours the core relies on.
  - `Integer.parseInt` over ASCII decimal digits, within the 32-bit range.
  - `List.indexOf`.
- `JvmAttributes`: the attribute keys and values the details object writes.
  - Each details setter writes one key.
  - A sequence of setter calls (the body of an attribute action) folds over an attribute map.
  - The class `AttributesDetails` holds an attribute container that the setters update in place.
- `Configurations`: configuration records, and the container as a map from name to configuration.
  - `maybeCreate` and find-or-create.
- `TargetPlatform`: `getReleaseOption` and the major-version choice of `configureDefaultTargetPlatform`.
- `JvmEcosystemSpec`: the utilities as functions on the container, with the lemmas about them.
  - The builder's settings are a `BuilderState` value. The calls on the builder are `BuilderCall`s.
  - `build()` is `AfterBuild`, which returns the new container and the exception thrown, if any. A throw keeps the changes made before it.
- `JvmEcosystem`: the classes `JvmEcosystemUtilities` (which owns the container and the Java convention) and `ElementsBuilder`.
  - Their methods update fields in place.
  - Each method is proved against the matching function of `JvmEcosystemSpec`.
- `CodeNarc`: the plugin's extension defaults as an imperative class, and its naming rules as functions with lemmas.

## Model

| member | source | states |
|---|---|---|
| JavaLang.ParseInt | subprojects/plugins/src/main/java/org/gradle/api/plugins/internal/DefaultJvmEcosystemUtilities.java:185 | A parsed value is a 32-bit int and the input is nonempty; any failure is a NumberFormatException carrying the input |
| JavaLang.ParseIntRoundTripNonNegative | subprojects/plugins/src/main/java/org/gradle/api/plugins/internal/DefaultJvmEcosystemUtilities.java:185 | Every int from 0 to 2^31-1 printed in decimal parses back to itself |
| JavaLang.ParseIntRoundTripNegative | subprojects/plugins/src/main/java/org/gradle/api/plugins/internal/DefaultJvmEcosystemUtilities.java:185 | Every int from -2^31 to -1 printed with its minus sign parses back to itself |
| JavaLang.ParseIntRoundTrip | subprojects/plugins/src/main/java/org/gradle/api/plugins/internal/DefaultJvmEcosystemUtilities.java:185 | Every 32-bit int printed in decimal parses back to itself |
| JavaLang.ParseIntRejectsNonNumeric | subprojects/plugins/src/main/java/org/gradle/api/plugins/internal/DefaultJvmEcosystemUtilities.java:185 | A string with a non-digit anywhere other than a leading sign is rejected |
| JavaLang.ParseIntRejectsOutOfRange | subprojects/plugins/src/main/java/org/gradle/api/plugins/internal/DefaultJvmEcosystemUtilities.java:185 | A digit string above 2147483647, bare or after `+`, is rejected, and so is one above 2147483648 after `-` |
| JavaLang.ParseIntAcceptsInRange | subprojects/plugins/src/main/java/org/gradle/api/plugins/internal/DefaultJvmEcosystemUtilities.java:185 | A digit string of value at most 2147483647 reads as that value, bare or after `+`, leading zeros included ("08" and "+8" read as 8) |
| JavaLang.ParseIntAcceptsNegative | subprojects/plugins/src/main/java/org/gradle/api/plugins/internal/DefaultJvmEcosystemUtilities.java:185 | `-` followed by a digit string of value at most 2147483648 reads as minus that value, leading zeros included ("-0" reads as 0, "-08" as -8) |
| JavaLang.DigitsValueOfNatToString | subprojects/plugins/src/main/java/org/gradle/api/plugins/internal/DefaultJvmEcosystemUtilities.java:185 | Reading the decimal digits of a natural number gives that number back |
| JavaLang.IndexOf | subprojects/plugins/src/main/java/org/gradle/api/plugins/internal/DefaultJvmEcosystemUtilities.java:183 | -1 exactly when the element is absent; otherwise an index holding the element with no earlier occurrence |
| JavaLang.IndexOfAfterPrefix | subprojects/plugins/src/main/java/org/gradle/api/plugins/internal/DefaultJvmEcosystemUtilities.java:183 | The first occurrence after a prefix without one is found at the prefix's length |
| TargetPlatform.ReleaseOption | subprojects/plugins/src/main/java/org/gradle/api/plugins/internal/DefaultJvmEcosystemUtilities.java:182-188 | 0 when there is no `--release` flag or it is the last argument; otherwise the parsed argument after the first flag, parse errors included |
| TargetPlatform.ReleaseOptionAfterFlag | subprojects/plugins/src/main/java/org/gradle/api/plugins/internal/DefaultJvmEcosystemUtilities.java:182-188 | A `--release n` pair after arguments without the flag yields n |
| TargetPlatform.LaterReleaseIgnored | subprojects/plugins/src/main/java/org/gradle/api/plugins/internal/DefaultJvmEcosystemUtilities.java:183 | Only the first `--release` counts; later ones are ignored |
| TargetPlatform.TargetMajorVersion | subprojects/plugins/src/main/java/org/gradle/api/plugins/internal/DefaultJvmEcosystemUtilities.java:159-173 | Skips exactly when not always enabled and the convention disables auto target JVM. Throws the missing-convention exception exactly when not always enabled and no convention is set. Otherwise uses a positive release option, else the target compatibility, and fails exactly when the release option does not parse; any other failure carries the release option's NumberFormatException |
| TargetPlatform.ReleaseWinsOverTargetCompatibility | subprojects/plugins/src/main/java/org/gradle/api/plugins/internal/DefaultJvmEcosystemUtilities.java:164-166 | Whenever inference runs (always enabled, or enabled by the convention), a positive `--release` overrides target compatibility; when always enabled this holds whatever the convention |
| TargetPlatform.TargetCompatibilityWithoutRelease | subprojects/plugins/src/main/java/org/gradle/api/plugins/internal/DefaultJvmEcosystemUtilities.java:167-169 | With no positive release option, the target compatibility's major version is used |
| Configurations.MaybeCreate | subprojects/plugins/src/main/java/org/gradle/api/plugins/internal/DefaultJvmEcosystemUtilities.java:84 | The container afterwards holds the name; existing entries are unchanged; a new entry has the default configuration |
| Configurations.FindOrCreate | subprojects/plugins/src/main/java/org/gradle/api/plugins/internal/DefaultJvmEcosystemUtilities.java:84 | The configuration `maybeCreate` hands back is the entry the container holds for the name after the call |
| JvmAttributes.Apply | subprojects/plugins/src/main/java/org/gradle/api/plugins/internal/DefaultJvmEcosystemUtilities.java:321-373 | A details setter writes its one key with its value and leaves every other key alone |
| JvmAttributes.KeyOf | subprojects/plugins/src/main/java/org/gradle/api/plugins/internal/DefaultJvmEcosystemUtilities.java:321-373 | The key each details setter writes; no setter writes the target JVM version |
| JvmAttributes.ValueOf | subprojects/plugins/src/main/java/org/gradle/api/plugins/internal/DefaultJvmEcosystemUtilities.java:321-373 | The value each details setter writes is always one of the values of the key it writes |
| JvmAttributes.ApplyAll | subprojects/plugins/src/main/java/org/gradle/api/plugins/internal/DefaultJvmEcosystemUtilities.java:121-124 | An attribute action is its setter calls applied in order; it never removes an attribute |
| JvmAttributes.SettersSharingAKey | subprojects/plugins/src/main/java/org/gradle/api/plugins/internal/DefaultJvmEcosystemUtilities.java:321-373 | library/platform/enforcedPlatform share the category key and write distinct values. The three bundling setters share the bundling key and write distinct values. providingApi and providingRuntime share the usage key |
| JvmAttributes.SameKeyOverwrites | subprojects/plugins/src/main/java/org/gradle/api/plugins/internal/DefaultJvmEcosystemUtilities.java:321-373 | Two setters on the same key: the second one's value wins, as if the first had not run |
| JvmAttributes.ApplyAllLastWriteWins | subprojects/plugins/src/main/java/org/gradle/api/plugins/internal/DefaultJvmEcosystemUtilities.java:121-124 | After an attribute action, each key holds the last value written to it, or its earlier value if nothing wrote it |
| JvmAttributes.ApplyAllAppend | subprojects/plugins/src/main/java/org/gradle/api/plugins/internal/DefaultJvmEcosystemUtilities.java:216-228 | Running two actions in a row is running their concatenation |
| JvmAttributes.LastWriteAppend | subprojects/plugins/src/main/java/org/gradle/api/plugins/internal/DefaultJvmEcosystemUtilities.java:216-228 | In a concatenation of two actions, the second one's writes win |
| JvmAttributes.AttributesDetails.ProvidingApi | subprojects/plugins/src/main/java/org/gradle/api/plugins/internal/DefaultJvmEcosystemUtilities.java:322-325 | Usage becomes java-api; nothing else changes |
| JvmAttributes.AttributesDetails.ProvidingRuntime | subprojects/plugins/src/main/java/org/gradle/api/plugins/internal/DefaultJvmEcosystemUtilities.java:328-331 | Usage becomes java-runtime; nothing else changes |
| JvmAttributes.AttributesDetails.Library | subprojects/plugins/src/main/java/org/gradle/api/plugins/internal/DefaultJvmEcosystemUtilities.java:334-337 | Category becomes library; nothing else changes |
| JvmAttributes.AttributesDetails.Platform | subprojects/plugins/src/main/java/org/gradle/api/plugins/internal/DefaultJvmEcosystemUtilities.java:340-343 | Category becomes platform; nothing else changes |
| JvmAttributes.AttributesDetails.EnforcedPlatform | subprojects/plugins/src/main/java/org/gradle/api/plugins/internal/DefaultJvmEcosystemUtilities.java:346-349 | Category becomes enforced-platform; nothing else changes |
| JvmAttributes.AttributesDetails.WithExternalDependencies | subprojects/plugins/src/main/java/org/gradle/api/plugins/internal/DefaultJvmEcosystemUtilities.java:352-355 | Bundling becomes external; nothing else changes |
| JvmAttributes.AttributesDetails.WithEmbeddedDependencies | subprojects/plugins/src/main/java/org/gradle/api/plugins/internal/DefaultJvmEcosystemUtilities.java:358-361 | Bundling becomes embedded; nothing else changes |
| JvmAttributes.AttributesDetails.WithShadowedDependencies | subprojects/plugins/src/main/java/org/gradle/api/plugins/internal/DefaultJvmEcosystemUtilities.java:364-367 | Bundling becomes shadowed; nothing else changes |
| JvmAttributes.AttributesDetails.AsJar | subprojects/plugins/src/main/java/org/gradle/api/plugins/internal/DefaultJvmEcosystemUtilities.java:370-373 | Library elements become jar; nothing else changes |
| JvmAttributes.AttributesDetails.Execute | subprojects/plugins/src/main/java/org/gradle/api/plugins/internal/DefaultJvmEcosystemUtilities.java:123 | Running an action on the details object leaves the attributes of the fold of its calls |
| JvmAttributes.AttributesDetails.Perform | subprojects/plugins/src/main/java/org/gradle/api/plugins/internal/DefaultJvmEcosystemUtilities.java:321-373 | One setter call on the details object updates the attributes as Apply describes |
| JvmEcosystemSpec.AddParent | subprojects/plugins/src/main/java/org/gradle/api/plugins/internal/DefaultJvmEcosystemUtilities.java:91 | extendsFrom adds the one parent to the child and changes nothing else |
| JvmEcosystemSpec.ApiDescription | subprojects/plugins/src/main/java/org/gradle/api/plugins/internal/DefaultJvmEcosystemUtilities.java:86 | The api configuration's description, from which the source set's display name reads back |
| JvmEcosystemSpec.HiddenApi | subprojects/plugins/src/main/java/org/gradle/api/plugins/internal/DefaultJvmEcosystemUtilities.java:85-88 | The api configuration becomes invisible, unresolvable, unconsumable and described; every other field is kept |
| JvmEcosystemSpec.AddApiEffect | subprojects/plugins/src/main/java/org/gradle/api/plugins/internal/DefaultJvmEcosystemUtilities.java:83-99 | The api name is added to the container. A failure is the first of apiElements, implementation and compile that is missing, in that order. Whether or not a lookup throws, configurations with other names are left as they were |
| JvmEcosystemSpec.AddApiHidesApi | subprojects/plugins/src/main/java/org/gradle/api/plugins/internal/DefaultJvmEcosystemUtilities.java:84-88 | The api configuration ends up invisible, neither resolvable nor consumable, described as the source set's API dependencies, even when a later lookup throws |
| JvmEcosystemSpec.AddApiKeepsEarlierWiring | subprojects/plugins/src/main/java/org/gradle/api/plugins/internal/DefaultJvmEcosystemUtilities.java:89-99 | When a later lookup throws, the extendsFrom edges wired before it stay: a missing implementation leaves apiElements extending api, a missing compile leaves apiElements and implementation extending api |
| JvmEcosystemSpec.AddApiWiring | subprojects/plugins/src/main/java/org/gradle/api/plugins/internal/DefaultJvmEcosystemUtilities.java:90-98 | On success apiElements and implementation extend api and api extends compile; other configurations are unchanged |
| JvmEcosystemSpec.AddApiOnlyWires | subprojects/plugins/src/main/java/org/gradle/api/plugins/internal/DefaultJvmEcosystemUtilities.java:84-98 | On success (api named apart from apiElements and implementation), apiElements and implementation change only by gaining the api parent, and api is the hidden configuration plus the compile parent |
| JvmEcosystemSpec.AddParentPresent | subprojects/plugins/src/main/java/org/gradle/api/plugins/internal/DefaultJvmEcosystemUtilities.java:91 | Adding a parent that is already there changes nothing |
| JvmEcosystemSpec.AddApiFixedPoint | subprojects/plugins/src/main/java/org/gradle/api/plugins/internal/DefaultJvmEcosystemUtilities.java:83-99 | A container whose api configuration is already hidden and whose three parent edges are already present is left unchanged, with no failure |
| JvmEcosystemSpec.AddApiIdempotent | subprojects/plugins/src/main/java/org/gradle/api/plugins/internal/DefaultJvmEcosystemUtilities.java:83-99 | A second successful addApiToSourceSet changes nothing |
| JvmEcosystemSpec.ClassDirectoryArtifacts | subprojects/plugins/src/main/java/org/gradle/api/plugins/internal/DefaultJvmEcosystemUtilities.java:141-154 | The artifacts of the classes variant, one per classes directory |
| JvmEcosystemSpec.WithClassesVariant | subprojects/plugins/src/main/java/org/gradle/api/plugins/internal/DefaultJvmEcosystemUtilities.java:132-157 | Registering the classes variant adds (or keeps) the variant named classes and changes nothing outside the variants |
| JvmEcosystemSpec.ClassDirectoryArtifactsOnePerDirectory | subprojects/plugins/src/main/java/org/gradle/api/plugins/internal/DefaultJvmEcosystemUtilities.java:141-154 | One class-directory artifact per classes directory, in order, each carrying the compile dependencies |
| JvmEcosystemSpec.ClassesVariantRegistered | subprojects/plugins/src/main/java/org/gradle/api/plugins/internal/DefaultJvmEcosystemUtilities.java:132-157 | The "classes" variant exists, has library elements "classes" and the class-directory artifacts. Its other attributes, the other variants and the rest of the configuration are unchanged. A variant created by the registration has exactly the classes library elements as attributes |
| JvmEcosystemSpec.ClassesVariantIdempotent | subprojects/plugins/src/main/java/org/gradle/api/plugins/internal/DefaultJvmEcosystemUtilities.java:135 | Registering the classes variant twice is registering it once (maybeCreate) |
| JvmEcosystemSpec.Step | subprojects/plugins/src/main/java/org/gradle/api/plugins/internal/DefaultJvmEcosystemUtilities.java:256-311 | One builder call: the name is never changed and the artifact producers only grow |
| JvmEcosystemSpec.Steps | subprojects/plugins/src/main/java/org/gradle/api/plugins/internal/DefaultJvmEcosystemUtilities.java:201-203 | A builder's name never changes whatever is called on it |
| JvmEcosystemSpec.StepsAppend | subprojects/plugins/src/main/java/org/gradle/api/plugins/internal/DefaultJvmEcosystemUtilities.java:256-311 | Calls made in two batches act like the concatenated calls |
| JvmEcosystemSpec.StepsArtifacts | subprojects/plugins/src/main/java/org/gradle/api/plugins/internal/DefaultJvmEcosystemUtilities.java:286-293 | addArtifact appends: producers end up one per call, in call order |
| JvmEcosystemSpec.StepKeeps | subprojects/plugins/src/main/java/org/gradle/api/plugins/internal/DefaultJvmEcosystemUtilities.java:256-311 | A setter leaves every field it does not write unchanged |
| JvmEcosystemSpec.UntouchedSplit | subprojects/plugins/src/main/java/org/gradle/api/plugins/internal/DefaultJvmEcosystemUtilities.java:256-311 | A sequence of builder calls leaves a field untouched exactly when its prefix does and its last call writes another field |
| JvmEcosystemSpec.StepsKeepFields | subprojects/plugins/src/main/java/org/gradle/api/plugins/internal/DefaultJvmEcosystemUtilities.java:256-311 | Calls on other fields leave each overwritten field (description, role, parents, source set, refiner, capabilities) as it was |
| JvmEcosystemSpec.StepsClassDirectory | subprojects/plugins/src/main/java/org/gradle/api/plugins/internal/DefaultJvmEcosystemUtilities.java:308-311 | The class-directory flag is set exactly when it was set before or some call is withClassDirectoryVariant |
| JvmEcosystemSpec.StepsUntouched | subprojects/plugins/src/main/java/org/gradle/api/plugins/internal/DefaultJvmEcosystemUtilities.java:256-311 | Calls on other fields leave a field as it was; withClassDirectoryVariant once called stays set |
| JvmEcosystemSpec.LastCallWins | subprojects/plugins/src/main/java/org/gradle/api/plugins/internal/DefaultJvmEcosystemUtilities.java:256-311 | For every overwriting setter the last call's value is the one built, regardless of calls on other fields after it |
| JvmEcosystemSpec.DefaultRoleIsRuntime | subprojects/plugins/src/main/java/org/gradle/api/plugins/internal/DefaultJvmEcosystemUtilities.java:193 | Without forApi/forRuntime the builder is a runtime builder |
| JvmEcosystemSpec.DefaultCalls | subprojects/plugins/src/main/java/org/gradle/api/plugins/internal/DefaultJvmEcosystemUtilities.java:217-224 | build()'s four default attribute calls write four distinct keys |
| JvmEcosystemSpec.LazyArtifacts | subprojects/plugins/src/main/java/org/gradle/api/plugins/internal/DefaultJvmEcosystemUtilities.java:233-237 | One outgoing artifact per producer |
| JvmEcosystemSpec.LazyArtifactsOnePerProducer | subprojects/plugins/src/main/java/org/gradle/api/plugins/internal/DefaultJvmEcosystemUtilities.java:233-237 | One lazy publish artifact per producer, in order |
| JvmEcosystemSpec.LazyArtifactsAppend | subprojects/plugins/src/main/java/org/gradle/api/plugins/internal/DefaultJvmEcosystemUtilities.java:233-237 | Artifacts for two batches of producers are the two lists of artifacts concatenated |
| JvmEcosystemSpec.Built | subprojects/plugins/src/main/java/org/gradle/api/plugins/internal/DefaultJvmEcosystemUtilities.java:205-243 | What build() leaves before its checks: invisible, consumable, unresolvable; parents, artifacts and capabilities only grow; the variants are kept |
| JvmEcosystemSpec.BuiltFields | subprojects/plugins/src/main/java/org/gradle/api/plugins/internal/DefaultJvmEcosystemUtilities.java:205-243 | Field by field, build(): description replaced only when one was given; invisible, consumable, not resolvable; parents added; defaults then refiner on the attributes; inference action only with a source set; artifacts and capabilities appended; variants unchanged |
| JvmEcosystemSpec.BuiltByFields | subprojects/plugins/src/main/java/org/gradle/api/plugins/internal/DefaultJvmEcosystemUtilities.java:205-243 | A configuration with all the fields build() writes is the built one |
| JvmEcosystemSpec.ClassDirectoryFailure | subprojects/plugins/src/main/java/org/gradle/api/plugins/internal/DefaultJvmEcosystemUtilities.java:244-250 | A class-directory request fails for a runtime builder, else without a source set, else not at all |
| JvmEcosystemSpec.AfterBuild | subprojects/plugins/src/main/java/org/gradle/api/plugins/internal/DefaultJvmEcosystemUtilities.java:205-254 | build() touches only its own name. The failure is the class-directory failure. A failed check leaves the updated configuration in place. Only a passing check registers the classes variant |
| JvmEcosystemSpec.AfterBuildConfiguration | subprojects/plugins/src/main/java/org/gradle/api/plugins/internal/DefaultJvmEcosystemUtilities.java:244-252 | Whatever the checks decide, the configuration differs from the updated one in its variants at most |
| JvmEcosystemSpec.BuildFlags | subprojects/plugins/src/main/java/org/gradle/api/plugins/internal/DefaultJvmEcosystemUtilities.java:207-212 | The built configuration is invisible, consumable and not resolvable; the description is replaced only when one was given |
| JvmEcosystemSpec.BuildAttributes | subprojects/plugins/src/main/java/org/gradle/api/plugins/internal/DefaultJvmEcosystemUtilities.java:216-229 | Each built attribute is the refiner's last write to that key if there is one, else library / jar / external / the role's usage, else the previous value |
| JvmEcosystemSpec.BuildDefaultAttributes | subprojects/plugins/src/main/java/org/gradle/api/plugins/internal/DefaultJvmEcosystemUtilities.java:216-224 | Without a refiner, the four default attributes hold exactly |
| JvmEcosystemSpec.DefaultCallsWrite | subprojects/plugins/src/main/java/org/gradle/api/plugins/internal/DefaultJvmEcosystemUtilities.java:217-224 | The default attribute calls write category, library elements, bundling and usage, and never the target JVM version |
| JvmEcosystemSpec.BuildAppends | subprojects/plugins/src/main/java/org/gradle/api/plugins/internal/DefaultJvmEcosystemUtilities.java:213-243 | Parents are added to, and artifacts and capabilities appended to, what the configuration already had |
| JvmEcosystemSpec.BuildTwiceUpdatesInPlace | subprojects/plugins/src/main/java/org/gradle/api/plugins/internal/DefaultJvmEcosystemUtilities.java:206 | Building the same name twice updates one configuration; both builds' artifacts accumulate |
| JvmEcosystemSpec.OutgoingArtifactsInCallOrder | subprojects/plugins/src/main/java/org/gradle/api/plugins/internal/DefaultJvmEcosystemUtilities.java:176-180 | createOutgoingElements leaves one artifact per addArtifact call, in call order |
| JvmEcosystemSpec.OutgoingDefaultsToRuntime | subprojects/plugins/src/main/java/org/gradle/api/plugins/internal/DefaultJvmEcosystemUtilities.java:176-180 | Without role calls or refiner the outgoing configuration has java-runtime usage |
| JvmEcosystemSpec.BuildInferenceAlwaysEnabled | subprojects/plugins/src/main/java/org/gradle/api/plugins/internal/DefaultJvmEcosystemUtilities.java:127-130 | The inference action build() registers is always enabled (the configuration is consumable by then), so it never skips and never reads the convention |
| JvmEcosystemSpec.CompileClasspathAttributes | subprojects/plugins/src/main/java/org/gradle/api/plugins/internal/DefaultJvmEcosystemUtilities.java:111-113 | The compile classpath preset sets library, java-api and external, and leaves the other keys alone |
| JvmEcosystemSpec.RuntimeClasspathAttributes | subprojects/plugins/src/main/java/org/gradle/api/plugins/internal/DefaultJvmEcosystemUtilities.java:116-118 | The runtime classpath preset sets library, java-runtime, jar and external, and leaves the other keys alone |
| JvmEcosystemSpec.AppliedTargetPlatform | subprojects/plugins/src/main/java/org/gradle/api/plugins/internal/DefaultJvmEcosystemUtilities.java:159-173 | On success only the target JVM attribute may change, to the chosen major version. Skipping changes nothing. A failure is exactly the inference's error (missing convention or unparsable release option), wrapped |
| JvmEcosystem.JvmEcosystemUtilities.constructor | subprojects/plugins/src/main/java/org/gradle/api/plugins/internal/DefaultJvmEcosystemUtilities.java:68-74 | The utilities own the given container and have no Java convention yet |
| JvmEcosystem.JvmEcosystemUtilities.SetJavaConvention | subprojects/plugins/src/main/java/org/gradle/api/plugins/internal/DefaultJvmEcosystemUtilities.java:77-80 | Records the convention; the container is unchanged |
| JvmEcosystem.JvmEcosystemUtilities.MaybeCreate | subprojects/plugins/src/main/java/org/gradle/api/plugins/internal/DefaultJvmEcosystemUtilities.java:84 | The container becomes its maybeCreate |
| JvmEcosystem.JvmEcosystemUtilities.ExtendsFrom | subprojects/plugins/src/main/java/org/gradle/api/plugins/internal/DefaultJvmEcosystemUtilities.java:91 | The container becomes AddParent of child and parent |
| JvmEcosystem.JvmEcosystemUtilities.AddApiToSourceSet | subprojects/plugins/src/main/java/org/gradle/api/plugins/internal/DefaultJvmEcosystemUtilities.java:83-99 | The container and exception are exactly AddApiEffect's |
| JvmEcosystem.JvmEcosystemUtilities.ConfigureAttributes | subprojects/plugins/src/main/java/org/gradle/api/plugins/internal/DefaultJvmEcosystemUtilities.java:121-124 | The configuration's attributes become the fold of the action's calls; the rest of the container is unchanged |
| JvmEcosystem.JvmEcosystemUtilities.ConfigureAsCompileClasspath | subprojects/plugins/src/main/java/org/gradle/api/plugins/internal/DefaultJvmEcosystemUtilities.java:111-113 | The configuration's attributes become the compile classpath preset applied to them |
| JvmEcosystem.JvmEcosystemUtilities.ConfigureAsRuntimeClasspath | subprojects/plugins/src/main/java/org/gradle/api/plugins/internal/DefaultJvmEcosystemUtilities.java:116-118 | The configuration's attributes become the runtime classpath preset applied to them |
| JvmEcosystem.JvmEcosystemUtilities.CollectClassDirectoryArtifacts | subprojects/plugins/src/main/java/org/gradle/api/plugins/internal/DefaultJvmEcosystemUtilities.java:140-155 | The provider's loop returns exactly ClassDirectoryArtifacts: one artifact per classes directory, in order |
| JvmEcosystem.JvmEcosystemUtilities.RegisterClassesDirVariant | subprojects/plugins/src/main/java/org/gradle/api/plugins/internal/DefaultJvmEcosystemUtilities.java:132-157 | The configuration gets the classes variant as WithClassesVariant describes; nothing else changes |
| JvmEcosystem.JvmEcosystemUtilities.ConfigureClassesDirectoryVariant | subprojects/plugins/src/main/java/org/gradle/api/plugins/internal/DefaultJvmEcosystemUtilities.java:102-108 | Registers the classes variant on the configuration of that name, if there is one; otherwise nothing changes |
| JvmEcosystem.JvmEcosystemUtilities.UseDefaultTargetPlatformInference | subprojects/plugins/src/main/java/org/gradle/api/plugins/internal/DefaultJvmEcosystemUtilities.java:127-130 | Appends a target-platform action that is always enabled exactly when the configuration is consumable at that moment |
| JvmEcosystem.JvmEcosystemUtilities.ApplyTargetPlatform | subprojects/plugins/src/main/java/org/gradle/api/plugins/internal/DefaultJvmEcosystemUtilities.java:160-172 | Running the action leaves what AppliedTargetPlatform gives; a failure changes nothing |
| JvmEcosystem.JvmEcosystemUtilities.AddArtifacts | subprojects/plugins/src/main/java/org/gradle/api/plugins/internal/DefaultJvmEcosystemUtilities.java:233-237 | The loop appends one lazy artifact per producer, in order |
| JvmEcosystem.JvmEcosystemUtilities.AddCapabilities | subprojects/plugins/src/main/java/org/gradle/api/plugins/internal/DefaultJvmEcosystemUtilities.java:238-243 | The loop appends each capability, in order |
| JvmEcosystem.JvmEcosystemUtilities.CreateOutgoingElements | subprojects/plugins/src/main/java/org/gradle/api/plugins/internal/DefaultJvmEcosystemUtilities.java:176-180 | A fresh builder, the action's calls on it, then build(): the container and exception are AfterBuild of the calls' builder state |
| JvmEcosystem.ElementsBuilder.constructor | subprojects/plugins/src/main/java/org/gradle/api/plugins/internal/DefaultJvmEcosystemUtilities.java:201-203 | A fresh builder: only the name is set |
| JvmEcosystem.ElementsBuilder.WithDescription | subprojects/plugins/src/main/java/org/gradle/api/plugins/internal/DefaultJvmEcosystemUtilities.java:257-260 | Overwrites the description |
| JvmEcosystem.ElementsBuilder.ForApi | subprojects/plugins/src/main/java/org/gradle/api/plugins/internal/DefaultJvmEcosystemUtilities.java:263-266 | Sets the role to api |
| JvmEcosystem.ElementsBuilder.ForRuntime | subprojects/plugins/src/main/java/org/gradle/api/plugins/internal/DefaultJvmEcosystemUtilities.java:269-272 | Sets the role to runtime |
| JvmEcosystem.ElementsBuilder.ExtendsFrom | subprojects/plugins/src/main/java/org/gradle/api/plugins/internal/DefaultJvmEcosystemUtilities.java:275-278 | Overwrites the parents |
| JvmEcosystem.ElementsBuilder.FromSourceSet | subprojects/plugins/src/main/java/org/gradle/api/plugins/internal/DefaultJvmEcosystemUtilities.java:281-284 | Overwrites the source set |
| JvmEcosystem.ElementsBuilder.AddArtifact | subprojects/plugins/src/main/java/org/gradle/api/plugins/internal/DefaultJvmEcosystemUtilities.java:287-293 | Appends the producer |
| JvmEcosystem.ElementsBuilder.Attributes | subprojects/plugins/src/main/java/org/gradle/api/plugins/internal/DefaultJvmEcosystemUtilities.java:296-299 | Overwrites the refiner |
| JvmEcosystem.ElementsBuilder.WithCapabilities | subprojects/plugins/src/main/java/org/gradle/api/plugins/internal/DefaultJvmEcosystemUtilities.java:302-305 | Overwrites the capabilities |
| JvmEcosystem.ElementsBuilder.WithClassDirectoryVariant | subprojects/plugins/src/main/java/org/gradle/api/plugins/internal/DefaultJvmEcosystemUtilities.java:308-311 | Sets the class-directory flag |
| JvmEcosystem.ElementsBuilder.Apply | subprojects/plugins/src/main/java/org/gradle/api/plugins/internal/DefaultJvmEcosystemUtilities.java:256-311 | Each builder call changes the state as Step describes |
| JvmEcosystem.ElementsBuilder.Configure | subprojects/plugins/src/main/java/org/gradle/api/plugins/internal/DefaultJvmEcosystemUtilities.java:206-229 | Description, flags, parents and attributes as build() sets them; the other fields unchanged |
| JvmEcosystem.ElementsBuilder.WriteSettings | subprojects/plugins/src/main/java/org/gradle/api/plugins/internal/DefaultJvmEcosystemUtilities.java:206-232 | Find-or-create, the settings and the inference action; only this name changes |
| JvmEcosystem.ElementsBuilder.Write | subprojects/plugins/src/main/java/org/gradle/api/plugins/internal/DefaultJvmEcosystemUtilities.java:206-243 | The container becomes the old one with this name's configuration replaced by Built |
| JvmEcosystem.ElementsBuilder.Build | subprojects/plugins/src/main/java/org/gradle/api/plugins/internal/DefaultJvmEcosystemUtilities.java:205-254 | The container and exception are exactly AfterBuild of the builder's state |
| JvmEcosystem.ElementsBuilder.DefaultCallsEffect | subprojects/plugins/src/main/java/org/gradle/api/plugins/internal/DefaultJvmEcosystemUtilities.java:217-224 | The four default setter calls write library, jar, external and the role's usage |
| CodeNarc.Resolve | subprojects/code-quality/src/main/groovy/org/gradle/api/plugins/quality/CodeNarcPlugin.java:62 | A path under a directory keeps the directory's names and appends the relative ones |
| CodeNarc.CodeNarcPlugin.CreateExtension | subprojects/code-quality/src/main/groovy/org/gradle/api/plugins/quality/CodeNarcPlugin.java:59-68 | The new extension has tool version 1.6.1, the root project's config/codenarc/codenarc.xml as config, max priority 1/2/3 violations 0, and report format html |
| CodeNarc.CodeNarcPlugin.AddDefaultDependency | subprojects/code-quality/src/main/groovy/org/gradle/api/plugins/quality/CodeNarcPlugin.java:82-86 | Adds one dependency, `org.codenarc:CodeNarc:` followed by the tool version the extension holds when the action runs |
| CodeNarc.CodeNarcPlugin.ConfigureForSourceSet | subprojects/code-quality/src/main/groovy/org/gradle/api/plugins/quality/CodeNarcPlugin.java:136 | The task's description names the source set, and the source set can be read back from it |
| CodeNarc.DependencyNotation | subprojects/code-quality/src/main/groovy/org/gradle/api/plugins/quality/CodeNarcPlugin.java:84 | The default dependency is `org.codenarc:CodeNarc:` followed by the tool version, which reads back from it |
| CodeNarc.Split | subprojects/code-quality/src/main/groovy/org/gradle/api/plugins/quality/CodeNarcPlugin.java:84 | At least one piece, none containing the separator |
| CodeNarc.SplitAfterPiece | subprojects/code-quality/src/main/groovy/org/gradle/api/plugins/quality/CodeNarcPlugin.java:84 | Splitting a separator-free piece, a separator and a rest gives the piece followed by the split of the rest |
| CodeNarc.DependencyNotationRoundTrip | subprojects/code-quality/src/main/groovy/org/gradle/api/plugins/quality/CodeNarcPlugin.java:84 | The coordinate reads back as group org.codenarc, name CodeNarc and the tool version, exactly when the version has no colon |
| CodeNarc.TaskDescription | subprojects/code-quality/src/main/groovy/org/gradle/api/plugins/quality/CodeNarcPlugin.java:136 | The task description is `Run CodeNarc analysis for ` and ` classes` around the source set name, which reads back from it |
| CodeNarc.DescribedSourceSet | subprojects/code-quality/src/main/groovy/org/gradle/api/plugins/quality/CodeNarcPlugin.java:136 | Whatever it reads out of a description describes that source set |
| CodeNarc.DescribedSourceSetRoundTrip | subprojects/code-quality/src/main/groovy/org/gradle/api/plugins/quality/CodeNarcPlugin.java:136 | The source set reads back from its task description |
| CodeNarc.TaskDescriptionInjective | subprojects/code-quality/src/main/groovy/org/gradle/api/plugins/quality/CodeNarcPlugin.java:136 | Different source sets get different descriptions, and equal ones the same |
| CodeNarc.FileSuffix | subprojects/code-quality/src/main/groovy/org/gradle/api/plugins/quality/CodeNarcPlugin.java:128 | Reports other than `text` use their own name; the suffix is `txt` exactly for `text` and `txt` |
| CodeNarc.FileSuffixCollision | subprojects/code-quality/src/main/groovy/org/gradle/api/plugins/quality/CodeNarcPlugin.java:128 | Two reports share a suffix exactly when they are the same or are `text` and `txt` |
| CodeNarc.OutputLocation | subprojects/code-quality/src/main/groovy/org/gradle/api/plugins/quality/CodeNarcPlugin.java:129 | A report file lies directly in the reports directory, and its name is the base name, a dot, then the report's suffix |
| CodeNarc.OutputLocationsDistinct | subprojects/code-quality/src/main/groovy/org/gradle/api/plugins/quality/CodeNarcPlugin.java:127-130 | Within a task, two reports share an output file exactly when they share a suffix |
| CodeNarc.OutputLocationsOfTasksDistinct | subprojects/code-quality/src/main/groovy/org/gradle/api/plugins/quality/CodeNarcPlugin.java:129 | With dot-free base names, two reports share an output file exactly when the base names and suffixes agree |
| CodeNarc.Required | subprojects/code-quality/src/main/groovy/org/gradle/api/plugins/quality/CodeNarcPlugin.java:126 | The required rule: a report is required when its name equals the report format (properties in RequiredReports) |
| CodeNarc.ReportsConvention | subprojects/code-quality/src/main/groovy/org/gradle/api/plugins/quality/CodeNarcPlugin.java:125-130 | What the reports action gives one report: the required flag and the output location |
| CodeNarc.RequiredReports | subprojects/code-quality/src/main/groovy/org/gradle/api/plugins/quality/CodeNarcPlugin.java:126 | Of a set of reports, exactly the one named like the report format is required, and none if there is no such report |
| CodeNarc.DefaultFormatRequiresHtml | subprojects/code-quality/src/main/groovy/org/gradle/api/plugins/quality/CodeNarcPlugin.java:126-129 | Example of RequiredReports and OutputLocation: with the default format only `html` is required, and it is written to `<baseName>.html` in the reports directory |
| CodeNarc.TextReportIsTxt | subprojects/code-quality/src/main/groovy/org/gradle/api/plugins/quality/CodeNarcPlugin.java:128-129 | Example of FileSuffix and OutputLocation: the `text` report is written to `<baseName>.txt` in the reports directory |

## Left out

- Variant matching, disambiguation and capability conflict resolution: they happen in the dependency resolution engine, which is not part of this model.
- Lazy providers:
  - A `TaskProvider` is an opaque task name.
  - A `LazyPublishArtifact` records its producer.
  - The classes artifacts provider runs when the variant is registered, not when its artifacts are first queried.
  - The compile task is captured when the inference action is registered, not resolved when the action runs.
- Deferred callbacks:
  - `configurations.all`: covers configurations that exist when `ConfigureClassesDirectoryVariant` runs, not ones added later.
  - `beforeLocking`: an action is recorded in the configuration's `beforeLocking` list and run explicitly by `ApplyTargetPlatform`.
- The container's defaults for a new configuration (visible, consumable and resolvable, no parents, no attributes) come from `DefaultConfiguration`, which is not part of this model.
- JvmEcosystemSpec.ApiDescription: the source builds the description from the source set's `toString()`. The model uses a `displayName` field of the source set for it.
- `JavaVersion.toVersion(...).getMajorVersion()`: the compile task carries its target compatibility's major version as an int.
- `JavaEcosystemSupport.configureDefaultTargetPlatform` is not part of this model. JvmEcosystemSpec.AppliedTargetPlatform writes the target JVM version attribute with the chosen major version, overwriting a value already there; if the real helper writes only when the attribute is absent, the model differs when a value was set before.
- `tasks.named(compileJavaTaskName)` throws when the source set's compile task does not exist. The model's source set always carries its compile task, so that failure is not modelled.
- The "classes" variant, when first created, starts with no attributes of its own; the model does not let it inherit the configuration's attributes, and the variant-attribute inheritance of the container is not part of this model.
- CodeNarc.CodeNarcPlugin.AddDefaultDependency: Gradle runs a default-dependencies action only when the configuration declares no dependencies of its own. The model runs the action unconditionally; that guard belongs to the configuration container, which is not part of this model.
- CodeNarc.Required: an unset report format, for which reading the format property throws, is not modelled; the format is always a string.
- `Integer.parseInt` accepts only ASCII digits here. Java also accepts other Unicode decimal digits.
- `String.valueOf` of a null argument (the string "null") is not modelled: compiler arguments are never null here.
- JvmEcosystemSpec.AddParent: `extendsFrom` cycle detection and the "a configuration cannot extend itself" check of the container are not modelled.
- JvmAttributes.AttributesDetails.Execute: a refiner or attribute action is a sequence of calls on the details object. Actions doing anything else (reading attributes, writing other keys) are not modelled.
- JvmEcosystem.JvmEcosystemUtilities.CreateOutgoingElements: the caller's configuration action is a sequence of builder calls. An action that throws, or does anything besides calling the builder's setters, is not modelled. `withCapabilities` keeps the caller's list by reference, so later changes to that list would show in the build; the model copies the list as a value.
- A capability is appended even when an equal one is already declared. Gradle's outgoing capabilities are a set, and that deduplication is not modelled.
- `getAbsolutePath` and the project directory resolution of the output location: a report path is the reports directory's names plus one file name.
- `setJavaConvention` also caches the convention's source sets. Nothing in this core reads them, so they are not modelled.
- The rest of `CodeNarcPlugin`:
  - `configureTaskConventionMapping`;
  - the `allGroovy` dynamic-object lookup;
  - project resource loading (the config is only its file);
  - `ProviderFactory` laziness: they are plugin wiring around the rules modelled here.
- The extension's own initial values (before `createExtension`) are placeholders; `CodeNarcExtension` is not part of this model.
- CodeNarc.ParseNotation is a reference reading of `group:name:version`. Gradle's dependency notation parser, which also accepts classifiers and extensions, is not part of this model.
- `MavenRemotePublisher`, the documentation and JaCoCo build scripts, and `IncludedBuildFactory` lie outside this core.
