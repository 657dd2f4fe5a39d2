/**
 * The JVM ecosystem attributes written by the attribute-details object:
 * category, library elements, bundling, usage and the target JVM version,
 * and the details object whose setters each write one of them.
 */
module JvmAttributes {
  import opened Wrappers

  /** The attribute keys: Category, LibraryElements, Bundling, Usage and TargetJvmVersion. */
  datatype Attribute = Category | LibraryElements | Bundling | Usage | TargetJvmVersion

  /** The named values of those attributes (Category.LIBRARY, LibraryElements.JAR, ...). */
  datatype AttributeValue =
    | CategoryLibrary | CategoryRegularPlatform | CategoryEnforcedPlatform
    | ElementsJar | ElementsClasses
    | BundlingExternal | BundlingEmbedded | BundlingShadowed
    | UsageJavaApi | UsageJavaRuntime
    | JvmVersion(major: int)

  type AttributeMap = map<Attribute, AttributeValue>

  function Lookup(m: AttributeMap, k: Attribute): Option<AttributeValue>
  {
    if k in m then Some(m[k]) else None
  }

  /** One call on the attribute-details object. */
  datatype DetailsCall =
    | ProvidingApi | ProvidingRuntime
    | Library | Platform | EnforcedPlatform
    | WithExternalDependencies | WithEmbeddedDependencies | WithShadowedDependencies
    | AsJar

  /** The key a details setter writes; no setter writes the target JVM version. */
  function KeyOf(call: DetailsCall): (k: Attribute)
    ensures k != TargetJvmVersion
  {
    match call
    case ProvidingApi | ProvidingRuntime => Usage
    case Library | Platform | EnforcedPlatform => Category
    case WithExternalDependencies | WithEmbeddedDependencies | WithShadowedDependencies => Bundling
    case AsJar => LibraryElements
  }

  /** The attribute whose values `v` is one of. */
  function KeyOfValue(v: AttributeValue): Attribute
  {
    match v
    case CategoryLibrary | CategoryRegularPlatform | CategoryEnforcedPlatform => Category
    case ElementsJar | ElementsClasses => LibraryElements
    case BundlingExternal | BundlingEmbedded | BundlingShadowed => Bundling
    case UsageJavaApi | UsageJavaRuntime => Usage
    case JvmVersion(_) => TargetJvmVersion
  }

  /** The value a details setter writes, always one of the values of the key it writes. */
  function ValueOf(call: DetailsCall): (v: AttributeValue)
    ensures KeyOfValue(v) == KeyOf(call)
  {
    match call
    case ProvidingApi => UsageJavaApi
    case ProvidingRuntime => UsageJavaRuntime
    case Library => CategoryLibrary
    case Platform => CategoryRegularPlatform
    case EnforcedPlatform => CategoryEnforcedPlatform
    case WithExternalDependencies => BundlingExternal
    case WithEmbeddedDependencies => BundlingEmbedded
    case WithShadowedDependencies => BundlingShadowed
    case AsJar => ElementsJar
  }

  /** The effect of one setter: exactly one key is written, the others are kept. */
  function Apply(m: AttributeMap, call: DetailsCall): (r: AttributeMap)
    ensures r.Keys == m.Keys + {KeyOf(call)}
    ensures Lookup(r, KeyOf(call)) == Some(ValueOf(call))
    ensures forall k :: k != KeyOf(call) ==> Lookup(r, k) == Lookup(m, k)
  {
    m[KeyOf(call) := ValueOf(call)]
  }

  /** The effect of a sequence of setter calls, made in order. */
  function ApplyAll(m: AttributeMap, calls: seq<DetailsCall>): (r: AttributeMap)
    ensures m.Keys <= r.Keys
  {
    if calls == [] then m else Apply(ApplyAll(m, calls[..|calls| - 1]), calls[|calls| - 1])
  }

  /** The value of the last call in `calls` that writes `k`, if any writes it. */
  function LastWrite(calls: seq<DetailsCall>, k: Attribute): Option<AttributeValue>
  {
    if calls == [] then None
    else if KeyOf(calls[|calls| - 1]) == k then Some(ValueOf(calls[|calls| - 1]))
    else LastWrite(calls[..|calls| - 1], k)
  }

  /** The three category setters write the same key, with three distinct values; so do the three bundling setters. */
  lemma SettersSharingAKey()
    ensures KeyOf(Library) == KeyOf(Platform) == KeyOf(EnforcedPlatform) == Category
    ensures ValueOf(Library) != ValueOf(Platform) && ValueOf(Platform) != ValueOf(EnforcedPlatform) && ValueOf(EnforcedPlatform) != ValueOf(Library)
    ensures KeyOf(WithExternalDependencies) == KeyOf(WithEmbeddedDependencies) == KeyOf(WithShadowedDependencies) == Bundling
    ensures ValueOf(WithExternalDependencies) != ValueOf(WithEmbeddedDependencies) && ValueOf(WithEmbeddedDependencies) != ValueOf(WithShadowedDependencies)
    ensures ValueOf(WithShadowedDependencies) != ValueOf(WithExternalDependencies)
    ensures KeyOf(ProvidingApi) == KeyOf(ProvidingRuntime) == Usage
  {
  }

  /** A setter on a key erases whatever an earlier setter on the same key wrote. */
  lemma SameKeyOverwrites(m: AttributeMap, first: DetailsCall, second: DetailsCall)
    requires KeyOf(first) == KeyOf(second)
    ensures Apply(Apply(m, first), second) == Apply(m, second)
  {
  }

  /** Last write wins: after a sequence of calls each key holds the value of the last call that wrote it. */
  lemma {:induction false} ApplyAllLastWriteWins(m: AttributeMap, calls: seq<DetailsCall>, k: Attribute)
    ensures Lookup(ApplyAll(m, calls), k) == if LastWrite(calls, k).Some? then LastWrite(calls, k) else Lookup(m, k)
  {
    if calls != [] {
      ApplyAllLastWriteWins(m, calls[..|calls| - 1], k);
    }
  }

  /** Appending one call applies it last. */
  lemma ApplyAllSnoc(m: AttributeMap, calls: seq<DetailsCall>, call: DetailsCall)
    ensures ApplyAll(m, calls + [call]) == Apply(ApplyAll(m, calls), call)
  {
  }

  /** Running two batches of calls is running their concatenation. */
  lemma {:induction false} ApplyAllAppend(m: AttributeMap, xs: seq<DetailsCall>, ys: seq<DetailsCall>)
    ensures ApplyAll(m, xs + ys) == ApplyAll(ApplyAll(m, xs), ys)
  {
    if ys == [] {
      assert xs + ys == xs;
    } else {
      assert (xs + ys)[..|xs + ys| - 1] == xs + ys[..|ys| - 1];
      ApplyAllAppend(m, xs, ys[..|ys| - 1]);
    }
  }

  /** The last writer of a key in a concatenation is in the second part if it writes the key at all. */
  lemma {:induction false} LastWriteAppend(xs: seq<DetailsCall>, ys: seq<DetailsCall>, k: Attribute)
    ensures LastWrite(xs + ys, k) == if LastWrite(ys, k).Some? then LastWrite(ys, k) else LastWrite(xs, k)
  {
    if ys == [] {
      assert xs + ys == xs;
    } else {
      assert (xs + ys)[..|xs + ys| - 1] == xs + ys[..|ys| - 1];
      LastWriteAppend(xs, ys[..|ys| - 1], k);
    }
  }

  /**
   * The details object handed to attribute refiners. It writes into the
   * attribute container of the configuration (or variant) it was made for;
   * `attributes` is that container's content.
   */
  class AttributesDetails {
    var attributes: AttributeMap

    constructor (attributes: AttributeMap)
      ensures this.attributes == attributes
    {
      this.attributes := attributes;
    }

    method ProvidingApi()
      modifies this
      ensures attributes == old(attributes)[Usage := UsageJavaApi]
    {
      attributes := attributes[Usage := UsageJavaApi];
    }

    method ProvidingRuntime()
      modifies this
      ensures attributes == old(attributes)[Usage := UsageJavaRuntime]
    {
      attributes := attributes[Usage := UsageJavaRuntime];
    }

    method Library()
      modifies this
      ensures attributes == old(attributes)[Category := CategoryLibrary]
    {
      attributes := attributes[Category := CategoryLibrary];
    }

    method Platform()
      modifies this
      ensures attributes == old(attributes)[Category := CategoryRegularPlatform]
    {
      attributes := attributes[Category := CategoryRegularPlatform];
    }

    method EnforcedPlatform()
      modifies this
      ensures attributes == old(attributes)[Category := CategoryEnforcedPlatform]
    {
      attributes := attributes[Category := CategoryEnforcedPlatform];
    }

    method WithExternalDependencies()
      modifies this
      ensures attributes == old(attributes)[Bundling := BundlingExternal]
    {
      attributes := attributes[Bundling := BundlingExternal];
    }

    method WithEmbeddedDependencies()
      modifies this
      ensures attributes == old(attributes)[Bundling := BundlingEmbedded]
    {
      attributes := attributes[Bundling := BundlingEmbedded];
    }

    method WithShadowedDependencies()
      modifies this
      ensures attributes == old(attributes)[Bundling := BundlingShadowed]
    {
      attributes := attributes[Bundling := BundlingShadowed];
    }

    method AsJar()
      modifies this
      ensures attributes == old(attributes)[LibraryElements := ElementsJar]
    {
      attributes := attributes[LibraryElements := ElementsJar];
    }

    /** Dispatches one call to its setter. */
    method Perform(call: DetailsCall)
      modifies this
      ensures attributes == Apply(old(attributes), call)
    {
      match call
      case ProvidingApi => ProvidingApi();
      case ProvidingRuntime => ProvidingRuntime();
      case Library => Library();
      case Platform => Platform();
      case EnforcedPlatform => EnforcedPlatform();
      case WithExternalDependencies => WithExternalDependencies();
      case WithEmbeddedDependencies => WithEmbeddedDependencies();
      case WithShadowedDependencies => WithShadowedDependencies();
      case AsJar => AsJar();
    }

    /** An attribute action run against this object: its setter calls, in order. */
    method Execute(calls: seq<DetailsCall>)
      modifies this
      ensures attributes == ApplyAll(old(attributes), calls)
    {
      var i := 0;
      while i < |calls|
        invariant 0 <= i <= |calls|
        invariant attributes == ApplyAll(old(attributes), calls[..i])
      {
        assert calls[..i + 1][..i] == calls[..i];
        Perform(calls[i]);
        i := i + 1;
      }
      assert calls[..|calls|] == calls;
    }
  }
}
