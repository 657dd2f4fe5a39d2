/**
 * The choice of the JVM version a consumable configuration targets: the
 * `--release` compiler option when it is positive, else the compile task's
 * target compatibility.
 */
module TargetPlatform {
  import opened Wrappers
  import opened JavaLang
  import opened Configurations

  const ReleaseFlag: string := "--release"

  /**
   * `getReleaseOption`: the integer in the argument right after the first
   * `--release`, 0 when there is no `--release` or it is the last argument.
   * A successor that is not an integer throws.
   */
  function ReleaseOption(compilerArgs: seq<string>): (r: Result<int, NumberFormatException>)
    ensures ReleaseFlag !in compilerArgs ==> r == Ok(0)
    ensures forall i :: 0 <= i < |compilerArgs| && compilerArgs[i] == ReleaseFlag && ReleaseFlag !in compilerArgs[..i] ==>
              r == if i + 1 < |compilerArgs| then ParseInt(compilerArgs[i + 1]) else Ok(0)
  {
    var flagIndex := IndexOf(compilerArgs, ReleaseFlag);
    if flagIndex != -1 && flagIndex + 1 < |compilerArgs| then ParseInt(compilerArgs[flagIndex + 1]) else Ok(0)
  }

  /** A 32-bit integer written after the first `--release` is the release option. */
  lemma ReleaseOptionAfterFlag(before: seq<string>, n: int, after: seq<string>)
    requires ReleaseFlag !in before && IsInt32(n)
    ensures ReleaseOption(before + [ReleaseFlag, IntToString(n)] + after) == Ok(n)
  {
    var args := before + [ReleaseFlag, IntToString(n)] + after;
    assert args[|before|] == ReleaseFlag && args[|before| + 1] == IntToString(n);
    assert args[..|before|] == before;
    ParseIntRoundTrip(n);
  }

  /** A later `--release` is ignored: only the first one counts. */
  lemma LaterReleaseIgnored(before: seq<string>, value: string, middle: seq<string>, other: string, after: seq<string>)
    requires ReleaseFlag !in before
    ensures ReleaseOption(before + [ReleaseFlag, value] + middle + [ReleaseFlag, other] + after) == ParseInt(value)
  {
    var args := before + [ReleaseFlag, value] + middle + [ReleaseFlag, other] + after;
    assert args[|before|] == ReleaseFlag && args[|before| + 1] == value;
    assert args[..|before|] == before;
  }

  /** The Java plugin convention, reduced to the switch the inference reads. */
  datatype JavaConvention = JavaConvention(autoTargetJvmDisabled: bool)

  /** How the inference can fail: a non-numeric release option, or no convention to consult. */
  datatype TargetPlatformError = ReleaseNotANumber(cause: NumberFormatException) | NoJavaConvention

  /**
   * The action registered by `configureDefaultTargetPlatform`, as a value:
   * None when it is switched off, else the major version it configures.
   * The convention is consulted only when the action is not always enabled.
   */
  function TargetMajorVersion(alwaysEnabled: bool, convention: Option<JavaConvention>, task: CompileTask): (r: Result<Option<int>, TargetPlatformError>)
    ensures r == Ok(None) <==> !alwaysEnabled && convention.Some? && convention.value.autoTargetJvmDisabled
    ensures r == Err(NoJavaConvention) <==> !alwaysEnabled && convention.None?
    ensures r.Ok? && r.value.Some? ==>
              var release := ReleaseOption(task.compilerArgs);
              release.Ok? && r.value.value == if release.value > 0 then release.value else task.targetCompatibilityMajorVersion
    ensures (alwaysEnabled || (convention.Some? && !convention.value.autoTargetJvmDisabled)) ==>
              (r.Err? <==> ReleaseOption(task.compilerArgs).Err?)
    ensures r.Err? && r != Err(NoJavaConvention) ==>
              ReleaseOption(task.compilerArgs).Err? && r.error == ReleaseNotANumber(ReleaseOption(task.compilerArgs).error)
  {
    if !alwaysEnabled && convention.None? then Err(NoJavaConvention)
    else if alwaysEnabled || !convention.value.autoTargetJvmDisabled then
      match ReleaseOption(task.compilerArgs)
      case Err(e) => Err(ReleaseNotANumber(e))
      case Ok(release) => Ok(Some(if release > 0 then release else task.targetCompatibilityMajorVersion))
    else Ok(None)
  }

  /** A positive `--release` wins over the target compatibility whenever inference runs. */
  lemma ReleaseWinsOverTargetCompatibility(alwaysEnabled: bool, convention: Option<JavaConvention>, before: seq<string>, n: int, after: seq<string>, target: int)
    requires ReleaseFlag !in before && 0 < n <= MaxInt
    requires alwaysEnabled || (convention.Some? && !convention.value.autoTargetJvmDisabled)
    ensures TargetMajorVersion(alwaysEnabled, convention, CompileTask(before + [ReleaseFlag, IntToString(n)] + after, target)) == Ok(Some(n))
  {
    ReleaseOptionAfterFlag(before, n, after);
  }

  /** Without `--release`, or with a release of 0 or less, the target compatibility is used. */
  lemma TargetCompatibilityWithoutRelease(alwaysEnabled: bool, convention: Option<JavaConvention>, task: CompileTask)
    requires alwaysEnabled || (convention.Some? && !convention.value.autoTargetJvmDisabled)
    requires ReleaseOption(task.compilerArgs).Ok? && ReleaseOption(task.compilerArgs).value <= 0
    ensures TargetMajorVersion(alwaysEnabled, convention, task) == Ok(Some(task.targetCompatibilityMajorVersion))
  {
  }
}
