/**
  `prepareInputs` (src/index.js): fills in the defaults of a deployment's
  inputs and derives the handler and file lists for the function.

  The four values src/index.js gets from its surroundings are parameters
  (`Externals`): the cached handler path found by `resolveCachedHandlerPath`,
  the function name stored by the previous deployment, the random six-character
  suffix, and the current working directory.
 */
module Normalize {
  import opened Wrappers
  import opened JsValues
  import opened Text

  const DefaultRegion := "ap-guangzhou"
  const DefaultRuntime := "Nodejs8.9"
  /** Housekeeping patterns appended to every exclude list, in this order. */
  const HousekeepingExcludes := [".git/**", ".gitignore", ".serverless", ".DS_Store"]
  const GeneratedNamePrefix := "NuxtjsComponent_"
  const SuffixLength := 6
  const HandlerSuffix := ".handler"
  const DefaultTimeout := 3
  const DefaultMemorySize := 128

  /** `functionConf`: a missing member reads as `Undefined`. */
  datatype FunctionConf = FunctionConf(timeout: Value, memorySize: Value, environment: Value, vpcConfig: Value)

  /** `apigatewayConf`: a missing member reads as `Undefined`. */
  datatype GatewayConf = GatewayConf(protocols: Value, environment: Value, customDomain: Value, auth: Value, usagePlan: Value)

  /** `{}`, the default `apigatewayConf`. */
  const EmptyGatewayConf := GatewayConf(Undefined, Undefined, Undefined, Undefined, Undefined)

  /**
    What the caller of the component supplies; every field may be left out
    (a missing `Value` reads as `Undefined`). `includes` and `excludes` are
    src/index.js's `include` and `exclude` (`include` is a Dafny keyword).
    `timeout`, `memorySize`, `environment` and `vpcConfig` are the
    top-level keys of those names, which `prepareInputs` may overwrite.
   */
  datatype Inputs = Inputs(
    functionName: Option<string>,
    code: Option<string>,
    region: Option<string>,
    includes: Option<seq<string>>,
    excludes: Option<seq<string>>,
    apigatewayConf: Option<GatewayConf>,
    runtime: Option<string>,
    functionConf: Option<FunctionConf>,
    timeout: Value,
    memorySize: Value,
    environment: Value,
    vpcConfig: Value,
    serviceName: Value,
    serviceId: Value,
    fromClientRemark: Value)

  /** The results of the file system, the stored state, the random generator and the process. */
  datatype Externals = Externals(cachedHandlerPath: string, storedName: Option<string>, randomSuffix: string, cwd: string)

  /**
    The normalised inputs handed to the function-provisioning service. A
    resource setting is `Undefined` when the key is unset.
   */
  datatype Config = Config(
    name: string,
    codeUri: string,
    region: string,
    includes: seq<string>,
    excludes: seq<string>,
    apigatewayConf: GatewayConf,
    runtime: string,
    handler: string,
    timeout: Value,
    memorySize: Value,
    environment: Value,
    vpcConfig: Value,
    serviceName: Value,
    serviceId: Value,
    fromClientRemark: Value)

  /**
    `ensureString(functionName) || this.state.functionName ||
    'NuxtjsComponent_' + random({ length: 6 })`.
   */
  function ResolveName(functionName: Option<string>, storedName: Option<string>, suffix: string): (name: string)
    requires |suffix| == SuffixLength
    ensures name != ""
    ensures TextOf(functionName) != "" ==> name == functionName.value
    ensures TextOf(functionName) == "" && TextOf(storedName) != "" ==> name == storedName.value
    ensures TextOf(functionName) == "" && TextOf(storedName) == "" ==>
              name == GeneratedNamePrefix + suffix && |name| == |GeneratedNamePrefix| + SuffixLength
  {
    var candidates := [TextOf(functionName), TextOf(storedName), GeneratedNamePrefix + suffix];
    assert candidates[2] != "";
    assert TextOf(storedName) != "" ==> candidates[1] == storedName.value;
    assert TextOf(functionName) == "" ==> forall j :: 0 <= j < 1 ==> candidates[j] == "";
    assert TextOf(functionName) == "" && TextOf(storedName) == "" ==> forall j :: 0 <= j < 2 ==> candidates[j] == "";
    FirstNonEmpty(candidates)
  }

  /** `ensureString(code) || process.cwd()`: an empty `code` falls back to the directory too. */
  function ResolveCodeUri(code: Option<string>, cwd: string): (uri: string)
    ensures TextOf(code) != "" ==> uri == code.value
    ensures TextOf(code) == "" ==> uri == cwd
  {
    FirstNonEmpty([TextOf(code), cwd])
  }

  /** `` `${path.basename(cachedHandlerPath, '.js')}.handler` `` */
  function HandlerOf(cachedHandlerPath: string): (h: string)
    ensures |h| >= |HandlerSuffix| && h[|h| - |HandlerSuffix|..] == HandlerSuffix
    ensures '/' !in h[..|h| - |HandlerSuffix|]
    ensures h[..|h| - |HandlerSuffix|] == LastSegment(cachedHandlerPath)
         || h[..|h| - |HandlerSuffix|] + JsExtension == LastSegment(cachedHandlerPath)
    // stripping ".js" never leaves an empty base
    ensures h[..|h| - |HandlerSuffix|] + JsExtension == LastSegment(cachedHandlerPath) ==> |h| > |HandlerSuffix|
  {
    var base := BasenameWithoutJs(cachedHandlerPath);
    assert (base + HandlerSuffix)[..|base|] == base;
    base + HandlerSuffix
  }

  /** The handler of a cached `dir/name.js` entry file is `name.handler`. */
  lemma HandlerOfJsFile(dir: string, name: string)
    requires dir == "" || dir[|dir| - 1] == '/'
    requires '/' !in name && name != ""
    ensures HandlerOf(dir + name + JsExtension) == name + HandlerSuffix
  {
    BasenameOfJsFile(dir, name);
  }

  /** `ensureIterable(list, { default: [] })` followed by pushing `extra`. */
  function Extend(list: Option<seq<string>>, extra: seq<string>): (r: seq<string>)
    ensures |r| == |list.GetOr([])| + |extra|
    ensures r[..|list.GetOr([])|] == list.GetOr([])
    ensures r[|list.GetOr([])|..] == extra
  {
    list.GetOr([]) + extra
  }

  /**
    What a normalised record always satisfies, whatever the caller supplied:
    a non-empty name, a `*.handler` handler, an include list ending with the
    handler's file, and an exclude list ending with the housekeeping patterns.
   */
  ghost predicate WellFormed(c: Config, cachedHandlerPath: string) {
    && c.name != ""
    && |c.handler| >= |HandlerSuffix| && c.handler[|c.handler| - |HandlerSuffix|..] == HandlerSuffix
    && |c.includes| > 0 && c.includes[|c.includes| - 1] == cachedHandlerPath
    && |c.excludes| >= |HousekeepingExcludes|
    && c.excludes[|c.excludes| - |HousekeepingExcludes|..] == HousekeepingExcludes
  }

  /** `prepareInputs(inputs)` with its external inputs made explicit. */
  function Prepare(inputs: Inputs, ext: Externals): (c: Config)
    requires |ext.randomSuffix| == SuffixLength
    ensures WellFormed(c, ext.cachedHandlerPath)
    ensures c.name == ResolveName(inputs.functionName, ext.storedName, ext.randomSuffix)
    ensures c.codeUri == ResolveCodeUri(inputs.code, ext.cwd)
    ensures c.region == inputs.region.GetOr(DefaultRegion)
    ensures c.runtime == inputs.runtime.GetOr(DefaultRuntime)
    ensures c.apigatewayConf == inputs.apigatewayConf.GetOr(EmptyGatewayConf)
    ensures c.handler == HandlerOf(ext.cachedHandlerPath)
    // the caller's lists come first, unchanged, followed by the appended entries
    ensures c.includes == inputs.includes.GetOr([]) + [ext.cachedHandlerPath]
    ensures c.excludes == inputs.excludes.GetOr([]) + HousekeepingExcludes
    // without `functionConf` the caller's own resource keys pass through unchanged
    ensures inputs.functionConf.None? ==>
              && c.timeout == inputs.timeout && c.memorySize == inputs.memorySize
              && c.environment == inputs.environment && c.vpcConfig == inputs.vpcConfig
    // with it, the limits are always set and truthy; environment and vpcConfig
    // are replaced only by truthy `functionConf` members
    ensures inputs.functionConf.Some? ==>
              var fc := inputs.functionConf.value;
              && Truthy(c.timeout) && Truthy(c.memorySize)
              && c.timeout == (if Truthy(fc.timeout) then fc.timeout else Number(DefaultTimeout))
              && c.memorySize == (if Truthy(fc.memorySize) then fc.memorySize else Number(DefaultMemorySize))
              && c.environment == (if Truthy(fc.environment) then fc.environment else inputs.environment)
              && c.vpcConfig == (if Truthy(fc.vpcConfig) then fc.vpcConfig else inputs.vpcConfig)
    // keys `prepareInputs` does not touch pass through
    ensures c.serviceName == inputs.serviceName && c.serviceId == inputs.serviceId
    ensures c.fromClientRemark == inputs.fromClientRemark
  {
    var fc := inputs.functionConf;
    Config(
      name := ResolveName(inputs.functionName, ext.storedName, ext.randomSuffix),
      codeUri := ResolveCodeUri(inputs.code, ext.cwd),
      region := inputs.region.GetOr(DefaultRegion),
      includes := Extend(inputs.includes, [ext.cachedHandlerPath]),
      excludes := Extend(inputs.excludes, HousekeepingExcludes),
      apigatewayConf := inputs.apigatewayConf.GetOr(EmptyGatewayConf),
      runtime := inputs.runtime.GetOr(DefaultRuntime),
      handler := HandlerOf(ext.cachedHandlerPath),
      timeout := if fc.Some? then Or(fc.value.timeout, Number(DefaultTimeout)) else inputs.timeout,
      memorySize := if fc.Some? then Or(fc.value.memorySize, Number(DefaultMemorySize)) else inputs.memorySize,
      environment := if fc.Some? then Or(fc.value.environment, inputs.environment) else inputs.environment,
      vpcConfig := if fc.Some? then Or(fc.value.vpcConfig, inputs.vpcConfig) else inputs.vpcConfig,
      serviceName := inputs.serviceName,
      serviceId := inputs.serviceId,
      fromClientRemark := inputs.fromClientRemark)
  }

  /**
    With a pinned name (an explicit `functionName` or a stored one), the
    random suffix has no influence on the normalised record.
   */
  lemma PrepareDeterministicWhenNamed(inputs: Inputs, ext: Externals, otherSuffix: string)
    requires |ext.randomSuffix| == SuffixLength && |otherSuffix| == SuffixLength
    requires TextOf(inputs.functionName) != "" || TextOf(ext.storedName) != ""
    ensures Prepare(inputs, ext) == Prepare(inputs, ext.(randomSuffix := otherSuffix))
  {
  }
}
