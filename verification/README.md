# tencent-nuxtjs deployment component, modelled in Dafny

The component deploys a Nuxt.js site as a Tencent Cloud serverless function,
with an API gateway in front of it. `default(inputs)` does four things:
- it normalises the caller's inputs (`prepareInputs`);
- it has the function-provisioning service (`@serverless/tencent-scf`) deploy the function;
- it builds a single catch-all gateway endpoint for that function and has the gateway-provisioning service (`@serverless/tencent-apigateway`) deploy it;
- it merges the two answers into the outputs it returns and stores.

`remove(inputs)` asks both services to tear their resources down.

The model has seven modules, all pure functions over immutable datatypes:

- `Wrappers` (wrappers.dfy): `Option`, for fields a caller may leave out.
- `JsValues` (js_values.dfy): the JavaScript values the component passes through uninspected, and their truthiness. It also has the `a || b || c` chain over strings that the defaulting uses.
- `Text` (text.dfy): ASCII lower-casing and the last segment of a path. It also has `path.basename(p, '.js')` and splitting at the first occurrence of a character.
- `Protocol` (protocol.dfy): `getDefaultProtocol`.
- `Normalize` (normalize.dfy): `prepareInputs`.
- `Gateway` (gateway.dfy): the gateway request built in `default`, and the `fromClientRemark` default.
- `Component` (component.dfy): the output merge and URL of `default`, the whole `default`, and `remove`. A URL reader (`ParseUrl`) is the partner of the URL composition.

The component gets four values from its surroundings. Each one is a field of `Normalize.Externals`:
- the cached handler path that `resolveCachedHandlerPath` returns;
- the function name stored by the previous deployment (`this.state.functionName`);
- the six-character random suffix;
- the working directory (`process.cwd()`).

The two provisioning services are opaque. Their answers are the records `FunctionOutput` and `GatewayOutput`.

Three details of src/index.js that are easy to misread:
- `region` and `runtime` fall back to their defaults only when absent. An explicitly empty string is kept, because `ensureString(..., { default })` replaces only `null`/`undefined`. So a normalised record need not have a non-empty region or runtime.
- `timeout` keeps the supplied value only when it is truthy: a supplied `0` becomes 3. The same holds for `memorySize`, where `0` becomes 128.
- `codeUri` falls back to the working directory also when `code` is the empty string, not only when it is absent.

## Model

| member | source | states |
|---|---|---|
| JsValues.FirstNonEmpty | src/index.js:27-31 | an or-chain of strings (`a or b or c` in JavaScript terms) yields the first non-empty candidate, or "" when every candidate is empty, and always one of the candidates |
| JsValues.Truthy | src/index.js:43-49 | JavaScript truthiness: undefined, null, false, 0 and "" are falsy; every other modelled value, arrays and objects included, is truthy |
| JsValues.Or | src/index.js:44-45 | JavaScript `or` (`a` or `b`) is truthy iff either operand is, and is `a` when `a` is truthy, `b` otherwise |
| Text.BasenameWithoutJs | src/index.js:39 | the basename holds no '/', and is the path's last segment either whole or with a trailing ".js" removed, never leaving it empty |
| Text.BasenameOfJsFile | src/index.js:39 | the basename of `dir/name.js` with ".js" removed is `name` |
| Text.BasenameOfOtherFile | src/index.js:39 | a file name that does not end in ".js" is its own basename |
| Text.AsciiLower | src/index.js:16 | `toLowerCase()` on the letters that matter: the result has the input's length, with each 'A'-'Z' replaced by its lower-case letter and every other character kept |
| Protocol.IsHttps | src/index.js:16 | `p.toLowerCase() === 'https'`: p has five characters, each lower-casing to the matching letter of "https" |
| Protocol.HasHttps | src/index.js:16 | true exactly when some listed protocol lower-cases to "https" |
| Protocol.DefaultProtocol | src/index.js:15-20 | "https" iff some protocol equals "https" ignoring case; "http" iff none does, the empty list included |
| Protocol.IsHttpsSpellings | src/index.js:16 | the protocol strings accepted as https are exactly the 32 upper/lower-case spellings of "https" |
| Protocol.DefaultProtocolIgnoresCase | src/index.js:16 | changing the case of the listed protocols never changes the chosen scheme |
| Protocol.DefaultProtocolMonotone | src/index.js:15-20 | listing more protocols can turn "http" into "https" but never the reverse |
| Protocol.DefaultProtocolOfSameSet | src/index.js:15-20 | the scheme depends only on which protocols are listed, not on their order or repetition |
| Protocol.DefaultProtocolExamples | src/index.js:15-20 | ["HTTP","HTTPS"] gives https; ["http"] and [] give http |
| Normalize.ResolveName | src/index.js:27-30 | the name is never empty: the explicit non-empty functionName, else the non-empty stored name, else "NuxtjsComponent_" followed by the 6-character suffix |
| Normalize.ResolveCodeUri | src/index.js:31 | codeUri is the non-empty `code`, otherwise the working directory |
| Normalize.HandlerOf | src/index.js:38-39 | the handler ends in ".handler" and what precedes it is the handler file's last path segment, with or without its ".js", and holds no '/' |
| Normalize.HandlerOfJsFile | src/index.js:38-39 | a cached entry file `dir/name.js` gives the handler `name.handler` |
| Normalize.Extend | src/index.js:33-34 | the result starts with the caller's list unchanged (the empty list when absent) and ends with exactly the appended entries |
| Normalize.Prepare | src/index.js:26-55 | the normalised record is well formed: the name is non-empty and the handler is `*.handler`. Include ends with the cached handler path and exclude ends with the four housekeeping patterns, each after the caller's entries in their original order. Region and runtime default to ap-guangzhou and Nodejs8.9. With functionConf, timeout and memorySize are always set: to the truthy supplied value, else to 3 and 128. environment and vpcConfig are replaced only by truthy functionConf members. Without functionConf, the caller's own top-level timeout, memorySize, environment and vpcConfig pass through unchanged |
| Normalize.PrepareDeterministicWhenNamed | src/index.js:27-30 | when a name is pinned, by an explicit functionName or a stored one, the random suffix has no effect on the normalised record |
| Gateway.Remark | src/index.js:63 | the remark is always truthy: the caller's when it is truthy, otherwise "tencent-nuxtjs" |
| Gateway.RemarkIdempotent | src/index.js:95 | applying the remark default a second time, as the gateway request does, changes nothing |
| Gateway.GatewayRequestFor | src/index.js:65-95 | exactly one endpoint: path "/", method ANY, integrated response, fronting the provisioned function's Name. usagePlan and auth are both attached iff apigatewayConf.auth is truthy. protocols and environment are always truthy, falling back to ["http"] and "release". region, service and custom domain are passed through |
| Gateway.UsagePlanIffAuth | src/index.js:88-93 | the endpoint carries a usage plan exactly when it carries authentication |
| Component.Url | src/index.js:101-103 | the URL template: the scheme, then "://", the sub-domain, "/", the environment and a closing "/", with nothing else. UrlRoundTrip and UrlSchemePrefix state what can be read back from it |
| Component.UrlRoundTrip | src/index.js:101-103 | a URL built from a colon-free scheme and a slash-free sub-domain reads back into the same scheme, sub-domain and environment |
| Component.UrlSchemePrefix | src/index.js:101 | the URL starts with "https://" exactly when the scheme is https, and with "http://" exactly when it is http |
| Component.MergeOutputs | src/index.js:97-107 | the outputs carry the normalised region and name and the gateway's service id. customDomains is present iff the gateway's is truthy. The URL is `<scheme>://<subDomain>/<environment>/` for every sub-domain. It begins "https://" iff the gateway lists https in any case, else "http://". With a slash-free sub-domain it reads back as (scheme, subDomain, environment) |
| Component.Deploy | src/index.js:57-113 | the function service gets the well-formed normalised record with a truthy remark. The gateway request carries the same remark and fronts the Name the function service reported. The outputs name the normalised function name, not the provisioned Name, share the region of both requests, and publish the gateway's URL. The gateway request is exactly the one GatewayRequestFor builds, and the outputs exactly those MergeOutputs builds |
| Component.RedeployKeepsName | src/index.js:27-29 | a later deployment without an explicit functionName keeps the name the earlier deployment stored, whatever suffix it draws |
| Component.DeployExample | src/index.js:57-113 | the site1 example: region ap-guangzhou, name site1, service svc-1, URL https://abc123.gw.example/release/, customDomains kept, gateway protocols ["https"] and environment "release", no auth |
| Component.RemovePlan | src/index.js:116-127 | removal sends exactly two requests, the function service's first, both with the same truthy remark: the caller's when truthy, else "tencent-nuxtjs" |
| Component.RemoveExample | src/index.js:116-127 | `remove({})` asks each service once with remark "tencent-nuxtjs" |
| Component.RemoveUsesDeployRemark | src/index.js:63 | for the same caller remark, removal sends the remark that deployment sent to both services |

## Left out

- Loading the two provisioning services (`this.load`) and calling them are not modelled. So are their `remove` operations. Their answers are input records, and a failure they raise, which would abort `default`/`remove` before anything is stored, is not represented.
- Storing the outputs (`this.state = outputs`, `this.save()`) is I/O and is not modelled. The stored record is `Deploy(...).outputs`, and only its `functionName` is read back, as `Externals.storedName`.
- `resolveCachedHandlerPath`, `process.cwd()` and `random({ length: 6 })` touch the file system, the process and randomness. Their results are parameters, and the suffix is required to have length 6.
- The exact checks of the `type` library (`ensureString`, `ensureIterable`, `ensurePlainObject`) are not modelled, and that library is not part of this model. The inputs are typed (`Option<string>`, `Option<seq<string>>`, a `GatewayConf` record), so its "invalid input" errors cannot arise in the model.
- JavaScript numbers are modelled as integers. NaN and fractional values, which affect truthiness, are left out.
- `toLowerCase` is modelled as ASCII lower-casing. No other character lower-cases to 'h', 't', 'p' or 's', so the https test is still exact.
- Text.BasenameWithoutJs: does not model Node's `path.basename` for paths with trailing slashes, for the path ".js" itself, or for Windows `\` separators. On a POSIX host a cached file path has none of these.
- `push` may mutate the caller's own include/exclude arrays, depending on whether `ensureIterable` returns the caller's array or a copy. That possible aliasing is not modelled.
- Some keys stay on the record sent to the function service but are never read by the component afterwards: `functionName`, `code`, `functionConf` and any unknown keys. `Normalize.Config` does not carry them. The top-level `timeout`, `memorySize`, `environment` and `vpcConfig` are carried, because `prepareInputs` may leave them in place.
- The `async`/`await` sequencing is not modelled: it has no content beyond running the steps in order. Re-running `default` on identical inputs gives identical results by construction, since `Deploy` is a function.
