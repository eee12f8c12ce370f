/**
  The component's two entry points (src/index.js): `default` normalises the
  inputs, provisions the function, provisions the gateway in front of it and
  merges both services' answers into the deployment's outputs; `remove`
  asks both services to tear their resources down.

  The provisioning services are not part of this model: what they answer is
  given as `FunctionOutput` and `GatewayOutput` records.
 */
module Component {
  import opened Wrappers
  import opened JsValues
  import opened Text
  import opened Protocol
  import opened Normalize
  import opened Gateway

  /** What the function-provisioning service answers; only `Name` is read. */
  datatype FunctionOutput = FunctionOutput(name: Value)

  /** What the gateway-provisioning service answers. */
  datatype GatewayOutput = GatewayOutput(serviceId: Value, protocols: seq<string>, subDomain: string, environment: string, customDomains: Value)

  /** The deployment's outputs, also stored as the component's state. */
  datatype Outputs = Outputs(region: string, functionName: string, apiGatewayServiceId: Value, url: string, customDomains: Option<Value>)

  /** Everything one deployment sends and returns. */
  datatype Deployment = Deployment(functionRequest: Config, gatewayRequest: GatewayRequest, outputs: Outputs)

  /** `//<host>/<environment>/`, the part of a URL after its scheme's ':'. */
  function Location(host: string, environment: string): string {
    "//" + host + "/" + environment + "/"
  }

  /**
    `<scheme>://<host>/<environment>/`: the scheme, "://", the host, a '/',
    the environment and a closing '/'.
   */
  function Url(scheme: string, host: string, environment: string): (u: string)
    ensures |u| == |scheme| + |host| + |environment| + 5
    ensures u[..|scheme|] == scheme && u[|scheme|..|scheme| + 3] == "://"
    ensures u[|scheme| + 3..|scheme| + 3 + |host|] == host
    ensures u[|scheme| + 3 + |host|..] == "/" + environment + "/"
  {
    var u := scheme + ":" + Location(host, environment);
    assert u == scheme + "://" + host + ("/" + environment + "/");
    u
  }

  datatype UrlParts = UrlParts(scheme: string, host: string, environment: string)

  /** Reads a `Location` back into its host and environment. */
  function ParseLocation(rest: string): (r: Option<(string, string)>)
    ensures r.Some? ==> rest == Location(r.value.0, r.value.1) && '/' !in r.value.0
  {
    if |rest| < 3 || rest[..2] != "//" || rest[|rest| - 1] != '/' then None
    else
      var split := SplitFirst(rest[2..|rest| - 1], '/');
      if split.None? then None
      else
        assert rest == rest[..2] + rest[2..|rest| - 1] + rest[|rest| - 1..];
        split
  }

  /** Reads a URL of the shape `Url` builds back into its parts. */
  function ParseUrl(u: string): (r: Option<UrlParts>)
    ensures r.Some? ==> Url(r.value.scheme, r.value.host, r.value.environment) == u
    ensures r.Some? ==> ':' !in r.value.scheme && '/' !in r.value.host
  {
    var schemeSplit := SplitFirst(u, ':');
    if schemeSplit.None? then None
    else
      var scheme := schemeSplit.value.0;
      var location := ParseLocation(schemeSplit.value.1);
      if location.None? then None
      else
        Some(UrlParts(scheme, location.value.0, location.value.1))
  }

  /** A location with a slash-free host reads back into its host and environment. */
  lemma ParseLocationOfLocation(host: string, environment: string)
    requires '/' !in host
    ensures ParseLocation(Location(host, environment)) == Some((host, environment))
  {
    var rest := Location(host, environment);
    assert rest[..2] == "//";
    assert rest[|rest| - 1] == '/';
    assert rest[2..|rest| - 1] == host + ['/'] + environment;
    SplitFirstOfJoin(host, '/', environment);
  }

  /** A URL built from a colon-free scheme and a slash-free host reads back into the same parts. */
  lemma UrlRoundTrip(scheme: string, host: string, environment: string)
    requires ':' !in scheme && '/' !in host
    ensures ParseUrl(Url(scheme, host, environment)) == Some(UrlParts(scheme, host, environment))
  {
    var rest := Location(host, environment);
    assert Url(scheme, host, environment) == scheme + [':'] + rest;
    SplitFirstOfJoin(scheme, ':', rest);
    ParseLocationOfLocation(host, environment);
  }

  /** A URL starts with "https://" exactly when its scheme is "https", and with "http://" exactly when it is "http". */
  lemma UrlSchemePrefix(scheme: string, host: string, environment: string)
    requires scheme == Http || scheme == Https
    ensures var u := Url(scheme, host, environment);
            && (scheme == Https <==> |u| >= 8 && u[..8] == "https://")
            && (scheme == Http <==> |u| >= 7 && u[..7] == "http://")
  {
    var u := Url(scheme, host, environment);
    assert u[..|scheme| + 3] == scheme + "://";
    assert u[4] == (if scheme == Https then 's' else ':');
  }

  /** The outputs of `default`, from the normalised record and the gateway's answer. */
  function MergeOutputs(c: Config, gw: GatewayOutput): (o: Outputs)
    ensures o.region == c.region && o.functionName == c.name && o.apiGatewayServiceId == gw.serviceId
    ensures o.customDomains.Some? <==> Truthy(gw.customDomains)
    ensures o.customDomains.Some? ==> o.customDomains.value == gw.customDomains
    ensures o.url == Url(DefaultProtocol(gw.protocols), gw.subDomain, gw.environment)
    // the URL's scheme is https exactly when the gateway reports https in any case
    ensures (exists i :: 0 <= i < |gw.protocols| && IsHttps(gw.protocols[i])) <==> |o.url| >= 8 && o.url[..8] == "https://"
    ensures (forall i :: 0 <= i < |gw.protocols| ==> !IsHttps(gw.protocols[i])) <==> |o.url| >= 7 && o.url[..7] == "http://"
    ensures '/' !in gw.subDomain ==>
              ParseUrl(o.url) == Some(UrlParts(DefaultProtocol(gw.protocols), gw.subDomain, gw.environment))
  {
    var scheme := DefaultProtocol(gw.protocols);
    var url := Url(scheme, gw.subDomain, gw.environment);
    UrlSchemePrefix(scheme, gw.subDomain, gw.environment);
    assert '/' !in gw.subDomain ==> ParseUrl(url) == Some(UrlParts(scheme, gw.subDomain, gw.environment)) by {
      if '/' !in gw.subDomain {
        UrlRoundTrip(scheme, gw.subDomain, gw.environment);
      }
    }
    Outputs(
      region := c.region,
      functionName := c.name,
      apiGatewayServiceId := gw.serviceId,
      url := url,
      customDomains := if Truthy(gw.customDomains) then Some(gw.customDomains) else None)
  }

  /**
    `default(inputs)`: normalise, default the remark, provision the function,
    build the gateway request from its `Name`, provision the gateway, merge.
   */
  function Deploy(inputs: Inputs, ext: Externals, fnOut: FunctionOutput, gwOut: GatewayOutput): (d: Deployment)
    requires |ext.randomSuffix| == SuffixLength
    ensures WellFormed(d.functionRequest, ext.cachedHandlerPath)
    ensures d.functionRequest == Prepare(inputs, ext).(fromClientRemark := Remark(inputs.fromClientRemark))
    // both services see the same, truthy, remark
    ensures Truthy(d.functionRequest.fromClientRemark)
    ensures d.gatewayRequest.fromClientRemark == d.functionRequest.fromClientRemark
    // the gateway fronts the function the function service reported
    ensures |d.gatewayRequest.endpoints| == 1 && d.gatewayRequest.endpoints[0].target.functionName == fnOut.name
    // the outputs name the normalised function name, not the provisioned `Name`
    ensures d.outputs.functionName == d.functionRequest.name
    ensures d.outputs.region == d.functionRequest.region == d.gatewayRequest.region
    // the request and the outputs are exactly those `default` builds
    ensures d.gatewayRequest == GatewayRequestFor(d.functionRequest, fnOut.name)
    ensures d.outputs == MergeOutputs(d.functionRequest, gwOut)
    ensures d.outputs.apiGatewayServiceId == gwOut.serviceId
    ensures d.outputs.customDomains.Some? <==> Truthy(gwOut.customDomains)
    ensures '/' !in gwOut.subDomain ==>
              ParseUrl(d.outputs.url) == Some(UrlParts(DefaultProtocol(gwOut.protocols), gwOut.subDomain, gwOut.environment))
  {
    var prepared := Prepare(inputs, ext);
    var functionRequest := prepared.(fromClientRemark := Remark(prepared.fromClientRemark));
    RemarkIdempotent(prepared.fromClientRemark);
    var gatewayRequest := GatewayRequestFor(functionRequest, fnOut.name);
    Deployment(functionRequest, gatewayRequest, MergeOutputs(functionRequest, gwOut))
  }

  /**
    A later deployment without an explicit `functionName` keeps the name the
    earlier deployment stored, whatever random suffix it draws.
   */
  lemma RedeployKeepsName(
    first: Inputs, ext: Externals, fnOut: FunctionOutput, gwOut: GatewayOutput,
    second: Inputs, ext': Externals, fnOut': FunctionOutput, gwOut': GatewayOutput)
    requires |ext.randomSuffix| == SuffixLength && |ext'.randomSuffix| == SuffixLength
    requires ext'.storedName == Some(Deploy(first, ext, fnOut, gwOut).outputs.functionName)
    requires TextOf(second.functionName) == ""
    ensures Deploy(second, ext', fnOut', gwOut').outputs.functionName == Deploy(first, ext, fnOut, gwOut).outputs.functionName
  {
  }

  /**
    The end-to-end example: an https site named "site1" behind a gateway
    answering with sub-domain "abc123.gw.example" and environment "release",
    published at https://abc123.gw.example/release/.
   */
  lemma DeployExample(ext: Externals)
    requires |ext.randomSuffix| == SuffixLength
    ensures var inputs := Inputs(
              Some("site1"), None, None, None, None,
              Some(EmptyGatewayConf.(protocols := Array([Str("https")]), customDomain := Str("example.com"))),
              None, None, Undefined, Undefined, Undefined, Undefined, Undefined, Undefined, Undefined);
            var gwOut := GatewayOutput(Str("svc-1"), ["https"], "abc123.gw.example", "release", Array([Str("example.com")]));
            var d := Deploy(inputs, ext, FunctionOutput(Str("site1")), gwOut);
            && d.outputs.region == DefaultRegion
            && d.outputs.functionName == "site1"
            && d.outputs.apiGatewayServiceId == Str("svc-1")
            && ParseUrl(d.outputs.url) == Some(UrlParts(Https, "abc123.gw.example", "release"))
            && d.outputs.customDomains == Some(Array([Str("example.com")]))
            && d.gatewayRequest.protocols == Array([Str("https")])
            && d.gatewayRequest.environment == Str(DefaultEnvironment)
            && d.gatewayRequest.customDomain == Str("example.com")
            && d.gatewayRequest.endpoints[0].auth.None?
  {
    var gwOut := GatewayOutput(Str("svc-1"), ["https"], "abc123.gw.example", "release", Array([Str("example.com")]));
    assert IsHttps(gwOut.protocols[0]);
    assert '/' !in gwOut.subDomain;
    assert Truthy(gwOut.customDomains);
  }

  /** The two provisioning services. */
  datatype Service = FunctionService | GatewayService

  datatype RemoveCall = RemoveCall(service: Service, fromClientRemark: Value)

  /** `remove(inputs)`: one removal request to each service, the function's first. */
  function RemovePlan(remark: Value): (calls: seq<RemoveCall>)
    ensures |calls| == 2
    ensures calls[0].service == FunctionService && calls[1].service == GatewayService
    ensures calls[0].fromClientRemark == calls[1].fromClientRemark
    ensures Truthy(calls[0].fromClientRemark)
    ensures Truthy(remark) ==> calls[0].fromClientRemark == remark
    ensures !Truthy(remark) ==> calls[0].fromClientRemark == Str(DefaultRemark)
  {
    var request := Remark(remark);
    [RemoveCall(FunctionService, request), RemoveCall(GatewayService, request)]
  }

  /** `remove({})`: both services are asked once each, function first, with the default remark. */
  lemma RemoveExample()
    ensures RemovePlan(Undefined) == [RemoveCall(FunctionService, Str("tencent-nuxtjs")), RemoveCall(GatewayService, Str("tencent-nuxtjs"))]
  {
  }

  /** Removal identifies itself with the same remark that deployment sent, for the same caller remark. */
  lemma RemoveUsesDeployRemark(inputs: Inputs, ext: Externals, fnOut: FunctionOutput, gwOut: GatewayOutput)
    requires |ext.randomSuffix| == SuffixLength
    ensures var calls := RemovePlan(inputs.fromClientRemark);
            var d := Deploy(inputs, ext, fnOut, gwOut);
            calls[0].fromClientRemark == d.functionRequest.fromClientRemark == d.gatewayRequest.fromClientRemark
  {
  }
}
