/**
  The request sent to the API-gateway provisioning service (`apigwParam` in
  `default`, src/index.js): one catch-all endpoint integrated with the
  deployed function.
 */
module Gateway {
  import opened Wrappers
  import opened JsValues
  import opened Normalize

  const Description := "Serverless Framework tencent-nuxtjs Component"
  const DefaultEnvironment := "release"
  const DefaultProtocols := Array([Str("http")])
  const RootPath := "/"
  const AnyMethod := "ANY"
  const DefaultRemark := "tencent-nuxtjs"

  datatype EndpointFunction = EndpointFunction(isIntegratedResponse: bool, functionName: Value)

  /**
    An endpoint; `httpMethod` and `target` are src/index.js's `method` and
    `function` keys (both Dafny keywords). `usagePlan` and `auth` are None
    when the endpoint does not carry the key at all.
   */
  datatype Endpoint = Endpoint(path: string, httpMethod: string, target: EndpointFunction, usagePlan: Option<Value>, auth: Option<Value>)

  datatype GatewayRequest = GatewayRequest(
    serviceName: Value,
    description: string,
    serviceId: Value,
    region: string,
    protocols: Value,
    environment: Value,
    endpoints: seq<Endpoint>,
    customDomain: Value,
    fromClientRemark: Value)

  /** `remark || 'tencent-nuxtjs'`, as both deploy and remove apply it. */
  function Remark(remark: Value): (r: Value)
    ensures Truthy(r)
    ensures Truthy(remark) ==> r == remark
    ensures !Truthy(remark) ==> r == Str(DefaultRemark)
  {
    Or(remark, Str(DefaultRemark))
  }

  /** Defaulting the remark a second time changes nothing. */
  lemma RemarkIdempotent(remark: Value)
    ensures Remark(Remark(remark)) == Remark(remark)
  {
  }

  /**
    The gateway request for the normalised record `c` once the function
    service has reported `functionName` as the deployed function's `Name`.
   */
  function GatewayRequestFor(c: Config, functionName: Value): (r: GatewayRequest)
    ensures |r.endpoints| == 1
    ensures var e := r.endpoints[0];
            && e.path == RootPath && e.httpMethod == AnyMethod
            && e.target == EndpointFunction(true, functionName)
    // one condition decides both keys: present together, with the configured values
    ensures r.endpoints[0].usagePlan.Some? <==> Truthy(c.apigatewayConf.auth)
    ensures r.endpoints[0].auth.Some? <==> Truthy(c.apigatewayConf.auth)
    ensures Truthy(c.apigatewayConf.auth) ==>
              r.endpoints[0].usagePlan == Some(c.apigatewayConf.usagePlan) && r.endpoints[0].auth == Some(c.apigatewayConf.auth)
    // protocols and environment are always truthy, the configured ones when they are
    ensures Truthy(r.protocols) && Truthy(r.environment)
    ensures Truthy(c.apigatewayConf.protocols) ==> r.protocols == c.apigatewayConf.protocols
    ensures !Truthy(c.apigatewayConf.protocols) ==> r.protocols == DefaultProtocols
    ensures Truthy(c.apigatewayConf.environment) ==> r.environment == c.apigatewayConf.environment
    ensures !Truthy(c.apigatewayConf.environment) ==> r.environment == Str(DefaultEnvironment)
    ensures r.region == c.region && r.serviceName == c.serviceName && r.serviceId == c.serviceId
    ensures r.customDomain == c.apigatewayConf.customDomain
    ensures r.description == Description
    ensures r.fromClientRemark == Remark(c.fromClientRemark)
  {
    var conf := c.apigatewayConf;
    var endpoint := Endpoint(
      RootPath, AnyMethod, EndpointFunction(true, functionName),
      if Truthy(conf.auth) then Some(conf.usagePlan) else None,
      if Truthy(conf.auth) then Some(conf.auth) else None);
    GatewayRequest(
      serviceName := c.serviceName,
      description := Description,
      serviceId := c.serviceId,
      region := c.region,
      protocols := Or(conf.protocols, DefaultProtocols),
      environment := Or(conf.environment, Str(DefaultEnvironment)),
      endpoints := [endpoint],
      customDomain := conf.customDomain,
      fromClientRemark := Remark(c.fromClientRemark))
  }

  /** The endpoint never carries a usage plan without authentication, nor the reverse. */
  lemma UsagePlanIffAuth(c: Config, functionName: Value)
    ensures var e := GatewayRequestFor(c, functionName).endpoints[0];
            e.usagePlan.Some? <==> e.auth.Some?
  {
  }
}
