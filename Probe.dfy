/**
 * What both measurement scripts share: the two deployment targets, the
 * outcome of one HTTP call (the network seen as an oracle), and the effects
 * a run has on the outside world.
 */
module Probe {
  import opened Wrappers

  datatype Platform = Azure | OpenFaaS

  /** The `platform` string a result row carries. */
  function Name(p: Platform): string {
    match p
    case Azure => "Azure"
    case OpenFaaS => "OpenFaaS"
  }

  /** Inverse of `Name`, for reading a result row back. */
  function PlatformNamed(s: string): (r: Option<Platform>)
    ensures r.Some? ==> Name(r.value) == s
    ensures forall p :: Name(p) == s ==> r == Some(p)
  {
    if s == "Azure" then Some(Azure)
    else if s == "OpenFaaS" then Some(OpenFaaS)
    else None
  }

  const AzureFunctionUrl: string := "https://vin-image-processing-workflow.azurewebsites.net/api/classify_image"
  const OpenFaasFunctionUrl: string := "http://20.26.125.107:8080/function/process-image"

  /** The list every round iterates over: Azure first, then OpenFaaS. */
  const Targets: seq<(Platform, string)> := [(Azure, AzureFunctionUrl), (OpenFaaS, OpenFaasFunctionUrl)]

  /**
   * The body of a 200 response: a JSON object with its fields, or anything
   * else (text that is not JSON, or JSON that is not an object), on which
   * both `response.json()` and the field lookups that follow it raise.
   */
  datatype Body<V> = Object(fields: map<string, V>) | NotObject

  /**
   * What one `requests.get` call yields: a response with its status code, the
   * wall-clock time measured around the call and its body, or an exception.
   */
  datatype Outcome<V> = Response(status: int, elapsed: real, body: Body<V>) | Raised

  /** A call to `time.sleep` or an HTTP GET of `endpoint?url=imageUrl`. */
  datatype Effect = Sleep(seconds: nat) | Get(endpoint: string, imageUrl: string)

  /** One round of calls for `imageUrl`: one GET per target, in target order. */
  function Gets(imageUrl: string): (effects: seq<Effect>)
    ensures |effects| == |Targets|
    ensures forall t :: 0 <= t < |Targets| ==> effects[t] == Get(Targets[t].1, imageUrl)
  {
    [Get(AzureFunctionUrl, imageUrl), Get(OpenFaasFunctionUrl, imageUrl)]
  }

  /** Python's `d.get(key, None)`. */
  function Lookup<V>(fields: map<string, V>, key: string): (r: Option<V>)
    ensures r.Some? <==> key in fields
    ensures r.Some? ==> r.value == fields[key]
  {
    if key in fields then Some(fields[key]) else None
  }
}
