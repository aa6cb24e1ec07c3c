/**
 The request-header filter of the audited-headers configuration: given a
 snapshot of the configured header names with their redaction settings, a
 request's headers and a hash function, it produces the headers that go into
 an audit record. Configured headers flagged HMAC have each value hashed,
 other configured headers are copied verbatim, and everything else is dropped.
 */
module HeaderFilter {

  /** The per-header setting: whether the header's values are hashed before logging. */
  datatype HeaderSettings = HeaderSettings(HMAC: bool)

  /** Header name to its setting, as held by the configuration. */
  type Config = map<string, HeaderSettings>

  /** Header name to its ordered values, as carried by a request. */
  type RequestHeaders = map<string, seq<string>>

  /** Hashes every value independently, keeping order and duplicates. */
  function HashValues(values: seq<string>, hash: string -> string): (r: seq<string>)
    ensures |r| == |values|
    ensures forall i :: 0 <= i < |values| ==> r[i] == hash(values[i])
  {
    if values == [] then [] else [hash(values[0])] + HashValues(values[1..], hash)
  }

  /** The values a configured header contributes to the audit record. */
  function Redact(settings: HeaderSettings, values: seq<string>, hash: string -> string): (r: seq<string>)
    ensures |r| == |values|
    ensures settings.HMAC ==> forall i :: 0 <= i < |values| ==> r[i] == hash(values[i])
    ensures !settings.HMAC ==> r == values
  {
    if settings.HMAC then HashValues(values, hash) else values
  }

  /**
   Projects `req` onto the configured header names. A header appears in the
   result exactly when it is both configured and present in the request; its
   values are hashed one by one when it is flagged HMAC and copied otherwise.
   */
  function ApplyConfig(config: Config, req: RequestHeaders, hash: string -> string): (r: RequestHeaders)
    ensures r.Keys == config.Keys * req.Keys
    ensures forall name :: name in r ==> |r[name]| == |req[name]|
    ensures forall name :: name in r && !config[name].HMAC ==> r[name] == req[name]
    ensures forall name, i :: name in r && config[name].HMAC && 0 <= i < |req[name]| ==>
      r[name][i] == hash(req[name][i])
  {
    map name | name in config && name in req :: Redact(config[name], req[name], hash)
  }

  /** Two requests whose configured headers agree lead to the same audit output. */
  predicate AgreeOn(config: Config, req1: RequestHeaders, req2: RequestHeaders)
  {
    forall name :: name in config ==>
      (name in req1 <==> name in req2) && (name in req1 ==> req1[name] == req2[name])
  }

  /**
   Headers that are not configured (a `Content-Type`, say) have no influence
   on the audit output: only the configured headers of a request matter. This
   is the case of `RedactionRevealsOnlyHashes` where the raw values agree.
   */
  lemma UnconfiguredHeadersIgnored(config: Config, req1: RequestHeaders, req2: RequestHeaders, hash: string -> string)
    requires AgreeOn(config, req1, req2)
    ensures ApplyConfig(config, req1, hash) == ApplyConfig(config, req2, hash)
  {
    RedactionRevealsOnlyHashes(config, req1, req2, hash);
  }

  /**
   The audit output reveals an HMAC-flagged header only through the hashes of
   its values: two requests whose flagged values hash alike position by
   position, and which agree on everything else that is configured, yield the
   same audit output, whatever their raw values are.
   */
  lemma RedactionRevealsOnlyHashes(config: Config, req1: RequestHeaders, req2: RequestHeaders, hash: string -> string)
    requires forall name :: name in config ==> (name in req1 <==> name in req2)
    requires forall name :: name in config && name in req1 && !config[name].HMAC ==> req1[name] == req2[name]
    requires forall name :: name in config && name in req1 && config[name].HMAC ==>
      |req1[name]| == |req2[name]| &&
      forall i :: 0 <= i < |req1[name]| ==> hash(req1[name][i]) == hash(req2[name][i])
    ensures ApplyConfig(config, req1, hash) == ApplyConfig(config, req2, hash)
  {
    var r1, r2 := ApplyConfig(config, req1, hash), ApplyConfig(config, req2, hash);
    forall name | name in r1
      ensures r1[name] == r2[name]
    {
      if config[name].HMAC {
        assert |r1[name]| == |r2[name]|;
        forall i | 0 <= i < |r1[name]|
          ensures r1[name][i] == r2[name][i]
        {
        }
      }
    }
  }

  /** With nothing configured, nothing from the request reaches the audit record. */
  lemma EmptyConfigLogsNothing(req: RequestHeaders, hash: string -> string)
    ensures ApplyConfig(map[], req, hash) == map[]
  {
  }

  /** Configuring one more header adds exactly that header's redacted values, if the request has it. */
  lemma ApplyAfterAdd(config: Config, name: string, settings: HeaderSettings, req: RequestHeaders, hash: string -> string)
    ensures name in req ==>
      ApplyConfig(config[name := settings], req, hash) ==
      ApplyConfig(config, req, hash)[name := Redact(settings, req[name], hash)]
    ensures name !in req ==>
      ApplyConfig(config[name := settings], req, hash) == ApplyConfig(config, req, hash)
  {
  }

  /** Unconfiguring a header removes exactly that header from the audit output. */
  lemma ApplyAfterRemove(config: Config, name: string, req: RequestHeaders, hash: string -> string)
    ensures ApplyConfig(config - {name}, req, hash) == ApplyConfig(config, req, hash) - {name}
  {
  }
}
