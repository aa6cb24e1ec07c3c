/**
 The audited-headers configuration store: the in-memory map from header name
 to its settings, and the copy of that map written to the storage view under
 the audited-headers entry after every change.
 */
module AuditedHeaders {
  import opened HeaderFilter

  datatype Option<T> = None | Some(value: T)

  class AuditedHeadersConfig {
    /** The configured headers, as held in memory. */
    var Headers: Config
    /**
     The map decoded from the storage view's audited-headers entry; `None`
     while nothing has been written there.
     */
    var stored: Option<Config>

    /** Memory and storage hold the same configuration. */
    ghost predicate Persisted()
      reads this
    {
      stored == Some(Headers)
    }

    /** A configuration over a fresh, empty view, with no header configured. */
    constructor ()
      ensures Headers == map[] && stored == None
    {
      Headers := map[];
      stored := None;
    }

    /**
     Configures `name` with the given HMAC flag, replacing any earlier setting
     for it, and writes the whole resulting map to the view.
     */
    method Add(name: string, hmac: bool)
      modifies this
      ensures Headers == old(Headers)[name := HeaderSettings(hmac)]
      ensures Persisted()
    {
      Headers := Headers[name := HeaderSettings(hmac)];
      stored := Some(Headers);
    }

    /**
     Unconfigures `name` (nothing happens to the map if it was not configured)
     and writes the whole resulting map to the view.
     */
    method Remove(name: string)
      modifies this
      ensures Headers == old(Headers) - {name}
      ensures Persisted()
    {
      Headers := Headers - {name};
      stored := Some(Headers);
    }

    /** The audit projection of `req` under the current configuration. */
    function ApplyConfig(req: RequestHeaders, hash: string -> string): (r: RequestHeaders)
      reads this
      ensures r.Keys == Headers.Keys * req.Keys
      ensures forall name :: name in r && !Headers[name].HMAC ==> r[name] == req[name]
      ensures forall name :: name in r && Headers[name].HMAC ==> r[name] == HashValues(req[name], hash)
    {
      HeaderFilter.ApplyConfig(Headers, req, hash)
    }
  }

  /**
   The add-then-remove sequence of the CRUD test: every intermediate state is
   checked as the test checks it, and both memory and storage end empty.
   */
  method CrudScenario() returns (headers: Config, stored: Option<Config>)
    ensures headers == map[] && stored == Some(map[])
  {
    var conf := new AuditedHeadersConfig();

    conf.Add("X-Test-Header", false);
    assert "X-Test-Header" in conf.Headers && !conf.Headers["X-Test-Header"].HMAC;
    assert conf.stored == Some(map["X-Test-Header" := HeaderSettings(false)]);

    conf.Add("X-Vault-Header", true);
    assert "X-Vault-Header" in conf.Headers && conf.Headers["X-Vault-Header"].HMAC;
    assert conf.stored == Some(map["X-Test-Header" := HeaderSettings(false), "X-Vault-Header" := HeaderSettings(true)]);

    conf.Remove("X-Test-Header");
    assert "X-Test-Header" !in conf.Headers;
    assert conf.Headers == map["X-Vault-Header" := HeaderSettings(true)];
    assert conf.stored == Some(map["X-Vault-Header" := HeaderSettings(true)]);

    conf.Remove("X-Vault-Header");
    assert "X-Vault-Header" !in conf.Headers;
    headers, stored := conf.Headers, conf.stored;
  }

  /**
   The filter test: a plain and an HMAC-flagged header are configured, the
   request also carries an unconfigured `Content-Type`, and every value is
   hashed to the same constant. The request is left as it was.
   */
  method ApplyConfigScenario() returns (req: RequestHeaders, result: RequestHeaders)
    ensures req == map["X-Test-Header" := ["foo"], "X-Vault-Header" := ["bar", "bar"], "Content-Type" := ["json"]]
    ensures result == map["X-Test-Header" := ["foo"], "X-Vault-Header" := ["hashed", "hashed"]]
  {
    var conf := new AuditedHeadersConfig();
    conf.Headers := map["X-Test-Header" := HeaderSettings(false), "X-Vault-Header" := HeaderSettings(true)];
    req := map["X-Test-Header" := ["foo"], "X-Vault-Header" := ["bar", "bar"], "Content-Type" := ["json"]];
    var hashFunc := (s: string) => "hashed";
    result := conf.ApplyConfig(req, hashFunc);
    assert "Content-Type" !in result;
    assert result["X-Vault-Header"] == ["hashed", "hashed"];
  }
}
