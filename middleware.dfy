/** The HTTP middleware that resolves the store ("tenant") of a request
    from its Host header and attaches it to the request. */
module TenantMiddleware {
  import opened Common
  import opened Strings
  import Clients

  /** A header value as Express gives it: a string, or an array of them. */
  datatype HeaderValue = Single(text: string) | Multi(values: seq<string>)

  /** JavaScript truthiness of a header: absent and "" are falsy, an array
      (even an empty one) is truthy. */
  predicate HeaderTruthy(h: Option<HeaderValue>) {
    h.Some? && (h.value.Single? ==> h.value.text != "")
  }

  const HostMissing := BadRequest("Host header not found")

  /** `host.split` on the `undefined` an empty array header yields. */
  const SplitOfUndefined := TypeError("Cannot read properties of undefined (reading 'split')")

  /** `x-forwarded-host || host`, refused when neither is truthy; an array
      header contributes its first element. */
  function SelectHost(forwarded: Option<HeaderValue>, host: Option<HeaderValue>): (r: Result<string>)
    ensures r == Err(HostMissing) <==> !HeaderTruthy(forwarded) && !HeaderTruthy(host)
    ensures r.Ok? ==> HeaderTruthy(forwarded) || HeaderTruthy(host)
    ensures HeaderTruthy(forwarded) && forwarded.value.Single? ==> r == Ok(forwarded.value.text)
    ensures !HeaderTruthy(forwarded) && HeaderTruthy(host) && host.value.Single? ==> r == Ok(host.value.text)
    ensures forwarded == Some(Multi([])) ==> r == Err(SplitOfUndefined)
    ensures !HeaderTruthy(forwarded) && host == Some(Multi([])) ==> r == Err(SplitOfUndefined)
  {
    var chosen := if HeaderTruthy(forwarded) then forwarded else host;
    if !HeaderTruthy(chosen) then Err(HostMissing)
    else match chosen.value
      case Single(text) => Ok(text)
      case Multi(values) => if |values| == 0 then Err(SplitOfUndefined) else Ok(values[0])
  }

  /** A truthy `x-forwarded-host` decides alone: `host` is not looked at. */
  lemma ForwardedHostWins(forwarded: Option<HeaderValue>, host1: Option<HeaderValue>, host2: Option<HeaderValue>)
    requires HeaderTruthy(forwarded)
    ensures SelectHost(forwarded, host1) == SelectHost(forwarded, host2)
  {
  }

  /** An array header contributes its first element. */
  lemma ArrayHeaderUsesFirst(first: string, others: seq<string>, host: Option<HeaderValue>)
    ensures SelectHost(Some(Multi([first] + others)), host) == Ok(first)
    ensures SelectHost(None, Some(Multi([first] + others))) == Ok(first)
  {
  }

  /** `host.split(':')[0]`: the text before the first colon. */
  function StripPort(host: string): (domain: string)
    ensures ':' !in domain
    ensures |domain| <= |host| && domain == host[..|domain|]
    ensures domain == host || host[|domain|] == ':'
    ensures ':' !in host ==> domain == host
  {
    Split(host, ':')[0]
  }

  lemma StripPortIdempotent(host: string)
    ensures StripPort(StripPort(host)) == StripPort(host)
  {
  }

  /** `name:port` is stripped to `name` whatever the port. */
  lemma StripPortOfHostAndPort(name: string, port: string)
    requires ':' !in name
    ensures StripPort(name + ":" + port) == name
  {
    SplitAtFirst(name, ':', port);
    assert name + [':'] + port == name + ":" + port;
  }

  /** The domain a request is resolved to. */
  function RequestDomain(forwarded: Option<HeaderValue>, host: Option<HeaderValue>): Result<string> {
    var h :- SelectHost(forwarded, host);
    Ok(StripPort(h))
  }

  function UnknownHost(domain: string): HttpError {
    Unauthorized("Client not found for host: " + domain)
  }

  predicate HasDomain(table: map<string, Clients.Client>, domain: string) {
    exists k :: k in table && table[k].domain == domain
  }

  /** The request as the middleware sees it: its two host headers, the
      store it is given and how many times `next()` has been called. */
  class Request {
    const forwardedHost: Option<HeaderValue>   // headers['x-forwarded-host']
    const host: Option<HeaderValue>            // headers['host']
    var client: Option<Clients.Client>
    var nextCalls: nat

    constructor (forwardedHost: Option<HeaderValue>, host: Option<HeaderValue>)
      ensures this.forwardedHost == forwardedHost && this.host == host
      ensures client.None? && nextCalls == 0
    {
      this.forwardedHost := forwardedHost;
      this.host := host;
      client := None;
      nextCalls := 0;
    }
  }

  /** `ClientMiddleware.use`: resolves the domain, looks up a store with
      that domain (active or not), attaches it to the request and calls
      `next` once; on any failure the request is left alone and `next` is
      not called. */
  method Use(req: Request, repository: Clients.ClientsService) returns (r: Result<()>)
    modifies req
    ensures r.Err? ==> req.client == old(req.client) && req.nextCalls == old(req.nextCalls)
    ensures var d := RequestDomain(req.forwardedHost, req.host);
      && (d.Err? ==> r == Err(d.error))
      && (d.Ok? && !HasDomain(repository.table, d.value) ==> r == Err(UnknownHost(d.value)))
      && (d.Ok? && HasDomain(repository.table, d.value) ==>
            && r.Ok?
            && req.client.Some?
            && req.client.value in repository.table.Values
            && req.client.value.domain == d.value
            && req.nextCalls == old(req.nextCalls) + 1)
  {
    var selected := SelectHost(req.forwardedHost, req.host);
    if selected.Err? {
      return Err(selected.error);
    }
    var domain := StripPort(selected.value);
    var table := repository.table;
    if !HasDomain(table, domain) {
      return Err(UnknownHost(domain));
    }
    var k :| k in table && table[k].domain == domain;
    req.client := Some(table[k]);
    req.nextCalls := req.nextCalls + 1;
    r := Ok(());
  }
}
