/**
 * Tenant resolution (echo/tenant.go): the tenant of a request is cached in
 * the echo context's per-request store; on a miss it is taken from the query
 * parameter tenantId, else the tenant header, else the tenant path
 * parameter, and written back.
 */
module Tenant {
  import opened Wrappers
  import opened Slog

  /** The store slot GetTenant and SetTenant use. */
  const TenantSlot: string := "tenant"

  /**
   * The header name GetTenant reads: net/http's Header.Get canonicalises
   * "tenant" to "Tenant" before looking it up.
   */
  const TenantHeader: string := "Tenant"

  /** The parts of an echo.Context that tenant resolution uses. */
  class EchoContext {
    /** The per-request store behind c.Get and c.Set. */
    var store: map<string, Value>
    /** The URL query: each name's values, in order. */
    const query: map<string, seq<string>>
    /** The request headers, under their canonical names. */
    const header: map<string, seq<string>>
    /** The path parameters of the matched route. */
    const params: map<string, string>

    constructor (store: map<string, Value>, query: map<string, seq<string>>,
                 header: map<string, seq<string>>, params: map<string, string>)
      ensures this.store == store && this.query == query
      ensures this.header == header && this.params == params
    {
      this.store := store;
      this.query := query;
      this.header := header;
      this.params := params;
    }

    /** c.Get(key): the stored value, nil when nothing is stored. */
    function Get(key: string): (v: Value)
      reads this
      ensures key !in store ==> v == Nil
      ensures key in store ==> v == store[key]
    {
      if key in store then store[key] else Nil
    }

    /** c.Set(key, v): stores `v` under `key` and changes nothing else. */
    method Set(key: string, v: Value)
      modifies this
      ensures store == old(store)[key := v]
    {
      store := store[key := v];
    }

    /** c.QueryParam(name): the first value of the query parameter, or "". */
    function QueryParam(name: string): (s: string)
      ensures name in query && |query[name]| > 0 ==> s == query[name][0]
      ensures !(name in query && |query[name]| > 0) ==> s == ""
    {
      if name in query && |query[name]| > 0 then query[name][0] else ""
    }

    /** Header.Get(name) for an already canonical name: the first value, or "". */
    function HeaderGet(name: string): (s: string)
      ensures name in header && |header[name]| > 0 ==> s == header[name][0]
      ensures !(name in header && |header[name]| > 0) ==> s == ""
    {
      if name in header && |header[name]| > 0 then header[name][0] else ""
    }

    /** c.Param(name): the path parameter's value, or "". */
    function Param(name: string): (s: string)
      ensures name in params ==> s == params[name]
      ensures name !in params ==> s == ""
    {
      if name in params then params[name] else ""
    }

    /** The tenant the request's own sources give, ignoring the store. */
    function Sourced(): string
      reads this
    {
      Precedence(QueryParam("tenantId"), HeaderGet(TenantHeader), Param("tenant"))
    }
  }

  /** The cached tenant: the store's value under "tenant" when it is a string. */
  function Cached(store: map<string, Value>): (t: Option<string>)
    ensures t.Some? <==> TenantSlot in store && store[TenantSlot].Str?
    ensures t.Some? ==> store[TenantSlot] == Str(t.value)
  {
    if TenantSlot in store && store[TenantSlot].Str? then Some(store[TenantSlot].s) else None
  }

  /** The first non-empty of the query, header and path values; "" when all three are empty. */
  function Precedence(query: string, header: string, param: string): (t: string)
  {
    if query != "" then query else if header != "" then header else param
  }

  /**
   * The precedence rule: the query value wins when non-empty, the header
   * value comes next, the path value last; the result is empty exactly when
   * all three are.
   */
  lemma PrecedenceOrder(query: string, header: string, param: string)
    ensures query != "" ==> Precedence(query, header, param) == query
    ensures query == "" && header != "" ==> Precedence(query, header, param) == header
    ensures query == "" && header == "" ==> Precedence(query, header, param) == param
    ensures Precedence(query, header, param) == "" <==> query == "" && header == "" && param == ""
  {
  }

  /**
   * GetTenant: the cached string tenant when there is one, with the store
   * untouched; otherwise the sourced tenant (possibly ""), which is then
   * written to the store. Either way the store afterwards caches the result.
   */
  method GetTenant(c: EchoContext) returns (tenant: string)
    modifies c
    ensures Cached(old(c.store)).Some? ==> tenant == Cached(old(c.store)).value && c.store == old(c.store)
    ensures Cached(old(c.store)).None? ==>
      tenant == c.Sourced() && c.store == old(c.store)[TenantSlot := Str(tenant)]
    ensures Cached(c.store) == Some(tenant)
  {
    var v := c.Get(TenantSlot);
    if v.Str? {
      return v.s;
    }
    tenant := c.QueryParam("tenantId");
    if tenant == "" {
      tenant := c.HeaderGet(TenantHeader);
      if tenant == "" {
        tenant := c.Param("tenant");
      }
    }
    c.Set(TenantSlot, Str(tenant));
  }

  /** SetTenant: stores `tenant` under "tenant" and returns it. */
  method SetTenant(c: EchoContext, tenant: string) returns (t: string)
    modifies c
    ensures t == tenant
    ensures c.store == old(c.store)[TenantSlot := Str(tenant)]
    ensures Cached(c.store) == Some(tenant)
  {
    c.Set(TenantSlot, Str(tenant));
    t := tenant;
  }

  /**
   * Resolution is idempotent: a second GetTenant returns the first one's
   * tenant and leaves the store as the first one left it.
   */
  method GetTenantTwice(c: EchoContext) returns (t1: string, t2: string)
    modifies c
    ensures t1 == t2
    ensures c.store == old(c.store)[TenantSlot := Str(t1)]
  {
    t1 := GetTenant(c);
    ghost var afterFirst := c.store;
    t2 := GetTenant(c);
    assert c.store == afterFirst;
  }

  /** After SetTenant, GetTenant returns the tenant that was set, whatever the request says. */
  method SetThenGet(c: EchoContext, tenant: string) returns (t: string)
    modifies c
    ensures t == tenant
    ensures c.store == old(c.store)[TenantSlot := Str(tenant)]
  {
    var _ := SetTenant(c, tenant);
    t := GetTenant(c);
  }

  /**
   * A value stored under "tenant" that is not a string (nil included) is no
   * cache hit: GetTenant resolves afresh and overwrites it.
   */
  lemma NonStringIsNoCacheHit(store: map<string, Value>, v: Value)
    requires !v.Str?
    ensures Cached(store[TenantSlot := v]) == None
  {
  }
}
