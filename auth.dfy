/**
 * api/utils/auth.js: the role-to-permission table of `AuthManager`, and the
 * two middlewares every protected handler runs first. Token verification
 * and the user's tenant lookup are calls into the identity service; they
 * are parameters that either give a result or fail with a message.
 */
module Auth {
  import opened Wrappers
  import opened Json

  /** The actions each role is granted; `*` grants every action. */
  function Permissions(role: string): seq<string>
  {
    if role == "admin" then ["*"]
    else if role == "user" then ["read", "create"]
    else if role == "viewer" then ["read"]
    else []
  }

  /** `hasPermission(role, resource, action)`: the resource plays no part. */
  predicate HasPermission(role: string, resource: string, action: string)
  {
    "*" in Permissions(role) || action in Permissions(role)
  }

  /** `admin` may do anything. */
  lemma AdminMayDoAnything(resource: string, action: string)
    ensures HasPermission("admin", resource, action)
  {
  }

  /** `user` may exactly read and create; `viewer` may exactly read. */
  lemma UserAndViewer(resource: string, action: string)
    ensures HasPermission("user", resource, action) <==> action == "read" || action == "create"
    ensures HasPermission("viewer", resource, action) <==> action == "read"
  {
  }

  /** Any other role is denied everything, and no answer depends on the resource. */
  lemma UnknownRolesAndResources(role: string, resource: string, other: string, action: string)
    ensures role !in {"admin", "user", "viewer"} ==> !HasPermission(role, resource, action)
    ensures HasPermission(role, resource, action) == HasPermission(role, other, action)
  {
  }

  /** Whether `pat` occurs in `s` at position `i`. */
  predicate OccursAt(s: string, pat: string, i: nat)
  {
    i + |pat| <= |s| && s[i..i + |pat|] == pat
  }

  /** The first position at or after `from` where `pat` occurs in `s`. */
  function IndexOf(s: string, pat: string, from: nat): (r: Option<nat>)
    ensures r.Some? ==> from <= r.value && OccursAt(s, pat, r.value)
    ensures forall j :: from <= j && (r.None? || j < r.value) ==> !OccursAt(s, pat, j)
    decreases |s| - from
  {
    if from + |pat| > |s| then None
    else if s[from..from + |pat|] == pat then Some(from)
    else IndexOf(s, pat, from + 1)
  }

  const Bearer: string := "Bearer "

  /** `authHeader.replace('Bearer ', '')`: only the first occurrence is removed, wherever it is. */
  function StripBearer(header: string): (token: string)
    ensures IndexOf(header, Bearer, 0).None? ==> token == header
    ensures IndexOf(header, Bearer, 0).Some? ==>
      var i := IndexOf(header, Bearer, 0).value;
      token == header[..i] + header[i + |Bearer|..] && |token| == |header| - |Bearer|
  {
    var i := IndexOf(header, Bearer, 0);
    if i.None? then header else header[..i.value] + header[i.value + |Bearer|..]
  }

  /**
   * A header of the form `Bearer <t>` yields `t`; a header without the
   * prefix anywhere is taken as the token itself.
   */
  lemma BearerToken(t: string, header: string)
    ensures StripBearer(Bearer + t) == t
    ensures (forall j :: 0 <= j ==> !OccursAt(header, Bearer, j)) ==> StripBearer(header) == header
  {
    assert OccursAt(Bearer + t, Bearer, 0) by {
      assert (Bearer + t)[0..|Bearer|] == Bearer;
    }
    assert (Bearer + t)[|Bearer|..] == t;
  }

  /** An answer the middleware sends instead of calling `next`. */
  datatype Response = Response(status: nat, error: string)

  const HeaderRequired: string := "Authorization header required"
  const TokenFailed: string := "Token verification failed: "
  const TenantFailed: string := "Failed to get user tenant: "
  const TenantRequired: string := "Tenant context required"

  /** The parts of a request the middlewares read and set, and how often they called `next`. */
  class Request {
    /** The `Authorization` header ("" when missing). */
    var authorization: string
    /** `req.user`, as the verified user's id. */
    var user: Option<string>
    /** `req.tenantId` ("" when unset or null). */
    var tenantId: string
    var tenantFilter: Option<map<string, Value>>
    var response: Option<Response>
    var nextCalls: nat

    constructor (authorization: string)
      ensures this.authorization == authorization
      ensures user == None && tenantId == "" && tenantFilter == None && response == None && nextCalls == 0
    {
      this.authorization := authorization;
      user, tenantId, tenantFilter, response, nextCalls := None, "", None, None, 0;
    }

    /**
     * `authenticate`: without a header, 401; otherwise the token is
     * verified (`verify` gives the user's id) and the user's tenant looked
     * up (`tenantOf`); `req.user` is set as soon as the token verifies, and
     * any failure is answered 401 with its message. Only when both succeed
     * is `next` called.
     */
    method Authenticate(verify: string -> Result<string>, tenantOf: string -> Result<string>)
      modifies this
      ensures authorization == old(authorization) && tenantFilter == old(tenantFilter)
      ensures old(authorization) == "" ==>
        response == Some(Response(401, HeaderRequired)) && user == old(user) && tenantId == old(tenantId) && nextCalls == old(nextCalls)
      ensures old(authorization) != "" && verify(StripBearer(old(authorization))).Err? ==>
        && response == Some(Response(401, TokenFailed + verify(StripBearer(old(authorization))).message))
        && user == old(user) && tenantId == old(tenantId) && nextCalls == old(nextCalls)
      ensures old(authorization) != "" && verify(StripBearer(old(authorization))).Ok? ==>
        var id := verify(StripBearer(old(authorization))).value;
        && user == Some(id)
        && (tenantOf(id).Err? ==>
              response == Some(Response(401, TenantFailed + tenantOf(id).message)) && tenantId == old(tenantId) && nextCalls == old(nextCalls))
        && (tenantOf(id).Ok? ==> tenantId == tenantOf(id).value && response == old(response) && nextCalls == old(nextCalls) + 1)
    {
      if authorization == "" {
        response := Some(Response(401, HeaderRequired));
        return;
      }
      var token := StripBearer(authorization);
      var verified := verify(token);
      if verified.Err? {
        response := Some(Response(401, TokenFailed + verified.message));
        return;
      }
      user := Some(verified.value);
      var tenant := tenantOf(verified.value);
      if tenant.Err? {
        response := Some(Response(401, TenantFailed + tenant.message));
        return;
      }
      tenantId := tenant.value;
      nextCalls := nextCalls + 1;
    }

    /** `enforceTenantIsolation`: without a tenant, 403; otherwise the tenant filter is set and `next` called once. */
    method EnforceTenantIsolation()
      modifies this
      ensures authorization == old(authorization) && user == old(user) && tenantId == old(tenantId)
      ensures old(tenantId) == "" ==>
        response == Some(Response(403, TenantRequired)) && tenantFilter == old(tenantFilter) && nextCalls == old(nextCalls)
      ensures old(tenantId) != "" ==>
        tenantFilter == Some(map["tenant_id" := Str(old(tenantId))]) && response == old(response) && nextCalls == old(nextCalls) + 1
    {
      if tenantId == "" {
        response := Some(Response(403, TenantRequired));
        return;
      }
      tenantFilter := Some(map["tenant_id" := Str(tenantId)]);
      nextCalls := nextCalls + 1;
    }

    /**
     * The two middlewares as a handler chains them: the handler is reached
     * exactly when there is a header, the token verifies, the tenant lookup
     * succeeds and gives a tenant; it then runs scoped to that tenant.
     */
    method Admit(verify: string -> Result<string>, tenantOf: string -> Result<string>) returns (admitted: bool)
      requires nextCalls == 0 && response == None
      modifies this
      ensures admitted <==>
        && old(authorization) != ""
        && verify(StripBearer(old(authorization))).Ok?
        && tenantOf(verify(StripBearer(old(authorization))).value).Ok?
        && tenantOf(verify(StripBearer(old(authorization))).value).value != ""
      ensures admitted ==> nextCalls == 2 && response == None && tenantFilter == Some(map["tenant_id" := Str(tenantId)])
      ensures !admitted ==> response.Some? && response.value.status in {401, 403}
    {
      Authenticate(verify, tenantOf);
      if nextCalls == 0 {
        return false;
      }
      EnforceTenantIsolation();
      admitted := nextCalls == 2;
    }
  }
}
