/**
 * Role resolution (`checkRole` in routes/businesses.js), applied to every
 * request under /business. A role is any string the client declares; the
 * empty string stands for an absent query parameter or session value, as
 * JavaScript's `||` treats both as false.
 */
module Roles {
  const Owner := "owner"
  const Consumer := "consumer"

  /** `query || session || 'consumer'`: the role the handlers compare against. */
  function EffectiveRole(query: string, session: string): (role: string)
    ensures role != ""
    ensures query != "" ==> role == query
    ensures query == "" && session != "" ==> role == session
    ensures query == "" && session == "" ==> role == Consumer
  {
    var first := if query != "" then query else session;
    if first != "" then first else Consumer
  }

  /** The session's stored role after a request: overwritten only by a non-empty query role. */
  function SessionAfter(query: string, session: string): (r: string)
    ensures query != "" ==> r == query
    ensures query == "" ==> r == session
  {
    if query != "" then EffectiveRole(query, session) else session
  }

  /** The session state a request reads and writes (`req.session.role`). */
  class Session {
    var role: string

    constructor ()
      ensures role == ""
    {
      role := "";
    }

    /** Resolves the role of one request and makes a query role sticky. */
    method CheckRole(query: string) returns (userRole: string)
      modifies this
      ensures userRole == EffectiveRole(query, old(role))
      ensures role == SessionAfter(query, old(role))
      ensures query != "" ==> role == query
      ensures query == "" ==> role == old(role)
    {
      userRole := EffectiveRole(query, role);
      if query != "" {
        role := userRole;
      }
    }
  }

  /**
   * The roles that successive requests of one session resolve to, given
   * each request's query role and the session's initial stored role.
   */
  function RolesOver(queries: seq<string>, session: string): (roles: seq<string>)
    ensures |roles| == |queries|
    decreases |queries|
  {
    if queries == [] then []
    else [EffectiveRole(queries[0], session)] + RolesOver(queries[1..], SessionAfter(queries[0], session))
  }

  /** Requests that carry no query role all resolve as the stored role would (or "consumer"). */
  lemma {:induction false} NoQueryKeepsRole(queries: seq<string>, session: string, j: nat)
    requires j < |queries|
    requires forall k :: 0 <= k <= j ==> queries[k] == ""
    ensures RolesOver(queries, session)[j] == EffectiveRole("", session)
    decreases j
  {
    if j > 0 {
      NoQueryKeepsRole(queries[1..], session, j - 1);
    }
  }

  /**
   * Setting a role once through the query persists it: every later request
   * of the session without a query role resolves to it.
   */
  lemma {:induction false} StickyRole(queries: seq<string>, session: string, i: nat, j: nat)
    requires i < j < |queries|
    requires queries[i] != ""
    requires forall k :: i < k <= j ==> queries[k] == ""
    ensures RolesOver(queries, session)[j] == queries[i]
    decreases i
  {
    if i == 0 {
      NoQueryKeepsRole(queries[1..], queries[0], j - 1);
    } else {
      StickyRole(queries[1..], SessionAfter(queries[0], session), i - 1, j - 1);
    }
  }

  /** A session that never declared a role acts as "consumer". */
  lemma DefaultConsumer(queries: seq<string>, j: nat)
    requires j < |queries|
    requires forall k :: 0 <= k <= j ==> queries[k] == ""
    ensures RolesOver(queries, "")[j] == Consumer
  {
    NoQueryKeepsRole(queries, "", j);
  }
}
