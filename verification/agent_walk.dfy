/** The walk over the current sessions of all tokens. */
module AgentWalk {
  import opened Common
  import opened AgentModel

  predicate Usable(session: AgentSession, tenantID: Uuid, now: Instant, staleAfter: int)
    reads session
  {
    session.tenantID == tenantID && session.active && now - session.lastHeartbeatAt <= staleAfter
  }

  /** The walk over the sessions of all tokens for the latest-connected usable one. */
  method LatestUsable(byToken: map<Uuid, AgentSession>, tenantID: Uuid, now: Instant, staleAfter: int)
    returns (current: AgentSession?, ghost at: Uuid)
    ensures current == null ==> forall t | t in byToken :: !Usable(byToken[t], tenantID, now, staleAfter)
    ensures current != null ==>
              && at in byToken && byToken[at] == current && Usable(current, tenantID, now, staleAfter)
              && forall t | t in byToken && Usable(byToken[t], tenantID, now, staleAfter) ::
                   byToken[t].connectedAt <= current.connectedAt
  {
    current, at := null, 0;
    var rest := byToken.Keys;
    while rest != {}
      invariant rest <= byToken.Keys
      invariant current == null ==>
                  forall t | t in byToken && t !in rest :: !Usable(byToken[t], tenantID, now, staleAfter)
      invariant current != null ==>
                  && at in byToken && byToken[at] == current && Usable(current, tenantID, now, staleAfter)
                  && forall t | t in byToken && t !in rest && Usable(byToken[t], tenantID, now, staleAfter) ::
                       byToken[t].connectedAt <= current.connectedAt
      decreases |rest|
    {
      var t := AnyOf(rest);
      rest := rest - {t};
      var session := byToken[t];
      if Usable(session, tenantID, now, staleAfter) {
        if current == null || session.connectedAt > current.connectedAt {
          current, at := session, t;
        }
      }
    }
  }
}
