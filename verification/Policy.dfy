/** The decision table that maps mode, Cisco transition and user intent to actions. */
module Policy {
  datatype Mode = Proxy | Vpn | Switching
  datatype Cisco = Unknown | Inactive | Active
  datatype Intent = NoIntent | EnableVpn | DisableVpn
  datatype Action =
    | Nothing | StartForwarder | StopForwarder | ShowWarning | RefreshProxy
    | FailClosed | Notify | BindPhysical | UnbindProxy

  datatype Input = Input(
    mode: Mode, prev: Cisco, cur: Cisco, intent: Intent,
    physChanged: bool, proxyBound: bool, ciscoOwnsDefault: bool)

  datatype Decision = Decision(actions: seq<Action>, next: Mode)

  function Edge(prev: Cisco, cur: Cisco): bool {
    (prev == Inactive && cur == Active) || (prev == Active && cur == Inactive)
  }

  function Decide(i: Input): Decision {
    if i.intent == EnableVpn then
      if i.cur == Active then Decision([ShowWarning], i.mode)
      else if i.mode == Vpn then Decision([Nothing], Vpn)
      else Decision([StartForwarder], Vpn)
    else if i.intent == DisableVpn then
      if i.mode == Vpn then Decision([StopForwarder], Proxy) else Decision([Nothing], i.mode)
    else if i.mode == Switching then Decision([Nothing], Switching)
    else if i.cur == Active && i.mode == Vpn then Decision([FailClosed, StopForwarder, Notify], Proxy)
    else if i.mode == Proxy && i.proxyBound then Decision([UnbindProxy], Proxy)
    else if i.mode == Proxy && Edge(i.prev, i.cur) then Decision([RefreshProxy], Proxy)
    else if i.physChanged && i.mode == Vpn then Decision([RefreshProxy], Vpn)
    else Decision([Nothing], i.mode)
  }

  /** Some action is to be performed. */
  predicate Actionable(d: Decision) {
    exists a :: a in d.actions && a != Nothing
  }

  /** When each action is decided, and only then: the forwarder is started on request alone and
      never beside an active corporate VPN; a stale binding is released before anything is
      refreshed; no decision binds. */
  lemma DecideMeans(i: Input)
    ensures
      var acts := Decide(i).actions;
      var watching := i.intent == NoIntent;
      var flipped := i.mode == Proxy && !i.proxyBound && Edge(i.prev, i.cur);
      var moved := i.mode == Vpn && i.cur != Active && i.physChanged;
      && (StartForwarder in acts <==> i.intent == EnableVpn && i.cur != Active && i.mode != Vpn)
      && (ShowWarning in acts <==> i.intent == EnableVpn && i.cur == Active)
      && (StopForwarder in acts <==> i.mode == Vpn && (i.intent == DisableVpn || (watching && i.cur == Active)))
      && (FailClosed in acts <==> watching && i.mode == Vpn && i.cur == Active)
      && (Notify in acts <==> FailClosed in acts)
      && (UnbindProxy in acts <==> watching && i.mode == Proxy && i.proxyBound)
      && (RefreshProxy in acts <==> watching && (flipped || moved))
      && BindPhysical !in acts
      && (FailClosed in acts ==> acts[0] == FailClosed)
  {
  }

  /** The mode announced next differs from the present one exactly when the forwarder is to be
      started or stopped. */
  lemma NextModeMeans(i: Input)
    ensures
      Decide(i).next == if StartForwarder in Decide(i).actions then Vpn
                        else if StopForwarder in Decide(i).actions then Proxy
                        else i.mode
  {
  }
}
