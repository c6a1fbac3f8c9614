/** Protected operator traffic policy (vnext/policy.py). */
module Policy {
  import opened Base
  import opened Models

  /** Server configuration: the operator's override for (kind, is-active), where one is present. */
  type Config = map<(Kind, bool), string>

  function Default(kind: Kind): string {
    match kind
    case LinkNode => "deny"
    case Announce => "deny"
    case UnlinkNode => "allow"
    case UnlinkAll => "allow"
  }

  function Setting(config: Config, kind: Kind, active: bool): string {
    if (kind, active) in config then config[(kind, active)] else Default(kind)
  }

  /** None lets the control through; Some is the coded refusal. */
  function Enforce(config: Config, kind: Kind, state: NodeState): Option<Error> {
    match state.traffic
    case CLEAR => None
    case ACTIVE =>
      if Setting(config, kind, true) == "allow" then None
      else Some(Problem(409, "POLICY_DENIED_ACTIVE_TRAFFIC"))
    case UNKNOWN_TRAFFIC =>
      if Setting(config, kind, false) == "allow" then None
      else Some(Problem(409, "POLICY_DENIED_STATE_UNKNOWN"))
  }

  /** What goes through: anything in clear traffic, what the operator allows, and disconnecting by default. */
  predicate Allows(config: Config, kind: Kind, traffic: Traffic) {
    || traffic == CLEAR
    || (var rule := (kind, traffic == ACTIVE);
        if rule in config then config[rule] == "allow" else kind == UnlinkNode || kind == UnlinkAll)
  }

  /** Policy decided, with the code of each refusal. */
  lemma EnforceDecided(config: Config, kind: Kind, state: NodeState)
    ensures Enforce(config, kind, state) ==
      if Allows(config, kind, state.traffic) then None
      else Some(Problem(409,
        if state.traffic == ACTIVE then "POLICY_DENIED_ACTIVE_TRAFFIC" else "POLICY_DENIED_STATE_UNKNOWN"))
  {
  }

  /** With no override, linking and announcing need complete evidence that nothing at all is keyed. */
  lemma DefaultsDemandSilence(kind: Kind, state: NodeState)
    requires Evident(state) && kind in {LinkNode, Announce}
    ensures Enforce(map[], kind, state).None? <==>
      && state.complete && state.rxKeyed == Some(false) && state.txKeyed == Some(false)
      && forall i :: 0 <= i < |state.directLinks.value| ==> !state.directLinks.value[i].keyed
  {
  }

  /** Disconnecting is never refused by default, whatever is or is not known about the node. */
  lemma DefaultsAlwaysDisconnect(kind: Kind, state: NodeState)
    requires kind in {UnlinkNode, UnlinkAll}
    ensures Enforce(map[], kind, state).None?
  {
  }
}
