/** Who may open a stream: `policy.rs`. */
module StreamPolicy {
  type Peer = string

  /** Allow lists are shared and may change at any time; a policy names the list it looks at. */
  type ListId = nat

  type Lists = map<ListId, set<Peer>>

  datatype GlobalPolicy = AllowAll | GlobalSet(list: ListId)

  datatype AllowList = InheritGlobal | PeerSet(list: ListId)

  datatype Decision = Allowed | RejectedByGlobalAllowList | RejectedByProtocolAllowList

  function PeersIn(lists: Lists, list: ListId): set<Peer> {
    if list in lists then lists[list] else {}
  }

  predicate PassesGlobal(policy: GlobalPolicy, lists: Lists, peer: Peer) {
    policy.AllowAll? || peer in PeersIn(lists, policy.list)
  }

  predicate PassesProtocol(allow: AllowList, lists: Lists, peer: Peer) {
    allow.InheritGlobal? || peer in PeersIn(lists, allow.list)
  }

  /** `authorize_inbound`; the two lists are read one after the other, as they are then. */
  function AuthorizeInbound(policy: GlobalPolicy, allow: AllowList, first: Lists, second: Lists, peer: Peer): (d: Decision)
    ensures d.Allowed? <==> PassesGlobal(policy, first, peer) && PassesProtocol(allow, second, peer)
    ensures d.RejectedByGlobalAllowList? <==> !PassesGlobal(policy, first, peer)
  {
    match policy
    case GlobalSet(list) =>
      if peer !in PeersIn(first, list) then RejectedByGlobalAllowList else AuthorizeProtocol(allow, second, peer)
    case AllowAll => AuthorizeProtocol(allow, second, peer)
  }

  function AuthorizeProtocol(allow: AllowList, lists: Lists, peer: Peer): Decision {
    match allow
    case InheritGlobal => Allowed
    case PeerSet(list) => if peer in PeersIn(lists, list) then Allowed else RejectedByProtocolAllowList
  }

  /** A peer that is on the node's list when that is read, if it has one, and then on the listener's, if it has one. */
  predicate MayOpen(policy: GlobalPolicy, allow: AllowList, first: Lists, second: Lists, peer: Peer) {
    (policy.GlobalSet? ==> policy.list in first && peer in first[policy.list])
    && (allow.PeerSet? ==> allow.list in second && peer in second[allow.list])
  }

  /** Who is let in. */
  lemma LetIn(policy: GlobalPolicy, allow: AllowList, first: Lists, second: Lists, peer: Peer)
    ensures AuthorizeInbound(policy, allow, first, second, peer).Allowed? <==> MayOpen(policy, allow, first, second, peer)
  {
  }

  /** A protocol can only be stricter than the node. */
  lemma ProtocolOnlyRestricts(policy: GlobalPolicy, allow: AllowList, first: Lists, second: Lists, peer: Peer)
    ensures AuthorizeInbound(policy, allow, first, second, peer).Allowed? ==>
              AuthorizeInbound(policy, InheritGlobal, first, second, peer).Allowed?
  {
  }
}
