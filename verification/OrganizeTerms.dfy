/** What the conditions of the rules come to, said of the networks, names and addresses themselves. */
module OrganizeTerms {
  import opened Addresses
  import opened Peers
  import opened OrganizeModel

  /** In a current subnet other than fdff:ffff:ffdf::/48. */
  predicate OnSubnet(ip: IP, sys: SystemState) {
    exists s | s in sys.subnets ::
      && s.0 != Net(V6([0xfd, 0xff, 0xff, 0xff, 0xff, 0xdf, 0, 0, 0, 0, 0, 0, 0, 0, 0, 0]), 48)
      && Contains(s.0, ip)
  }

  /** In such a subnet and in an allowed network. */
  predicate Usable(ip: IP, prefs: Prefs, sys: SystemState) {
    OnSubnet(ip, sys) && exists n | n in prefs.subnetsAllowed :: Contains(n, ip)
  }

  /** One of the gateway addresses is announced and in such a subnet. */
  predicate GatewayAnnounced(d: Descriptor, sys: SystemState, gateways: seq<IP>) {
    exists ip | ip in gateways :: ip in d.Announced() && OnSubnet(ip, sys)
  }

  /** The name ends with a local domain. */
  predicate NamedLocally(name: string, prefs: Prefs) {
    exists domain | domain in prefs.localDomains :: |domain| <= |name| && name[|name| - |domain|..] == domain
  }

  lemma LocalExactly(ip: IP, sys: SystemState)
    ensures sys.Local(ip) <==> OnSubnet(ip, sys)
  {
    if i :| 0 <= i < |sys.subnets| && sys.subnets[i].0 != VULA_ULA_SUBNET && Contains(sys.subnets[i].0, ip) {
      assert sys.subnets[i] in sys.subnets;
    }
  }

  lemma QualifiesExactly(ip: IP, prefs: Prefs, sys: SystemState)
    ensures Qualifies(ip, prefs, sys) <==> Usable(ip, prefs, sys)
  {
    LocalExactly(ip, sys);
  }

  lemma QualifiesAlways(prefs: Prefs, sys: SystemState)
    ensures forall ip: IP {:trigger Qualifies(ip, prefs, sys)} {:trigger Usable(ip, prefs, sys)} ::
              Qualifies(ip, prefs, sys) <==> Usable(ip, prefs, sys)
  {
    forall ip: IP ensures Qualifies(ip, prefs, sys) <==> Usable(ip, prefs, sys) {
      QualifiesExactly(ip, prefs, sys);
    }
  }

  lemma GatewayExactly(d: Descriptor, sys: SystemState, gateways: seq<IP>)
    ensures AnnouncesGateway(d, sys, gateways) <==> GatewayAnnounced(d, sys, gateways)
  {
    forall ip: IP ensures sys.Local(ip) <==> OnSubnet(ip, sys) {
      LocalExactly(ip, sys);
    }
  }

  lemma LocalNameExactly(name: string, prefs: Prefs)
    ensures InLocalDomain(name, prefs) <==> NamedLocally(name, prefs)
  {
    forall domain | domain in prefs.localDomains
      ensures EndsWith(name, domain) <==> |domain| <= |name| && name[|name| - |domain|..] == domain {
    }
  }
}
