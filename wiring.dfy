/** The Route53 hooks plugged into the DNS-01 flow, as a caller wires them:
    the upsert hook passed to `perform_dns01` is the one built by
    `route53_upsert_cleanup`.
 */
module Wiring {
  import opened Failures
  import Core
  import Route53

  /** The flow's upsert hook replies as the Route53 upsert does for a service
      that will assign `changeIds` and report `statuses`. */
  ghost predicate UpsertsViaRoute53(dns: Core.DnsReplies, hostedZoneId: string,
                                    changeIds: seq<string>, statuses: seq<string>)
  {
    forall record, value :: dns.upsert(record, value)
      == Route53.UpsertSpec(hostedZoneId, record, value, changeIds, statuses).outcome
  }

  /** When Route53 never reports INSYNC within its 120 checks, the flow ends
      with the propagation timeout right after the upsert: the challenge is
      never answered, the order never finalized, and the record never
      cleaned up. */
  lemma PropagationTimeoutAbortsFlow(server: Core.AcmeServer, dns: Core.DnsReplies, lib: Core.ChallengeLibrary,
                                     key: Core.AccountKey, domain: string, csrPem: string,
                                     hostedZoneId: string, changeIds: seq<string>, statuses: seq<string>)
    requires UpsertsViaRoute53(dns, hostedZoneId, changeIds, statuses)
    requires changeIds != []
    requires Route53.MAX_CHECKS <= |statuses|
    requires forall j :: 0 <= j < Route53.MAX_CHECKS ==> statuses[j] != Route53.INSYNC
    ensures var run := Core.Dns01Flow(server, dns, lib, key, domain, csrPem);
      && |run.events| <= 2
      && (forall i :: 0 <= i < |run.events| ==> Core.Stage(run.events[i]) < 2)
      && (|run.events| == 2 ==> run.result == Err(PropagationTimeout(statuses[Route53.MAX_CHECKS - 1])))
  {
    var run := Core.Dns01Flow(server, dns, lib, key, domain, csrPem);
    Core.FlowStepsInOrder(server, dns, lib, key, domain, csrPem);
    if 2 <= |run.events| {
      Core.FlowPublishesDerivedRecord(server, dns, lib, key, domain, csrPem);
      var record, value := run.events[1].record, run.events[1].value;
      Route53.WaitTimesOut(changeIds[0], statuses);
      Route53.UpsertWaitsOnItsOwnChange(hostedZoneId, record, value, changeIds, statuses);
      assert dns.upsert(record, value) == Fail(PropagationTimeout(statuses[Route53.MAX_CHECKS - 1]));
    }
  }
}
