/** The Route53 DNS hooks: publish the DNS-01 TXT record and wait until Route53
    reports the change as propagated, and withdraw the record afterwards.

    The boto3 Route53 client is modelled by `Route53Client`, whose replies come
    from two oracle sequences: the change ids it assigns to successive
    submissions and the statuses it reports to successive `get_change` calls.
    When an oracle sequence is exhausted, the SDK call raises. Every SDK call,
    and every `sleep`, is recorded in the ghost trace `effects`.
 */
module Route53 {
  import opened Failures

  const INSYNC: string := "INSYNC"
  /** Number of status checks before giving up. */
  const MAX_CHECKS: nat := 120
  /** Seconds slept after every status check that is not INSYNC. */
  const POLL_INTERVAL_SECONDS: nat := 2
  const TXT_TYPE: string := "TXT"
  const TXT_TTL: nat := 60

  const CHANGE_RECORD_SETS_CALL: string := "route53.change_resource_record_sets"
  const GET_CHANGE_CALL: string := "route53.get_change"

  // ---------------------------------------------------------------------------
  // Change batches
  // ---------------------------------------------------------------------------

  datatype ChangeAction = Upsert | Delete
  datatype ResourceRecord = ResourceRecord(value: string)
  datatype ResourceRecordSet =
    ResourceRecordSet(name: string, recordType: string, ttl: nat, resourceRecords: seq<ResourceRecord>)
  datatype Change = Change(action: ChangeAction, recordSet: ResourceRecordSet)
  datatype ChangeBatch = ChangeBatch(changes: seq<Change>)

  /** A TXT value in the quoted form Route53 expects. */
  function Quoted(value: string): string
  {
    "\"" + value + "\""
  }

  /** The inverse of `Quoted`, for texts that are quoted. */
  function Unquoted(text: string): (r: Option<string>)
    ensures r.Some? <==> 2 <= |text| && text[0] == '"' && text[|text| - 1] == '"'
    ensures r.Some? ==> Quoted(r.value) == text
  {
    if 2 <= |text| && text[0] == '"' && text[|text| - 1] == '"' then
      assert Quoted(text[1..|text| - 1]) == text;
      Some(text[1..|text| - 1])
    else
      None
  }

  lemma QuotedRoundTrip(value: string)
    ensures Unquoted(Quoted(value)) == Some(value)
  {
  }

  /** The batch `upsert_dns01_record` submits. */
  function UpsertBatch(record: string, value: string): ChangeBatch
  {
    ChangeBatch([Change(Upsert, ResourceRecordSet(record, TXT_TYPE, TXT_TTL, [ResourceRecord(Quoted(value))]))])
  }

  /** The batch `delete_dns_challenge_record` submits. */
  function DeleteBatch(record: string, value: string): ChangeBatch
  {
    ChangeBatch([Change(Delete, ResourceRecordSet(record, TXT_TYPE, TXT_TTL, [ResourceRecord(Quoted(value))]))])
  }

  /** Reads back the action, record name and (unquoted) value of a batch that
      changes exactly one TXT record set with TTL 60 and a single quoted value. */
  function Dns01ChangeOf(batch: ChangeBatch): (r: Option<(ChangeAction, string, string)>)
    ensures r.Some? ==>
      batch == (if r.value.0 == Upsert then UpsertBatch(r.value.1, r.value.2) else DeleteBatch(r.value.1, r.value.2))
  {
    if |batch.changes| == 1 then
      var change := batch.changes[0];
      var rrset := change.recordSet;
      if rrset.recordType == TXT_TYPE && rrset.ttl == TXT_TTL && |rrset.resourceRecords| == 1 then
        match Unquoted(rrset.resourceRecords[0].value)
        case Some(value) =>
          assert rrset.resourceRecords == [ResourceRecord(Quoted(value))];
          assert rrset == ResourceRecordSet(rrset.name, TXT_TYPE, TXT_TTL, [ResourceRecord(Quoted(value))]);
          assert batch == ChangeBatch([Change(change.action, rrset)]);
          assert change.action == Upsert ==> batch == UpsertBatch(rrset.name, value);
          assert change.action == Delete ==> batch == DeleteBatch(rrset.name, value);
          Some((change.action, rrset.name, value))
        case None => None
      else None
    else None
  }

  /** The upsert batch holds one UPSERT of one TXT record set named `record`,
      TTL 60, whose one value is `value` in quotes. */
  lemma UpsertBatchShape(record: string, value: string)
    ensures var b := UpsertBatch(record, value);
      && |b.changes| == 1
      && b.changes[0].action == Upsert
      && b.changes[0].recordSet.name == record
      && b.changes[0].recordSet.recordType == "TXT"
      && b.changes[0].recordSet.ttl == 60
      && b.changes[0].recordSet.resourceRecords == [ResourceRecord("\"" + value + "\"")]
  {
  }

  /** Both batches read back as the pair they were built from, so distinct
      pairs never give the same batch. */
  lemma BatchesRoundTrip(record: string, value: string)
    ensures Dns01ChangeOf(UpsertBatch(record, value)) == Some((Upsert, record, value))
    ensures Dns01ChangeOf(DeleteBatch(record, value)) == Some((Delete, record, value))
  {
  }

  /** The delete batch is the upsert batch with the action changed. */
  lemma DeleteMirrorsUpsert(record: string, value: string)
    ensures DeleteBatch(record, value).changes == [Change(Delete, UpsertBatch(record, value).changes[0].recordSet)]
  {
  }

  // ---------------------------------------------------------------------------
  // The Route53 SDK, as an oracle
  // ---------------------------------------------------------------------------

  datatype Effect =
    | ChangeSubmitted(hostedZoneId: string, batch: ChangeBatch)
    | StatusChecked(changeId: string)
    | Sleep(seconds: nat)

  /** The reply an oracle sequence gives to the next call. */
  function NextReply(replies: seq<string>, call: string): (r: Result<string>)
    ensures r.Ok? <==> replies != []
    ensures r.Ok? ==> r.value == replies[0]
    ensures r.Err? ==> r.error == ServiceError(call)
  {
    if replies == [] then Err(ServiceError(call)) else Ok(replies[0])
  }

  class Route53Client {
    /** Ids the service assigns to the next submissions, one per call. */
    var changeIds: seq<string>
    /** Statuses the service reports to the next `get_change` calls, one per call. */
    var statuses: seq<string>
    ghost var effects: seq<Effect>

    constructor (changeIds: seq<string>, statuses: seq<string>)
      ensures this.changeIds == changeIds && this.statuses == statuses && effects == []
    {
      this.changeIds := changeIds;
      this.statuses := statuses;
      effects := [];
    }

    method ChangeResourceRecordSets(hostedZoneId: string, batch: ChangeBatch) returns (r: Result<string>)
      modifies this
      ensures r == NextReply(old(changeIds), CHANGE_RECORD_SETS_CALL)
      ensures changeIds == if old(changeIds) == [] then [] else old(changeIds)[1..]
      ensures statuses == old(statuses)
      ensures effects == old(effects) + [ChangeSubmitted(hostedZoneId, batch)]
    {
      r := NextReply(changeIds, CHANGE_RECORD_SETS_CALL);
      if changeIds != [] {
        changeIds := changeIds[1..];
      }
      effects := effects + [ChangeSubmitted(hostedZoneId, batch)];
    }

    method GetChange(changeId: string) returns (r: Result<string>)
      modifies this`statuses, this`effects
      ensures r == NextReply(old(statuses), GET_CHANGE_CALL)
      ensures statuses == if old(statuses) == [] then [] else old(statuses)[1..]
      ensures effects == old(effects) + [StatusChecked(changeId)]
    {
      r := NextReply(statuses, GET_CHANGE_CALL);
      if statuses != [] {
        statuses := statuses[1..];
      }
      effects := effects + [StatusChecked(changeId)];
    }
  }

  // ---------------------------------------------------------------------------
  // Specification of the propagation wait
  // ---------------------------------------------------------------------------

  /** The i-th effect of a poll: checks at even positions, 2-second sleeps at odd ones. */
  function PollStep(changeId: string, i: nat): Effect
  {
    if i % 2 == 0 then StatusChecked(changeId) else Sleep(POLL_INTERVAL_SECONDS)
  }

  /** Every status check is of `changeId`, and consecutive checks are separated
      by exactly one 2-second sleep. */
  ghost predicate Alternates(changeId: string, effects: seq<Effect>)
  {
    forall i :: 0 <= i < |effects| ==> effects[i] == PollStep(changeId, i)
  }

  /** `n` rounds of "check, then sleep". */
  function Polls(changeId: string, n: nat): seq<Effect>
  {
    if n == 0 then [] else Polls(changeId, n - 1) + [StatusChecked(changeId), Sleep(POLL_INTERVAL_SECONDS)]
  }

  /** Number of status checks in a trace. */
  function Checks(effects: seq<Effect>): nat
  {
    if effects == [] then 0
    else Checks(effects[..|effects| - 1]) + if effects[|effects| - 1].StatusChecked? then 1 else 0
  }

  /** Number of sleeps in a trace. */
  function Sleeps(effects: seq<Effect>): nat
  {
    if effects == [] then 0
    else Sleeps(effects[..|effects| - 1]) + if effects[|effects| - 1].Sleep? then 1 else 0
  }

  /** The first position holding INSYNC, or |s| if there is none. */
  function IndexOfInSync(s: seq<string>): (k: nat)
    ensures k <= |s|
    ensures k < |s| ==> s[k] == INSYNC
    ensures forall j :: 0 <= j < k ==> s[j] != INSYNC
  {
    if s == [] then 0
    else if s[0] == INSYNC then 0
    else 1 + IndexOfInSync(s[1..])
  }

  /** The statuses the wait can observe: at most the first MAX_CHECKS. */
  function Window(statuses: seq<string>): (w: seq<string>)
    ensures |w| <= MAX_CHECKS && w <= statuses
    ensures |w| == MAX_CHECKS || w == statuses
  {
    if |statuses| <= MAX_CHECKS then statuses else statuses[..MAX_CHECKS]
  }

  /** What one wait does: its outcome, its effects, and how many statuses it used. */
  datatype Wait = Wait(outcome: Outcome, effects: seq<Effect>, consumed: nat)

  /** The wait on `changeId` when the service will report `statuses`:
      it ends at the first INSYNC among the first MAX_CHECKS statuses; failing
      that, when the SDK has no reply left (it raises); failing that, it times
      out after MAX_CHECKS checks, reporting the last status. */
  function WaitSpec(changeId: string, statuses: seq<string>): Wait
  {
    var window := Window(statuses);
    var k := IndexOfInSync(window);
    if k < |window| then
      Wait(Pass, Polls(changeId, k) + [StatusChecked(changeId)], k + 1)
    else if |statuses| < MAX_CHECKS then
      Wait(Fail(ServiceError(GET_CHANGE_CALL)), Polls(changeId, |statuses|) + [StatusChecked(changeId)], |statuses|)
    else
      Wait(Fail(PropagationTimeout(statuses[MAX_CHECKS - 1])), Polls(changeId, MAX_CHECKS), MAX_CHECKS)
  }

  /** The three ways a wait ends, in closed form. */
  lemma WaitSpecAtInSync(changeId: string, statuses: seq<string>, k: nat)
    requires k < MAX_CHECKS && k < |statuses| && statuses[k] == INSYNC
    requires forall j :: 0 <= j < k ==> statuses[j] != INSYNC
    ensures WaitSpec(changeId, statuses) == Wait(Pass, Polls(changeId, k) + [StatusChecked(changeId)], k + 1)
  {
  }

  lemma WaitSpecWhenServiceFails(changeId: string, statuses: seq<string>)
    requires |statuses| < MAX_CHECKS
    requires forall j :: 0 <= j < |statuses| ==> statuses[j] != INSYNC
    ensures WaitSpec(changeId, statuses)
      == Wait(Fail(ServiceError(GET_CHANGE_CALL)), Polls(changeId, |statuses|) + [StatusChecked(changeId)], |statuses|)
  {
  }

  lemma WaitSpecOnTimeout(changeId: string, statuses: seq<string>)
    requires MAX_CHECKS <= |statuses|
    requires forall j :: 0 <= j < MAX_CHECKS ==> statuses[j] != INSYNC
    ensures WaitSpec(changeId, statuses)
      == Wait(Fail(PropagationTimeout(statuses[MAX_CHECKS - 1])), Polls(changeId, MAX_CHECKS), MAX_CHECKS)
  {
  }

  // ---------------------------------------------------------------------------
  // Lemmas about the wait
  // ---------------------------------------------------------------------------

  lemma {:induction false} PollsAlternate(changeId: string, n: nat)
    ensures |Polls(changeId, n)| == 2 * n
    ensures Alternates(changeId, Polls(changeId, n))
  {
    if n > 0 {
      PollsAlternate(changeId, n - 1);
      var p := Polls(changeId, n);
      var q := Polls(changeId, n - 1);
      forall i | 0 <= i < |p| ensures p[i] == PollStep(changeId, i) {
        if i < |q| {
          assert p[i] == q[i];
        }
      }
    }
  }

  /** A poll followed by one more check still alternates. */
  lemma PollsThenCheckAlternate(changeId: string, n: nat)
    ensures Alternates(changeId, Polls(changeId, n) + [StatusChecked(changeId)])
  {
    PollsAlternate(changeId, n);
    var p := Polls(changeId, n) + [StatusChecked(changeId)];
    forall i | 0 <= i < |p| ensures p[i] == PollStep(changeId, i) {
      if i < 2 * n {
        assert p[i] == Polls(changeId, n)[i];
      }
    }
  }

  lemma {:induction false} AlternatingCounts(changeId: string, effects: seq<Effect>)
    requires Alternates(changeId, effects)
    ensures Checks(effects) == (|effects| + 1) / 2
    ensures Sleeps(effects) == |effects| / 2
    decreases |effects|
  {
    if effects != [] {
      var prefix := effects[..|effects| - 1];
      assert Alternates(changeId, prefix) by {
        forall i | 0 <= i < |prefix| ensures prefix[i] == PollStep(changeId, i) {
          assert prefix[i] == effects[i];
        }
      }
      AlternatingCounts(changeId, prefix);
      assert effects[|effects| - 1] == PollStep(changeId, |effects| - 1);
    }
  }

  /** Every wait checks only its own change, sleeps 2 seconds between checks,
      makes at most MAX_CHECKS checks and uses no more statuses than it checked. */
  lemma WaitIsBounded(changeId: string, statuses: seq<string>)
    ensures var w := WaitSpec(changeId, statuses);
      && Alternates(changeId, w.effects)
      && Checks(w.effects) <= MAX_CHECKS
      && w.consumed <= |statuses|
      && w.consumed <= Checks(w.effects)
  {
    var window := Window(statuses);
    var k := IndexOfInSync(window);
    var w := WaitSpec(changeId, statuses);
    if k < |window| {
      PollsThenCheckAlternate(changeId, k);
      PollsAlternate(changeId, k);
    } else if |statuses| < MAX_CHECKS {
      PollsThenCheckAlternate(changeId, |statuses|);
      PollsAlternate(changeId, |statuses|);
    } else {
      PollsAlternate(changeId, MAX_CHECKS);
    }
    AlternatingCounts(changeId, w.effects);
  }

  /** If the status at position k (counting from 0) is the first INSYNC and
      k < MAX_CHECKS, the wait succeeds after exactly k + 1 checks and k sleeps,
      and its last effect is that check. */
  lemma WaitReturnsAtFirstInSync(changeId: string, statuses: seq<string>, k: nat)
    requires k < MAX_CHECKS && k < |statuses| && statuses[k] == INSYNC
    requires forall j :: 0 <= j < k ==> statuses[j] != INSYNC
    ensures var w := WaitSpec(changeId, statuses);
      && w.outcome == Pass
      && w.consumed == k + 1
      && Checks(w.effects) == k + 1
      && Sleeps(w.effects) == k
      && w.effects[|w.effects| - 1] == StatusChecked(changeId)
  {
    WaitSpecAtInSync(changeId, statuses, k);
    PollsAlternate(changeId, k);
    PollsThenCheckAlternate(changeId, k);
    AlternatingCounts(changeId, Polls(changeId, k) + [StatusChecked(changeId)]);
  }

  /** If none of the first MAX_CHECKS statuses is INSYNC, the wait raises the
      timeout after exactly MAX_CHECKS checks and MAX_CHECKS sleeps, and the
      message ends with the last status observed. */
  lemma WaitTimesOut(changeId: string, statuses: seq<string>)
    requires MAX_CHECKS <= |statuses|
    requires forall j :: 0 <= j < MAX_CHECKS ==> statuses[j] != INSYNC
    ensures var w := WaitSpec(changeId, statuses);
      && w.outcome == Fail(PropagationTimeout(statuses[MAX_CHECKS - 1]))
      && Message(w.outcome.error) == TIMEOUT_MESSAGE_PREFIX + statuses[MAX_CHECKS - 1]
      && w.consumed == MAX_CHECKS
      && Checks(w.effects) == MAX_CHECKS
      && Sleeps(w.effects) == MAX_CHECKS
  {
    WaitSpecOnTimeout(changeId, statuses);
    PollsAlternate(changeId, MAX_CHECKS);
    AlternatingCounts(changeId, Polls(changeId, MAX_CHECKS));
  }

  /** If the service runs out of replies before any INSYNC and before the
      bound, the SDK's exception ends the wait after one check per reply plus
      the failing one. */
  lemma WaitFailsWhenServiceFails(changeId: string, statuses: seq<string>)
    requires |statuses| < MAX_CHECKS
    requires forall j :: 0 <= j < |statuses| ==> statuses[j] != INSYNC
    ensures var w := WaitSpec(changeId, statuses);
      && w.outcome == Fail(ServiceError(GET_CHANGE_CALL))
      && Checks(w.effects) == |statuses| + 1
      && Sleeps(w.effects) == |statuses|
  {
    WaitSpecWhenServiceFails(changeId, statuses);
    PollsAlternate(changeId, |statuses|);
    PollsThenCheckAlternate(changeId, |statuses|);
    AlternatingCounts(changeId, Polls(changeId, |statuses|) + [StatusChecked(changeId)]);
  }

  /** The wait succeeds exactly when one of the first MAX_CHECKS statuses is
      INSYNC, and then the last status it used is INSYNC. */
  lemma WaitPassesIffInSync(changeId: string, statuses: seq<string>)
    ensures var w := WaitSpec(changeId, statuses);
      && (w.outcome.Pass? <==> exists k :: 0 <= k < |statuses| && k < MAX_CHECKS && statuses[k] == INSYNC)
      && (w.outcome.Pass? ==> 0 < w.consumed <= |statuses| && statuses[w.consumed - 1] == INSYNC)
  {
  }

  /** A service that reports PENDING on every check makes the wait time out
      after 120 checks, with the status PENDING in the error. */
  lemma AlwaysPendingTimesOut(changeId: string)
    ensures var w := WaitSpec(changeId, seq(MAX_CHECKS, _ => "PENDING"));
      && w.outcome == Fail(PropagationTimeout("PENDING"))
      && Checks(w.effects) == 120
  {
    WaitTimesOut(changeId, seq(MAX_CHECKS, _ => "PENDING"));
  }

  // ---------------------------------------------------------------------------
  // Specification of the upsert
  // ---------------------------------------------------------------------------

  /** What one upsert does, and how many change ids and statuses it used. */
  datatype Upserted = Upserted(outcome: Outcome, effects: seq<Effect>, idsUsed: nat, statusesUsed: nat)

  /** Submit the upsert batch, then wait on the id the submission returned. */
  function UpsertSpec(hostedZoneId: string, record: string, value: string,
                      changeIds: seq<string>, statuses: seq<string>): Upserted
  {
    var submitted := [ChangeSubmitted(hostedZoneId, UpsertBatch(record, value))];
    if changeIds == [] then
      Upserted(Fail(ServiceError(CHANGE_RECORD_SETS_CALL)), submitted, 0, 0)
    else
      var w := WaitSpec(changeIds[0], statuses);
      Upserted(w.outcome, submitted + w.effects, 1, w.consumed)
  }

  /** The upsert submits once, first; every later effect belongs to the wait on
      the id its own submission returned; it succeeds only when that wait does,
      and then the last status it used is INSYNC. */
  lemma UpsertWaitsOnItsOwnChange(hostedZoneId: string, record: string, value: string,
                                  changeIds: seq<string>, statuses: seq<string>)
    ensures var u := UpsertSpec(hostedZoneId, record, value, changeIds, statuses);
      && 0 < |u.effects|
      && u.effects[0] == ChangeSubmitted(hostedZoneId, UpsertBatch(record, value))
      && (forall i :: 1 <= i < |u.effects| ==> u.effects[i] == PollStep(changeIds[0], i - 1))
      && (changeIds == [] ==> u.outcome == Fail(ServiceError(CHANGE_RECORD_SETS_CALL)) && |u.effects| == 1)
      && (changeIds != [] ==> u.outcome == WaitSpec(changeIds[0], statuses).outcome)
      && (u.outcome.Pass? ==> 0 < u.statusesUsed <= |statuses| && statuses[u.statusesUsed - 1] == INSYNC)
  {
    if changeIds != [] {
      var w := WaitSpec(changeIds[0], statuses);
      WaitIsBounded(changeIds[0], statuses);
      WaitPassesIffInSync(changeIds[0], statuses);
      var u := UpsertSpec(hostedZoneId, record, value, changeIds, statuses);
      forall i | 1 <= i < |u.effects| ensures u.effects[i] == PollStep(changeIds[0], i - 1) {
        assert u.effects[i] == w.effects[i - 1];
      }
    }
  }

  // ---------------------------------------------------------------------------
  // The hooks returned by route53_upsert_cleanup
  // ---------------------------------------------------------------------------

  /** The pair of DNS hooks for one hosted zone, sharing one SDK client. */
  class Route53Hooks {
    const hostedZoneId: string
    const r53: Route53Client

    constructor (hostedZoneId: string, r53: Route53Client)
      ensures this.hostedZoneId == hostedZoneId && this.r53 == r53
    {
      this.hostedZoneId := hostedZoneId;
      this.r53 := r53;
    }

    /** Poll the change status until INSYNC, at most MAX_CHECKS times. */
    method WaitForDnsChange(changeId: string) returns (o: Outcome)
      modifies r53`statuses, r53`effects
      ensures var w := WaitSpec(changeId, old(r53.statuses));
        && o == w.outcome
        && r53.effects == old(r53.effects) + w.effects
        && w.consumed <= |old(r53.statuses)|
        && r53.statuses == old(r53.statuses)[w.consumed..]
    {
      ghost var replies := r53.statuses;
      ghost var before := r53.effects;
      var status := "";
      for attempt := 0 to MAX_CHECKS
        invariant attempt <= |replies|
        invariant r53.statuses == replies[attempt..]
        invariant r53.effects == before + Polls(changeId, attempt)
        invariant forall j :: 0 <= j < attempt ==> replies[j] != INSYNC
        invariant 0 < attempt ==> status == replies[attempt - 1]
      {
        var reply := r53.GetChange(changeId);
        assert r53.effects == before + (Polls(changeId, attempt) + [StatusChecked(changeId)]);
        if reply.Err? {
          WaitSpecWhenServiceFails(changeId, replies);
          return Fail(reply.error);
        }
        assert reply.value == replies[attempt] && r53.statuses == replies[attempt + 1..];
        status := reply.value;
        if status == INSYNC {
          WaitSpecAtInSync(changeId, replies, attempt);
          return Pass;
        }
        r53.effects := r53.effects + [Sleep(POLL_INTERVAL_SECONDS)];
        assert r53.effects == before + Polls(changeId, attempt + 1);
      }
      WaitSpecOnTimeout(changeId, replies);
      o := Fail(PropagationTimeout(status));
    }

    /** Publish `"value"` as the TXT record `record` and wait for it to propagate. */
    method UpsertDns01Record(record: string, value: string) returns (o: Outcome)
      modifies r53
      ensures var u := UpsertSpec(hostedZoneId, record, value, old(r53.changeIds), old(r53.statuses));
        && o == u.outcome
        && r53.effects == old(r53.effects) + u.effects
        && u.idsUsed <= |old(r53.changeIds)| && r53.changeIds == old(r53.changeIds)[u.idsUsed..]
        && u.statusesUsed <= |old(r53.statuses)| && r53.statuses == old(r53.statuses)[u.statusesUsed..]
    {
      var res := r53.ChangeResourceRecordSets(hostedZoneId, UpsertBatch(record, value));
      if res.Err? {
        return Fail(res.error);
      }
      o := WaitForDnsChange(res.value);
    }

    /** Withdraw the TXT record; returns the change id, without waiting. */
    method DeleteDnsChallengeRecord(record: string, value: string) returns (r: Result<string>)
      modifies r53
      ensures r == NextReply(old(r53.changeIds), CHANGE_RECORD_SETS_CALL)
      ensures r53.effects == old(r53.effects) + [ChangeSubmitted(hostedZoneId, DeleteBatch(record, value))]
      ensures r53.changeIds == if old(r53.changeIds) == [] then [] else old(r53.changeIds)[1..]
      ensures r53.statuses == old(r53.statuses)
    {
      r := r53.ChangeResourceRecordSets(hostedZoneId, DeleteBatch(record, value));
    }
  }
}
