/** The ACME v2 DNS-01 flow of the client: choose the directory, pick the
    DNS-01 challenge of an order, and drive order -> upsert -> answer ->
    finalize -> cleanup.

    The ACME server and the caller's two DNS hooks are oracles: each reply is a
    fixed function of the request. Every call the flow makes to them is
    recorded, in order, in one shared ghost `EventLog`.
 */
module Core {
  import opened Failures

  // ---------------------------------------------------------------------------
  // Directory selection
  // ---------------------------------------------------------------------------

  /** Let's Encrypt ACME v2 directories. */
  const DIRECTORY_URL: string := "https://acme-v02.api.letsencrypt.org/directory"
  const STAGING_DIRECTORY_URL: string := "https://acme-staging-v02.api.letsencrypt.org/directory"

  /** Production unless `staging`; no other URL is ever chosen. */
  function GetDirectoryUrl(staging: bool): (url: string)
    ensures url == DIRECTORY_URL <==> !staging
    ensures url == STAGING_DIRECTORY_URL <==> staging
  {
    if !staging then DIRECTORY_URL else STAGING_DIRECTORY_URL
  }

  // ---------------------------------------------------------------------------
  // Orders, authorizations and challenges, as the ACME library returns them
  // ---------------------------------------------------------------------------

  datatype Challenge =
    | Dns01(token: string)
    | Http01(token: string)
    | TlsAlpn01(token: string)
    | OtherChallenge(typ: string)

  datatype ChallengeBody = ChallengeBody(chall: Challenge, uri: string)
  datatype AuthorizationResource = AuthorizationResource(identifier: string, challenges: seq<ChallengeBody>)
  /** `fullchainPem` is the issued chain on the order that finalization returns. */
  datatype OrderResource = OrderResource(uri: string, authorizations: seq<AuthorizationResource>, fullchainPem: string)

  predicate IsDns01(c: ChallengeBody)
  {
    c.chall.Dns01?
  }

  /** Authorization i of `authzs` offers a DNS-01 challenge at position j. */
  ghost predicate OffersDns01At(authzs: seq<AuthorizationResource>, i: int, j: int)
  {
    0 <= i < |authzs| && 0 <= j < |authzs[i].challenges| && IsDns01(authzs[i].challenges[j])
  }

  // ---------------------------------------------------------------------------
  // Challenge selection
  // ---------------------------------------------------------------------------

  /** The first DNS-01 challenge of one authorization, if any. */
  function FirstDns01(challenges: seq<ChallengeBody>): (r: Option<ChallengeBody>)
    ensures r.Some? ==> IsDns01(r.value) && r.value in challenges
    ensures r.None? <==> forall j :: 0 <= j < |challenges| ==> !IsDns01(challenges[j])
  {
    if challenges == [] then None
    else if IsDns01(challenges[0]) then Some(challenges[0])
    else FirstDns01(challenges[1..])
  }

  /** The first DNS-01 challenge over all authorizations, in server order. */
  function SelectDns01(authzs: seq<AuthorizationResource>): (r: Result<ChallengeBody>)
    ensures r.Ok? ==> IsDns01(r.value)
    ensures r.Err? ==> r.error == Dns01NotOffered
  {
    if authzs == [] then Err(Dns01NotOffered)
    else
      match FirstDns01(authzs[0].challenges)
      case Some(c) => Ok(c)
      case None => SelectDns01(authzs[1..])
  }

  lemma {:induction false} FirstDns01IsFirst(challenges: seq<ChallengeBody>)
    ensures FirstDns01(challenges).Some? ==>
      exists j :: 0 <= j < |challenges| && challenges[j] == FirstDns01(challenges).value
        && forall k :: 0 <= k < j ==> !IsDns01(challenges[k])
  {
    if challenges != [] && !IsDns01(challenges[0]) {
      var tail := challenges[1..];
      FirstDns01IsFirst(tail);
      if FirstDns01(tail).Some? {
        var j :| 0 <= j < |tail| && tail[j] == FirstDns01(tail).value
          && forall k :: 0 <= k < j ==> !IsDns01(tail[k]);
        assert challenges[j + 1] == tail[j];
        forall k | 0 <= k < j + 1 ensures !IsDns01(challenges[k]) {
          if k > 0 {
            assert challenges[k] == tail[k - 1];
          }
        }
      }
    }
  }

  /** Selection fails exactly when no
      authorization offers DNS-01; otherwise it returns a DNS-01 challenge of
      some authorization such that every DNS-01 offer comes at or after it in
      authorization order, then challenge order. */
  lemma {:induction false} SelectDns01IsFirst(authzs: seq<AuthorizationResource>)
    ensures SelectDns01(authzs).Err? <==> forall i, j :: !OffersDns01At(authzs, i, j)
    ensures SelectDns01(authzs).Ok? ==>
      exists i, j :: OffersDns01At(authzs, i, j) && authzs[i].challenges[j] == SelectDns01(authzs).value
        && forall i', j' :: OffersDns01At(authzs, i', j') ==> i < i' || (i == i' && j <= j')
  {
    if authzs != [] {
      var first := authzs[0].challenges;
      var tail := authzs[1..];
      match FirstDns01(first)
      case Some(c) =>
        FirstDns01IsFirst(first);
        var j :| 0 <= j < |first| && first[j] == c && forall k :: 0 <= k < j ==> !IsDns01(first[k]);
        assert OffersDns01At(authzs, 0, j);
      case None =>
        SelectDns01IsFirst(tail);
        assert forall j :: !OffersDns01At(authzs, 0, j);
        if SelectDns01(tail).Err? {
          forall i, j ensures !OffersDns01At(authzs, i, j) {
            if i > 0 {
              assert !OffersDns01At(tail, i - 1, j);
            }
          }
        } else {
          var i, j :| OffersDns01At(tail, i, j) && tail[i].challenges[j] == SelectDns01(tail).value
            && forall i', j' :: OffersDns01At(tail, i', j') ==> i < i' || (i == i' && j <= j');
          assert OffersDns01At(authzs, i + 1, j) && authzs[i + 1].challenges[j] == tail[i].challenges[j];
          forall i', j' | OffersDns01At(authzs, i', j') ensures i + 1 < i' || (i + 1 == i' && j <= j') {
            assert OffersDns01At(tail, i' - 1, j');
          }
        }
    }
  }

  /** An order whose only DNS-01 offer is at (i, j) selects that challenge,
      wherever it stands. */
  lemma UniqueDns01IsSelected(authzs: seq<AuthorizationResource>, i: nat, j: nat)
    requires OffersDns01At(authzs, i, j)
    requires forall i', j' :: OffersDns01At(authzs, i', j') ==> i' == i && j' == j
    ensures SelectDns01(authzs) == Ok(authzs[i].challenges[j])
  {
    SelectDns01IsFirst(authzs);
  }

  /** `select_dns01_chall`: nested scan with early return. */
  method SelectDns01Chall(orderr: OrderResource) returns (r: Result<ChallengeBody>)
    ensures r == SelectDns01(orderr.authorizations)
    ensures r.Ok? ==> IsDns01(r.value)
  {
    var authzList := orderr.authorizations;
    for a := 0 to |authzList|
      invariant SelectDns01(authzList) == SelectDns01(authzList[a..])
    {
      var challenges := authzList[a].challenges;
      for c := 0 to |challenges|
        invariant FirstDns01(challenges) == FirstDns01(challenges[c..])
      {
        if IsDns01(challenges[c]) {
          return Ok(challenges[c]);
        }
        assert challenges[c..][1..] == challenges[c + 1..];
      }
      assert authzList[a..][1..] == authzList[a + 1..];
    }
    return Err(Dns01NotOffered);
  }

  // ---------------------------------------------------------------------------
  // Collaborators
  // ---------------------------------------------------------------------------

  datatype AccountKey = AccountKey(jwk: string)
  datatype ChallengeResponse = ChallengeResponse(keyAuthorization: string)

  /** The ACME library's two deterministic computations on a challenge body:
      the DNS name to publish for a domain, and the response object with the
      TXT value derived from the account key. */
  datatype ChallengeLibrary = ChallengeLibrary(
    validationDomainName: (ChallengeBody, string) -> string,
    responseAndValidation: (ChallengeBody, AccountKey) -> (ChallengeResponse, string))

  /** The ACME server's reply to each request. */
  datatype AcmeServer = AcmeServer(
    newOrder: string -> Result<OrderResource>,
    answerChallenge: (ChallengeBody, ChallengeResponse) -> Outcome,
    pollAndFinalize: OrderResource -> Result<OrderResource>)

  /** What the caller's upsert and cleanup hooks do for each (record, value). */
  datatype DnsReplies = DnsReplies(upsert: (string, string) -> Outcome, cleanup: (string, string) -> Outcome)

  /** One call the flow makes to a collaborator. */
  datatype Event =
    | OrderRequested(csrPem: string)
    | RecordUpserted(record: string, value: string)
    | ChallengeAnswered(challb: ChallengeBody, response: ChallengeResponse)
    | FinalizePolled(orderr: OrderResource)
    | RecordCleanedUp(record: string, value: string)

  /** The calls made so far, in order. */
  class EventLog {
    ghost var events: seq<Event>

    constructor ()
      ensures events == []
    {
      events := [];
    }
  }

  /** An authenticated ACME client: `key` is its account key. */
  class AcmeClient {
    const key: AccountKey
    const server: AcmeServer
    const log: EventLog

    constructor (key: AccountKey, server: AcmeServer, log: EventLog)
      ensures this.key == key && this.server == server && this.log == log
    {
      this.key := key;
      this.server := server;
      this.log := log;
    }

    method NewOrder(csrPem: string) returns (r: Result<OrderResource>)
      modifies log
      ensures r == server.newOrder(csrPem)
      ensures log.events == old(log.events) + [OrderRequested(csrPem)]
    {
      r := server.newOrder(csrPem);
      log.events := log.events + [OrderRequested(csrPem)];
    }

    method AnswerChallenge(challb: ChallengeBody, response: ChallengeResponse) returns (o: Outcome)
      modifies log
      ensures o == server.answerChallenge(challb, response)
      ensures log.events == old(log.events) + [ChallengeAnswered(challb, response)]
    {
      o := server.answerChallenge(challb, response);
      log.events := log.events + [ChallengeAnswered(challb, response)];
    }

    method PollAndFinalize(orderr: OrderResource) returns (r: Result<OrderResource>)
      modifies log
      ensures r == server.pollAndFinalize(orderr)
      ensures log.events == old(log.events) + [FinalizePolled(orderr)]
    {
      r := server.pollAndFinalize(orderr);
      log.events := log.events + [FinalizePolled(orderr)];
    }
  }

  /** The caller's pair of DNS hooks. */
  class DnsHooks {
    const replies: DnsReplies
    const log: EventLog

    constructor (replies: DnsReplies, log: EventLog)
      ensures this.replies == replies && this.log == log
    {
      this.replies := replies;
      this.log := log;
    }

    method UpsertDns(record: string, value: string) returns (o: Outcome)
      modifies log
      ensures o == replies.upsert(record, value)
      ensures log.events == old(log.events) + [RecordUpserted(record, value)]
    {
      o := replies.upsert(record, value);
      log.events := log.events + [RecordUpserted(record, value)];
    }

    method CleanupDns(record: string, value: string) returns (o: Outcome)
      modifies log
      ensures o == replies.cleanup(record, value)
      ensures log.events == old(log.events) + [RecordCleanedUp(record, value)]
    {
      o := replies.cleanup(record, value);
      log.events := log.events + [RecordCleanedUp(record, value)];
    }
  }

  // ---------------------------------------------------------------------------
  // The DNS-01 flow
  // ---------------------------------------------------------------------------

  /** What one run of the flow returns and which calls it made. */
  datatype Run = Run(result: Result<string>, events: seq<Event>)

  /** The flow: each step runs only when every earlier one returned normally,
      and the first exception ends the run with that exception. */
  function Dns01Flow(server: AcmeServer, dns: DnsReplies, lib: ChallengeLibrary,
                     key: AccountKey, domain: string, csrPem: string): Run
  {
    var ordered := [OrderRequested(csrPem)];
    match server.newOrder(csrPem)
    case Err(e) => Run(Err(e), ordered)
    case Ok(orderr) =>
      match SelectDns01(orderr.authorizations)
      case Err(e) => Run(Err(e), ordered)
      case Ok(challb) =>
        var record := lib.validationDomainName(challb, domain);
        var (response, value) := lib.responseAndValidation(challb, key);
        var upserted := ordered + [RecordUpserted(record, value)];
        match dns.upsert(record, value)
        case Fail(e) => Run(Err(e), upserted)
        case Pass =>
          var answered := upserted + [ChallengeAnswered(challb, response)];
          match server.answerChallenge(challb, response)
          case Fail(e) => Run(Err(e), answered)
          case Pass =>
            var polled := answered + [FinalizePolled(orderr)];
            match server.pollAndFinalize(orderr)
            case Err(e) => Run(Err(e), polled)
            case Ok(finalized) =>
              var cleaned := polled + [RecordCleanedUp(record, value)];
              match dns.cleanup(record, value)
              case Fail(e) => Run(Err(e), cleaned)
              case Pass => Run(Ok(finalized.fullchainPem), cleaned)
  }

  /** The position each kind of call must take in a run. */
  function Stage(e: Event): nat
  {
    match e
    case OrderRequested(_) => 0
    case RecordUpserted(_, _) => 1
    case ChallengeAnswered(_, _) => 2
    case FinalizePolled(_) => 3
    case RecordCleanedUp(_, _) => 4
  }

  /** Calls happen at most once each, strictly in the order new order ->
      upsert -> answer -> finalize -> cleanup, with none skipped; a run ends
      normally only after all five. */
  lemma FlowStepsInOrder(server: AcmeServer, dns: DnsReplies, lib: ChallengeLibrary,
                         key: AccountKey, domain: string, csrPem: string)
    ensures var run := Dns01Flow(server, dns, lib, key, domain, csrPem);
      && 1 <= |run.events| <= 5
      && run.events[0] == OrderRequested(csrPem)
      && (forall i :: 0 <= i < |run.events| ==> Stage(run.events[i]) == i)
      && (run.result.Ok? ==> |run.events| == 5)
  {
  }

  /** With no DNS-01 challenge on the order, the run raises the not-offered
      error right after the order, and nothing is upserted, answered,
      finalized or cleaned up. */
  lemma FlowStopsWithoutDns01(server: AcmeServer, dns: DnsReplies, lib: ChallengeLibrary,
                              key: AccountKey, domain: string, csrPem: string)
    requires server.newOrder(csrPem).Ok?
    requires forall i, j :: !OffersDns01At(server.newOrder(csrPem).value.authorizations, i, j)
    ensures Dns01Flow(server, dns, lib, key, domain, csrPem) == Run(Err(Dns01NotOffered), [OrderRequested(csrPem)])
  {
    SelectDns01IsFirst(server.newOrder(csrPem).value.authorizations);
  }

  /** The record published is derived from the selected DNS-01 challenge, the
      domain and the account key; the answer is for that same challenge with
      the response derived alongside the value; finalization is on the order
      the server created. */
  lemma FlowPublishesDerivedRecord(server: AcmeServer, dns: DnsReplies, lib: ChallengeLibrary,
                                   key: AccountKey, domain: string, csrPem: string)
    ensures var run := Dns01Flow(server, dns, lib, key, domain, csrPem);
      2 <= |run.events| ==>
        && server.newOrder(csrPem).Ok?
        && var orderr := server.newOrder(csrPem).value;
           && SelectDns01(orderr.authorizations).Ok?
           && var challb := SelectDns01(orderr.authorizations).value;
              && IsDns01(challb)
              && run.events[1] == RecordUpserted(lib.validationDomainName(challb, domain),
                                                 lib.responseAndValidation(challb, key).1)
              && (3 <= |run.events| ==> run.events[2] == ChallengeAnswered(challb, lib.responseAndValidation(challb, key).0))
              && (4 <= |run.events| ==> run.events[3] == FinalizePolled(orderr))
  {
  }

  /** The challenge is answered only after an upsert that returned normally;
      so an upsert that raises (a propagation timeout, say) means no answer. */
  lemma FlowAnswersOnlyAfterUpsert(server: AcmeServer, dns: DnsReplies, lib: ChallengeLibrary,
                                   key: AccountKey, domain: string, csrPem: string)
    ensures var run := Dns01Flow(server, dns, lib, key, domain, csrPem);
      forall i :: 0 <= i < |run.events| && run.events[i].ChallengeAnswered? ==>
        && 0 < i
        && run.events[i - 1].RecordUpserted?
        && dns.upsert(run.events[i - 1].record, run.events[i - 1].value) == Pass
  {
  }

  /** Cleanup is called if and only if finalization returned an order. */
  lemma FlowCleansUpIffFinalized(server: AcmeServer, dns: DnsReplies, lib: ChallengeLibrary,
                                 key: AccountKey, domain: string, csrPem: string)
    ensures var run := Dns01Flow(server, dns, lib, key, domain, csrPem);
      (exists i :: 0 <= i < |run.events| && run.events[i].RecordCleanedUp?) <==>
      (exists i :: 0 <= i < |run.events| && run.events[i].FinalizePolled? && server.pollAndFinalize(run.events[i].orderr).Ok?)
  {
    var run := Dns01Flow(server, dns, lib, key, domain, csrPem);
    FlowStepsInOrder(server, dns, lib, key, domain, csrPem);
    if |run.events| == 5 {
      assert run.events[4].RecordCleanedUp? && run.events[3].FinalizePolled?;
    }
    if |run.events| == 4 {
      assert run.events[3].FinalizePolled?;
    }
  }

  /** Cleanup removes exactly the (record, value) pair that was upserted. */
  lemma FlowCleansUpWhatItUpserted(server: AcmeServer, dns: DnsReplies, lib: ChallengeLibrary,
                                   key: AccountKey, domain: string, csrPem: string)
    ensures var run := Dns01Flow(server, dns, lib, key, domain, csrPem);
      forall i, j ::
        (0 <= i < |run.events| && 0 <= j < |run.events|
         && run.events[i].RecordUpserted? && run.events[j].RecordCleanedUp?) ==>
        run.events[i].record == run.events[j].record && run.events[i].value == run.events[j].value
  {
  }

  /** A run that ends normally returns the full chain of the order that
      finalization returned. */
  lemma FlowReturnsFullchain(server: AcmeServer, dns: DnsReplies, lib: ChallengeLibrary,
                             key: AccountKey, domain: string, csrPem: string)
    ensures var run := Dns01Flow(server, dns, lib, key, domain, csrPem);
      run.result.Ok? ==>
        && |run.events| == 5
        && run.events[3].FinalizePolled?
        && server.pollAndFinalize(run.events[3].orderr).Ok?
        && run.result.value == server.pollAndFinalize(run.events[3].orderr).value.fullchainPem
  {
  }

  /** `perform_dns01`. Both hooks and the client record into the same log. */
  method PerformDns01(client: AcmeClient, domain: string, csrPem: string, dns: DnsHooks, lib: ChallengeLibrary)
    returns (r: Result<string>)
    requires dns.log == client.log
    modifies client.log
    ensures var run := Dns01Flow(client.server, dns.replies, lib, client.key, domain, csrPem);
      r == run.result && client.log.events == old(client.log.events) + run.events
  {
    var ordered := client.NewOrder(csrPem);
    if ordered.Err? {
      return Err(ordered.error);
    }
    var orderr := ordered.value;
    var selected := SelectDns01Chall(orderr);
    if selected.Err? {
      return Err(selected.error);
    }
    var challb := selected.value;
    var record := lib.validationDomainName(challb, domain);
    var derived := lib.responseAndValidation(challb, client.key);
    var response, challengeValue := derived.0, derived.1;
    var upserted := dns.UpsertDns(record, challengeValue);
    if upserted.Fail? {
      return Err(upserted.error);
    }
    var answered := client.AnswerChallenge(challb, response);
    if answered.Fail? {
      return Err(answered.error);
    }
    var finalized := client.PollAndFinalize(orderr);
    if finalized.Err? {
      return Err(finalized.error);
    }
    var cleaned := dns.CleanupDns(record, challengeValue);
    if cleaned.Fail? {
      return Err(cleaned.error);
    }
    r := Ok(finalized.value.fullchainPem);
  }
}
