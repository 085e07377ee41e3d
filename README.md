# pico-acme DNS-01 core, modelled in Dafny

pico-acme is a small ACME v2 client for Let's Encrypt. It obtains a
certificate by answering the DNS-01 challenge (section 8.4 of RFC 8555), and it
publishes the challenge's TXT record through Amazon Route53. This project
models the control logic of that client and proves properties of the model:

- `Failures` (`failures.dfy`): Python exceptions as values. `Result<T>` is for
  steps that return a value. `Outcome` is for steps that return nothing.
  `Error` names the two exceptions the client raises itself (no DNS-01 offered,
  propagation timeout) and any exception raised by a collaborator.
  `Message` gives the literal texts of the two exceptions the client raises
  itself; the text of a collaborator's exception is not modelled.
- `Core` (`core.dfy`, from `core.py`):
  - the choice between the production and staging directory URLs;
  - the nested scan that picks the first DNS-01 challenge of an order;
  - `perform_dns01`, the fixed sequence new order → select → derive record →
    upsert → answer (section 7.5.1 of RFC 8555) → poll and finalize →
    cleanup → return the full chain.
  The ACME server and the caller's two DNS hooks are oracles: each reply is a
  fixed function of the request. Every call to them is appended to one shared
  ghost `EventLog`. `PerformDns01` is proved equal to the specification
  function `Dns01Flow`. The lemmas about `Dns01Flow` state the call order,
  the abort-on-exception gating, that cleanup gets the upserted pair, and
  that the result is the finalized order's chain.
- `Route53` (`route53.py`):
  - the one-change TXT batches that the upsert and delete hooks submit;
  - the bounded propagation wait (at most 120 `get_change` checks, a
    2-second sleep after each check that is not `INSYNC`);
  - the upsert hook, which submits and then waits on the id its own
    submission returned.
  The boto3 client is `Route53Client`. Its replies come from two oracle
  sequences: the change ids it assigns and the statuses it reports, one per
  call. An exhausted sequence means the SDK call raises. SDK calls and sleeps
  are recorded in the ghost trace `effects`. `WaitForDnsChange` is proved
  against the closed-form `WaitSpec`, and `UpsertDns01Record` against
  `UpsertSpec`.
- `Wiring` (`wiring.dfy`): the Route53 upsert hook plugged into the DNS-01
  flow, as `route53_upsert_cleanup` is meant to be used with `perform_dns01`.
  The wiring is made between the specification functions: the flow's upsert
  reply is taken to be `UpsertSpec`'s outcome. It is not a composition of the
  methods, since `PerformDns01` takes a `DnsHooks` object and a
  `Route53Hooks` object cannot be passed to it.

Collaborators become parameters. The library functions
`validation_domain_name` and `response_and_validation` are the two fields of
`ChallengeLibrary`, left uninterpreted. `time.sleep` becomes a `Sleep(2)`
effect; no clock is modelled.

## Model

| member | source | states |
|---|---|---|
| `Failures.Message` | src/pico_acme/route53.py:15 | the timeout exception's text ends with the status it carries |
| `Core.GetDirectoryUrl` | src/pico_acme/core.py:11-21 | the production URL exactly when not staging, the staging URL exactly when staging, so no other value |
| `Core.FirstDns01` | src/pico_acme/core.py:87-90 | a found challenge is DNS-01 and is one of the authorization's challenges; nothing is found exactly when none of them is DNS-01 |
| `Core.SelectDns01` | src/pico_acme/core.py:84-92 | a selected challenge is DNS-01; a failure is always the not-offered error |
| `Core.FirstDns01IsFirst` | src/pico_acme/core.py:87-90 | the found challenge sits at a position with no DNS-01 challenge before it |
| `Core.SelectDns01IsFirst` | src/pico_acme/core.py:84-92 | selection fails iff no authorization offers DNS-01; otherwise the result is a DNS-01 offer of the order, and every DNS-01 offer comes at or after it in authorization order, then challenge order |
| `Core.UniqueDns01IsSelected` | src/pico_acme/core.py:84-90 | when an order has exactly one DNS-01 offer, that one is selected wherever it stands |
| `Core.SelectDns01Chall` | src/pico_acme/core.py:78-92 | the nested loop with early return computes `SelectDns01`, and its result is DNS-01 |
| `Core.FlowStepsInOrder` | src/pico_acme/core.py:95-104 | calls happen at most once each, in the order new order, upsert, answer, finalize, cleanup, with none skipped; a normal return comes only after all five |
| `Core.FlowStopsWithoutDns01` | src/pico_acme/core.py:92-97 | with no DNS-01 offer the run raises the not-offered error after the order, with no upsert, answer, finalize or cleanup |
| `Core.FlowPublishesDerivedRecord` | src/pico_acme/core.py:97-102 | the upserted record and value come from the selected DNS-01 challenge, the domain and the account key; the answer is for that challenge with the matching response; finalization is on the server's order |
| `Core.FlowAnswersOnlyAfterUpsert` | src/pico_acme/core.py:100-101 | the challenge is answered only right after an upsert that returned normally, so an upsert that raises means no answer |
| `Core.FlowCleansUpIffFinalized` | src/pico_acme/core.py:102-103 | cleanup is called if and only if poll-and-finalize returned an order |
| `Core.FlowCleansUpWhatItUpserted` | src/pico_acme/core.py:98-103 | cleanup receives the same (record, value) pair as upsert |
| `Core.FlowReturnsFullchain` | src/pico_acme/core.py:102-104 | a normal return is the `fullchain_pem` of the order that finalization returned |
| `Core.Dns01Flow` | src/pico_acme/core.py:95-104 | no contract; defines the run of `perform_dns01` on oracle replies: its result and the calls it makes, stopping at the first exception |
| `Core.PerformDns01` | src/pico_acme/core.py:95-104 | the method returns what `Dns01Flow` returns, and appends exactly that run's calls to the shared log |
| `Route53.Quoted` | src/pico_acme/route53.py:30 | no contract; defines the TXT value written: the value between double quotes |
| `Route53.Unquoted` | src/pico_acme/route53.py:30 | succeeds exactly on quoted text, and quoting its result gives the text back |
| `Route53.QuotedRoundTrip` | src/pico_acme/route53.py:30 | unquoting a quoted value gives back the value |
| `Route53.UpsertBatch` | src/pico_acme/route53.py:19-36 | no contract; defines the batch `upsert_dns01_record` submits |
| `Route53.DeleteBatch` | src/pico_acme/route53.py:42-59 | no contract; defines the batch `delete_dns_challenge_record` submits |
| `Route53.Dns01ChangeOf` | src/pico_acme/route53.py:18-60 | a batch that reads back as (action, record, value) is exactly the upsert or delete batch built from that pair |
| `Route53.UpsertBatchShape` | src/pico_acme/route53.py:18-37 | one change, action UPSERT, name = record, type TXT, TTL 60, one resource record whose value is the value in double quotes |
| `Route53.BatchesRoundTrip` | src/pico_acme/route53.py:18-60 | the upsert and delete batches read back as the action and the (record, value) pair they were built from |
| `Route53.DeleteMirrorsUpsert` | src/pico_acme/route53.py:40-60 | the delete batch is the upsert batch's record set with action DELETE |
| `Route53.WaitSpec` | src/pico_acme/route53.py:9-15 | no contract; defines the wait in closed form: its outcome, its effects and how many statuses it uses |
| `Route53.IndexOfInSync` | src/pico_acme/route53.py:10-13 | the first position holding INSYNC, or the length when there is none |
| `Route53.Window` | src/pico_acme/route53.py:10 | the statuses the loop can see: a prefix of the replies, at most 120 long |
| `Route53.PollsAlternate` | src/pico_acme/route53.py:10-14 | n rounds of the loop are 2n effects, a check of the change at each even position and a 2-second sleep at each odd one |
| `Route53.WaitIsBounded` | src/pico_acme/route53.py:10-14 | every wait checks only its own change id, sleeps 2 s between checks, makes at most 120 checks and uses no more statuses than it checked |
| `Route53.WaitReturnsAtFirstInSync` | src/pico_acme/route53.py:11-13 | if status k (from 0, k < 120) is the first INSYNC, the wait succeeds after exactly k+1 checks and k sleeps and ends with that check |
| `Route53.WaitTimesOut` | src/pico_acme/route53.py:10-15 | if none of the first 120 statuses is INSYNC, the wait raises the timeout after exactly 120 checks and 120 sleeps, and the message ends with the 120th status |
| `Route53.WaitFailsWhenServiceFails` | src/pico_acme/route53.py:11 | if `get_change` raises before any INSYNC, that exception ends the wait after one check per reply plus the failing one |
| `Route53.WaitPassesIffInSync` | src/pico_acme/route53.py:10-13 | the wait succeeds iff one of the first 120 statuses is INSYNC, and then the last status it used is INSYNC |
| `Route53.AlwaysPendingTimesOut` | src/pico_acme/route53.py:10-15 | a service that always reports PENDING makes the wait time out after 120 checks with PENDING in the error |
| `Route53.UpsertWaitsOnItsOwnChange` | src/pico_acme/route53.py:17-38 | the upsert submits once, first; every later effect is the wait on the id that this submission returned; its outcome is that wait's outcome; a success means an INSYNC status was seen |
| `Route53.UpsertSpec` | src/pico_acme/route53.py:17-38 | no contract; defines the upsert: one submission, then `WaitSpec` on the returned id |
| `Route53.Route53Hooks.constructor` | src/pico_acme/route53.py:6-7 | the hooks are bound to the given hosted zone and SDK client |
| `Route53.Route53Hooks.WaitForDnsChange` | src/pico_acme/route53.py:9-15 | the counted loop's outcome and effects are those of `WaitSpec`, and it uses exactly that many statuses |
| `Route53.Route53Hooks.UpsertDns01Record` | src/pico_acme/route53.py:17-38 | submit the upsert batch, then wait on the returned id; the outcome, effects and replies used are those of `UpsertSpec` |
| `Route53.Route53Hooks.DeleteDnsChallengeRecord` | src/pico_acme/route53.py:40-60 | submit the delete batch and return the submission's reply, with no status check and no sleep |
| `Wiring.PropagationTimeoutAbortsFlow` | src/pico_acme/route53.py:10-15 | with the Route53 upsert hook and no INSYNC in 120 checks, the flow stops after the upsert with the timeout error: no answer, no finalize, no cleanup |

## Left out

- `register_account`, `deserialize_account` and `query_registration` (core.py:24-37, 47-57): network I/O through the `acme` library, which is not part of this model. `USER_AGENT` is used only by them.
- `serialize_account` (core.py:40-44): its JSON comes from josepy's `to_json` on foreign key and registration objects, so no round trip can be stated about it. The account key is an opaque `AccountKey`.
- `make_ecdsa_key`, `make_key` and `make_csr` (core.py:60-75): key generation, PEM encoding and CSR construction in `cryptography`, pyOpenSSL and `acme.crypto_util`. The CSR is an opaque string.
- The internals of `validation_domain_name` and `response_and_validation`: library calls, kept uninterpreted as the fields of `ChallengeLibrary`. The model does not assume an `_acme-challenge.` prefix, because this code does not build one. The library calls are assumed not to raise.
- The creation of the boto3 client from `**boto3_kwargs` (route53.py:7): the `Route53Client` oracle is passed in instead.
- Real boto3 and ACME server behaviour: replies come from oracles. An exhausted Route53 sequence is the only way an SDK call raises. The statuses do not depend on the change id asked about. An ACME reply depends only on its request.
- Wall-clock time: `sleep(2)` is the effect `Sleep(2)`, and no time passes.
- `setup.py` (packaging) and `src/pico_acme/__init__.py` (re-exports only).
- Route53.Route53Hooks.DeleteDnsChallengeRecord: returns only the change id from the submission's response, not the whole response dictionary.
- Core.PerformDns01: the two hook callables are passed as one `DnsHooks` object, and the library computations as an extra `ChallengeLibrary` parameter.
- `wait_for_dns_change` raises a plain `Exception` whose message is `Timed out waiting for Route53 change. Current status: <status>`; `Failures.Message` keeps that text. The loop also sleeps after the 120th check before it raises, so a timeout takes 120 sleeps.
