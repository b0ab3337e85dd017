# quasi: the task board's ledger, its HTTP signatures and the Ehrenfest validator

This Dafny project models three parts of the QUASI repository and proves
what they promise.

- **The quasi-board server** (`quasi-board/server.py`):
  - The hash-chained contribution ledger is a `LedgerStore` class over a
    `seq` of entries. `Append` stamps `id`, `timestamp`, `prev_hash` and
    `entry_hash`. `Verify` walks the chain with early exits.
  - The inbox handler dispatches on the activity type (Follow, Announce
    claim, Create completion).
  - The ledger and verify views, and the `slotsRemaining` count.
  - The GitHub webhook:
    - the HMAC gate;
    - the event and merge filters;
    - the `_parse_meta` footer parser, as a nested loop;
    - the `QUASI-\d+` fallback search;
    - the task and agent resolution;
    - the completion entry it appends.
  - The `QUASI-%03d` task id that `task_to_ap` writes, and the WebFinger
    resource check.
- **HTTP signatures** (`quasi-board-extensions/http_signatures.py`). This is
  the draft-cavage HTTP Signatures scheme with a `Digest: SHA-256=` header:
  - the signed-string builder, as a loop;
  - the signing string and `Signature` header of `sign_request`;
  - the `Signature` parameter parser, as a loop;
  - the digest check;
  - the total boolean verdict of `verify_signature`.

  The central theorem is the round trip. A request signed by `sign_request`
  and delivered with its `Host` header is accepted by `verify_signature`,
  provided the key pair matches, base64 decodes what it encodes, and the
  cryptography package is available.
- **The Ehrenfest program validator** (`spec/tools/validate.py`):
  - Decoded CBOR is a `Cbor` datatype.
  - `validate_program` is a method that stops at the first failed `check`,
    with the term, Pauli and observable loops of the source.
  - It is proved equal to a pure first-failure function `Check`.
  - It returns normally exactly when the program meets the pure acceptance
    predicate `Acceptable`.
  - The transverse-field Ising example of `spec/tools/generate_examples.py`
    is proved to be accepted.

Python exceptions are explicit outcomes:
- a `KeyError` from the ledger is `Failure(KeyError(..))`;
- an exception escaping a request handler is the framework's `500` response
  (`SERVER_ERROR`);
- a `ValidationError` is `Rejected(violation)`;
- a `TypeError` inside `validate_program` is `Crashed(..)`.

The following are parameters, not computations:
- SHA-256 of the sorted-key JSON of an entry (`Digest`);
- the HMAC hex digest (`HmacHex`);
- JSON decoding of a request body, `json.loads` in the webhook and
  `request.json()` in the inbox (`JsonDecoder`). It is applied to the same
  raw bytes that the HMAC covers, and it yields None when the bytes are not
  JSON;
- the cryptographic primitives of the signature module (`Crypto`);
- the clock (`now`, `date`, `published`).

Files:
- `common.dfy`: ASCII string helpers with their lemmas: `strip`, `split`,
  `join`, `splitlines`, `split()`, `lower`, `title`, decimal digits.
- `json_values.dfy`: JSON values, `dict.get` and truthiness.
- `ledger.dfy`: the ledger.
- `board.dfy`: the board's URLs and responses.
- `inbox.dfy`: the inbox and the ledger views.
- `feed.dfy`: task ids, `task_to_ap` and WebFinger.
- `webhook.dfy`: the GitHub webhook.
- `http_signatures.dfy`: HTTP signatures.
- `validate.dfy`: the validator.

## Model

| member | source | states |
|---|---|---|
| Ledger.LedgerStore.constructor | quasi-board/server.py:37-40 | the store starts with the loaded chain and the board's digest |
| Ledger.LedgerStore.Append | quasi-board/server.py:43-54 | on a chain whose last entry has an `entry_hash` (or an empty chain), the chain grows by exactly the sealed candidate at the end and the sealed entry is returned; with a last entry lacking `entry_hash` the chain is unchanged and a KeyError is reported |
| Ledger.NextPrev | quasi-board/server.py:45 | the next `prev_hash` is 64 zeros for the empty chain, else the last entry's `entry_hash`, and fails exactly when that key is missing |
| Ledger.Seal | quasi-board/server.py:46-50 | the stamped entry has the candidate's keys plus `id`, `timestamp`, `prev_hash` and `entry_hash`, with `id`, time and link as given, `entry_hash` the digest of every other field, and every other candidate field kept unchanged |
| Ledger.LedgerStore.Verify | quasi-board/server.py:57-67 | returns true exactly when every entry links to its predecessor's `entry_hash` (64 zeros first) and carries the digest of its other fields; false only at a first mismatching entry; the KeyError only at the first entry lacking a field, all earlier entries sound |
| Ledger.AppendKeepsChainValid | quasi-board/server.py:43-67 | appending to a valid chain cannot fail, adds one entry, keeps every earlier entry, keeps the chain valid, and keeps ids exactly 1..N |
| Ledger.ReplayValid | quasi-board/server.py:43-67 | any sequence of appends to an empty ledger yields a valid chain of that length with ids 1..N |
| Ledger.FieldEditDetected | quasi-board/server.py:57-67 | changing any field of any entry of a valid chain makes verification fail, assuming only that the digest does not collide on the edited and the original fields of that entry |
| Ledger.RewriteDetected | quasi-board/server.py:57-67 | replacing any entry but the last of a valid chain by a different entry makes verification fail, assuming only that the digest does not collide on the new and the old fields of that entry |
| Ledger.SwapDetected | quasi-board/server.py:57-67 | swapping two neighbouring entries of a valid chain makes verification fail, assuming only that the earlier entry's digest differs from its own `prev_hash` |
| Ledger.SlotsRemaining | quasi-board/server.py:200 | the remaining genesis slots always lie in [0, 50] |
| Ledger.CompletionCountAppend | quasi-board/server.py:200 | appending an entry adds one to the completion count exactly when it is a completion |
| Ledger.SlotsAfterAppend | quasi-board/server.py:200 | an appended completion takes one slot while slots remain, any other entry takes none, and the count never increases |
| Inbox.InboxAppends | quasi-board/server.py:154-186 | Announce yields a claim entry with task `quasi:taskId`, else `object`, else "", and agent `actor`, else "unknown"; a Create with `quasi:type` "completion" yields a completion entry with its fields; Follow, any other type, and a Create that is not a completion append nothing |
| Inbox.HandleInbox | quasi-board/server.py:153-186 | a raw body that is not JSON gives 500 and leaves the chain alone; otherwise the chain and the reply are those of the decoded body, as `HandleActivity` states them |
| Inbox.HandleActivity | quasi-board/server.py:156-186 | the chain becomes exactly the chain with that entry appended (or stays); the reply is `following` with the outbox, `accepted`, or `claimed`/`recorded` with the new entry's number and hash; a body that is not an object, or a broken last entry, gives 500 |
| Inbox.InboxKeepsChainValid | quasi-board/server.py:153-186 | whatever reaches the inbox, a valid chain stays valid, keeps its earlier entries and grows by at most one |
| Inbox.VerifyVerdict | quasi-board/server.py:57-67 | the verifier raises exactly when some entry lacks a field after sound predecessors, and otherwise answers validity |
| Inbox.LedgerView | quasi-board/server.py:191-202 | the ledger view reports validity, entry count, 50 genesis slots, the remaining slots and the chain, or 500 when verification raises |
| Inbox.VerifyView | quasi-board/server.py:205-207 | the verify view reports validity and entry count, or 500 when verification raises |
| Feed.TaskIdDigits | quasi-board/server.py:102 | for n >= 0 the id is "QUASI-" and at least three decimal digits whose value is n, exactly three below 1000, with no leading zero beyond the padding |
| Feed.TaskIdNegative | quasi-board/server.py:102 | a negative number keeps its minus sign after "QUASI-", followed by at least two digits of its magnitude |
| Feed.TaskIdSign | quasi-board/server.py:102 | the character after "QUASI-" is '-' exactly for negative numbers |
| Feed.TaskIdInjective | quasi-board/server.py:102 | different task numbers never get the same task id |
| Feed.TaskToAp | quasi-board/server.py:92-107 | the Note exists exactly when the task has `number`, `title` and `html_url` and the number is an integer or a boolean (formatted as 0 or 1), and then carries the task id, the task URL under the actor, the title, link, body (default "") and the inbox as claim URL |
| Feed.TaskToApBoolean | quasi-board/server.py:92-107 | a task numbered `True` becomes the Note with task id "QUASI-001" and the URL ending in "True" |
| Feed.Webfinger | quasi-board/server.py:112-119 | 404 exactly when the resource does not mention "quasi-board"; otherwise the JRD naming the board's account and its actor link |
| Feed.WebfingerFindsItself | quasi-board/server.py:112-119 | the account a WebFinger answer names is itself found by WebFinger |
| Webhook.VerifyHmac | quasi-board/server.py:233-238 | passes exactly when the secret and the header are non-empty and the header is "sha256=" followed by the HMAC of the body |
| Webhook.HmacGate | quasi-board/server.py:233-238 | GitHub's header for the body passes with a configured secret; with no secret, or any other header, nothing passes |
| Webhook.ParseLine | quasi-board/server.py:244-246 | the inner loop over the three keys gives each key the line tags its stripped after-colon text |
| Webhook.ParseMeta | quasi-board/server.py:241-247 | the nested loops compute the footer map of the body's lines |
| Webhook.MetaLastWins | quasi-board/server.py:241-247 | a key is in the footer map exactly when it is one of the three keys and some stripped line starts with it and a colon, and then its value is the stripped text after the first colon of the last such line |
| Webhook.DigitRun | quasi-board/server.py:278 | the run of digits is the longest all-digit prefix |
| Webhook.FirstRefFrom | quasi-board/server.py:278 | the position found is the first at or after the start where "QUASI-" and a digit begin; none exactly when there is no such position |
| Webhook.FindTaskRef | quasi-board/server.py:278-280 | no match exactly when "QUASI-" followed by a digit occurs nowhere; otherwise the leftmost such occurrence with its maximal digit run |
| Webhook.FindsFormattedTaskId | quasi-board/server.py:278 | the search finds a task id the board formats, when the text after it does not continue with a digit |
| Webhook.ResolveTask | quasi-board/server.py:275-280 | the task is the footer's non-empty Task value, else the leftmost reference in title, space and body, else "" |
| Webhook.ResolveAgent | quasi-board/server.py:274 | the agent is the footer's Contribution-Agent value whenever that key is present, even when empty, else the author |
| Webhook.TaskFromTitle | quasi-board/server.py:273-280 | a footer Task wins over a task id in the title; without one, the title's task id is used |
| Webhook.MergedDecision | quasi-board/server.py:267-291 | a merged pull request is recorded exactly when its user is an object, its body (or "") a string, and a footer names the task or the title is a string; the entry holds the resolved agent and task, the author, commit, URL, title and Verification value; otherwise 500 |
| Webhook.CompletionRecordFields | quasi-board/server.py:282-291 | the recorded entry has exactly the eight fields of a webhook completion, typed "completion" |
| Webhook.Decide | quasi-board/server.py:251-291 | a bad signature gives 401; a signed body whose bytes do not decode as JSON gives 500; a signed delivery of another event is ignored with its name; for `pull_request`, a payload that is not an object gives 500, an action other than "closed" is "not a merge", a closed pull request that is not an object gives 500, one not merged is "not a merge", and a merged one is decided by `MergedDecision`; a record happens only on that last path |
| Webhook.WebhookGate | quasi-board/server.py:233-265 | if the webhook changed the chain, the secret and header were non-empty and matched the body's HMAC, the event was `pull_request`, and that same signed body decodes to an object whose action is "closed" and whose pull request is merged; the completion recorded is `MergedDecision` of that pull request |
| Webhook.RecordMerged | quasi-board/server.py:267-299 | the chain is exactly the decided chain, and the reply is 500 or `recorded` with the new entry's number and hash, the task and the agent |
| Webhook.GithubWebhook | quasi-board/server.py:250-299 | for the raw body, its signature header, its event header and the decoder, the new chain is the old chain or that chain with the decided completion appended, and the reply is the decided one |
| HttpSignatures.HeaderValue | quasi-board-extensions/http_signatures.py:113 | a header's value is looked up under its own name, else under its title-cased name, else "" |
| HttpSignatures.SignedLines | quasi-board-extensions/http_signatures.py:108-113 | exactly one line per listed header, in list order: the request-target line with the lowered method and path, or the name, ": " and its value |
| HttpSignatures.BuildSignedString | quasi-board-extensions/http_signatures.py:102-114 | the loop builds the lines joined by newlines |
| HttpSignatures.SignedStringLines | quasi-board-extensions/http_signatures.py:108-114 | when no line contains a newline, splitting the signed string at newlines gives the lines back, so there is no trailing newline and one line per header |
| HttpSignatures.SignRequest | quasi-board-extensions/http_signatures.py:15-58 | the headers are exactly Date, Digest and Signature; Digest is "SHA-256=" and the base64 SHA-256 of the body; the Signature header carries the base64 RSA signature of the signing string, or the stub when the cryptography package is missing; it fails exactly when the key cannot sign |
| HttpSignatures.Partition | quasi-board-extensions/http_signatures.py:79 | without '=' the part is all key; otherwise the key holds no '=' and key, '=' and value make up the part |
| HttpSignatures.PartitionOf | quasi-board-extensions/http_signatures.py:79 | a key without '=' joined to any value by '=' partitions back into the two |
| HttpSignatures.ParseParams | quasi-board-extensions/http_signatures.py:77-80 | the loop computes the parameter map of the comma-separated parts |
| HttpSignatures.ParamMapLastWins | quasi-board-extensions/http_signatures.py:77-80 | a name is in the parameter map exactly when some part has it, and then holds the value of the last such part |
| HttpSignatures.QuotedParam | quasi-board-extensions/http_signatures.py:53-80 | a `key="value"` part parses to its key and value when the key is plain and the value has no edge quote |
| HttpSignatures.HeaderParams | quasi-board-extensions/http_signatures.py:49-82 | the emitted Signature header parses back to algorithm "rsa-sha256", the covered header list, and the signature, and to the key id when it has no comma and no edge quote |
| HttpSignatures.AnnouncedHeaders | quasi-board-extensions/http_signatures.py:55-82 | the announced header list splits into "(request-target)", "host", "date", "digest", in that order |
| HttpSignatures.CoveredString | quasi-board-extensions/http_signatures.py:32-114 | the signed string rebuilt over the four headers equals the string `sign_request` signs, when the receiver sees the same host, date and digest |
| HttpSignatures.SentWithHost | quasi-board-extensions/http_signatures.py:49-113 | the returned headers plus `Host` give the receiver's lowercase lookups the signed host, date and digest through the title-case fallback |
| HttpSignatures.Accepts | quasi-board-extensions/http_signatures.py:61-99 | acceptance needs a non-empty Signature header, the cryptography package, a `signature` parameter that base64-decodes to bytes which RSA-verify under the key against the string rebuilt from the `headers` parameter, and a Digest header, when sent, that matches the body |
| HttpSignatures.VerifySignature | quasi-board-extensions/http_signatures.py:61-99 | never raises: false for a missing or empty Signature, a missing package, undecodable base64, a failed RSA check or a mismatched Digest; true otherwise |
| HttpSignatures.SignThenVerify | quasi-board-extensions/http_signatures.py:15-99 | a request signed with a private key and delivered with its headers and Host is accepted with the matching public key, given base64 decodes what it encodes |
| Validate.FirstAbsent | spec/tools/validate.py:90-91 | none exactly when every evolution field is present; otherwise the first field of the list, in order, that is missing |
| Validate.PaulisFromAccepts | spec/tools/validate.py:78-85 | the Pauli loop passes exactly when every op is a map with an integer qubit in [0, n_qubits) and an axis in {0,1,2,3} |
| Validate.TermAccepts | spec/tools/validate.py:72-85 | a term passes exactly when it is a map with a coefficient and an array of valid Paulis |
| Validate.TermsFromAccepts | spec/tools/validate.py:72-85 | the term loop passes exactly when every term does |
| Validate.ObservableAccepts | spec/tools/validate.py:107-121 | an observable passes exactly when its type is one of SZ, SX, E, rho, F; SZ and SX need a numeric qubit in [0, n_qubits), rho a non-empty qubits array, F a byte-string target state |
| Validate.ObservablesFromAccepts | spec/tools/validate.py:107-121 | the observable loop passes exactly when every observable does |
| Validate.EvolutionAccepts | spec/tools/validate.py:88-101 | the evolution block passes exactly when it has the three fields, an integer step count >= 1, positive durations and dt within 1% of total/steps |
| Validate.VersionAccepts | spec/tools/validate.py:44-45 | the version passes exactly when it is the integer 1 |
| Validate.SystemAccepts | spec/tools/validate.py:48-60 | the system passes exactly when n_qubits is a positive integer and a cooling profile, if present, is a map with a numeric target temperature |
| Validate.HamiltonianAccepts | spec/tools/validate.py:63-85 | the Hamiltonian passes exactly when it has a non-empty term array, a numeric offset and only valid terms |
| Validate.ObservablesAccepts | spec/tools/validate.py:104-121 | the observables pass exactly when they form a non-empty array of valid observables |
| Validate.NoiseAccepts | spec/tools/validate.py:124-142 | the noise passes exactly when T1 and T2 are positive, T2 <= 2·T1, and the optional fidelity floors lie in [0, 1] |
| Validate.CheckAccepts | spec/tools/validate.py:30-142 | the first-failure check accepts exactly the programs meeting every condition of the schema |
| Validate.ValidateTerms | spec/tools/validate.py:72-85 | the nested term and Pauli loops return the first failure of the term checks |
| Validate.ValidateObservables | spec/tools/validate.py:107-121 | the observable loop returns the first failure of the observable checks |
| Validate.ValidateVersion | spec/tools/validate.py:44-45 | the version checks, in order |
| Validate.ValidateSystem | spec/tools/validate.py:48-60 | the system checks, in order |
| Validate.ValidateHamiltonian | spec/tools/validate.py:63-85 | the Hamiltonian checks, in order |
| Validate.ValidateEvolution | spec/tools/validate.py:88-101 | the evolution checks, the required-field loop first |
| Validate.ValidateNoise | spec/tools/validate.py:124-142 | the noise checks, in order |
| Validate.ValidateProgram | spec/tools/validate.py:35-142 | `validate_program` stops at the first failed check of the source's order, and returns normally exactly when the program is acceptable |
| Validate.ExtraTopLevelKey | spec/tools/validate.py:39-41 | a top-level key outside the six required ones never changes the verdict |
| Validate.ExtraSystemKey | spec/tools/validate.py:48-60 | a system key other than n_qubits and cooling_profile, such as backend_hint, never changes the verdict |
| Validate.TransverseIsingAccepted | spec/tools/generate_examples.py:49-92 | the transverse-field Ising example passes validation |
| Validate.IsingWithLongT2Rejected | spec/tools/validate.py:132-133 | the same example with T2 = 250 µs against T1 = 100 µs is rejected with the T2 <= 2·T1 violation |

## Left out

- File persistence is not modelled: `load_ledger`, the ledger file writes and
  the webhook secret file. The chain is a field, loaded through the
  constructor, and the secret is a parameter.
- SHA-256, HMAC-SHA256, RSA PKCS#1 v1.5, base64 and the sorted-key JSON
  serialisation are parameters. Each tamper lemma assumes that the digest
  does not collide on the one pair of field sets it compares.
- `SwapDetected` covers reordering by one swap of neighbouring entries.
  Arbitrary permutations of the chain are not covered by a lemma.
- `hmac.compare_digest` is plain equality. Its constant-time behaviour cannot
  be expressed.
- Strings are encoded to UTF-8 before hashing and signing. That encoding is
  folded into the primitives, which take strings.
- Clocks are parameters: `datetime.now` and `time.gmtime` with its `strftime`
  format. The `published` value of `task_to_ap` is passed in.
- `fetch_tasks` is not modelled: a GitHub HTTP call with a hard-coded
  fallback. `task_to_ap` takes one task as input.
- The actor, outbox and health endpoints are not modelled. The actor
  returns fixed JSON. The outbox returns the task list mapped through
  `task_to_ap`. The health endpoint returns fixed JSON plus the ledger's
  length.
- FastAPI routing, `JSONResponse` media types and `HTTPException` become
  plain status and body values. An uncaught exception is the 500 response.
- The load-then-write race between concurrent `append_ledger` calls is not
  modelled. The model is sequential.
- The claim lifecycle is not modelled, because the shown server does not have
  it: claim expiry, refresh, 409 on a double claim and `/tasks/{id}`. The
  model follows the code. An Announce appends a claim however often a task is
  claimed, although the repository's test suite expects a 409 for a second claim.
- `quasi-agent/cli.py` is not part of this model: an HTTP client and argument
  parsing.
- From `spec/tools/generate_examples.py`, only the Ising example is used. The
  CBOR encoding and file writes are not modelled.
- `validate_file` and `main` of the validator are not modelled: file reading,
  hex and CBOR decoding, exit codes.
- Python's `bool` is not represented in `Cbor`. So `True` passing
  `isinstance(v, int)` (for example as `version` or `n_qubits`) is not
  modelled. The board's JSON values do hold booleans. `task_to_ap` formats a
  boolean task number as 0 or 1, as Python does.
- CBOR map keys are text. Maps with integer or byte-string keys are not
  represented.
- Floats are exact reals. IEEE rounding in `total_us / steps` and in the 1%
  tolerance test is not modelled.
- Whitespace, digits and case are ASCII. This affects `strip`,
  `splitlines`, `split()`, `lower`, `title` and the regex `\d`.
- `ObservableAccepts` and `ValidateProgram`: the comparison `0 <= qubit < n`
  of an SZ/SX observable is modelled for numbers. For any other value the
  model raises, as Python 3 does for strings or `None`. Python's `bool`, which
  compares as a number, is left out as above.
- `sign_request`'s ImportError fallback is modelled through the `available`
  flag of `Crypto`: the stub signature. A key that does not load is an
  exception the caller sees (`None`).
- `HttpSignatures.HeaderParams` / `KeyIdAlone`: the key id is recovered only
  when it contains no comma and has no quote at either end. Otherwise the
  source's parser itself splits or trims it.
