# A Dafny model of Synapse's state resolution, SQL helpers and VoIP call signalling

This project models three parts of the early Synapse home server and its web client, and proves properties about them.

1. **State conflict resolution** (`synapse/state.py`, module `State` in `state.dfy`). A room holds one current PDU per slot `(context, type, state_key)`. When a new state PDU arrives, `handle_new_state` decides whether it replaces the PDU in its slot:
   - a slot with no current branch is won outright;
   - if the branches share their last PDU and the current branch has length 1, the new PDU also wins outright;
   - otherwise three tie-break stages run in order (highest power level, branch length, SHA-1 hex digest) until one of them differs.
   - The datastore's branch lookup, power levels, SHA-1, event-id encoding and the replication layer's fetch are fields of an `Env` record of functions.
   - The decision is the function `HandleNewStateRec`. The `StateHandler` methods are proved to carry it out.
   - The slot pointer is written only when the new PDU wins.
   - `handle_new_event` is a method over an `Event` object and a `DataStore` object. It filters the event's own id out of `prev_events`, stamps `prev_state` and writes the slot pointer.
2. **SQL text builders and join-field merging** (`synapse/storage/_base.py`, module `Storage` in `storage.dfy`).
   - The statements that `Table` and the `_simple_*` helpers build are modelled as strings. Each is proved equal to the source's `%` template filled in.
   - `JoinHelper` merges the field lists of several tables. It picks, for every merged field, the prefix of the first table that has it.
   - `_simple_selectupdate_one` and `_simple_max_id` see the database only as the rows and `rowcount` it replies with. For `_simple_selectupdate_one` the model also records which statements were executed; `_simple_max_id` is a function of its single reply.
3. **Call signalling and ICE-candidate batching** (`webclient/components/matrix/matrix-call.js`, module `Call` in `call.dfy`).
   - `MatrixCall` is a class whose methods update its fields as the JavaScript does.
   - Every call into WebRTC, media capture, `$timeout`, the listeners or `matrixService.sendEvent` is appended to an `effects` log. A timer appears as a `Schedule` of a task, with its delay in milliseconds.
   - The `state` field follows the transition function `Next`. The candidate queue follows `Push`, `Drain` and `Failed`.

`builtins.dfy` (module `Builtins`) holds the Python built-ins the storage and state code rely on: `str.join`, `%s` formatting, `max` and string ordering. `wrappers.dfy` holds `Option` and `Result`.

Python exceptions are values of `Result`:
- state resolution: `Error`, with `IndexError`, `ValueError`, `AncestorPresent`, `TieBreakExhausted` and `NoProgress`;
- storage: `PyError`.

In the call model, a JavaScript `TypeError` from using a missing peer connection is the effect `TypeErrorThrown`, after which the handler stops.

## Model

| member | source | states |
|---|---|---|
| Builtins.Max | synapse/state.py:245-246 | `max()` of a non-empty list is one of its elements and at least every element |
| Builtins.StrLessTrichotomy | synapse/state.py:211-214 | lexicographic string order is strict and total |
| State.ScoreTrichotomy | synapse/state.py:211-214 | Python 2 ordering of the stage scores (numbers, hex strings) is strict and total, so each stage either ties or decides one way |
| State.Voters | synapse/state.py:222 | the shared last element is dropped exactly when there is a common ancestor; otherwise the whole branch votes |
| State.Powers | synapse/state.py:221-233 | the power list holds the power level of every voter with a `user_id` and nothing else (every entry is such a voter's level); it is empty exactly when no voter has one |
| State.PowerStage | synapse/state.py:219-250 | fails with ValueError exactly when either side has no power to take the `max` of; otherwise each score is a power of that side and at least every power of that side |
| State.IdOrigins | synapse/state.py:258-259 | one `pdu_id + origin` string per branch element, in order |
| State.HashStage | synapse/state.py:256-264 | each score is the `Hex`-tagged result of the environment's SHA-1 hex function, which the model leaves uninterpreted, applied to that side's hash input; equal hash inputs give equal scores |
| State.HashInputNotInjective | synapse/state.py:258-259 | distinct branches can give the same hash input (`"a"+"bc"` and `"ab"+"c"`), so the hash stage can tie |
| State.DecidedAt | synapse/state.py:205-214 | from any stage on, when the stages before `k` tie and stage `k` differs, stage `k` decides |
| State.FirstDifferingStageDecides | synapse/state.py:199-214 | the stages run in the order power, length, hash; the first stage that differs decides, and the new branch wins exactly when its score is larger |
| State.AllStagesTiedFails | synapse/state.py:205-216 | when all three stages tie, the tie-break fails |
| State.NoVotersFails | synapse/state.py:245-246 | a side with no power level makes the whole tie-break fail with ValueError before any comparison |
| State.StageSwap | synapse/state.py:219-264 | every stage scores the two sides independently: swapping the branches swaps the scores |
| State.SwapFrom | synapse/state.py:205-216 | from any stage on, swapping the branches negates a successful outcome |
| State.TieBreakAntisymmetric | synapse/state.py:198-216 | the branch that wins as "new" loses as "current" |
| State.Decide | synapse/state.py:171-195 | no current branch: accepted; an empty new branch against a current one: IndexError; a common ancestor with a one-element current branch: accepted; otherwise the three-stage tie-break, with the common-ancestor flag of the last elements |
| State.BareCommonAncestorFails | synapse/state.py:176-194 | a new branch holding only the common ancestor, against a longer current branch, has no voter, so `max` raises ValueError |
| State.HandleNewStateRec | synapse/state.py:138-195 | resolution only ever adds PDUs that replication can supply to the ones held locally, and never drops one |
| State.ResolutionStable | synapse/state.py:149-169 | resolving again with the PDUs held afterwards gives the same outcome and fetches nothing |
| State.RejectionIdempotent | synapse/state.py:116-129 | re-evaluating a rejected PDU rejects it again and fetches nothing |
| State.NoCurrentStateAccepts | synapse/state.py:171-174 | a complete tree with an empty current branch accepts the new PDU without fetching |
| State.OneBackfill | synapse/state.py:149-169 | one missing ancestor that replication supplies causes exactly one fetch, then the decision on the completed tree |
| State.PresentAncestorFails | synapse/state.py:152-159 | an ancestor reported missing that the lookup finds raises without fetching |
| State.UnservedAncestorStops | synapse/state.py:152-167 | a missing ancestor that is not held and that replication cannot supply ends the resolution with NoProgress and the store unchanged |
| State.RemoveId | synapse/state.py:75-77 | the filtered list holds exactly the entries other than the event's own id |
| State.RemoveIdDistributes | synapse/state.py:75-77 | filtering works piece by piece, so the kept entries keep their original order |
| State.RemoveIdKeepsOthers | synapse/state.py:75-77 | a list without the id is kept whole |
| State.Event.constructor | synapse/state.py:61-67 | a fresh event with the given identity and no `prev_events` or `prev_state` yet |
| State.DataStore.constructor | synapse/state.py:42 | a datastore with the given slot pointers and locally held PDUs |
| State.DataStore.UpdateCurrentState | synapse/state.py:92-98 | points exactly one slot at the PDU and changes nothing else |
| State.DataStore.HasPdu | synapse/state.py:157 | reports exactly whether the PDU is held locally |
| State.DataStore.AddOutlier | synapse/state.py:161-166 | a fetched outlier is held from then on; no pointer moves |
| State.StateHandler.constructor | synapse/state.py:41-44 | a handler over the given datastore, environment and server name |
| State.StateHandler.HandleNewEvent | synapse/state.py:48-100 | an event without a state key is a no-op returning None; otherwise `prev_events` is the snapshot's list without the event's own id, `prev_state` is stamped exactly when the snapshot has a state PDU, the event's slot points at the decoded event id, and the result is True |
| State.StateHandler.HandleNewState | synapse/state.py:104-129 | the outcome is the resolution's; the slot pointer moves to the new PDU exactly when it won and is unchanged otherwise |
| State.StateHandler.Resolve | synapse/state.py:138-195 | the recursive method agrees with `HandleNewStateRec` and never moves a pointer |
| State.DoConflictRes | synapse/state.py:198-216 | the loop over the stages, with early returns, computes the tie-break outcome |
| Storage.SelectWhereText | synapse/storage/_base.py:400 | the WHERE template filled in is `SELECT f FROM t WHERE w` |
| Storage.SelectText | synapse/storage/_base.py:401 | the plain template filled in is `SELECT f FROM t` |
| Storage.InsertText | synapse/storage/_base.py:402 | the insert template filled in is `INSERT OR REPLACE INTO t (f) VALUES (p)` |
| Storage.InsertTxnText | synapse/storage/_base.py:137 | the `_simple_insert_txn` template filled in |
| Storage.UpdateText | synapse/storage/_base.py:273 | the UPDATE template filled in |
| Storage.MaxIdText | synapse/storage/_base.py:336 | the max-id template filled in |
| Storage.DottedText | synapse/storage/_base.py:463 | `"%s.%s" % (prefix, f)` is `prefix.f` |
| Storage.AssignText | synapse/storage/_base.py:269 | `"%s = ?" % k` is `k = ?` |
| Storage.Assigned | synapse/storage/_base.py:269-276 | one `k = ?` term per key, in order |
| Storage.PlaceholderCount | synapse/storage/_base.py:431 | `", ".join(["?"] * n)` holds exactly `n` question marks |
| Storage.Placeholders | synapse/storage/_base.py:431 | exactly `n` placeholders, and the empty string only for `n = 0` |
| Storage.SelectStatement | synapse/storage/_base.py:404-424 | with a truthy where clause the WHERE template over the joined fields, the table name and the clause; otherwise the plain template |
| Storage.InsertStatement | synapse/storage/_base.py:426-432 | the insert template over the table name, the fields in order and one `?` per field; when no name contains a `?`, the statement holds exactly one `?` per field |
| Storage.PrefixAll | synapse/storage/_base.py:463 | each field becomes `prefix.field`, in order |
| Storage.GetFieldsString | synapse/storage/_base.py:460-467 | the fields joined by `", "` in order, each written `prefix.field` exactly when the prefix is truthy |
| Storage.DecodeResults | synapse/storage/_base.py:449-458 | succeeds exactly when every row has one value per field (TypeError otherwise), with one entry per row, in order |
| Storage.DecodeSingleResult | synapse/storage/_base.py:434-447 | None for no rows; otherwise the entry built from the first row when its length matches the table's fields, and a TypeError exactly when it does not |
| Storage.SingleResultIsFirstResult | synapse/storage/_base.py:434-458 | decoding one result is decoding the first row alone: the same entry or the same error, whatever the later rows hold |
| Storage.Unseen | synapse/storage/_base.py:485 | keeps exactly the fields not already in the list |
| Storage.MergedFields | synapse/storage/_base.py:480-487 | the merged list holds exactly the fields of all the tables |
| Storage.Dedup | synapse/storage/_base.py:470-475 | reference list of unique fields: the same members as its input |
| Storage.DedupNoDup | synapse/storage/_base.py:470-475 | the reference list has no duplicates |
| Storage.DedupAppend | synapse/storage/_base.py:484-485 | when the fields not seen before have no repeats among themselves, deduplicating the extended list appends exactly those fields, in order |
| Storage.MergedIsDedup | synapse/storage/_base.py:480-487 | whenever the merged list has no repeats (exactly when the namedtuple accepts it), it is every field once, in first-occurrence order across the tables in argument order |
| Storage.MergedNoDupWhenTablesNoDup | synapse/storage/_base.py:480-487 | when no table repeats a field of its own, the merged list has no repeats |
| Storage.EarlierTableAbsorbsRepeat | synapse/storage/_base.py:480-487 | a field an earlier table already has is dropped from a later table every time it appears there, so the merged list is accepted and equals the reference |
| Storage.RepeatedFieldSurvives | synapse/storage/_base.py:484-487 | a field repeated inside one table is filtered only against earlier tables, so both copies reach the namedtuple |
| Storage.MergeFields | synapse/storage/_base.py:483-485 | the loop that builds `res` computes the merged list |
| Storage.OwnerIndex | synapse/storage/_base.py:502-505 | the index of the first table, in argument order, that has the field, or none when no table has it |
| Storage.OwnerOfEveryField | synapse/storage/_base.py:502-505 | every field of some table has an owner |
| Storage.PrefixedFieldsFailureSticks | synapse/storage/_base.py:504 | once a missing prefix has raised KeyError, later fields do not change the outcome |
| Storage.PrefixedFieldsOnePerField | synapse/storage/_base.py:489-507 | with a prefix for every table, one entry per field, in order, each under the prefix of the first table that has it |
| Storage.GetFieldsCoversMergedFields | synapse/storage/_base.py:480-507 | for the helper's own merged list, every merged field is listed exactly once, in order, under its first owner's prefix |
| Storage.JoinHelper.GetFields | synapse/storage/_base.py:489-507 | the nested loops give the prefixed entries joined by `", "`, or the KeyError of the first table without a prefix |
| Storage.JoinHelper.DecodeRows | synapse/storage/_base.py:509-510 | a successful decode has one entry per row |
| Storage.NewJoinHelper | synapse/storage/_base.py:480-487 | succeeds exactly when the merged list has no duplicates, and then holds the tables and the merged list, which is every field once in first-occurrence order; otherwise the namedtuple's ValueError |
| Storage.Keys | synapse/storage/_base.py:140 | the column names, in the dict's order |
| Storage.Values | synapse/storage/_base.py:149 | the values, in the same order |
| Storage.SimpleInsertTxn | synapse/storage/_base.py:136-150 | the arguments are the values in column order |
| Storage.InsertTxnTemplate | synapse/storage/_base.py:137-142 | the statement is the source's template filled with the verb, the table, the columns and the placeholders |
| Storage.InsertOrReplaceExactlyWhenAsked | synapse/storage/_base.py:137-138 | the statement starts `INSERT OR REPLACE INTO` exactly when `or_replace` is set, and `INSERT INTO` exactly when it is not |
| Storage.VerbDecides | synapse/storage/_base.py:138 | the two verbs cannot be mistaken for each other as statement prefixes |
| Storage.InsertPlaceholdersMatchArguments | synapse/storage/_base.py:137-149 | when no name contains `?`, the statement holds exactly one `?` per argument |
| Storage.ZipDict | synapse/storage/_base.py:292 | `dict(zip(...))` has only the given keys |
| Storage.ZipDictLastWins | synapse/storage/_base.py:292 | a column gets the value paired with its last occurrence among the pairs `zip` forms; repeats past the shorter list are ignored |
| Storage.SelectUpdateTemplates | synapse/storage/_base.py:265-277 | the SELECT and UPDATE texts are the source's templates filled in |
| Storage.SimpleSelectUpdateOne | synapse/storage/_base.py:279-306 | a returned row comes from a single matched row and maps the selected columns to its values; with no columns to return the result is None; conversely, when one row matched and the UPDATE (if any) did not report 0 or more than 1 rows, that row's `dict(zip(retcols, row))` is returned, and None when there are no columns |
| Storage.SelectRunsFirst | synapse/storage/_base.py:280-290 | with columns to return, the SELECT runs first; no row gives None if allowed and a 404 otherwise, and more than one row gives a 500 |
| Storage.UpdateRunsLast | synapse/storage/_base.py:294-303 | the UPDATE runs exactly when there are values to set and the SELECT did not stop early; it is the last statement, with the new values then the key values as arguments; touching no row is a 404, more than one a 500 |
| Storage.MaxIdSql | synapse/storage/_base.py:336 | the max-id statement is the source's template filled in |
| Storage.SimpleMaxId | synapse/storage/_base.py:338-343 | an empty reply raises IndexError; otherwise the first row's value, with a NULL maximum read as 0 |
| Storage.MaxIdIsLargestId | synapse/storage/_base.py:329-345 | over a table's ids the result is 0 for an empty table and otherwise the largest id |
| Call.OutgoingEvent.constructor | webclient/components/matrix/matrix-call.js:376 | a retried event starts with `tries` at 1 |
| Call.Next | webclient/components/matrix/matrix-call.js:74-373 | from `ended`, exactly the handlers without an `ended` guard move the call (placing a call, an incoming invite, answering with no stream yet, a created answer, the remote stream starting); every hangup path ends the call; candidates and a remote track starting never change the state |
| Call.ConnectedOnlyByMediaOrIce | webclient/components/matrix/matrix-call.js:276-346 | only an ICE success or the remote stream starting moves a call into `connected`; a remote track starting does not |
| Call.EventRetryDelays | webclient/components/matrix/matrix-call.js:384-396 | one retry per attempt up to the sixth, each after `500 * 2^tries` ms |
| Call.EventRetrySchedule | webclient/components/matrix/matrix-call.js:375-396 | a failing event is retried five times, after 1, 2, 4, 8 and 16 seconds |
| Call.PushAllAppends | webclient/components/matrix/matrix-call.js:427-429 | pushing candidates one by one appends them in order |
| Call.Drain | webclient/components/matrix/matrix-call.js:405-419 | an empty queue is left as it is; otherwise the whole queue, in order, is the batch, the queue is emptied and `tries` goes up by 1 |
| Call.Failed | webclient/components/matrix/matrix-call.js:426-444 | the failed batch is appended in order; with `tries > 5` the counter resets to 0 and nothing is scheduled; otherwise the retry waits `500 * 2^tries` ms and `tries` goes up by 1 |
| Call.FailedBatchRequeued | webclient/components/matrix/matrix-call.js:399-444 | no candidate is lost: after a failed flush the queue holds the candidates queued meanwhile followed by the whole batch, whether the sender retries or gives up |
| Call.CandidateRetrySchedule | webclient/components/matrix/matrix-call.js:405-444 | because both the flush and the failure count an attempt, a failing queue is retried only three times (after 1, 4 and 16 seconds) before the sender gives up |
| Call.MatrixCall.constructor | webclient/components/matrix/matrix-call.js:45-54 | a `fledgling` call with an empty candidate queue and no tries |
| Call.MatrixCall.PlaceCall | webclient/components/matrix/matrix-call.js:74-81 | asks for media and moves to `wait_local_media`, outbound |
| Call.MatrixCall.InitWithInvite | webclient/components/matrix/matrix-call.js:83-99 | opens a connection on the offer, rings inbound and schedules the ring timeout for the invite's remaining lifetime |
| Call.MatrixCall.RingTimeoutFired | webclient/components/matrix/matrix-call.js:90-97 | a call still ringing ends with the remote party as the one hanging up; otherwise nothing changes |
| Call.MatrixCall.CloseIfOpenAndNotify | webclient/components/matrix/matrix-call.js:95-96 | closes an open connection and notifies the listener; a missing connection throws |
| Call.MatrixCall.InitWithHangup | webclient/components/matrix/matrix-call.js:104-107 | a call first seen through its hangup is `ended` |
| Call.MatrixCall.Answer | webclient/components/matrix/matrix-call.js:109-120 | asks for media, answers with the stream already at hand, or keeps waiting for the predecessor's stream |
| Call.MatrixCall.GotUserMediaForAnswer | webclient/components/matrix/matrix-call.js:177-196 | does nothing once `ended`; otherwise adds the stream and moves to `create_answer` |
| Call.MatrixCall.GotUserMediaForInvite | webclient/components/matrix/matrix-call.js:152-175 | a replaced call hands the stream to its successor as an answer; otherwise does nothing once `ended`, and else opens a connection and moves to `create_offer` |
| Call.MatrixCall.GotLocalIceCandidate | webclient/components/matrix/matrix-call.js:198-203 | queues the candidate, if there is one |
| Call.MatrixCall.GotRemoteIceCandidate | webclient/components/matrix/matrix-call.js:205-212 | does nothing once `ended`; otherwise hands the candidate to the connection |
| Call.MatrixCall.ReceivedAnswer | webclient/components/matrix/matrix-call.js:214-219 | does nothing once `ended`; otherwise applies the answer and moves to `connecting` |
| Call.MatrixCall.GotLocalOffer | webclient/components/matrix/matrix-call.js:221-250 | does nothing once `ended`; otherwise sends the invite with `CALL_TIMEOUT` as its lifetime, schedules the invite timeout and moves to `invite_sent` |
| Call.MatrixCall.InviteTimeoutFired | webclient/components/matrix/matrix-call.js:240-245 | a call still in `invite_sent` is hung up locally with reason `invite_timeout`; otherwise nothing changes |
| Call.MatrixCall.CreatedAnswer | webclient/components/matrix/matrix-call.js:252-265 | sends the answer and moves to `connecting`, with no `ended` guard |
| Call.MatrixCall.GetLocalOfferFailed | webclient/components/matrix/matrix-call.js:267-269 | reports the error and changes nothing else |
| Call.MatrixCall.GetUserMediaFailed | webclient/components/matrix/matrix-call.js:271-274 | reports the error, then hangs up |
| Call.MatrixCall.OnIceConnectionStateChanged | webclient/components/matrix/matrix-call.js:276-287 | does nothing once `ended`; `completed` or `connected` moves to `connected` and records that the call connected |
| Call.MatrixCall.OnAddStream | webclient/components/matrix/matrix-call.js:301-320 | remembers and plays the remote stream |
| Call.MatrixCall.OnRemoteStreamStarted | webclient/components/matrix/matrix-call.js:322-327 | moves to `connected`, with no `ended` guard |
| Call.MatrixCall.OnRemoteStreamTrackStarted | webclient/components/matrix/matrix-call.js:341-346 | leaves the call's state as it was: `onAddStream` registers this handler on the track unbound (line 311), so its write to `state` lands on the track |
| Call.MatrixCall.OnRemoteStreamEnded | webclient/components/matrix/matrix-call.js:329-339 | ends the call with the remote party as the one hanging up |
| Call.MatrixCall.OnHangupReceived | webclient/components/matrix/matrix-call.js:348-355 | ends in `ended` with `hangupParty` remote |
| Call.MatrixCall.Hangup | webclient/components/matrix/matrix-call.js:135-150 | ends in `ended` with `hangupParty` local, after closing any connection and sending the hangup; the listener hears of it unless suppressed |
| Call.MatrixCall.ReplacedBy | webclient/components/matrix/matrix-call.js:357-373 | in `wait_local_media` tells the new call to wait; in `create_offer` or `invite_sent` moves the local stream to the new call; always records the successor and hangs up without notifying |
| Call.MatrixCall.SendEventWithRetry | webclient/components/matrix/matrix-call.js:375-379 | sends the event once and hands back a record with `tries` at 1 |
| Call.MatrixCall.EventSendFailed | webclient/components/matrix/matrix-call.js:384-396 | with `tries > 5` gives up and changes nothing; otherwise schedules a resend after `500 * 2^tries` ms and increments `tries` |
| Call.MatrixCall.ResendEvent | webclient/components/matrix/matrix-call.js:393-395 | sends the same event again |
| Call.MatrixCall.SendCandidate | webclient/components/matrix/matrix-call.js:399-403 | appends the candidate to the queue, and schedules a flush exactly when `tries` is 0 |
| Call.MatrixCall.SendCandidateQueue | webclient/components/matrix/matrix-call.js:405-419 | the queue follows `Drain`: an empty queue changes nothing; otherwise one message carries the whole queue |
| Call.MatrixCall.CandsSent | webclient/components/matrix/matrix-call.js:421-424 | resets `tries` to 0, then flushes what was queued meanwhile |
| Call.MatrixCall.CandsSendFailed | webclient/components/matrix/matrix-call.js:426-444 | the queue follows `Failed`: the batch is re-appended in order; the sender gives up or schedules the retry |

## Left out

- The database itself: `LoggingTransaction`, `runInteraction`, `_execute`, and the execution of SQL. A transaction is only the rows and `rowcount` it replies with.
- `_parse_event_from_row`, `_parse_events_txn` and the other `_simple_*` helpers are not part of this model.
- Storage.NewJoinHelper: of the namedtuple's field-name rules only the duplicate-name ValueError is modelled. Names that are not identifiers, or that start with an underscore, are not modelled.
- Storage.SimpleInsertTxn: the statement's arguments are a dict's `values()`. The model takes the dict as a list of pairs in iteration order, which it assumes has no repeated key.
- Storage.SimpleSelectUpdateOne: `allow_none` returning None also skips the UPDATE, as in the source. The Python 2 `dict` order of `keyvalues` is taken as the order of the given list.
- Twisted deferreds are plain sequential calls.
- Concurrency is not modelled. The docstring says `handle_new_state` is safe against two PDUs racing for the same slot, but the source has no locking that would serialise them.
- `synapse/federation/persistence.py`, the configuration and logging setup, and the TLS context factory are not part of this model. They are delegation, I/O and foreign-library configuration.
- SHA-1, power levels, the unresolved-state-tree lookup and event-id encoding and decoding are uninterpreted functions in `Env`.
- The replication layer's fetch is modelled as the finite set `served` of PDUs that origins can supply.
- State.HandleNewStateRec: under the reading of line 157 that the model takes, a fetch that returns no PDU would make the source re-run `_handle_new_state` on the same tree without bound. The model stops with `NoProgress` instead. As written, the source raises before any fetch (next line).
- State.HandleNewStateRec: line 157 parses as `yield (get_pdu(...) is None)`. `get_pdu` returns a Deferred, which is never None, so the code as written raises on every missing ancestor and never fetches. The model raises when the store already holds the ancestor and fetches it otherwise; the fetch path (`OneBackfill`, `ResolutionStable`) is what the model does, not what the code as written does.
- State.StateHandler.HandleNewEvent: `fill_out_prev_events` is represented by the list of previous events it gives, carried by the `Snapshot` value.
- `_get_power_level_for_event`, and the commented-out power check in `handle_new_event`, are unused and not modelled. So is logging.
- Call.MatrixCall.ReplacedBy: requires the new call to be a different object. The source never replaces a call by itself.
- WebRTC, media capture, audio playback and track stopping are effects in the log. So are `$timeout` and `matrixService.sendEvent`. `$rootScope.$apply` is modelled as the plain update it wraps. The loops that enable the local audio tracks (matrix-call.js:160-163, 181-184) and the handler registrations in `onAddStream` (matrix-call.js:309-316) are not logged. Real timing and network outcomes are not modelled: the environment invokes the success, failure and timer handlers.
- Call.MatrixCall.OnRemoteStreamTrackStarted: the write of `state = 'connected'` onto the track object, where the unbound handler puts it, is not modelled; the track is not an object of the model.
- `onSignallingStateChanged`, `onSetRemoteDescriptionSuccess`, `onSetRemoteDescriptionError` and `eventSent` only log. They are not modelled, and neither is `createPeerConnection`'s browser detection.
- Call.MatrixCall.GotLocalOffer, Call.MatrixCall.CreatedAnswer, Call.MatrixCall.OnIceConnectionStateChanged: these are callbacks of an existing peer connection, so they require one.
- `onError` is assumed to be set, as the source calls it unconditionally. Whether `onHangup` is set is a constant of the call.
- `config` and `msg` are stored by the source but read nowhere in this file, so they are not fields of the model.
- The timestamp-based `call_id` is a constructor parameter.
