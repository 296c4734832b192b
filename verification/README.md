# Verified model of the incident platform's coordination code

This project models, in Dafny, the parts of the platform whose guarantees hold over interleavings and
whole runs, and proves those guarantees.

* **Surface delivery.** Hub messages are mirrored to Slack threads by competing workers that read a
  stream and scan a Postgres outbox. `Projection` cuts `applyToSurface` at its awaits;
  `DeliveryProtocol` interleaves those phases, for any number of workers, with claims, heartbeats,
  crashes, lease expiry, stale sweeps, disconnects and reassignments. `AtMostOnce`, `LeaseSpans`,
  `StatusPost`, `StatusPostLimits` and `Receipts` are its theorems. `Conversation` runs the projection alone, as an
  imperative class, and `ThreadRendering` proves that the resulting thread is a rendering defined on the
  whole list of messages. `SerialProjection` joins the two: under the lease a conversation of the protocol is
  that rendering, post by post, with the stamps of `StampedThread`, and `LeaseRace` is a run that loses its lease. `Fanout` is the loop over the destinations
  of one message, `FanoutInProtocol` proves a visit of it, from taking the lease to giving it back and with
  other processes at work between any two steps, to be a run of the protocol, `Destinations` is the memo that
  addresses it, `OutboxScan` and `StreamConsumer` are the two sources of its messages, `LeaseStore` is its lock and
  `Deliveries` the states of its rows.
* **Slack connection.** `SlackSaga` models PUT, test and DELETE as lists of awaits, any of which may
  throw before or after it took effect, with the rollback of PUT as another such list. `Serializer` is the
  promise queue that keeps the mutations of one key apart.
* **Timed and revision-based guards.** `WindowGuard` and `Schedulers` (one winner per window, one job per
  item), `EngineLock` (one live engine run per incident), `SnapshotPoller` (the last-good cache) and
  `LocalSession` (a response is stored only if nothing changed since its request).
* **Exact arithmetic and encoding.** `ToolNames` (connector tool names) and `Usage` (token totals).

`dafny verify dfyconfig.toml` checks the whole project. State that the source updates in place is a class whose
methods are proved equal to specification functions; runs are sequences of events, and every theorem
about them is by induction over the sequence. Environment assumptions are guards of steps or
preconditions: lease tokens are fresh, all processes share one clock, one API process runs the Slack
mutations, a binding's destination never changes.

## What the proofs found

* **What the lease serializes.** Whatever happens in a run, the awaits made under a binding's lease come in the
  order in which the leases were taken (`SerialProjection.AwaitsInLeaseOrder`). If attempts keep the lease until
  their outcome is recorded and none of their calls fails, then the Slack thread, the working post and the
  status post with its version are those of the messages replayed in that order
  (`SerialProjection.ProjectionIsSerial`). That they keep it is needed: in a run in which nothing fails but one
  lease expires, one agent turn ends as two posts (`LeaseRace.LeaseIsNeeded`).
* **A second status post.** Of two lifecycle status posts on one binding, either Slack accepted the earlier
  without returning its timestamp, or the later is the work of an attempt that claimed its row after it had
  lost the lease (`StatusPost.SecondPostNeedsFault`). The code excludes neither.
  `claimSurfaceDelivery` does not look at the lease (`StatusPostLimits.LateClaimRun`), and
  `packages/surfaces/src/slack.ts:435-442` classifies an ok answer without a timestamp as rejected although
  the post exists, so neither the stored post nor the ambiguity check sees it
  (`StatusPostLimits.UnstampedRun`). Late claims of other messages, and other bindings, do no harm.
* **The recorded version is not monotone by itself.** The SQL of `advanceSurfaceStatusPostByBinding`
  (`packages/db/src/surface-repo/binding.ts:314-343`) compares the assignment and the version but not the
  post id, and a merge or a split resets the version to -1 while it keeps the id. An event lowers the version
  if and only if it is such a reassignment of a version above -1
  (`StatusPostLimits.VersionDropsOnlyOnReassign`, with `VersionDropRun` as a run in which it drops);
  between two reassignments it never decreases (`VersionKeptBetweenReassignments`). The post id is fixed because no second
  post is created while claims are fenced, not because the store enforces it: without the fence there is a
  stamped run in which it changes (`RecordedPostCondition`, `RecordedPostChangesRun`).
* **Agent questions are swallowed.** An agent's `clarification_request` or `degraded_reask` is on the list of
  mirrored kinds but falls into the branch for silent endings: the working post then reads "message
  received", or nothing is posted at all (`ThreadRendering.SpeaksUnlessSilent`).
* **What a failed PUT restores.** Row and tokens, if and only if there was a row or no token without one
  (`SlackSaga.FailedIsUndone`), which `SlackSaga.TokensAlwaysHaveRow` guarantees. The rollback does not touch
  the socket of an existing row: it is as before unless the failed start took effect with another token
  (`SlackSaga.SocketAfterRollback`; `SocketLeftOnNewToken` is such a run). The socket manager keeps the old
  client when a replacement fails (`apps/api/src/surfaces/slack-socket.ts:301-319`), so it does not come to that.
* **A 409 is answered without a rollback, and needs none.** Only the row has a unique key a PUT can violate, and
  then every 409 leaves the whole store as it was (`SlackSaga.TakenChangesNothing`). It is that key, not the
  handler, that makes it so: were a later write to raise a conflict, what was written before would stay
  (`SlackSaga.TakenIsNotUndone` says exactly when, `LateConflictRun` is a run).
* **Giving up can be lost.** The stream consumer deletes the retry counter before it acknowledges. Its bound is
  five handler runs, five more for every store call that threw or counter that expired, and one more for
  every visit that began while another consumer had the entry. The bound is reached for every number of
  faults and overlaps (`StreamConsumer.BoundIsReached`).
* **Late guard calls.** A scheduler call that reaches the key store after its window can win that window
  again. In any run a window is won twice if and only if two calls for it reach the store a time to live apart
  (`WindowGuard.WonTwiceExactly`, for every time to live). For calls inside their window a configured lock time admits one winner per window exactly if it covers the
  interval (`WindowGuard.TtlMustCoverInterval`). The engine mutex excludes exactly if its time to live is
  longer than the longest run (`EngineLock.TtlMustOutliveRuns`).
* **Tool keys ignore case.** Ids that differ only in the case of their digits share a key
  (`ToolNames.KeyNamesId`), and a connector type with an underscore could make names ambiguous
  (`ToolNames.UnderscoreBreaksReading`).

## Model

| member | source | states |
|---|---|---|
| Conversation.BoundThread.ApplyToSurface | apps/surface-worker/src/fanout.ts:20-179 | The projection, written imperatively, leaves for every mishap of its port calls exactly the thread and result that the interleavable phases leave |
| Conversation.BoundThread.ApplyLifecycle | apps/surface-worker/src/fanout.ts:33-78 | Same for lifecycle messages: a missing version or binding throws, a stale version is skipped |
| Conversation.BoundThread.EditStatus | apps/surface-worker/src/fanout.ts:49-62 | An existing status post is edited and then advanced |
| Conversation.BoundThread.CreateStatus | apps/surface-worker/src/fanout.ts:63-77 | A first status post is refused while an earlier one is ambiguous, else posted and then advanced |
| Conversation.BoundThread.Advance | apps/surface-worker/src/fanout.ts:51-77 | A lost version or assignment fence is an unexpected error although the post stands |
| Conversation.BoundThread.ApplyStandalone | apps/surface-worker/src/fanout.ts:80-131 | Same for messages that are their own post: postmortem, relationship with its hand-off, approval, human and system messages |
| Conversation.BoundThread.DropWorking | apps/surface-worker/src/fanout.ts:105-130 | A system finding drops the working post, record included, before it posts; an error on the way keeps it from posting |
| Conversation.BoundThread.PostOwnBody | apps/surface-worker/src/fanout.ts:122-130 | A post of the message's own, and the receipt or the error it ends in |
| Conversation.BoundThread.ReplaceWorking | apps/surface-worker/src/fanout.ts:150-172 | The working post takes the message, and a message that ends the turn clears its record only after the edit |
| Conversation.BoundThread.ApplyAgent | apps/surface-worker/src/fanout.ts:133-178 | Same for an agent turn: narration, conclusion and silent ending |
| Conversation.BoundThread.Narrate | apps/surface-worker/src/fanout.ts:141-145 | The first narration posts and then stores its post as the working post |
| Conversation.BoundThread.Do | apps/surface-worker/src/fanout-contracts.ts:86-112 | One port call and its mishap: refused, rate limited, unstamped, thrown before or after it took effect, or outdated |
| Conversation.BoundThread.Update | packages/surfaces/src/slack.ts:448-469 | Editing changes the addressed post only, and fails exactly if it is not there |
| Conversation.BoundThread.Delete | packages/surfaces/src/slack.ts:471-483 | Deleting removes the addressed post only and tolerates a missing one |
| Conversation.BoundThread.AdvanceStatusPost | packages/db/src/surface-repo/binding.ts:324-341 | The stored status post of a binding still assigned as the delivery has it moves only to a newer version, or from none |
| Conversation.BoundThread.Handle | apps/surface-worker/src/fanout.ts:315-378 | One delivery, for every mishap: a lifecycle delivery whose outcome is not known makes later creations ambiguous |
| ThreadRendering.ThreadIsRendering | apps/surface-worker/src/fanout.ts:80-178 | For every list of messages the thread is the whole-list rendering: each turn is one post showing its conclusion, and a working post is stored exactly while a turn is open, namely its opener's |
| ThreadRendering.DeliverKeeps | apps/surface-worker/src/fanout.ts:33-178 | One more message keeps thread, stored posts and rendering in agreement |
| ThreadRendering.RenderGrows | apps/surface-worker/src/fanout.ts:133-178 | One more message changes at most one earlier slot of the rendering: the open turn's or the status post's |
| ThreadRendering.SpeaksUnlessSilent | apps/surface-worker/src/fanout.ts:161-178 | A message that is no narration or status update reaches the thread in its own words exactly if it does not end an agent turn silently |
| ThreadRendering.DeliverByKind | apps/surface-worker/src/fanout.ts:33-178 | What a delivery leaves in the thread, for every author and every kind of message, approvals and hand-offs included |
| ThreadRendering.HandsOffExactly | apps/surface-worker/src/fanout.ts:90-93 | An origin in this channel hands the conversation off exactly if it names another thread |
| ThreadRendering.HandsOffOnlyHere | apps/surface-worker/src/fanout.ts:90-93 | No other origin hands it off |
| Receipts.ReceiptIsTrue | apps/surface-worker/src/fanout.ts:40-178 | For every mishap a projection that returns reports what it did: skipped exactly for a stale status or a silent ending without an open turn, posted with the new post, updated with the post it rewrote, composite exactly for a system finding |
| Receipts.SkippedExactlyIfSilent | apps/surface-worker/src/fanout.ts:326-334 | In every run a delivery that reached its final renewal ends skipped if and only if its attempt made no call to Slack |
| Receipts.AnswersDecide | packages/surfaces/src/slack.ts:304-328 | In every run a refusal leads to rejected, a rate limit to a retry and an ambiguous failure to uncertain, unless others sweep the row; a row is rejected only if Slack refused or gave no timestamp, and blocked by its owner only before any call |
| Receipts.RunKeeps | apps/surface-worker/src/fanout.ts:315-378 | In every run the stage of an attempt and the state of its row agree with the latest answer of Slack |
| Receipts.UnresolvedIsUncertain | apps/surface-worker/src/fanout.ts:63-65 | The lifecycle deliveries that block later creations are exactly those recorded as uncertain |
| Receipts.DoubtIsFromStatus | apps/surface-worker/src/fanout.ts:63-65 | For every list of deliveries and mishaps, first status posts are in doubt exactly once a status update, and no other message, was left uncertain |
| Receipts.RepliesAreMishaps | packages/surfaces/src/slack.ts:304-328 | Every answer of Slack does and reports the same in the conversation run alone as in the interleaved protocol |
| Receipts.StoreFailuresAreMishaps | apps/surface-worker/src/fanout.ts:358-378 | A store call that throws leaves the same effect in both and ends the delivery uncertain |
| SerialProjection.ProjectionIsSerial | apps/surface-worker/src/fanout.ts:181-188 | In every run that leaves a conversation undisturbed its thread, working post, status post and version are the rendering of its messages in the order of their leases, each post under the stamp Slack gave it |
| SerialProjection.AwaitsInLeaseOrder | apps/surface-worker/src/fanout.ts:283-334 | In every run, faults included, awaits made under a binding's lease are in the order in which the leases were taken, so projections never interleave |
| SerialProjection.RunKeeps | apps/surface-worker/src/fanout.ts:283-383 | At every moment of such a run the suspended projection, run on alone, ends as the whole projection alone would, every earlier visit is over, and the ambiguity check sees exactly the earlier unversioned messages |
| SerialProjection.StepKeeps | apps/surface-worker/src/fanout.ts:283-383 | Every event of any process that does not disturb the conversation keeps that agreement |
| SerialProjection.VisitOrder | apps/surface-worker/src/fanout.ts:283-314 | Those messages are of the claims won on the conversation, each by an attempt that acquired the lease, in the order of acquisition |
| SerialProjection.DeliveredIsVisited | apps/surface-worker/src/fanout.ts:326-334 | Every accepted or skipped delivery of the conversation is one of them, from the start of its lease span |
| SerialProjection.VisitsHaveOutcomes | apps/surface-worker/src/fanout.ts:326-345 | In such a run every finished visit is accepted or skipped, or blocked as a status update whose first post is in doubt; only an unversioned lifecycle message ends uncertain |
| LeaseRace.LeaseIsNeeded | apps/surface-worker/src/fanout.ts:133-145 | A run without a failed call, sweep or reassignment in which a projection outlives its lease and the thread has two posts where the rendering has one |
| StampedThread.DeliverNamed | packages/surfaces/src/slack.ts:425-447 | A delivery does the same whatever timestamps Slack gives the posts |
| AtMostOnce.RunKeeps | apps/surface-worker/src/fanout.ts:301-383 | In every run a row has at most one owning attempt, rows past their claim are not queued, and every accepted post belongs to the attempt that still owns its row |
| AtMostOnce.StepKeeps | apps/surface-worker/src/index.ts:160-206 | Every event, crash, sweep and redelivery keeps that ownership invariant |
| AtMostOnce.AtMostOnePost | apps/surface-worker/src/fanout.ts:301-383 | Over every run Slack accepts at most one post for a delivery row |
| AtMostOnce.QueuedIsUnposted | packages/db/src/surface-delivery-repo.ts:153-213 | A row that can be claimed has never been posted |
| AtMostOnce.PostIsLast | apps/surface-worker/src/fanout.ts:20-179 | After the answer to a post the projection makes no further Slack call |
| AtMostOnce.AwaitFrame | apps/surface-worker/src/fanout.ts:315-325 | One await of a projection changes its own attempt, its binding and at most one accepted post, and hands the row back only when rate limited |
| AtMostOnce.TerminalIsFinal | packages/db/src/surface-delivery-repo.ts:270-307 | A row is never removed and a terminal state never changes, over every run |
| AtMostOnce.RowStep | packages/db/src/surface-delivery-repo.ts:226-307 | No event changes a terminal row, and only a reschedule by an attempt that was told to retry turns sending into queued |
| AtMostOnce.RetryingWasRateLimited | packages/surfaces/src/slack.ts:315-321 | An attempt about to reschedule was answered by a rate limit |
| AtMostOnce.HandedBackOnlyWhenRateLimited | apps/surface-worker/src/fanout.ts:345-357 | A row returns from sending to queued only after Slack answered retryable, and then has no accepted post |
| AtMostOnce.ProjectionIsNeverStuck | apps/surface-worker/src/fanout.ts:20-179 | In every run a suspended projection can continue with any answer |
| LeaseSpans.RunKeeps | apps/surface-worker/src/fanout.ts:283-334 | In every run delivered rows have a closed lease span, spans on one binding are disjoint, and the current lease began after all of them |
| LeaseSpans.SpansAreHeld | apps/surface-worker/src/fanout.ts:285-328 | A recorded span runs from the event that acquired the lease to its final successful renew, and the lease was held at every state in between |
| LeaseSpans.DeliveredSpansAreDisjoint | apps/surface-worker/src/fanout.ts:283-334 | Two accepted or skipped deliveries of one binding held the lease without a break over disjoint stretches of the run, from acquire to final renew |
| LeaseSpans.LeaseChangesByItsHolder | apps/surface-worker/src/lock.ts:9-27 | In every event a binding's lease changes only from free to a token no attempt had, or by its live holder's own renew or release |
| LeaseSpans.HeldThroughout | apps/surface-worker/src/lock.ts:11-23 | An attempt that holds its lease held it at every earlier moment since it took it, so a successful renew proves continuous possession |
| LeaseSpans.OnlyTheHolderReleases | apps/surface-worker/src/lock.ts:9-26 | A live lease ends only by time or by its holder's own release: no stale renew or release touches it |
| LeaseSpans.LostForGood | apps/surface-worker/src/lock.ts:16-23 | A lost lease is never regained by the same attempt |
| LeaseSpans.LastsAMinute | apps/surface-worker/src/lock.ts:5-23 | A lease taken or renewed lasts sixty seconds whatever happens, unless its holder gives it back |
| LeaseSpans.MissedBeatClosesNoSpan | apps/surface-worker/src/fanout.ts:300-328 | Once a heartbeat threw or found the lease lost, its attempt never completes a final renewal any more |
| LeaseSpans.MissedBeatIsNeverDelivered | apps/surface-worker/src/fanout.ts:300-328 | An attempt that missed a heartbeat before its final renewal never gets its row recorded as accepted or skipped |
| StatusPost.RunKeeps | apps/surface-worker/src/fanout.ts:33-78 | In every run, on every binding, status posts are recorded or in flight, visible to the check of every attempt that claimed on time, and only late claims post after one they could know of |
| StatusPost.SecondPostNeedsFault | apps/surface-worker/src/fanout.ts:63-77 | Of two status posts on a binding the earlier was accepted without a timestamp, or the later comes from an attempt that claimed after losing its lease |
| StatusPostLimits.RecordedPostIsFixed | apps/surface-worker/src/fanout.ts:49-77 | While no status post of the binding comes from a late claim, the recorded post id never changes once set |
| StatusPostLimits.RecordedPostCondition | apps/surface-worker/src/fanout.ts:312-314 | Fenced status posts keep the recorded id in every run; without the fence it can change even if all posts are stamped |
| StatusPostLimits.RecordedPostChangesRun | packages/db/src/surface-repo/binding.ts:324-341 | A stamped run in which a late claimer records its own post over the recorded one |
| StatusPostLimits.VersionNeverGoesBack | packages/db/src/surface-repo/binding.ts:324-341 | In every run assignment and recorded version together never go back |
| StatusPostLimits.VersionDropsOnlyOnReassign | packages/db/src/incident-relation-repo/merge.ts:181-192 | An event lowers the recorded version if and only if it reassigns the thread and the version is above -1 |
| StatusPostLimits.VersionKeptBetweenReassignments | packages/db/src/surface-repo/binding.ts:324-341 | Over every run without a reassignment of the thread the recorded version never decreases |
| StatusPostLimits.VersionDropRun | packages/db/src/incident-relation-repo/split.ts:122-136 | A run in which the version of a recorded post drops |
| StatusPostLimits.RecordsUnderOwnAssignment | packages/db/src/surface-repo/binding.ts:324-341 | Only a delivery queued under the current assignment of the thread records a status post, and then the version of its own message, newer than the recorded one |
| StatusPostLimits.StaleVersionIsSilent | apps/surface-worker/src/fanout.ts:40-47 | A message not newer than the recorded post leaves the projection for good without a Slack call |
| StatusPostLimits.FencedAndStampedIsSafe | apps/surface-worker/src/fanout.ts:33-78 | A binding whose status posts come from fenced claims and are stamped never gets a second one |
| StatusPostLimits.UnstampedRun | packages/surfaces/src/slack.ts:435-442 | A run without any late claim in which an accepted post without a timestamp leads to a second status post |
| StatusPostLimits.LateClaimRun | apps/surface-worker/src/fanout.ts:312-314 | A run with stamped status posts in which a claim after lease expiry leads to a second one |
| StatusPostLimits.SecondStatusPostCondition | apps/surface-worker/src/fanout.ts:33-78 | On a binding, fenced claims and stamped answers of its own status posts together exclude a second one, and neither alone does |
| LeaseStore.RedisLock.Acquire | apps/surface-worker/src/lock.ts:16-20 | Set-if-absent: a fresh token and a full lease exactly if the key is absent or expired |
| LeaseStore.RedisLock.Renew | apps/surface-worker/src/lock.ts:21-23 | Extends exactly the lease that still has the token |
| LeaseStore.RedisLock.Release | apps/surface-worker/src/lock.ts:24-26 | Removes exactly the lease that still has the token |
| Destinations.KeyIsInjective | apps/surface-worker/src/fanout.ts:235 | Different targets never share a memo key |
| Destinations.Memo.MemoFor | apps/surface-worker/src/fanout-support.ts:16-34 | Never more than 10,000 entries; inserting past the limit drops the oldest and nothing else |
| Destinations.Memo.Resolve | apps/surface-worker/src/fanout.ts:230-281 | A resolved destination is the target's own binding with the token just read; the memo agrees with the binding table, a missing binding is not cached, a revoked token is always noticed |
| Destinations.Memo.Remember | apps/surface-worker/src/fanout.ts:243-244 | Only a binding that was found is memoized |
| Fanout.MessageFates | apps/surface-worker/src/fanout.ts:191-387 | After the fan-out of a message every visited row is exactly what its own scenario makes of it: blocked without an address, put off five seconds when deferred, and otherwise the outcome of its projection; the message is deferred, and the function throws, exactly if some visited destination makes it so |
| Fanout.VisitComesTo | apps/surface-worker/src/fanout.ts:221-384 | One visit ends as read off its scenario, for every fault of every call: row, Slack addressed, error escaped, lease kept |
| Fanout.RowsAreSafe | apps/surface-worker/src/fanout.ts:221-384 | Settled rows never change, Slack is addressed only for a due row nobody took, and a row is put off by what Slack asked for or by five seconds |
| Fanout.FatesAreIndependent | apps/surface-worker/src/fanout.ts:221-386 | Each visited destination ends exactly as if it were the only one, interference by other processes included, Slack is addressed at most once for it, and only an escaped error keeps later ones from their turn |
| Fanout.EscapeStops | apps/surface-worker/src/fanout.ts:221-384 | After an escaped error nothing more happens |
| Fanout.Worker.AcquireBlocking | apps/surface-worker/src/fanout-support.ts:41-49 | Wins exactly if the lease gets free within twenty tries; a loser waited two seconds |
| Fanout.Worker.ClaimDelivery | packages/db/src/surface-delivery-repo.ts:153-213 | Moves a due queued row to sending, or blocks the row of an archived incident |
| Fanout.Worker.BlockDelivery | packages/db/src/surface-delivery-repo.ts:317-344 | Only a queued row is blocked |
| Fanout.Worker.ScheduleRetry | packages/db/src/surface-delivery-repo.ts:226-260 | Only a row in the expected state is rescheduled |
| Fanout.Worker.FinishDelivery | packages/db/src/surface-delivery-repo.ts:270-307 | Only a sending row gets an outcome |
| Fanout.Worker.AttemptUnderLease | apps/surface-worker/src/fanout.ts:312-381 | Claim, projection and record under the lease, for every fault and with the claimed row interrupted or not |
| Fanout.Worker.Conclude | apps/surface-worker/src/fanout.ts:326-334 | An attempt whose lease lapsed or was not renewed is recorded uncertain even if its projection returned |
| Fanout.Worker.Catch | apps/surface-worker/src/fanout.ts:335-378 | The catch clause leaves the outcome the error calls for |
| Fanout.Worker.VisitTarget | apps/surface-worker/src/fanout.ts:221-384 | One iteration of the loop gives exactly one fate and touches no other row |
| Fanout.Worker.FanoutMessage | apps/surface-worker/src/fanout.ts:191-387 | The function returns false exactly if some destination was put back before its claim, and throws exactly if an unguarded call of a visited destination threw |
| FanoutInProtocol.CatchAgrees | apps/surface-worker/src/fanout.ts:335-378 | The catch clause is one enabled event of the protocol with the same effect on the row |
| FanoutInProtocol.OpeningFollowsProtocol | apps/surface-worker/src/fanout.ts:284-314 | Taking the lease and claiming, with every answer of the claim and others at work in between, is a possible run of the protocol |
| FanoutInProtocol.SweptOrSending | apps/surface-worker/src/index.ts:167-171 | Until its attempt records, a claimed row is still sending or was interrupted, however the projection ended and whatever else happened |
| FanoutInProtocol.ClosingFollowsProtocol | apps/surface-worker/src/fanout.ts:326-378 | From the end of the projection to the record, every step stays possible whatever others do between the steps, and the row ends as the fan-out leaves it, interrupted or not |
| FanoutInProtocol.LeavingFollowsProtocol | apps/surface-worker/src/fanout.ts:379-382 | The lease can be given back whatever others did before, and a settled row stays |
| FanoutInProtocol.VisitFollowsProtocol | apps/surface-worker/src/fanout.ts:284-382 | A whole visit, with any events of other processes between any two of its steps, is a run of the protocol, leaves the row of the fan-out, posts nothing after its projection and gives the lease back |
| OutboxScan.MessagesAreDistinct | apps/surface-worker/src/index.ts:178-198 | Each message of the scan gets one recovery, and only those messages do |
| OutboxScan.TargetsAreDistinct | apps/surface-worker/src/index.ts:178-198 | A recovery has exactly the message's destinations, none of them twice |
| OutboxScan.NothingIsLost | apps/surface-worker/src/index.ts:173-198 | The recoveries carry exactly the deliveries of the scan, message and destination, each as often as the scan has it |
| OutboxScan.Scan.Fill | apps/surface-worker/src/index.ts:174-198 | The map built in place holds the groups of the scan in order of first appearance, with the message's own tenant |
| OutboxScan.Recover | apps/surface-worker/src/index.ts:199-206 | Every recovery is fanned out even after one made progress, until one throws, and progress means that one was handled |
| StreamConsumer.HandlerRunsAreBounded | apps/surface-worker/src/consumer.ts:79-116 | However an entry is redelivered, its handler runs at most five times, five more for each lost store call or expired counter, and one more for each visit overlapping another; without faults five deferrals end it |
| StreamConsumer.BoundIsReached | apps/surface-worker/src/consumer.ts:96-115 | That bound is reached for every number of faults and overlaps |
| StreamConsumer.PendingExactly | apps/surface-worker/src/consumer.ts:79-116 | Without faults an entry is pending exactly while all its visits were deferred and fewer than five; its handler ran for every visit of an entry that had a message |
| StreamConsumer.ExpiryStartsAgain | apps/surface-worker/src/consumer.ts:92-97 | An entry whose counter expires after every fourth deferral is never given up |
| StreamConsumer.VisitTells | apps/surface-worker/src/consumer.ts:79-116 | A visit throws exactly on a store call it makes, and acknowledges exactly if it is the last and nothing threw |
| StreamConsumer.Group.CountRetry | apps/surface-worker/src/consumer.ts:92-97 | Seeding keeps an existing counter and counting adds one, for every fault |
| StreamConsumer.Group.Serve | apps/surface-worker/src/consumer.ts:80-116 | A malformed, handled or throwing entry is acknowledged, a deferred one until its fifth time not |
| StreamConsumer.Group.Tick | apps/surface-worker/src/consumer.ts:47-118 | Every entry of the batch is served as if alone, others stay as they are, and the count returned is the number of acknowledgements |
| SlackSaga.OnCleanPath | apps/api/src/surface-config.ts:186-258 | A fault, landed or not, never reaches a store that the fault-free list does not pass through |
| SlackSaga.TokensAlwaysHaveRow | apps/api/src/surface-config.ts:134-375 | At every step of every serialized run of PUT, test and DELETE, with faults anywhere including inside the rollback, a stored token implies the row |
| SlackSaga.ConnectKeepsRow | apps/api/src/surface-config.ts:186-258 | Same for one PUT and its rollback |
| SlackSaga.VerifyKeepsRow | apps/api/src/surface-config.ts:300-347 | Same for one test |
| SlackSaga.DeletionIsSteady | apps/api/src/surface-config.ts:352-373 | Same for one DELETE: secrets go before the row |
| SlackSaga.OkMeansConnected | apps/api/src/surface-config.ts:134-297 | A PUT answering ok leaves the row and both tokens, each the entered one or else the stored one, for all combinations |
| SlackSaga.RefusedChangesNothing | apps/api/src/surface-config.ts:135-184 | A PUT refused before it writes changes nothing |
| SlackSaga.PutAnswers | apps/api/src/surface-config.ts:134-297 | Which answer a PUT gives, for every store and every fault: by the first thing that is wrong, and by which write throws first |
| SlackSaga.TestOnlyRefreshes | apps/api/src/surface-config.ts:300-347 | A test changes nothing but the identity on a row that is there, and answers by the first thing that is wrong |
| SlackSaga.DeleteAnswers | apps/api/src/surface-config.ts:352-375 | A DELETE answers ok exactly if none of its awaits threw |
| SlackSaga.FailedIsUndone | apps/api/src/surface-config.ts:208-277 | A PUT that failed while writing and rolled back restores row and tokens if and only if there was a row or no token without one, hence always when tokens have rows |
| SlackSaga.SocketAfterRollback | apps/api/src/surface-config.ts:204-247 | After a rolled-back PUT the sockets are as before if and only if there was no row, or the socket start did not take effect, or the old socket ran with that token |
| SlackSaga.SocketLeftOnNewToken | apps/api/src/surface-config.ts:204-241 | A run in which a start that failed after taking effect leaves the socket on a token no longer stored |
| SlackSaga.TakenChangesNothing | apps/api/src/surface-config.ts:186-225 | Since only the row can violate a unique key, every 409 leaves the whole store as it was |
| SlackSaga.TakenIsNotUndone | apps/api/src/surface-config.ts:216-225 | Whichever write were refused: a 409 leaves row and tokens as they were if and only if every write that took effect put what was there already |
| SlackSaga.LateConflictRun | apps/api/src/surface-config.ts:216-225 | A run in which a conflict raised by a later write would leave the new identity |
| SlackSaga.DeleteCanBeRepeated | apps/api/src/surface-config.ts:352-375 | After any failed DELETEs one that runs through ends in the same fully disconnected store as a first one would |
| SlackSaga.ErasedIsDisconnected | packages/db/src/surface-repo/config.ts:183-211 | In that store there is no row, secret, channel or socket of the connection, a queued delivery is blocked, one being sent is uncertain, and settled ones and other sockets are untouched |
| SlackSaga.AttemptsKeepErased | apps/api/src/surface-config.ts:360-372 | A failed DELETE leaves exactly as much to erase as there was |
| SlackSaga.Tenant.HandlePut | apps/api/src/surface-config.ts:134-297 | The handler passes through exactly the stores of the specification and gives its answer, for every fault |
| SlackSaga.Tenant.HandleTest | apps/api/src/surface-config.ts:300-347 | Same for the test |
| SlackSaga.Tenant.HandleDelete | apps/api/src/surface-config.ts:352-375 | Same for DELETE |
| SlackSaga.Tenant.Save | apps/api/src/surface-config.ts:186-207 | The try block, with the stage it failed at and whether the row was known |
| SlackSaga.Tenant.Undo | apps/api/src/surface-config.ts:227-257 | The catch block, up to its own first error |
| SlackSaga.Tenant.Erase | apps/api/src/surface-config.ts:367-372 | The three secrets and then the row, up to the first error |
| Serializer.RunKeeps | apps/api/src/connectors.ts:36-54 | In every schedule each submission waits for the one right before it on its key, and the map holds the last one until it was cleaned up after |
| Serializer.OneAtATimeInOrder | apps/api/src/surface-config.ts:77-91 | Operations of one key never overlap and start in submission order |
| Serializer.OldestIsNotStuck | apps/api/src/connectors.ts:43-48 | The oldest unsettled operation of a key can always go on, whether earlier ones were fulfilled or rejected |
| Serializer.AbsentMeansSettled | apps/api/src/connectors.ts:153 | No mutation is reported pending on a key only if everything submitted on it settled |
| Serializer.PresentUntilCleaned | apps/api/src/connectors.ts:49-52 | A key is in the map exactly until its last operation was cleaned up after |
| Serializer.QuietMeansAbsent | apps/api/src/connectors.ts:50-52 | The map forgets a key once everything on it was cleaned up after |
| Serializer.EndsAsItsOperation | apps/api/src/connectors.ts:43-48 | A submission ends fulfilled or rejected as its own operation did, however earlier ones ended |
| Serializer.CompletesOnce | apps/api/src/connectors.ts:43-48 | An operation is never reported both ways |
| Serializer.KeysApart | apps/api/src/connectors.ts:42 | Two tenants or two kinds of mutation never share a queue |
| Serializer.Queue.Serialize | apps/api/src/surface-config.ts:78-91 | A submission chains on the map's promise for its key and takes its place |
| Serializer.Queue.Advance | apps/api/src/connectors.ts:44-48 | An operation starts, settles and passes that on one step at a time, without touching the map |
| Serializer.Queue.Cleanup | apps/api/src/surface-config.ts:87-89 | Only the last submission of a key takes the entry out |
| WindowGuard.DefaultTtlSec | apps/triage-worker/src/poller.ts:262 | The default time to live is the least number of seconds covering the interval, and at least one |
| WindowGuard.WinsAreApart | apps/triage-worker/src/poller.ts:243-248 | Two wins of one window are a time to live apart, however late the calls came |
| WindowGuard.TtlMustCoverInterval | apps/triage-worker/src/poller.ts:255-265 | For calls that stay in their window, no window is won twice if and only if the time to live covers the interval |
| WindowGuard.DefaultTtlCovers | apps/triage-worker/src/poller.ts:299-302 | With the default time to live no window is ever won twice |
| WindowGuard.WonTwiceExactly | apps/triage-worker/src/poller.ts:243-265 | In any run and for every time to live a window is won twice if and only if two calls for it reach the store a time to live apart |
| WindowGuard.LateCallWinsAgain | apps/triage-worker/src/poller.ts:255-265 | A window called again a time to live later has been won twice by then, whoever else called in between |
| WindowGuard.Guard.Enter | apps/triage-worker/src/poller.ts:243-248 | Set-if-absent admits exactly the callers of the history-based definition |
| Schedulers.ItemsAreEligible | apps/triage-worker/src/poller.ts:308-314 | A tenant's items are exactly the connectors to serve, each once: pollable ones and those whose alert episodes are read, or for discovery those with a topology |
| Schedulers.OneJobEach | apps/triage-worker/src/poller.ts:304-322 | Every item of every tenant gets exactly one job and nothing else gets one |
| Schedulers.OneJobPerWindow | apps/triage-worker/src/poller.ts:297-324 | Over all replicas and ticks no item gets two jobs in one window |
| Schedulers.WinnerServesAll | apps/triage-worker/src/poller.ts:302-322 | The winner of a window gives a job to exactly the items it finds, unless an error cuts it short |
| Schedulers.PollScheduler.Tick | apps/triage-worker/src/poller.ts:297-324 | A won window dispatches the jobs in order, up to the first dispatch or read that throws; a lost one dispatches nothing |
| Schedulers.PollScheduler.FanOut | apps/triage-worker/src/poller.ts:304-323 | The nested loops enqueue the jobs of the flat definition |
| Schedulers.SloScheduler.Tick | apps/triage-worker/src/slo-scheduler.ts:221-252 | All jobs of a window are enqueued before any tenant is swept, and a swept window sweeps every tenant once |
| Schedulers.SloScheduler.SweepAll | apps/triage-worker/src/slo-scheduler.ts:247-250 | Every tenant is swept in order whatever other sweeps do |
| Schedulers.SweepsEveryTenant | apps/triage-worker/src/slo-scheduler.ts:239-252 | A swept window sweeps each tenant once, in order, after all its jobs |
| EngineLock.RunsKeepTheirLock | apps/triage-worker/src/worker/runtime.ts:32-40 | In every run, with crashes and late releases, a live engine run still has its lock if runs are shorter than the time to live |
| EngineLock.TtlMustOutliveRuns | apps/triage-worker/src/lock.ts:23-38 | At most one engine run per incident is live at any time if and only if the time to live is above the longest run |
| EngineLock.ProductionExcludes | apps/triage-worker/src/index.ts:188 | The configured time to live excludes for every job ceiling and grace |
| EngineLock.LockOutlivesRunByAMinute | apps/triage-worker/src/index.ts:188 | With the production time to live a live run is always at least a minute from losing its lock |
| EngineLock.LockEndsWithItsRun | apps/triage-worker/src/lock.ts:23-38 | A held lock ends with time or with its own run's release, which frees the incident at once; a run that dies leaves it to expire |
| EngineLock.LateReleaseIsHarmless | apps/triage-worker/src/lock.ts:23-36 | A late release leaves every later run's lock alone |
| SnapshotPoller.ExpiryFollowsWrites | packages/queue/src/snapshot-cache.ts:57-59 | The cached set expires a time to live after the last write, failed reads included |
| SnapshotPoller.StoresLastPublished | apps/triage-worker/src/poller.ts:132-205 | The stored set is the last successful non-empty read, or the failure marker, whatever failed since |
| SnapshotPoller.ShowsLastGood | apps/triage-worker/src/poller.ts:132-226 | While writes are less than the time to live apart the panel shows the last good set and it never expires |
| SnapshotPoller.ShowsMarkerFirst | apps/triage-worker/src/poller.ts:184-205 | Before any successful read the panel shows the failure marker as soon as a read failed |
| SnapshotPoller.OnlySuccessReplaces | apps/triage-worker/src/poller.ts:165-205 | A visible non-empty set is replaced only by a successful read, and a failed one renews it |
| SnapshotPoller.ForgetsOnceExpired | apps/triage-worker/src/poller.ts:191-205 | A failed read keeps the last good set if and only if it comes before the set expired |
| SnapshotPoller.Poller.HandleJob | apps/triage-worker/src/poller.ts:99-227 | The handler leaves the cache of the specification for every fault, and fails exactly if a step before the read threw or the fallback's own cache calls did |
| LocalSession.RunKeeps | apps/dashboard/src/local-session.ts:58-72 | In every interleaving revisions count the changes, stored responses match the revision they captured, and open renewals have distinct revisions |
| LocalSession.NothingChangedMeanwhile | apps/dashboard/src/local-development-session.ts:42-48 | A response is stored only if no session change happened since its request captured the revision |
| LocalSession.ChangeCancelsEarlierRequests | apps/dashboard/src/local-development-session.ts:41-64 | After a sign-out or any other change no earlier request restores a session |
| LocalSession.AcceptedMeansStored | apps/dashboard/src/local-development-session.ts:50-64 | A request reports success if and only if its response was stored |
| LocalSession.OneRenewalPerRevision | apps/dashboard/src/local-development-session.ts:66-82 | No two renewals under way at once have one revision |
| LocalSession.RenewalJoins | apps/dashboard/src/local-development-session.ts:68-71 | A renewal asked for while one of the same revision is under way joins that one |
| LocalSession.RenewalStarts | apps/dashboard/src/local-development-session.ts:66-82 | A renewal starts a request exactly if there is a session and none of the present revision is under way |
| LocalSession.HoldsLatest | apps/dashboard/src/local-session.ts:58-60 | In every run the page holds the session of the last change, or of the storage when there was none |
| LocalSession.SignOutHolds | apps/dashboard/src/local-session.ts:58-69 | After a sign-out without a later change there is no session and a renewal starts nothing |
| LocalSession.SignOutIsFinal | apps/dashboard/src/local-development-session.ts:41-64 | A session held after a sign-out was chosen later or answers a request made later, never one made before |
| LocalSession.OutcomeIsExplained | apps/dashboard/src/local-development-session.ts:41-82 | What a request reports is decided by one event, for sign-ins and renewals and every answer |
| LocalSession.Page.RenewSession | apps/dashboard/src/local-development-session.ts:67-82 | Returns nothing without a session, the running request, or a new one, and changes no more |
| LocalSession.Page.AcceptReply | apps/dashboard/src/local-development-session.ts:42-76 | Stores the session or leaves the page alone, for both callers and every reply |
| LocalSession.Page.RunFinally | apps/dashboard/src/local-development-session.ts:77-79 | Clears the pending renewal only if it is still this request's |
| ToolNames.DecodeEncode | packages/agent-tools/src/connector-tools.ts:13 | Unpadded base64url of any bytes decodes to those bytes |
| ToolNames.KnownEncodings | packages/agent-tools/src/connector-tools.ts:13 | The encoding agrees with the vectors of RFC 4648, section 10, and its URL-safe digits |
| ToolNames.KeyHoldsId | packages/agent-tools/src/connector-tools.ts:11-14 | A key has 22 digits and decodes to the sixteen bytes that the id writes in hexadecimal |
| ToolNames.KeyNamesId | packages/agent-tools/src/connector-tools.ts:4-14 | Two ids have one key if and only if they are the same UUID ignoring case |
| ToolNames.NameHasOneReading | packages/agent-tools/src/connector-tools.ts:24-30 | A name with an underscore-free type and a 22-digit key has one reading |
| ToolNames.NamesAreDistinct | packages/agent-tools/src/connector-tools.ts:22-39 | Bound names are equal if and only if type, connector id and tool are |
| ToolNames.UnderscoreBreaksReading | packages/agent-tools/src/connector-tools.ts:24-30 | With an underscore in the type two connectors can share a name |
| ToolNames.ConnectorTools | packages/agent-tools/src/connector-tools.ts:22-39 | Binds distinct names in order, or fails on a malformed id or on the first repeated name |
| Usage.RoundingKeepsSafety | apps/triage-worker/src/llm-runtime.ts:83-99 | A rounded sum of safe counts is safe if and only if the exact sum is, and is then exact |
| Usage.InvalidityStays | apps/triage-worker/src/llm-runtime.ts:95-105 | What was counted stays counted and an invalid total stays invalid |
| Usage.KeptStep | apps/triage-worker/src/llm-runtime.ts:79-112 | A sample counts exactly if it is well formed and no exact total leaves the safe range |
| Usage.TotalsAreColumns | apps/triage-worker/src/llm-runtime.ts:79-112 | Every total is the sum of its own column of the samples that count, a sample without a request count standing for one |
| Usage.UncountedIsOne | apps/triage-worker/src/llm-runtime.ts:79-84 | A sample without a request count is judged and counted as one that says one |
| Usage.EverySampleWeighs | apps/triage-worker/src/llm-runtime.ts:81-102 | Every sample that counts stands for a request and a token, and the cost is what the priced ones cost together |
| Usage.UsageCollector.Judge | apps/triage-worker/src/llm-runtime.ts:81-102 | The check on rounded doubles rejects exactly the samples that exact arithmetic rejects |
| Usage.UsageCollector.Add | apps/triage-worker/src/llm-runtime.ts:79-112 | The totals stay the exact sums over the accepted samples; a rejected sample changes no count |
| Usage.UsageCollector.SetTelemetryComplete | apps/triage-worker/src/llm-runtime.ts:114-116 | Sets the flag and leaves totals, cost and validity as the samples have them |
| Usage.UsageCollector.Snapshot | apps/triage-worker/src/llm-runtime.ts:118-124 | Every total is a safe integer, and an invalid total hides its cost but not its counts |

## Left out

- Message wording, links, author labels, action blocks, logging and telemetry: content is opaque, and only whose content a post shows, and in which form, is modelled.
- Whether a kind is mirrored and by which author (`shouldMirrorToSurfaces`): the model accepts every message, also agent narration that the hub currently keeps in the dashboard.
- The protocol's stale sweep and disconnects may come at any time, also earlier than their 120 seconds or their user would; its claims may also fail for no modelled reason, which covers rows not yet due and archived incidents. Runs the code cannot have are thereby included, so the safety theorems hold of more than the code.
- Slack thread content inside the protocol: the protocol counts accepted posts; what they show is proved for undisturbed conversations in `SerialProjection` and `ThreadRendering` only.
- Tenants and row-level security: all rows, bindings and keys of the model belong to whoever the scenario says.
- ThreadRendering.ThreadIsRendering: is about deliveries that meet no mishap; messages of one conversation are handled one per tick, so every post has its own number.
- Conversation.BoundThread.AdvanceStatusPost: the check of incident and assignment is the mishap `Outdated` of the call, not a field of the thread.
- AtMostOnce.ProjectionIsNeverStuck: says that a run can be continued, not that a scheduler continues it; no liveness is claimed anywhere.
- Fanout.Worker.FanoutMessage: takes a fresh worker record per message and distinct bindings, which the unique constraint in packages/db/src/schema/surface-deliveries.ts:64 provides. Other processes may change a row before its visit and between claim and record; what they do between resolving and claiming counts as before the visit.
- FanoutInProtocol.VisitFollowsProtocol: resolving the destination and waiting for the lease have no event in the protocol; the statements of a claim that finds an archived incident are one transaction.
- SerialProjection.ProjectionIsSerial: speaks of conversations none of whose own calls failed and none of whose rows was swept or reassigned; after a fault the order of awaits holds (`AwaitsInLeaseOrder`), not the rendering.
- Destinations.Memo.Resolve: two deliveries resolving at once are not interleaved; they could only memoize the same immutable binding.
- StreamConsumer.HandlerRunsAreBounded: counts an expired retry counter as a fault and a crashed visit as one that never ends; the hour and the idle minute they take are not modelled.
- SlackSaga.OkMeansConnected: the socket manager and the Slack validation calls are parameters; a socket start either took effect or did not.
- Serializer.OneAtATimeInOrder: microtasks may run in any order the promises allow, which includes every order the engine produces.
- WindowGuard.TtlMustCoverInterval: replicas and key store share one clock; skew between them is not modelled.
- EngineLock.TtlMustOutliveRuns: that a run ends within the job ceiling plus the grace is a guard on the clock step, enforced elsewhere.
- SnapshotPoller.ShowsLastGood: observation times, telemetry and the sub-steps before the read (lifecycle reconciliation, hook reconciliation) appear only as a job that broke before the read or a read that threw.
- LocalSession.RunKeeps: storage in the browser, listeners, the memoized capability probe and the retry of a failed probe are left out; the probe's answer is an event.
- ToolNames.ConnectorTools: descriptions, schemas and handlers of the tools are left out.
- Usage.UsageCollector.Add: provider costs are exact reals here; rounding and overflow of the cost total are not modelled.
- Slack, Valkey and Postgres clients, the transport of webhooks, JSON and request validation.
- React components, prompts, generators, grading, postmortem and runbook consumers, tunnels and onboarding: rules over models, libraries or user interface.
- Approval decisions, auto-archive and the signal-maintenance sweep: with their transactions taken as atomic they would add only easy members.
