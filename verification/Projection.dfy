/**
 The projection of one hub message onto one bound conversation: `applyToSurface` in
 apps/surface-worker/src/fanout.ts. This module cuts that function at its awaits: a `Phase` is the
 await it is suspended at, `CallOf` the port call it made there and `Resume` what it does with the
 answer. The delivery protocol interleaves these phases; the conversation module runs them alone.
 */
module Projection {
  import opened Prelude

  datatype Author = Agent | System | Human

  datatype Kind =
    | Text | ToolStep | Reply | ClarificationRequest | DegradedReask | Finding | Silent
    | Approval | Lifecycle | Relationship | Postmortem | Status

  datatype Message = Message(id: nat, author: Author, kind: Kind, version: Option<int>, origin: Option<string>)

  /** The conversation a delivery is bound to. */
  datatype Place = Place(surface: string, channel: string, thread: string)

  datatype Link = NoLink | IncidentLink | PostmortemLink

  /** What a post shows. Wording is not modelled, only whose content it is and in which form. */
  datatype Shown = Activity(msg: Message) | Body(msg: Message, link: Link) | Received(msg: Message)

  datatype Operation = Posted | Updated | Deleted | Composite

  datatype Result = Result(operation: Operation, remote: Option<nat>, skipped: bool)

  /** `SlackApiError.certainty`. */
  datatype Certainty = Refused | Retryable | Unclear

  datatype Error = ProjectionBlocked | SlackFailed(certainty: Certainty) | Unexpected

  datatype Phase =
    | ReadStatus
    | CheckAmbiguous
    | PostStatus
    | AdvanceCreated(post: nat)
    | UpdateStatus(post: nat)
    | AdvanceUpdated(post: nat)
    | ReadWorking
    | UpdateWorking(post: nat)
    | ClearUpdated(post: nat)
    | DeleteWorking(post: nat)
    | ClearDeleted
    | PostNarration
    | SetWorking(post: nat)
    | PostOwn(link: Link)
    | Returned(result: Result)
    | Threw(error: Error)

  datatype Call =
    | GetStatusPost
    | HasAmbiguousCreation
    | GetWorkingPost
    | Post(shown: Shown)
    | Update(post: nat, shown: Shown)
    | Delete(post: nat)
    | SetWorkingPost(post: nat)
    | ClearWorkingPost
    | AdvanceStatusPost(post: nat, version: int)

  predicate IsSlackCall(c: Call) {
    c.Post? || c.Update? || c.Delete?
  }

  datatype Answer =
    | StatusPost(current: Option<nat>, version: int)
    | NoBinding
    | Flag(value: bool)
    | WorkingPost(current: Option<nat>)
    | Stamp(post: nat)
    | Done
    | SlackError(failure: Certainty)
    | StoreError

  /** An origin id naming another thread of this channel hands the conversation off. */
  predicate HandsOff(place: Place, m: Message) {
    m.origin.Some? &&
    var prefix := "correlated-source:" + place.surface + ":" + place.channel + ":";
    prefix <= m.origin.value && m.origin.value != prefix + place.thread
  }

  /** Messages that never touch the working post of an agent turn, except to end it. */
  predicate Standalone(m: Message) {
    !m.author.Agent? || m.kind.Approval?
  }

  predicate Narrates(m: Message) {
    !m.kind.Lifecycle? && !Standalone(m) && (m.kind.Text? || m.kind.ToolStep?)
  }

  predicate Concludes(m: Message) {
    !m.kind.Lifecycle? && !Standalone(m) && (m.kind.Reply? || m.kind.Finding?)
  }

  function Start(place: Place, m: Message): Phase {
    if m.kind.Lifecycle? then
      if m.version.None? then Threw(Unexpected) else ReadStatus
    else if Standalone(m) then
      if m.kind.Postmortem? then PostOwn(PostmortemLink)
      else if m.kind.Relationship? then
        if HandsOff(place, m) then ReadWorking else PostOwn(IncidentLink)
      else if m.kind.Finding? then ReadWorking
      else PostOwn(NoLink)
    else ReadWorking
  }

  /** What the message shows when it replaces the content of the working post. */
  function Replacement(m: Message): Shown {
    if Narrates(m) then Activity(m)
    else if Standalone(m) || Concludes(m) then Body(m, IncidentLink)
    else Received(m)
  }

  predicate StatusPhase(p: Phase) {
    p.ReadStatus? || p.CheckAmbiguous? || p.PostStatus? || p.AdvanceCreated? || p.UpdateStatus? || p.AdvanceUpdated?
  }

  /** Phases the projection of `m` can be suspended at. */
  predicate Fits(m: Message, p: Phase) {
    && !p.Returned? && !p.Threw?
    && (StatusPhase(p) <==> m.kind.Lifecycle?)
    && (m.kind.Lifecycle? ==> m.version.Some?)
  }

  function CallOf(m: Message, p: Phase): Call
    requires !p.Returned? && !p.Threw?
    requires p.AdvanceCreated? || p.AdvanceUpdated? ==> m.version.Some?
  {
    match p
    case ReadStatus => GetStatusPost
    case CheckAmbiguous => HasAmbiguousCreation
    case PostStatus => Post(Body(m, IncidentLink))
    case AdvanceCreated(post) => AdvanceStatusPost(post, m.version.value)
    case UpdateStatus(post) => Update(post, Body(m, IncidentLink))
    case AdvanceUpdated(post) => AdvanceStatusPost(post, m.version.value)
    case ReadWorking => GetWorkingPost
    case UpdateWorking(post) => Update(post, Replacement(m))
    case ClearUpdated(_) => ClearWorkingPost
    case DeleteWorking(post) => Delete(post)
    case ClearDeleted => ClearWorkingPost
    case PostNarration => Post(Activity(m))
    case SetWorking(post) => SetWorkingPost(post)
    case PostOwn(link) => Post(Body(m, link))
  }

  /** Continues after an await. A store failure or an answer of the wrong shape is an unexpected error. */
  function Resume(m: Message, p: Phase, answer: Answer): Phase
    requires !p.Returned? && !p.Threw?
    requires m.kind.Lifecycle? ==> m.version.Some?
  {
    match (p, answer)
    case (_, SlackError(certainty)) => Threw(SlackFailed(certainty))
    case (ReadStatus, StatusPost(Some(post), version)) =>
      if !m.kind.Lifecycle? then Threw(Unexpected)
      else if version >= m.version.value then Returned(Result(Updated, Some(post), true))
      else UpdateStatus(post)
    case (ReadStatus, StatusPost(None, _)) => CheckAmbiguous
    case (CheckAmbiguous, Flag(ambiguous)) => if ambiguous then Threw(ProjectionBlocked) else PostStatus
    case (PostStatus, Stamp(post)) => AdvanceCreated(post)
    case (AdvanceCreated(post), Flag(advanced)) =>
      if advanced then Returned(Result(Posted, Some(post), false)) else Threw(Unexpected)
    case (UpdateStatus(post), Done) => AdvanceUpdated(post)
    case (AdvanceUpdated(post), Flag(advanced)) =>
      if advanced then Returned(Result(Updated, Some(post), false)) else Threw(Unexpected)
    case (ReadWorking, WorkingPost(Some(post))) =>
      if Standalone(m) && m.kind.Finding? then DeleteWorking(post) else UpdateWorking(post)
    case (ReadWorking, WorkingPost(None)) =>
      if Standalone(m) then PostOwn(if m.kind.Finding? then NoLink else IncidentLink)
      else if Narrates(m) then PostNarration
      else if Concludes(m) then PostOwn(IncidentLink)
      else Returned(Result(Deleted, None, true))
    case (UpdateWorking(post), Done) =>
      if Narrates(m) then Returned(Result(Updated, Some(post), false)) else ClearUpdated(post)
    case (ClearUpdated(post), Done) => Returned(Result(Updated, Some(post), false))
    case (DeleteWorking(_), Done) => ClearDeleted
    case (ClearDeleted, Done) => PostOwn(NoLink)
    case (PostNarration, Stamp(post)) => SetWorking(post)
    case (SetWorking(post), Done) => Returned(Result(Posted, Some(post), false))
    case (PostOwn(_), Stamp(post)) =>
      Returned(Result(if Standalone(m) && m.kind.Finding? then Composite else Posted, Some(post), false))
    case (_, _) => Threw(Unexpected)
  }
}
