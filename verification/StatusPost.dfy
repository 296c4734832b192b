/**
 The lifecycle status post of a binding. The row claim is the flag and the ambiguity check reads the
 other flags, so two attempts cannot both pass it; what is left is an attempt that read "no post yet"
 before another one recorded its post and finished. An attempt that still held the lease when it
 claimed cannot be that one: whatever other attempts do, it never posts after a post it could know of.
 */
module StatusPost {
  import opened Prelude
  import opened Projection
  import opened Deliveries
  import opened LeaseStore
  import opened DeliveryProtocol
  import A = AtMostOnce

  /** A status post Slack holds for `b`, whether or not the worker learnt its timestamp. */
  predicate IsStatus(e: Creation, b: nat) {
    e.lifecycle && !e.misread && e.binding == b
  }

  ghost predicate On(s: State, a: nat, b: nat) {
    a in s.attempts && s.attempts[a].row in s.rows && s.rows[s.attempts[a].row].binding == b &&
    s.rows[s.attempts[a].row].msg.kind.Lifecycle?
  }

  predicate Reading(stage: Stage) {
    stage == Applying(ReadStatus) || stage == Applying(CheckAmbiguous)
  }

  predicate Creating(stage: Stage) {
    stage == Applying(PostStatus) || ((stage.Applying? || stage.Renewing?) && A.AfterPost(stage))
  }

  /** `a` did not claim its row after it had lost its lease. */
  ghost predicate OnTime(s: State, a: nat) {
    a !in s.lateClaims
  }

  /** What the attempt that created `e` can still do about it. */
  predicate Tracks(stage: Stage, recorded: Option<nat>, e: Creation) {
    match stage
    case Applying(p) => p == AdvanceCreated(e.post)
    case Renewing(_) => recorded.Some?
    case Finishing(outcome) => outcome.Uncertain? || (outcome.Accepted? && recorded.Some?)
    case Releasing => true
    case Gone => true
    case _ => false
  }

  /** Some post is recorded on the binding, or the row of each post stays `sending` or `uncertain`. */
  ghost predicate Known(s: State, b: nat)
    requires b in s.bindings
  {
    forall i | 0 <= i < |s.creations| && IsStatus(s.creations[i], b) ::
      var e := s.creations[i];
      && e.attempt in s.attempts && e.row in s.rows
      && (s.bindings[b].statusPost.Some? || InFlight(s.rows[e.row].state))
      && Tracks(s.attempts[e.attempt].stage, s.bindings[b].statusPost, e)
  }

  /** A status post after one Slack acknowledged with its timestamp is the work of a late claim. */
  ghost predicate Ordered(s: State, b: nat) {
    forall i, j | 0 <= i < j < |s.creations| ::
      IsStatus(s.creations[i], b) && s.creations[j].lifecycle && s.creations[j].binding == b ==>
        !OnTime(s, s.creations[j].attempt)
  }

  ghost predicate Created(s: State, b: nat, post: nat) {
    exists i | 0 <= i < |s.creations| :: IsStatus(s.creations[i], b) && s.creations[i].post == post
  }

  /** The recorded post, and the post an attempt advances or updates, was created here. */
  ghost predicate Grounded(s: State, b: nat)
    requires b in s.bindings
  {
    && (s.bindings[b].statusPost.Some? ==> Created(s, b, s.bindings[b].statusPost.value))
    && (forall a | On(s, a, b) && s.attempts[a].stage.Applying? ::
          var p := s.attempts[a].stage.phase;
          p.AdvanceCreated? || p.UpdateStatus? || p.AdvanceUpdated? ==> Created(s, b, p.post))
  }

  ghost predicate Exclusive(s: State, b: nat) {
    && (forall a, i | On(s, a, b) && OnTime(s, a) && 0 <= i < |s.creations| ::
          s.attempts[a].stage == Applying(PostStatus) ==> !IsStatus(s.creations[i], b))
    && (forall a, c | On(s, a, b) && On(s, c, b) ::
          s.attempts[a].stage == Applying(PostStatus) && s.attempts[c].stage == Applying(PostStatus) ==> a == c)
    && (forall a, c | On(s, a, b) && OnTime(s, a) && On(s, c, b) && a != c ::
          Reading(s.attempts[a].stage) && Creating(s.attempts[c].stage) ==>
            b !in s.leases || s.leases[b].token != c)
  }

  /** An attempt about to check for ambiguity, if on time, will find any status post created since its read. */
  ghost predicate Visible(s: State, b: nat) {
    forall a, i | On(s, a, b) && OnTime(s, a) && 0 <= i < |s.creations| ::
      s.attempts[a].stage == Applying(CheckAmbiguous) && IsStatus(s.creations[i], b) ==>
        && s.creations[i].row in s.rows && InFlight(s.rows[s.creations[i].row].state)
        && s.creations[i].attempt in s.attempts
        && s.attempts[s.creations[i].attempt].stage != Finishing(Accepted)
  }

  ghost predicate Inv(s: State, b: nat) {
    b in s.bindings && Known(s, b) && Ordered(s, b) && Grounded(s, b) && Exclusive(s, b) && Visible(s, b)
  }

  // ---------------------------------------------------------------------------------------------
  // Steps that create nothing, record nothing and bring no attempt into the status projection

  predicate Outside(stage: Stage) {
    !Reading(stage) && !Creating(stage) && !(stage.Applying? && StatusPhase(stage.phase))
  }

  ghost predicate SameStatus(s: State, s': State, b: nat) {
    && b in s.bindings && b in s'.bindings && s'.bindings[b].statusPost == s.bindings[b].statusPost
    && s'.creations == s.creations && s.lateClaims <= s'.lateClaims
    && (b in s'.leases ==> (b in s.leases && s'.leases[b].token == s.leases[b].token) || s'.leases[b].token !in s.attempts)
  }

  ghost predicate Quiet(s: State, s': State, a: nat, b: nat) {
    && SameStatus(s, s', b) && A.OnlyAttempt(s, s', a)
    && (On(s, a, b) && s'.attempts[a].stage != s.attempts[a].stage ==>
          && Outside(s'.attempts[a].stage) && s'.attempts[a].stage != Finishing(Accepted)
          && (A.AfterPost(s.attempts[a].stage) ==>
                s'.attempts[a].stage == Finishing(Uncertain) || s'.attempts[a].stage.Releasing? ||
                s'.attempts[a].stage.Gone?))
    && (On(s, a, b) && InFlight(s.rows[s.attempts[a].row].state) && !InFlight(s'.rows[s.attempts[a].row].state) ==>
          s.attempts[a].claimed && !A.AfterPost(s.attempts[a].stage))
  }

  lemma QuietKnown(s: State, s': State, a: nat, b: nat)
    requires A.Inv(s) && b in s.bindings && Known(s, b) && Quiet(s, s', a, b)
    ensures Known(s', b)
  {
    hide A.Typed;
    forall i | 0 <= i < |s'.creations| && IsStatus(s'.creations[i], b)
      ensures var e := s'.creations[i];
        && e.attempt in s'.attempts && e.row in s'.rows
        && (s'.bindings[b].statusPost.Some? || InFlight(s'.rows[e.row].state))
        && Tracks(s'.attempts[e.attempt].stage, s'.bindings[b].statusPost, e)
    {
      assert A.Accounted(s.rows, s.attempts, s.creations[i]);
    }
  }

  lemma QuietGrounded(s: State, s': State, a: nat, b: nat)
    requires b in s.bindings && Grounded(s, b) && Quiet(s, s', a, b)
    ensures Grounded(s', b)
  {
    CreatedStays(s, s', b);
    hide Created;
  }

  lemma CreatedStays(s: State, s': State, b: nat)
    requires s.creations <= s'.creations
    ensures forall post | Created(s, b, post) :: Created(s', b, post)
  {
    forall post | Created(s, b, post) ensures Created(s', b, post) {
      var i :| 0 <= i < |s.creations| && IsStatus(s.creations[i], b) && s.creations[i].post == post;
      assert s'.creations[i] == s.creations[i];
    }
  }

  lemma QuietExclusive(s: State, s': State, a: nat, b: nat)
    requires Exclusive(s, b) && Quiet(s, s', a, b)
    ensures Exclusive(s', b)
  {
  }

  lemma QuietVisible(s: State, s': State, a: nat, b: nat)
    requires A.Inv(s) && Visible(s, b) && Quiet(s, s', a, b)
    ensures Visible(s', b)
  {
    hide A.Typed;
    forall c, i | On(s', c, b) && OnTime(s', c) && 0 <= i < |s'.creations| &&
        s'.attempts[c].stage == Applying(CheckAmbiguous) && IsStatus(s'.creations[i], b)
      ensures s'.creations[i].row in s'.rows && InFlight(s'.rows[s'.creations[i].row].state)
      ensures s'.creations[i].attempt in s'.attempts
      ensures s'.attempts[s'.creations[i].attempt].stage != Finishing(Accepted)
    {
      assert On(s, c, b) && A.Accounted(s.rows, s.attempts, s.creations[i]);
    }
  }

  lemma QuietAttempt(s: State, s': State, a: nat, b: nat)
    requires A.Inv(s) && Inv(s, b) && Quiet(s, s', a, b)
    ensures Inv(s', b)
  {
    hide A.Inv, Known, Grounded, Exclusive, Visible;
    QuietKnown(s, s', a, b);
    QuietGrounded(s, s', a, b);
    QuietExclusive(s, s', a, b);
    QuietVisible(s, s', a, b);
  }

  /** New rows, bindings and attempts, a row nobody owns being blocked, a row in flight being interrupted. */
  ghost predicate TableMoves(s: State, s': State, b: nat) {
    && SameStatus(s, s', b)
    && (forall r | r in s.rows ::
          && r in s'.rows && s'.rows[r] == s.rows[r].(state := s'.rows[r].state)
          && (InFlight(s.rows[r].state) ==> InFlight(s'.rows[r].state)))
    && (forall a | a in s.attempts :: a in s'.attempts && s'.attempts[a] == s.attempts[a])
    && (forall a | a in s'.attempts && a !in s.attempts :: s'.attempts[a].stage.Leased?)
  }

  lemma TableKeepsGrounded(s: State, s': State, b: nat)
    requires A.Inv(s) && b in s.bindings && Grounded(s, b) && TableMoves(s, s', b)
    ensures Grounded(s', b)
  {
    hide A.Owned, A.Logged;
    CreatedStays(s, s', b);
    hide Created;
  }

  lemma TableKeepsExclusive(s: State, s': State, b: nat)
    requires A.Inv(s) && Exclusive(s, b) && TableMoves(s, s', b)
    ensures Exclusive(s', b)
  {
    hide A.Owned, A.Logged;
    forall a | On(s', a, b) && !s'.attempts[a].stage.Leased? ensures On(s, a, b) {
    }
  }

  lemma TableKeeps(s: State, s': State, b: nat)
    requires A.Inv(s) && Inv(s, b) && TableMoves(s, s', b)
    ensures Inv(s', b)
  {
    hide A.Inv, Grounded, Exclusive;
    TableKeepsGrounded(s, s', b);
    TableKeepsExclusive(s, s', b);
    assert A.Typed(s) by { InvTyped(s); }
  }

  lemma InvTyped(s: State)
    requires A.Inv(s)
    ensures A.Typed(s)
  {
  }

  /** Only a late claim posts after a post it should have known of. */
  ghost predicate Follows(s: State, e: Creation, b: nat) {
    e.lifecycle && e.binding == b && OnTime(s, e.attempt) ==> forall i | 0 <= i < |s.creations| :: !IsStatus(s.creations[i], b)
  }

  /** A post that is not this binding's status post, or one Slack gave no timestamp for. */
  lemma OtherPost(s: State, s': State, e: Creation, b: nat)
    requires Inv(s, b) && !IsStatus(e, b) && s' == s.(creations := s.creations + [e])
    requires Follows(s, e, b)
    ensures Inv(s', b)
  {
    CreatedStays(s, s', b);
    hide Created;
    assert forall i | 0 <= i < |s.creations| :: s'.creations[i] == s.creations[i];
    assert forall i | 0 <= i < |s'.creations| && IsStatus(s'.creations[i], b) :: i < |s.creations|;
  }

  // ---------------------------------------------------------------------------------------------
  // Steps of the status projection

  /** Only `a`'s stage changes; rows, posts, recorded status and lease tokens stay. */
  ghost predicate Moves(s: State, s': State, a: nat, b: nat) {
    && A.OnlyAttempt(s, s', a) && On(s, a, b) && SameStatus(s, s', b) && s'.rows == s.rows
    && (b in s'.leases ==> b in s.leases && s'.leases[b].token == s.leases[b].token)
  }

  lemma MoveKeepsGrounded(s: State, s': State, a: nat, b: nat)
    requires b in s.bindings && Grounded(s, b) && Moves(s, s', a, b)
    requires s'.attempts[a].stage.Applying? ==>
               var p := s'.attempts[a].stage.phase;
               p.AdvanceCreated? || p.UpdateStatus? || p.AdvanceUpdated? ==> Created(s, b, p.post)
    ensures Grounded(s', b)
  {
    CreatedStays(s, s', b);
    hide Created;
  }

  lemma MoveKeepsKnown(s: State, s': State, a: nat, b: nat)
    requires A.Inv(s) && b in s.bindings && Known(s, b) && Moves(s, s', a, b)
    requires !A.AfterPost(s.attempts[a].stage)
    ensures Known(s', b)
    ensures forall i | 0 <= i < |s.creations| && IsStatus(s.creations[i], b) :: s.creations[i].attempt != a
  {
    forall i | 0 <= i < |s.creations| && IsStatus(s.creations[i], b) ensures s.creations[i].attempt != a {
      assert A.Accounted(s.rows, s.attempts, s.creations[i]);
    }
  }

  /** The claim of a lifecycle delivery: an attempt that claims on time still holds the lease. */
  ghost predicate Enters(s: State, s': State, a: nat, b: nat) {
    && A.OnlyAttempt(s, s', a) && On(s, a, b) && SameStatus(s, s', b)
    && s.attempts[a].stage.Leased? && s'.attempts[a].stage == Applying(ReadStatus)
    && s.rows[s.attempts[a].row].state.Queued? && s'.rows[s.attempts[a].row].state.Sending?
    && s'.leases == s.leases && (OnTime(s', a) ==> b in s.leases && s.leases[b].token == a)
  }

  lemma EnterKeepsGrounded(s: State, s': State, a: nat, b: nat)
    requires b in s.bindings && Grounded(s, b) && Enters(s, s', a, b)
    ensures Grounded(s', b)
  {
    CreatedStays(s, s', b);
    hide Created;
  }

  lemma EnterKeepsExclusive(s: State, s': State, a: nat, b: nat)
    requires Exclusive(s, b) && Enters(s, s', a, b)
    ensures Exclusive(s', b)
  {
  }

  lemma ClaimEnters(s: State, s': State, a: nat, b: nat)
    requires A.Inv(s) && Inv(s, b) && Enters(s, s', a, b)
    ensures Inv(s', b)
  {
    hide A.Typed, Grounded, Exclusive;
    EnterKeepsGrounded(s, s', a, b);
    EnterKeepsExclusive(s, s', a, b);
    forall i | 0 <= i < |s.creations| ensures A.Accounted(s.rows, s.attempts, s.creations[i]) {
    }
  }

  /** `ReadStatus` read no post; nothing recorded here is about to be accepted. */
  lemma ReadsNone(s: State, s': State, a: nat, b: nat)
    requires A.Inv(s) && Inv(s, b) && Moves(s, s', a, b)
    requires s.attempts[a].stage == Applying(ReadStatus) && s'.attempts[a].stage == Applying(CheckAmbiguous)
    requires s.bindings[b].statusPost.None?
    ensures Inv(s', b)
  {
    MoveKeepsKnown(s, s', a, b);
    MoveKeepsGrounded(s, s', a, b);
    ExclusiveKept(s, s', a, b);
    forall i | 0 <= i < |s.creations| ensures A.Accounted(s.rows, s.attempts, s.creations[i]) {
    }
  }

  /** `a` stays a reader or leaves both sides of the exclusion. */
  lemma ExclusiveKept(s: State, s': State, a: nat, b: nat)
    requires Exclusive(s, b) && Moves(s, s', a, b)
    requires Reading(s'.attempts[a].stage) ==> Reading(s.attempts[a].stage)
    requires !Creating(s'.attempts[a].stage)
    ensures Exclusive(s', b)
  {
  }

  lemma VisibleKept(s: State, s': State, a: nat, b: nat)
    requires Visible(s, b) && Moves(s, s', a, b)
    requires s'.attempts[a].stage != Applying(CheckAmbiguous) && s'.attempts[a].stage != Finishing(Accepted)
    ensures Visible(s', b)
  {
  }

  /** The status projection learns the recorded post, or moves on from updating it. */
  lemma FollowsPost(s: State, s': State, a: nat, b: nat)
    requires A.Inv(s) && Inv(s, b) && Moves(s, s', a, b)
    requires s.attempts[a].stage.Applying? && !A.AfterPost(s.attempts[a].stage)
    requires s'.attempts[a].stage.Applying?
    requires s'.attempts[a].stage.phase.UpdateStatus? || s'.attempts[a].stage.phase.AdvanceUpdated?
    requires Created(s, b, s'.attempts[a].stage.phase.post)
    ensures Inv(s', b)
  {
    hide A.Inv, Created, Exclusive, Visible, Known, Grounded;
    MoveKeepsKnown(s, s', a, b);
    MoveKeepsGrounded(s, s', a, b);
    ExclusiveKept(s, s', a, b);
    VisibleKept(s, s', a, b);
  }

  /** The ambiguity check finds nothing: no status post exists and no other attempt may create one. */
  lemma PassesCheck(s: State, s': State, a: nat, b: nat)
    requires A.Inv(s) && Inv(s, b) && Moves(s, s', a, b)
    requires s.attempts[a].stage == Applying(CheckAmbiguous) && s'.attempts[a].stage == Applying(PostStatus)
    requires !AmbiguousCreation(s, s.attempts[a].row)
    ensures Inv(s', b)
  {
    hide Known, Grounded;
    MoveKeepsKnown(s, s', a, b);
    MoveKeepsGrounded(s, s', a, b);
    VisibleKept(s, s', a, b);
    forall i | 0 <= i < |s.creations| && OnTime(s, a) ensures !IsStatus(s.creations[i], b) {
      assert A.Accounted(s.rows, s.attempts, s.creations[i]);
    }
    forall c | On(s, c, b) && c != a
      ensures !Reading(s.attempts[c].stage) && s.attempts[c].stage != Applying(PostStatus)
    {
      A.OwnedAt(s, c);
      A.OwnedAt(s, a);
    }
  }

  /** Slack accepts the status post, and the worker may or may not learn of it. */
  ghost predicate Creates(s: State, s': State, a: nat, b: nat, e: Creation) {
    && A.OnlyAttempt(s, s', a) && On(s, a, b) && s'.rows == s.rows && s'.leases == s.leases
    && b in s.bindings && s'.bindings == s.bindings && s'.creations == s.creations + [e]
    && s'.lateClaims == s.lateClaims
    && s.attempts[a].stage == Applying(PostStatus) && IsStatus(e, b) && e.attempt == a && e.row == s.attempts[a].row
    && (s'.attempts[a].stage == Applying(AdvanceCreated(e.post)) || s'.attempts[a].stage == Finishing(Uncertain))
  }

  lemma CreateKeepsKnown(s: State, s': State, a: nat, b: nat, e: Creation)
    requires A.Inv(s) && Inv(s, b) && Creates(s, s', a, b, e)
    ensures Known(s', b) && Ordered(s', b)
  {
    hide Grounded, Visible;
    A.OwnedAt(s, a);
    forall i | 0 <= i < |s.creations| ensures s'.creations[i] == s.creations[i] && s.creations[i].attempt != a {
      assert A.Accounted(s.rows, s.attempts, s.creations[i]);
    }
  }

  lemma CreateKeepsGrounded(s: State, s': State, a: nat, b: nat, e: Creation)
    requires b in s.bindings && Grounded(s, b) && Creates(s, s', a, b, e)
    ensures Grounded(s', b)
  {
    CreatedStays(s, s', b);
    assert s'.creations[|s.creations|] == e;
    assert Created(s', b, e.post);
    hide Created;
  }

  lemma CreateKeepsExclusive(s: State, s': State, a: nat, b: nat, e: Creation)
    requires Exclusive(s, b) && Creates(s, s', a, b, e)
    ensures Exclusive(s', b)
  {
    assert forall c | On(s', c, b) && s'.attempts[c].stage == Applying(PostStatus) :: c == a;
  }

  lemma CreateKeepsVisible(s: State, s': State, a: nat, b: nat, e: Creation)
    requires A.Inv(s) && Visible(s, b) && Creates(s, s', a, b, e)
    ensures Visible(s', b)
  {
    hide A.Logged;
    A.OwnedAt(s, a);
    assert forall i | 0 <= i < |s.creations| :: s'.creations[i] == s.creations[i];
  }

  lemma CreateKeeps(s: State, s': State, a: nat, b: nat, e: Creation)
    requires A.Inv(s) && Inv(s, b) && Creates(s, s', a, b, e)
    ensures Inv(s', b)
  {
    hide A.Inv, Known, Ordered, Grounded, Exclusive, Visible;
    CreateKeepsKnown(s, s', a, b, e);
    CreateKeepsGrounded(s, s', a, b, e);
    CreateKeepsExclusive(s, s', a, b, e);
    CreateKeepsVisible(s, s', a, b, e);
  }

  /** An attempt records the post it created or updated. */
  ghost predicate Records(s: State, s': State, a: nat, b: nat, post: nat) {
    && A.OnlyAttempt(s, s', a) && On(s, a, b) && s'.rows == s.rows && s'.leases == s.leases
    && b in s.bindings && b in s'.bindings && s'.creations == s.creations && s'.lateClaims == s.lateClaims
    && s'.bindings[b].statusPost == Some(post)
    && (s.attempts[a].stage == Applying(AdvanceCreated(post)) || s.attempts[a].stage == Applying(AdvanceUpdated(post)))
    && (s'.attempts[a].stage == Finishing(Uncertain) ||
        (s'.attempts[a].stage.Renewing? && (A.AfterPost(s'.attempts[a].stage) <==> A.AfterPost(s.attempts[a].stage))))
  }

  lemma RecordKeeps(s: State, s': State, a: nat, b: nat, post: nat)
    requires A.Inv(s) && Inv(s, b) && Records(s, s', a, b, post)
    ensures Inv(s', b)
  {
    hide A.Inv, Known, Grounded, Exclusive, Visible;
    RecordKeepsGrounded(s, s', a, b, post);
    RecordKeepsKnown(s, s', a, b, post);
    RecordKeepsExclusive(s, s', a, b, post);
  }

  lemma RecordKeepsGrounded(s: State, s': State, a: nat, b: nat, post: nat)
    requires b in s.bindings && Grounded(s, b) && Records(s, s', a, b, post)
    ensures Grounded(s', b)
  {
    CreatedStays(s, s', b);
    assert Created(s, b, s.attempts[a].stage.phase.post);
    hide Created;
  }

  lemma RecordKeepsKnown(s: State, s': State, a: nat, b: nat, post: nat)
    requires A.Inv(s) && b in s.bindings && Known(s, b) && Visible(s, b) && Records(s, s', a, b, post)
    ensures Known(s', b) && Visible(s', b)
  {
    hide A.Typed, A.Owned;
    forall i | 0 <= i < |s.creations| ensures A.Accounted(s.rows, s.attempts, s.creations[i]) {
    }
  }

  lemma RecordKeepsExclusive(s: State, s': State, a: nat, b: nat, post: nat)
    requires Exclusive(s, b) && Records(s, s', a, b, post)
    ensures Exclusive(s', b)
  {
  }

  /** The final renewal of the creator: no reader is left that could miss the post. */
  ghost predicate Accepts(s: State, s': State, a: nat, b: nat) {
    && A.OnlyAttempt(s, s', a) && On(s, a, b) && s'.rows == s.rows
    && SameStatus(s, s', b) && s'.leases.Keys == s.leases.Keys
    && b in s.leases && s.leases[b].token == a && s'.leases[b].token == a
    && s.attempts[a].stage.Renewing? && s'.attempts[a].stage == Finishing(Accepted)
    && !s.attempts[a].stage.result.skipped
  }

  lemma AcceptKeeps(s: State, s': State, a: nat, b: nat)
    requires A.Inv(s) && Inv(s, b) && Accepts(s, s', a, b)
    ensures Inv(s', b)
  {
    hide A.Typed, A.Owned;
    AcceptKeepsVisible(s, s', a, b);
    AcceptKeepsGrounded(s, s', a, b);
  }

  lemma AcceptKeepsGrounded(s: State, s': State, a: nat, b: nat)
    requires b in s.bindings && Grounded(s, b) && Accepts(s, s', a, b)
    ensures Grounded(s', b)
  {
    CreatedStays(s, s', b);
    hide Created;
  }

  lemma AcceptKeepsVisible(s: State, s': State, a: nat, b: nat)
    requires A.Inv(s) && Exclusive(s, b) && Visible(s, b) && Accepts(s, s', a, b)
    ensures Visible(s', b)
  {
    hide A.Typed, A.Owned;
    forall i | 0 <= i < |s.creations| ensures A.Accounted(s.rows, s.attempts, s.creations[i]) {
    }
  }

  /** An outcome is recorded on the row. */
  ghost predicate Finishes(s: State, s': State, a: nat, b: nat) {
    && A.OnlyAttempt(s, s', a) && SameStatus(s, s', b) && s'.leases == s.leases
    && s.attempts[a].stage.Finishing? && (s'.attempts[a].stage.Releasing? || s'.attempts[a].stage == Finishing(Uncertain))
    && var r := s.attempts[a].row;
       s'.rows[r].state == s.rows[r].state || s'.rows[r].state == s.attempts[a].stage.outcome
  }

  lemma FinishKeepsVisible(s: State, s': State, a: nat, b: nat)
    requires A.Inv(s) && Inv(s, b) && Finishes(s, s', a, b)
    ensures Visible(s', b)
  {
    hide A.Typed, Grounded, Exclusive, Ordered;
    A.OwnedAt(s, a);
    forall c, i | On(s', c, b) && OnTime(s', c) && 0 <= i < |s'.creations| &&
        s'.attempts[c].stage == Applying(CheckAmbiguous) && IsStatus(s'.creations[i], b)
      ensures s'.creations[i].row in s'.rows && InFlight(s'.rows[s'.creations[i].row].state)
      ensures s'.creations[i].attempt in s'.attempts
      ensures s'.attempts[s'.creations[i].attempt].stage != Finishing(Accepted)
    {
      assert On(s, c, b) && A.Accounted(s.rows, s.attempts, s.creations[i]);
    }
  }

  lemma FinishKeepsKnown(s: State, s': State, a: nat, b: nat)
    requires A.Inv(s) && Inv(s, b) && Finishes(s, s', a, b)
    ensures Known(s', b) && Visible(s', b)
  {
    FinishKeepsVisible(s, s', a, b);
    hide A.Typed, Grounded, Exclusive, Ordered, Visible;
    forall i | 0 <= i < |s.creations| ensures A.Accounted(s.rows, s.attempts, s.creations[i]) {
    }
    A.OwnedAt(s, a);
  }

  lemma FinishKeepsGrounded(s: State, s': State, a: nat, b: nat)
    requires b in s.bindings && Grounded(s, b) && Finishes(s, s', a, b)
    ensures Grounded(s', b)
  {
    CreatedStays(s, s', b);
    hide Created;
  }

  lemma FinishKeepsExclusive(s: State, s': State, a: nat, b: nat)
    requires Exclusive(s, b) && Finishes(s, s', a, b)
    ensures Exclusive(s', b)
  {
  }

  lemma FinishKeeps(s: State, s': State, a: nat, b: nat)
    requires A.Inv(s) && Inv(s, b) && Finishes(s, s', a, b)
    ensures Inv(s', b)
  {
    hide A.Inv, Known, Visible, Grounded, Exclusive;
    FinishKeepsKnown(s, s', a, b);
    FinishKeepsGrounded(s, s', a, b);
    FinishKeepsExclusive(s, s', a, b);
  }

  // ---------------------------------------------------------------------------------------------
  // Every event keeps the invariant of every binding

  ghost predicate Awaits(s: State, a: nat, reply: SlackReply, b: nat) {
    A.Inv(s) && Inv(s, b) && Enabled(s, Await(a, reply))
  }

  lemma ReadStatusKeeps(s: State, a: nat, reply: SlackReply, b: nat)
    requires Awaits(s, a, reply, b) && On(s, a, b) && s.attempts[a].stage.phase == ReadStatus
    ensures Inv(Next(s, Await(a, reply)), b)
  {
    hide A.Inv, Inv;
    var s' := Next(s, Await(a, reply));
    if s.bindings[b].statusPost.None? {
      ReadsNone(s, s', a, b);
    } else if s'.attempts[a].stage.Applying? {
      KnowsPost(s, a, b);
      FollowsPost(s, s', a, b);
    } else {
      QuietAttempt(s, s', a, b);
    }
  }

  lemma CheckKeeps(s: State, a: nat, reply: SlackReply, b: nat)
    requires Awaits(s, a, reply, b) && On(s, a, b) && s.attempts[a].stage.phase == CheckAmbiguous
    ensures Inv(Next(s, Await(a, reply)), b)
  {
    hide A.Inv, Inv;
    var s' := Next(s, Await(a, reply));
    if AmbiguousCreation(s, s.attempts[a].row) {
      QuietAttempt(s, s', a, b);
    } else {
      PassesCheck(s, s', a, b);
    }
  }

  lemma PostFollows(s: State, a: nat, b: nat, e: Creation)
    requires Inv(s, b) && On(s, a, b) && s.attempts[a].stage == Applying(PostStatus) && e.attempt == a
    ensures Follows(s, e, b)
  {
  }

  lemma PostKeeps(s: State, a: nat, reply: SlackReply, b: nat)
    requires Awaits(s, a, reply, b) && On(s, a, b) && s.attempts[a].stage.phase == PostStatus
    ensures Inv(Next(s, Await(a, reply)), b)
  {
    hide A.Inv, Inv;
    var s' := Next(s, Await(a, reply));
    if reply.AcceptWithoutStamp? {
      var s1 := s'.(creations := s.creations);
      QuietAttempt(s, s1, a, b);
      PostFollows(s, a, b, s'.creations[|s.creations|]);
      OtherPost(s1, s', s'.creations[|s.creations|], b);
    } else if reply == Accept || reply == Ambiguous(true) {
      CreateKeeps(s, s', a, b, s'.creations[|s.creations|]);
    } else {
      QuietAttempt(s, s', a, b);
    }
  }

  lemma AdvanceCreatedKeeps(s: State, a: nat, reply: SlackReply, b: nat)
    requires Awaits(s, a, reply, b) && On(s, a, b) && s.attempts[a].stage.phase.AdvanceCreated?
    ensures Inv(Next(s, Await(a, reply)), b)
  {
    hide A.Inv, Inv;
    var s' := Next(s, Await(a, reply));
    if Advances(s.bindings[b], RowOf(s, a), RowOf(s, a).msg.version.value) {
      RecordKeeps(s, s', a, b, s.attempts[a].stage.phase.post);
    } else {
      QuietAttempt(s, s', a, b);
    }
  }

  lemma UpdateKeeps(s: State, a: nat, reply: SlackReply, b: nat)
    requires Awaits(s, a, reply, b) && On(s, a, b) && s.attempts[a].stage.phase.UpdateStatus?
    ensures Inv(Next(s, Await(a, reply)), b)
  {
    hide A.Inv, Inv, Created;
    var s' := Next(s, Await(a, reply));
    KnowsPost(s, a, b);
    if reply.Accept? || reply.AcceptWithoutStamp? {
      FollowsPost(s, s', a, b);
    } else {
      QuietAttempt(s, s', a, b);
    }
  }

  lemma KnowsPost(s: State, a: nat, b: nat)
    requires Inv(s, b)
    ensures s.bindings[b].statusPost.Some? ==> Created(s, b, s.bindings[b].statusPost.value)
    ensures On(s, a, b) && s.attempts[a].stage.Applying? &&
            (s.attempts[a].stage.phase.UpdateStatus? || s.attempts[a].stage.phase.AdvanceUpdated?) ==>
              Created(s, b, s.attempts[a].stage.phase.post)
  {
  }

  lemma AdvanceUpdatedKeeps(s: State, a: nat, reply: SlackReply, b: nat)
    requires Awaits(s, a, reply, b) && On(s, a, b) && s.attempts[a].stage.phase.AdvanceUpdated?
    ensures Inv(Next(s, Await(a, reply)), b)
  {
    hide A.Inv, Inv;
    var s' := Next(s, Await(a, reply));
    if Advances(s.bindings[b], RowOf(s, a), RowOf(s, a).msg.version.value) {
      RecordKeeps(s, s', a, b, s.attempts[a].stage.phase.post);
    } else {
      QuietAttempt(s, s', a, b);
    }
  }

  /** Awaits of another binding, or of this binding's other messages. */
  lemma OtherAwaitKeeps(s: State, a: nat, reply: SlackReply, b: nat)
    requires Awaits(s, a, reply, b) && !On(s, a, b)
    ensures Inv(Next(s, Await(a, reply)), b)
  {
    hide A.Inv, Inv, Resume, StageAfter;
    BindingExists(s, b);
    var s' := Next(s, Await(a, reply));
    var s1 := s'.(creations := s.creations);
    A.AwaitFrame(s, a, reply);
    QuietAttempt(s, s1, a, b);
    if s'.creations != s.creations {
      OtherPost(s1, s', s'.creations[|s.creations|], b);
    }
  }

  lemma AwaitKeeps(s: State, a: nat, reply: SlackReply, b: nat)
    requires Awaits(s, a, reply, b)
    ensures Inv(Next(s, Await(a, reply)), b)
  {
    hide A.Inv, Inv, Effect;
    if !On(s, a, b) {
      OtherAwaitKeeps(s, a, reply, b);
    } else {
      match s.attempts[a].stage.phase
      case ReadStatus => ReadStatusKeeps(s, a, reply, b);
      case CheckAmbiguous => CheckKeeps(s, a, reply, b);
      case PostStatus => PostKeeps(s, a, reply, b);
      case AdvanceCreated(_) => AdvanceCreatedKeeps(s, a, reply, b);
      case UpdateStatus(_) => UpdateKeeps(s, a, reply, b);
      case AdvanceUpdated(_) => AdvanceUpdatedKeeps(s, a, reply, b);
      case _ => assert false;
    }
  }

  lemma ClaimKeeps(s: State, a: nat, won: bool, b: nat)
    requires A.Inv(s) && Inv(s, b) && Enabled(s, Claim(a, won))
    ensures Inv(Next(s, Claim(a, won)), b)
  {
    hide A.Inv, Inv;
    BindingExists(s, b);
    var s' := Next(s, Claim(a, won));
    if won && On(s, a, b) && s'.attempts[a].stage.Applying? {
      ClaimEnters(s, s', a, b);
    } else {
      QuietAttempt(s, s', a, b);
    }
  }

  lemma ClaimFailedKeeps(s: State, a: nat, landed: bool, b: nat)
    requires A.Inv(s) && Inv(s, b) && Enabled(s, ClaimFailed(a, landed))
    ensures Inv(Next(s, ClaimFailed(a, landed)), b)
  {
    hide A.Inv, Inv;
    BindingExists(s, b);
    QuietAttempt(s, Next(s, ClaimFailed(a, landed)), a, b);
  }

  lemma StoreFailedKeeps(s: State, a: nat, landed: bool, b: nat)
    requires A.Inv(s) && Inv(s, b) && Enabled(s, StoreFailed(a, landed))
    ensures Inv(Next(s, StoreFailed(a, landed)), b)
  {
    hide A.Inv, Inv;
    BindingExists(s, b);
    var s' := Next(s, StoreFailed(a, landed));
    A.StoreFrame(s, a, CallOf(RowOf(s, a).msg, s.attempts[a].stage.phase));
    var p := s.attempts[a].stage.phase;
    if landed && On(s, a, b) && (p.AdvanceCreated? || p.AdvanceUpdated?) &&
       Advances(s.bindings[b], RowOf(s, a), RowOf(s, a).msg.version.value) {
      RecordKeeps(s, s', a, b, p.post);
    } else {
      QuietAttempt(s, s', a, b);
    }
  }

  lemma RenewKeeps(s: State, a: nat, failed: bool, b: nat)
    requires A.Inv(s) && Inv(s, b) && Enabled(s, Renew(a, failed))
    ensures Inv(Next(s, Renew(a, failed)), b)
  {
    hide A.Inv, Inv;
    BindingExists(s, b);
    var s' := Next(s, Renew(a, failed));
    if On(s, a, b) && s'.attempts[a].stage == Finishing(Accepted) {
      AcceptKeeps(s, s', a, b);
    } else {
      QuietAttempt(s, s', a, b);
    }
  }

  lemma OutcomeKeeps(s: State, e: Event, b: nat)
    requires A.Inv(s) && Inv(s, b) && Enabled(s, e) && (e.Finish? || e.FinishFailed?)
    ensures Inv(Next(s, e), b)
  {
    hide A.Inv, Inv;
    BindingExists(s, b);
    FinishKeeps(s, Next(s, e), e.attempt, b);
  }

  lemma RescheduleKeeps(s: State, a: nat, landed: bool, b: nat)
    requires A.Inv(s) && Inv(s, b) && Enabled(s, Reschedule(a, landed))
    ensures Inv(Next(s, Reschedule(a, landed)), b)
  {
    hide A.Inv, Inv;
    BindingExists(s, b);
    A.OwnedAt(s, a);
    QuietAttempt(s, Next(s, Reschedule(a, landed)), a, b);
  }

  lemma LeaseKeeps(s: State, e: Event, b: nat)
    requires A.Inv(s) && Inv(s, b) && Enabled(s, e) && (e.Heartbeat? || e.Release? || e.Crash?)
    ensures Inv(Next(s, e), b)
  {
    hide A.Inv, Inv;
    BindingExists(s, b);
    QuietAttempt(s, Next(s, e), e.attempt, b);
  }

  lemma TableEventKeeps(s: State, e: Event, b: nat)
    requires A.Inv(s) && Inv(s, b) && Enabled(s, e)
    requires e.Bind? || e.Enqueue? || e.BlockQueued? || e.Interrupt? || e.Reassign? || e.Pass? || e.Acquire?
    ensures Inv(Next(s, e), b)
  {
    hide A.Inv, Inv;
    BindingExists(s, b);
    TableKeeps(s, Next(s, e), b);
  }

  lemma BindingExists(s: State, b: nat)
    requires Inv(s, b)
    ensures b in s.bindings
  {
  }

  lemma StepKeeps(s: State, e: Event, b: nat)
    requires A.Inv(s) && Inv(s, b) && Enabled(s, e)
    ensures Inv(Next(s, e), b)
  {
    hide *;
    match e
    case Await(a, reply) =>
      assert Awaits(s, a, reply, b) by { AwaitsHolds(s, a, reply, b); }
      AwaitKeeps(s, a, reply, b);
    case Claim(a, won) => ClaimKeeps(s, a, won, b);
    case ClaimFailed(a, landed) => ClaimFailedKeeps(s, a, landed, b);
    case StoreFailed(a, landed) => StoreFailedKeeps(s, a, landed, b);
    case Renew(a, failed) => RenewKeeps(s, a, failed, b);
    case Finish(_) => OutcomeKeeps(s, e, b);
    case FinishFailed(_, _) => OutcomeKeeps(s, e, b);
    case Reschedule(a, landed) => RescheduleKeeps(s, a, landed, b);
    case Heartbeat(_, _) => LeaseKeeps(s, e, b);
    case Release(_) => LeaseKeeps(s, e, b);
    case Crash(_) => LeaseKeeps(s, e, b);
    case _ => TableEventKeeps(s, e, b);
  }

  lemma AwaitsHolds(s: State, a: nat, reply: SlackReply, b: nat)
    requires A.Inv(s) && Inv(s, b) && Enabled(s, Await(a, reply))
    ensures Awaits(s, a, reply, b)
  {
  }

  lemma BindStarts(s: State, b: nat, place: Place)
    requires A.Inv(s) && Enabled(s, Bind(b, place))
    ensures Inv(Next(s, Bind(b, place)), b)
  {
    forall i | 0 <= i < |s.creations| ensures !IsStatus(s.creations[i], b) {
      assert A.Accounted(s.rows, s.attempts, s.creations[i]);
    }
    assert forall a :: !On(s, a, b);
  }

  lemma BindingsStay(s: State, e: Event, b: nat)
    requires Enabled(s, e)
    ensures s.lateClaims <= Next(s, e).lateClaims
    ensures b in s.bindings ==> b in Next(s, e).bindings
    ensures b in Next(s, e).bindings && b !in s.bindings ==> e.Bind? && e.binding == b
  {
    if e.Await? {
      A.AwaitFrame(s, e.attempt, e.reply);
    } else if e.StoreFailed? {
      A.StoreFrame(s, e.attempt, CallOf(RowOf(s, e.attempt).msg, s.attempts[e.attempt].stage.phase));
    }
  }

  lemma {:induction false} RunKeeps(events: seq<Event>, b: nat)
    requires Possible(events) && b in After(events).bindings
    ensures A.Inv(After(events)) && Inv(After(events), b)
    decreases |events|
  {
    A.RunKeeps(events);
    var n := |events| - 1;
    var s := After(events[..n]);
    A.RunKeeps(events[..n]);
    BindingsStay(s, events[n], b);
    if b in s.bindings {
      RunKeeps(events[..n], b);
      StepKeeps(s, events[n], b);
    } else {
      BindStarts(s, b, events[n].place);
    }
  }

  // ---------------------------------------------------------------------------------------------
  // Results

  /**
   Of two status posts on one binding, either Slack accepted the earlier one without returning its
   timestamp, or the later one is the work of an attempt that claimed after it had lost the lease.
   */
  lemma SecondPostNeedsFault(events: seq<Event>, b: nat, i: nat, j: nat)
    requires Possible(events) && i < j < |After(events).creations|
    requires var x, y := After(events).creations[i], After(events).creations[j];
             x.lifecycle && y.lifecycle && x.binding == y.binding == b
    ensures After(events).creations[i].misread || After(events).creations[j].attempt in After(events).lateClaims
  {
    var s := After(events);
    A.RunKeeps(events);
    assert A.Accounted(s.rows, s.attempts, s.creations[i]);
    RunKeeps(events, b);
  }
}
