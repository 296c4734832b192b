/**
 Connecting, testing and disconnecting Slack: the mutations of apps/api/src/surface-config.ts. Each is
 a list of awaits over one tenant's config row, secrets, socket, channels and deliveries; any of them
 may throw, before or after it took effect, and PUT then runs a second such list to undo the first.
 The serializer keeps the mutations of one tenant apart, so they run one after the other here.
 */
module SlackSaga {
  import opened Prelude
  import opened Deliveries

  /** A token after trimming; an empty one counts as not entered. */
  type Token = s: string | s != "" witness "x"

  /** The identity Slack reported, as stored on the row. */
  datatype Config = Config(id: nat, identity: string)

  datatype Store = Store(
    row: Option<Config>, bot: Option<Token>, app: Option<Token>, signing: Option<Token>,
    sockets: map<nat, Token>, channels: set<string>, deliveries: map<nat, Delivery>, nextId: nat)

  datatype Action =
    | Read
    | Upsert(identity: string)
    | SetBot(bot: Option<Token>)
    | SetApp(app: Option<Token>)
    | DropSigning
    | StartSocket(token: Token)
    | StopSocket
    | DropRow
    | DisableChannels
    | Disconnect

  /** `conflict`: the error carries the unique-violation code. */
  datatype Fault = NoFault | Thrown(landed: bool, conflict: bool)

  /** A token is never stored without the row that makes it visible. */
  ghost predicate TokensHaveRow(s: Store) {
    s.bot.Some? || s.app.Some? ==> s.row.Some?
  }

  function Interrupted(d: Delivery): Delivery {
    match d
    case Queued => Blocked
    case Sending => Uncertain
    case _ => d
  }

  function Perform(s: Store, a: Action): Store {
    match a
    case Read => s
    case Upsert(identity) =>
      if s.row.Some? then s.(row := Some(s.row.value.(identity := identity)))
      else s.(row := Some(Config(s.nextId, identity)), nextId := s.nextId + 1)
    case SetBot(bot) => s.(bot := bot)
    case SetApp(app) => s.(app := app)
    case DropSigning => s.(signing := None)
    case StartSocket(token) => if s.row.Some? then s.(sockets := s.sockets[s.row.value.id := token]) else s
    case StopSocket => if s.row.Some? then s.(sockets := s.sockets - {s.row.value.id}) else s
    case DropRow => s.(row := None)
    case DisableChannels => s.(channels := {})
    case Disconnect => s.(row := None, deliveries := map d | d in s.deliveries :: Interrupted(s.deliveries[d]))
  }

  // ---------------------------------------------------------------------------------------------
  // A list of awaits, each of which may throw

  /** The stores after each await that was reached, and the fault that ended the list early. */
  datatype Execution = Execution(states: seq<Store>, fault: Fault)

  function At(faults: seq<Fault>, i: nat): Fault {
    if i < |faults| then faults[i] else NoFault
  }

  function Final(s: Store, states: seq<Store>): Store {
    if states == [] then s else states[|states| - 1]
  }

  function Execute(s: Store, actions: seq<Action>, faults: seq<Fault>): (r: Execution)
    ensures |r.states| <= |actions|
    ensures r.fault.NoFault? ==> |r.states| == |actions|
    ensures r.fault.Thrown? ==> r.states != [] && At(faults, |r.states| - 1) == r.fault
  {
    if actions == [] then Execution([], NoFault)
    else
      var n := |actions| - 1;
      var before := Execute(s, actions[..n], faults);
      if before.fault.Thrown? then before
      else
        var here, fault := Final(s, before.states), At(faults, n);
        var landed := if fault == NoFault || fault.landed then Perform(here, actions[n]) else here;
        Execution(before.states + [landed], fault)
  }

  /** How many of the actions took effect. */
  function Landed(run: Execution): nat
    requires run.fault.Thrown? ==> run.states != []
  {
    if run.fault.Thrown? && !run.fault.landed then |run.states| - 1 else |run.states|
  }

  /** The store after the first `k` actions when nothing throws. */
  function Clean(s: Store, actions: seq<Action>, k: nat): Store
    requires k <= |actions|
  {
    if k == 0 then s else Perform(Clean(s, actions, k - 1), actions[k - 1])
  }

  lemma {:induction false} CleanOfPrefix(s: Store, actions: seq<Action>, n: nat, k: nat)
    requires k <= n <= |actions|
    ensures Clean(s, actions[..n], k) == Clean(s, actions, k)
  {
    if k > 0 {
      CleanOfPrefix(s, actions, n, k - 1);
    }
  }

  /** Faults cannot reach a store that the fault-free run does not pass through. */
  lemma {:induction false} OnCleanPath(s: Store, actions: seq<Action>, faults: seq<Fault>)
    ensures var r := Execute(s, actions, faults);
            && (forall j | 0 <= j < |r.states| ::
                  r.states[j] == Clean(s, actions, j + 1)
                  || (r.fault.Thrown? && j == |r.states| - 1 && !r.fault.landed && r.states[j] == Clean(s, actions, j)))
            && Final(s, r.states) == Clean(s, actions, Landed(r))
  {
    hide Perform;
    if actions != [] {
      var n := |actions| - 1;
      OnCleanPath(s, actions[..n], faults);
      forall k | 0 <= k <= n ensures Clean(s, actions[..n], k) == Clean(s, actions, k) {
        CleanOfPrefix(s, actions, n, k);
      }
    }
  }

  // ---------------------------------------------------------------------------------------------
  // The mutations

  datatype Answer =
    | Saved | Unchanged | MissingToken | Invalid | Taken | NotSaved | SocketRejected | Failed | Tested | Disconnected

  datatype Reply = Reply(states: seq<Store>, answer: Answer)

  /** `identity` is Slack's verdict on the tokens. Each list of awaits has its own faults. */
  datatype Request =
    | Put(bot: Option<Token>, app: Option<Token>, identity: Option<string>,
          lookups: seq<Fault>, writes: seq<Fault>, undo: seq<Fault>)
    | Test(identity: Option<string>, lookups: seq<Fault>, writes: seq<Fault>)
    | Delete(writes: seq<Fault>)

  function OrElse(entered: Option<Token>, stored: Option<Token>): Option<Token> {
    if entered.Some? then entered else stored
  }

  function Forward(s: Store, bot: Option<Token>, app: Option<Token>, identity: string): seq<Action>
    requires OrElse(app, s.app).Some?
  {
    [Upsert(identity)]
    + (if bot.Some? || s.row.None? then [SetBot(OrElse(bot, s.bot))] else [])
    + (if app.Some? || s.row.None? then [SetApp(OrElse(app, s.app)), StartSocket(OrElse(app, s.app).value)] else [])
  }

  /** What the catch clause undoes; `known` says that the upsert returned a row. */
  function Rollback(was: Store, known: bool): seq<Action> {
    if was.row.Some? then [Upsert(was.row.value.identity), SetBot(was.bot), SetApp(was.app)]
    else (if known then [StopSocket] else []) + [SetBot(None), SetApp(None), DropRow]
  }

  function Connect(s: Store, request: Request): Reply
    requires request.Put?
  {
    var asked := Execute(s, [Read, Read, Read], request.lookups);
    var bot, app := OrElse(request.bot, s.bot), OrElse(request.app, s.app);
    if asked.fault.Thrown? then Reply(asked.states, Failed)
    else if bot.None? || app.None? then Reply(asked.states, MissingToken)
    else if s.row.Some? && request.bot.None? && request.app.None? then Reply(asked.states, Unchanged)
    else if request.identity.None? then Reply(asked.states, Invalid)
    else
      var actions := Forward(s, request.bot, request.app, request.identity.value);
      var saving := Execute(s, actions, request.writes);
      if saving.fault.NoFault? then Reply(asked.states + saving.states, Saved)
      else if saving.fault.conflict then Reply(asked.states + saving.states, Taken)
      else
        var undoing := Execute(Final(s, saving.states), Rollback(s, |saving.states| > 1), request.undo);
        Reply(asked.states + saving.states + undoing.states,
              if actions[|saving.states| - 1].StartSocket? then SocketRejected else NotSaved)
  }

  function Verify(s: Store, request: Request): Reply
    requires request.Test?
  {
    var asked := Execute(s, [Read, Read], request.lookups);
    if asked.fault.Thrown? then Reply(asked.states, Failed)
    else if s.bot.None? || s.app.None? then Reply(asked.states, MissingToken)
    else if request.identity.None? then Reply(asked.states, Invalid)
    else
      var actions := [Read] + if s.row.Some? then [Upsert(request.identity.value)] else [];
      var saving := Execute(s, actions, request.writes);
      Reply(asked.states + saving.states, if saving.fault.Thrown? then Failed else Tested)
  }

  function Deletion(s: Store): seq<Action> {
    [DisableChannels, Read] + (if s.row.Some? then [StopSocket] else [])
    + [DropSigning, SetBot(None), SetApp(None), Disconnect]
  }

  function Drop(s: Store, request: Request): Reply
    requires request.Delete?
  {
    var dropping := Execute(s, Deletion(s), request.writes);
    Reply(dropping.states, if dropping.fault.Thrown? then Failed else Disconnected)
  }

  function Serve(s: Store, request: Request): Reply {
    match request
    case Put(_, _, _, _, _, _) => Connect(s, request)
    case Test(_, _, _) => Verify(s, request)
    case Delete(_) => Drop(s, request)
  }

  /** Every store a serialized sequence of mutations passes through. */
  function Served(s: Store, requests: seq<Request>): seq<Store> {
    if requests == [] then []
    else
      var n := |requests| - 1;
      var before := Served(s, requests[..n]);
      before + Serve(Final(s, before), requests[n]).states
  }

  // ---------------------------------------------------------------------------------------------
  // A token implies the row

  ghost predicate Steady(s: Store, actions: seq<Action>) {
    forall k | 0 <= k <= |actions| :: TokensHaveRow(Clean(s, actions, k))
  }

  lemma SteadyUnderFaults(s: Store, actions: seq<Action>, faults: seq<Fault>)
    requires Steady(s, actions)
    ensures forall t | t in Execute(s, actions, faults).states :: TokensHaveRow(t)
  {
    OnCleanPath(s, actions, faults);
    hide Clean, TokensHaveRow, Execute;
    var states := Execute(s, actions, faults).states;
    forall j | 0 <= j < |states| ensures TokensHaveRow(states[j]) {
      assert states[j] == Clean(s, actions, j + 1) || states[j] == Clean(s, actions, j);
    }
  }

  /** A list that starts by writing the row, or finds it there, and never removes it. */
  lemma {:induction false} SteadyWithRow(s: Store, actions: seq<Action>, k: nat)
    requires TokensHaveRow(s) && k <= |actions|
    requires s.row.Some? || (|actions| > 0 && actions[0].Upsert?)
    requires forall i | 0 <= i < |actions| :: !actions[i].DropRow? && !actions[i].Disconnect?
    ensures TokensHaveRow(Clean(s, actions, k))
    ensures s.row.Some? || k > 0 ==> Clean(s, actions, k).row.Some?
  {
    if k > 0 {
      SteadyWithRow(s, actions, k - 1);
    }
  }

  /** A list that removes the row last, after both tokens. */
  ghost predicate Erases(actions: seq<Action>) {
    && |actions| > 0
    && (forall i | 0 <= i < |actions| - 1 ::
          && !actions[i].DropRow? && !actions[i].Disconnect?
          && (actions[i].SetBot? ==> actions[i].bot.None?) && (actions[i].SetApp? ==> actions[i].app.None?))
    && (actions[|actions| - 1].DropRow? || actions[|actions| - 1].Disconnect?)
    && SetBot(None) in actions && SetApp(None) in actions
  }

  lemma {:induction false} SteadyErasing(s: Store, actions: seq<Action>, k: nat)
    requires TokensHaveRow(s) && Erases(actions) && k < |actions|
    ensures TokensHaveRow(Clean(s, actions, k))
    ensures SetBot(None) in actions[..k] ==> Clean(s, actions, k).bot.None?
    ensures SetApp(None) in actions[..k] ==> Clean(s, actions, k).app.None?
  {
    if k > 0 {
      SteadyErasing(s, actions, k - 1);
      assert actions[..k] == actions[..k - 1] + [actions[k - 1]];
    }
  }

  lemma ErasingIsSteady(s: Store, actions: seq<Action>)
    requires TokensHaveRow(s) && Erases(actions)
    ensures Steady(s, actions)
  {
    var n := |actions| - 1;
    forall k | 0 <= k <= |actions| ensures TokensHaveRow(Clean(s, actions, k)) {
      SteadyErasing(s, actions, if k <= n then k else n);
    }
  }

  lemma WithRowIsSteady(s: Store, actions: seq<Action>)
    requires TokensHaveRow(s)
    requires s.row.Some? || (|actions| > 0 && actions[0].Upsert?)
    requires forall i | 0 <= i < |actions| :: !actions[i].DropRow? && !actions[i].Disconnect?
    ensures Steady(s, actions)
  {
    forall k | 0 <= k <= |actions| ensures TokensHaveRow(Clean(s, actions, k)) {
      SteadyWithRow(s, actions, k);
    }
  }

  lemma {:induction false} ReadsChangeNothing(s: Store, actions: seq<Action>, faults: seq<Fault>)
    requires forall i | 0 <= i < |actions| :: actions[i].Read?
    ensures forall t | t in Execute(s, actions, faults).states :: t == s
  {
    if actions != [] {
      var n := |actions| - 1;
      ReadsChangeNothing(s, actions[..n], faults);
      var states := Execute(s, actions[..n], faults).states;
      assert states != [] ==> states[|states| - 1] in states;
    }
  }

  lemma RollbackIsSteady(was: Store, s: Store, known: bool)
    requires TokensHaveRow(s)
    ensures Steady(s, Rollback(was, known))
  {
    if was.row.Some? {
      WithRowIsSteady(s, Rollback(was, known));
    } else {
      var head: seq<Action> := if known then [StopSocket] else [];
      assert Rollback(was, known)[|head|] == SetBot(None) && Rollback(was, known)[|head| + 1] == SetApp(None);
      ErasingIsSteady(s, Rollback(was, known));
    }
  }

  lemma DeletionIsSteady(s: Store)
    requires TokensHaveRow(s)
    ensures Steady(s, Deletion(s))
  {
    var n := |Deletion(s)|;
    assert Deletion(s)[n - 3] == SetBot(None) && Deletion(s)[n - 2] == SetApp(None);
    ErasingIsSteady(s, Deletion(s));
  }

  lemma ConnectKeepsRow(s: Store, request: Request)
    requires request.Put? && TokensHaveRow(s)
    ensures forall t | t in Connect(s, request).states :: TokensHaveRow(t)
  {
    ReadsChangeNothing(s, [Read, Read, Read], request.lookups);
    if OrElse(request.bot, s.bot).Some? && OrElse(request.app, s.app).Some? && request.identity.Some? {
      var actions := Forward(s, request.bot, request.app, request.identity.value);
      WithRowIsSteady(s, actions);
      SteadyUnderFaults(s, actions, request.writes);
      var saving := Execute(s, actions, request.writes);
      var here := Final(s, saving.states);
      RollbackIsSteady(s, here, |saving.states| > 1);
      SteadyUnderFaults(here, Rollback(s, |saving.states| > 1), request.undo);
      hide TokensHaveRow, Steady, Execute, Forward, Rollback;
    }
  }

  lemma VerifyKeepsRow(s: Store, request: Request)
    requires request.Test? && TokensHaveRow(s)
    ensures forall t | t in Verify(s, request).states :: TokensHaveRow(t)
  {
    ReadsChangeNothing(s, [Read, Read], request.lookups);
    if request.identity.Some? {
      if s.row.Some? {
        var actions := [Read] + [Upsert(request.identity.value)];
        WithRowIsSteady(s, actions);
        SteadyUnderFaults(s, actions, request.writes);
        hide TokensHaveRow, Steady, Execute;
      } else {
        ReadsChangeNothing(s, [Read] + [], request.writes);
        hide Execute;
      }
    }
  }

  /** At every step of every serialized run of PUT, test and DELETE, whatever throws and where. */
  lemma {:induction false} TokensAlwaysHaveRow(s: Store, requests: seq<Request>)
    requires TokensHaveRow(s)
    ensures forall t | t in Served(s, requests) :: TokensHaveRow(t)
  {
    if requests != [] {
      var n := |requests| - 1;
      TokensAlwaysHaveRow(s, requests[..n]);
      var here := Final(s, Served(s, requests[..n]));
      match requests[n]
      case Put(_, _, _, _, _, _) => ConnectKeepsRow(here, requests[n]);
      case Test(_, _, _) => VerifyKeepsRow(here, requests[n]);
      case Delete(faults) =>
        DeletionIsSteady(here);
        SteadyUnderFaults(here, Deletion(here), faults);
    }
  }

  // ---------------------------------------------------------------------------------------------
  // What a PUT leaves behind

  ghost predicate SameConnection(s: Store, t: Store) {
    s.row == t.row && s.bot == t.bot && s.app == t.app
  }

  lemma ReadsEndWhereTheyStart(s: Store, actions: seq<Action>, faults: seq<Fault>)
    requires forall i | 0 <= i < |actions| :: actions[i].Read?
    ensures Final(s, Execute(s, actions, faults).states) == s
  {
    ReadsChangeNothing(s, actions, faults);
  }

  lemma ForwardWrites(s: Store, bot: Option<Token>, app: Option<Token>, identity: string)
    requires OrElse(bot, s.bot).Some? && OrElse(app, s.app).Some?
    ensures var actions := Forward(s, bot, app, identity);
            var t := Clean(s, actions, |actions|);
            && t.row.Some? && t.row.value.identity == identity
            && (s.row.Some? ==> t.row.value.id == s.row.value.id)
            && t.bot == OrElse(bot, s.bot) && t.app == OrElse(app, s.app)
            && (app.Some? || s.row.None? ==> t.row.value.id in t.sockets && Some(t.sockets[t.row.value.id]) == t.app)
  {
    var actions := Forward(s, bot, app, identity);
    var one := Clean(s, actions, 1);
    assert one == Perform(Clean(s, actions, 0), actions[0]);
    if |actions| > 1 {
      assert Clean(s, actions, 2) == Perform(one, actions[1]);
    }
    if |actions| > 2 {
      assert Clean(s, actions, 3) == Perform(Clean(s, actions, 2), actions[2]);
    }
    if |actions| > 3 {
      assert Clean(s, actions, 4) == Perform(Clean(s, actions, 3), actions[3]);
    }
  }

  lemma RollbackWrites(was: Store, s: Store, known: bool)
    requires was.row.Some? ==> s.row.Some? && s.row.value.id == was.row.value.id
    ensures var actions := Rollback(was, known);
            var t := Clean(s, actions, |actions|);
            && t.row == was.row
            && t.bot == (if was.row.Some? then was.bot else None)
            && t.app == (if was.row.Some? then was.app else None)
  {
    var actions := Rollback(was, known);
    assert Clean(s, actions, 1) == Perform(Clean(s, actions, 0), actions[0]);
    assert Clean(s, actions, 2) == Perform(Clean(s, actions, 1), actions[1]);
    assert Clean(s, actions, 3) == Perform(Clean(s, actions, 2), actions[2]);
    if |actions| > 3 {
      assert Clean(s, actions, 4) == Perform(Clean(s, actions, 3), actions[3]);
    }
  }

  /** Writing never gives an existing connection a new row. */
  lemma {:induction false} RowIdStays(s: Store, actions: seq<Action>, faults: seq<Fault>)
    requires forall i | 0 <= i < |actions| :: !actions[i].DropRow? && !actions[i].Disconnect?
    ensures var t := Final(s, Execute(s, actions, faults).states);
            s.row.Some? ==> t.row.Some? && t.row.value.id == s.row.value.id
  {
    if actions != [] {
      RowIdStays(s, actions[..|actions| - 1], faults);
    }
  }

  lemma FinalOfSum(s: Store, a: seq<Store>, b: seq<Store>)
    ensures Final(s, a + b) == Final(Final(s, a), b)
  {
  }

  /** A PUT that answers ok leaves the row and both tokens, each the entered one or else the stored one. */
  lemma OkMeansConnected(s: Store, request: Request)
    requires request.Put? && (Connect(s, request).answer.Saved? || Connect(s, request).answer.Unchanged?)
    ensures var t := Final(s, Connect(s, request).states);
            && t.row.Some? && t.bot.Some? && t.app.Some?
            && t.bot == OrElse(request.bot, s.bot) && t.app == OrElse(request.app, s.app)
            && (Connect(s, request).answer.Saved? ==> request.identity == Some(t.row.value.identity))
            && (Connect(s, request).answer.Unchanged? ==> t == s)
  {
    ReadsEndWhereTheyStart(s, [Read, Read, Read], request.lookups);
    var asked := Execute(s, [Read, Read, Read], request.lookups).states;
    if Connect(s, request).answer.Saved? {
      var actions := Forward(s, request.bot, request.app, request.identity.value);
      OnCleanPath(s, actions, request.writes);
      ForwardWrites(s, request.bot, request.app, request.identity.value);
      FinalOfSum(s, asked, Execute(s, actions, request.writes).states);
    }
  }

  /** A PUT that never got to write changed nothing. */
  lemma RefusedChangesNothing(s: Store, request: Request)
    requires request.Put?
    requires var a := Connect(s, request).answer; a.Failed? || a.MissingToken? || a.Invalid?
    ensures Final(s, Connect(s, request).states) == s
  {
    ReadsEndWhereTheyStart(s, [Read, Read, Read], request.lookups);
  }

  /** The rollback of a failed PUT ran to its end. */
  predicate RolledBack(s: Store, request: Request)
    requires request.Put?
  {
    && OrElse(request.app, s.app).Some? && request.identity.Some?
    && var saving := Execute(s, Forward(s, request.bot, request.app, request.identity.value), request.writes);
       Execute(Final(s, saving.states), Rollback(s, |saving.states| > 1), request.undo).fault.NoFault?
  }

  lemma FailedVisits(s: Store, request: Request)
    requires request.Put? && (Connect(s, request).answer.NotSaved? || Connect(s, request).answer.SocketRejected?)
    ensures var saving := Execute(s, Forward(s, request.bot, request.app, request.identity.value), request.writes).states;
            Connect(s, request).states ==
              Execute(s, [Read, Read, Read], request.lookups).states + saving
              + Execute(Final(s, saving), Rollback(s, |saving| > 1), request.undo).states
  {
    hide Execute, Forward, Rollback, Final;
  }

  lemma FailedWrote(s: Store, request: Request)
    requires request.Put? && (Connect(s, request).answer.NotSaved? || Connect(s, request).answer.SocketRejected?)
    ensures OrElse(request.app, s.app).Some? && request.identity.Some?
    ensures Final(s, Execute(s, [Read, Read, Read], request.lookups).states) == s
    ensures var here := Final(s, Execute(s, Forward(s, request.bot, request.app, request.identity.value), request.writes).states);
            s.row.Some? ==> here.row.Some? && here.row.value.id == s.row.value.id
  {
    hide Execute, Rollback, Final;
    ReadsEndWhereTheyStart(s, [Read, Read, Read], request.lookups);
    RowIdStays(s, Forward(s, request.bot, request.app, request.identity.value), request.writes);
  }

  /** Where a failed PUT ends: after the rollback of what its writes reached. */
  lemma FailedEndsRolledBack(s: Store, request: Request)
    requires request.Put? && (Connect(s, request).answer.NotSaved? || Connect(s, request).answer.SocketRejected?)
    ensures var saving := Execute(s, Forward(s, request.bot, request.app, request.identity.value), request.writes);
            var here := Final(s, saving.states);
            && (s.row.Some? ==> here.row.Some? && here.row.value.id == s.row.value.id)
            && Final(s, Connect(s, request).states) ==
               Final(here, Execute(here, Rollback(s, |saving.states| > 1), request.undo).states)
  {
    hide Execute, Forward, Rollback, Final, Connect;
    FailedWrote(s, request);
    FailedVisits(s, request);
    var actions := Forward(s, request.bot, request.app, request.identity.value);
    var asked := Execute(s, [Read, Read, Read], request.lookups).states;
    var saving := Execute(s, actions, request.writes).states;
    var here := Final(s, saving);
    FinalOfSum(s, asked, saving);
    FinalOfSum(s, asked + saving, Execute(here, Rollback(s, |saving| > 1), request.undo).states);
  }

  /**
   A PUT that failed while writing and could roll back restores row and tokens exactly if there was a
   row, or no token without one.
   */
  lemma FailedIsUndone(s: Store, request: Request)
    requires request.Put? && (Connect(s, request).answer.NotSaved? || Connect(s, request).answer.SocketRejected?)
    requires RolledBack(s, request)
    ensures SameConnection(s, Final(s, Connect(s, request).states)) <==> s.row.Some? || (s.bot.None? && s.app.None?)
    ensures TokensHaveRow(s) ==> SameConnection(s, Final(s, Connect(s, request).states))
  {
    FailedEndsRolledBack(s, request);
    hide Connect, Execute, Forward, Final, Clean, Rollback, Perform;
    var saving := Execute(s, Forward(s, request.bot, request.app, request.identity.value), request.writes);
    var here := Final(s, saving.states);
    var undo := Rollback(s, |saving.states| > 1);
    RollbackWrites(s, here, |saving.states| > 1);
    OnCleanPath(here, undo, request.undo);
  }

  // ---------------------------------------------------------------------------------------------
  // Which answer a request gets

  /** The first of `n` awaits that throws. */
  function FirstThrown(faults: seq<Fault>, n: nat): (k: Option<nat>)
    ensures k.Some? ==> k.value < n && At(faults, k.value).Thrown?
    ensures forall i | 0 <= i < n && (k.Some? ==> i < k.value) :: At(faults, i).NoFault?
  {
    if n == 0 then None
    else
      var k := FirstThrown(faults, n - 1);
      if k.Some? then k else if At(faults, n - 1).Thrown? then Some(n - 1) else None
  }

  /** A list stops at the first await that throws. */
  lemma {:induction false} StopsAtFirstThrown(s: Store, actions: seq<Action>, faults: seq<Fault>)
    ensures var r, k := Execute(s, actions, faults), FirstThrown(faults, |actions|);
      && r.fault == (if k.Some? then At(faults, k.value) else NoFault)
      && |r.states| == (if k.Some? then k.value + 1 else |actions|)
  {
    hide Perform;
    if actions != [] {
      StopsAtFirstThrown(s, actions[..|actions| - 1], faults);
    }
  }

  predicate TokensKnown(s: Store, request: Request)
    requires request.Put?
  {
    OrElse(request.bot, s.bot).Some? && OrElse(request.app, s.app).Some?
  }

  /** Nothing was entered, and there is a connection to leave alone. */
  predicate NothingEntered(s: Store, request: Request)
    requires request.Put?
  {
    s.row.Some? && request.bot.None? && request.app.None?
  }

  /** One write for the row, one for each token to write, and the socket start after the app token's. */
  function WriteCount(s: Store, request: Request): nat
    requires request.Put?
  {
    1 + (if request.bot.Some? || s.row.None? then 1 else 0) + (if request.app.Some? || s.row.None? then 2 else 0)
  }

  predicate Writes(s: Store, request: Request)
    requires request.Put?
  {
    && FirstThrown(request.lookups, 3).None? && TokensKnown(s, request) && !NothingEntered(s, request)
    && request.identity.Some?
  }

  /**
   A PUT answers by the first thing that is wrong: a lookup, a missing token, nothing to do, Slack's verdict,
   and then the first write that throws, which is a conflict, the socket start, or another.
   */
  lemma PutAnswers(s: Store, request: Request)
    requires request.Put?
    ensures var answer, k := Connect(s, request).answer, FirstThrown(request.writes, WriteCount(s, request));
      && (answer.Failed? <==> FirstThrown(request.lookups, 3).Some?)
      && (answer.MissingToken? <==> FirstThrown(request.lookups, 3).None? && !TokensKnown(s, request))
      && (answer.Unchanged? <==>
            FirstThrown(request.lookups, 3).None? && TokensKnown(s, request) && NothingEntered(s, request))
      && (answer.Invalid? <==>
            && FirstThrown(request.lookups, 3).None? && TokensKnown(s, request) && !NothingEntered(s, request)
            && request.identity.None?)
      && (answer.Saved? <==> Writes(s, request) && k.None?)
      && (answer.Taken? <==> Writes(s, request) && k.Some? && At(request.writes, k.value).conflict)
      && (answer.SocketRejected? <==>
            && Writes(s, request) && k.Some? && !At(request.writes, k.value).conflict
            && (request.app.Some? || s.row.None?) && k.value == WriteCount(s, request) - 1)
      && !answer.Tested? && !answer.Disconnected?
  {
    hide Execute, Rollback, FirstThrown;
    StopsAtFirstThrown(s, [Read, Read, Read], request.lookups);
    if TokensKnown(s, request) && request.identity.Some? {
      var actions := Forward(s, request.bot, request.app, request.identity.value);
      StopsAtFirstThrown(s, actions, request.writes);
      assert |actions| == WriteCount(s, request);
    }
  }

  /** A test writes nothing but the identity Slack reports, and only on a row that is there. */
  lemma TestOnlyRefreshes(s: Store, request: Request)
    requires request.Test?
    ensures var reply, t := Verify(s, request), Final(s, Verify(s, request).states);
      && (reply.answer.Failed? <==>
            FirstThrown(request.lookups, 2).Some? ||
            (s.bot.Some? && s.app.Some? && request.identity.Some?
             && FirstThrown(request.writes, if s.row.Some? then 2 else 1).Some?))
      && (reply.answer.MissingToken? <==> FirstThrown(request.lookups, 2).None? && (s.bot.None? || s.app.None?))
      && (reply.answer.Invalid? <==>
            FirstThrown(request.lookups, 2).None? && s.bot.Some? && s.app.Some? && request.identity.None?)
      && (reply.answer.Tested? || reply.answer.Failed? || reply.answer.MissingToken? || reply.answer.Invalid?)
      && (t == s || (s.row.Some? && request.identity.Some? &&
                     t == s.(row := Some(s.row.value.(identity := request.identity.value)))))
      && (reply.answer.Tested? && s.row.Some? ==> t.row.value.identity == request.identity.value)
  {
    hide FirstThrown;
    StopsAtFirstThrown(s, [Read, Read], request.lookups);
    ReadsEndWhereTheyStart(s, [Read, Read], request.lookups);
    if request.identity.Some? {
      var actions := [Read] + if s.row.Some? then [Upsert(request.identity.value)] else [];
      StopsAtFirstThrown(s, actions, request.writes);
      OnCleanPath(s, actions, request.writes);
      FinalOfSum(s, Execute(s, [Read, Read], request.lookups).states, Execute(s, actions, request.writes).states);
      RefreshPath(s, actions, request.identity.value);
      hide Execute;
    }
  }

  lemma RefreshPath(s: Store, actions: seq<Action>, identity: string)
    requires actions == [Read] + if s.row.Some? then [Upsert(identity)] else []
    ensures Clean(s, actions, 0) == s && Clean(s, actions, 1) == s
    ensures s.row.Some? ==> |actions| == 2 && Clean(s, actions, 2) == s.(row := Some(s.row.value.(identity := identity)))
  {
    assert Clean(s, actions, 1) == Perform(Clean(s, actions, 0), actions[0]);
    if s.row.Some? {
      assert Clean(s, actions, 2) == Perform(Clean(s, actions, 1), actions[1]);
    }
  }

  /** A DELETE answers ok exactly if none of its awaits threw. */
  lemma DeleteAnswers(s: Store, request: Request)
    requires request.Delete?
    ensures var n := if s.row.Some? then 7 else 6;
      && (Drop(s, request).answer.Disconnected? <==> FirstThrown(request.writes, n).None?)
      && (Drop(s, request).answer.Failed? <==> FirstThrown(request.writes, n).Some?)
  {
    hide FirstThrown;
    StopsAtFirstThrown(s, Deletion(s), request.writes);
  }

  // ---------------------------------------------------------------------------------------------
  // The socket of a rolled-back PUT

  /** The socket manager ran the entered token although the start was reported as failed. */
  predicate SocketStarted(s: Store, request: Request)
    requires request.Put?
  {
    && OrElse(request.app, s.app).Some? && request.identity.Some?
    && var actions := Forward(s, request.bot, request.app, request.identity.value);
       var saving := Execute(s, actions, request.writes);
       saving.fault.Thrown? && saving.fault.landed && actions[|saving.states| - 1].StartSocket?
  }

  lemma {:induction false} SocketsStay(s: Store, actions: seq<Action>, k: nat)
    requires k <= |actions| && forall i | 0 <= i < k :: !actions[i].StartSocket? && !actions[i].StopSocket?
    ensures Clean(s, actions, k).sockets == s.sockets
  {
    if k > 0 {
      SocketsStay(s, actions, k - 1);
    }
  }

  /** The socket start is the last write; the writes before it leave the sockets alone and give the row its id. */
  lemma ForwardSockets(s: Store, bot: Option<Token>, app: Option<Token>, identity: string, m: nat)
    requires OrElse(app, s.app).Some? && m <= |Forward(s, bot, app, identity)|
    ensures var actions := Forward(s, bot, app, identity);
            var t, id := Clean(s, actions, m), if s.row.Some? then s.row.value.id else s.nextId;
            && (m > 0 ==> t.row.Some? && t.row.value.id == id)
            && (m > 0 && actions[m - 1].StartSocket? <==> m == |actions| && (app.Some? || s.row.None?))
            && t.sockets == if m > 0 && actions[m - 1].StartSocket? then s.sockets[id := OrElse(app, s.app).value] else s.sockets
  {
    var actions := Forward(s, bot, app, identity);
    if m > 0 {
      assert Clean(s, actions, 1) == Perform(Clean(s, actions, 0), actions[0]);
    }
    if m > 1 {
      assert Clean(s, actions, 2) == Perform(Clean(s, actions, 1), actions[1]);
    }
    if m > 2 {
      assert Clean(s, actions, 3) == Perform(Clean(s, actions, 2), actions[2]);
    }
    if m > 3 {
      assert Clean(s, actions, 4) == Perform(Clean(s, actions, 3), actions[3]);
    }
  }

  /** The sockets when the writes of a PUT stopped. */
  lemma SocketsWhenStopped(s: Store, request: Request)
    requires request.Put? && OrElse(request.app, s.app).Some? && request.identity.Some?
    requires var actions := Forward(s, request.bot, request.app, request.identity.value);
             Execute(s, actions, request.writes).fault.Thrown?
    ensures var actions := Forward(s, request.bot, request.app, request.identity.value);
            var saving := Execute(s, actions, request.writes);
            var here := Final(s, saving.states);
            var id := if s.row.Some? then s.row.value.id else s.nextId;
            && here.sockets == (if SocketStarted(s, request) then s.sockets[id := OrElse(request.app, s.app).value] else s.sockets)
            && (|saving.states| > 1 ==> here.row.Some? && here.row.value.id == id)
            && (SocketStarted(s, request) && s.row.None? ==> |saving.states| > 1)
  {
    var actions := Forward(s, request.bot, request.app, request.identity.value);
    var saving := Execute(s, actions, request.writes);
    OnCleanPath(s, actions, request.writes);
    ForwardSockets(s, request.bot, request.app, request.identity.value, |saving.states|);
    ForwardSockets(s, request.bot, request.app, request.identity.value, |saving.states| - 1);
    if s.row.None? {
      assert |actions| == 4;
    }
    hide Forward, Clean, Execute;
  }

  lemma SocketsAfterUndo(was: Store, s: Store, known: bool)
    requires known ==> s.row.Some?
    ensures var actions := Rollback(was, known);
            Clean(s, actions, |actions|).sockets ==
              if was.row.None? && known then s.sockets - {s.row.value.id} else s.sockets
  {
    var actions := Rollback(was, known);
    if was.row.None? && known {
      assert Clean(s, actions, 1) == Perform(Clean(s, actions, 0), actions[0]);
      assert Clean(s, actions, 2) == Perform(Clean(s, actions, 1), actions[1]);
      assert Clean(s, actions, 3) == Perform(Clean(s, actions, 2), actions[2]);
      assert Clean(s, actions, 4) == Perform(Clean(s, actions, 3), actions[3]);
    } else {
      SocketsStay(s, actions, |actions|);
    }
  }

  /**
   The rollback does not restart a socket, and only in one case would it have to: the sockets are as
   before the PUT if and only if there was no row, or the failed start left the old socket running, or
   the old socket ran with the entered token anyway.
   */
  lemma SocketAfterRollback(s: Store, request: Request)
    requires request.Put? && (Connect(s, request).answer.NotSaved? || Connect(s, request).answer.SocketRejected?)
    requires RolledBack(s, request) && (s.row.None? ==> s.nextId !in s.sockets)
    ensures Final(s, Connect(s, request).states).sockets == s.sockets <==>
              || s.row.None? || !SocketStarted(s, request)
              || (s.row.value.id in s.sockets && Some(s.sockets[s.row.value.id]) == OrElse(request.app, s.app))
  {
    hide Execute, Final, Clean, Rollback, Perform, Forward, SocketStarted, At;
    FailedEndsRolledBack(s, request);
    var saving := Execute(s, Forward(s, request.bot, request.app, request.identity.value), request.writes);
    var here := Final(s, saving.states);
    var known := |saving.states| > 1;
    SocketsWhenStopped(s, request);
    SocketsAfterUndo(s, here, known);
    OnCleanPath(here, Rollback(s, known), request.undo);
    if s.row.Some? && SocketStarted(s, request) {
      assert here.sockets[s.row.value.id] == OrElse(request.app, s.app).value;
    }
  }

  /** A connected workspace whose socket runs with the stored token. */
  const CONNECTED := Store(Some(Config(0, "workspace")), Some("bot"), Some("app"), None, map[0 := "app"], {}, map[], 1)

  /** A start that fails after it took effect leaves the socket on a token that is no longer stored. */
  lemma SocketLeftOnNewToken() returns (request: Request)
    ensures request.Put? && Connect(CONNECTED, request).answer.SocketRejected? && RolledBack(CONNECTED, request)
    ensures Final(CONNECTED, Connect(CONNECTED, request).states).app == Some("app")
    ensures Final(CONNECTED, Connect(CONNECTED, request).states).sockets != CONNECTED.sockets
  {
    request := Put(None, Some("new"), Some("workspace"), [], [NoFault, NoFault, Thrown(true, false)], []);
    var actions := Forward(CONNECTED, None, Some("new"), "workspace");
    assert actions == [Upsert("workspace"), SetApp(Some("new")), StartSocket("new")];
    NoFaultNoThrow(CONNECTED, [Read, Read, Read]);
    ThirdThrows(CONNECTED, actions, request.writes);
    var here := Final(CONNECTED, Execute(CONNECTED, actions, request.writes).states);
    NoFaultNoThrow(here, Rollback(CONNECTED, true));
    FailedIsUndone(CONNECTED, request);
    SocketAfterRollback(CONNECTED, request);
  }

  lemma ThirdThrows(s: Store, actions: seq<Action>, faults: seq<Fault>)
    requires |actions| == 3 && |faults| == 3 && faults[0] == faults[1] == NoFault && faults[2].Thrown?
    ensures Execute(s, actions, faults).fault == faults[2] && |Execute(s, actions, faults).states| == 3
  {
    var two, one := actions[..2], actions[..2][..1];
    assert one[..0] == [];
    ExecuteNone(s, faults);
    assert Execute(s, one, faults).fault == NoFault && |Execute(s, one, faults).states| == 1;
    assert Execute(s, two, faults).fault == NoFault && |Execute(s, two, faults).states| == 2;
  }

  // ---------------------------------------------------------------------------------------------
  // A PUT answered 409

  /** The write puts what is there already. */
  ghost predicate Idle(s: Store, a: Action) {
    SameConnection(s, Perform(s, a))
  }

  lemma ForwardSame(s: Store, bot: Option<Token>, app: Option<Token>, identity: string, k: nat)
    requires OrElse(app, s.app).Some? && k <= |Forward(s, bot, app, identity)|
    ensures var actions := Forward(s, bot, app, identity);
            SameConnection(s, Clean(s, actions, k)) <==> forall i | 0 <= i < k :: Idle(s, actions[i])
  {
    var actions := Forward(s, bot, app, identity);
    if k > 0 {
      assert Clean(s, actions, 1) == Perform(Clean(s, actions, 0), actions[0]);
    }
    if k > 1 {
      assert Clean(s, actions, 2) == Perform(Clean(s, actions, 1), actions[1]);
    }
    if k > 2 {
      assert Clean(s, actions, 3) == Perform(Clean(s, actions, 2), actions[2]);
    }
    if k > 3 {
      assert Clean(s, actions, 4) == Perform(Clean(s, actions, 3), actions[3]);
    }
  }

  /** The row's unique key is the only one a write can violate, and a write that violates it is refused. */
  predicate OnlyRowConflicts(writes: seq<Fault>) {
    forall i | 0 <= i < |writes| && writes[i].Thrown? && writes[i].conflict :: i == 0 && !writes[i].landed
  }

  /** Every 409 leaves the whole store as it was, since only the row can be refused. */
  lemma TakenChangesNothing(s: Store, request: Request)
    requires request.Put? && Connect(s, request).answer.Taken? && OnlyRowConflicts(request.writes)
    ensures Final(s, Connect(s, request).states) == s
  {
    ReadsEndWhereTheyStart(s, [Read, Read, Read], request.lookups);
    var actions := Forward(s, request.bot, request.app, request.identity.value);
    var saving := Execute(s, actions, request.writes);
    RowIsWritten(s, actions, request.writes);
    FinalOfSum(s, Execute(s, [Read, Read, Read], request.lookups).states, saving.states);
  }

  /**
   In general, whichever write is refused: a 409 leaves row and tokens as they were if and only if every
   write that took effect before it put what was there already.
   */
  lemma TakenIsNotUndone(s: Store, request: Request)
    requires request.Put? && Connect(s, request).answer.Taken?
    ensures var actions := Forward(s, request.bot, request.app, request.identity.value);
            SameConnection(s, Final(s, Connect(s, request).states)) <==>
              forall i | 0 <= i < Landed(Execute(s, actions, request.writes)) :: Idle(s, actions[i])
  {
    ReadsEndWhereTheyStart(s, [Read, Read, Read], request.lookups);
    var actions := Forward(s, request.bot, request.app, request.identity.value);
    var saving := Execute(s, actions, request.writes);
    OnCleanPath(s, actions, request.writes);
    FinalOfSum(s, Execute(s, [Read, Read, Read], request.lookups).states, saving.states);
    ForwardSame(s, request.bot, request.app, request.identity.value, Landed(saving));
    hide Forward, Clean, Idle;
  }

  /** A conflict raised by a token write, which the stores of today cannot raise, would leave the new identity. */
  lemma LateConflictRun() returns (request: Request)
    ensures request.Put? && Connect(CONNECTED, request).answer.Taken?
    ensures !SameConnection(CONNECTED, Final(CONNECTED, Connect(CONNECTED, request).states))
  {
    request := Put(None, Some("new"), Some("other"), [], [NoFault, NoFault, Thrown(false, true)], []);
    var actions := Forward(CONNECTED, None, Some("new"), "other");
    assert actions == [Upsert("other"), SetApp(Some("new")), StartSocket("new")];
    NoFaultNoThrow(CONNECTED, [Read, Read, Read]);
    ThirdThrows(CONNECTED, actions, request.writes);
    TakenIsNotUndone(CONNECTED, request);
    assert !Idle(CONNECTED, actions[0]);
  }

  lemma {:induction false} RowIsWritten(s: Store, actions: seq<Action>, faults: seq<Fault>)
    requires actions != [] && actions[0].Upsert?
    requires forall i | 0 < i < |actions| :: actions[i].SetBot? || actions[i].SetApp? || actions[i].StartSocket?
    ensures var r := Execute(s, actions, faults);
            var t := Final(s, r.states);
            && r.states != []
            && (|r.states| == 1 && r.fault.Thrown? && !r.fault.landed ==> t == s)
            && (|r.states| > 1 || r.fault.NoFault? || r.fault.landed ==>
                  t.row.Some? && t.row.value.identity == actions[0].identity)
  {
    if |actions| > 1 {
      RowIsWritten(s, actions[..|actions| - 1], faults);
    } else {
      assert Execute(s, actions[..0], faults) == Execution([], NoFault);
    }
  }

  // ---------------------------------------------------------------------------------------------
  // DELETE can be repeated

  /** Nothing of the connection is left. */
  function Erased(s: Store): Store {
    Store(None, None, None, None, if s.row.Some? then s.sockets - {s.row.value.id} else s.sockets, {},
          map d | d in s.deliveries :: Interrupted(s.deliveries[d]), s.nextId)
  }

  lemma PerformKeepsErased(s: Store, a: Action)
    requires !a.Upsert? && !a.StartSocket? && !a.DropRow?
    requires a.Disconnect? && s.row.Some? ==> s.row.value.id !in s.sockets
    ensures Erased(Perform(s, a)) == Erased(s)
  {
    if a.StopSocket? && s.row.Some? {
      assert s.sockets - {s.row.value.id} - {s.row.value.id} == s.sockets - {s.row.value.id};
    }
    if a.Disconnect? && s.row.Some? {
      assert s.sockets - {s.row.value.id} == s.sockets;
    }
  }

  lemma {:induction false} ErasedAlongDeletion(s: Store, k: nat)
    requires k <= |Deletion(s)|
    ensures var t := Clean(s, Deletion(s), k);
            && Erased(t) == Erased(s)
            && (k < |Deletion(s)| ==> t.row == s.row)
            && (k > 2 && s.row.Some? ==> s.row.value.id !in t.sockets)
  {
    if k > 0 {
      ErasedAlongDeletion(s, k - 1);
      hide Erased;
      var a := Deletion(s)[k - 1];
      assert a.Disconnect? <==> k == |Deletion(s)|;
      assert k == 3 && s.row.Some? ==> a.StopSocket?;
      PerformKeepsErased(Clean(s, Deletion(s), k - 1), a);
    }
  }

  lemma DeletionErases(s: Store)
    ensures Clean(s, Deletion(s), |Deletion(s)|) == Erased(s)
  {
    var actions := Deletion(s);
    var m := if s.row.Some? then 3 else 2;
    assert Clean(s, actions, 1) == Perform(Clean(s, actions, 0), actions[0]);
    assert Clean(s, actions, 2) == Perform(Clean(s, actions, 1), actions[1]);
    if s.row.Some? {
      assert Clean(s, actions, 3) == Perform(Clean(s, actions, 2), actions[2]);
    }
    assert Clean(s, actions, m + 1) == Perform(Clean(s, actions, m), actions[m]);
    assert Clean(s, actions, m + 2) == Perform(Clean(s, actions, m + 1), actions[m + 1]);
    assert Clean(s, actions, m + 3) == Perform(Clean(s, actions, m + 2), actions[m + 2]);
    assert Clean(s, actions, m + 4) == Perform(Clean(s, actions, m + 3), actions[m + 3]);
  }

  function Deletes(attempts: seq<seq<Fault>>): seq<Request> {
    if attempts == [] then [] else Deletes(attempts[..|attempts| - 1]) + [Delete(attempts[|attempts| - 1])]
  }

  /** Whatever failed in earlier attempts, there is as much left to erase as there was before them. */
  lemma {:induction false} AttemptsKeepErased(s: Store, attempts: seq<seq<Fault>>)
    ensures Erased(Final(s, Served(s, Deletes(attempts)))) == Erased(s)
  {
    if attempts != [] {
      var n := |attempts| - 1;
      AttemptsKeepErased(s, attempts[..n]);
      var before := Served(s, Deletes(attempts[..n]));
      var here := Final(s, before);
      var states := Execute(here, Deletion(here), attempts[n]).states;
      OnCleanPath(here, Deletion(here), attempts[n]);
      ErasedAlongDeletion(here, |states|);
      ErasedAlongDeletion(here, |states| - 1);
      FinalOfSum(s, before, states);
      assert Deletes(attempts) == Deletes(attempts[..n]) + [Delete(attempts[n])];
      assert Deletes(attempts)[..|Deletes(attempts)| - 1] == Deletes(attempts[..n]);
    }
  }

  /**
   After any number of DELETEs that failed anywhere, one that runs through ends where a first one would
   have: no row, no secret, no channel listened to, no delivery under way and the socket stopped.
   */
  lemma DeleteCanBeRepeated(s: Store, attempts: seq<seq<Fault>>)
    ensures var t := Final(s, Served(s, Deletes(attempts + [[]])));
            t == Erased(s) == Final(s, Served(s, Deletes([[]]))) && FullyDisconnected(s, t)
  {
    hide Served, Deletes, Final, Execute, Erased;
    var none: seq<seq<Fault>> := [];
    LastDeleteErases(s, attempts);
    LastDeleteErases(s, none);
    assert none + [[]] == [[]];
    ErasedIsDisconnected(s);
  }

  /**
   In `t` nothing is left of the connection `s` had. A delivery not yet claimed is blocked: it was never
   attempted. One that was being sent is uncertain: Slack may have it. Settled ones and the sockets of other
   rows are as they were.
   */
  ghost predicate FullyDisconnected(s: Store, t: Store) {
    && t.row.None? && t.bot.None? && t.app.None? && t.signing.None? && t.channels == {}
    && t.sockets.Keys == s.sockets.Keys - (if s.row.Some? then {s.row.value.id} else {})
    && (forall id | id in t.sockets :: t.sockets[id] == s.sockets[id])
    && t.deliveries.Keys == s.deliveries.Keys
    && (forall d | d in s.deliveries ::
          && (s.deliveries[d].Queued? ==> t.deliveries[d].Blocked?)
          && (s.deliveries[d].Sending? ==> t.deliveries[d].Uncertain?)
          && (Terminal(s.deliveries[d]) ==> t.deliveries[d] == s.deliveries[d]))
  }

  lemma ErasedIsDisconnected(s: Store)
    ensures FullyDisconnected(s, Erased(s))
  {
  }

  lemma LastDeleteErases(s: Store, attempts: seq<seq<Fault>>)
    ensures Final(s, Served(s, Deletes(attempts + [[]]))) == Erased(s)
  {
    AttemptsKeepErased(s, attempts);
    var before := Served(s, Deletes(attempts));
    var here := Final(s, before);
    var deletes := Deletes(attempts + [[]]);
    assert (attempts + [[]])[..|attempts|] == attempts;
    assert deletes == Deletes(attempts) + [Delete([])] && deletes[..|deletes| - 1] == Deletes(attempts);
    DeletionErases(here);
    OnCleanPath(here, Deletion(here), []);
    NoFaultNoThrow(here, Deletion(here));
    FinalOfSum(s, before, Execute(here, Deletion(here), []).states);
  }

  lemma {:induction false} NoFaultNoThrow(s: Store, actions: seq<Action>)
    ensures Execute(s, actions, []).fault.NoFault?
  {
    if actions != [] {
      NoFaultNoThrow(s, actions[..|actions| - 1]);
    }
  }

  // ---------------------------------------------------------------------------------------------
  // The handlers

  lemma {:induction false} ThrowEnds(s: Store, actions: seq<Action>, k: nat, faults: seq<Fault>)
    requires k <= |actions| && Execute(s, actions[..k], faults).fault.Thrown?
    ensures Execute(s, actions, faults) == Execute(s, actions[..k], faults)
  {
    if k < |actions| {
      assert actions[..|actions| - 1][..k] == actions[..k];
      ThrowEnds(s, actions[..|actions| - 1], k, faults);
    } else {
      assert actions[..k] == actions;
    }
  }

  lemma ExecuteNone(s: Store, faults: seq<Fault>)
    ensures Execute(s, [], faults) == Execution([], NoFault)
  {
  }

  class Tenant {
    var row: Option<Config>
    var bot: Option<Token>
    var app: Option<Token>
    var signing: Option<Token>
    var sockets: map<nat, Token>
    var channels: set<string>
    var deliveries: map<nat, Delivery>
    var nextId: nat
    /** The store after every await so far. */
    ghost var trace: seq<Store>

    constructor (channels: set<string>, deliveries: map<nat, Delivery>)
      ensures Snapshot() == Store(None, None, None, None, map[], channels, deliveries, 0) && trace == []
    {
      row, bot, app, signing, sockets, nextId := None, None, None, None, map[], 0;
      this.channels, this.deliveries, trace := channels, deliveries, [];
    }

    function Snapshot(): Store
      reads this
    {
      Store(row, bot, app, signing, sockets, channels, deliveries, nextId)
    }

    method Await(action: Action, fault: Fault)
      modifies this
      ensures Snapshot() ==
                if fault == NoFault || fault.landed then Perform(old(Snapshot()), action) else old(Snapshot())
      ensures trace == old(trace) + [Snapshot()]
    {
      if fault == NoFault || fault.landed {
        match action {
          case Read =>
          case Upsert(identity) =>
            if row.Some? {
              row := Some(row.value.(identity := identity));
            } else {
              row, nextId := Some(Config(nextId, identity)), nextId + 1;
            }
          case SetBot(token) => bot := token;
          case SetApp(token) => app := token;
          case DropSigning => signing := None;
          case StartSocket(token) =>
            if row.Some? {
              sockets := sockets[row.value.id := token];
            }
          case StopSocket =>
            if row.Some? {
              sockets := sockets - {row.value.id};
            }
          case DropRow => row := None;
          case DisableChannels => channels := {};
          case Disconnect =>
            row, deliveries := None, map d | d in deliveries :: Interrupted(deliveries[d]);
        }
      }
      trace := trace + [Snapshot()];
    }

    /** From `was`, the first `k` of the actions ran through. */
    ghost predicate Doing(was: Store, actions: seq<Action>, k: nat, faults: seq<Fault>, base: seq<Store>)
      requires k <= |actions|
      reads this
    {
      var r := Execute(was, actions[..k], faults);
      r.fault.NoFault? && trace == base + r.states && Snapshot() == Final(was, r.states)
    }

    /** From `was`, the actions ran until `fault`. */
    ghost predicate Did(was: Store, actions: seq<Action>, fault: Fault, faults: seq<Fault>, base: seq<Store>)
      reads this
    {
      var r := Execute(was, actions, faults);
      r.fault == fault && trace == base + r.states && Snapshot() == Final(was, r.states)
    }

    /** The next await of a list. */
    method Step(
        action: Action, fault: Fault,
        ghost was: Store, ghost actions: seq<Action>, ghost k: nat, ghost faults: seq<Fault>, ghost base: seq<Store>)
      requires k < |actions| && actions[k] == action && fault == At(faults, k)
      requires Doing(was, actions, k, faults, base)
      modifies this
      ensures fault.NoFault? ==> Doing(was, actions, k + 1, faults, base)
      ensures fault.NoFault? && k + 1 == |actions| ==> Did(was, actions, NoFault, faults, base)
      ensures fault.Thrown? ==>
                Did(was, actions, fault, faults, base) && |Execute(was, actions, faults).states| == k + 1
      ensures fault.NoFault? ==> Snapshot() == Perform(old(Snapshot()), action)
    {
      hide Perform;
      assert actions[..k + 1][..k] == actions[..k];
      Await(action, fault);
      if fault.Thrown? {
        ThrowEnds(was, actions, k + 1, faults);
      } else if k + 1 == |actions| {
        assert actions[..k + 1] == actions;
      }
    }

    /** The try block of PUT. `stage` is the await that threw; `known`: the upsert returned before it. */
    method Save(bot: Option<Token>, app: Option<Token>, identity: string, faults: seq<Fault>)
      returns (fault: Fault, known: bool, stage: Action)
      requires OrElse(bot, this.bot).Some? && OrElse(app, this.app).Some?
      modifies this
      ensures var actions := Forward(old(Snapshot()), bot, app, identity);
              && Did(old(Snapshot()), actions, fault, faults, old(trace))
              && (fault.Thrown? ==>
                    var reached := |Execute(old(Snapshot()), actions, faults).states|;
                    stage == actions[reached - 1] && (known <==> reached > 1))
    {
      ghost var was, base := Snapshot(), trace;
      ghost var actions := Forward(was, bot, app, identity);
      var existing, botToken, appToken := row.Some?, OrElse(bot, this.bot), OrElse(app, this.app);
      var k := 0;
      hide Perform;
      assert actions[..0] == [];
      stage, fault, known := Upsert(identity), At(faults, k), false;
      Step(stage, fault, was, actions, k, faults, base);
      if fault.Thrown? {
        return;
      }
      known, k := true, k + 1;
      if bot.Some? || !existing {
        stage, fault := SetBot(botToken), At(faults, k);
        Step(stage, fault, was, actions, k, faults, base);
        if fault.Thrown? {
          return;
        }
        k := k + 1;
      }
      if app.Some? || !existing {
        stage, fault := SetApp(appToken), At(faults, k);
        Step(stage, fault, was, actions, k, faults, base);
        if fault.Thrown? {
          return;
        }
        k := k + 1;
        stage, fault := StartSocket(appToken.value), At(faults, k);
        Step(stage, fault, was, actions, k, faults, base);
      }
    }

    /** The catch block of PUT; its own errors are only logged. */
    method Undo(existing: Option<Config>, storedBot: Option<Token>, storedApp: Option<Token>, known: bool,
                ghost original: Store, faults: seq<Fault>)
      requires original.row == existing && original.bot == storedBot && original.app == storedApp
      modifies this
      ensures var actions := Rollback(original, known);
              Did(old(Snapshot()), actions, Execute(old(Snapshot()), actions, faults).fault, faults, old(trace))
    {
      ghost var was, base := Snapshot(), trace;
      ghost var actions := Rollback(original, known);
      hide Perform;
      assert actions[..0] == [];
      if existing.Some? {
        assert actions[0..] == [Upsert(existing.value.identity), SetBot(storedBot), SetApp(storedApp)];
        Restore(existing.value.identity, storedBot, storedApp, faults, was, actions, base);
        return;
      }
      var k := 0;
      if known {
        var fault := At(faults, 0);
        Step(StopSocket, fault, was, actions, 0, faults, base);
        if fault.Thrown? { return; }
        k := 1;
      }
      assert actions[k..] == [SetBot(None), SetApp(None), DropRow];
      Withdraw(faults, k, was, actions, base);
    }

    method Restore(
        identity: string, storedBot: Option<Token>, storedApp: Option<Token>, faults: seq<Fault>,
        ghost was: Store, ghost actions: seq<Action>, ghost base: seq<Store>)
      requires actions == [Upsert(identity), SetBot(storedBot), SetApp(storedApp)]
      requires Doing(was, actions, 0, faults, base)
      modifies this
      ensures Did(was, actions, Execute(was, actions, faults).fault, faults, base)
    {
      hide *;
      var fault := At(faults, 0);
      Step(Upsert(identity), fault, was, actions, 0, faults, base);
      DidAny(was, actions, fault, faults, base);
      if fault.Thrown? { return; }
      fault := At(faults, 1);
      Step(SetBot(storedBot), fault, was, actions, 1, faults, base);
      DidAny(was, actions, fault, faults, base);
      if fault.Thrown? { return; }
      fault := At(faults, 2);
      Step(SetApp(storedApp), fault, was, actions, 2, faults, base);
      DidAny(was, actions, fault, faults, base);
    }

    method Withdraw(faults: seq<Fault>, k: nat, ghost was: Store, ghost actions: seq<Action>, ghost base: seq<Store>)
      requires |actions| == k + 3 && actions[k..] == [SetBot(None), SetApp(None), DropRow]
      requires Doing(was, actions, k, faults, base)
      modifies this
      ensures Did(was, actions, Execute(was, actions, faults).fault, faults, base)
    {
      hide *;
      assert forall i | 0 <= i < 3 :: actions[k + i] == actions[k..][i];
      var fault := At(faults, k);
      Step(SetBot(None), fault, was, actions, k, faults, base);
      DidAny(was, actions, fault, faults, base);
      if fault.Thrown? { return; }
      fault := At(faults, k + 1);
      Step(SetApp(None), fault, was, actions, k + 1, faults, base);
      DidAny(was, actions, fault, faults, base);
      if fault.Thrown? { return; }
      fault := At(faults, k + 2);
      Step(DropRow, fault, was, actions, k + 2, faults, base);
      DidAny(was, actions, fault, faults, base);
    }

    lemma DidAny(was: Store, actions: seq<Action>, fault: Fault, faults: seq<Fault>, base: seq<Store>)
      ensures Did(was, actions, fault, faults, base) ==>
                Did(was, actions, Execute(was, actions, faults).fault, faults, base)
    {
    }

    method Lookups(times: nat, faults: seq<Fault>) returns (fault: Fault)
      modifies this
      ensures Snapshot() == old(Snapshot())
      ensures Did(old(Snapshot()), seq(times, _ => Read), fault, faults, old(trace))
    {
      ghost var was, base, actions := Snapshot(), trace, seq(times, _ => Read);
      fault := NoFault;
      assert actions[..0] == [];
      for k := 0 to times
        invariant Snapshot() == was && fault == NoFault
        invariant Doing(was, actions, k, faults, base)
      {
        fault := At(faults, k);
        Step(Read, fault, was, actions, k, faults, base);
        if fault.Thrown? {
          ReadsEndWhereTheyStart(was, actions, faults);
          return;
        }
      }
      assert actions[..times] == actions;
    }

    method HandlePut(request: Request) returns (answer: Answer)
      requires request.Put?
      modifies this
      ensures var reply := Connect(old(Snapshot()), request);
              && answer == reply.answer && trace == old(trace) + reply.states
              && Snapshot() == Final(old(Snapshot()), reply.states)
    {
      hide Execute, Perform, Forward, Rollback, Final;
      ghost var was, base := Snapshot(), trace;
      assert seq(3, _ => Read) == [Read, Read, Read];
      var fault := Lookups(3, request.lookups);
      ghost var asked := Execute(was, [Read, Read, Read], request.lookups).states;
      if fault.Thrown? {
        return Failed;
      }
      var existing, storedBot, storedApp := row, bot, app;
      var botToken, appToken := OrElse(request.bot, storedBot), OrElse(request.app, storedApp);
      if botToken.None? || appToken.None? {
        return MissingToken;
      }
      if existing.Some? && request.bot.None? && request.app.None? {
        return Unchanged;
      }
      if request.identity.None? {
        return Invalid;
      }
      var known, stage;
      fault, known, stage := Save(request.bot, request.app, request.identity.value, request.writes);
      ghost var saving := Execute(was, Forward(was, request.bot, request.app, request.identity.value), request.writes).states;
      FinalOfSum(was, asked, saving);
      if fault.NoFault? {
        return Saved;
      }
      if fault.conflict {
        return Taken;
      }
      ghost var here := Snapshot();
      Undo(existing, storedBot, storedApp, known, was, request.undo);
      FinalOfSum(was, asked + saving, Execute(here, Rollback(was, known), request.undo).states);
      answer := if stage.StartSocket? then SocketRejected else NotSaved;
    }

    method HandleTest(request: Request) returns (answer: Answer)
      requires request.Test?
      modifies this
      ensures var reply := Verify(old(Snapshot()), request);
              && answer == reply.answer && trace == old(trace) + reply.states
              && Snapshot() == Final(old(Snapshot()), reply.states)
    {
      hide Execute;
      ghost var was, base := Snapshot(), trace;
      assert seq(2, _ => Read) == [Read, Read];
      var fault := Lookups(2, request.lookups);
      if fault.Thrown? {
        return Failed;
      }
      if bot.None? || app.None? {
        return MissingToken;
      }
      if request.identity.None? {
        return Invalid;
      }
      ghost var asked := trace[|base|..];
      ghost var actions := [Read] + if was.row.Some? then [Upsert(request.identity.value)] else [];
      assert actions[..0] == [];
      ExecuteNone(was, request.writes);
      fault := At(request.writes, 0);
      Step(Read, fault, was, actions, 0, request.writes, trace);
      if fault.NoFault? && row.Some? {
        fault := At(request.writes, 1);
        Step(Upsert(request.identity.value), fault, was, actions, 1, request.writes, base + asked);
      }
      FinalOfSum(was, asked, Execute(was, actions, request.writes).states);
      answer := if fault.Thrown? then Failed else Tested;
    }

    method HandleDelete(request: Request) returns (answer: Answer)
      requires request.Delete?
      modifies this
      ensures var reply := Drop(old(Snapshot()), request);
              && answer == reply.answer && trace == old(trace) + reply.states
              && Snapshot() == Final(old(Snapshot()), reply.states)
    {
      ghost var was, base, actions := Snapshot(), trace, Deletion(Snapshot());
      var faults := request.writes;
      assert actions[..0] == [];
      ExecuteNone(was, faults);
      hide Execute;
      var fault := At(faults, 0);
      Step(DisableChannels, fault, was, actions, 0, faults, base);
      if fault.Thrown? { return Failed; }
      fault := At(faults, 1);
      Step(Read, fault, was, actions, 1, faults, base);
      if fault.Thrown? { return Failed; }
      var k := 2;
      if row.Some? {
        fault := At(faults, 2);
        Step(StopSocket, fault, was, actions, 2, faults, base);
        if fault.Thrown? { return Failed; }
        k := 3;
      }
      hide Perform;
      fault := Erase(faults, k, was, actions, base);
      answer := if fault.Thrown? then Failed else Disconnected;
    }

    /** The secrets first, and only then the row. */
    method Erase(
        faults: seq<Fault>, k: nat, ghost was: Store, ghost actions: seq<Action>, ghost base: seq<Store>)
      returns (fault: Fault)
      requires |actions| == k + 4 && actions[k..] == [DropSigning, SetBot(None), SetApp(None), Disconnect]
      requires Doing(was, actions, k, faults, base)
      modifies this
      ensures Did(was, actions, fault, faults, base)
    {
      hide *;
      assert forall i | 0 <= i < 4 :: actions[k + i] == actions[k..][i];
      fault := At(faults, k);
      Step(DropSigning, fault, was, actions, k, faults, base);
      if fault.Thrown? { return; }
      fault := At(faults, k + 1);
      Step(SetBot(None), fault, was, actions, k + 1, faults, base);
      if fault.Thrown? { return; }
      fault := At(faults, k + 2);
      Step(SetApp(None), fault, was, actions, k + 2, faults, base);
      if fault.Thrown? { return; }
      fault := At(faults, k + 3);
      Step(Disconnect, fault, was, actions, k + 3, faults, base);
    }
  }
}
