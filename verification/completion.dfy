/** The dialogue can always be completed: in every state the handlers can
    reach, an administrator has an answer that brings the conversation one
    step closer to the confirmation, and confirming then files the record. */
module Completion {
  import opened Wrappers
  import opened Chars
  import opened CivilTime
  import opened Records
  import opened Conversation
  import opened Flow

  /** At most this many answers lead to the confirmation, whichever kind the
      draft has: no button, "Não" wherever the dialogue asks. */
  function Remaining(st: State): nat
  {
    match st
    case Idle => 9
    case AwaitingChannel => 8
    case AwaitingMedia => 7
    case AwaitingText => 6
    case AwaitingButtonText => 6
    case AwaitingButtonPrompt => 5
    case AwaitingButtonUrl => 5
    case AwaitingPinOption => 4
    case AwaitingInterval => 3
    case AwaitingRepetitions => 2
    case AwaitingScheduleTime => 1
    case AwaitingStartTime => 1
    case AwaitingConfirmation => 0
  }

  /** The step from `s` in world `w` left the world alone and brought the
      conversation strictly closer to the confirmation. */
  predicate Closer(s: Session, w: World, r: Stepped)
  {
    r.world == w && Remaining(r.session.state) < Remaining(s.state)
  }

  /** A reading `strptime` accepts: 1 February 2030, 09:05. */
  const SampleReading := "1/2/2030  9:05"

  /** An answer each state's handlers take and act on. */
  function Answer(st: State): Update
  {
    match st
    case Idle => Callback(StartPrefix + "single")
    case AwaitingChannel => Text("@canal")
    case AwaitingMedia => PhotoMessage("foto")
    case AwaitingText => Text("Bom dia")
    case AwaitingButtonPrompt => Text(No)
    case AwaitingButtonText => Text("Site")
    case AwaitingButtonUrl => Text("https://example.org")
    case AwaitingPinOption => Text(No)
    case AwaitingScheduleTime => Text(SampleReading)
    case AwaitingInterval => Text("1d")
    case AwaitingRepetitions => Text("1")
    case AwaitingStartTime => Text(SampleReading)
    case AwaitingConfirmation => Text(ConfirmText)
  }

  /** The handler that takes each state's answer. */
  function AnswerHandler(st: State): Handler
  {
    match st
    case Idle => StartFlow
    case AwaitingChannel => GetChannel
    case AwaitingMedia => GetMedia
    case AwaitingText => GetText
    case AwaitingButtonPrompt => GetButtonPrompt
    case AwaitingButtonText => GetButtonText
    case AwaitingButtonUrl => GetButtonUrl
    case AwaitingPinOption => GetPinOption
    case AwaitingScheduleTime => GetScheduleTime
    case AwaitingInterval => GetInterval
    case AwaitingRepetitions => GetRepetitions
    case AwaitingStartTime => GetStartTime
    case AwaitingConfirmation => SaveSchedule
  }

  /** Each state's answer is routed to the state's own handler, not to a
      fallback. */
  lemma AnswerRoutes(st: State)
    ensures Route(st, Answer(st)) == AnswerHandler(st)
  {
    match st
    case Idle => assert Answer(st).data[..|StartPrefix|] == StartPrefix;
    case AwaitingChannel =>
    case AwaitingMedia =>
    case AwaitingText =>
    case AwaitingButtonPrompt =>
    case AwaitingButtonText =>
    case AwaitingButtonUrl =>
    case AwaitingPinOption =>
    case AwaitingScheduleTime =>
    case AwaitingInterval =>
    case AwaitingRepetitions => assert AllDigits(Answer(st).text);
    case AwaitingStartTime =>
    case AwaitingConfirmation =>
  }

  /** "Não" is not the "sim" that asks for a button or a pin. */
  lemma NoIsNotSim()
    ensures Lower(No) != "sim"
  {
    assert Lower(No)[0] == 'n';
  }

  /** The answer's handler, outside the date states, moves the
      conversation closer to the confirmation and leaves the world alone. */
  lemma AnswerHandled(s: Session, w: World, user: int, localize: Civil -> Instant, env: Env)
    requires Inv(s)
    requires s.state !in {AwaitingScheduleTime, AwaitingStartTime, AwaitingConfirmation}
    ensures Closer(s, w, Handle(AnswerHandler(s.state), s, w, user, Answer(s.state), localize, env))
  {
    match s.state
    case Idle =>
    case AwaitingChannel =>
    case AwaitingMedia =>
    case AwaitingText =>
    case AwaitingButtonPrompt => NoIsNotSim();
    case AwaitingButtonText =>
    case AwaitingButtonUrl =>
    case AwaitingPinOption =>
    case AwaitingInterval =>
    case AwaitingRepetitions => assert AllDigits("1");
  }

  /** In the date states, the sample reading moves the conversation to
      the confirmation. */
  lemma AnswerReads(admins: set<int>, s: Session, w: World, user: int, localize: Civil -> Instant, env: Env)
    requires user in admins
    requires s.state == AwaitingScheduleTime || s.state == AwaitingStartTime
    ensures Closer(s, w, Step(admins, s, w, user, Answer(s.state), localize, env))
  {
    AcceptsUnpaddedReading();
    ReadingAdvances(admins, s, w, user, SampleReading, localize, env);
    ConfirmationIsCloser(s, w, Step(admins, s, w, user, Answer(s.state), localize, env));
  }

  /** Every state but the confirmation is farther from it. */
  lemma ConfirmationIsCloser(s: Session, w: World, r: Stepped)
    requires s.state != AwaitingConfirmation
    requires r.world == w && r.session.state == AwaitingConfirmation
    ensures Closer(s, w, r)
  {
  }

  /** Outside the date states, the answer's handler is what the step runs. */
  lemma AnswerMoves(admins: set<int>, s: Session, w: World, user: int, localize: Civil -> Instant, env: Env)
    requires user in admins && Inv(s)
    requires s.state !in {AwaitingScheduleTime, AwaitingStartTime, AwaitingConfirmation}
    ensures Closer(s, w, Step(admins, s, w, user, Answer(s.state), localize, env))
  {
    AnswerRoutes(s.state);
    StepRunsHandler(admins, s, w, user, Answer(s.state), localize, env);
    AnswerHandled(s, w, user, localize, env);
  }

  /** Before the confirmation, the state's answer moves an administrator's
      conversation strictly closer to it and leaves the store and the
      timers alone. */
  lemma AnswerAdvances(admins: set<int>, s: Session, w: World, user: int, localize: Civil -> Instant, env: Env)
    requires user in admins && Inv(s) && s.state != AwaitingConfirmation
    ensures Closer(s, w, Step(admins, s, w, user, Answer(s.state), localize, env))
  {
    if s.state == AwaitingScheduleTime || s.state == AwaitingStartTime {
      AnswerReads(admins, s, w, user, localize, env);
    } else {
      AnswerMoves(admins, s, w, user, localize, env);
    }
  }

  /** The conversation waits for the confirmation, and the world is still `w`. */
  predicate Confirming(r: Stepped, w: World)
  {
    r.session.state == AwaitingConfirmation && r.world == w
  }

  /** Running `a` and then `b` is running `a + b`. */
  lemma {:induction false} RunAppend(admins: set<int>, user: int, s: Session, w: World, a: seq<Input>, b: seq<Input>, localize: Civil -> Instant)
    ensures var mid := Run(admins, user, s, w, a, localize);
      Run(admins, user, s, w, a + b, localize) == Run(admins, user, mid.session, mid.world, b, localize)
    decreases |a|
  {
    if a == [] {
      assert a + b == b;
    } else {
      var next := Step(admins, s, w, user, a[0].update, localize, a[0].env);
      assert (a + b)[0] == a[0] && (a + b)[1..] == a[1..] + b;
      RunAppend(admins, user, next.session, next.world, a[1..], b, localize);
    }
  }

  /** A run whose first update is `i`. */
  lemma RunCons(admins: set<int>, user: int, s: Session, w: World, i: Input, rest: seq<Input>, localize: Civil -> Instant)
    ensures var next := Step(admins, s, w, user, i.update, localize, i.env);
      Run(admins, user, s, w, [i] + rest, localize) == Run(admins, user, next.session, next.world, rest, localize)
  {
    assert ([i] + rest)[0] == i && ([i] + rest)[1..] == rest;
  }

  /** Before the confirmation, some single answer keeps the draft
      well-shaped and moves the conversation closer. */
  lemma OneAnswer(admins: set<int>, user: int, s: Session, w: World, localize: Civil -> Instant, env: Env)
    requires user in admins && Inv(s) && s.state != AwaitingConfirmation
    ensures exists i: Input ::
      var next := Step(admins, s, w, user, i.update, localize, i.env);
      Inv(next.session) && Closer(s, w, next)
  {
    var i := Input(Answer(s.state), env);
    AnswerAdvances(admins, s, w, user, localize, env);
    StepKeepsInv(admins, s, w, user, i.update, localize, env);
    var next := Step(admins, s, w, user, i.update, localize, i.env);
    assert Inv(next.session) && Closer(s, w, next);
  }

  /** From every state the handlers can reach, at most `Remaining` answers
      bring an administrator's conversation to the confirmation, with the
      store and the timers untouched. */
  lemma {:induction false} ReachesConfirmation(admins: set<int>, user: int, s: Session, w: World, localize: Civil -> Instant, env: Env)
    requires user in admins && Inv(s)
    ensures exists inputs: seq<Input> ::
      |inputs| <= Remaining(s.state) && Confirming(Run(admins, user, s, w, inputs, localize), w)
    decreases Remaining(s.state)
  {
    if s.state == AwaitingConfirmation {
      assert Confirming(Run(admins, user, s, w, [], localize), w);
    } else {
      OneAnswer(admins, user, s, w, localize, env);
      var i: Input :|
        var next := Step(admins, s, w, user, i.update, localize, i.env);
        Inv(next.session) && Closer(s, w, next);
      var next := Step(admins, s, w, user, i.update, localize, i.env);
      ReachesConfirmation(admins, user, next.session, next.world, localize, env);
      var rest: seq<Input> :|
        |rest| <= Remaining(next.session.state) && Confirming(Run(admins, user, next.session, next.world, rest, localize), next.world);
      assert |[i] + rest| <= Remaining(s.state) && Confirming(Run(admins, user, s, w, [i] + rest, localize), w) by {
        RunCons(admins, user, s, w, i, rest, localize);
      }
    }
  }

  /** The conversation has ended and the store holds a filed record of
      `user` under `id`. */
  predicate Completed(r: Stepped, user: int, id: Id)
  {
    && r.session == Session(Idle, EmptyPost)
    && id in r.world.store
    && Filed(r.world.store[id])
    && r.world.store[id].owner == Some(user)
  }

  /** Confirming a well-shaped draft, with a working store, completes it. */
  lemma ConfirmCompletes(admins: set<int>, user: int, s: Session, w: World, localize: Civil -> Instant, env: Env)
    requires user in admins && s.state == AwaitingConfirmation && Inv(s) && env.storeUp
    ensures Completed(Run(admins, user, s, w, [Input(Text(ConfirmText), env)], localize), user, env.newId)
  {
    var last := Input(Text(ConfirmText), env);
    SaveCommits(admins, s, w, user, localize, env);
    var fin := Step(admins, s, w, user, last.update, localize, env);
    RunCons(admins, user, s, w, last, [], localize);
    assert [last] + [] == [last];
  }

  /** A run that has reached the confirmation is completed by confirming. */
  lemma AppendConfirm(admins: set<int>, user: int, s: Session, w: World, a: seq<Input>, localize: Civil -> Instant, env: Env)
    requires user in admins && Inv(s) && env.storeUp
    requires |a| <= Remaining(s.state) && Confirming(Run(admins, user, s, w, a, localize), w)
    ensures exists inputs: seq<Input> ::
      |inputs| <= Remaining(s.state) + 1 && Completed(Run(admins, user, s, w, inputs, localize), user, env.newId)
  {
    var last := [Input(Text(ConfirmText), env)];
    var mid := Run(admins, user, s, w, a, localize);
    ConfirmCompletes(admins, user, mid.session, mid.world, localize, env);
    RunAppend(admins, user, s, w, a, last, localize);
    assert |a + last| <= Remaining(s.state) + 1 && Completed(Run(admins, user, s, w, a + last, localize), user, env.newId);
  }

  /** Every conversation the handlers can reach can be completed: with a
      working store, at most `Remaining + 1` updates of an administrator
      end it with a filed record of theirs under the id the store assigns. */
  lemma Completable(admins: set<int>, user: int, s: Session, w: World, localize: Civil -> Instant, env: Env)
    requires user in admins && Inv(s) && env.storeUp
    ensures exists inputs: seq<Input> ::
      |inputs| <= Remaining(s.state) + 1 && Completed(Run(admins, user, s, w, inputs, localize), user, env.newId)
  {
    ReachesConfirmation(admins, user, s, w, localize, env);
    var a: seq<Input> :| |a| <= Remaining(s.state) && Confirming(Run(admins, user, s, w, a, localize), w);
    AppendConfirm(admins, user, s, w, a, localize, env);
  }

  /** In particular a fresh conversation: some ten updates of an
      administrator, starting from no conversation and an empty store, end
      it with a filed record of theirs under the id the store assigns. */
  lemma FreshRunFiles(admins: set<int>, user: int, localize: Civil -> Instant, env: Env)
    requires user in admins && env.storeUp
    ensures exists inputs: seq<Input> ::
      |inputs| <= 10 && Completed(Run(admins, user, Session(Idle, EmptyPost), World(map[], map[]), inputs, localize), user, env.newId)
  {
    assert Inv(Session(Idle, EmptyPost));
    Completable(admins, user, Session(Idle, EmptyPost), World(map[], map[]), localize, env);
  }
}
