/** What the dialogue guarantees over a whole conversation: the draft each
    state holds, what a confirmed schedule looks like when it reaches the
    store, and how the fallbacks, the date readers and the repetition
    filter behave. */
module Flow {
  import opened Wrappers
  import opened Chars
  import opened Numerals
  import opened CivilTime
  import opened Records
  import opened Conversation

  /** The draft names one of the two flows. */
  predicate Started(d: Post)
  {
    d.kind == Some(OneShot) || d.kind == Some(Recurring)
  }

  predicate Addressed(d: Post)
  {
    Started(d) && d.chatId.Some?
  }

  predicate Worded(d: Post)
  {
    Addressed(d) && d.text.Some?
  }

  /** At most one button, and it has its URL. */
  predicate Linked(d: Post)
  {
    && Worded(d)
    && |d.buttons| <= 1
    && forall i :: 0 <= i < |d.buttons| ==> d.buttons[i].url.Some?
  }

  predicate Styled(d: Post)
  {
    Linked(d) && d.pin.Some?
  }

  /** Everything the summary and the save need for the draft's kind. */
  predicate Complete(d: Post)
  {
    && Styled(d)
    && (d.kind == Some(OneShot) ==> d.scheduledFor.Some?)
    && (d.kind == Some(Recurring) ==>
          d.interval.Some? && d.repetitions.Some? && d.repetitions.value >= 0 && d.startDate.Some?)
  }

  /** A record as `save_schedule` stores it. */
  predicate Filed(p: Post)
  {
    Complete(p) && p.owner.Some?
  }

  /** The draft each state holds when the conversation got there through
      the handlers. */
  predicate Inv(s: Session)
  {
    var d := s.draft;
    && d.owner.None?
    && match s.state
       case Idle => d == EmptyPost
       case AwaitingChannel => Started(d) && d.buttons == []
       case AwaitingMedia => Addressed(d) && d.buttons == []
       case AwaitingText => Addressed(d) && d.buttons == []
       case AwaitingButtonPrompt => Worded(d) && d.buttons == []
       case AwaitingButtonText => Worded(d) && d.buttons == []
       case AwaitingButtonUrl => Worded(d) && |d.buttons| == 1
       case AwaitingPinOption => Linked(d)
       case AwaitingScheduleTime => Styled(d) && d.kind == Some(OneShot)
       case AwaitingInterval => Styled(d) && d.kind == Some(Recurring)
       case AwaitingRepetitions => Styled(d) && d.kind == Some(Recurring) && d.interval.Some?
       case AwaitingStartTime =>
         && Styled(d) && d.kind == Some(Recurring) && d.interval.Some?
         && d.repetitions.Some? && d.repetitions.value >= 0
       case AwaitingConfirmation => Complete(d)
  }

  /** Every record of `after` is one `before` already held, or one filed by
      a confirmation. */
  predicate Settled(before: World, after: World)
  {
    forall id :: id in after.store ==>
      (id in before.store && after.store[id] == before.store[id]) || Filed(after.store[id])
  }

  // Each handler keeps the shape, given the state it is registered for.

  lemma StartKeepsInv(s: Session, w: World, u: Update)
    requires s.state == Idle && Inv(s)
    ensures Inv(OnStart(s, w, u).session)
  {
  }

  lemma ComposeKeepsInv(s: Session, w: World, u: Update)
    requires Inv(s)
    ensures s.state == AwaitingChannel ==> Inv(OnChannel(s, w, u).session)
    ensures s.state == AwaitingMedia ==> Inv(OnMedia(s, w, u).session)
    ensures s.state == AwaitingMedia ==> Inv(Session(AwaitingText, s.draft.(media := None)))
    ensures s.state == AwaitingText ==> Inv(OnText(s, w, u).session)
  {
  }

  lemma ButtonKeepsInv(s: Session, w: World, u: Update)
    requires Inv(s)
    ensures s.state == AwaitingButtonPrompt ==> Inv(OnButtonPrompt(s, w, u).session)
    ensures s.state == AwaitingButtonText ==> Inv(OnButtonText(s, w, u).session)
    ensures s.state == AwaitingButtonUrl ==> Inv(OnButtonUrl(s, w, u).session)
  {
  }

  lemma PinKeepsInv(s: Session, w: World, u: Update)
    requires s.state == AwaitingPinOption && Inv(s)
    ensures Inv(OnPinOption(s, w, u).session)
  {
  }

  lemma TimeKeepsInv(s: Session, w: World, u: Update, localize: Civil -> Instant, forStart: bool)
    requires Inv(s)
    requires s.state == (if forStart then AwaitingStartTime else AwaitingScheduleTime)
    ensures Inv(OnTime(s, w, u, localize, forStart).session)
  {
  }

  lemma RecurrenceKeepsInv(s: Session, w: World, u: Update)
    requires Inv(s)
    requires s.state == AwaitingRepetitions ==> u.Text? && 0 < |u.text| && AllDigits(u.text)
    ensures s.state == AwaitingInterval ==> Inv(OnInterval(s, w, u).session)
    ensures s.state == AwaitingRepetitions ==> Inv(OnRepetitions(s, w, u).session)
  {
    if s.state == AwaitingRepetitions {
      assert ParseInt(u.text) == Some(DigitsValue(u.text));
    }
  }

  lemma HandleKeepsInv(h: Handler, s: Session, w: World, user: int, u: Update, localize: Civil -> Instant, env: Env)
    requires RegisteredIn(h, s.state, u) && Inv(s)
    ensures Inv(Handle(h, s, w, user, u, localize, env).session)
  {
    match h
    case StartFlow => StartKeepsInv(s, w, u);
    case GetChannel => ComposeKeepsInv(s, w, u);
    case GetMedia => ComposeKeepsInv(s, w, u);
    case SkipMedia => ComposeKeepsInv(s, w, u);
    case GetText => ComposeKeepsInv(s, w, u);
    case GetButtonPrompt => ButtonKeepsInv(s, w, u);
    case GetButtonText => ButtonKeepsInv(s, w, u);
    case GetButtonUrl => ButtonKeepsInv(s, w, u);
    case GetPinOption => PinKeepsInv(s, w, u);
    case GetScheduleTime => TimeKeepsInv(s, w, u, localize, false);
    case GetInterval => RecurrenceKeepsInv(s, w, u);
    case GetRepetitions => RecurrenceKeepsInv(s, w, u);
    case GetStartTime => TimeKeepsInv(s, w, u, localize, true);
    case SaveSchedule =>
    case CancelFlow =>
    case Unhandled =>
  }

  /** Every step keeps the per-state shape of the draft: in particular the
      confirmation is only reached with a complete draft carrying at most
      one button, and the kind chosen at the start never changes. */
  lemma StepKeepsInv(admins: set<int>, s: Session, w: World, user: int, u: Update, localize: Civil -> Instant, env: Env)
    requires Inv(s)
    ensures Inv(Step(admins, s, w, user, u, localize, env).session)
  {
    var h := Route(s.state, u);
    if h != Unhandled && user in admins {
      RouteRegistered(s.state, u);
      HandleKeepsInv(h, s, w, user, u, localize, env);
    }
  }

  /** What one step does to the world: the store only grows, changed
      records are filed ones, and a job is only ever armed for a stored
      record. */
  lemma StepSettles(admins: set<int>, s: Session, w: World, user: int, u: Update, localize: Civil -> Instant, env: Env)
    requires Inv(s)
    ensures var r := Step(admins, s, w, user, u, localize, env).world;
      && w.store.Keys <= r.store.Keys
      && Settled(w, r)
      && (w.jobs.Keys <= w.store.Keys ==> r.jobs.Keys <= r.store.Keys)
  {
    var r := Step(admins, s, w, user, u, localize, env);
    if r.world.store != w.store {
      RouteRegistered(s.state, u);
      assert s.state == AwaitingConfirmation;
      assert Filed(s.draft.(owner := Some(user)));
    }
  }

  lemma StepOnInv(admins: set<int>, s: Session, w: World, user: int, u: Update, localize: Civil -> Instant, env: Env)
    ensures var r := Step(admins, s, w, user, u, localize, env);
      Inv(s) ==>
        && Inv(r.session) && Settled(w, r.world) && w.store.Keys <= r.world.store.Keys
        && (w.jobs.Keys <= w.store.Keys ==> r.world.jobs.Keys <= r.world.store.Keys)
  {
    if Inv(s) {
      StepKeepsInv(admins, s, w, user, u, localize, env);
      StepSettles(admins, s, w, user, u, localize, env);
    }
  }

  /** One update of the conversation, with what the store contributes to it. */
  datatype Input = Input(update: Update, env: Env)

  /** The updates of one operator in one chat, applied in order: the
      conversation keyed by that (chat, user) pair. */
  function Run(admins: set<int>, user: int, s: Session, w: World, inputs: seq<Input>, localize: Civil -> Instant): (r: Stepped)
    ensures Inv(s) ==> Inv(r.session) && Settled(w, r.world) && w.store.Keys <= r.world.store.Keys
    ensures Inv(s) && w.jobs.Keys <= w.store.Keys ==> r.world.jobs.Keys <= r.world.store.Keys
    decreases |inputs|
  {
    if inputs == [] then Stepped(s, w)
    else
      var i := inputs[0];
      var next := Step(admins, s, w, user, i.update, localize, i.env);
      StepOnInv(admins, s, w, user, i.update, localize, i.env);
      Run(admins, user, next.session, next.world, inputs[1..], localize)
  }

  /** From a fresh start, every record a conversation writes is filed, and
      every job it arms belongs to a stored record. */
  lemma RunFiles(admins: set<int>, user: int, inputs: seq<Input>, localize: Civil -> Instant)
    ensures var r := Run(admins, user, Session(Idle, EmptyPost), World(map[], map[]), inputs, localize);
      && (forall id :: id in r.world.store ==> Filed(r.world.store[id]))
      && r.world.jobs.Keys <= r.world.store.Keys
      && Inv(r.session)
  {
  }

  /** The order of the flow, as seen from the state a step enters: the
      confirmation is entered only from the date of a one-shot draft or
      the start date of a recurring one, and the recurring branch is
      entered in the order interval, repetitions, start date. */
  lemma EntryPoints(admins: set<int>, s: Session, w: World, user: int, u: Update, localize: Civil -> Instant, env: Env)
    requires Inv(s)
    ensures var next := Step(admins, s, w, user, u, localize, env).session.state;
      && (next == AwaitingConfirmation && s.state != next ==>
            || (s.state == AwaitingScheduleTime && s.draft.kind == Some(OneShot))
            || (s.state == AwaitingStartTime && s.draft.kind == Some(Recurring)))
      && (next == AwaitingStartTime && s.state != next ==> s.state == AwaitingRepetitions)
      && (next == AwaitingRepetitions && s.state != next ==> s.state == AwaitingInterval)
      && (next == AwaitingInterval && s.state != next ==>
            s.state == AwaitingPinOption && s.draft.kind == Some(Recurring))
      && (next == AwaitingScheduleTime && s.state != next ==>
            s.state == AwaitingPinOption && s.draft.kind == Some(OneShot))
  {
    var r := Step(admins, s, w, user, u, localize, env);
    if r.session.state != s.state && s.state != Idle {
      KindFixed(admins, s, w, user, u, localize, env);
      assert r.session.state in Successors(s.state, r.session.draft.kind);
    }
  }

  // The fallbacks.

  lemma CancelWords()
    ensures IsCommand("/cancel") && CommandWord("cancel") == "cancel"
    ensures Lower("cancel") == "cancel"
    ensures !IsDigit('/')
  {
    assert CommandWord("cancel") == "cancel" by {
      assert "cancel"[1..] == "ancel";
      assert "ancel"[1..] == "ncel";
      assert "ncel"[1..] == "cel";
      assert "cel"[1..] == "el";
      assert "el"[1..] == "l";
      assert "l"[1..] == "";
    }
    assert "/cancel"[1..] == "cancel";
  }

  /** `/cancel` is the fallback in every state: no state's own filter
      takes it. */
  lemma CancelRoutes(st: State)
    ensures Route(st, Text("/cancel")) == if st == Idle then Unhandled else CancelFlow
  {
    CancelWords();
    var u := Text("/cancel");
    assert IsCommandFor(u.text, "cancel");
    assert !IsCommandFor(u.text, "pular");
    assert StateHandler(st, u) == Unhandled;
  }

  /** `/cancel` ends any conversation, clears the draft and leaves the
      world alone; without a conversation it does nothing. */
  lemma CancelEnds(admins: set<int>, s: Session, w: World, user: int, localize: Civil -> Instant, env: Env)
    requires user in admins
    ensures var r := Step(admins, s, w, user, Text("/cancel"), localize, env);
      && (s.state != Idle ==> r == Stepped(Session(Idle, EmptyPost), w))
      && (s.state == Idle ==> r == Stepped(s, w))
  {
    CancelRoutes(s.state);
  }

  /** The cancel button's text cancels only where no filter of the state
      takes free text; in a free-text state it is consumed as input. */
  lemma CancelTextRouting(st: State)
    requires st != Idle
    ensures Route(st, Text(CancelText)) == CancelFlow <==>
      st in {AwaitingMedia, AwaitingButtonPrompt, AwaitingPinOption, AwaitingRepetitions, AwaitingConfirmation}
  {
    assert !IsCommand(CancelText);
    assert CancelText != Yes && CancelText != No && CancelText != ConfirmText;
    assert !IsDigit(CancelText[0]);
  }

  // The readers.

  /** An administrator's update that some handler accepts runs that handler. */
  lemma StepRunsHandler(admins: set<int>, s: Session, w: World, user: int, u: Update, localize: Civil -> Instant, env: Env)
    requires user in admins && Route(s.state, u) != Unhandled
    ensures Step(admins, s, w, user, u, localize, env) == Handle(Route(s.state, u), s, w, user, u, localize, env)
  {
  }

  /** A reading `strptime` rejects leaves the conversation where it was. */
  lemma BadReadingKeepsState(admins: set<int>, s: Session, w: World, user: int, t: string, localize: Civil -> Instant, env: Env)
    requires !IsCommand(t)
    requires s.state == AwaitingScheduleTime || s.state == AwaitingStartTime
    requires ParseCivil(t).None?
    ensures Step(admins, s, w, user, Text(t), localize, env) == Stepped(s, w)
  {
    var h := Route(s.state, Text(t));
    assert h == if s.state == AwaitingStartTime then GetStartTime else GetScheduleTime;
    assert Handle(h, s, w, user, Text(t), localize, env) == Stepped(s, w);
  }

  /** A reading it accepts is localised and stored in the field the state
      asks for, and the summary follows. */
  lemma ReadingAdvances(admins: set<int>, s: Session, w: World, user: int, t: string, localize: Civil -> Instant, env: Env)
    requires user in admins && !IsCommand(t)
    requires s.state == AwaitingScheduleTime || s.state == AwaitingStartTime
    requires ParseCivil(t).Some?
    ensures var r := Step(admins, s, w, user, Text(t), localize, env);
      var at := Some(localize(ParseCivil(t).value));
      && r.world == w
      && r.session.state == AwaitingConfirmation
      && r.session.draft == if s.state == AwaitingStartTime then s.draft.(startDate := at) else s.draft.(scheduledFor := at)
  {
    var forStart := s.state == AwaitingStartTime;
    var h := Route(s.state, Text(t));
    assert h == if forStart then GetStartTime else GetScheduleTime;
    StepRunsHandler(admins, s, w, user, Text(t), localize, env);
    assert Handle(h, s, w, user, Text(t), localize, env) == OnTime(s, w, Text(t), localize, forStart);
  }

  /** The repetition filter only lets digits through, so `int()` never
      raises there and the count is never negative. */
  lemma RepetitionsAreDigits(admins: set<int>, s: Session, w: World, user: int, t: string, localize: Civil -> Instant, env: Env)
    requires user in admins && s.state == AwaitingRepetitions
    requires 0 < |t| && AllDigits(t)
    ensures Step(admins, s, w, user, Text(t), localize, env)
         == Stepped(Session(AwaitingStartTime, s.draft.(repetitions := Some(DigitsValue(t)))), w)
  {
    assert Route(s.state, Text(t)) == GetRepetitions;
    assert ParseInt(t) == Some(DigitsValue(t));
  }

  /** Any other text, the cancel fallbacks aside, is ignored there. */
  lemma RepetitionsIgnoresOthers(admins: set<int>, s: Session, w: World, user: int, t: string, localize: Civil -> Instant, env: Env)
    requires s.state == AwaitingRepetitions
    requires !(0 < |t| && AllDigits(t)) && t != CancelText && !IsCommandFor(t, "cancel")
    ensures Step(admins, s, w, user, Text(t), localize, env) == Stepped(s, w)
  {
    assert Route(s.state, Text(t)) == Unhandled;
  }

  /** Within a conversation the draft's kind never changes. */
  lemma KindFixed(admins: set<int>, s: Session, w: World, user: int, u: Update, localize: Civil -> Instant, env: Env)
    requires s.state != Idle
    ensures var r := Step(admins, s, w, user, u, localize, env);
      r.session.state != Idle ==> r.session.draft.kind == s.draft.kind
  {
    var h := Route(s.state, u);
    RouteRegistered(s.state, u);
  }

  // The confirmation.

  /** Confirming adds the draft, stamped with the operator, under the new
      id before anything else is tried; a one-shot record is then armed at
      its time, a recurring one only where its interval parses and fits a
      `timedelta`, so a bad interval leaves a stored record without a job.
      If the add fails nothing is stored. Either way the conversation ends
      with an empty draft. */
  lemma SaveCommits(admins: set<int>, s: Session, w: World, user: int, localize: Civil -> Instant, env: Env)
    requires user in admins && s.state == AwaitingConfirmation && Inv(s)
    ensures var r := Step(admins, s, w, user, Text(ConfirmText), localize, env);
      var record := s.draft.(owner := Some(user));
      && r.session == Session(Idle, EmptyPost)
      && (!env.storeUp ==> r.world == w)
      && (env.storeUp ==>
            && Filed(record)
            && r.world.store == w.store[env.newId := record]
            && (record.kind == Some(OneShot) ==> r.world.jobs == w.jobs[env.newId := Once(record.scheduledFor.value)])
            && (record.kind == Some(Recurring) && RepeatingJob(record).Some? ==>
                  r.world.jobs == w.jobs[env.newId := RepeatingJob(record).value])
            && (record.kind == Some(Recurring) && RepeatingJob(record).None? ==> r.world.jobs == w.jobs))
  {
    assert Route(s.state, Text(ConfirmText)) == SaveSchedule;
  }
}
