/** The dialogue that builds a schedule: the state/filter table of the
    `ConversationHandler`, the access gate in front of every handler, and
    each handler as one atomic step over the operator's session (state and
    draft) and the world (store and armed jobs). A handler that raises, or
    an update that no filter of the current state accepts, leaves the
    conversation where it was. */
module Conversation {
  import opened Wrappers
  import opened Chars
  import opened Numerals
  import opened CivilTime
  import opened Intervals
  import opened Records

  /** `Idle` is "no conversation" (`ConversationHandler.END`). */
  datatype State =
    | Idle
    | AwaitingChannel
    | AwaitingMedia
    | AwaitingText
    | AwaitingButtonPrompt
    | AwaitingButtonText
    | AwaitingButtonUrl
    | AwaitingPinOption
    | AwaitingScheduleTime
    | AwaitingInterval
    | AwaitingRepetitions
    | AwaitingStartTime
    | AwaitingConfirmation

  /** The shape of an incoming update: an inline-button press, a text
      message (commands included), or a photo (the file id of its largest
      size) or video message. */
  datatype Update =
    | Callback(data: string)
    | Text(text: string)
    | PhotoMessage(fileId: string)
    | VideoMessage(fileId: string)

  datatype Handler =
    | StartFlow
    | GetChannel
    | GetMedia
    | SkipMedia
    | GetText
    | GetButtonPrompt
    | GetButtonText
    | GetButtonUrl
    | GetPinOption
    | GetScheduleTime
    | GetInterval
    | GetRepetitions
    | GetStartTime
    | SaveSchedule
    | CancelFlow
    | Unhandled

  datatype Session = Session(state: State, draft: Post)

  datatype World = World(store: Store, jobs: Jobs)

  datatype Stepped = Stepped(session: Session, world: World)

  /** What the store and the clock contribute to one step: the id the store
      assigns to an added document, and whether adding it succeeds. */
  datatype Env = Env(newId: Id, storeUp: bool)

  const StartPrefix := "start_schedule_"
  const Yes := "Sim"
  const No := "N\U{E3}o"
  const ConfirmText := "\U{2705} Confirmar"
  const CancelText := "\U{274C} Cancelar"

  predicate IsCommandChar(c: char)
  {
    'a' <= c <= 'z' || 'A' <= c <= 'Z' || IsDigit(c) || c == '_'
  }

  /** `filters.COMMAND`: the text opens with a bot command. */
  predicate IsCommand(t: string)
  {
    2 <= |t| && t[0] == '/' && IsCommandChar(t[1])
  }

  /** The longest prefix of command characters. */
  function CommandWord(s: string): (w: string)
    ensures |w| <= |s| && w == s[..|w|]
  {
    if s == [] || !IsCommandChar(s[0]) then [] else [s[0]] + CommandWord(s[1..])
  }

  /** `CommandHandler(name)`: the command word, case-insensitively, is `name`. */
  predicate IsCommandFor(t: string, name: string)
  {
    IsCommand(t) && Lower(CommandWord(t[1..])) == name
  }

  /** `filters.TEXT & ~filters.COMMAND`. */
  predicate IsPlainText(u: Update)
  {
    u.Text? && !IsCommand(u.text)
  }

  /** `filters.Regex('^(Sim|Não)$')`. */
  predicate IsYesNo(u: Update)
  {
    u.Text? && (u.text == Yes || u.text == No)
  }

  /** The handlers registered for each state. */
  function StateHandler(st: State, u: Update): Handler
  {
    match st
    case Idle => Unhandled
    case AwaitingChannel => if IsPlainText(u) then GetChannel else Unhandled
    case AwaitingMedia =>
      if u.PhotoMessage? || u.VideoMessage? then GetMedia
      else if u.Text? && IsCommandFor(u.text, "pular") then SkipMedia
      else Unhandled
    case AwaitingText => if IsPlainText(u) then GetText else Unhandled
    case AwaitingButtonPrompt => if IsYesNo(u) then GetButtonPrompt else Unhandled
    case AwaitingButtonText => if IsPlainText(u) then GetButtonText else Unhandled
    case AwaitingButtonUrl => if IsPlainText(u) then GetButtonUrl else Unhandled
    case AwaitingPinOption => if IsYesNo(u) then GetPinOption else Unhandled
    case AwaitingScheduleTime => if IsPlainText(u) then GetScheduleTime else Unhandled
    case AwaitingInterval => if IsPlainText(u) then GetInterval else Unhandled
    case AwaitingRepetitions => if u.Text? && 0 < |u.text| && AllDigits(u.text) then GetRepetitions else Unhandled
    case AwaitingStartTime => if IsPlainText(u) then GetStartTime else Unhandled
    case AwaitingConfirmation => if u.Text? && u.text == ConfirmText then SaveSchedule else Unhandled
  }

  /** The `ConversationHandler` dispatch: with no conversation only the
      entry point is tried; inside one, the current state's handlers come
      first and the fallbacks (`/cancel`, the cancel text) after them. */
  function Route(st: State, u: Update): Handler
  {
    if st == Idle then
      if u.Callback? && StartsWith(u.data, StartPrefix) then StartFlow else Unhandled
    else if StateHandler(st, u) != Unhandled then StateHandler(st, u)
    else if u.Text? && (IsCommandFor(u.text, "cancel") || u.text == CancelText) then CancelFlow
    else Unhandled
  }

  /** The job `save_schedule` arms for a freshly added record; the queue is
      unchanged where arming raises. */
  function ArmNew(jobs: Jobs, id: Id, p: Post): Jobs
  {
    match p.kind
    case None => jobs
    case Some(k) =>
      if k == OneShot then
        if p.scheduledFor.Some? then jobs[id := Once(p.scheduledFor.value)] else jobs
      else match RepeatingJob(p)
        case Some(job) => jobs[id := job]
        case None => jobs
  }

  /** `save_schedule`: the draft, stamped with its owner, is added to the
      store first; only then is the job armed, so a failure while arming
      leaves a stored record without a job. Either way the draft is
      cleared and the conversation ends. */
  function Save(d: Post, w: World, user: int, env: Env): Stepped
  {
    var ended := Session(Idle, EmptyPost);
    if !env.storeUp then Stepped(ended, w)
    else
      var record := d.(owner := Some(user));
      Stepped(ended, World(w.store[env.newId := record], ArmNew(w.jobs, env.newId, record)))
  }

  function Go(st: State, d: Post, w: World): Stepped
  {
    Stepped(Session(st, d), w)
  }

  /** `start_schedule_flow`: a fresh draft of the kind the button names. */
  function OnStart(s: Session, w: World, u: Update): Stepped
  {
    if !u.Callback? then Stepped(s, w)
    else
      var kind := if Contains(u.data, "single") then OneShot else Recurring;
      Go(AwaitingChannel, EmptyPost.(kind := Some(kind)), w)
  }

  /** `get_channel`, `get_text`, `get_button_text` and `get_interval`: store the text. */
  function OnChannel(s: Session, w: World, u: Update): Stepped
  {
    if !u.Text? then Stepped(s, w) else Go(AwaitingMedia, s.draft.(chatId := Some(u.text)), w)
  }

  function OnMedia(s: Session, w: World, u: Update): Stepped
  {
    if u.PhotoMessage? then Go(AwaitingText, s.draft.(media := Some(Photo(u.fileId))), w)
    else if u.VideoMessage? then Go(AwaitingText, s.draft.(media := Some(Video(u.fileId))), w)
    else Go(AwaitingText, s.draft, w)
  }

  function OnText(s: Session, w: World, u: Update): Stepped
  {
    if !u.Text? then Stepped(s, w) else Go(AwaitingButtonPrompt, s.draft.(text := Some(u.text)), w)
  }

  /** `get_button_prompt`: "Sim" asks for a button, anything else moves on. */
  function OnButtonPrompt(s: Session, w: World, u: Update): Stepped
  {
    if !u.Text? then Stepped(s, w)
    else if Lower(u.text) == "sim" then Go(AwaitingButtonText, s.draft, w)
    else Go(AwaitingPinOption, s.draft, w)
  }

  function OnButtonText(s: Session, w: World, u: Update): Stepped
  {
    if !u.Text? then Stepped(s, w)
    else Go(AwaitingButtonUrl, s.draft.(buttons := s.draft.buttons + [Button(u.text, None)]), w)
  }

  /** `get_button_url`: the URL goes on the last button (raising when there is none). */
  function OnButtonUrl(s: Session, w: World, u: Update): Stepped
  {
    var b := s.draft.buttons;
    if !u.Text? || b == [] then Stepped(s, w)
    else Go(AwaitingPinOption, s.draft.(buttons := b[|b| - 1 := b[|b| - 1].(url := Some(u.text))]), w)
  }

  /** `get_pin_option`: the pin flag is stored before the kind is read, so a
      draft without a kind keeps the flag and stays put. */
  function OnPinOption(s: Session, w: World, u: Update): Stepped
  {
    if !u.Text? then Stepped(s, w)
    else
      var d := s.draft.(pin := Some(Lower(u.text) == "sim"));
      if s.draft.kind.None? then Go(s.state, d, w)
      else if s.draft.kind == Some(OneShot) then Go(AwaitingScheduleTime, d, w)
      else Go(AwaitingInterval, d, w)
  }

  /** `get_schedule_time` and `get_start_time`: stay put on a reading
      `strptime` rejects. */
  function OnTime(s: Session, w: World, u: Update, localize: Civil -> Instant, forStart: bool): Stepped
  {
    if !u.Text? then Stepped(s, w)
    else match ParseCivil(u.text)
      case None => Stepped(s, w)
      case Some(c) =>
        var at := Some(localize(c));
        Go(AwaitingConfirmation, if forStart then s.draft.(startDate := at) else s.draft.(scheduledFor := at), w)
  }

  /** `get_interval`: the lower-cased text, not checked. */
  function OnInterval(s: Session, w: World, u: Update): Stepped
  {
    if !u.Text? then Stepped(s, w) else Go(AwaitingRepetitions, s.draft.(interval := Some(Lower(u.text))), w)
  }

  /** `get_repetitions`: `int(text)`, which raises on text that is not an integer. */
  function OnRepetitions(s: Session, w: World, u: Update): Stepped
  {
    if !u.Text? then Stepped(s, w)
    else match ParseInt(u.text)
      case None => Stepped(s, w)
      case Some(n) => Go(AwaitingStartTime, s.draft.(repetitions := Some(n)), w)
  }

  /** The handler bodies. */
  function Handle(h: Handler, s: Session, w: World, user: int, u: Update, localize: Civil -> Instant, env: Env): Stepped
  {
    match h
    case StartFlow => OnStart(s, w, u)
    case GetChannel => OnChannel(s, w, u)
    case GetMedia => OnMedia(s, w, u)
    case SkipMedia => Go(AwaitingText, s.draft.(media := None), w)
    case GetText => OnText(s, w, u)
    case GetButtonPrompt => OnButtonPrompt(s, w, u)
    case GetButtonText => OnButtonText(s, w, u)
    case GetButtonUrl => OnButtonUrl(s, w, u)
    case GetPinOption => OnPinOption(s, w, u)
    case GetScheduleTime => OnTime(s, w, u, localize, false)
    case GetInterval => OnInterval(s, w, u)
    case GetRepetitions => OnRepetitions(s, w, u)
    case GetStartTime => OnTime(s, w, u, localize, true)
    case SaveSchedule => Save(s.draft, w, user, env)
    case CancelFlow => Go(Idle, EmptyPost, w)
    case Unhandled => Stepped(s, w)
  }

  /** The state each handler is registered for, and what its filter lets
      through where the handler depends on it. */
  predicate RegisteredIn(h: Handler, st: State, u: Update)
  {
    match h
    case StartFlow => st == Idle
    case GetChannel => st == AwaitingChannel
    case GetMedia => st == AwaitingMedia
    case SkipMedia => st == AwaitingMedia
    case GetText => st == AwaitingText
    case GetButtonPrompt => st == AwaitingButtonPrompt
    case GetButtonText => st == AwaitingButtonText
    case GetButtonUrl => st == AwaitingButtonUrl
    case GetPinOption => st == AwaitingPinOption
    case GetScheduleTime => st == AwaitingScheduleTime
    case GetInterval => st == AwaitingInterval
    case GetRepetitions => st == AwaitingRepetitions && u.Text? && 0 < |u.text| && AllDigits(u.text)
    case GetStartTime => st == AwaitingStartTime
    case SaveSchedule => st == AwaitingConfirmation
    case CancelFlow => st != Idle
    case Unhandled => true
  }

  lemma RouteRegistered(st: State, u: Update)
    ensures RegisteredIn(Route(st, u), st, u)
  {
  }

  /** The states a conversation may move to from `st` (the draft's kind
      picks the branch after the pin question). */
  function Successors(st: State, kind: Option<Kind>): set<State>
  {
    match st
    case Idle => {AwaitingChannel}
    case AwaitingChannel => {AwaitingMedia, Idle}
    case AwaitingMedia => {AwaitingText, Idle}
    case AwaitingText => {AwaitingButtonPrompt, Idle}
    case AwaitingButtonPrompt => {AwaitingButtonText, AwaitingPinOption, Idle}
    case AwaitingButtonText => {AwaitingButtonUrl, Idle}
    case AwaitingButtonUrl => {AwaitingPinOption, Idle}
    case AwaitingPinOption => (if kind == Some(OneShot) then {AwaitingScheduleTime} else {AwaitingInterval}) + {Idle}
    case AwaitingScheduleTime => {AwaitingConfirmation, Idle}
    case AwaitingInterval => {AwaitingRepetitions, Idle}
    case AwaitingRepetitions => {AwaitingStartTime, Idle}
    case AwaitingStartTime => {AwaitingConfirmation, Idle}
    case AwaitingConfirmation => {Idle}
  }

  /** The guarantees of a step that runs a handler (see `Step`). */
  predicate Disciplined(s: Session, w: World, user: int, h: Handler, env: Env, r: Stepped)
  {
    && (r.world.store != w.store ==>
          && h == SaveSchedule && env.storeUp
          && r.world.store == w.store[env.newId := s.draft.(owner := Some(user))])
    && (r.world.jobs != w.jobs ==>
          && h == SaveSchedule && env.storeUp
          && env.newId in r.world.store && r.world.jobs.Keys == w.jobs.Keys + {env.newId}
          && r.world.jobs - {env.newId} == w.jobs - {env.newId})
    && (s.state != Idle && r.session.state == Idle ==> r.session.draft == EmptyPost)
  }

  /** A step stays put or moves along the flow. */
  predicate FollowsFlow(s: Session, r: Stepped)
  {
    r.session.state == s.state || r.session.state in Successors(s.state, r.session.draft.kind)
  }

  /** Only the confirmation touches the world. */
  lemma HandleKeepsWorld(h: Handler, s: Session, w: World, user: int, u: Update, localize: Civil -> Instant, env: Env)
    requires h != SaveSchedule
    ensures Handle(h, s, w, user, u, localize, env).world == w
  {
    match h
    case StartFlow =>
    case GetChannel =>
    case GetMedia =>
    case SkipMedia =>
    case GetText =>
    case GetButtonPrompt =>
    case GetButtonText =>
    case GetButtonUrl =>
    case GetPinOption =>
    case GetScheduleTime =>
    case GetInterval =>
    case GetRepetitions =>
    case GetStartTime =>
    case CancelFlow =>
    case Unhandled =>
  }

  /** Every handler that ends the conversation clears the draft. */
  lemma HandleClears(h: Handler, s: Session, w: World, user: int, u: Update, localize: Civil -> Instant, env: Env)
    requires RegisteredIn(h, s.state, u)
    ensures var r := Handle(h, s, w, user, u, localize, env);
      s.state != Idle && r.session.state == Idle ==> r.session.draft == EmptyPost
  {
    match h
    case StartFlow =>
    case GetChannel =>
    case GetMedia =>
    case SkipMedia =>
    case GetText =>
    case GetButtonPrompt =>
    case GetButtonText =>
    case GetButtonUrl =>
    case GetPinOption =>
    case GetScheduleTime =>
    case GetInterval =>
    case GetRepetitions =>
    case GetStartTime =>
    case CancelFlow =>
    case Unhandled =>
    case SaveSchedule =>
  }

  lemma HandleDisciplined(h: Handler, s: Session, w: World, user: int, u: Update, localize: Civil -> Instant, env: Env)
    requires RegisteredIn(h, s.state, u)
    ensures Disciplined(s, w, user, h, env, Handle(h, s, w, user, u, localize, env))
  {
    HandleClears(h, s, w, user, u, localize, env);
    if h == SaveSchedule {
      var record := s.draft.(owner := Some(user));
      var jobs := ArmNew(w.jobs, env.newId, record);
      assert jobs == w.jobs || jobs.Keys == w.jobs.Keys + {env.newId};
      assert jobs - {env.newId} == w.jobs - {env.newId};
    } else {
      HandleKeepsWorld(h, s, w, user, u, localize, env);
    }
  }

  lemma HandleFollowsFlow(h: Handler, s: Session, w: World, user: int, u: Update, localize: Civil -> Instant, env: Env)
    requires RegisteredIn(h, s.state, u)
    ensures FollowsFlow(s, Handle(h, s, w, user, u, localize, env))
  {
    match h
    case StartFlow =>
    case GetChannel =>
    case GetMedia =>
    case SkipMedia =>
    case GetText =>
    case GetButtonPrompt =>
    case GetButtonText =>
    case GetButtonUrl =>
    case GetPinOption =>
    case GetScheduleTime =>
    case GetInterval =>
    case GetRepetitions =>
    case GetStartTime =>
    case SaveSchedule =>
    case CancelFlow =>
    case Unhandled =>
  }

  /** One update from operator `user`. An operator outside `admins`, or an
      update no filter accepts, changes nothing. The store changes only by
      saving the draft under the new id, and a job is armed only for a
      record that was just stored. Leaving a conversation clears the
      draft, and every move follows the flow's order. */
  function Step(admins: set<int>, s: Session, w: World, user: int, u: Update, localize: Civil -> Instant, env: Env): (r: Stepped)
    ensures user !in admins ==> r == Stepped(s, w)
    ensures Route(s.state, u) == Unhandled ==> r == Stepped(s, w)
    ensures Disciplined(s, w, user, Route(s.state, u), env, r)
    ensures FollowsFlow(s, r)
  {
    var h := Route(s.state, u);
    if h == Unhandled || user !in admins then Stepped(s, w)
    else
      RouteRegistered(s.state, u);
      HandleDisciplined(h, s, w, user, u, localize, env);
      HandleFollowsFlow(h, s, w, user, u, localize, env);
      Handle(h, s, w, user, u, localize, env)
  }
}
