# Scheduled channel posts: the scheduling and dialogue core

This project is a Dafny model of `main.py`, a Telegram bot. The bot lets
its administrators schedule channel posts. A post is a text with an
optional photo or video, at most one URL button, and an optional pin. It
goes out either once at a given date and time (`agendada`) or repeatedly
from a start date at a fixed interval (`recorrente`). The repeating kind
either runs a given number of times or, with `0`, forever.

The model covers four parts of the bot:

- **The sender** (`send_post`), in `Dispatcher`. It handles one firing of a
  job: it looks the record up, makes exactly one send call chosen by the
  media type, pins the message when asked, and then deletes the record,
  decrements its count or leaves it alone.
- **The reload at start-up** (`reload_jobs_from_db`), in `Reconciler`. It
  streams the stored records:
  - a one-shot record in the future is armed once;
  - a one-shot record that is overdue is deleted;
  - a recurring record with a start date and a count that is `0` or
    positive (or missing) is armed with its start date as the first run;
  - every other record is skipped.

  An exception inside the loop stops the whole reload.
- **The dialogue** (`ConversationHandler`), in `Conversation` and `Flow`.
  It consists of:
  - the access gate;
  - the state/filter table, with the `/cancel` and "❌ Cancelar"
    fallbacks;
  - the fifteen handlers (the thirteen steps of the flow, `save_schedule`
    and `cancel`), each modelled as one atomic step on the
    operator's session (state and draft) and on the world (store and armed
    jobs);
  - the readers the handlers use: `strptime` with `%d/%m/%Y %H:%M` in
    `CivilTime`, Python's `int()` in `Numerals`, and the `30m`/`12h`/`1d`
    interval text together with the `timedelta` limit in `Intervals`.
- **How the parts meet**, in `Lifecycle`, and **that the dialogue can
  always be completed**, in `Completion`.

The store is a map from document ids to records (`Records.Post`, which
mirrors the Firestore dictionary field by field, with missing keys as
`None`). The job queue is a map from job names to `Once(at)` or
`Repeating(every, first)`.

A Python exception is modelled by what it leaves behind:

- a handler that raises keeps the conversation's state;
- a send that raises changes no record;
- a reload that raises is `Aborted`.

`save_schedule` adds the record (main.py:270) before it reads the interval
(main.py:277-279). The model follows that order. A confirmed recurring
schedule whose interval does not read, or does not fit a `timedelta`, is
therefore stored but not armed. `Lifecycle.IntervalTypo` shows this with
the interval `xm`. `Lifecycle.StrandedRecordBlocksReload` shows the
consequence: every later reload that reaches such a record stops on it.

The clock, the time-zone localisation and the ids the store assigns are
parameters. These are `now`, `localize: Civil -> Instant` and `Env(newId,
storeUp)`. The transport's answers are parameters too: `Reply` for the
send and `pinRaises` for the pin.

## Model

| member | source | states |
|---|---|---|
| Numerals.ParseInt | main.py:221 | `int(text)` on decimal digits gives their decimal value; the empty text raises |
| Numerals.ParseIntStrips | main.py:115 | `int()` reads only what is left once the whitespace it skips is removed from both ends |
| Numerals.PaddedIntText | main.py:115 | `int(a + str(n) + b) == n` whenever `a` and `b` are whitespace that `int()` skips |
| Numerals.SeparatorControlRejected | main.py:115 | a separator control U+001C to U+001F before or after the numeral makes `int()` raise, though `str.isspace` holds for it |
| Numerals.ParseIntText | main.py:115 | `int(str(n)) == n` for every integer, negative ones included |
| CivilTime.DaysInMonth | main.py:205 | months have 28 to 31 days; February has 29 exactly in leap years |
| CivilTime.ParseCivil | main.py:205 | every reading `strptime` accepts is a real date and time (year 1-9999, day within its month, hour below 24, minute below 60) |
| CivilTime.ParseFormat | main.py:205 | a date written as `DD/MM/YYYY HH:MM` is read back unchanged exactly when it exists, and rejected otherwise |
| CivilTime.LeapDay | main.py:228 | 29 February is accepted exactly in leap years |
| CivilTime.RejectsImpossibleReading | main.py:209-211 | `31/13/2025 25:61` is rejected, so the handler asks again |
| CivilTime.AcceptsUnpaddedReading | main.py:205 | unpadded fields and several spaces are accepted: `1/2/2030  9:05` is 1 February 2030, 09:05 |
| Intervals.ParseInterval | main.py:115-116 | a readable interval text has at least a value character and a unit character |
| Intervals.ParseIntervalText | main.py:115-116 | every interval spelled `<int><m/h/d>` is read back as the same unit and value |
| Intervals.OtherLetterMeansDays | main.py:116 | any last letter other than `m` and `h` means days |
| Intervals.NonIntegerPrefixFails | main.py:115 | a prefix that `int()` rejects makes the interval unreadable, whatever the unit |
| Intervals.BareUnitFails | main.py:115 | a single character has no value and is unreadable |
| Intervals.SeparatorControlInterval | main.py:115-116 | an interval whose value starts with a separator control, such as `\x1c5m`, is unreadable |
| Intervals.RepresentableBounds | main.py:118 | every count up to 999999999 fits a `timedelta` in any unit; in days, exactly the counts within ±999999999 fit |
| Dispatcher.Keyboard | main.py:67-68 | the keyboard is built exactly when every button has a URL, with one link per button in order carrying its title and URL |
| Dispatcher.Dispatch | main.py:51-91 | a missing record means no call and no change; only the fired record can change, and only after a send that did not raise; at most two calls, and only the second is a pin |
| Dispatcher.DispatchCalls | main.py:63-82 | an unsendable record gets no call; otherwise exactly one send, to the record's chat, is a photo, a video or a text as the media says, carries the record's file id, its text (empty when missing) as text or caption, and the keyboard built from its buttons; a pin of the returned message in the same chat follows exactly when `pin_post` is set and a message came back |
| Dispatcher.DispatchEffect | main.py:81-91 | after a good send: one-shot records are deleted; recurring ones are deleted at 1 left, untouched at 0 or no count, otherwise decremented by exactly one; a failing pin leaves the record alone |
| Dispatcher.Countdown | main.py:86-88 | a recurring record created with N ≥ 1 repetitions has N−k left after k < N firings and is gone after the N-th, and no other record changes |
| Dispatcher.GoneStaysGone | main.py:57-60 | once the record is gone, further firings change nothing |
| Dispatcher.UnboundedNeverEnds | main.py:86-88 | with 0 repetitions the record survives any number of firings unchanged |
| Dispatcher.OneShotFiresOnce | main.py:84-85 | a one-shot record is deleted by its first good firing |
| Reconciler.Reconcile | main.py:93-121 | reloaded + deleted never exceeds the number of records streamed, and the reload only ever removes records |
| Reconciler.ReloadAborts | main.py:99-119 | the reload aborts exactly when some record breaks the loop (no `type`, or an armed recurring record whose interval does not give a `timedelta`), and it stops at the first one |
| Reconciler.VisitOutcome | main.py:100-119 | one record: a future one-shot is armed once at its time; an overdue one is deleted and not armed; an armable recurring one is armed with its start date as first run and never deleted; any other is left untouched |
| Reconciler.ReloadEach | main.py:99-119 | over a stream with distinct ids, each record gets the outcome its own fields call for |
| Reconciler.ReloadFrame | main.py:99-119 | records outside the stream are neither armed nor touched |
| Reconciler.ReloadCounts | main.py:97-119 | the counters track the effects: reloaded equals the jobs armed and deleted equals the records removed |
| Reconciler.ReconcileOutcome | main.py:93-121 | the whole reload: it aborts exactly when a record breaks it; otherwise every streamed record gets its outcome, nothing else changes, `reloaded` is the number of armed jobs and `deleted` the number of removed records |
| Reconciler.ReloadTwice | main.py:99-119 | reloading only the records a reload keeps arms the same jobs, counts as many and deletes nothing, while the first reload removes exactly the overdue records |
| Reconciler.ReloadIdempotent | main.py:93-121 | the reload is idempotent: run again at the same clock over the store it leaves behind, it raises nowhere, arms the same jobs, reloads as many, deletes nothing and leaves the store unchanged |
| Conversation.RouteRegistered | main.py:368-386 | every handler the dispatch picks is one registered for the current state, behind its filter |
| Conversation.HandleKeepsWorld | main.py:124-262 | no handler other than the confirmation touches the store or the jobs |
| Conversation.HandleClears | main.py:289-297 | every handler that ends a conversation leaves an empty draft |
| Conversation.HandleDisciplined | main.py:124-297 | only a confirmation with a working store writes, exactly the draft stamped with its owner under the new id; a job is armed only for that id, and every other job keeps its value; leaving a conversation clears the draft |
| Conversation.HandleFollowsFlow | main.py:124-297 | every handler stays put or moves to one of its state's successors in the flow |
| Conversation.Step | main.py:39-47 | a non-administrator, or an update that no filter accepts, changes nothing; otherwise the step is disciplined and follows the flow |
| Flow.HandleKeepsInv | main.py:124-234 | each handler keeps the per-state shape of the draft |
| Flow.StepKeepsInv | main.py:368-386 | every step keeps that shape: confirmation is reached only with a complete draft carrying at most one button that has its URL, and one-shot flows go through the date while recurring ones go through interval, repetitions and start date |
| Flow.EntryPoints | main.py:191-234 | the confirmation is entered only from the date of a one-shot draft or the start date of a recurring one; the recurring branch is entered in the order interval, repetitions, start date, and the date states only from the pin question of the matching kind |
| Flow.StepSettles | main.py:264-290 | one step only adds records, every record it writes is complete and owned, and it arms jobs only for stored records |
| Flow.StepOnInv | main.py:368-386 | from a well-shaped session, one step keeps the shape and settles the world |
| Flow.Run | main.py:368-386 | a run of one operator's updates in one chat, from a well-shaped session, keeps the shape, only adds complete owned records, and never arms a job without a record |
| Flow.RunFiles | main.py:264-290 | from a fresh start, every record one operator's conversation stores is complete and owned and every job belongs to a stored record |
| Flow.CancelRoutes | main.py:384 | `/cancel` falls through every state's filters to the fallback |
| Flow.CancelEnds | main.py:293-297 | `/cancel` ends any conversation with an empty draft and leaves store and jobs alone; without a conversation it does nothing |
| Flow.CancelTextRouting | main.py:371-384 | the cancel text cancels exactly in the media, yes/no, repetition and confirmation states; in free-text states it is taken as input |
| Flow.BadReadingKeepsState | main.py:203-211 | in the date states, a reading `strptime` rejects leaves session and world unchanged |
| Flow.ReadingAdvances | main.py:226-233 | an accepted reading stores the localised instant in the field the state asks for and moves to the confirmation |
| Flow.RepetitionsAreDigits | main.py:220-223 | in the repetitions state, digit text is taken as its decimal value, so the stored count is never negative |
| Flow.RepetitionsIgnoresOthers | main.py:380 | any text there that is not all digits changes nothing, except the cancel fallbacks |
| Flow.KindFixed | main.py:125-131 | within a conversation the kind chosen at the start never changes |
| Flow.SaveCommits | main.py:264-290 | confirming stores the complete draft stamped with its owner under the new id, then arms a one-shot at its time and a recurring one only when its interval gives a job; a failed add stores nothing; the conversation always ends with an empty draft |
| Completion.AnswerRoutes | main.py:368-384 | each state has an answer its own handler takes, ahead of the fallbacks; in the idle state it is the `start_schedule_single` button |
| Completion.AnswerHandled | main.py:125-234 | outside the date states, that handler moves the conversation strictly closer to the confirmation and touches neither store nor jobs |
| Completion.AnswerAdvances | main.py:125-234 | before the confirmation, an administrator's answer always moves the conversation strictly closer to it, leaving store and jobs alone |
| Completion.ReachesConfirmation | main.py:368-386 | from every state the handlers can reach, some run of at most as many answers as the state's distance reaches the confirmation |
| Completion.ConfirmCompletes | main.py:264-290 | confirming a well-shaped draft with a working store ends the conversation with the filed record of its operator under the new id |
| Completion.Completable | main.py:264-290 | every conversation the handlers can reach can be completed: with a working store, at most distance + 1 updates store a filed record of the operator's |
| Completion.FreshRunFiles | main.py:264-290 | from no conversation and an empty store, some ten updates of an administrator end the conversation with a complete record of theirs stored under the new id |
| Lifecycle.FiledIsSendable | main.py:63-68 | every record the dialogue stores has a chat and URLs on all its buttons, so the sender reaches the send |
| Lifecycle.FiledBreaks | main.py:111-118 | a stored record stops the reload exactly when it is recurring and its interval does not give a job |
| Lifecycle.ArmedIffReloadable | main.py:270-280 | the confirmation arms the new record exactly when the reload would not stop on it |
| Lifecycle.StrandedRecordBlocksReload | main.py:113-118 | a stored recurring record with an unreadable interval stops every reload that reaches it |
| Lifecycle.IntervalTypo | main.py:214-216 | the interval `xm` is accepted by the dialogue, stored on confirmation, never armed, and breaks the next reload |

## Left out

- Telegram transport: replies, keyboards, `answer()` and message edits are not modelled. Their failures are not modelled either, including Markdown rejected by the server. A send or pin is only the call issued together with the reply it gets.
- The summary text (`confirm_schedule`), the menus, `list_schedules`, `start_command`, the error handler, logging and the environment/bootstrap code are not modelled: they only produce text.
- `created_at` (a server timestamp) is not a field of the record.
- Store failures other than the add in `save_schedule` are not modelled. The case of no database connection at start-up (`db is None`) is left out too.
- JobQueue timing is not modelled, nor the effect of `job.schedule_next_run_time = None`. PTB appends a second job under an existing name; the model's job map keeps one job per name.
- Time-zone localisation is the parameter `localize`, and the clock is the parameter `now`.
- `int()` and the `^\d+$` filter are modelled on ASCII digits. Unicode decimal digits are left out, and so is the 4300-digit limit of `int()`.
- `lower()` is modelled on ASCII letters only.
- The regular-expression filters are modelled as whole-text equality. The `$` that also accepts a trailing newline is left out.
- Commands addressed as `/cmd@botname` and edited messages are left out.
- CivilTime.ParseCivil: reads ASCII digits only. CPython's `\d` in `%Y` and in the digit positions of `%d`, `%m`, `%H` and `%M` also accepts other Unicode decimal digits (as in `01/02/٢٠٣٠ 10:00`). This reader rejects them, so `Flow.BadReadingKeepsState` keeps the state where the bot would move on.
- Fields stored as null are not modelled: `None` is a missing key. The bot itself writes null only to `media_type` and `media_file_id`, which are read through `dict.get`, where null and missing agree. A document written by some other program with a null `type` would be skipped by the reload but aborts it here. A null `repetitions` raises `TypeError` in the reload but is armed here. A null `chat_id` reaches a send in the bot but gets no call here.
- Flow.Run: follows one conversation, the updates of one operator in one chat, which is how `ConversationHandler` keys them. Other operators and other chats are separate conversations, interleaved with this one only through the shared store and jobs.
- Flow.RunFiles: `user_data` is keyed by user alone, so one operator's draft is shared between their conversations in different chats. A `/cancel` in one chat clears the draft another chat is about to confirm. The confirmation then adds the nearly empty dictionary and stops on the `KeyError` at main.py:274, leaving a stored record that is not complete. That sharing is not modelled.
- Concurrency between conversations and jobs is left out: each handler and each firing is one atomic step.
- A photo update carries a single file id; choosing the largest photo size is left to the transport.
