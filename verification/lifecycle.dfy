/** How the three parts meet: a record the dialogue files is one the sender
    can send and one the reload at start-up either re-arms or stops on. */
module Lifecycle {
  import opened Wrappers
  import opened Numerals
  import opened CivilTime
  import opened Intervals
  import opened Records
  import opened Dispatcher
  import opened Reconciler
  import opened Conversation
  import opened Flow

  /** A filed record never makes the sender give up before sending: it has
      a destination and every button has its URL. */
  lemma FiledIsSendable(p: Post)
    requires Filed(p)
    ensures Sendable(p)
  {
  }

  /** The only filed records the reload stops on are recurring ones whose
      interval does not give a job. */
  lemma FiledBreaks(p: Post)
    requires Filed(p)
    ensures Breaks(p) <==> p.kind == Some(Recurring) && RepeatingJob(p).None?
  {
  }

  /** The confirmation arms a job for the new record exactly when the
      reload would not stop on that record. */
  lemma ArmedIffReloadable(admins: set<int>, s: Session, w: World, user: int, localize: Civil -> Instant, env: Env)
    requires user in admins && s.state == AwaitingConfirmation && Inv(s)
    requires env.storeUp && env.newId !in w.jobs
    ensures var r := Step(admins, s, w, user, Text(ConfirmText), localize, env);
      env.newId in r.world.store && (env.newId in r.world.jobs <==> !Breaks(r.world.store[env.newId]))
  {
    SaveCommits(admins, s, w, user, localize, env);
    FiledBreaks(s.draft.(owner := Some(user)));
  }

  /** A filed recurring record whose interval does not give a job stops
      every later reload that reaches it. */
  lemma StrandedRecordBlocksReload(store: Store, docs: seq<(Id, Post)>, now: Instant, i: nat)
    requires i < |docs| && Filed(docs[i].1)
    requires docs[i].1.kind == Some(Recurring) && RepeatingJob(docs[i].1).None?
    ensures Reconcile(store, docs, now).Aborted?
  {
    FiledBreaks(docs[i].1);
    ReloadAborts(docs, Progress(store, map[], 0, 0), now);
  }

  /** For instance, an operator who types "xm" as the interval gets a
      stored record and no job. */
  lemma IntervalTypo(admins: set<int>, s: Session, w: World, user: int, localize: Civil -> Instant, env: Env)
    requires user in admins && s.state == AwaitingConfirmation && Inv(s)
    requires s.draft.kind == Some(Recurring) && s.draft.interval == Some("xm")
    requires env.storeUp
    ensures var r := Step(admins, s, w, user, Text(ConfirmText), localize, env);
      && env.newId in r.world.store
      && r.world.jobs == w.jobs
      && Breaks(r.world.store[env.newId])
  {
    assert ParseInt("x").None?;
    NonIntegerPrefixFails("x", 'm');
    assert "x" + ['m'] == "xm";
    SaveCommits(admins, s, w, user, localize, env);
    FiledBreaks(s.draft.(owner := Some(user)));
  }
}
