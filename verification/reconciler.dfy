/** Startup reconciliation (`reload_jobs_from_db`): every stored record is
    visited once, in stream order, against the clock reading taken at the
    start. A one-shot record still in the future is armed once; one whose
    time has passed is deleted; a recurring record with a start date and a
    repetition count that is not negative is armed as repeating from its
    stored start date. Nothing in the loop catches exceptions, so a record
    without a `type`, or a recurring record whose interval cannot be turned
    into a `timedelta`, stops the whole reload, keeping the deletions made
    before it. */
module Reconciler {
  import opened Wrappers
  import opened Records

  /** What the loop has done so far. */
  datatype Progress = Progress(store: Store, jobs: Jobs, reloaded: nat, deleted: nat)

  datatype Reload = Reloaded(progress: Progress) | Aborted(store: Store, failed: Id)

  /** `post.get('repetitions', 1) > 0 or post.get('repetitions') == 0`. */
  predicate RepetitionsLeft(repetitions: Option<int>)
  {
    match repetitions
    case None => true
    case Some(n) => n >= 0
  }

  /** One iteration of the loop; `None` where it raises. */
  function Visit(acc: Progress, id: Id, p: Post, now: Instant): Option<Progress>
  {
    match p.kind
    case None => None
    case Some(OneShot) =>
      (match p.scheduledFor
       case None => Some(acc)
       case Some(t) =>
         if t > now then Some(acc.(jobs := acc.jobs[id := Once(t)], reloaded := acc.reloaded + 1))
         else Some(acc.(store := acc.store - {id}, deleted := acc.deleted + 1)))
    case Some(Recurring) =>
      if p.startDate.Some? && RepetitionsLeft(p.repetitions) then
        match RepeatingJob(p)
        case None => None
        case Some(job) => Some(acc.(jobs := acc.jobs[id := job], reloaded := acc.reloaded + 1))
      else Some(acc)
    case Some(Unrecognised) => Some(acc)
  }

  function ReloadFrom(docs: seq<(Id, Post)>, acc: Progress, now: Instant): Reload
  {
    if docs == [] then Reloaded(acc)
    else match Visit(acc, docs[0].0, docs[0].1, now)
      case None => Aborted(acc.store, docs[0].0)
      case Some(next) => ReloadFrom(docs[1..], next, now)
  }

  /** The reload over the stream `docs` of the store's records, with an
      empty job queue. Each record is counted at most once, and records are
      only ever removed. */
  function Reconcile(store: Store, docs: seq<(Id, Post)>, now: Instant): (r: Reload)
    ensures r.Reloaded? ==> r.progress.reloaded + r.progress.deleted <= |docs|
    ensures r.Reloaded? ==> r.progress.store.Keys <= store.Keys
  {
    var start := Progress(store, map[], 0, 0);
    ReloadBounds(docs, start, now);
    ReloadFrom(docs, start, now)
  }

  lemma {:induction false} ReloadBounds(docs: seq<(Id, Post)>, acc: Progress, now: Instant)
    ensures var r := ReloadFrom(docs, acc, now);
      r.Reloaded? ==>
        && r.progress.reloaded + r.progress.deleted <= acc.reloaded + acc.deleted + |docs|
        && r.progress.store.Keys <= acc.store.Keys
  {
    if docs != [] {
      match Visit(acc, docs[0].0, docs[0].1, now)
      case None =>
      case Some(next) => ReloadBounds(docs[1..], next, now);
    }
  }

  // The per-record conditions, as the loop body states them.

  /** A one-shot record whose time is still ahead. */
  ghost predicate ArmsOnce(p: Post, now: Instant)
  {
    p.kind == Some(OneShot) && p.scheduledFor.Some? && p.scheduledFor.value > now
  }

  /** A one-shot record whose time has come (equal to the clock included). */
  ghost predicate Overdue(p: Post, now: Instant)
  {
    p.kind == Some(OneShot) && p.scheduledFor.Some? && p.scheduledFor.value <= now
  }

  /** A recurring record the loop tries to arm. */
  ghost predicate ArmsRepeating(p: Post)
  {
    p.kind == Some(Recurring) && p.startDate.Some? && RepetitionsLeft(p.repetitions)
  }

  /** A record on which the loop raises. */
  ghost predicate Breaks(p: Post)
  {
    p.kind.None? || (ArmsRepeating(p) && RepeatingJob(p).None?)
  }

  ghost predicate Distinct(docs: seq<(Id, Post)>)
  {
    forall i, j :: 0 <= i < j < |docs| ==> docs[i].0 != docs[j].0
  }

  ghost function Ids(docs: seq<(Id, Post)>): set<Id>
  {
    set i | 0 <= i < |docs| :: docs[i].0
  }

  /** The two states agree on `id`, in the store and in the job queue. */
  ghost predicate SameAt(a: Progress, b: Progress, id: Id)
  {
    && (id in a.store <==> id in b.store) && (id in a.store ==> a.store[id] == b.store[id])
    && (id in a.jobs <==> id in b.jobs) && (id in a.jobs ==> a.jobs[id] == b.jobs[id])
  }

  /** What the reload does to the record `id` with contents `p`, from state
      `before` to state `after`. */
  ghost predicate Outcome(id: Id, p: Post, now: Instant, before: Progress, after: Progress)
  {
    && (ArmsOnce(p, now) ==>
          && id in after.jobs && after.jobs[id] == Once(p.scheduledFor.value)
          && (id in after.store <==> id in before.store))
    && (Overdue(p, now) ==>
          && id !in after.store
          && (id in after.jobs <==> id in before.jobs))
    && (ArmsRepeating(p) ==>
          && RepeatingJob(p).Some?
          && id in after.jobs && after.jobs[id] == RepeatingJob(p).value
          && after.jobs[id].first == p.startDate.value
          && (id in after.store <==> id in before.store))
    && (!ArmsOnce(p, now) && !Overdue(p, now) && !ArmsRepeating(p) ==> SameAt(before, after, id))
  }

  lemma VisitOutcome(acc: Progress, id: Id, p: Post, now: Instant)
    requires Visit(acc, id, p, now).Some?
    ensures var next := Visit(acc, id, p, now).value;
      && Outcome(id, p, now, acc, next)
      && (forall other :: other != id ==> SameAt(acc, next, other))
      && (ArmsOnce(p, now) || ArmsRepeating(p) ==> next.reloaded == acc.reloaded + 1 && next.deleted == acc.deleted)
      && (Overdue(p, now) ==> next.reloaded == acc.reloaded && next.deleted == acc.deleted + 1)
      && (!ArmsOnce(p, now) && !Overdue(p, now) && !ArmsRepeating(p) ==> next == acc)
  {
  }

  /** The reload raises exactly when some record breaks it, and it stops
      at the first such record. */
  lemma {:induction false} ReloadAborts(docs: seq<(Id, Post)>, acc: Progress, now: Instant)
    ensures var r := ReloadFrom(docs, acc, now);
      && (r.Aborted? <==> exists i :: 0 <= i < |docs| && Breaks(docs[i].1))
      && (r.Aborted? ==> exists i :: 0 <= i < |docs| && Breaks(docs[i].1) && r.failed == docs[i].0
                                      && forall j :: 0 <= j < i ==> !Breaks(docs[j].1))
  {
    if docs != [] {
      var id, p := docs[0].0, docs[0].1;
      match Visit(acc, id, p, now)
      case None =>
        assert Breaks(p);
      case Some(next) =>
        assert !Breaks(p);
        ReloadAborts(docs[1..], next, now);
        var r := ReloadFrom(docs[1..], next, now);
        if r.Aborted? {
          var i :| 0 <= i < |docs[1..]| && Breaks(docs[1..][i].1) && r.failed == docs[1..][i].0
                   && forall j :: 0 <= j < i ==> !Breaks(docs[1..][j].1);
          assert docs[i + 1] == docs[1..][i];
          forall j | 0 <= j < i + 1 ensures !Breaks(docs[j].1) {
            if j > 0 { assert docs[j] == docs[1..][j - 1]; }
          }
        } else {
          forall i | 0 <= i < |docs| ensures !Breaks(docs[i].1) {
            if i > 0 { assert docs[i] == docs[1..][i - 1]; }
          }
        }
    }
  }

  /** The tail of a stream with distinct ids has distinct ids, and lacks
      the head's id. */
  lemma StreamTail(docs: seq<(Id, Post)>)
    requires docs != []
    ensures Ids(docs) == Ids(docs[1..]) + {docs[0].0}
    ensures Distinct(docs) ==> Distinct(docs[1..]) && docs[0].0 !in Ids(docs[1..])
  {
    forall x | x in Ids(docs) ensures x in Ids(docs[1..]) + {docs[0].0} {
      var i :| 0 <= i < |docs| && docs[i].0 == x;
      if i > 0 { assert docs[1..][i - 1].0 == x; }
    }
    forall x | x in Ids(docs[1..]) ensures x in Ids(docs) {
      var i :| 0 <= i < |docs[1..]| && docs[1..][i].0 == x;
      assert docs[i + 1].0 == x;
    }
    if Distinct(docs) {
      forall i | 0 <= i < |docs[1..]| ensures docs[1..][i].0 != docs[0].0 {
        assert docs[1..][i] == docs[i + 1];
      }
    }
  }

  lemma MapAddSize<K, V>(m: map<K, V>, k: K, v: V)
    requires k !in m
    ensures |m[k := v]| == |m| + 1
  {
    assert m[k := v].Keys == m.Keys + {k};
  }

  lemma MapRemoveSize<K, V>(m: map<K, V>, k: K)
    requires k in m
    ensures |m - {k}| == |m| - 1
  {
    assert (m - {k}).Keys == m.Keys - {k};
  }

  /** Records outside the stream are left as they were. */
  lemma {:induction false} ReloadFrame(docs: seq<(Id, Post)>, acc: Progress, now: Instant, id: Id)
    requires ReloadFrom(docs, acc, now).Reloaded?
    requires id !in Ids(docs)
    ensures SameAt(acc, ReloadFrom(docs, acc, now).progress, id)
  {
    if docs != [] {
      var next := Visit(acc, docs[0].0, docs[0].1, now).value;
      VisitOutcome(acc, docs[0].0, docs[0].1, now);
      StreamTail(docs);
      ReloadFrame(docs[1..], next, now, id);
    }
  }

  /** Every streamed record gets the treatment its own fields call for. */
  lemma {:induction false} ReloadEach(docs: seq<(Id, Post)>, acc: Progress, now: Instant)
    requires ReloadFrom(docs, acc, now).Reloaded?
    requires Distinct(docs)
    ensures forall i :: 0 <= i < |docs| ==> Outcome(docs[i].0, docs[i].1, now, acc, ReloadFrom(docs, acc, now).progress)
  {
    if docs != [] {
      var id, p := docs[0].0, docs[0].1;
      var next := Visit(acc, id, p, now).value;
      var r := ReloadFrom(docs, acc, now).progress;
      VisitOutcome(acc, id, p, now);
      StreamTail(docs);
      ReloadEach(docs[1..], next, now);
      ReloadFrame(docs[1..], next, now, id);
      forall i | 0 <= i < |docs| ensures Outcome(docs[i].0, docs[i].1, now, acc, r) {
        if i > 0 {
          assert docs[i] == docs[1..][i - 1];
          assert docs[i].0 != id;
          assert SameAt(acc, next, docs[i].0);
        }
      }
    }
  }

  /** The counters tell the truth: `reloaded` is the number of jobs armed
      and `deleted` the number of records removed. */
  lemma {:induction false} ReloadCounts(docs: seq<(Id, Post)>, acc: Progress, now: Instant)
    requires ReloadFrom(docs, acc, now).Reloaded?
    requires Distinct(docs)
    requires Ids(docs) !! acc.jobs.Keys
    requires Ids(docs) <= acc.store.Keys
    ensures var r := ReloadFrom(docs, acc, now).progress;
      && r.reloaded + |acc.jobs| == acc.reloaded + |r.jobs|
      && r.deleted + |r.store| == acc.deleted + |acc.store|
  {
    if docs != [] {
      var id, p := docs[0].0, docs[0].1;
      var next := Visit(acc, id, p, now).value;
      StreamTail(docs);
      VisitCounts(acc, id, p, now);
      ReloadCounts(docs[1..], next, now);
    }
  }

  /** One iteration on a record not yet armed and still stored: each
      counter moves with its map. */
  lemma VisitCounts(acc: Progress, id: Id, p: Post, now: Instant)
    requires Visit(acc, id, p, now).Some?
    requires id !in acc.jobs && id in acc.store
    ensures var next := Visit(acc, id, p, now).value;
      && next.reloaded + |acc.jobs| == acc.reloaded + |next.jobs|
      && next.deleted + |next.store| == acc.deleted + |acc.store|
      && next.jobs.Keys <= acc.jobs.Keys + {id}
      && acc.store.Keys - {id} <= next.store.Keys
  {
    match p.kind
    case Some(OneShot) =>
      if p.scheduledFor.Some? {
        if p.scheduledFor.value > now {
          MapAddSize(acc.jobs, id, Once(p.scheduledFor.value));
        } else {
          MapRemoveSize(acc.store, id);
        }
      }
    case Some(Recurring) =>
      if ArmsRepeating(p) {
        MapAddSize(acc.jobs, id, RepeatingJob(p).value);
      }
    case _ =>
  }

  /** The startup reload, record by record: with distinct ids, the reload
      either stops at the first breaking record or arms, deletes and skips
      each record as its fields say, touches nothing else, and reports how
      many jobs it armed and how many records it removed. */
  lemma ReconcileOutcome(store: Store, docs: seq<(Id, Post)>, now: Instant)
    requires Distinct(docs)
    requires Ids(docs) <= store.Keys
    ensures var r := Reconcile(store, docs, now);
      && (r.Aborted? <==> exists i :: 0 <= i < |docs| && Breaks(docs[i].1))
      && (r.Reloaded? ==>
            && (forall i :: 0 <= i < |docs| ==> Outcome(docs[i].0, docs[i].1, now, Progress(store, map[], 0, 0), r.progress))
            && (forall id :: id !in Ids(docs) ==> id !in r.progress.jobs && (id in store ==> id in r.progress.store && r.progress.store[id] == store[id]))
            && r.progress.reloaded == |r.progress.jobs|
            && r.progress.deleted == |store| - |r.progress.store|)
  {
    var start := Progress(store, map[], 0, 0);
    ReloadAborts(docs, start, now);
    if ReloadFrom(docs, start, now).Reloaded? {
      ReloadEach(docs, start, now);
      ReloadCounts(docs, start, now);
      forall id | id !in Ids(docs) ensures SameAt(start, ReloadFrom(docs, start, now).progress, id) {
        ReloadFrame(docs, start, now, id);
      }
    }
  }

  // Reloading twice.

  /** `docs` is the stream of `store`: each record once, with its contents. */
  ghost predicate StreamOf(store: Store, docs: seq<(Id, Post)>)
  {
    && Distinct(docs)
    && Ids(docs) == store.Keys
    && forall i :: 0 <= i < |docs| ==> docs[i].0 in store && store[docs[i].0] == docs[i].1
  }

  /** The entries of the stream whose record the reload keeps. */
  ghost function Survivors(docs: seq<(Id, Post)>, now: Instant): seq<(Id, Post)>
  {
    if docs == [] then []
    else (if Overdue(docs[0].1, now) then [] else [docs[0]]) + Survivors(docs[1..], now)
  }

  /** The ids of the entries the reload deletes. */
  ghost function OverdueIds(docs: seq<(Id, Post)>, now: Instant): set<Id>
  {
    if docs == [] then {}
    else (if Overdue(docs[0].1, now) then {docs[0].0} else {}) + OverdueIds(docs[1..], now)
  }

  /** A stream with one more entry in front. */
  lemma StreamCons(d: (Id, Post), t: seq<(Id, Post)>)
    ensures Ids([d] + t) == Ids(t) + {d.0}
    ensures Distinct(t) && d.0 !in Ids(t) ==> Distinct([d] + t)
  {
    StreamTail([d] + t);
    assert ([d] + t)[1..] == t;
    if Distinct(t) && d.0 !in Ids(t) {
      forall i, j | 0 <= i < j < |[d] + t| ensures ([d] + t)[i].0 != ([d] + t)[j].0 {
        assert ([d] + t)[j] == t[j - 1];
        if i > 0 { assert ([d] + t)[i] == t[i - 1]; }
      }
    }
  }

  /** The surviving entries are entries of the stream, with distinct ids:
      every streamed id except the overdue ones. */
  lemma {:induction false} SurvivorsFacts(docs: seq<(Id, Post)>, now: Instant)
    requires Distinct(docs)
    ensures var kept := Survivors(docs, now);
      && Distinct(kept)
      && Ids(kept) == Ids(docs) - OverdueIds(docs, now)
      && OverdueIds(docs, now) <= Ids(docs)
      && forall j :: 0 <= j < |kept| ==> kept[j] in docs
  {
    if docs == [] {
      assert Ids(docs) == {};
    } else {
      var d, rest := docs[0], docs[1..];
      StreamTail(docs);
      SurvivorsFacts(rest, now);
      var tail := Survivors(rest, now);
      if Overdue(d.1, now) {
        assert Survivors(docs, now) == tail;
      } else {
        assert Survivors(docs, now) == [d] + tail;
        StreamCons(d, tail);
        forall j | 0 <= j < |[d] + tail| ensures ([d] + tail)[j] in docs {
          if j > 0 { assert ([d] + tail)[j] == tail[j - 1]; }
        }
      }
    }
  }

  /** Two reloads in lockstep: one over the stream from `a1`, one over its
      surviving entries from `a2` with the same jobs. The second raises
      nowhere, arms exactly the same jobs, counts as many, and deletes
      nothing; the first removes exactly the overdue records. */
  lemma {:induction false} ReloadTwice(docs: seq<(Id, Post)>, a1: Progress, a2: Progress, now: Instant)
    requires ReloadFrom(docs, a1, now).Reloaded? && a1.jobs == a2.jobs
    ensures var r1, r2 := ReloadFrom(docs, a1, now).progress, ReloadFrom(Survivors(docs, now), a2, now);
      && r2.Reloaded?
      && r2.progress.jobs == r1.jobs
      && r2.progress.store == a2.store
      && r2.progress.deleted == a2.deleted
      && r2.progress.reloaded + a1.reloaded == r1.reloaded + a2.reloaded
      && r1.store == a1.store - OverdueIds(docs, now)
  {
    if docs == [] {
      assert a1.store - {} == a1.store;
    } else {
      var d, rest := docs[0], docs[1..];
      var n1 := Visit(a1, d.0, d.1, now).value;
      VisitOutcome(a1, d.0, d.1, now);
      if Overdue(d.1, now) {
        assert Survivors(docs, now) == Survivors(rest, now);
        ReloadTwice(rest, n1, a2, now);
        assert n1.store == a1.store - {d.0};
      } else {
        var n2 := Visit(a2, d.0, d.1, now).value;
        VisitOutcome(a2, d.0, d.1, now);
        var kept := [d] + Survivors(rest, now);
        assert Survivors(docs, now) == kept;
        assert kept[0] == d && kept[1..] == Survivors(rest, now);
        assert n1.jobs == n2.jobs && n1.store == a1.store && n2.store == a2.store;
        ReloadTwice(rest, n1, n2, now);
      }
    }
  }

  /** The reload is idempotent: run again at the same clock over the store
      it leaves behind, whose stream is the surviving entries, it raises
      nowhere, arms the same jobs with the same count, deletes nothing and
      leaves the store as it is. */
  lemma ReloadIdempotent(store: Store, docs: seq<(Id, Post)>, now: Instant)
    requires StreamOf(store, docs)
    requires Reconcile(store, docs, now).Reloaded?
    ensures var p := Reconcile(store, docs, now).progress;
      && StreamOf(p.store, Survivors(docs, now))
      && Reconcile(p.store, Survivors(docs, now), now) == Reloaded(Progress(p.store, p.jobs, p.reloaded, 0))
  {
    var p := Reconcile(store, docs, now).progress;
    ReloadTwice(docs, Progress(store, map[], 0, 0), Progress(p.store, map[], 0, 0), now);
    SurvivorsFacts(docs, now);
    var kept := Survivors(docs, now);
    forall j | 0 <= j < |kept| ensures kept[j].0 in p.store && p.store[kept[j].0] == kept[j].1 {
      var i :| 0 <= i < |docs| && docs[i] == kept[j];
      assert kept[j].0 in Ids(kept);
    }
  }
}
