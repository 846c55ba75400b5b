/** The schedule record as the bot keeps it: the dialogue's draft and the
    stored document are the same dictionary, so one datatype with optional
    fields serves both. `None` is a field the dictionary does not hold. The
    only nulls the bot writes are `media_type` and `media_file_id` after
    `/pular`, and those are read only through `dict.get`, where null and
    absent agree; a field stored as null by anything else is not modelled.
    The store maps a document id to its record; the timer registry maps a
    schedule id to the job armed for it. */
module Records {
  import opened Wrappers
  import opened Intervals

  /** A document id, assigned by the store when a record is added. */
  type Id = string

  /** An absolute instant. Localising a civil reading to an instant is a
      parameter of the model. */
  type Instant = int

  /** The `type` field: `agendada` (one-shot), `recorrente` (recurring), or
      any other tag a stored document might carry. */
  datatype Kind = OneShot | Recurring | Unrecognised

  /** `media_type` with `media_file_id`. */
  datatype Media = Photo(fileId: string) | Video(fileId: string)

  /** One link button; its `url` is filled in by a later dialogue step. */
  datatype Button = Button(title: string, url: Option<string>)

  datatype Post = Post(
    kind: Option<Kind>,
    chatId: Option<string>,
    media: Option<Media>,
    text: Option<string>,
    buttons: seq<Button>,
    pin: Option<bool>,
    scheduledFor: Option<Instant>,
    interval: Option<string>,
    repetitions: Option<int>,
    startDate: Option<Instant>,
    owner: Option<int>)

  /** A cleared dictionary. */
  const EmptyPost: Post := Post(None, None, None, None, [], None, None, None, None, None, None)

  type Store = map<Id, Post>

  /** `run_once(send_post, at)` and `run_repeating(send_post, interval, first)`. */
  datatype Job = Once(at: Instant) | Repeating(every: Interval, first: Instant)

  /** Armed jobs, by the schedule id they carry as their name. */
  type Jobs = map<Id, Job>

  /** The repeating job for a recurring record: read the `interval` field,
      parse it, build the `timedelta`, take `start_date` as the first fire.
      `None` where any of these raises. */
  function RepeatingJob(p: Post): Option<Job>
  {
    if p.interval.None? then None
    else match ParseInterval(p.interval.value)
      case None => None
      case Some(iv) =>
        if !Representable(iv) || p.startDate.None? then None
        else Some(Repeating(iv, p.startDate.value))
  }
}
