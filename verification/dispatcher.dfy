/** What happens when an armed job fires (`send_post`): the record is read;
    if it is gone nothing is sent; otherwise exactly one transport call is
    made for its media, the sent message is pinned when asked for, and then
    the record is deleted, decremented or left alone. The transport is
    represented by the calls the bot issues and by the replies it gets. */
module Dispatcher {
  import opened Wrappers
  import opened Records

  /** A button as it reaches the transport, with its URL. */
  datatype Link = Link(title: string, url: string)

  datatype Call =
    | SendPhoto(chat: string, file: string, caption: string, keyboard: seq<Link>)
    | SendVideo(chat: string, file: string, caption: string, keyboard: seq<Link>)
    | SendText(chat: string, text: string, keyboard: seq<Link>)
    | Pin(chat: string, message: int)

  /** The transport's answer to the send: an exception, or the sent message
      (whose id may be missing). */
  datatype Reply = Raised | Returned(message: Option<int>)

  datatype Dispatched = Dispatched(store: Store, calls: seq<Call>)

  /** The inline keyboard, one row per button; `None` where a button has no
      URL, since reading `b['url']` then raises before anything is sent. */
  function Keyboard(buttons: seq<Button>): (r: Option<seq<Link>>)
    ensures r.Some? <==> forall i :: 0 <= i < |buttons| ==> buttons[i].url.Some?
    ensures r.Some? ==> |r.value| == |buttons|
    ensures r.Some? ==> forall i :: 0 <= i < |buttons| ==> r.value[i] == Link(buttons[i].title, buttons[i].url.value)
  {
    if buttons == [] then Some([])
    else match (buttons[0].url, Keyboard(buttons[1..]))
      case (Some(u), Some(rest)) => Some([Link(buttons[0].title, u)] + rest)
      case _ => None
  }

  /** A record the bot can send: it names a chat and every button has a URL. */
  predicate Sendable(p: Post)
  {
    p.chatId.Some? && Keyboard(p.buttons).Some?
  }

  /** The single send for the record's media; the text defaults to empty. */
  function SendCall(p: Post, chat: string, keyboard: seq<Link>): Call
  {
    var text := p.text.GetOr("");
    match p.media
    case Some(Photo(f)) => SendPhoto(chat, f, text, keyboard)
    case Some(Video(f)) => SendVideo(chat, f, text, keyboard)
    case None => SendText(chat, text, keyboard)
  }

  datatype Mutation = Delete | Decrement | Untouched

  /** The store update after a successful send. A missing `type` raises
      `KeyError` there, which the handler swallows. */
  function Aftermath(p: Post): Mutation
  {
    match p.kind
    case None => Untouched
    case Some(k) =>
      if k == OneShot then Delete
      else match p.repetitions
        case None => Untouched
        case Some(n) => if n == 1 then Delete else if n != 0 then Decrement else Untouched
  }

  /** `doc_ref.delete()` and `doc_ref.update({"repetitions": Increment(-1)})`. */
  function Apply(store: Store, id: Id, m: Mutation): Store
    requires id in store
  {
    match m
    case Delete => store - {id}
    case Decrement => store[id := store[id].(repetitions := Some(store[id].repetitions.GetOr(0) - 1))]
    case Untouched => store
  }

  /** `send_post` for the job named `id`, given the transport's reply to the
      send and whether pinning raises. Only the fired record can change, it
      changes only after a send that did not raise, at most two calls are
      made and only the second can be a pin. */
  function Dispatch(store: Store, id: Id, send: Reply, pinRaises: bool): (r: Dispatched)
    ensures id !in store ==> r == Dispatched(store, [])
    ensures r.store - {id} == store - {id}
    ensures send.Raised? ==> r.store == store
    ensures r.store != store ==> id in store && send.Returned? && 0 < |r.calls|
    ensures |r.calls| <= 2
    ensures forall i :: 0 <= i < |r.calls| ==> (r.calls[i].Pin? <==> i == 1)
  {
    if id !in store then Dispatched(store, [])
    else
      var p := store[id];
      if p.chatId.None? then Dispatched(store, [])
      else match Keyboard(p.buttons)
        case None => Dispatched(store, [])
        case Some(keyboard) =>
          var chat := p.chatId.value;
          var sent := SendCall(p, chat, keyboard);
          match send
          case Raised => Dispatched(store, [sent])
          case Returned(message) =>
            if p.pin == Some(true) && message.Some? then
              var calls := [sent, Pin(chat, message.value)];
              if pinRaises then Dispatched(store, calls)
              else Dispatched(Apply(store, id, Aftermath(p)), calls)
            else Dispatched(Apply(store, id, Aftermath(p)), [sent])
  }

  /** Whether the send asks for a pin that will be issued. */
  predicate PinIssued(p: Post, send: Reply)
  {
    p.pin == Some(true) && send.Returned? && send.message.Some?
  }

  /** The calls made: nothing for a missing or unsendable record; otherwise
      exactly one send, chosen by the media kind, addressed to the record's
      chat and carrying its file, its text (empty when it has none) as text
      or caption, and one keyboard row per button; followed by a pin of the
      sent message in the same chat only when `pin_post` is set and a
      message came back. */
  lemma DispatchCalls(store: Store, id: Id, send: Reply, pinRaises: bool)
    ensures var r := Dispatch(store, id, send, pinRaises);
      && (id !in store || !Sendable(store[id]) ==> r.calls == [] && r.store == store)
      && (id in store && Sendable(store[id]) ==>
            var p := store[id];
            && 1 <= |r.calls|
            && (r.calls[0].SendPhoto? <==> p.media.Some? && p.media.value.Photo?)
            && (r.calls[0].SendVideo? <==> p.media.Some? && p.media.value.Video?)
            && (r.calls[0].SendText? <==> p.media.None?)
            && r.calls[0].chat == p.chatId.value
            && (p.media.Some? ==> r.calls[0].file == p.media.value.fileId && r.calls[0].caption == p.text.GetOr(""))
            && (p.media.None? ==> r.calls[0].text == p.text.GetOr(""))
            && r.calls[0].keyboard == Keyboard(p.buttons).value
            && (|r.calls| == 2 <==> PinIssued(p, send))
            && (|r.calls| == 2 ==> r.calls[1] == Pin(p.chatId.value, send.message.value)))
  {
  }

  /** The store after a send that did not raise, for a sendable record:
      a one-shot record is deleted; a recurring one with one repetition
      left is deleted, with none (the unbounded sentinel 0) or no count is
      untouched, and otherwise loses exactly one repetition. If the pin
      raises, nothing changes. */
  lemma DispatchEffect(store: Store, id: Id, message: Option<int>, pinRaises: bool)
    requires id in store && Sendable(store[id])
    ensures var p, r := store[id], Dispatch(store, id, Returned(message), pinRaises);
      && (PinIssued(p, Returned(message)) && pinRaises ==> r.store == store)
      && (!(PinIssued(p, Returned(message)) && pinRaises) ==>
            && (p.kind == Some(OneShot) ==> r.store == store - {id})
            && (p.kind == Some(Recurring) ==>
                  match p.repetitions
                  case None => r.store == store
                  case Some(n) =>
                    if n == 1 then r.store == store - {id}
                    else if n == 0 then r.store == store
                    else r.store == store[id := p.(repetitions := Some(n - 1))]))
  {
  }

  /** `k` successive firings whose send and pin both succeed. */
  function Fired(store: Store, id: Id, message: int, k: nat): Store
  {
    if k == 0 then store
    else Fired(Dispatch(store, id, Returned(Some(message)), false).store, id, message, k - 1)
  }

  /** The repetition counter: a recurring record created with `n >= 1`
      repetitions is still there, with `n - k` left and nothing else
      changed, after `k < n` successful firings, and is gone after the
      `n`-th; other records are never touched. */
  lemma {:induction false} Countdown(store: Store, id: Id, message: int, n: int, k: nat)
    requires id in store && Sendable(store[id])
    requires store[id].kind == Some(Recurring) && store[id].repetitions == Some(n) && 1 <= n
    ensures var s := Fired(store, id, message, k);
      && s - {id} == store - {id}
      && (k < n ==> id in s && s[id] == store[id].(repetitions := Some(n - k)))
      && (n <= k ==> id !in s)
  {
    if k > 0 {
      var p := store[id];
      var next := Dispatch(store, id, Returned(Some(message)), false).store;
      DispatchEffect(store, id, Some(message), false);
      if n == 1 {
        assert next == store - {id};
        GoneStaysGone(next, id, message, k - 1);
      } else {
        assert next == store[id := p.(repetitions := Some(n - 1))];
        Countdown(next, id, message, n - 1, k - 1);
        assert next[id].(repetitions := Some(n - 1 - (k - 1))) == p.(repetitions := Some(n - k));
      }
    }
  }

  /** Once the record is gone, firing again sends nothing and changes nothing. */
  lemma {:induction false} GoneStaysGone(store: Store, id: Id, message: int, k: nat)
    requires id !in store
    ensures Fired(store, id, message, k) == store
  {
    if k > 0 {
      GoneStaysGone(store, id, message, k - 1);
    }
  }

  /** The unbounded sentinel: with 0 repetitions the record survives any
      number of firings unchanged. */
  lemma {:induction false} UnboundedNeverEnds(store: Store, id: Id, message: int, k: nat)
    requires id in store && Sendable(store[id])
    requires store[id].kind == Some(Recurring) && store[id].repetitions == Some(0)
    ensures Fired(store, id, message, k) == store
  {
    if k > 0 {
      DispatchEffect(store, id, Some(message), false);
      UnboundedNeverEnds(store, id, message, k - 1);
    }
  }

  /** A one-shot record is deleted by its first successful firing. */
  lemma OneShotFiresOnce(store: Store, id: Id, message: int)
    requires id in store && Sendable(store[id]) && store[id].kind == Some(OneShot)
    ensures Fired(store, id, message, 1) == store - {id}
  {
    DispatchEffect(store, id, Some(message), false);
  }
}
