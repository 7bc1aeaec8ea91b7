/**
 * Routing of one diff to the subscribed chats: which chat is sent which message about
 * which card, given the board-visibility cache, the subscriptions and the snapshots
 * before and after the change.
 */
module WatcherNotify {
  import opened Wrappers
  import opened Planka
  import opened WatcherDiff

  type ChatId = int

  /** A subscription as the watcher reads it: the chat to notify and the actions it watches. */
  datatype Notification = Notification(telegramChatId: ChatId, watchedActions: set<BoardAction>)

  /** For each chat, the board ids its credentials could see when the cache was filled. */
  type Cache = map<ChatId, set<BoardId>>

  /** One (action, card id) pair of a diff. */
  datatype Event = Event(action: BoardAction, cardId: CardId)

  /** The message template chosen by the action, filled with the names looked up for it. */
  datatype Message =
    | Created(cardName: string, creatorName: Option<string>, listName: Option<string>, boardName: Option<string>)
    | Updated(cardName: string, listName: Option<string>, boardName: Option<string>)
    | Moved(cardName: string, listName: Option<string>, boardName: Option<string>)
    | Deleted(cardName: string, listName: Option<string>, boardName: Option<string>)
  {
    /** The action whose template this is. */
    function Template(): BoardAction
    {
      match this
      case Created(_, _, _, _) => Add
      case Updated(_, _, _) => Update
      case Moved(_, _, _) => MoveToList
      case Deleted(_, _, _) => Delete
    }
  }

  /** One call of the outbound sender. */
  datatype Delivery = Delivery(chatId: ChatId, event: Event, text: Message)

  /** A subscription whose chat has no cache entry while the index is built. */
  datatype DispatchError = MissingCacheEntry

  /** Position of an event's action in the traversal order. */
  function EventRank(e: Event): nat
  {
    Rank(e.action)
  }

  /** A non-empty set has an element. */
  lemma PickFrom(s: set<CardId>)
    requires s != {}
    ensures exists x :: x in s
  {
    if forall x :: x !in s {
      assert false;
    }
  }

  /**
   * Lists every (action, card) pair of the diff, action by action in declaration order,
   * each pair once.
   */
  method FlattenDiff(diff: Diff) returns (events: seq<Event>)
    ensures forall e :: e in events <==> e.cardId in diff.Get(e.action)
    ensures forall i, j :: 0 <= i < j < |events| ==> events[i] != events[j]
    ensures forall i, j :: 0 <= i < j < |events| ==> EventRank(events[i]) <= EventRank(events[j])
  {
    events := [];
    var k := 0;
    while k < |Actions|
      invariant 0 <= k <= |Actions|
      invariant forall e :: e in events <==> EventRank(e) < k && e.cardId in diff.Get(e.action)
      invariant forall i, j :: 0 <= i < j < |events| ==> events[i] != events[j]
      invariant forall i, j :: 0 <= i < j < |events| ==> EventRank(events[i]) <= EventRank(events[j])
    {
      var a := Actions[k];
      var rest := diff.Get(a);
      while rest != {}
        invariant rest <= diff.Get(a)
        invariant forall e :: e in events <==>
          (EventRank(e) < k && e.cardId in diff.Get(e.action))
          || (e.action == a && e.cardId in diff.Get(a) - rest)
        invariant forall i, j :: 0 <= i < j < |events| ==> events[i] != events[j]
        invariant forall i, j :: 0 <= i < j < |events| ==> EventRank(events[i]) <= EventRank(events[j])
        invariant forall i :: 0 <= i < |events| ==> EventRank(events[i]) <= k
        decreases rest
      {
        PickFrom(rest);
        var id :| id in rest;
        events := events + [Event(a, id)];
        rest := rest - {id};
      }
      k := k + 1;
    }
  }

  // The board index (`notificationsByBoards`).

  /** Every board some cached chat can see (`allWatchedBoards`). */
  function AllWatchedBoards(cache: Cache): (r: set<BoardId>)
    ensures forall c :: c in cache ==> cache[c] <= r
    ensures forall b :: b in r ==> exists c :: c in cache && b in cache[c]
    ensures r == {} <==> forall c :: c in cache ==> cache[c] == {}
  {
    var r := set c, b | c in cache && b in cache[c] :: b;
    assert forall c, b :: c in cache && b in cache[c] ==> b in r;
    r
  }

  /** Some subscription belongs to `chat`. */
  predicate Subscribed(subs: seq<Notification>, chat: ChatId)
  {
    exists s :: s in subs && s.telegramChatId == chat
  }

  /** Every subscription's chat has a cache entry. */
  predicate AllCached(subs: seq<Notification>, cache: Cache)
  {
    forall s :: s in subs ==> s.telegramChatId in cache
  }

  /**
   * The cache after the refresh pass: a subscribed chat without an entry gets the board
   * set its stored credentials yield, when it has credentials (`fetched`).
   */
  function RefreshCache(cache: Cache, subs: seq<Notification>, fetched: Cache): (r: Cache)
    ensures forall c :: c in r <==> c in cache || (c in fetched && Subscribed(subs, c))
    ensures forall c :: c in cache ==> r[c] == cache[c]
    ensures forall c :: c in r && c !in cache ==> r[c] == fetched[c]
  {
    cache + map c | c in fetched && c !in cache && Subscribed(subs, c) :: fetched[c]
  }

  /** The subscriptions whose cached board set contains `boardId`. */
  function Interested(boardId: BoardId, subs: seq<Notification>, cache: Cache): (r: seq<Notification>)
    requires AllCached(subs, cache)
    ensures forall s :: s in r ==> s in subs
    ensures forall s :: s in subs ==>
      multiset(r)[s] == if boardId in cache[s.telegramChatId] then multiset(subs)[s] else 0
  {
    if subs == [] then []
    else
      assert subs == [subs[0]] + subs[1..];
      (if boardId in cache[subs[0].telegramChatId] then [subs[0]] else [])
      + Interested(boardId, subs[1..], cache)
  }

  /** For each watched board, the subscriptions interested in it. */
  function BoardIndex(watched: set<BoardId>, subs: seq<Notification>, cache: Cache): (r: map<BoardId, seq<Notification>>)
    requires AllCached(subs, cache)
    ensures r.Keys == watched
    ensures forall b, s :: b in r && s in r[b] ==> s in subs && b in cache[s.telegramChatId]
    ensures forall b, s :: b in r && s in subs && b in cache[s.telegramChatId] ==> s in r[b]
  {
    map b | b in watched :: Interested(b, subs, cache)
  }

  // Resolving a card and choosing the message.

  /** The card an event is about: from the old snapshot for DELETE, from the new one otherwise. */
  function ResolveCard(e: Event, o: PlankaData, n: PlankaData): (r: Option<CardData>)
    ensures e.action == Delete ==> (r.Some? <==> e.cardId in o.cards) && (r.Some? ==> r.value == o.cards[e.cardId])
    ensures e.action != Delete ==> (r.Some? <==> e.cardId in n.cards) && (r.Some? ==> r.value == n.cards[e.cardId])
  {
    var source := if e.action == Delete then o else n;
    if e.cardId in source.cards then Some(source.cards[e.cardId]) else None
  }

  function ListName(s: PlankaData, id: ListId): Option<string>
  {
    if id in s.lists then Some(s.lists[id].name) else None
  }

  function BoardName(s: PlankaData, id: BoardId): Option<string>
  {
    if id in s.boards then Some(s.boards[id].name) else None
  }

  function UserName(s: PlankaData, id: UserId): Option<string>
  {
    if id in s.users then Some(s.users[id].name) else None
  }

  /**
   * The message for a card: the template of the action, with the creator, list and board
   * names looked up in the new snapshot, except the board of a deleted card, which is
   * looked up in the old one.
   */
  function Render(action: BoardAction, card: CardData, o: PlankaData, n: PlankaData): (m: Message)
    ensures m.Template() == action && m.cardName == card.name
  {
    match action
    case Add => Created(card.name, UserName(n, card.creatorUserId), ListName(n, card.listId), BoardName(n, card.boardId))
    case Update => Updated(card.name, ListName(n, card.listId), BoardName(n, card.boardId))
    case MoveToList => Moved(card.name, ListName(n, card.listId), BoardName(n, card.boardId))
    case Delete => Deleted(card.name, ListName(n, card.listId), BoardName(o, card.boardId))
  }

  // Sending.

  /** How many subscriptions of `chat` watch `action`. */
  function Watchers(subs: seq<Notification>, chat: ChatId, action: BoardAction): nat
  {
    if subs == [] then 0
    else (if subs[0].telegramChatId == chat && action in subs[0].watchedActions then 1 else 0)
         + Watchers(subs[1..], chat, action)
  }

  /**
   * One delivery per subscription in `subs` that watches the event's action, in order: each
   * chat receives the message once for every subscription of it that watches the action.
   */
  function SendTo(subs: seq<Notification>, e: Event, text: Message): (r: seq<Delivery>)
    ensures |r| <= |subs|
    ensures forall d :: d in r ==> d.event == e && d.text == text
    ensures forall d :: multiset(r)[d] == if d.event == e && d.text == text then Watchers(subs, d.chatId, e.action) else 0
  {
    if subs == [] then []
    else
      (if e.action in subs[0].watchedActions then [Delivery(subs[0].telegramChatId, e, text)] else [])
      + SendTo(subs[1..], e, text)
  }

  /** The sends for one event: none when the card does not resolve or its board is not indexed. */
  function EventSends(e: Event, index: map<BoardId, seq<Notification>>, o: PlankaData, n: PlankaData): (r: seq<Delivery>)
    ensures forall d :: d in r ==> d.event == e
  {
    match ResolveCard(e, o, n)
    case None => []
    case Some(card) =>
      if card.boardId in index then SendTo(index[card.boardId], e, Render(e.action, card, o, n)) else []
  }

  /** The sends for all events, event by event. */
  function Route(events: seq<Event>, index: map<BoardId, seq<Notification>>, o: PlankaData, n: PlankaData): (r: seq<Delivery>)
    ensures forall d :: d in r ==> d.event in events
  {
    if events == [] then []
    else EventSends(events[0], index, o, n) + Route(events[1..], index, o, n)
  }

  /**
   * Handling of one diff by the notification job: nothing when there are no subscriptions;
   * otherwise the cache is refreshed for subscribed chats without an entry, the board index
   * is built over the boards watched before the refresh, and every event is routed. Building
   * the index fails when a subscription still has no cache entry.
   */
  function Dispatch(cache: Cache, fetched: Cache, subs: seq<Notification>, events: seq<Event>,
                    o: PlankaData, n: PlankaData): (r: Result<seq<Delivery>, DispatchError>)
    ensures subs == [] ==> r == Ok([])
    ensures r.Err? <==>
      subs != [] && AllWatchedBoards(cache) != {} && !AllCached(subs, RefreshCache(cache, subs, fetched))
    ensures r.Ok? ==> forall d :: d in r.value ==> d.event in events
  {
    if subs == [] then Ok([])
    else
      var watched := AllWatchedBoards(cache);
      var refreshed := RefreshCache(cache, subs, fetched);
      if watched == {} then Ok([])
      else if !AllCached(subs, refreshed) then Err(MissingCacheEntry)
      else Ok(Route(events, BoardIndex(watched, subs, refreshed), o, n))
  }

  // The intended handling: a subscription without a cache entry is skipped, not fatal.

  /** The subscriptions whose chat has a cache entry, in subscription order. */
  function CachedSubs(subs: seq<Notification>, cache: Cache): (r: seq<Notification>)
    ensures AllCached(r, cache)
    ensures forall s :: s in r ==> s in subs
    ensures AllCached(subs, cache) ==> r == subs
  {
    if subs == [] then []
    else
      (if subs[0].telegramChatId in cache then [subs[0]] else []) + CachedSubs(subs[1..], cache)
  }

  /**
   * `Dispatch` with the index built over the subscriptions that have a cache entry after
   * the refresh, so that a chat without one is left out instead of failing the whole diff.
   * Wherever `Dispatch` succeeds, both send the same deliveries in the same order.
   */
  function DispatchSkipping(cache: Cache, fetched: Cache, subs: seq<Notification>, events: seq<Event>,
                            o: PlankaData, n: PlankaData): (r: seq<Delivery>)
    ensures forall d :: d in r ==> d.event in events
    ensures Dispatch(cache, fetched, subs, events, o, n).Ok? ==> Dispatch(cache, fetched, subs, events, o, n).value == r
  {
    var watched := AllWatchedBoards(cache);
    var refreshed := RefreshCache(cache, subs, fetched);
    if subs == [] || watched == {} then []
    else Route(events, BoardIndex(watched, CachedSubs(subs, refreshed), refreshed), o, n)
  }

  // The reference: how often each delivery is due.

  /** Subscription `s` belongs to `chat`, whose cached boards include `boardId`, and watches `action`. */
  predicate Reaches(s: Notification, cache: Cache, chat: ChatId, boardId: BoardId, action: BoardAction)
  {
    s.telegramChatId == chat && chat in cache && boardId in cache[chat] && action in s.watchedActions
  }

  /** How many subscriptions of `chat` can see `boardId` and watch `action`. */
  function Audience(subs: seq<Notification>, cache: Cache, chat: ChatId, boardId: BoardId, action: BoardAction): nat
  {
    if subs == [] then 0
    else (if Reaches(subs[0], cache, chat, boardId, action) then 1 else 0)
         + Audience(subs[1..], cache, chat, boardId, action)
  }

  /**
   * How many times `d` is due for `diff`: once per subscription of its chat that can see
   * the card's board and watches the action, when the event is in the diff, the card
   * resolves, its board is among the watched boards and the text is the card's message.
   */
  function Due(d: Delivery, diff: Diff, watched: set<BoardId>, cache: Cache, subs: seq<Notification>,
               o: PlankaData, n: PlankaData): nat
  {
    if d.event.cardId !in diff.Get(d.event.action) then 0
    else match ResolveCard(d.event, o, n)
      case None => 0
      case Some(card) =>
        if card.boardId in watched && d.text == Render(d.event.action, card, o, n)
        then Audience(subs, cache, d.chatId, card.boardId, d.event.action)
        else 0
  }

  // Lemmas.

  /** Some subscription reaches the chat exactly when its audience is not zero. */
  lemma {:induction false} AudiencePositive(subs: seq<Notification>, cache: Cache, chat: ChatId, boardId: BoardId, action: BoardAction)
    ensures Audience(subs, cache, chat, boardId, action) > 0 <==>
      exists s :: s in subs && Reaches(s, cache, chat, boardId, action)
  {
    if subs != [] {
      AudiencePositive(subs[1..], cache, chat, boardId, action);
      assert forall s :: s in subs <==> s == subs[0] || s in subs[1..];
    }
  }

  /** Of the interested subscriptions, those of `chat` watching `action` are the ones that reach it. */
  lemma {:induction false} WatchersInterested(boardId: BoardId, subs: seq<Notification>, cache: Cache,
                                              chat: ChatId, action: BoardAction)
    requires AllCached(subs, cache)
    ensures Watchers(Interested(boardId, subs, cache), chat, action) == Audience(subs, cache, chat, boardId, action)
  {
    if subs != [] {
      WatchersInterested(boardId, subs[1..], cache, chat, action);
      var r := Interested(boardId, subs, cache);
      var tail := Interested(boardId, subs[1..], cache);
      var here := if subs[0].telegramChatId == chat && action in subs[0].watchedActions then 1 else 0;
      if boardId in cache[subs[0].telegramChatId] {
        assert r == [subs[0]] + tail;
        assert r[0] == subs[0] && r[1..] == tail;
        assert Watchers(r, chat, action) == here + Watchers(tail, chat, action);
        assert Reaches(subs[0], cache, chat, boardId, action) <==> here == 1;
      } else {
        assert r == tail;
        assert !Reaches(subs[0], cache, chat, boardId, action);
      }
    }
  }

  /** Sending to the interested subscriptions reaches each chat once per subscription that reaches it. */
  lemma SendToInterestedCount(boardId: BoardId, subs: seq<Notification>, cache: Cache,
                              e: Event, text: Message, chat: ChatId)
    requires AllCached(subs, cache)
    ensures multiset(SendTo(Interested(boardId, subs, cache), e, text))[Delivery(chat, e, text)]
            == Audience(subs, cache, chat, boardId, e.action)
  {
    WatchersInterested(boardId, subs, cache, chat, e.action);
  }

  /** With distinct events, a delivery comes only from its own event's sends. */
  lemma {:induction false} RouteCount(events: seq<Event>, index: map<BoardId, seq<Notification>>,
                                      o: PlankaData, n: PlankaData, d: Delivery)
    requires forall i, j :: 0 <= i < j < |events| ==> events[i] != events[j]
    ensures multiset(Route(events, index, o, n))[d] ==
            if d.event in events then multiset(EventSends(d.event, index, o, n))[d] else 0
  {
    if events != [] {
      RouteCount(events[1..], index, o, n, d);
      var here := EventSends(events[0], index, o, n);
      if d.event != events[0] {
        assert d !in here;
      } else {
        assert d.event !in events[1..];
        assert d !in Route(events[1..], index, o, n);
      }
    }
  }

  /**
   * For events listing the diff without repetition, a successful dispatch sends each
   * delivery exactly as often as `Due` says.
   */
  lemma DispatchCount(cache: Cache, fetched: Cache, subs: seq<Notification>, diff: Diff, events: seq<Event>,
                      o: PlankaData, n: PlankaData, d: Delivery)
    requires forall e :: e in events <==> e.cardId in diff.Get(e.action)
    requires forall i, j :: 0 <= i < j < |events| ==> events[i] != events[j]
    requires Dispatch(cache, fetched, subs, events, o, n).Ok?
    ensures multiset(Dispatch(cache, fetched, subs, events, o, n).value)[d]
            == Due(d, diff, AllWatchedBoards(cache), RefreshCache(cache, subs, fetched), subs, o, n)
  {
    DispatchSkippingCount(cache, fetched, subs, diff, events, o, n, d);
  }

  /** Leaving out the chats without a cache entry does not change any chat's audience. */
  lemma {:induction false} AudienceCached(subs: seq<Notification>, cache: Cache, chat: ChatId,
                                          boardId: BoardId, action: BoardAction)
    ensures Audience(CachedSubs(subs, cache), cache, chat, boardId, action) == Audience(subs, cache, chat, boardId, action)
  {
    if subs != [] {
      AudienceCached(subs[1..], cache, chat, boardId, action);
      var r := CachedSubs(subs, cache);
      var tail := CachedSubs(subs[1..], cache);
      if subs[0].telegramChatId in cache {
        assert r == [subs[0]] + tail;
        assert r[0] == subs[0] && r[1..] == tail;
      } else {
        assert r == tail;
        assert !Reaches(subs[0], cache, chat, boardId, action);
      }
    }
  }

  /**
   * For events listing the diff without repetition, the skipping dispatch sends each
   * delivery exactly as often as `Due` says, whatever the cache holds.
   */
  lemma DispatchSkippingCount(cache: Cache, fetched: Cache, subs: seq<Notification>, diff: Diff, events: seq<Event>,
                              o: PlankaData, n: PlankaData, d: Delivery)
    requires forall e :: e in events <==> e.cardId in diff.Get(e.action)
    requires forall i, j :: 0 <= i < j < |events| ==> events[i] != events[j]
    ensures multiset(DispatchSkipping(cache, fetched, subs, events, o, n))[d]
            == Due(d, diff, AllWatchedBoards(cache), RefreshCache(cache, subs, fetched), subs, o, n)
  {
    var watched := AllWatchedBoards(cache);
    var refreshed := RefreshCache(cache, subs, fetched);
    if subs == [] {
    } else if watched == {} {
    } else {
      var kept := CachedSubs(subs, refreshed);
      var index := BoardIndex(watched, kept, refreshed);
      RouteCount(events, index, o, n, d);
      if d.event in events {
        match ResolveCard(d.event, o, n)
        case None =>
        case Some(card) =>
          var text := Render(d.event.action, card, o, n);
          if card.boardId in watched {
            SendToInterestedCount(card.boardId, kept, refreshed, d.event, text, d.chatId);
            AudienceCached(subs, refreshed, d.chatId, card.boardId, d.event.action);
            if d != Delivery(d.chatId, d.event, text) {
              assert d !in SendTo(index[card.boardId], d.event, text);
            }
          }
      }
    }
  }

  /**
   * One subscription whose chat has neither a cache entry nor credentials fails the whole
   * diff: chat 1, which sees board 10, is due the message about the card added there, yet
   * `Dispatch` sends nothing because chat 2 has no entry; the skipping dispatch sends it.
   */
  lemma MissingEntryFailsWholeDiff()
    ensures var card := CardData(5, 10, 20, 30, "card", []);
            var o := PlankaData(map[], map[], map[], map[], map[], map[]);
            var n := PlankaData(map[], map[], map[5 := card], map[], map[], map[]);
            var cache: Cache := map[1 := {10}];
            var subs := [Notification(1, {Add}), Notification(2, {Add})];
            var d := Delivery(1, Event(Add, 5), Render(Add, card, o, n));
            && Dispatch(cache, map[], subs, [Event(Add, 5)], o, n) == Err(MissingCacheEntry)
            && Due(d, Diff({5}, {}, {}, {}), AllWatchedBoards(cache), RefreshCache(cache, subs, map[]), subs, o, n) == 1
            && multiset(DispatchSkipping(cache, map[], subs, [Event(Add, 5)], o, n))[d] == 1
  {
    var card := CardData(5, 10, 20, 30, "card", []);
    var o := PlankaData(map[], map[], map[], map[], map[], map[]);
    var n := PlankaData(map[], map[], map[5 := card], map[], map[], map[]);
    var cache: Cache := map[1 := {10}];
    var subs := [Notification(1, {Add}), Notification(2, {Add})];
    var d := Delivery(1, Event(Add, 5), Render(Add, card, o, n));
    var diff := Diff({5}, {}, {}, {});
    assert 10 in cache[1];
    assert AllWatchedBoards(cache) != {};
    assert RefreshCache(cache, subs, map[]) == cache;
    assert !AllCached(subs, cache) by {
      assert subs[1] in subs;
    }
    assert ResolveCard(d.event, o, n) == Some(card);
    assert Audience(subs, cache, 1, 10, Add) == 1 by {
      assert subs[1..][1..] == [];
    }
    assert forall e :: e in [Event(Add, 5)] <==> e.cardId in diff.Get(e.action);
    DispatchSkippingCount(cache, map[], subs, diff, [Event(Add, 5)], o, n, d);
  }

  /**
   * The watched boards are fixed before the refresh: a card on a board that no chat had in
   * its cached set before the refresh is due to nobody, even to a chat whose freshly fetched
   * set holds that board.
   */
  lemma FreshlyFetchedBoardIsNotDue(d: Delivery, diff: Diff, cache: Cache, fetched: Cache, subs: seq<Notification>,
                                    o: PlankaData, n: PlankaData)
    requires ResolveCard(d.event, o, n).Some?
    requires forall c :: c in cache ==> ResolveCard(d.event, o, n).value.boardId !in cache[c]
    ensures Due(d, diff, AllWatchedBoards(cache), RefreshCache(cache, subs, fetched), subs, o, n) == 0
  {
  }

  /**
   * A delivery is due exactly when its event is in the diff, its card resolves to a card on
   * a watched board, its text is that card's message, and some subscription of its chat sees
   * the board and watches the action.
   */
  lemma DueExactly(d: Delivery, diff: Diff, watched: set<BoardId>, cache: Cache, subs: seq<Notification>,
                   o: PlankaData, n: PlankaData)
    ensures Due(d, diff, watched, cache, subs, o, n) > 0 <==>
      && d.event.cardId in diff.Get(d.event.action)
      && ResolveCard(d.event, o, n).Some?
      && var card := ResolveCard(d.event, o, n).value;
         && card.boardId in watched
         && d.text == Render(d.event.action, card, o, n)
         && exists s :: s in subs && Reaches(s, cache, d.chatId, card.boardId, d.event.action)
  {
    var r := ResolveCard(d.event, o, n);
    if r.Some? {
      AudiencePositive(subs, cache, d.chatId, r.value.boardId, d.event.action);
    }
  }

  /**
   * The notification job's handling of one diff: the diff is flattened and dispatched. Each
   * delivery is sent exactly as often as it is due; without subscriptions nothing is sent;
   * the job fails only when some board is watched and a subscription has no cache entry.
   * The refreshed entries stay in the shared cache (`cacheAfter`), failure or not.
   */
  method NotifyDiff(cache: Cache, fetched: Cache, subs: seq<Notification>, diff: Diff,
                    o: PlankaData, n: PlankaData) returns (r: Result<seq<Delivery>, DispatchError>, cacheAfter: Cache)
    ensures subs == [] ==> r == Ok([]) && cacheAfter == cache
    ensures cacheAfter == RefreshCache(cache, subs, fetched)
    ensures r.Err? <==>
      subs != [] && AllWatchedBoards(cache) != {} && !AllCached(subs, RefreshCache(cache, subs, fetched))
    ensures r.Ok? ==> (forall d :: multiset(r.value)[d] ==
                         Due(d, diff, AllWatchedBoards(cache), RefreshCache(cache, subs, fetched), subs, o, n))
  {
    var events := FlattenDiff(diff);
    r := Dispatch(cache, fetched, subs, events, o, n);
    cacheAfter := RefreshCache(cache, subs, fetched);
    if r.Ok? {
      forall d
        ensures multiset(r.value)[d] ==
          Due(d, diff, AllWatchedBoards(cache), RefreshCache(cache, subs, fetched), subs, o, n)
      {
        DispatchCount(cache, fetched, subs, diff, events, o, n, d);
      }
    }
  }

  /**
   * Cards a diff lists as added or moved resolve in the new snapshot and deleted cards in
   * the old one, so only UPDATE entries can go unresolved.
   */
  lemma ClassifiedCardsResolve(o: PlankaData, n: PlankaData)
    requires KeyedById(o) && KeyedById(n)
    ensures forall e: Event :: e.action != Update && e.cardId in Classify(o, n).Get(e.action) ==>
      ResolveCard(e, o, n).Some?
  {
    ClassifyAddDelete(o, n);
    ClassifyMove(o, n);
  }

  /**
   * A deleted card whose task disappeared with it is also listed under UPDATE; that entry
   * does not resolve in the new snapshot, so it sends nothing.
   */
  lemma DeletedCardTaskUpdateIsSkipped(o: PlankaData, n: PlankaData, id: CardId, k: TaskId)
    requires KeyedById(o) && KeyedById(n)
    requires id in o.cards && id !in n.cards
    requires k in o.tasks && k !in n.tasks && o.tasks[k].cardId == Some(id)
    ensures id in Classify(o, n).delete && id in Classify(o, n).update
    ensures ResolveCard(Event(Update, id), o, n).None?
  {
    ClassifyAddDelete(o, n);
    ClassifyUpdate(o, n);
    assert id in TouchedByTasks(o, n);
  }
}
