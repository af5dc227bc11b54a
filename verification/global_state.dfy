/**
 * The shared client-side stores: one for habits, one for journal entries. Each holds the
 * current collection and a list of listeners; replacing the collection notifies every
 * listener registered when the replacement began, in registration order.
 */
module GlobalState {
  import opened Wrappers

  datatype Priority = Low | Medium | High

  datatype Habit = Habit(
    id: int,
    title: string,
    description: string,
    color: string,
    icon: string,
    completed: bool,
    interval: string,
    priority: Priority)

  /** `date` is a millisecond timestamp; `mood` and `tags` are optional. */
  datatype JournalEntry = JournalEntry(
    id: int,
    title: string,
    content: string,
    mood: Option<string>,
    date: int,
    tags: Option<seq<string>>)

  /** The seed the habit store starts from. */
  function InitialHabits(): (hs: seq<Habit>)
    ensures |hs| == 6
    ensures forall i :: 0 <= i < |hs| ==> hs[i].id == i + 1
  {
    [ Habit(1, "Reading", "Read 20 pages", "#fcd34d", "book", false, "Every day", High),
      Habit(2, "Household", "Make bed in morning", "#86efac", "bed", true, "Every day", Medium),
      Habit(3, "Programming", "Write mini-games in C#", "#e5e7eb", "desktop", false, "Weekdays", Low),
      Habit(4, "Positive thinking", "Write 10 affirmations", "#93c5fd", "happy", true, "Every day", High),
      Habit(5, "Financial literacy", "Record all expenses", "#f9a8d4", "wallet", false, "Every day", Medium),
      Habit(6, "Sleep routine", "Sleep for 8 hours", "#e5e7eb", "alarm", false, "Every day", High) ]
  }

  /**
   * A listener stands for a callback function; two registrations of the same function
   * carry the same id, as `!==` compares functions by identity.
   */
  type ListenerId = nat

  /** One call of a listener, with the collection it was passed. */
  type Notification<T> = (ListenerId, seq<T>)

  /** What a listener's callback does to the registrations of the store notifying it. */
  datatype Action = Subscribe(listener: ListenerId) | Unsubscribe(listener: ListenerId)

  function Count(ls: seq<ListenerId>, l: ListenerId): nat {
    if ls == [] then 0 else (if ls[0] == l then 1 else 0) + Count(ls[1..], l)
  }

  /** `a` is `b` with some elements deleted, the rest in their original order. */
  predicate IsSubsequence(a: seq<ListenerId>, b: seq<ListenerId>) {
    if a == [] then true
    else if b == [] then false
    else if a[0] == b[0] then IsSubsequence(a[1..], b[1..])
    else IsSubsequence(a, b[1..])
  }

  /** `ls.filter(x => x !== l)`. */
  function Without(ls: seq<ListenerId>, l: ListenerId): (r: seq<ListenerId>)
    ensures l !in r && |r| <= |ls|
    ensures forall x :: x in r ==> x in ls
  {
    if ls == [] then [] else (if ls[0] == l then [] else [ls[0]]) + Without(ls[1..], l)
  }

  /** The calls one replacement makes: each registration in `ls`, in order, gets `xs`. */
  function Notifications<T>(ls: seq<ListenerId>, xs: seq<T>): (r: seq<Notification<T>>)
    ensures |r| == |ls|
    ensures forall n :: n in r ==> n.1 == xs
  {
    if ls == [] then [] else Notifications(ls[..|ls| - 1], xs) + [(ls[|ls| - 1], xs)]
  }

  function Apply(ls: seq<ListenerId>, a: Action): seq<ListenerId> {
    match a
    case Subscribe(l) => ls + [l]
    case Unsubscribe(l) => Without(ls, l)
  }

  function ApplyAll(ls: seq<ListenerId>, acts: seq<Action>): seq<ListenerId>
    decreases |acts|
  {
    if acts == [] then ls else ApplyAll(Apply(ls, acts[0]), acts[1..])
  }

  function ReactionOf(reactions: map<ListenerId, seq<Action>>, l: ListenerId): seq<Action> {
    if l in reactions then reactions[l] else []
  }

  /** Every action the callbacks in `ls` take, in the order they are called. */
  function ReactionsOf(ls: seq<ListenerId>, reactions: map<ListenerId, seq<Action>>): seq<Action> {
    if ls == [] then [] else ReactionsOf(ls[..|ls| - 1], reactions) + ReactionOf(reactions, ls[|ls| - 1])
  }

  /** Each registration is called exactly once, in registration order, with the new collection. */
  lemma {:induction false} NotificationsInOrder<T>(ls: seq<ListenerId>, xs: seq<T>)
    ensures |Notifications(ls, xs)| == |ls|
    ensures forall i :: 0 <= i < |ls| ==> Notifications(ls, xs)[i] == (ls[i], xs)
  {
    if ls != [] {
      NotificationsInOrder(ls[..|ls| - 1], xs);
    }
  }

  /** Unsubscribing removes every registration of the listener and no other. */
  lemma {:induction false} WithoutRemovesOnlyThatListener(ls: seq<ListenerId>, l: ListenerId, x: ListenerId)
    ensures Count(Without(ls, l), x) == if x == l then 0 else Count(ls, x)
  {
    if ls != [] {
      WithoutRemovesOnlyThatListener(ls[1..], l, x);
      CountAppend((if ls[0] == l then [] else [ls[0]]), Without(ls[1..], l), x);
    }
  }

  lemma {:induction false} CountAppend(a: seq<ListenerId>, b: seq<ListenerId>, x: ListenerId)
    ensures Count(a + b, x) == Count(a, x) + Count(b, x)
  {
    if a != [] {
      assert (a + b)[1..] == a[1..] + b;
      CountAppend(a[1..], b, x);
    } else {
      assert a + b == b;
    }
  }

  lemma {:induction false} CountZero(ls: seq<ListenerId>, l: ListenerId)
    ensures Count(ls, l) == 0 <==> l !in ls
  {
    if ls != [] {
      CountZero(ls[1..], l);
      assert ls == [ls[0]] + ls[1..];
    }
  }

  /** The listeners left behind keep their relative order. */
  lemma {:induction false} WithoutKeepsOrder(ls: seq<ListenerId>, l: ListenerId)
    ensures IsSubsequence(Without(ls, l), ls)
  {
    if ls != [] {
      WithoutKeepsOrder(ls[1..], l);
      if ls[0] != l {
        assert ([ls[0]] + Without(ls[1..], l))[1..] == Without(ls[1..], l);
      } else {
        assert Without(ls, l) == Without(ls[1..], l);
        SubsequenceOfTail(Without(ls[1..], l), ls);
      }
    }
  }

  lemma {:induction false} SubsequenceOfTail(a: seq<ListenerId>, b: seq<ListenerId>)
    requires b != [] && IsSubsequence(a, b[1..])
    ensures IsSubsequence(a, b)
  {
    if a != [] && a[0] == b[0] {
      SubsequenceDropHead(a, b[1..]);
    }
  }

  lemma {:induction false} SubsequenceDropHead(a: seq<ListenerId>, b: seq<ListenerId>)
    requires a != [] && IsSubsequence(a, b)
    ensures IsSubsequence(a[1..], b)
  {
    if a[0] == b[0] {
      if a[1..] != [] {
        SubsequenceDropHead(a[1..], b[1..]);
        SubsequenceOfTail(a[1..], b);
      }
    } else {
      SubsequenceDropHead(a, b[1..]);
      if a[1..] != [] {
        SubsequenceOfTail(a[1..], b);
      }
    }
  }

  /** Filtering out a listener that is not registered changes nothing. */
  lemma {:induction false} WithoutAbsent(ls: seq<ListenerId>, l: ListenerId)
    requires l !in ls
    ensures Without(ls, l) == ls
  {
    if ls != [] {
      WithoutAbsent(ls[1..], l);
      assert ls == [ls[0]] + ls[1..];
    }
  }

  /** Calling an unsubscribe handle a second time is a no-op. */
  lemma UnsubscribeTwiceIsNoOp(ls: seq<ListenerId>, l: ListenerId)
    ensures Without(Without(ls, l), l) == Without(ls, l)
  {
    WithoutRemovesOnlyThatListener(ls, l, l);
    CountZero(Without(ls, l), l);
    WithoutAbsent(Without(ls, l), l);
  }

  /** Subscribing and then calling the handle leaves the registry as unsubscribing alone would. */
  lemma {:induction false} SubscribeThenUnsubscribe(ls: seq<ListenerId>, l: ListenerId)
    ensures Without(ls + [l], l) == Without(ls, l)
    ensures l !in ls ==> Without(ls + [l], l) == ls
  {
    if ls != [] {
      assert (ls + [l])[1..] == ls[1..] + [l];
      SubscribeThenUnsubscribe(ls[1..], l);
    } else {
      assert [l][1..] == [];
    }
    if l !in ls {
      WithoutAbsent(ls, l);
    }
  }

  /** Listeners that leave the registry alone leave it unchanged through a whole notification. */
  lemma {:induction false} QuietListenersKeepRegistry(ls: seq<ListenerId>)
    ensures ApplyAll(ls, ReactionsOf(ls, map[])) == ls
  {
    assert ReactionsOf(ls, map[]) == [] by {
      QuietReactionsEmpty(ls);
    }
  }

  lemma {:induction false} QuietReactionsEmpty(ls: seq<ListenerId>)
    ensures ReactionsOf(ls, map[]) == []
  {
    if ls != [] {
      QuietReactionsEmpty(ls[..|ls| - 1]);
    }
  }

  lemma {:induction false} ApplyAllAppend(ls: seq<ListenerId>, a: seq<Action>, b: seq<Action>)
    ensures ApplyAll(ls, a + b) == ApplyAll(ApplyAll(ls, a), b)
    decreases |a|
  {
    if a != [] {
      assert (a + b)[1..] == a[1..] + b;
      ApplyAllAppend(Apply(ls, a[0]), a[1..], b);
    } else {
      assert a + b == b;
    }
  }

  /** An unsubscribe closure: it remembers its store and the listener it was created for. */
  datatype Handle<T> = Handle(store: Store<T>, listener: ListenerId)

  /** One store: the current collection and the registered listeners. */
  class Store<T> {
    var items: seq<T>
    var listeners: seq<ListenerId>

    constructor (initial: seq<T>)
      ensures items == initial && listeners == []
    {
      items := initial;
      listeners := [];
    }

    /** The current collection, as last replaced. */
    method Get() returns (r: seq<T>)
      ensures r == items
    {
      r := items;
    }

    /**
     * Replaces the collection with `xs`, unchecked, then calls every listener registered at
     * this moment. The calls iterate a snapshot of the registry: whatever the callbacks
     * (`reactions`) subscribe or unsubscribe takes effect on the live registry only.
     */
    method Set(xs: seq<T>, reactions: map<ListenerId, seq<Action>>) returns (log: seq<Notification<T>>)
      modifies this
      ensures items == xs
      ensures log == Notifications(old(listeners), xs)
      ensures listeners == ApplyAll(old(listeners), ReactionsOf(old(listeners), reactions))
    {
      items := xs;
      var snapshot := listeners;
      log := [];
      var i := 0;
      while i < |snapshot|
        invariant 0 <= i <= |snapshot|
        invariant items == xs
        invariant log == Notifications(snapshot[..i], xs)
        invariant listeners == ApplyAll(snapshot, ReactionsOf(snapshot[..i], reactions))
      {
        var l := snapshot[i];
        log := log + [(l, xs)];
        ApplyAllAppend(snapshot, ReactionsOf(snapshot[..i], reactions), ReactionOf(reactions, l));
        listeners := ApplyAll(listeners, ReactionOf(reactions, l));
        assert snapshot[..i + 1][..i] == snapshot[..i];
        i := i + 1;
      }
      assert snapshot[..i] == snapshot;
    }

    /** Appends `l` to the registry without calling it; returns its unsubscribe handle. */
    method Subscribe(l: ListenerId) returns (unsubscribe: Handle<T>)
      modifies this
      ensures listeners == old(listeners) + [l]
      ensures items == old(items)
      ensures unsubscribe.store == this && unsubscribe.listener == l
    {
      listeners := listeners + [l];
      unsubscribe := Handle(this, l);
    }
  }

  /** Calls an unsubscribe handle: reassigns its store's registry without that listener. */
  method Unsubscribe<T>(h: Handle<T>)
    modifies h.store
    ensures h.store.listeners == Without(old(h.store.listeners), h.listener)
    ensures h.store.items == old(h.store.items)
  {
    h.store.listeners := Without(h.store.listeners, h.listener);
  }

  /** The module-level state: the habit store and the journal store, never shared. */
  class AppState {
    const habitStore: Store<Habit>
    const journalStore: Store<JournalEntry>

    ghost predicate Valid()
      reads this
    {
      habitStore as object != journalStore as object
    }

    constructor ()
      ensures Valid() && fresh(habitStore) && fresh(journalStore)
      ensures habitStore.items == InitialHabits() && habitStore.listeners == []
      ensures journalStore.items == [] && journalStore.listeners == []
    {
      habitStore := new Store(InitialHabits());
      journalStore := new Store([]);
    }

    method GetHabits() returns (r: seq<Habit>)
      ensures r == habitStore.items
    {
      r := habitStore.Get();
    }

    method SetHabits(xs: seq<Habit>, reactions: map<ListenerId, seq<Action>>) returns (log: seq<Notification<Habit>>)
      requires Valid()
      modifies habitStore
      ensures habitStore.items == xs
      ensures log == Notifications(old(habitStore.listeners), xs)
      ensures habitStore.listeners == ApplyAll(old(habitStore.listeners), ReactionsOf(old(habitStore.listeners), reactions))
      ensures unchanged(journalStore)
    {
      log := habitStore.Set(xs, reactions);
    }

    method SubscribeToHabits(l: ListenerId) returns (unsubscribe: Handle<Habit>)
      requires Valid()
      modifies habitStore
      ensures habitStore.listeners == old(habitStore.listeners) + [l]
      ensures habitStore.items == old(habitStore.items)
      ensures unsubscribe.store == habitStore && unsubscribe.listener == l
      ensures unchanged(journalStore)
    {
      unsubscribe := habitStore.Subscribe(l);
    }

    method GetJournalEntries() returns (r: seq<JournalEntry>)
      ensures r == journalStore.items
    {
      r := journalStore.Get();
    }

    method SetJournalEntries(xs: seq<JournalEntry>, reactions: map<ListenerId, seq<Action>>) returns (log: seq<Notification<JournalEntry>>)
      requires Valid()
      modifies journalStore
      ensures journalStore.items == xs
      ensures log == Notifications(old(journalStore.listeners), xs)
      ensures journalStore.listeners == ApplyAll(old(journalStore.listeners), ReactionsOf(old(journalStore.listeners), reactions))
      ensures unchanged(habitStore)
    {
      log := journalStore.Set(xs, reactions);
    }

    method SubscribeToJournalEntries(l: ListenerId) returns (unsubscribe: Handle<JournalEntry>)
      requires Valid()
      modifies journalStore
      ensures journalStore.listeners == old(journalStore.listeners) + [l]
      ensures journalStore.items == old(journalStore.items)
      ensures unsubscribe.store == journalStore && unsubscribe.listener == l
      ensures unchanged(habitStore)
    {
      unsubscribe := journalStore.Subscribe(l);
    }
  }
}
