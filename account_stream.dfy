/**
 * `AccountLoader(...).stream()`: a one-shot fetch and a push subscription feed
 * one output. A `fetchingInfo` flag lets the fetch result through only while no
 * non-null push has arrived. The promises become an explicit, ordered trace of
 * events; `StreamStep` is the effect of one event on the closure state.
 */
module AccountStream {
  import opened Wrappers
  import opened Ledger

  /**
   * The events that reach one stream:
   *  - FetchOk: `info()` resolved with a record and the following `await key()` settled;
   *  - FetchErr: `info()` rejected; the `catch` swallows it;
   *  - Subscribed: `key()` settled and `onAccountChange` returned `newId`;
   *  - Push: the connection called the listener with null or with a raw record;
   *  - Unsubscribe: the consumer unsubscribed: the subscriber is closed and the teardown
   *    calls `key()`;
   *  - TeardownKeyResolved: that `key()` settled, so `removeAccountChangeListener(id)`
   *    runs with the `id` held at this moment.
   */
  datatype StreamEvent =
    | FetchOk(raw: RawAccount)
    | FetchErr
    | Subscribed(newId: ListenerId)
    | Push(update: Option<RawAccount>)
    | Unsubscribe
    | TeardownKeyResolved

  /** One element of the stream: `{ pubkey, account }` with the account's data parsed. */
  datatype Emission<T> = Emission(pubkey: PublicKey, account: AccountInfo<T>)

  /**
   * The closure state: the `fetchingInfo` flag, the subscription `id` (undefined until
   * `onAccountChange` returns), whether the subscriber is closed, whether the teardown's
   * `key()` is still pending, what the subscriber received, and the arguments of the
   * teardown's `removeAccountChangeListener` calls.
   */
  datatype StreamState<T> = StreamState(
    fetchingInfo: bool,
    id: Option<ListenerId>,
    closed: bool,
    teardownPending: bool,
    emitted: seq<Emission<T>>,
    removed: seq<Option<ListenerId>>)

  function StreamInit<T>(): StreamState<T>
  {
    StreamState(true, None, false, false, [], [])
  }

  function Emit<T>(pubkey: PublicKey, parser: Parser<T>, raw: RawAccount): Emission<T>
  {
    Emission(pubkey, Decode(raw, parser))
  }

  predicate IsRecordPush(e: StreamEvent)
  {
    e.Push? && e.update.Some?
  }

  /**
   * The effect of one event. A closed subscriber ignores `next` (the observable's
   * subscriber is closed by the unsubscription) and runs its teardown only once.
   */
  function StreamStep<T>(pubkey: PublicKey, parser: Parser<T>, s: StreamState<T>, e: StreamEvent): StreamState<T>
  {
    match e
    case FetchOk(raw) =>
      if s.fetchingInfo && !s.closed then s.(emitted := s.emitted + [Emit(pubkey, parser, raw)]) else s
    case FetchErr => s
    case Subscribed(i) => s.(id := Some(i))
    case Push(update) =>
      if update.None? then s
      else s.(fetchingInfo := false,
              emitted := if s.closed then s.emitted else s.emitted + [Emit(pubkey, parser, update.value)])
    case Unsubscribe =>
      if s.closed then s else s.(closed := true, teardownPending := true)
    case TeardownKeyResolved =>
      if s.teardownPending then s.(teardownPending := false, removed := s.removed + [s.id]) else s
  }

  function RunFrom<T>(pubkey: PublicKey, parser: Parser<T>, s: StreamState<T>, evs: seq<StreamEvent>): StreamState<T>
    decreases |evs|
  {
    if evs == [] then s else RunFrom(pubkey, parser, StreamStep(pubkey, parser, s, evs[0]), evs[1..])
  }

  /** The stream's state after the trace `evs`. */
  function Run<T>(pubkey: PublicKey, parser: Parser<T>, evs: seq<StreamEvent>): StreamState<T>
  {
    RunFrom(pubkey, parser, StreamInit(), evs)
  }

  // ---------------------------------------------------------------------------
  // The intended output, defined directly on the trace
  // ---------------------------------------------------------------------------

  /** The events before the first unsubscription. */
  function Live(evs: seq<StreamEvent>): (r: seq<StreamEvent>)
    ensures |r| <= |evs| && r == evs[..|r|]
    ensures forall j :: 0 <= j < |r| ==> !r[j].Unsubscribe?
  {
    if evs == [] || evs[0].Unsubscribe? then [] else [evs[0]] + Live(evs[1..])
  }

  /** The fetch results that arrive before the first non-null push. */
  function FetchesBeforePush<T>(pubkey: PublicKey, parser: Parser<T>, evs: seq<StreamEvent>): seq<Emission<T>>
  {
    if evs == [] || IsRecordPush(evs[0]) then []
    else if evs[0].FetchOk? then [Emit(pubkey, parser, evs[0].raw)] + FetchesBeforePush(pubkey, parser, evs[1..])
    else FetchesBeforePush(pubkey, parser, evs[1..])
  }

  /** Every non-null push, in arrival order. */
  function PushEmissions<T>(pubkey: PublicKey, parser: Parser<T>, evs: seq<StreamEvent>): seq<Emission<T>>
  {
    if evs == [] then []
    else (if IsRecordPush(evs[0]) then [Emit(pubkey, parser, evs[0].update.value)] else [])
         + PushEmissions(pubkey, parser, evs[1..])
  }

  /** No unsubscription, no non-null push and no fetch result. */
  ghost predicate Quiet(evs: seq<StreamEvent>)
  {
    forall j :: 0 <= j < |evs| ==> !evs[j].Unsubscribe? && !IsRecordPush(evs[j]) && !evs[j].FetchOk?
  }

  // ---------------------------------------------------------------------------
  // Lemmas
  // ---------------------------------------------------------------------------

  /** What one event does to the fields the emissions depend on. */
  lemma StepView<T>(pubkey: PublicKey, parser: Parser<T>, s: StreamState<T>, e: StreamEvent)
    ensures var t := StreamStep(pubkey, parser, s, e);
      && t.closed == (s.closed || e.Unsubscribe?)
      && t.fetchingInfo == (s.fetchingInfo && !IsRecordPush(e))
      && t.emitted == if s.closed then s.emitted
         else s.emitted
              + (if s.fetchingInfo && e.FetchOk? then [Emit(pubkey, parser, e.raw)] else [])
              + (if IsRecordPush(e) then [Emit(pubkey, parser, e.update.value)] else [])
  {
  }

  lemma {:induction false} RunFromEmissions<T>(pubkey: PublicKey, parser: Parser<T>, s: StreamState<T>, evs: seq<StreamEvent>)
    decreases |evs|
    ensures RunFrom(pubkey, parser, s, evs).emitted ==
      if s.closed then s.emitted
      else s.emitted
           + (if s.fetchingInfo then FetchesBeforePush(pubkey, parser, Live(evs)) else [])
           + PushEmissions(pubkey, parser, Live(evs))
  {
    if evs != [] {
      var e, rest := evs[0], evs[1..];
      var s' := StreamStep(pubkey, parser, s, e);
      RunFromEmissions(pubkey, parser, s', rest);
      StepView(pubkey, parser, s, e);
      if !s.closed && !e.Unsubscribe? {
        var l := Live(rest);
        assert Live(evs) == [e] + l;
        assert ([e] + l)[0] == e && ([e] + l)[1..] == l;
        assert PushEmissions(pubkey, parser, [e] + l) ==
          (if IsRecordPush(e) then [Emit(pubkey, parser, e.update.value)] else []) + PushEmissions(pubkey, parser, l);
        assert FetchesBeforePush(pubkey, parser, [e] + l) ==
          if IsRecordPush(e) then []
          else (if e.FetchOk? then [Emit(pubkey, parser, e.raw)] else []) + FetchesBeforePush(pubkey, parser, l);
      }
    }
  }

  /**
   * The race law: the stream emits the fetch result only if it arrives before the
   * first non-null push, then every non-null push in arrival order, and nothing
   * after the unsubscription.
   */
  lemma StreamEmitsFetchThenPushes<T>(pubkey: PublicKey, parser: Parser<T>, evs: seq<StreamEvent>)
    ensures Run(pubkey, parser, evs).emitted ==
      FetchesBeforePush(pubkey, parser, Live(evs)) + PushEmissions(pubkey, parser, Live(evs))
  {
    RunFromEmissions(pubkey, parser, StreamInit(), evs);
  }

  lemma {:induction false} RunAppend<T>(pubkey: PublicKey, parser: Parser<T>, s: StreamState<T>, a: seq<StreamEvent>, b: seq<StreamEvent>)
    decreases |a|
    ensures RunFrom(pubkey, parser, s, a + b) == RunFrom(pubkey, parser, RunFrom(pubkey, parser, s, a), b)
  {
    if a == [] {
      assert a + b == b;
    } else {
      assert (a + b)[0] == a[0] && (a + b)[1..] == a[1..] + b;
      RunAppend(pubkey, parser, StreamStep(pubkey, parser, s, a[0]), a[1..], b);
    }
  }

  lemma {:induction false} QuietKeepsView<T>(pubkey: PublicKey, parser: Parser<T>, s: StreamState<T>, a: seq<StreamEvent>)
    requires Quiet(a)
    decreases |a|
    ensures var t := RunFrom(pubkey, parser, s, a);
      t.fetchingInfo == s.fetchingInfo && t.closed == s.closed && t.emitted == s.emitted
  {
    if a != [] {
      assert Quiet(a[1..]) by {
        forall j | 0 <= j < |a[1..]| ensures !a[1..][j].Unsubscribe? && !IsRecordPush(a[1..][j]) && !a[1..][j].FetchOk? {
          assert a[1..][j] == a[j + 1];
        }
      }
      QuietKeepsView(pubkey, parser, StreamStep(pubkey, parser, s, a[0]), a[1..]);
    }
  }

  lemma {:induction false} ClearedStaysCleared<T>(pubkey: PublicKey, parser: Parser<T>, s: StreamState<T>, a: seq<StreamEvent>)
    requires !s.fetchingInfo
    decreases |a|
    ensures !RunFrom(pubkey, parser, s, a).fetchingInfo
  {
    if a != [] {
      ClearedStaysCleared(pubkey, parser, StreamStep(pubkey, parser, s, a[0]), a[1..]);
    }
  }

  lemma {:induction false} RecordPushClearsFetching<T>(pubkey: PublicKey, parser: Parser<T>, s: StreamState<T>, a: seq<StreamEvent>, k: nat)
    requires k < |a| && IsRecordPush(a[k])
    decreases k
    ensures !RunFrom(pubkey, parser, s, a).fetchingInfo
  {
    var s' := StreamStep(pubkey, parser, s, a[0]);
    if k == 0 {
      ClearedStaysCleared(pubkey, parser, s', a[1..]);
    } else {
      assert a[1..][k - 1] == a[k];
      RecordPushClearsFetching(pubkey, parser, s', a[1..], k - 1);
    }
  }

  lemma {:induction false} ClosedIsFinal<T>(pubkey: PublicKey, parser: Parser<T>, s: StreamState<T>, a: seq<StreamEvent>)
    requires s.closed
    decreases |a|
    ensures var t := RunFrom(pubkey, parser, s, a);
      t.closed && t.emitted == s.emitted
  {
    if a != [] {
      ClosedIsFinal(pubkey, parser, StreamStep(pubkey, parser, s, a[0]), a[1..]);
    }
  }

  lemma {:induction false} FetchesWithoutFetch<T>(pubkey: PublicKey, parser: Parser<T>, x: seq<StreamEvent>)
    requires forall j :: 0 <= j < |x| ==> !x[j].FetchOk?
    decreases |x|
    ensures FetchesBeforePush(pubkey, parser, x) == []
  {
    if x != [] {
      assert forall j :: 0 <= j < |x[1..]| ==> x[1..][j] == x[j + 1];
      FetchesWithoutFetch(pubkey, parser, x[1..]);
    }
  }

  lemma {:induction false} OpenUntilUnsubscribe<T>(pubkey: PublicKey, parser: Parser<T>, s: StreamState<T>, a: seq<StreamEvent>)
    requires !s.closed && !s.teardownPending
    requires forall j :: 0 <= j < |a| ==> !a[j].Unsubscribe?
    decreases |a|
    ensures var t := RunFrom(pubkey, parser, s, a);
      !t.closed && !t.teardownPending && t.removed == s.removed
  {
    if a != [] {
      assert forall j :: 0 <= j < |a[1..]| ==> a[1..][j] == a[j + 1];
      OpenUntilUnsubscribe(pubkey, parser, StreamStep(pubkey, parser, s, a[0]), a[1..]);
    }
  }

  lemma {:induction false} TeardownStaysPending<T>(pubkey: PublicKey, parser: Parser<T>, s: StreamState<T>, a: seq<StreamEvent>)
    requires s.closed && s.teardownPending
    requires forall j :: 0 <= j < |a| ==> !a[j].TeardownKeyResolved?
    decreases |a|
    ensures var t := RunFrom(pubkey, parser, s, a);
      t.closed && t.teardownPending && t.removed == s.removed
  {
    if a != [] {
      assert forall j :: 0 <= j < |a[1..]| ==> a[1..][j] == a[j + 1];
      TeardownStaysPending(pubkey, parser, StreamStep(pubkey, parser, s, a[0]), a[1..]);
    }
  }

  lemma {:induction false} TeardownDoneIsFinal<T>(pubkey: PublicKey, parser: Parser<T>, s: StreamState<T>, a: seq<StreamEvent>)
    requires s.closed && !s.teardownPending
    decreases |a|
    ensures RunFrom(pubkey, parser, s, a).removed == s.removed
  {
    if a != [] {
      TeardownDoneIsFinal(pubkey, parser, StreamStep(pubkey, parser, s, a[0]), a[1..]);
    }
  }

  lemma {:induction false} OpenWithoutFetch<T>(pubkey: PublicKey, parser: Parser<T>, s: StreamState<T>, post: seq<StreamEvent>)
    requires !s.closed
    requires forall j :: 0 <= j < |post| ==> !post[j].FetchOk?
    ensures RunFrom(pubkey, parser, s, post).emitted == s.emitted + PushEmissions(pubkey, parser, Live(post))
  {
    RunFromEmissions(pubkey, parser, s, post);
    var l := Live(post);
    assert forall j :: 0 <= j < |l| ==> l[j] == post[j];
    FetchesWithoutFetch(pubkey, parser, l);
    assert s.emitted + [] == s.emitted;
  }

  /**
   * The single fetch completes before any non-null push and before the unsubscription: its
   * result is the first element, followed by every non-null push of the live part.
   */
  lemma StreamFetchFirstIsEmittedFirst<T>(pubkey: PublicKey, parser: Parser<T>, pre: seq<StreamEvent>, raw: RawAccount, post: seq<StreamEvent>)
    requires Quiet(pre)
    requires forall j :: 0 <= j < |post| ==> !post[j].FetchOk?
    ensures Run(pubkey, parser, pre + [FetchOk(raw)] + post).emitted ==
      [Emit(pubkey, parser, raw)] + PushEmissions(pubkey, parser, Live(post))
  {
    var init := StreamInit<T>();
    var q := RunFrom(pubkey, parser, init, pre);
    QuietKeepsView(pubkey, parser, init, pre);
    var q' := StreamStep(pubkey, parser, q, FetchOk(raw));
    assert q'.emitted == [Emit(pubkey, parser, raw)] && !q'.closed;
    assert RunFrom(pubkey, parser, q, [FetchOk(raw)]) == q';
    RunAppend(pubkey, parser, init, pre, [FetchOk(raw)]);
    RunAppend(pubkey, parser, init, pre + [FetchOk(raw)], post);
    OpenWithoutFetch(pubkey, parser, q', post);
  }

  /**
   * A non-null push arrives before the fetch result (and before the unsubscription): the
   * stream starts with that push, and no fetch result appears at all, whenever it
   * completes.
   */
  lemma StreamPushFirstDropsFetch<T>(pubkey: PublicKey, parser: Parser<T>, pre: seq<StreamEvent>, raw: RawAccount, post: seq<StreamEvent>)
    requires Quiet(pre)
    ensures Run(pubkey, parser, pre + [Push(Some(raw))] + post).emitted ==
      [Emit(pubkey, parser, raw)] + PushEmissions(pubkey, parser, Live(post))
  {
    var init := StreamInit<T>();
    RunAppend(pubkey, parser, init, pre + [Push(Some(raw))], post);
    RunAppend(pubkey, parser, init, pre, [Push(Some(raw))]);
    var q := RunFrom(pubkey, parser, init, pre);
    QuietKeepsView(pubkey, parser, init, pre);
    var q' := RunFrom(pubkey, parser, q, [Push(Some(raw))]);
    assert q' == StreamStep(pubkey, parser, q, Push(Some(raw)));
    RunFromEmissions(pubkey, parser, q', post);
  }

  /** After a non-null push, a fetch result changes nothing: the trace behaves as if it never came. */
  lemma StreamFetchAfterPushIsDropped<T>(pubkey: PublicKey, parser: Parser<T>, pre: seq<StreamEvent>, k: nat, raw: RawAccount, post: seq<StreamEvent>)
    requires k < |pre| && IsRecordPush(pre[k])
    ensures Run(pubkey, parser, pre + [FetchOk(raw)] + post) == Run(pubkey, parser, pre + post)
  {
    var init := StreamInit<T>();
    RunAppend(pubkey, parser, init, pre + [FetchOk(raw)], post);
    RunAppend(pubkey, parser, init, pre, [FetchOk(raw)]);
    RunAppend(pubkey, parser, init, pre, post);
    var q := RunFrom(pubkey, parser, init, pre);
    RecordPushClearsFetching(pubkey, parser, init, pre, k);
    assert RunFrom(pubkey, parser, q, [FetchOk(raw)]) == StreamStep(pubkey, parser, q, FetchOk(raw));
  }

  /** A null push neither emits nor clears `fetchingInfo`: it changes nothing at all. */
  lemma StreamIgnoresNullPush<T>(pubkey: PublicKey, parser: Parser<T>, pre: seq<StreamEvent>, post: seq<StreamEvent>)
    ensures Run(pubkey, parser, pre + [Push(None)] + post) == Run(pubkey, parser, pre + post)
  {
    var init := StreamInit<T>();
    RunAppend(pubkey, parser, init, pre + [Push(None)], post);
    RunAppend(pubkey, parser, init, pre, [Push(None)]);
    RunAppend(pubkey, parser, init, pre, post);
    var q := RunFrom(pubkey, parser, init, pre);
    assert RunFrom(pubkey, parser, q, [Push(None)]) == StreamStep(pubkey, parser, q, Push(None));
  }

  /** A failed fetch is swallowed: nothing is emitted, no error surfaces, the state is as if it never came. */
  lemma StreamSwallowsFetchError<T>(pubkey: PublicKey, parser: Parser<T>, pre: seq<StreamEvent>, post: seq<StreamEvent>)
    ensures Run(pubkey, parser, pre + [FetchErr] + post) == Run(pubkey, parser, pre + post)
  {
    var init := StreamInit<T>();
    RunAppend(pubkey, parser, init, pre + [FetchErr], post);
    RunAppend(pubkey, parser, init, pre, [FetchErr]);
    RunAppend(pubkey, parser, init, pre, post);
    var q := RunFrom(pubkey, parser, init, pre);
    assert RunFrom(pubkey, parser, q, [FetchErr]) == StreamStep(pubkey, parser, q, FetchErr);
  }

  /** After the first unsubscription the subscriber is closed and nothing more is emitted. */
  lemma StreamUnsubscribeIsFinal<T>(pubkey: PublicKey, parser: Parser<T>, pre: seq<StreamEvent>, post: seq<StreamEvent>)
    requires forall j :: 0 <= j < |pre| ==> !pre[j].Unsubscribe?
    ensures var before := Run(pubkey, parser, pre);
      var after := Run(pubkey, parser, pre + [Unsubscribe] + post);
      after.closed && after.emitted == before.emitted
  {
    var init := StreamInit<T>();
    RunAppend(pubkey, parser, init, pre + [Unsubscribe], post);
    RunAppend(pubkey, parser, init, pre, [Unsubscribe]);
    var q := RunFrom(pubkey, parser, init, pre);
    OpenUntilUnsubscribe(pubkey, parser, init, pre);
    var q' := StreamStep(pubkey, parser, q, Unsubscribe);
    assert RunFrom(pubkey, parser, q, [Unsubscribe]) == q';
    ClosedIsFinal(pubkey, parser, q', post);
  }

  /**
   * The teardown unregisters exactly once, and it passes the `id` held when its `key()`
   * settles, not the one held at the unsubscription; nothing is unregistered before or after.
   */
  lemma StreamTeardownRemovesOnce<T>(pubkey: PublicKey, parser: Parser<T>, pre: seq<StreamEvent>, mid: seq<StreamEvent>, post: seq<StreamEvent>)
    requires forall j :: 0 <= j < |pre| ==> !pre[j].Unsubscribe?
    requires forall j :: 0 <= j < |mid| ==> !mid[j].TeardownKeyResolved?
    ensures var atTeardown := Run(pubkey, parser, pre + [Unsubscribe] + mid);
      Run(pubkey, parser, pre + [Unsubscribe] + mid + [TeardownKeyResolved] + post).removed == [atTeardown.id]
  {
    var init := StreamInit<T>();
    var upTo := pre + [Unsubscribe] + mid;
    var a := RunFrom(pubkey, parser, init, pre);
    OpenUntilUnsubscribe(pubkey, parser, init, pre);
    var b := StreamStep(pubkey, parser, a, Unsubscribe);
    assert RunFrom(pubkey, parser, a, [Unsubscribe]) == b;
    RunAppend(pubkey, parser, init, pre, [Unsubscribe]);
    var c := RunFrom(pubkey, parser, b, mid);
    TeardownStaysPending(pubkey, parser, b, mid);
    RunAppend(pubkey, parser, init, pre + [Unsubscribe], mid);
    assert RunFrom(pubkey, parser, init, upTo) == c;
    var d := StreamStep(pubkey, parser, c, TeardownKeyResolved);
    assert RunFrom(pubkey, parser, c, [TeardownKeyResolved]) == d;
    RunAppend(pubkey, parser, init, upTo, [TeardownKeyResolved]);
    RunAppend(pubkey, parser, init, upTo + [TeardownKeyResolved], post);
    TeardownDoneIsFinal(pubkey, parser, d, post);
  }

  /**
   * The unsubscription closes the subscriber at once, but the teardown reads `id` only
   * when its `key()` settles: a fetch result arriving in between is dropped, and an id
   * assigned in between is the one unregistered.
   */
  lemma StreamTeardownSeesLaterId<T>(pubkey: PublicKey, parser: Parser<T>, raw: RawAccount, i: ListenerId)
    ensures var t := Run(pubkey, parser, [Unsubscribe, FetchOk(raw), Subscribed(i), TeardownKeyResolved]);
      t.emitted == [] && t.removed == [Some(i)]
  {
    var evs := [Unsubscribe, FetchOk(raw), Subscribed(i), TeardownKeyResolved];
    var s1 := StreamStep(pubkey, parser, StreamInit<T>(), Unsubscribe);
    var s2 := StreamStep(pubkey, parser, s1, FetchOk(raw));
    var s3 := StreamStep(pubkey, parser, s2, Subscribed(i));
    var s4 := StreamStep(pubkey, parser, s3, TeardownKeyResolved);
    assert evs[1..] == [FetchOk(raw), Subscribed(i), TeardownKeyResolved];
    assert evs[1..][1..] == [Subscribed(i), TeardownKeyResolved];
    assert evs[1..][1..][1..] == [TeardownKeyResolved];
    assert RunFrom(pubkey, parser, s3, [TeardownKeyResolved]) == RunFrom(pubkey, parser, s4, []);
    assert RunFrom(pubkey, parser, s2, [Subscribed(i), TeardownKeyResolved]) == RunFrom(pubkey, parser, s3, [TeardownKeyResolved]);
    assert RunFrom(pubkey, parser, s1, evs[1..]) == RunFrom(pubkey, parser, s2, evs[1..][1..]);
  }

  /**
   * The teardown waits only on a fresh `key()`: when that settles before the
   * subscription has returned its id, it unregisters `undefined` and the listener
   * registered afterwards stays registered.
   */
  lemma StreamTeardownBeforeSubscribeKeepsListener<T>(pubkey: PublicKey, parser: Parser<T>, i: ListenerId)
    ensures var t := Run(pubkey, parser, [Unsubscribe, TeardownKeyResolved, Subscribed(i)]);
      t.removed == [None] && t.id == Some(i)
  {
    var evs := [Unsubscribe, TeardownKeyResolved, Subscribed(i)];
    var s1 := StreamStep(pubkey, parser, StreamInit<T>(), Unsubscribe);
    var s2 := StreamStep(pubkey, parser, s1, TeardownKeyResolved);
    var s3 := StreamStep(pubkey, parser, s2, Subscribed(i));
    assert evs[1..] == [TeardownKeyResolved, Subscribed(i)];
    assert evs[1..][1..] == [Subscribed(i)];
    assert RunFrom(pubkey, parser, s2, [Subscribed(i)]) == RunFrom(pubkey, parser, s3, []);
    assert RunFrom(pubkey, parser, s1, evs[1..]) == RunFrom(pubkey, parser, s2, evs[1..][1..]);
  }

  /** A teardown whose `key()` settles after the subscription returned unregisters that id. */
  lemma StreamTeardownAfterSubscribeRemovesId<T>(pubkey: PublicKey, parser: Parser<T>, i: ListenerId)
    ensures var t := Run(pubkey, parser, [Subscribed(i), Unsubscribe, TeardownKeyResolved]);
      t.removed == [Some(i)] && t.closed
  {
    var evs := [Subscribed(i), Unsubscribe, TeardownKeyResolved];
    var s1 := StreamStep(pubkey, parser, StreamInit<T>(), Subscribed(i));
    var s2 := StreamStep(pubkey, parser, s1, Unsubscribe);
    var s3 := StreamStep(pubkey, parser, s2, TeardownKeyResolved);
    assert evs[1..] == [Unsubscribe, TeardownKeyResolved];
    assert evs[1..][1..] == [TeardownKeyResolved];
    assert RunFrom(pubkey, parser, s2, [TeardownKeyResolved]) == RunFrom(pubkey, parser, s3, []);
    assert RunFrom(pubkey, parser, s1, evs[1..]) == RunFrom(pubkey, parser, s2, evs[1..][1..]);
  }

  /** The closure state of one `stream()` subscription; one method per event. */
  class Stream<T> {
    const pubkey: PublicKey
    const parser: Parser<T>
    var fetchingInfo: bool
    var id: Option<ListenerId>
    var closed: bool
    var teardownPending: bool
    var emitted: seq<Emission<T>>
    var removed: seq<Option<ListenerId>>

    function State(): StreamState<T>
      reads this
    {
      StreamState(fetchingInfo, id, closed, teardownPending, emitted, removed)
    }

    constructor (key: PublicKey, p: Parser<T>)
      ensures pubkey == key && parser == p && State() == StreamInit()
    {
      pubkey := key;
      parser := p;
      fetchingInfo := true;
      id := None;
      closed := false;
      teardownPending := false;
      emitted := [];
      removed := [];
    }

    /** `info()` resolved: `if (!fetchingInfo) return; subscriber.next({ account, pubkey })`. */
    method OnFetchOk(raw: RawAccount)
      modifies this
      ensures State() == StreamStep(pubkey, parser, old(State()), FetchOk(raw))
    {
      if fetchingInfo && !closed {
        emitted := emitted + [Emit(pubkey, parser, raw)];
      }
    }

    /** `info()` rejected: the `catch` handler does nothing. */
    method OnFetchErr()
      modifies this
      ensures State() == StreamStep(pubkey, parser, old(State()), FetchErr)
    {
    }

    /** `id = ctx.connection.onAccountChange(pubkey, ...)` returned. */
    method OnSubscribed(newId: ListenerId)
      modifies this
      ensures State() == StreamStep(pubkey, parser, old(State()), Subscribed(newId))
    {
      id := Some(newId);
    }

    /** The listener ran: a non-null record clears `fetchingInfo` and is emitted parsed. */
    method OnPush(update: Option<RawAccount>)
      modifies this
      ensures State() == StreamStep(pubkey, parser, old(State()), Push(update))
    {
      if update.Some? {
        fetchingInfo := false;
        if !closed {
          emitted := emitted + [Emit(pubkey, parser, update.value)];
        }
      }
    }

    /** The consumer unsubscribed: the subscriber closes and, the first time only, the teardown calls `key()`. */
    method OnUnsubscribe()
      modifies this
      ensures State() == StreamStep(pubkey, parser, old(State()), Unsubscribe)
    {
      if !closed {
        closed := true;
        teardownPending := true;
      }
    }

    /** The teardown's `key()` settled: `removeAccountChangeListener(id)` with whatever `id` holds now. */
    method OnTeardownKeyResolved()
      modifies this
      ensures State() == StreamStep(pubkey, parser, old(State()), TeardownKeyResolved)
    {
      if teardownPending {
        teardownPending := false;
        removed := removed + [id];
      }
    }
  }
}
