/**
 * Class `Account`: a key that may be given, pending or undefined, read through
 * `key(optional)`, `info`, `bal` and `onChange`. The key is modelled by the value
 * its promise settles to.
 */
module Account {
  import opened Wrappers
  import opened Ledger

  datatype AccountError =
    | KeyUndefined         // "Key was undefined after await"
    | BalanceUnavailable   // `getTokenAccountBalance` rejected: there is no such token account
    | NotAnInteger         // `BigInt(amount)` threw a SyntaxError

  /** `key(optional)`: with `optional === true` the settled key is returned as it is, possibly undefined. */
  function Key(resolved: Option<PublicKey>, optional: bool): (r: Result<Option<PublicKey>, AccountError>)
    ensures optional ==> r == Ok(resolved)
    ensures !optional ==> (r.Err? <==> resolved.None?)
    ensures r.Err? ==> r.error == KeyUndefined
    ensures r.Ok? ==> r.value == resolved
  {
    if optional then Ok(resolved)
    else if resolved.None? then Err(KeyUndefined)
    else Ok(resolved)
  }

  /** `info()`: a mandatory key, then `getAccountInfo`, which yields null for a missing account. */
  function Info(resolved: Option<PublicKey>, chain: Snapshot): (r: Result<Option<RawAccount>, AccountError>)
    ensures resolved.None? ==> r == Err(KeyUndefined)
    ensures resolved.Some? && resolved.value in chain ==> r == Ok(Some(chain[resolved.value]))
    ensures resolved.Some? && resolved.value !in chain ==> r == Ok(None)
  {
    match Key(resolved, false)
    case Err(e) => Err(e)
    case Ok(k) => Ok(if k.value in chain then Some(chain[k.value]) else None)
  }

  // ---------------------------------------------------------------------------
  // bal(): BigInt of the decimal amount string
  // ---------------------------------------------------------------------------

  predicate IsDigit(c: char)
  {
    '0' <= c <= '9'
  }

  predicate AllDigits(s: string)
  {
    forall i :: 0 <= i < |s| ==> IsDigit(s[i])
  }

  /** The value of a string of decimal digits, most significant first. */
  function DigitsValue(s: string): nat
    requires AllDigits(s)
    decreases |s|
  {
    if s == [] then 0
    else
      var front := s[..|s| - 1];
      assert forall i :: 0 <= i < |front| ==> front[i] == s[i];
      DigitsValue(front) * 10 + (s[|s| - 1] as int - '0' as int)
  }

  /**
   * `BigInt(s)` on a string: an optional sign followed by decimal digits; the empty
   * string gives 0; anything else throws.
   */
  function ParseBigInt(s: string): (r: Result<int, AccountError>)
    ensures r.Err? ==> r.error == NotAnInteger
    ensures AllDigits(s) ==> r == Ok(DigitsValue(s))
  {
    if s == "" then Ok(0)
    else if (s[0] == '-' || s[0] == '+') && |s| > 1 && AllDigits(s[1..]) then
      var magnitude: int := DigitsValue(s[1..]);
      Ok(if s[0] == '-' then -magnitude else magnitude)
    else if AllDigits(s) then Ok(DigitsValue(s))
    else Err(NotAnInteger)
  }

  /** The canonical decimal digits of `n`, as the RPC writes `amount`. */
  function DecimalDigits(n: nat): (r: string)
    decreases n
    ensures |r| >= 1 && AllDigits(r) && DigitsValue(r) == n
  {
    if n < 10 then [('0' as int + n) as char]
    else
      var d := DecimalDigits(n / 10);
      var r := d + [('0' as int + n % 10) as char];
      assert r[..|r| - 1] == d;
      r
  }

  /** The decimal text of an integer: a minus sign for negatives, no leading zeros. */
  function DecimalString(n: int): string
  {
    if n < 0 then "-" + DecimalDigits(-n) else DecimalDigits(n)
  }

  /** `BigInt` reads back every decimal text exactly. */
  lemma BigIntRoundTrip(n: int)
    ensures ParseBigInt(DecimalString(n)) == Ok(n)
  {
    if n < 0 {
      var d := DecimalDigits(-n);
      assert ("-" + d)[1..] == d;
    }
  }

  /** `bal()`: a mandatory key, then `getTokenAccountBalance`, then `BigInt(balance.value.amount)`. */
  function Bal(resolved: Option<PublicKey>, amounts: map<PublicKey, string>): (r: Result<int, AccountError>)
    ensures resolved.None? ==> r == Err(KeyUndefined)
    ensures resolved.Some? && resolved.value !in amounts ==> r == Err(BalanceUnavailable)
    ensures resolved.Some? && resolved.value in amounts ==> r == ParseBigInt(amounts[resolved.value])
  {
    match Key(resolved, false)
    case Err(e) => Err(e)
    case Ok(k) =>
      if k.value in amounts then ParseBigInt(amounts[k.value]) else Err(BalanceUnavailable)
  }

  /** A balance reported as the decimal text of `n` reads as `n`. */
  lemma BalReadsDecimalAmount(k: PublicKey, amounts: map<PublicKey, string>, n: nat)
    requires k in amounts && amounts[k] == DecimalString(n)
    ensures Bal(Some(k), amounts) == Ok(n)
  {
    BigIntRoundTrip(n);
  }

  // ---------------------------------------------------------------------------
  // onChange(): registration and disposal wait on one shared promise
  // ---------------------------------------------------------------------------

  /**
   * The events of one `onChange` call:
   *  - KeySettled: `resolvedKey` settled (None: `this.key()` rejected because the key is
   *    undefined); on a defined key `onAccountChange` hands out `newId`;
   *  - Changed: the connection called the listener;
   *  - DisposeCalled: the disposer was called; its `resolvedKey.then` runs after the
   *    registration's, so before settlement it is only queued.
   */
  datatype ListenEvent =
    | KeySettled(key: Option<PublicKey>, newId: ListenerId)
    | Changed(raw: RawAccount)
    | DisposeCalled

  datatype ListenState = ListenState(
    settled: bool,
    id: Option<ListenerId>,
    queuedDisposals: nat,
    delivered: seq<RawAccount>,
    removed: seq<ListenerId>)

  function ListenInit(): ListenState
  {
    ListenState(false, None, 0, [], [])
  }

  predicate Listening(s: ListenState)
  {
    s.id.Some? && s.id.value !in s.removed
  }

  function ListenStep(s: ListenState, e: ListenEvent): ListenState
  {
    match e
    case KeySettled(k, i) =>
      if s.settled then s
      else if k.None? then s.(settled := true, queuedDisposals := 0)
      else s.(settled := true, id := Some(i), queuedDisposals := 0,
              removed := s.removed + seq(s.queuedDisposals, _ => i))
    case Changed(raw) =>
      if Listening(s) then s.(delivered := s.delivered + [raw]) else s
    case DisposeCalled =>
      if !s.settled then s.(queuedDisposals := s.queuedDisposals + 1)
      else if s.id.Some? then s.(removed := s.removed + [s.id.value])
      else s
  }

  function ListenRun(s: ListenState, evs: seq<ListenEvent>): ListenState
    decreases |evs|
  {
    if evs == [] then s else ListenRun(ListenStep(s, evs[0]), evs[1..])
  }

  function Disposals(n: nat): (evs: seq<ListenEvent>)
    ensures |evs| == n && forall j :: 0 <= j < n ==> evs[j] == DisposeCalled
  {
    seq(n, _ => DisposeCalled)
  }

  function Changes(raws: seq<RawAccount>): (evs: seq<ListenEvent>)
    ensures |evs| == |raws| && forall j :: 0 <= j < |raws| ==> evs[j] == Changed(raws[j])
  {
    seq(|raws|, j requires 0 <= j < |raws| => Changed(raws[j]))
  }

  lemma {:induction false} QueueDisposals(s: ListenState, n: nat)
    requires !s.settled
    decreases n
    ensures ListenRun(s, Disposals(n)) == s.(queuedDisposals := s.queuedDisposals + n)
  {
    if n > 0 {
      assert Disposals(n)[1..] == Disposals(n - 1);
      QueueDisposals(ListenStep(s, DisposeCalled), n - 1);
    }
  }

  lemma {:induction false} SettledDisposals(s: ListenState, i: ListenerId, m: nat)
    requires s.settled && s.id == Some(i)
    decreases m
    ensures ListenRun(s, Disposals(m)) == s.(removed := s.removed + seq(m, _ => i))
  {
    if m == 0 {
      assert s.removed + seq(0, _ => i) == s.removed;
    } else {
      assert Disposals(m)[1..] == Disposals(m - 1);
      var s' := ListenStep(s, DisposeCalled);
      SettledDisposals(s', i, m - 1);
      assert s'.removed + seq(m - 1, _ => i) == s.removed + seq(m, _ => i);
    }
  }

  lemma {:induction false} ListenRunAppend(s: ListenState, a: seq<ListenEvent>, b: seq<ListenEvent>)
    decreases |a|
    ensures ListenRun(s, a + b) == ListenRun(ListenRun(s, a), b)
  {
    if a == [] {
      assert a + b == b;
    } else {
      assert (a + b)[0] == a[0] && (a + b)[1..] == a[1..] + b;
      ListenRunAppend(ListenStep(s, a[0]), a[1..], b);
    }
  }

  /**
   * No leak: whether the disposer is called before or after the key settles (n calls
   * before, m after), every call removes the one registered listener.
   */
  lemma AccountOnChangeDisposeAlwaysRemoves(k: PublicKey, i: ListenerId, n: nat, m: nat)
    ensures var t := ListenRun(ListenInit(), Disposals(n) + [KeySettled(Some(k), i)] + Disposals(m));
      && t.id == Some(i)
      && t.removed == seq(n + m, _ => i)
      && (n + m > 0 ==> !Listening(t))
  {
    var init := ListenInit();
    ListenRunAppend(init, Disposals(n) + [KeySettled(Some(k), i)], Disposals(m));
    ListenRunAppend(init, Disposals(n), [KeySettled(Some(k), i)]);
    QueueDisposals(init, n);
    var q := ListenRun(init, Disposals(n));
    var q' := ListenStep(q, KeySettled(Some(k), i));
    assert ListenRun(q, [KeySettled(Some(k), i)]) == q';
    SettledDisposals(q', i, m);
    assert seq(n, _ => i) + seq(m, _ => i) == seq(n + m, _ => i);
    if n + m > 0 {
      assert seq(n + m, _ => i)[0] == i;
    }
  }

  /** An undefined key registers nothing: the listener is never added, called or removed. */
  lemma {:induction false} AccountOnChangeNeedsKey(s: ListenState, evs: seq<ListenEvent>)
    requires s.id.None? && s.delivered == [] && s.removed == []
    requires forall j :: 0 <= j < |evs| && evs[j].KeySettled? ==> evs[j].key.None?
    decreases |evs|
    ensures var t := ListenRun(s, evs); t.id.None? && t.delivered == [] && t.removed == []
  {
    if evs != [] {
      assert forall j :: 0 <= j < |evs[1..]| ==> evs[1..][j] == evs[j + 1];
      AccountOnChangeNeedsKey(ListenStep(s, evs[0]), evs[1..]);
    }
  }

  lemma {:induction false} ChangesWhileListening(s: ListenState, raws: seq<RawAccount>)
    requires Listening(s)
    decreases |raws|
    ensures ListenRun(s, Changes(raws)) == s.(delivered := s.delivered + raws)
  {
    if raws == [] {
      assert s.delivered + raws == s.delivered;
    } else {
      assert Changes(raws)[1..] == Changes(raws[1..]);
      ChangesWhileListening(ListenStep(s, Changed(raws[0])), raws[1..]);
      assert s.delivered + [raws[0]] + raws[1..] == s.delivered + raws;
    }
  }

  /** Once registered, the callback receives every raw change notification, in order. */
  lemma AccountOnChangeForwardsEachChange(k: PublicKey, i: ListenerId, raws: seq<RawAccount>)
    ensures ListenRun(ListenInit(), [KeySettled(Some(k), i)] + Changes(raws)).delivered == raws
  {
    var s := ListenStep(ListenInit(), KeySettled(Some(k), i));
    assert ([KeySettled(Some(k), i)] + Changes(raws))[1..] == Changes(raws);
    ChangesWhileListening(s, raws);
  }

  /** The closure state of one `Account.onChange` call; one method per event. */
  class Listener {
    var settled: bool
    var id: Option<ListenerId>
    var queuedDisposals: nat
    var delivered: seq<RawAccount>
    var removed: seq<ListenerId>

    function State(): ListenState
      reads this
    {
      ListenState(settled, id, queuedDisposals, delivered, removed)
    }

    constructor ()
      ensures State() == ListenInit()
    {
      settled := false;
      id := None;
      queuedDisposals := 0;
      delivered := [];
      removed := [];
    }

    /** `resolvedKey` settled: register on a defined key, then run the queued disposer callbacks. */
    method OnKeySettled(key: Option<PublicKey>, newId: ListenerId)
      modifies this
      ensures State() == ListenStep(old(State()), KeySettled(key, newId))
    {
      if !settled {
        settled := true;
        if key.Some? {
          id := Some(newId);
          // each queued disposer callback now sees the assigned id
          removed := removed + seq(queuedDisposals, _ => newId);
        }
        queuedDisposals := 0;
      }
    }

    /** The connection called `callback(info)`. */
    method OnChanged(raw: RawAccount)
      modifies this
      ensures State() == ListenStep(old(State()), Changed(raw))
    {
      if id.Some? && id.value !in removed {
        delivered := delivered + [raw];
      }
    }

    /** The disposer was called: queue behind the registration, or remove the listener now. */
    method OnDisposeCalled()
      modifies this
      ensures State() == ListenStep(old(State()), DisposeCalled)
    {
      if !settled {
        queuedDisposals := queuedDisposals + 1;
      } else if id.Some? {
        removed := removed + [id.value];
      }
    }
  }
}
