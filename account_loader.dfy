/**
 * The account loader: a key (given, or produced by a getter), a parser and a
 * connection, composed into `key`, `info` and `onChange`. The `stream`
 * operation lives in module AccountStream.
 */
module AccountLoader {
  import opened Wrappers
  import opened Ledger

  /** `KeyOrGetter`: a concrete key, or a getter whose promise settles to a key or to undefined. */
  datatype KeyOrGetter = Concrete(key: PublicKey) | Getter(resolvesTo: Option<PublicKey>)

  /** What `AccountLoader(ctx, getter, accountParser)` closes over; the connection is passed per call. */
  datatype Loader<T> = Loader(source: KeyOrGetter, parser: Parser<T>)

  datatype LoadError =
    | UndefinedKey     // the getter settled to undefined, so `key.toString()` throws
    | InfoNotFetched   // "info couldnt be fetched": the connection returned null

  /** `getKey`: a concrete key is wrapped in a resolved promise, a getter is called. */
  function GetKey(source: KeyOrGetter): Option<PublicKey>
  {
    match source
    case Concrete(k) => Some(k)
    case Getter(r) => r
  }

  /** `key()`: awaits `getKey()`. */
  function Key<T>(l: Loader<T>): (r: Option<PublicKey>)
    ensures l.source.Concrete? ==> r == Some(l.source.key)
    ensures l.source.Getter? ==> r == l.source.resolvesTo
  {
    GetKey(l.source)
  }

  /** `info()`: fetch the account at the key and replace its `data` by the parsed value. */
  function Info<T>(l: Loader<T>, chain: Snapshot): (r: Result<AccountInfo<T>, LoadError>)
    ensures (r.Err? && r.error == UndefinedKey) <==> Key(l).None?
    ensures (r.Err? && r.error == InfoNotFetched) <==> (Key(l).Some? && Key(l).value !in chain)
    ensures r.Ok? ==>
      && Key(l).Some? && Key(l).value in chain
      && r.value.data == l.parser(chain[Key(l).value])
      && r.value.executable == chain[Key(l).value].executable
      && r.value.owner == chain[Key(l).value].owner
      && r.value.lamports == chain[Key(l).value].lamports
      && r.value.rentEpoch == chain[Key(l).value].rentEpoch
  {
    match Key(l)
    case None => Err(UndefinedKey)
    case Some(k) => if k in chain then Ok(Decode(chain[k], l.parser)) else Err(InfoNotFetched)
  }

  // ---------------------------------------------------------------------------
  // onChange, as an event-ordered state machine
  // ---------------------------------------------------------------------------

  /**
   * The events that drive one `onChange` call:
   *  - KeyResolved: the registration's `getKey()` settled; when the key is defined,
   *    `onAccountChange` is called and hands out the id `newId`;
   *  - Changed: the connection calls the registered listener with a raw record;
   *  - DisposerKeyResolved: the disposer was called and its own `getKey()` settled.
   */
  datatype ChangeEvent =
    | KeyResolved(key: Option<PublicKey>, newId: ListenerId)
    | Changed(raw: RawAccount)
    | DisposerKeyResolved

  /** The closure variable `id`, the values passed to `callback`, the ids passed to `removeAccountChangeListener`. */
  datatype ChangeState<T> = ChangeState(id: Option<ListenerId>, delivered: seq<T>, removed: seq<ListenerId>)

  function ChangeInit<T>(): ChangeState<T>
  {
    ChangeState(None, [], [])
  }

  /** The connection calls the listener only while it is registered and not yet removed. */
  predicate Listening<T>(s: ChangeState<T>)
  {
    s.id.Some? && s.id.value !in s.removed
  }

  function ChangeStep<T>(parser: Parser<T>, s: ChangeState<T>, e: ChangeEvent): ChangeState<T>
  {
    match e
    case KeyResolved(k, i) => if k.None? then s else s.(id := Some(i))
    case Changed(raw) => if Listening(s) then s.(delivered := s.delivered + [parser(raw)]) else s
    case DisposerKeyResolved => if s.id.Some? then s.(removed := s.removed + [s.id.value]) else s
  }

  /** The state after the events `evs`, taken in order, starting from `s`. */
  function ChangeRun<T>(parser: Parser<T>, s: ChangeState<T>, evs: seq<ChangeEvent>): ChangeState<T>
    decreases |evs|
  {
    if evs == [] then s else ChangeRun(parser, ChangeStep(parser, s, evs[0]), evs[1..])
  }

  /** One change notification per raw record, in order. */
  function Changes(raws: seq<RawAccount>): (evs: seq<ChangeEvent>)
    ensures |evs| == |raws|
    ensures forall j :: 0 <= j < |raws| ==> evs[j] == Changed(raws[j])
  {
    seq(|raws|, j requires 0 <= j < |raws| => Changed(raws[j]))
  }

  lemma {:induction false} ChangesWhileListening<T>(parser: Parser<T>, s: ChangeState<T>, raws: seq<RawAccount>)
    requires Listening(s)
    decreases |raws|
    ensures var t := ChangeRun(parser, s, Changes(raws));
      && t.id == s.id && t.removed == s.removed
      && |t.delivered| == |s.delivered| + |raws|
      && t.delivered[..|s.delivered|] == s.delivered
      && forall j :: 0 <= j < |raws| ==> t.delivered[|s.delivered| + j] == parser(raws[j])
  {
    if raws != [] {
      var s' := ChangeStep(parser, s, Changed(raws[0]));
      assert Changes(raws)[1..] == Changes(raws[1..]);
      ChangesWhileListening(parser, s', raws[1..]);
      var t := ChangeRun(parser, s', Changes(raws[1..]));
      assert t.delivered[..|s.delivered|] == t.delivered[..|s'.delivered|][..|s.delivered|];
      forall j | 0 <= j < |raws|
        ensures t.delivered[|s.delivered| + j] == parser(raws[j])
      {
        if j == 0 {
          assert t.delivered[|s.delivered|] == t.delivered[..|s'.delivered|][|s.delivered|];
        } else {
          assert raws[1..][j - 1] == raws[j];
        }
      }
    }
  }

  lemma {:induction false} ChangesWhileSilent<T>(parser: Parser<T>, s: ChangeState<T>, raws: seq<RawAccount>)
    requires !Listening(s)
    ensures ChangeRun(parser, s, Changes(raws)) == s
  {
    if raws != [] {
      assert Changes(raws)[1..] == Changes(raws[1..]);
      ChangesWhileSilent(parser, s, raws[1..]);
    }
  }

  /** Once registered, every change notification reaches the callback as `accountParser(raw)`, in order. */
  lemma OnChangeForwardsEachChange<T>(parser: Parser<T>, k: PublicKey, i: ListenerId, raws: seq<RawAccount>)
    ensures var t := ChangeRun(parser, ChangeInit(), [KeyResolved(Some(k), i)] + Changes(raws));
      && |t.delivered| == |raws|
      && forall j :: 0 <= j < |raws| ==> t.delivered[j] == parser(raws[j])
  {
    var evs := [KeyResolved(Some(k), i)] + Changes(raws);
    var s := ChangeStep(parser, ChangeInit(), KeyResolved(Some(k), i));
    assert evs[0] == KeyResolved(Some(k), i) && evs[1..] == Changes(raws);
    assert ChangeRun(parser, ChangeInit(), evs) == ChangeRun(parser, s, Changes(raws));
    ChangesWhileListening(parser, s, raws);
  }

  /** A key that resolves to undefined registers no listener, delivers nothing and removes nothing. */
  lemma {:induction false} OnChangeUndefinedKeyRegistersNothing<T>(parser: Parser<T>, evs: seq<ChangeEvent>)
    requires forall j :: 0 <= j < |evs| && evs[j].KeyResolved? ==> evs[j].key.None?
    ensures ChangeRun(parser, ChangeInit(), evs) == ChangeInit()
  {
    if evs != [] {
      assert ChangeStep(parser, ChangeInit(), evs[0]) == ChangeInit();
      assert forall j :: 0 <= j < |evs[1..]| ==> evs[1..][j] == evs[j + 1];
      OnChangeUndefinedKeyRegistersNothing(parser, evs[1..]);
    }
  }

  /** The disposer removes nothing when no id was assigned. */
  lemma OnChangeDisposeWithoutIdRemovesNothing<T>(parser: Parser<T>, s: ChangeState<T>)
    requires s.id.None?
    ensures ChangeRun(parser, s, [DisposerKeyResolved]) == s
  {
    assert [DisposerKeyResolved][1..] == [];
  }

  /** Disposed after registration: the assigned id is removed and later changes are not forwarded. */
  lemma OnChangeDisposeRemovesListener<T>(parser: Parser<T>, k: PublicKey, i: ListenerId, raws: seq<RawAccount>)
    ensures var t := ChangeRun(parser, ChangeInit(), [KeyResolved(Some(k), i), DisposerKeyResolved] + Changes(raws));
      t.id == Some(i) && t.removed == [i] && t.delivered == []
  {
    var evs := [KeyResolved(Some(k), i), DisposerKeyResolved] + Changes(raws);
    var s1 := ChangeStep(parser, ChangeInit(), KeyResolved(Some(k), i));
    var s2 := ChangeStep(parser, s1, DisposerKeyResolved);
    assert evs[1..][1..] == Changes(raws);
    ChangesWhileSilent(parser, s2, raws);
  }

  /**
   * The disposer's `getKey()` is a fresh promise: when it settles before the
   * registration's, no id has been assigned yet, nothing is removed, and the
   * listener registered afterwards keeps forwarding every change.
   */
  lemma OnChangeDisposeBeforeRegistrationKeepsListener<T>(parser: Parser<T>, k: PublicKey, i: ListenerId, raws: seq<RawAccount>)
    ensures var t := ChangeRun(parser, ChangeInit(), [DisposerKeyResolved, KeyResolved(Some(k), i)] + Changes(raws));
      && t.removed == [] && Listening(t)
      && |t.delivered| == |raws|
      && forall j :: 0 <= j < |raws| ==> t.delivered[j] == parser(raws[j])
  {
    var evs := [DisposerKeyResolved, KeyResolved(Some(k), i)] + Changes(raws);
    var s1 := ChangeStep(parser, ChangeInit(), DisposerKeyResolved);
    assert s1 == ChangeInit();
    var s2 := ChangeStep(parser, s1, KeyResolved(Some(k), i));
    assert evs[1..][1..] == Changes(raws);
    ChangesWhileListening(parser, s2, raws);
  }

  /** The closure state of one `onChange` call; one method per event. */
  class ChangeSubscription<T> {
    const parser: Parser<T>
    var id: Option<ListenerId>
    var delivered: seq<T>
    var removed: seq<ListenerId>

    function State(): ChangeState<T>
      reads this
    {
      ChangeState(id, delivered, removed)
    }

    constructor (p: Parser<T>)
      ensures parser == p && State() == ChangeInit()
    {
      parser := p;
      id := None;
      delivered := [];
      removed := [];
    }

    /** The registration's `getKey()` settled: `if (!key) return; id = connection.onAccountChange(...)`. */
    method OnKeyResolved(key: Option<PublicKey>, newId: ListenerId)
      modifies this
      ensures State() == ChangeStep(parser, old(State()), KeyResolved(key, newId))
    {
      if key.Some? {
        id := Some(newId);
      }
    }

    /** The connection invoked the listener: `callback(accountParser(info))`. */
    method OnChanged(raw: RawAccount)
      modifies this
      ensures State() == ChangeStep(parser, old(State()), Changed(raw))
    {
      if id.Some? && id.value !in removed {
        delivered := delivered + [parser(raw)];
      }
    }

    /** The disposer's `getKey()` settled: remove the listener only if an id was assigned. */
    method OnDisposerKeyResolved()
      modifies this
      ensures State() == ChangeStep(parser, old(State()), DisposerKeyResolved)
    {
      if id.Some? {
        removed := removed + [id.value];
      }
    }
  }

  // ---------------------------------------------------------------------------
  // Composition: loaders whose key is derived
  // ---------------------------------------------------------------------------

  /** A seed of a program-derived address: a key or a string. */
  datatype Seed = KeySeed(key: PublicKey) | TextSeed(text: string)

  /** `PDA(ctx, programId, seeds, parser)`: the key is what `ctx.utils.getPDA` derives from the seeds. */
  function PDA<T>(getPDA: (PublicKey, seq<Seed>) -> PublicKey, programId: PublicKey, seeds: seq<Seed>, parser: Parser<T>): (l: Loader<T>)
    ensures Key(l) == Some(getPDA(programId, seeds))
    ensures forall chain: Snapshot :: Info(l, chain).Err? <==> getPDA(programId, seeds) !in chain
  {
    Loader(Getter(Some(getPDA(programId, seeds))), parser)
  }

  /** `AssociatedToken(ctx, mint)`: a token loader at the wallet's associated token address for `mint`. */
  function AssociatedToken<T>(findAssociatedTokenAddress: (PublicKey, PublicKey) -> PublicKey, wallet: PublicKey, mint: PublicKey, tokenParser: Parser<T>): (l: Loader<T>)
    ensures Key(l) == Some(findAssociatedTokenAddress(wallet, mint))
  {
    Loader(Getter(Some(findAssociatedTokenAddress(wallet, mint))), tokenParser)
  }

  /** A derived-address loader reads exactly what a loader given the derived key reads. */
  lemma PDAReadsDerivedAddress<T>(getPDA: (PublicKey, seq<Seed>) -> PublicKey, programId: PublicKey, seeds: seq<Seed>, parser: Parser<T>, chain: Snapshot)
    ensures Info(PDA(getPDA, programId, seeds, parser), chain) == Info(Loader(Concrete(getPDA(programId, seeds)), parser), chain)
  {
  }
}
