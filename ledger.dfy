/** The ledger-side vocabulary used by the SDK: keys, raw account records, snapshots. */
module Ledger {

  type Byte = bv8
  type Bytes = seq<Byte>

  /** A ledger address; its 32 bytes are kept abstractly as a byte string. */
  type PublicKey = Bytes

  /** A listener id handed out by the connection's `onAccountChange`. */
  type ListenerId = nat

  /** An account record as the connection returns it; `D` is the type of its `data` field. */
  datatype AccountInfo<D> = AccountInfo(
    executable: bool,
    owner: PublicKey,
    lamports: nat,
    data: D,
    rentEpoch: nat)

  /** The record before decoding: `AccountInfo<Buffer>`. */
  type RawAccount = AccountInfo<Bytes>

  /** The accounts visible to `getAccountInfo` at the moment of a fetch; a missing key reads as null. */
  type Snapshot = map<PublicKey, RawAccount>

  /** A pluggable decoder of raw account records. */
  type Parser<T> = RawAccount -> T

  /** The record with only its `data` field replaced by the decoded value: `{ ...raw, data: parser(raw) }`. */
  function Decode<T>(raw: RawAccount, parser: Parser<T>): (r: AccountInfo<T>)
    ensures r.data == parser(raw)
    ensures r.executable == raw.executable && r.owner == raw.owner
    ensures r.lamports == raw.lamports && r.rentEpoch == raw.rentEpoch
  {
    AccountInfo(raw.executable, raw.owner, raw.lamports, parser(raw), raw.rentEpoch)
  }
}
