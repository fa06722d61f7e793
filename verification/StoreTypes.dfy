/** The contents of the store and the operations that reach it, live or by replay. */
module StoreTypes {
  /** `exp` is a time in Unix milliseconds; 0 means that the entry never expires. */
  datatype Entry = Entry(value: string, exp: int)

  type Data = map<string, Entry>

  datatype Op =
    | Put(key: string, val: string)
    | Del(key: string)
    | Ttl(key: string, exp: int)
    | Noop
    | Config
    | HotStuff
    | Membership

  predicate Expired(e: Entry, now: int) {
    e.exp != 0 && e.exp <= now
  }

  /** Sets an absolute expiry. A key that has expired meanwhile is removed instead. */
  function TtlAt(d: Data, key: string, exp: int, now: int): Data {
    if key !in d then d
    else if Expired(d[key], now) then d - {key}
    else d[key := d[key].(exp := exp)]
  }

  /** The effect of one operation on the contents, read at time `now`. */
  function ApplyRecord(d: Data, op: Op, now: int): Data {
    match op
    case Put(k, v) => d[k := Entry(v, 0)]
    case Del(k) => d - {k}
    case Ttl(k, exp) => TtlAt(d, k, exp, now)
    case _ => d
  }

  /** What a snapshot taken at time `now` holds: everything but the expired entries. */
  function Snapshot(d: Data, now: int): Data {
    map k | k in d && !Expired(d[k], now) :: d[k]
  }
}
