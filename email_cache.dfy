/**
 * The email cache of src/utils/emailCache.ts: a best-effort cache of the last
 * fetched message list in the browser's key/value storage, under two fixed
 * keys, with a five-minute freshness window.
 *
 * The storage is a `map<string, string>` owned by an `EmailCache` object and
 * the wall clock (`Date.now()`) is a field the caller advances. Whether a
 * `setItem` call throws (quota exceeded) is decided by the storage, outside
 * this code, and is passed to `Save` as a `WriteFault`.
 */
module EmailCacheStore {
  import opened Wrappers
  import opened JsText
  import opened EmailTypes
  import opened EmailCodec

  const EMAIL_CACHE_KEY: string := "cached_emails"
  const CACHE_TIMESTAMP_KEY: string := "emails_cache_timestamp"
  /** Five minutes, in milliseconds. */
  const CACHE_DURATION: int := 5 * 60 * 1000

  /** Which of the two `setItem` calls of `save`, if any, throws. */
  datatype WriteFault = NoFault | EmailsWriteFails | TimestampWriteFails

  type Store = map<string, string>

  /** `localStorage.getItem(key)`: `None` is `null`. */
  function GetItem(store: Store, key: string): Option<string> {
    if key in store then Some(store[key]) else None
  }

  /** What `get()` returns for a given storage content. */
  function CachedEmails(store: Store): (r: Option<seq<EmailMessage>>)
    ensures EMAIL_CACHE_KEY !in store || store[EMAIL_CACHE_KEY] == "" ==> r == None
    ensures EMAIL_CACHE_KEY in store && Decode(store[EMAIL_CACHE_KEY]) == None ==> r == None
    ensures r.Some? ==> EMAIL_CACHE_KEY in store && Decode(store[EMAIL_CACHE_KEY]) == r
    ensures EMAIL_CACHE_KEY in store && store[EMAIL_CACHE_KEY] != "" ==> r == Decode(store[EMAIL_CACHE_KEY])
  {
    match GetItem(store, EMAIL_CACHE_KEY)
    case None => None
    case Some(cached) => if cached == "" then None else Decode(cached)
  }

  /** What `isExpired()` returns for a given storage content and clock. */
  function Expired(store: Store, now: int): bool {
    match GetItem(store, CACHE_TIMESTAMP_KEY)
    case None => true
    case Some(timestamp) =>
      if timestamp == "" then true
      else
        match ParseInt(timestamp)
        // `Date.now() - NaN > CACHE_DURATION` is false.
        case None => false
        case Some(savedAt) => now - savedAt > CACHE_DURATION
  }

  /** The storage after `save(emails)` at clock `now`, given which write throws. */
  function StoreAfterSave(store: Store, emails: seq<EmailMessage>, now: nat, fault: WriteFault): (s: Store)
    ensures forall k :: k in s <==> k in store || (k == EMAIL_CACHE_KEY && !fault.EmailsWriteFails?)
                                    || (k == CACHE_TIMESTAMP_KEY && fault.NoFault?)
    ensures forall k :: k in store && k != EMAIL_CACHE_KEY && k != CACHE_TIMESTAMP_KEY ==> s[k] == store[k]
  {
    assert |EMAIL_CACHE_KEY| != |CACHE_TIMESTAMP_KEY|;
    match fault
    case EmailsWriteFails => store
    case TimestampWriteFails => store[EMAIL_CACHE_KEY := Encode(emails)]
    case NoFault => store[EMAIL_CACHE_KEY := Encode(emails)][CACHE_TIMESTAMP_KEY := NatToString(now)]
  }

  /** The storage after `clear()`. */
  function StoreAfterClear(store: Store): (s: Store)
    ensures s.Keys == store.Keys - {EMAIL_CACHE_KEY, CACHE_TIMESTAMP_KEY}
    ensures forall k :: k in s ==> s[k] == store[k]
  {
    store - {EMAIL_CACHE_KEY, CACHE_TIMESTAMP_KEY}
  }

  class EmailCache {
    /** The browser storage, shared with every other user of it. */
    var store: Store
    /** `Date.now()`, in milliseconds since the epoch. */
    var now: nat

    constructor (initial: Store, clock: nat)
      ensures store == initial && now == clock
    {
      store := initial;
      now := clock;
    }

    /** The clock moves forward by `ms` milliseconds. */
    method Tick(ms: nat)
      modifies this`now
      ensures now == old(now) + ms
    {
      now := now + ms;
    }

    /**
     * `save(emails)`: write the list, then the clock. A throwing `setItem` is
     * caught and logged, so nothing reaches the caller; a write that has
     * already happened stays.
     */
    method Save(emails: seq<EmailMessage>, fault: WriteFault)
      modifies this`store
      ensures store == StoreAfterSave(old(store), emails, now, fault)
    {
      if fault.EmailsWriteFails? {
        return;
      }
      store := store[EMAIL_CACHE_KEY := Encode(emails)];
      if fault.TimestampWriteFails? {
        return;
      }
      store := store[CACHE_TIMESTAMP_KEY := NatToString(now)];
    }

    /** `get()`: the cached list, or `None` when absent, empty or undecodable. */
    method Get() returns (r: Option<seq<EmailMessage>>)
      ensures r == CachedEmails(store)
    {
      var cached := GetItem(store, EMAIL_CACHE_KEY);
      if cached.None? || cached.value == "" {
        return None;
      }
      r := Decode(cached.value);
    }

    /** `isExpired()`: whether the stored clock value is missing or too old. */
    method IsExpired() returns (expired: bool)
      ensures expired == Expired(store, now)
    {
      var timestamp := GetItem(store, CACHE_TIMESTAMP_KEY);
      if timestamp.None? || timestamp.value == "" {
        return true;
      }
      var savedAt := ParseInt(timestamp.value);
      expired := savedAt.Some? && now - savedAt.value > CACHE_DURATION;
    }

    /** `clear()`: remove both cache keys. */
    method Clear()
      modifies this`store
      ensures store == StoreAfterClear(old(store))
    {
      store := store - {EMAIL_CACHE_KEY};
      store := store - {CACHE_TIMESTAMP_KEY};
    }
  }

  // ---------------------------------------------------------------------------
  // Properties of the cache
  // ---------------------------------------------------------------------------

  /** After a `save` whose list write went through, `get` returns that list. */
  lemma SaveThenGet(store: Store, emails: seq<EmailMessage>, now: nat, fault: WriteFault)
    requires !fault.EmailsWriteFails?
    ensures CachedEmails(StoreAfterSave(store, emails, now, fault)) == Some(emails)
  {
    DecodeEncode(emails);
  }

  /** A `save` whose first write throws changes nothing at all. */
  lemma FailedSaveChangesNothing(store: Store, emails: seq<EmailMessage>, now: nat)
    ensures StoreAfterSave(store, emails, now, EmailsWriteFails) == store
  {
  }

  /** A `save` whose second write throws keeps the older clock value. */
  lemma PartialSaveKeepsTimestamp(store: Store, emails: seq<EmailMessage>, now: nat, later: int)
    ensures Expired(StoreAfterSave(store, emails, now, TimestampWriteFails), later) == Expired(store, later)
  {
  }

  /** Saving the same list twice at the same clock is the same as saving it once. */
  lemma SaveIdempotent(store: Store, emails: seq<EmailMessage>, now: nat, fault: WriteFault)
    ensures StoreAfterSave(StoreAfterSave(store, emails, now, fault), emails, now, fault)
         == StoreAfterSave(store, emails, now, fault)
  {
  }

  /** A later `save` replaces the earlier list; nothing is appended. */
  lemma SaveOverwrites(store: Store, first: seq<EmailMessage>, second: seq<EmailMessage>, now: nat, later: nat)
    ensures CachedEmails(StoreAfterSave(StoreAfterSave(store, first, now, NoFault), second, later, NoFault))
         == Some(second)
  {
    SaveThenGet(StoreAfterSave(store, first, now, NoFault), second, later, NoFault);
  }

  /** With no clock value stored (or an empty one), the cache counts as expired. */
  lemma ExpiredWithoutTimestamp(store: Store, now: int)
    requires CACHE_TIMESTAMP_KEY !in store || store[CACHE_TIMESTAMP_KEY] == ""
    ensures Expired(store, now)
  {
  }

  /**
   * After a complete `save` at clock `savedAt`, the cache is expired at clock
   * `now` exactly when more than five minutes have passed.
   */
  lemma ExpiryAfterSave(store: Store, emails: seq<EmailMessage>, savedAt: nat, now: int)
    ensures Expired(StoreAfterSave(store, emails, savedAt, NoFault), now) <==> now - savedAt > 300000
  {
    ParseIntOfNatToString(savedAt);
  }

  /** At exactly five minutes the cache is still fresh; one millisecond later it is not. */
  lemma ExpiryBoundary(store: Store, emails: seq<EmailMessage>, savedAt: nat)
    ensures !Expired(StoreAfterSave(store, emails, savedAt, NoFault), savedAt)
    ensures !Expired(StoreAfterSave(store, emails, savedAt, NoFault), savedAt + CACHE_DURATION)
    ensures Expired(StoreAfterSave(store, emails, savedAt, NoFault), savedAt + CACHE_DURATION + 1)
  {
    ExpiryAfterSave(store, emails, savedAt, savedAt);
    ExpiryAfterSave(store, emails, savedAt, savedAt + CACHE_DURATION);
    ExpiryAfterSave(store, emails, savedAt, savedAt + CACHE_DURATION + 1);
  }

  /** A stored clock value with no decimal digit parses to NaN, and then the cache never expires. */
  lemma NonNumericTimestampNeverExpires(store: Store, now: int)
    requires CACHE_TIMESTAMP_KEY in store && store[CACHE_TIMESTAMP_KEY] != ""
    requires forall i :: 0 <= i < |store[CACHE_TIMESTAMP_KEY]| ==> !IsDigit(store[CACHE_TIMESTAMP_KEY][i])
    ensures !Expired(store, now)
  {
    ParseIntWithoutDigits(store[CACHE_TIMESTAMP_KEY]);
  }

  /** After `clear`, `get` finds nothing and the cache is expired, whatever the clock. */
  lemma ClearEmptiesCache(store: Store, now: int)
    ensures CachedEmails(StoreAfterClear(store)) == None
    ensures Expired(StoreAfterClear(store), now)
  {
  }

  /** `clear` twice is `clear` once. */
  lemma ClearIdempotent(store: Store)
    ensures StoreAfterClear(StoreAfterClear(store)) == StoreAfterClear(store)
  {
  }

  /** `save` followed by `clear` leaves the storage as `clear` alone would. */
  lemma SaveThenClear(store: Store, emails: seq<EmailMessage>, now: nat, fault: WriteFault)
    ensures StoreAfterClear(StoreAfterSave(store, emails, now, fault)) == StoreAfterClear(store)
  {
  }
}
