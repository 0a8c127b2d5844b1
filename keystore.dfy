/**
  The per-user key slot of `src/utils/encryption.js`: each user's key lives
  in localStorage under `encryption_key_<userId>`, and `initializeEncryption`
  returns the stored key or generates, stores and returns a new one.
  localStorage is a map from item names to strings; `setItem` may throw
  (a full quota, private browsing), which `storeEncryptionKey` turns into
  `false` and `initializeEncryption` then ignores.
*/
module KeyStore {
  import opened Js
  import CipherEngine

  const SlotPrefix := "encryption_key_"

  /** The item name of a user's key. */
  function Slot(userId: string): (name: string)
    ensures |name| == |SlotPrefix| + |userId|
    ensures name[..|SlotPrefix|] == SlotPrefix
  {
    SlotPrefix + userId
  }

  /** Different users never share a slot. */
  lemma SlotInjective(u: string, v: string)
    requires Slot(u) == Slot(v)
    ensures u == v
  {
    assert u == Slot(u)[|SlotPrefix|..];
    assert v == Slot(v)[|SlotPrefix|..];
  }

  /** `localStorage.getItem(Slot(userId))`: None stands for null. */
  function Lookup(items: map<string, string>, userId: string): (key: Option<string>)
    ensures key.Some? <==> Slot(userId) in items
    ensures key.Some? ==> key.value == items[Slot(userId)]
  {
    if Slot(userId) in items then Some(items[Slot(userId)]) else None
  }

  /** `localStorage.setItem(Slot(userId), keyB64)` when it succeeds. */
  function Put(items: map<string, string>, userId: string, keyB64: string): map<string, string>
  {
    items[Slot(userId) := keyB64]
  }

  /** Reading a slot right after writing it gives the written key; every
      other user's slot reads as before. */
  lemma LookupPut(items: map<string, string>, userId: string, keyB64: string, other: string)
    ensures Lookup(Put(items, userId, keyB64), userId) == Some(keyB64)
    ensures other != userId ==> Lookup(Put(items, userId, keyB64), other) == Lookup(items, other)
  {
    if other != userId && Slot(other) == Slot(userId) {
      SlotInjective(other, userId);
    }
  }

  /** `!key` in `initializeEncryption`: a null or empty item counts as no key. */
  predicate HasKey(items: map<string, string>, userId: string)
  {
    Lookup(items, userId).Some? && Lookup(items, userId).value != ""
  }

  /** What `initializeEncryption` returns and leaves in localStorage, given the
      outcome of key generation and whether `setItem` succeeds. */
  function InitOutcome(items: map<string, string>, userId: string,
                       generated: Result<string, CipherEngine.CryptoError>, stored: bool)
    : (out: (map<string, string>, Result<string, CipherEngine.CryptoError>))
    ensures HasKey(items, userId) ==> out == (items, Success(Lookup(items, userId).value))
    ensures !HasKey(items, userId) ==> out.1 == generated
    ensures out.0 != items ==> !HasKey(items, userId) && generated.Success? && stored
    ensures !HasKey(items, userId) && generated.Success? && stored ==> Lookup(out.0, userId) == Some(generated.value)
  {
    if HasKey(items, userId) then (items, Success(Lookup(items, userId).value))
    else
      match generated
      case Failure(e) => (items, Failure(e))
      case Success(k) =>
        LookupPut(items, userId, k, userId);
        (if stored then Put(items, userId, k) else items, Success(k))
  }

  /** A second initialisation returns the first one's key and writes nothing,
      whatever generation and storage would do the second time, provided the
      first one stored its key. */
  lemma InitTwice(items: map<string, string>, userId: string,
                  g1: Result<string, CipherEngine.CryptoError>,
                  g2: Result<string, CipherEngine.CryptoError>, stored2: bool)
    requires g1.Success? ==> g1.value != ""
    requires InitOutcome(items, userId, g1, true).1.Success?
    ensures var (after, r1) := InitOutcome(items, userId, g1, true);
      InitOutcome(after, userId, g2, stored2) == (after, r1)
  {
    var (after, r1) := InitOutcome(items, userId, g1, true);
    if !HasKey(items, userId) {
      LookupPut(items, userId, g1.value, userId);
    }
  }

  /** When `setItem` fails the returned key is not persisted: the next call
      generates again and returns whatever that generation gives. */
  lemma InitNotPersisted(items: map<string, string>, userId: string,
                         g1: Result<string, CipherEngine.CryptoError>,
                         g2: Result<string, CipherEngine.CryptoError>, stored2: bool)
    requires !HasKey(items, userId)
    ensures var (after, _) := InitOutcome(items, userId, g1, false);
      after == items && InitOutcome(after, userId, g2, stored2).1 == g2
  {
  }

  /** Initialisation touches no other user's slot. */
  lemma InitOthersUnchanged(items: map<string, string>, userId: string,
                            g: Result<string, CipherEngine.CryptoError>, stored: bool, other: string)
    requires other != userId
    ensures Lookup(InitOutcome(items, userId, g, stored).0, other) == Lookup(items, other)
  {
    if !HasKey(items, userId) && g.Success? && stored {
      LookupPut(items, userId, g.value, other);
    }
  }

  /** A key returned by initialisation is never empty when generated keys are not. */
  lemma InitKeyNonEmpty(items: map<string, string>, userId: string,
                        g: Result<string, CipherEngine.CryptoError>, stored: bool)
    requires g.Success? ==> g.value != ""
    requires InitOutcome(items, userId, g, stored).1.Success?
    ensures InitOutcome(items, userId, g, stored).1.value != ""
  {
  }

  /** `window.localStorage` */
  class Storage {
    var items: map<string, string>

    constructor (initial: map<string, string>)
      ensures items == initial
    {
      items := initial;
    }

    /** `storeEncryptionKey`: true when `setItem` succeeds, false when it throws. */
    method StoreEncryptionKey(keyB64: string, userId: string, quotaExceeded: bool) returns (ok: bool)
      modifies this
      ensures ok == !quotaExceeded
      ensures items == if ok then Put(old(items), userId, keyB64) else old(items)
    {
      if quotaExceeded {
        return false;
      }
      items := Put(items, userId, keyB64);
      return true;
    }

    /** `getEncryptionKey` */
    method GetEncryptionKey(userId: string) returns (key: Option<string>)
      ensures key.Some? <==> Slot(userId) in items
      ensures key.Some? ==> key.value == items[Slot(userId)]
    {
      if Slot(userId) in items {
        return Some(items[Slot(userId)]);
      }
      return None;
    }

    /** `initializeEncryption`: the stored key if there is one, otherwise a
        generated key, stored (the result of storing is ignored) and returned.
        A failed generation is rethrown and leaves localStorage as it was. */
    method InitializeEncryption(userId: string, subtleAvailable: bool, quotaExceeded: bool)
      returns (r: Result<string, CipherEngine.CryptoError>, ghost generated: Result<string, CipherEngine.CryptoError>)
      modifies this
      ensures !HasKey(old(items), userId) ==> (generated.Success? <==> subtleAvailable)
      ensures generated.Success? ==> CipherEngine.ImportKey(generated.value).Success?
      ensures generated.Success? ==> generated.value != ""
      ensures (items, r) == InitOutcome(old(items), userId, generated, !quotaExceeded)
    {
      generated := Failure(CipherEngine.CryptoUnavailable);
      var key := GetEncryptionKey(userId);
      if key.Some? && key.value != "" {
        return Success(key.value), generated;
      }
      var made := CipherEngine.GenerateEncryptionKey(subtleAvailable);
      generated := made;
      if made.Failure? {
        return made, generated;
      }
      var _ := StoreEncryptionKey(made.value, userId, quotaExceeded);
      r := made;
    }
  }
}
