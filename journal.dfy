/**
  `src/utils/journalService.js`: journal entries become rows of the
  `journal_entries` table and back. Only `content` is encrypted (with the
  user's key from the key slot); `mood`, `tags` and `created_at` stay
  plaintext so that the store can filter and sort on them. The store is a
  sequence of rows plus a count of the requests sent to it; its network
  failures are boolean parameters, the clock and the ids it generates are
  parameters too.
*/
module JournalService {
  import opened Js
  import CipherEngine
  import KeyStore

  /** The text a row gets when its content cannot be decrypted. */
  const DecryptionSentinel := "[Encryption error: Could not decrypt content]"

  /** The columns the service filters on: none of them holds journal text. */
  const PlaintextColumns: set<string> := {"id", "user_id", "created_at", "mood", "tags"}

  /** The `error.message` cases of the service's `{success: false}` results. */
  datatype Failure =
    | KeyNotInitialised          // 'Failed to initialize encryption'
    | KeyNotFound                // 'Encryption key not found'
    | EntryNotFound              // 'Journal entry not found'
    | Crypto(cause: CipherEngine.CryptoError)
    | StoreRejected              // an error returned by the store
    | NotSingleRow               // `.single()` found zero rows or several

  // ---------------------------------------------------------------------
  // Record <-> row transforms
  // ---------------------------------------------------------------------

  /** The row `saveJournalEntry` inserts (lines 21-27). */
  function NewRow(userId: string, encrypted: string, entry: Object, createdAt: string): (row: Object)
    ensures row.Keys == {"user_id", "encrypted_content", "mood", "tags", "created_at"}
    ensures "content" !in row
    ensures row["encrypted_content"] == Str(encrypted)
    ensures row["mood"] == (if Truthy(Get(entry, "mood")) then Get(entry, "mood") else Null)
    ensures row["tags"] == (if Truthy(Get(entry, "tags")) then Get(entry, "tags") else Null)
  {
    map["user_id" := Str(userId),
        "encrypted_content" := Str(encrypted),
        "mood" := Or(Get(entry, "mood"), Null),
        "tags" := Or(Get(entry, "tags"), Null),
        "created_at" := Str(createdAt)]
  }

  /** The content a read gives for a row: the decrypted value, or the
      sentinel when decryption throws. */
  function RevealedContent(c: CipherEngine.Aead, row: Object, keyB64: string): Value
  {
    match CipherEngine.DecryptWith(c, Text(Get(row, "encrypted_content")), keyB64)
    case Success(v) => v
    case Failure(_) => Str(DecryptionSentinel)
  }

  /** `{...entry, content, encrypted_content: undefined}` */
  function WithContent(row: Object, content: Value): (r: Object)
    ensures r.Keys == row.Keys + {"content", "encrypted_content"}
    ensures r["content"] == content && r["encrypted_content"] == Undefined
    ensures forall k | k in row && k != "content" && k != "encrypted_content" :: r[k] == row[k]
  {
    row["content" := content]["encrypted_content" := Undefined]
  }

  /** One element of the batch read (lines 97-113). */
  function RevealRow(c: CipherEngine.Aead, row: Object, keyB64: string): (r: Object)
    ensures r.Keys == row.Keys + {"content", "encrypted_content"}
    ensures r["encrypted_content"] == Undefined && r["content"] != Undefined
    ensures forall k | k in row && k != "content" && k != "encrypted_content" :: r[k] == row[k]
  {
    WithContent(row, RevealedContent(c, row, keyB64))
  }

  /** The batch read: one result per fetched row, in the same order, each
      depending on its own row only. */
  function RevealRows(c: CipherEngine.Aead, rows: seq<Object>, keyB64: string): (r: seq<Object>)
    ensures |r| == |rows|
    ensures forall i | 0 <= i < |rows| :: r[i] == RevealRow(c, rows[i], keyB64)
  {
    seq(|rows|, i requires 0 <= i < |rows| => RevealRow(c, rows[i], keyB64))
  }

  /** A row that fails to decrypt gets the sentinel and every other field
      unchanged; it does not affect any other row of the batch. */
  lemma RevealRowsIsolated(c: CipherEngine.Aead, rows: seq<Object>, keyB64: string, j: nat, replacement: Object)
    requires j < |rows|
    ensures var after := RevealRows(c, rows[j := replacement], keyB64);
      forall i | 0 <= i < |rows| && i != j :: after[i] == RevealRows(c, rows, keyB64)[i]
  {
  }

  lemma RevealFailure(c: CipherEngine.Aead, row: Object, keyB64: string)
    requires CipherEngine.DecryptWith(c, Text(Get(row, "encrypted_content")), keyB64).Failure?
    ensures RevealRow(c, row, keyB64)["content"] == Str(DecryptionSentinel)
    ensures forall k | k in row && k != "content" && k != "encrypted_content" ::
      RevealRow(c, row, keyB64)[k] == row[k]
  {
  }

  /** A row saved with a key reads back, under the same key, with the saved
      content, the saved mood and tags (or null), and no ciphertext. */
  lemma ReadAfterSave(c: CipherEngine.Aead, userId: string, entry: Object, keyB64: string,
                      iv: seq<Byte>, createdAt: string, id: string)
    requires CipherEngine.Authenticated(c) && |iv| == CipherEngine.IvLength
    requires CipherEngine.ImportKey(keyB64).Success? && Get(entry, "content") != Undefined
    ensures CipherEngine.EncryptWith(c, Get(entry, "content"), keyB64, iv).Success?
    ensures var enc := CipherEngine.EncryptWith(c, Get(entry, "content"), keyB64, iv).value;
      var read := RevealRow(c, NewRow(userId, enc, entry, createdAt)["id" := Str(id)], keyB64);
      read["content"] == Get(entry, "content") &&
      read["encrypted_content"] == Undefined &&
      read["mood"] == Or(Get(entry, "mood"), Null) &&
      read["tags"] == Or(Get(entry, "tags"), Null) &&
      read["user_id"] == Str(userId) && read["id"] == Str(id)
  {
    var content := Get(entry, "content");
    CipherEngine.DecryptEncrypt(c, content, keyB64, iv);
    var enc := CipherEngine.EncryptWith(c, content, keyB64, iv).value;
    var row := NewRow(userId, enc, entry, createdAt)["id" := Str(id)];
    assert Get(row, "encrypted_content") == Str(enc);
    assert RevealedContent(c, row, keyB64) == content;
    ReadSavedRow(c, userId, enc, entry, createdAt, id, keyB64);
  }

  /** The fields of a saved row as read back, whatever its content decrypts to. */
  lemma ReadSavedRow(c: CipherEngine.Aead, userId: string, enc: string, entry: Object,
                     createdAt: string, id: string, keyB64: string)
    ensures var row := NewRow(userId, enc, entry, createdAt)["id" := Str(id)];
      var read := RevealRow(c, row, keyB64);
      read["content"] == RevealedContent(c, row, keyB64) &&
      read["encrypted_content"] == Undefined &&
      read["mood"] == Or(Get(entry, "mood"), Null) &&
      read["tags"] == Or(Get(entry, "tags"), Null) &&
      read["user_id"] == Str(userId) && read["id"] == Str(id)
  {
    var saved := NewRow(userId, enc, entry, createdAt);
    var row := saved["id" := Str(id)];
    var read := RevealRow(c, row, keyB64);
    assert read == WithContent(row, RevealedContent(c, row, keyB64));
    assert read["mood"] == row["mood"] == saved["mood"];
    assert read["tags"] == row["tags"] == saved["tags"];
    assert read["user_id"] == row["user_id"] == Str(userId);
    assert read["id"] == row["id"] == Str(id);
  }

  /** The payload `updateJournalEntry` sends when `updates.content` is truthy. */
  function WithEncryptedContent(updates: Object, encrypted: string): (r: Object)
    ensures "content" !in r && "encrypted_content" in r && r["encrypted_content"] == Str(encrypted)
    ensures forall k | k in updates && k != "content" && k != "encrypted_content" :: k in r && r[k] == updates[k]
    ensures forall k | k in r :: k == "encrypted_content" || (k in updates && k != "content")
  {
    (updates - {"content"})["encrypted_content" := Str(encrypted)]
  }

  /** Setting `encrypted_content` and then deleting `content` gives the payload. */
  lemma SetThenDelete(updates: Object, encrypted: string)
    ensures updates["encrypted_content" := Str(encrypted)] - {"content"} == WithEncryptedContent(updates, encrypted)
  {
  }

  /** The payload of an update whose content, when truthy, is encrypted
      with the IV `iv`; it never carries truthy plaintext content. */
  function UpdatePayload(c: CipherEngine.Aead, updates: Object, keyB64: string, iv: seq<Byte>): (r: Result<Object, Failure>)
    ensures r.Success? ==> !Truthy(Get(r.value, "content"))
    ensures r.Failure? ==> Truthy(Get(updates, "content")) && r.error.Crypto?
    ensures !Truthy(Get(updates, "content")) ==> r == Success(updates)
  {
    if !Truthy(Get(updates, "content")) then Success(updates)
    else match CipherEngine.EncryptWith(c, updates["content"], keyB64, iv)
      case Success(enc) => Success(WithEncryptedContent(updates, enc))
      case Failure(e) => Failure(Crypto(e))
  }

  /** Lines 177-183: copy the updates; when `content` is truthy, set
      `encrypted_content` and delete `content`. */
  method PrepareUpdate(c: CipherEngine.Aead, updates: Object, keyB64: string)
    returns (r: Result<Object, Failure>, ghost iv: seq<Byte>)
    ensures |iv| == CipherEngine.IvLength
    ensures r == UpdatePayload(c, updates, keyB64, iv)
    ensures !Truthy(Get(updates, "content")) ==> r == Success(updates)
  {
    iv := CipherEngine.Zeros(CipherEngine.IvLength);
    r := Success(updates);
    if Truthy(Get(updates, "content")) {
      var enc;
      enc, iv := CipherEngine.EncryptData(c, updates["content"], keyB64);
      if enc.Failure? {
        r := Failure(Crypto(enc.error));
      } else {
        var updatedData := updates["encrypted_content" := Str(enc.value)];
        updatedData := updatedData - {"content"};
        SetThenDelete(updates, enc.value);
        r := Success(updatedData);
      }
    }
  }

  // ---------------------------------------------------------------------
  // Queries
  // ---------------------------------------------------------------------

  datatype Filter =
    | Eq(column: string, value: Value)
    | Gte(column: string, bound: string)
    | Lte(column: string, bound: string)
    | Contains(column: string, items: seq<string>)

  /** A select with its filters, its `created_at` order and its limit (0: none). */
  datatype Query = Query(filters: seq<Filter>, ascending: bool, limit: nat)

  /** The `options` of `getJournalEntries`; an empty date or mood and a
      limit of 0 are falsy like absent ones. */
  datatype ListOptions = ListOptions(
    startDate: string, endDate: string, mood: string,
    tags: Option<seq<string>>, ascending: Option<bool>, limit: nat)

  /** One optional clause. */
  function Clause(present: bool, f: Filter): seq<Filter>
  {
    if present then [f] else []
  }

  /** The query of lines 58-86 as one value: the user's filter, then the
      clause of each given option in the order the source adds them. */
  function QueryOf(userId: string, options: ListOptions): Query
  {
    Query([Eq("user_id", Str(userId))]
            + Clause(options.startDate != "", Gte("created_at", options.startDate))
            + Clause(options.endDate != "", Lte("created_at", options.endDate))
            + Clause(options.mood != "", Eq("mood", Str(options.mood)))
            + Clause(options.tags.Some?, Contains("tags", if options.tags.Some? then options.tags.value else [])),
          options.ascending == Some(true), options.limit)
  }

  /** The user's filter comes first, the order is descending unless asked
      otherwise, the limit is passed on, and there is one clause per given option. */
  lemma QueryOfShape(userId: string, options: ListOptions)
    ensures var q := QueryOf(userId, options);
      |q.filters| >= 1 && q.filters[0] == Eq("user_id", Str(userId)) &&
      |q.filters| == 1 + (if options.startDate != "" then 1 else 0) + (if options.endDate != "" then 1 else 0)
                       + (if options.mood != "" then 1 else 0) + (if options.tags.Some? then 1 else 0) &&
      (q.ascending <==> options.ascending == Some(true)) && q.limit == options.limit
  {
  }

  /** Each option gives its own clause exactly when it is given. */
  lemma QueryOfClauses(userId: string, options: ListOptions)
    ensures var fs := QueryOf(userId, options).filters;
      (Gte("created_at", options.startDate) in fs <==> options.startDate != "") &&
      (Lte("created_at", options.endDate) in fs <==> options.endDate != "") &&
      (Eq("mood", Str(options.mood)) in fs <==> options.mood != "") &&
      (options.tags.Some? ==> Contains("tags", options.tags.value) in fs) &&
      (options.tags.None? ==> forall f | f in fs :: !f.Contains?)
  {
  }

  /** Every filter is on a plaintext column: nothing is asked of the ciphertext. */
  lemma QueryOfPlaintext(userId: string, options: ListOptions)
    ensures forall f | f in QueryOf(userId, options).filters :: f.column in PlaintextColumns
  {
  }

  /** Lines 58-86: the query, rebuilt one clause at a time. */
  method BuildQuery(userId: string, options: ListOptions) returns (q: Query)
    ensures q == QueryOf(userId, options)
  {
    var filters := [Eq("user_id", Str(userId))];
    ghost var spec := filters;
    if options.startDate != "" {
      filters := filters + [Gte("created_at", options.startDate)];
    }
    spec := spec + Clause(options.startDate != "", Gte("created_at", options.startDate));
    assert filters == spec;
    if options.endDate != "" {
      filters := filters + [Lte("created_at", options.endDate)];
    }
    spec := spec + Clause(options.endDate != "", Lte("created_at", options.endDate));
    assert filters == spec;
    if options.mood != "" {
      filters := filters + [Eq("mood", Str(options.mood))];
    }
    spec := spec + Clause(options.mood != "", Eq("mood", Str(options.mood)));
    assert filters == spec;
    if options.tags.Some? {
      filters := filters + [Contains("tags", options.tags.value)];
    }
    spec := spec + Clause(options.tags.Some?, Contains("tags", if options.tags.Some? then options.tags.value else []));
    assert filters == spec;
    var ascending := if options.ascending.Some? then options.ascending.value else false;
    q := Query(filters, ascending, options.limit);
  }

  /** Lexicographic order on strings: the order of ISO timestamps. */
  predicate LexLe(a: string, b: string)
  {
    a == [] || (b != [] && (a[0] < b[0] || (a[0] == b[0] && LexLe(a[1..], b[1..]))))
  }

  predicate Matches(row: Object, f: Filter)
  {
    match f
    case Eq(col, v) => Get(row, col) == v
    case Gte(col, bound) => Get(row, col).Str? && LexLe(bound, Get(row, col).s)
    case Lte(col, bound) => Get(row, col).Str? && LexLe(Get(row, col).s, bound)
    case Contains(col, items) =>
      Get(row, col).StrList? && forall t | t in items :: t in Get(row, col).items
  }

  predicate MatchesAll(row: Object, filters: seq<Filter>)
  {
    forall i | 0 <= i < |filters| :: Matches(row, filters[i])
  }

  /** The rows a filter list selects, in stored order. */
  function Matching(rows: seq<Object>, filters: seq<Filter>): (r: seq<Object>)
    ensures |r| <= |rows|
    ensures forall x | x in r :: x in rows && MatchesAll(x, filters)
  {
    if rows == [] then []
    else (if MatchesAll(rows[0], filters) then [rows[0]] else []) + Matching(rows[1..], filters)
  }

  /** Filtering never looks at a column outside the plaintext ones, so the
      ciphertext (or any content) of a row cannot change what a query selects. */
  lemma MatchesIgnoresCiphertext(row: Object, filters: seq<Filter>, column: string, v: Value)
    requires forall f | f in filters :: f.column in PlaintextColumns
    requires column !in PlaintextColumns
    ensures MatchesAll(row[column := v], filters) <==> MatchesAll(row, filters)
  {
    forall i | 0 <= i < |filters|
      ensures Matches(row[column := v], filters[i]) <==> Matches(row, filters[i])
    {
      assert filters[i] in filters;
      assert Get(row[column := v], filters[i].column) == Get(row, filters[i].column);
    }
  }

  function Limit(rows: seq<Object>, n: nat): seq<Object>
  {
    if 0 < n < |rows| then rows[..n] else rows
  }

  /** The supabase table `journal_entries`. */
  class Database {
    var rows: seq<Object>
    var requests: nat

    constructor (initial: seq<Object>)
      ensures rows == initial && requests == 0
    {
      rows := initial;
      requests := 0;
    }

    /** No stored row carries plaintext content. */
    ghost predicate NoPlaintext()
      reads this
    {
      forall i | 0 <= i < |rows| :: !Truthy(Get(rows[i], "content"))
    }

    /** `.insert(row).select().single()`; the store assigns the id. */
    method Insert(row: Object, id: string, fails: bool) returns (r: Result<Object, Failure>)
      modifies this
      ensures requests == old(requests) + 1
      ensures fails ==> r == Failure(StoreRejected) && rows == old(rows)
      ensures !fails ==> r == Success(row["id" := Str(id)]) && rows == old(rows) + [row["id" := Str(id)]]
      ensures old(NoPlaintext()) && "content" !in row ==> NoPlaintext()
    {
      requests := requests + 1;
      if fails {
        return Failure(StoreRejected);
      }
      if NoPlaintext() && "content" !in row {
        HiddenAfterAppend(rows, row["id" := Str(id)]);
      }
      rows := rows + [row["id" := Str(id)]];
      r := Success(row["id" := Str(id)]);
    }

    /** `.select('*')` with the query's filters and limit. The order by
        `created_at` is the store's business and is not modelled: rows come
        back in stored order. */
    method Select(q: Query, fails: bool) returns (r: Result<seq<Object>, Failure>)
      modifies this`requests
      ensures requests == old(requests) + 1
      ensures fails ==> r == Failure(StoreRejected)
      ensures !fails ==> r == Success(Limit(Matching(rows, q.filters), q.limit))
    {
      requests := requests + 1;
      if fails {
        return Failure(StoreRejected);
      }
      r := Success(Limit(Matching(rows, q.filters), q.limit));
    }

    /** `.select('*').eq('id', entryId).eq('user_id', userId).single()` */
    method SelectOne(entryId: string, userId: string, fails: bool) returns (r: Result<Object, Failure>)
      modifies this`requests
      ensures requests == old(requests) + 1
      ensures var m := Matching(rows, OwnerFilters(entryId, userId));
        r == if fails then Failure(StoreRejected) else if |m| != 1 then Failure(NotSingleRow) else Success(m[0])
    {
      requests := requests + 1;
      var m := Matching(rows, OwnerFilters(entryId, userId));
      if fails {
        return Failure(StoreRejected);
      }
      if |m| != 1 {
        return Failure(NotSingleRow);
      }
      r := Success(m[0]);
    }

    /** `.update(changes).eq('id', entryId).eq('user_id', userId).select().single()`:
        every matching row takes the changes; the call succeeds only when
        exactly one row matched. */
    method UpdateWhere(entryId: string, userId: string, changes: Object, fails: bool) returns (r: Result<Object, Failure>)
      modifies this
      ensures requests == old(requests) + 1
      ensures fails ==> r == Failure(StoreRejected) && rows == old(rows)
      ensures !fails ==> |rows| == |old(rows)|
      ensures !fails ==> forall i | 0 <= i < |rows| ::
        rows[i] == if Owned(old(rows)[i], entryId, userId) then old(rows)[i] + changes else old(rows)[i]
      ensures r.Success? ==> exists i | 0 <= i < |rows| :: Owned(old(rows)[i], entryId, userId) && r.value == rows[i]
      ensures var m := Matching(old(rows), OwnerFilters(entryId, userId));
        !fails ==> r == if |m| != 1 then Failure(NotSingleRow) else Success(m[0] + changes)
    {
      requests := requests + 1;
      if fails {
        return Failure(StoreRejected);
      }
      var old_rows := rows;
      rows := seq(|old_rows|, i requires 0 <= i < |old_rows| =>
        if Owned(old_rows[i], entryId, userId) then old_rows[i] + changes else old_rows[i]);
      var filters := OwnerFilters(entryId, userId);
      var m := Matching(old_rows, filters);
      if |m| != 1 {
        return Failure(NotSingleRow);
      }
      assert m[0] in m;
      var k :| 0 <= k < |old_rows| && old_rows[k] == m[0];
      assert Owned(old_rows[k], entryId, userId) by {
        assert MatchesAll(m[0], filters);
        assert Matches(m[0], filters[0]) && Matches(m[0], filters[1]);
      }
      assert rows[k] == m[0] + changes;
      r := Success(rows[k]);
    }
  }

  /** `.eq('id', entryId).eq('user_id', userId)` */
  function OwnerFilters(entryId: string, userId: string): seq<Filter>
  {
    [Eq("id", Str(entryId)), Eq("user_id", Str(userId))]
  }

  /** The row is the entry `entryId` of user `userId`. */
  predicate Owned(row: Object, entryId: string, userId: string)
  {
    Get(row, "id") == Str(entryId) && Get(row, "user_id") == Str(userId)
  }

  // ---------------------------------------------------------------------
  // The service operations
  // ---------------------------------------------------------------------

  /** `saveJournalEntry`: get or create the user's key, encrypt the content,
      insert the row. Every failure becomes `{success: false}`; a failure
      before the insert sends no request. */
  method SaveJournalEntry(store: KeyStore.Storage, db: Database, c: CipherEngine.Aead,
                          userId: string, entry: Object,
                          subtleAvailable: bool, quotaExceeded: bool, now: string, newId: string, storeFails: bool)
    returns (r: Result<Object, Failure>, ghost generated: Result<string, CipherEngine.CryptoError>,
             ghost key: string, ghost iv: seq<Byte>)
    modifies store, db
    ensures old(db.NoPlaintext()) ==> db.NoPlaintext()
    ensures |iv| == CipherEngine.IvLength
    ensures !KeyStore.HasKey(old(store.items), userId) ==> (generated.Success? <==> subtleAvailable)
    ensures generated.Success? ==> generated.value != ""
    ensures store.items == KeyStore.InitOutcome(old(store.items), userId, generated, !quotaExceeded).0
    ensures var init := KeyStore.InitOutcome(old(store.items), userId, generated, !quotaExceeded).1;
      init.Failure? ==> r == Failure(Crypto(init.error)) && db.rows == old(db.rows) && db.requests == old(db.requests)
    ensures var init := KeyStore.InitOutcome(old(store.items), userId, generated, !quotaExceeded).1;
      init.Success? ==> init.value != ""
    ensures var init := KeyStore.InitOutcome(old(store.items), userId, generated, !quotaExceeded).1;
      init.Success? && init.value != "" ==> key == init.value
    ensures var init := KeyStore.InitOutcome(old(store.items), userId, generated, !quotaExceeded).1;
      var enc := CipherEngine.EncryptWith(c, Get(entry, "content"), key, iv);
      init.Success? && init.value != "" && enc.Failure? ==>
        r == Failure(Crypto(enc.error)) && db.rows == old(db.rows) && db.requests == old(db.requests)
    ensures var init := KeyStore.InitOutcome(old(store.items), userId, generated, !quotaExceeded).1;
      var enc := CipherEngine.EncryptWith(c, Get(entry, "content"), key, iv);
      init.Success? && init.value != "" && enc.Success? ==>
        db.requests == old(db.requests) + 1 &&
        r == (if storeFails then Failure(StoreRejected) else Success(NewRow(userId, enc.value, entry, now)["id" := Str(newId)])) &&
        db.rows == (if storeFails then old(db.rows) else old(db.rows) + [r.value])
    ensures r.Success? ==> "content" !in r.value
  {
    iv := CipherEngine.Zeros(CipherEngine.IvLength);
    key := "";
    var init;
    init, generated := store.InitializeEncryption(userId, subtleAvailable, quotaExceeded);
    if init.Failure? {
      return Failure(Crypto(init.error)), generated, key, iv;
    }
    key := init.value;
    if init.value == "" {
      // `!encryptionKey` never holds: a stored key counts only when it is
      // non-empty, and a generated one is never empty.
      assert false;
    }
    var enc;
    enc, iv := CipherEngine.EncryptData(c, Get(entry, "content"), init.value);
    if enc.Failure? {
      return Failure(Crypto(enc.error)), generated, key, iv;
    }
    var row := NewRow(userId, enc.value, entry, now);
    assert "content" !in row["id" := Str(newId)];
    r := db.Insert(row, newId, storeFails);
  }

  /** Appending a row without a `content` column keeps every row's content hidden. */
  lemma HiddenAfterAppend(rows: seq<Object>, row: Object)
    requires forall i | 0 <= i < |rows| :: !Truthy(Get(rows[i], "content"))
    requires "content" !in row
    ensures forall i | 0 <= i < |rows + [row]| :: !Truthy(Get((rows + [row])[i], "content"))
  {
    forall i | 0 <= i < |rows + [row]|
      ensures !Truthy(Get((rows + [row])[i], "content"))
    {
      if i < |rows| {
        assert (rows + [row])[i] == rows[i];
      }
    }
  }

  /** `getJournalEntries`: no stored key fails before any request; otherwise
      the selected rows come back revealed one by one. */
  method GetJournalEntries(store: KeyStore.Storage, db: Database, c: CipherEngine.Aead,
                           userId: string, options: ListOptions, storeFails: bool)
    returns (r: Result<seq<Object>, Failure>, ghost q: Query)
    modifies db`requests
    ensures !KeyStore.HasKey(store.items, userId) ==> r == Failure(KeyNotFound) && db.requests == old(db.requests)
    ensures KeyStore.HasKey(store.items, userId) ==>
      var key := KeyStore.Lookup(store.items, userId).value;
      db.requests == old(db.requests) + 1 &&
      r == if storeFails then Failure(StoreRejected)
           else Success(RevealRows(c, Limit(Matching(db.rows, q.filters), q.limit), key))
    ensures |q.filters| >= 1 && q.filters[0] == Eq("user_id", Str(userId))
    ensures forall f | f in q.filters :: f.column in PlaintextColumns
    ensures KeyStore.HasKey(store.items, userId) ==> q == QueryOf(userId, options)
  {
    q := Query([Eq("user_id", Str(userId))], false, 0);
    var key := store.GetEncryptionKey(userId);
    if key.None? || key.value == "" {
      return Failure(KeyNotFound), q;
    }
    var query := BuildQuery(userId, options);
    q := query;
    QueryOfShape(userId, options);
    QueryOfPlaintext(userId, options);
    var fetched := db.Select(query, storeFails);
    if fetched.Failure? {
      return Failure(fetched.error), q;
    }
    r := Success(RevealRows(c, fetched.value, key.value));
  }

  /** `getJournalEntry`: a single row, decrypted without isolation, so a
      decryption error fails the whole call. */
  method GetJournalEntry(store: KeyStore.Storage, db: Database, c: CipherEngine.Aead,
                         userId: string, entryId: string, storeFails: bool)
    returns (r: Result<Object, Failure>)
    modifies db`requests
    ensures !KeyStore.HasKey(store.items, userId) ==> r == Failure(KeyNotFound) && db.requests == old(db.requests)
    ensures KeyStore.HasKey(store.items, userId) ==>
      var key := KeyStore.Lookup(store.items, userId).value;
      var m := Matching(db.rows, OwnerFilters(entryId, userId));
      db.requests == old(db.requests) + 1 &&
      r == if storeFails then Failure(StoreRejected)
           else if |m| != 1 then Failure(NotSingleRow)
           else match CipherEngine.DecryptWith(c, Text(Get(m[0], "encrypted_content")), key)
                case Failure(e) => Failure(Crypto(e))
                case Success(v) => Success(WithContent(m[0], v))
  {
    var key := store.GetEncryptionKey(userId);
    if key.None? || key.value == "" {
      return Failure(KeyNotFound);
    }
    var found := db.SelectOne(entryId, userId, storeFails);
    if found.Failure? {
      return Failure(found.error);
    }
    var decrypted := CipherEngine.DecryptWith(c, Text(Get(found.value, "encrypted_content")), key.value);
    if decrypted.Failure? {
      return Failure(Crypto(decrypted.error));
    }
    r := Success(WithContent(found.value, decrypted.value));
  }

  /** `updateJournalEntry`: no stored key fails before any request; truthy
      content is encrypted before it is sent, so no stored row ever gains
      plaintext content; the owned row is merged with the payload. */
  method UpdateJournalEntry(store: KeyStore.Storage, db: Database, c: CipherEngine.Aead,
                            userId: string, entryId: string, updates: Object, storeFails: bool)
    returns (r: Result<Object, Failure>, ghost iv: seq<Byte>)
    modifies db
    ensures old(db.NoPlaintext()) ==> db.NoPlaintext()
    ensures !KeyStore.HasKey(store.items, userId) ==>
      r == Failure(KeyNotFound) && db.requests == old(db.requests) && db.rows == old(db.rows)
    ensures old(db.NoPlaintext()) && r.Success? ==> !Truthy(Get(r.value, "content"))
    ensures KeyStore.HasKey(store.items, userId) ==>
      var p := UpdatePayload(c, updates, KeyStore.Lookup(store.items, userId).value, iv);
      p.Failure? ==> r == p && db.requests == old(db.requests) && db.rows == old(db.rows)
    ensures KeyStore.HasKey(store.items, userId) ==>
      var p := UpdatePayload(c, updates, KeyStore.Lookup(store.items, userId).value, iv);
      p.Success? && storeFails ==>
        r == Failure(StoreRejected) && db.requests == old(db.requests) + 1 && db.rows == old(db.rows)
    ensures KeyStore.HasKey(store.items, userId) ==>
      var p := UpdatePayload(c, updates, KeyStore.Lookup(store.items, userId).value, iv);
      var m := Matching(old(db.rows), OwnerFilters(entryId, userId));
      p.Success? && !storeFails ==>
        db.requests == old(db.requests) + 1 &&
        r == (if |m| != 1 then Failure(NotSingleRow) else Success(m[0] + p.value)) &&
        |db.rows| == |old(db.rows)| &&
        forall i | 0 <= i < |db.rows| ::
          db.rows[i] == if Owned(old(db.rows)[i], entryId, userId) then old(db.rows)[i] + p.value else old(db.rows)[i]
  {
    iv := CipherEngine.Zeros(CipherEngine.IvLength);
    var key := store.GetEncryptionKey(userId);
    if key.None? || key.value == "" {
      return Failure(KeyNotFound), iv;
    }
    var payload;
    payload, iv := PrepareUpdate(c, updates, key.value);
    if payload.Failure? {
      return payload, iv;
    }
    ghost var wasHidden := db.NoPlaintext();
    r := db.UpdateWhere(entryId, userId, payload.value, storeFails);
    forall i | wasHidden && 0 <= i < |db.rows| ensures !Truthy(Get(db.rows[i], "content")) {
      assert Get(old(db.rows)[i] + payload.value, "content") ==
        (if "content" in payload.value then payload.value["content"] else Get(old(db.rows)[i], "content"));
    }
  }
}
