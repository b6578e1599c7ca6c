/**
  The primary flag and the queued preferences of a trading account, accounts/models.py.

  Several in-memory copies of one row can exist and be stale.  Saving a copy marked
  primary first clears the flag on its owner's other rows, then writes the copy, whole
  or only the named columns.
 */
module TradingAccounts {
  import opened Prelude

  type Key = nat

  /** User and connection type: within one pair at most one account is primary. */
  datatype Owner = Owner(user: nat, connection: string)

  datatype Row = Row(owner: Owner, number: string, primary: bool, nickname: string)

  datatype PrefField = AutomatedTrading | EntryOffset

  datatype PrefValue = Flag(on: bool) | Cents(amount: nat)

  type Prefs = map<PrefField, PrefValue>

  datatype Store = Store(rows: map<Key, Row>, prefs: map<Key, Prefs>)

  /** An in-memory copy; `pending` holds preferences set before the first save. */
  datatype Copy = Copy(pk: Option<Key>, owner: Owner, number: string, primary: bool, nickname: string, pending: Prefs)

  datatype Column = OwnerColumn | NumberColumn | PrimaryColumn | NicknameColumn

  /** The columns a save names; without names it writes them all. */
  type Columns = Option<set<Column>>

  predicate Writes(columns: Columns, c: Column) {
    columns.Some? ==> c in columns.value
  }

  function DefaultPref(f: PrefField): PrefValue {
    if f == AutomatedTrading then Flag(false) else Cents(0)
  }

  const DEFAULT_PREFS: Prefs :=
      map[AutomatedTrading := DefaultPref(AutomatedTrading), EntryOffset := DefaultPref(EntryOffset)]

  // ---------------------------------------------------------------- saving, as a function

  function ClearOthers(rows: map<Key, Row>, copy: Copy): map<Key, Row> {
    if copy.primary
    then map k | k in rows ::
           if rows[k].owner == copy.owner && Some(k) != copy.pk then rows[k].(primary := false) else rows[k]
    else rows
  }

  function Written(row: Row, copy: Copy, columns: Columns): Row {
    Row(if Writes(columns, OwnerColumn) then copy.owner else row.owner,
        if Writes(columns, NumberColumn) then copy.number else row.number,
        if Writes(columns, PrimaryColumn) then copy.primary else row.primary,
        if Writes(columns, NicknameColumn) then copy.nickname else row.nickname)
  }

  /** The unique key over owner and account number. */
  predicate Taken(rows: map<Key, Row>, owner: Owner, number: string, except: Option<Key>) {
    exists k :: k in rows && Some(k) != except && rows[k].owner == owner && rows[k].number == number
  }

  /** The row the save writes, and whether the unique key lets it. */
  function RowToWrite(s: Store, copy: Copy, columns: Columns): Row
    requires copy.pk.Some? ==> copy.pk.value in s.rows
  {
    if copy.pk.Some? then Written(s.rows[copy.pk.value], copy, columns)
    else Row(copy.owner, copy.number, copy.primary, copy.nickname)
  }

  /** A new row cannot be written by columns. */
  predicate SaveAccepted(s: Store, copy: Copy, columns: Columns)
    requires copy.pk.Some? ==> copy.pk.value in s.rows
  {
    var row := RowToWrite(s, copy, columns);
    !(copy.pk.None? && columns.Some?) && !Taken(s.rows, row.owner, row.number, copy.pk)
  }

  function KeyOf(copy: Copy, newKey: Key): Key {
    if copy.pk.Some? then copy.pk.value else newKey
  }

  /** A rejected write leaves the other rows cleared: the two statements share no transaction. */
  function SaveRows(s: Store, copy: Copy, columns: Columns, newKey: Key): map<Key, Row>
    requires copy.pk.Some? ==> copy.pk.value in s.rows
  {
    var cleared := ClearOthers(s.rows, copy);
    if SaveAccepted(s, copy, columns) then cleared[KeyOf(copy, newKey) := RowToWrite(s, copy, columns)] else cleared
  }

  function PrefsOf(s: Store, k: Key): Prefs {
    if k in s.prefs then s.prefs[k] else DEFAULT_PREFS
  }

  /** Creating a row creates its preferences; queued ones are then applied. */
  function SavePrefs(s: Store, copy: Copy, columns: Columns, newKey: Key): map<Key, Prefs>
    requires copy.pk.Some? ==> copy.pk.value in s.rows
  {
    if !SaveAccepted(s, copy, columns) then s.prefs
    else if copy.pk.None? || copy.pending != map[]
    then s.prefs[KeyOf(copy, newKey) := PrefsOf(s, KeyOf(copy, newKey)) + copy.pending]
    else s.prefs
  }

  function SavedStore(s: Store, copy: Copy, columns: Columns, newKey: Key): Store
    requires copy.pk.Some? ==> copy.pk.value in s.rows
  {
    Store(SaveRows(s, copy, columns, newKey), SavePrefs(s, copy, columns, newKey))
  }

  function SavedCopy(s: Store, copy: Copy, columns: Columns, newKey: Key): Copy
    requires copy.pk.Some? ==> copy.pk.value in s.rows
  {
    if SaveAccepted(s, copy, columns) then copy.(pk := Some(KeyOf(copy, newKey)), pending := map[]) else copy
  }

  function ReadPref(s: Store, copy: Copy, f: PrefField): PrefValue {
    if copy.pk.None? && f in copy.pending then copy.pending[f]
    else if copy.pk.None? then DefaultPref(f)
    else if f in PrefsOf(s, copy.pk.value) then PrefsOf(s, copy.pk.value)[f]
    else DefaultPref(f)
  }

  // ---------------------------------------------------------------- the model class

  class AccountTable {
    var store: Store

    constructor (store: Store)
      ensures this.store == store
    {
      this.store := store;
    }
  }

  class TradingAccount {
    var pk: Option<Key>
    var owner: Owner
    var number: string
    var primary: bool
    var nickname: string
    var pending: Prefs

    /** Preference keywords are taken out of the arguments and queued. */
    constructor (owner: Owner, number: string, primary: bool, nickname: string, prefs: Prefs)
      ensures Value() == Copy(None, owner, number, primary, nickname, prefs)
    {
      this.pk, this.owner, this.number := None, owner, number;
      this.primary, this.nickname, this.pending := primary, nickname, prefs;
    }

    constructor Load(table: AccountTable, k: Key)
      requires k in table.store.rows
      ensures var row := table.store.rows[k];
              Value() == Copy(Some(k), row.owner, row.number, row.primary, row.nickname, map[])
    {
      var row := table.store.rows[k];
      pk, owner, number, primary, nickname, pending := Some(k), row.owner, row.number, row.primary, row.nickname, map[];
    }

    function Value(): Copy
      reads this
    {
      Copy(pk, owner, number, primary, nickname, pending)
    }

    method Save(table: AccountTable, columns: Columns, newKey: Key) returns (ok: bool)
      requires pk.Some? ==> pk.value in table.store.rows
      requires newKey !in table.store.rows
      modifies this, table
      ensures ok <==> SaveAccepted(old(table.store), old(Value()), columns)
      ensures table.store == SavedStore(old(table.store), old(Value()), columns, newKey)
      ensures Value() == SavedCopy(old(table.store), old(Value()), columns, newKey)
    {
      ghost var before, copy := table.store, Value();
      ClearOtherPrimaries(table);
      ok := WriteRow(table, columns, newKey, before);
      ghost var written := table.store.prefs;
      if ok {
        ApplyPendingPreferences(table);
      }
      PrefsAfterSave(before, copy, columns, newKey, written, table.store.prefs);
    }

    /** The row itself: updated, inserted, or refused when a new row is to be written by columns. */
    method WriteRow(table: AccountTable, columns: Columns, newKey: Key, ghost before: Store) returns (ok: bool)
      requires (pk.Some? ==> pk.value in before.rows) && newKey !in before.rows
      requires table.store == before.(rows := ClearOthers(before.rows, Value()))
      modifies this`pk, table
      ensures ok <==> SaveAccepted(before, old(Value()), columns)
      ensures pk == if ok then Some(KeyOf(old(Value()), newKey)) else old(pk)
      ensures table.store.rows == SaveRows(before, old(Value()), columns, newKey)
      ensures table.store.prefs
              == if ok && old(pk).None? then before.prefs[newKey := PrefsOf(before, newKey)] else before.prefs
    {
      if pk.Some? {
        ok := UpdateRow(table, columns, before);
      } else if columns.Some? {
        ok := false;
      } else {
        ok := InsertRow(table, newKey, before);
      }
    }

    method ClearOtherPrimaries(table: AccountTable)
      modifies table
      ensures table.store == old(table.store).(rows := ClearOthers(old(table.store).rows, Value()))
    {
      if !primary { return; }
      var rows := table.store.rows;
      rows := map k | k in rows ::
        if rows[k].owner == owner && Some(k) != pk && rows[k].primary then rows[k].(primary := false) else rows[k];
      assert rows == ClearOthers(table.store.rows, Value());
      table.store := table.store.(rows := rows);
    }

    /** UPDATE of the named columns; false is a unique-key error. */
    method UpdateRow(table: AccountTable, columns: Columns, ghost before: Store) returns (ok: bool)
      requires pk.Some? && pk.value in before.rows
      requires table.store == before.(rows := ClearOthers(before.rows, Value()))
      modifies table
      ensures ok <==> SaveAccepted(before, Value(), columns)
      ensures table.store == if ok
                             then old(table.store).(rows :=
                                 old(table.store).rows[pk.value := Written(before.rows[pk.value], Value(), columns)])
                             else old(table.store)
    {
      var row := table.store.rows[pk.value];
      if Writes(columns, OwnerColumn) { row := row.(owner := owner); }
      if Writes(columns, NumberColumn) { row := row.(number := number); }
      if Writes(columns, PrimaryColumn) { row := row.(primary := primary); }
      if Writes(columns, NicknameColumn) { row := row.(nickname := nickname); }
      TakenIgnoresFlags(before.rows, table.store.rows, row.owner, row.number, pk);
      ok := !Taken(table.store.rows, row.owner, row.number, pk);
      if ok {
        table.store := table.store.(rows := table.store.rows[pk.value := row]);
      }
    }

    /** INSERT, followed by the post-save signal that creates the row's preferences. */
    method InsertRow(table: AccountTable, newKey: Key, ghost before: Store) returns (ok: bool)
      requires pk.None? && newKey !in before.rows
      requires table.store == before.(rows := ClearOthers(before.rows, Value()))
      modifies this`pk, table
      ensures ok <==> !Taken(before.rows, owner, number, None)
      ensures pk == if ok then Some(newKey) else None
      ensures table.store == if ok
                             then Store(old(table.store).rows[newKey := Row(owner, number, primary, nickname)],
                                        before.prefs[newKey := PrefsOf(before, newKey)])
                             else old(table.store)
    {
      TakenIgnoresFlags(before.rows, table.store.rows, owner, number, pk);
      ok := !Taken(table.store.rows, owner, number, pk);
      if ok {
        table.store := Store(table.store.rows[newKey := Row(owner, number, primary, nickname)],
                             table.store.prefs[newKey := PrefsOf(table.store, newKey)]);
        pk := Some(newKey);
      }
    }

    /** Without queued preferences, or before the first save, there is nothing to do. */
    method ApplyPendingPreferences(table: AccountTable)
      modifies this`pending, table
      ensures pending == if old(pending) == map[] || pk.None? then old(pending) else map[]
      ensures table.store == if old(pending) == map[] || pk.None? then old(table.store)
                             else old(table.store).(prefs :=
                                 old(table.store).prefs[pk.value := PrefsOf(old(table.store), pk.value) + old(pending)])
    {
      if pending == map[] || pk.None? { return; }
      var prefs := PrefsOf(table.store, pk.value) + pending;
      table.store := table.store.(prefs := table.store.prefs[pk.value := prefs]);
      pending := map[];
    }

    method SetPreference(table: AccountTable, f: PrefField, v: PrefValue)
      modifies this`pending, table
      ensures pk.None? ==> pending == old(pending)[f := v] && table.store == old(table.store)
      ensures pk.Some? ==> pending == old(pending)
                           && table.store == old(table.store).(prefs :=
                                old(table.store).prefs[pk.value := PrefsOf(old(table.store), pk.value)[f := v]])
    {
      if pk.None? {
        pending := pending[f := v];
        return;
      }
      table.store := table.store.(prefs := table.store.prefs[pk.value := PrefsOf(table.store, pk.value)[f := v]]);
    }

    /** Reading creates a missing preference row; that does not change what is read. */
    method GetPreference(table: AccountTable, f: PrefField) returns (v: PrefValue)
      modifies table
      ensures v == ReadPref(old(table.store), Value(), f)
      ensures table.store.rows == old(table.store).rows
      ensures forall k :: PrefsOf(table.store, k) == PrefsOf(old(table.store), k)
    {
      if pk.None? && f in pending { return pending[f]; }
      if pk.None? { return DefaultPref(f); }
      if pk.value !in table.store.prefs {
        table.store := table.store.(prefs := table.store.prefs[pk.value := DEFAULT_PREFS]);
      }
      var prefs := table.store.prefs[pk.value];
      return if f in prefs then prefs[f] else DefaultPref(f);
    }
  }

  /** Creating the preference row and applying the queue come to SavePrefs. */
  lemma PrefsAfterSave(
      s: Store, copy: Copy, columns: Columns, newKey: Key, written: map<Key, Prefs>, applied: map<Key, Prefs>)
    requires copy.pk.Some? ==> copy.pk.value in s.rows
    requires var ok := SaveAccepted(s, copy, columns);
             var k := KeyOf(copy, newKey);
             && written == (if ok && copy.pk.None? then s.prefs[newKey := PrefsOf(s, newKey)] else s.prefs)
             && applied == if !ok || copy.pending == map[] then written
                           else written[k := (if k in written then written[k] else DEFAULT_PREFS) + copy.pending]
    ensures applied == SavePrefs(s, copy, columns, newKey)
  {
    assert copy.pending == map[] ==> PrefsOf(s, newKey) + copy.pending == PrefsOf(s, newKey);
  }

  lemma TakenIgnoresFlags(
      rows: map<Key, Row>, cleared: map<Key, Row>, owner: Owner, number: string, except: Option<Key>)
    requires rows.Keys == cleared.Keys
    requires forall k :: k in rows ==> cleared[k].owner == rows[k].owner && cleared[k].number == rows[k].number
    ensures Taken(rows, owner, number, except) <==> Taken(cleared, owner, number, except)
  {
    if Taken(rows, owner, number, except) {
      var k :| k in rows && Some(k) != except && rows[k].owner == owner && rows[k].number == number;
      assert k in cleared && cleared[k].owner == owner;
    }
    if Taken(cleared, owner, number, except) {
      var k :| k in cleared && Some(k) != except && cleared[k].owner == owner && cleared[k].number == number;
      assert k in rows && rows[k].owner == owner;
    }
  }

  // ---------------------------------------------------------------- at most one primary

  ghost predicate AtMostOnePrimary(rows: map<Key, Row>) {
    forall a, b :: a in rows && b in rows && rows[a].primary && rows[b].primary && rows[a].owner == rows[b].owner ==>
        a == b
  }

  /** A row written as primary was announced by the copy, or was primary there already. */
  predicate Announced(before: Row, after: Row, copy: Copy) {
    after.primary ==> (copy.primary && copy.owner == after.owner) || (before.primary && before.owner == after.owner)
  }

  lemma SaveKeepsAtMostOne(s: Store, copy: Copy, columns: Columns, newKey: Key)
    requires copy.pk.Some? ==> copy.pk.value in s.rows
    requires (copy.pk.None? ==> newKey !in s.rows) && AtMostOnePrimary(s.rows)
    requires copy.pk.Some? ==> Announced(s.rows[copy.pk.value], RowToWrite(s, copy, columns), copy)
    ensures AtMostOnePrimary(SaveRows(s, copy, columns, newKey))
  {
    assert AtMostOnePrimary(ClearOthers(s.rows, copy));
  }

  /** For a row and a copy of it, saving is safe in every table exactly when the new row is announced. */
  lemma SaveSafeIffAnnounced(k: Key, row: Row, copy: Copy, columns: Columns, other: Key, otherNumber: string)
    requires copy.pk == Some(k) && other != k && otherNumber != Written(row, copy, columns).number
    ensures var after := Written(row, copy, columns);
            Announced(row, after, copy) <==>
              forall rows: map<Key, Row> :: k in rows && rows[k] == row && AtMostOnePrimary(rows) ==>
                AtMostOnePrimary(SaveRows(Store(rows, map[]), copy, columns, 0))
  {
    var after := Written(row, copy, columns);
    if Announced(row, after, copy) {
      forall rows: map<Key, Row> | k in rows && rows[k] == row && AtMostOnePrimary(rows)
        ensures AtMostOnePrimary(SaveRows(Store(rows, map[]), copy, columns, 0))
      {
        SaveKeepsAtMostOne(Store(rows, map[]), copy, columns, 0);
      }
    } else {
      var rows := map[k := row, other := Row(after.owner, otherNumber, true, "")];
      var saved := SaveRows(Store(rows, map[]), copy, columns, 0);
      assert rows[k] == row && rows[other].primary;
      assert AtMostOnePrimary(rows);
      assert SaveAccepted(Store(rows, map[]), copy, columns);
      assert k in saved && other in saved && saved[k] == after;
      assert saved[other].primary && saved[other].owner == after.owner;
      assert !AtMostOnePrimary(saved);
    }
  }

  // ---------------------------------------------------------------- runs with many copies

  datatype System = System(store: Store, copies: seq<Copy>)

  datatype Event =
    | NewCopy(owner: Owner, number: string, primary: bool, nickname: string, prefs: Prefs)
    | LoadCopy(key: Key)
    | EditCopy(edited: nat, newNumber: string, newPrimary: bool, newNickname: string)
    | SaveCopy(saved: nat, columns: Columns, newKey: Key)
    | SetPref(target: nat, field: PrefField, value: PrefValue)

  predicate Enabled(s: System, e: Event) {
    match e
    case NewCopy(_, _, _, _, _) => true
    case LoadCopy(k) => k in s.store.rows
    case EditCopy(i, _, _, _) => i < |s.copies|
    case SaveCopy(i, _, newKey) => i < |s.copies| && newKey !in s.store.rows
        && (s.copies[i].pk.Some? ==> s.copies[i].pk.value in s.store.rows)
    case SetPref(i, _, _) => i < |s.copies|
  }

  function Step(s: System, e: Event): System
    requires Enabled(s, e)
  {
    match e
    case NewCopy(owner, number, primary, nickname, prefs) =>
      s.(copies := s.copies + [Copy(None, owner, number, primary, nickname, prefs)])
    case LoadCopy(k) =>
      var row := s.store.rows[k];
      s.(copies := s.copies + [Copy(Some(k), row.owner, row.number, row.primary, row.nickname, map[])])
    case EditCopy(i, number, primary, nickname) =>
      s.(copies := s.copies[i := s.copies[i].(number := number, primary := primary, nickname := nickname)])
    case SaveCopy(i, columns, newKey) =>
      System(SavedStore(s.store, s.copies[i], columns, newKey),
          s.copies[i := SavedCopy(s.store, s.copies[i], columns, newKey)])
    case SetPref(i, f, v) =>
      if s.copies[i].pk.None? then s.(copies := s.copies[i := s.copies[i].(pending := s.copies[i].pending[f := v])])
      else s.(store := s.store.(prefs :=
          s.store.prefs[s.copies[i].pk.value := PrefsOf(s.store, s.copies[i].pk.value)[f := v]]))
  }

  ghost predicate CanRun(s: System, events: seq<Event>)
    decreases |events|
  {
    events == [] || (Enabled(s, events[0]) && CanRun(Step(s, events[0]), events[1..]))
  }

  function Run(s: System, events: seq<Event>): System
    requires CanRun(s, events)
    decreases |events|
  {
    if events == [] then s else Run(Step(s, events[0]), events[1..])
  }

  /** A copy may be stale in every column but its owner, which nothing reassigns. */
  ghost predicate OwnersMatch(s: System) {
    forall i :: 0 <= i < |s.copies| && s.copies[i].pk.Some? ==>
      s.copies[i].pk.value in s.store.rows && s.store.rows[s.copies[i].pk.value].owner == s.copies[i].owner
  }

  ghost predicate Inv(s: System) {
    AtMostOnePrimary(s.store.rows) && OwnersMatch(s)
  }

  lemma SaveKeepsOwners(s: System, i: nat, columns: Columns, newKey: Key)
    requires OwnersMatch(s) && Enabled(s, SaveCopy(i, columns, newKey))
    ensures OwnersMatch(Step(s, SaveCopy(i, columns, newKey)))
  {
    var rows := SaveRows(s.store, s.copies[i], columns, newKey);
    forall k | k in s.store.rows
      ensures k in rows && rows[k].owner == s.store.rows[k].owner
    {
    }
  }

  lemma StepKeepsInv(s: System, e: Event)
    requires Inv(s) && Enabled(s, e)
    ensures Inv(Step(s, e))
  {
    if e.SaveCopy? {
      SaveKeepsOwners(s, e.saved, e.columns, e.newKey);
      SaveKeepsAtMostOne(s.store, s.copies[e.saved], e.columns, e.newKey);
    }
  }

  /** Whatever is loaded, edited and saved, stale or partial, no owner ever has two primary accounts. */
  lemma {:induction false} NeverTwoPrimaries(s: System, events: seq<Event>)
    requires Inv(s) && CanRun(s, events)
    ensures Inv(Run(s, events))
    decreases |events|
  {
    if events != [] {
      StepKeepsInv(s, events[0]);
      NeverTwoPrimaries(Step(s, events[0]), events[1..]);
    }
  }

  predicate IsPrimaryOf(rows: map<Key, Row>, owner: Owner, k: Key) {
    k in rows && rows[k].owner == owner && rows[k].primary
  }

  ghost predicate HasPrimary(rows: map<Key, Row>, owner: Owner) {
    exists k :: IsPrimaryOf(rows, owner, k)
  }

  /** Another account of the same owner is primary. */
  ghost predicate OtherPrimary(rows: map<Key, Row>, owner: Owner, k: Key) {
    exists j :: j != k && IsPrimaryOf(rows, owner, j)
  }

  /** Whether the saved row itself is primary afterwards. */
  predicate RowEndsPrimary(s: Store, copy: Copy, columns: Columns)
    requires copy.pk.Some? && copy.pk.value in s.rows
  {
    if SaveAccepted(s, copy, columns) && Writes(columns, PrimaryColumn) then copy.primary
    else s.rows[copy.pk.value].primary
  }

  /**
    After a save of an existing account the owner has a primary if and only if the saved
    row ends up primary, or another one was and the copy is not marked primary.
   */
  lemma PrimaryLeftIff(s: Store, copy: Copy, columns: Columns, newKey: Key)
    requires copy.pk.Some? && copy.pk.value in s.rows && s.rows[copy.pk.value].owner == copy.owner
    ensures HasPrimary(SaveRows(s, copy, columns, newKey), copy.owner)
            <==> RowEndsPrimary(s, copy, columns)
                 || (!copy.primary && OtherPrimary(s.rows, copy.owner, copy.pk.value))
  {
    var after := SaveRows(s, copy, columns, newKey);
    var k := copy.pk.value;
    assert IsPrimaryOf(after, copy.owner, k) <==> RowEndsPrimary(s, copy, columns);
    forall j | j != k
      ensures IsPrimaryOf(after, copy.owner, j) <==> !copy.primary && IsPrimaryOf(s.rows, copy.owner, j)
    {
    }
  }

  /** So an accepted save of a copy marked primary keeps one exactly if the flag is written or was set already. */
  lemma MarkedSaveLeavesPrimaryIff(s: Store, copy: Copy, columns: Columns, newKey: Key)
    requires copy.pk.Some? && copy.pk.value in s.rows && s.rows[copy.pk.value].owner == copy.owner
    requires copy.primary && SaveAccepted(s, copy, columns)
    ensures HasPrimary(SaveRows(s, copy, columns, newKey), copy.owner)
            <==> Writes(columns, PrimaryColumn) || s.rows[copy.pk.value].primary
  {
    PrimaryLeftIff(s, copy, columns, newKey);
  }

  /** A stale partial save can leave an owner with no primary account at all. */
  lemma PrimaryCanVanish()
    ensures var owner := Owner(1, "TASTYTRADE");
            var s := Store(map[1 := Row(owner, "A", false, ""), 2 := Row(owner, "B", true, "")], map[]);
            var stale := Copy(Some(1), owner, "A", true, "x", map[]);
            && AtMostOnePrimary(s.rows) && HasPrimary(s.rows, owner)
            && !HasPrimary(SaveRows(s, stale, Some({NicknameColumn}), 3), owner)
  {
    var owner := Owner(1, "TASTYTRADE");
    var s := Store(map[1 := Row(owner, "A", false, ""), 2 := Row(owner, "B", true, "")], map[]);
    var stale := Copy(Some(1), owner, "A", true, "x", map[]);
    assert IsPrimaryOf(s.rows, owner, 2);
    assert SaveAccepted(s, stale, Some({NicknameColumn}));
    MarkedSaveLeavesPrimaryIff(s, stale, Some({NicknameColumn}), 3);
  }

  // ---------------------------------------------------------------- preferences read back

  /** Across any save, accepted or not, every preference reads as it did before. */
  lemma SaveKeepsPreferences(s: Store, copy: Copy, columns: Columns, newKey: Key, f: PrefField)
    requires copy.pk.Some? ==> copy.pk.value in s.rows && copy.pending == map[]
    requires copy.pk.None? ==> newKey !in s.prefs
    ensures ReadPref(SavedStore(s, copy, columns, newKey), SavedCopy(s, copy, columns, newKey), f)
              == ReadPref(s, copy, f)
  {
    match f
    case AutomatedTrading => assert f in DEFAULT_PREFS;
    case EntryOffset => assert f in DEFAULT_PREFS;
  }

  /**
    A preference set before or after the first save reads back as set, then and across the save; the other
    one is untouched.
   */
  lemma PreferenceReadsBack(
      s: Store, copy: Copy, f: PrefField, v: PrefValue, g: PrefField, columns: Columns, newKey: Key)
    requires copy.pk.Some? ==> copy.pk.value in s.rows && copy.pending == map[]
    requires copy.pk.None? ==> newKey !in s.prefs
    ensures var s1 := if copy.pk.None? then s
              else s.(prefs := s.prefs[copy.pk.value := PrefsOf(s, copy.pk.value)[f := v]]);
            var c1 := if copy.pk.None? then copy.(pending := copy.pending[f := v]) else copy;
            && ReadPref(s1, c1, f) == v
            && (g != f ==> ReadPref(s1, c1, g) == ReadPref(s, copy, g))
            && ReadPref(SavedStore(s1, c1, columns, newKey), SavedCopy(s1, c1, columns, newKey), g)
               == (if g == f then v else ReadPref(s, copy, g))
  {
    var s1 := if copy.pk.None? then s else s.(prefs := s.prefs[copy.pk.value := PrefsOf(s, copy.pk.value)[f := v]]);
    var c1 := if copy.pk.None? then copy.(pending := copy.pending[f := v]) else copy;
    SaveKeepsPreferences(s1, c1, columns, newKey, f);
    SaveKeepsPreferences(s1, c1, columns, newKey, g);
  }

  // ---------------------------------------------------------------- what a save writes

  /** An accepted save of an existing account: the named columns hold the copy's values, the others the stored ones. */
  lemma SaveWritesColumns(s: Store, copy: Copy, columns: Columns, newKey: Key)
    requires copy.pk.Some? && copy.pk.value in s.rows && SaveAccepted(s, copy, columns)
    ensures var after := SaveRows(s, copy, columns, newKey);
            var was, row := s.rows[copy.pk.value], after[copy.pk.value];
            var all := columns.None?;
            && row.owner == (if all || OwnerColumn in columns.value then copy.owner else was.owner)
            && row.number == (if all || NumberColumn in columns.value then copy.number else was.number)
            && row.primary == (if all || PrimaryColumn in columns.value then copy.primary else was.primary)
            && row.nickname == (if all || NicknameColumn in columns.value then copy.nickname else was.nickname)
  {
  }

  /** The other rows keep everything but the flag, which the owner's rows lose to a copy marked primary. */
  lemma SaveClearsOthers(s: Store, copy: Copy, columns: Columns, newKey: Key, k: Key)
    requires copy.pk.Some? ==> copy.pk.value in s.rows
    requires newKey !in s.rows && k in s.rows && Some(k) != copy.pk
    ensures var after := SaveRows(s, copy, columns, newKey);
            && k in after && after[k].owner == s.rows[k].owner && after[k].number == s.rows[k].number
            && after[k].nickname == s.rows[k].nickname
            && (after[k].primary <==> s.rows[k].primary && !(copy.primary && s.rows[k].owner == copy.owner))
  {
  }

  /** A first save inserts the copy as it is; it is refused for a taken number, or when columns are named. */
  lemma FirstSaveInserts(s: Store, copy: Copy, columns: Columns, newKey: Key)
    requires copy.pk.None? && newKey !in s.rows
    ensures var after := SaveRows(s, copy, columns, newKey);
            && (newKey in after <==>
                 columns.None? && forall k :: k in s.rows ==>
                   !(s.rows[k].owner == copy.owner && s.rows[k].number == copy.number))
            && (newKey in after ==> after[newKey] == Row(copy.owner, copy.number, copy.primary, copy.nickname))
  {
  }
}
