/** The session.create store over its file: the loops and roll-backs of the program,
    each method proved against the ledger's specification. */
module SessionStore {
  import opened Options
  import opened SessionLedger
  import opened StateFile

  /** One line of the stored index. */
  datatype Entry = Entry(key: Key, record: Record)

  // ----- The stored index -----

  ghost predicate Lists(entries: seq<Entry>, records: Records) {
    && |entries| == |records|
    && (forall i, j :: 0 <= i < j < |entries| ==> entries[i].key != entries[j].key)
    && (forall i :: 0 <= i < |entries| ==> entries[i].key in records && records[entries[i].key] == entries[i].record)
  }

  /** The records of an index; of a repeated key the first. */
  function RecordsIn(entries: seq<Entry>): (records: Records) {
    if entries == [] then map[] else RecordsIn(entries[1..])[entries[0].key := entries[0].record]
  }

  predicate Loadable(entries: seq<Entry>) {
    && |entries| <= MAX_SESSION_CREATE_RECORDS
    && (forall i, j :: 0 <= i < j < |entries| ==> entries[i].key != entries[j].key)
    && (forall i :: 0 <= i < |entries| ==> ValidRecord(entries[i].key, entries[i].record))
  }

  lemma {:induction false} RecordsInHas(entries: seq<Entry>, i: nat)
    requires i < |entries| && forall i, j :: 0 <= i < j < |entries| ==> entries[i].key != entries[j].key
    ensures entries[i].key in RecordsIn(entries) && RecordsIn(entries)[entries[i].key] == entries[i].record
  {
    if i > 0 {
      var rest := entries[1..];
      assert forall i, j :: 0 <= i < j < |rest| ==> rest[i] == entries[i + 1] && rest[j] == entries[j + 1];
      RecordsInHas(rest, i - 1);
      assert entries[0].key != entries[i].key;
    }
  }

  lemma {:induction false} RecordsInOnly(entries: seq<Entry>, k: Key)
    ensures k in RecordsIn(entries) <==> exists i :: 0 <= i < |entries| && entries[i].key == k
  {
    if entries != [] {
      var rest := entries[1..];
      RecordsInOnly(rest, k);
      if i :| 0 <= i < |rest| && rest[i].key == k {
        assert entries[i + 1].key == k;
      }
      if i :| 0 <= i < |entries| && entries[i].key == k {
        assert i == 0 || rest[i - 1].key == k;
      }
    }
  }

  lemma {:induction false} RecordsInSize(entries: seq<Entry>)
    requires forall i, j :: 0 <= i < j < |entries| ==> entries[i].key != entries[j].key
    ensures |RecordsIn(entries)| == |entries|
  {
    if entries != [] {
      var rest := entries[1..];
      assert forall i :: 0 <= i < |rest| ==> rest[i] == entries[i + 1];
      RecordsInSize(rest);
      RecordsInOnly(rest, entries[0].key);
    }
  }

  lemma {:induction false} SameSizeSubset<T>(a: set<T>, b: set<T>)
    requires a <= b && |a| == |b|
    ensures a == b
  {
    assert b == a + (b - a);
  }

  /** An index that lists the records holds exactly them. */
  lemma ListedIsExact(entries: seq<Entry>, records: Records)
    requires Lists(entries, records)
    ensures RecordsIn(entries) == records
  {
    var r := RecordsIn(entries);
    forall k | k in r
      ensures k in records && r[k] == records[k]
    {
      RecordsInOnly(entries, k);
      var i :| 0 <= i < |entries| && entries[i].key == k;
      RecordsInHas(entries, i);
    }
    RecordsInSize(entries);
    assert |r| == |r.Keys| && |records| == |records.Keys|;
    SameSizeSubset(r.Keys, records.Keys);
  }

  /** The index written from valid records is loaded back as those records. */
  lemma WrittenIsLoadable(entries: seq<Entry>, records: Records)
    requires Lists(entries, records)
    ensures Loadable(entries) <==> RecordsOk(records)
    ensures RecordsIn(entries) == records
  {
    hide ValidRecord;
    ListedIsExact(entries, records);
    forall k | k in records
      ensures exists i :: 0 <= i < |entries| && entries[i].key == k
    {
      RecordsInOnly(entries, k);
    }
  }

  // ----- Order of the records in the file -----

  predicate Ordered(entries: seq<Entry>) {
    forall i, j :: 0 <= i < j < |entries| ==> entries[i].record.updatedAt <= entries[j].record.updatedAt
  }

  method InsertByTime(entries: seq<Entry>, e: Entry, ghost records: Records) returns (r: seq<Entry>)
    requires Ordered(entries) && Lists(entries, records) && e.key !in records
    ensures Ordered(r) && Lists(r, records[e.key := e.record])
  {
    hide Lists;
    var i := |entries|;
    while i > 0 && e.record.updatedAt < entries[i - 1].record.updatedAt
      invariant 0 <= i <= |entries|
      invariant forall j :: i <= j < |entries| ==> e.record.updatedAt <= entries[j].record.updatedAt
    {
      i := i - 1;
    }
    r := entries[..i] + [e] + entries[i..];
    InsertedLists(entries, e, i, records);
  }

  lemma InsertedLists(entries: seq<Entry>, e: Entry, i: nat, records: Records)
    requires Lists(entries, records) && e.key !in records && i <= |entries|
    ensures Lists(entries[..i] + [e] + entries[i..], records[e.key := e.record])
  {
    var r := entries[..i] + [e] + entries[i..];
    forall j | 0 <= j < |r|
      ensures r[j] == if j < i then entries[j] else if j == i then e else entries[j - 1]
    {
    }
  }

  /** The records written so far are those whose keys are not left. */
  ghost predicate PartWritten(written: Records, left: set<Key>, records: Records) {
    left <= records.Keys && written.Keys == records.Keys - left && forall k :: k in written ==> written[k] == records[k]
  }

  lemma NothingWritten(records: Records)
    ensures Ordered([]) && Lists([], map[]) && PartWritten(map[], records.Keys, records)
  {
  }

  lemma WriteOne(written: Records, left: set<Key>, records: Records, key: Key)
    requires PartWritten(written, left, records) && key in left
    ensures key in records && key !in written && |left - {key}| < |left|
    ensures PartWritten(written[key := records[key]], left - {key}, records)
  {
  }

  lemma AllWritten(written: Records, records: Records)
    requires PartWritten(written, {}, records)
    ensures written == records
  {
  }

  /** The marking loop of a deletion with the records of some keys left. */
  ghost predicate PartDoomed(was: Records, left: set<Key>, records: Records, previous: Records, deleting: bool,
                             session: string, now: Time)
  {
    && left <= records.Keys == was.Keys
    && (forall k :: k in records ==> records[k] == if k in left then was[k] else Doomed(was[k], session, now))
    && previous.Keys == ToDoom(was, session).Keys - left
    && (forall k :: k in previous ==> previous[k] == was[k])
    && (deleting <==> exists k :: k in was && k !in left && IsDoomed(was[k], session))
  }

  lemma NothingDoomed(was: Records, session: string, now: Time)
    ensures PartDoomed(was, was.Keys, was, map[], false, session, now)
  {
  }

  lemma DoomOne(was: Records, left: set<Key>, records: Records, previous: Records, deleting: bool,
                session: string, now: Time, key: Key)
    requires PartDoomed(was, left, records, previous, deleting, session, now) && key in left
    ensures key in records && |left - {key}| < |left|
    ensures var r := records[key];
            if SessionOf(r) != session then PartDoomed(was, left - {key}, records, previous, deleting, session, now)
            else if r.state.Deleting? then PartDoomed(was, left - {key}, records, previous, true, session, now)
            else PartDoomed(was, left - {key}, records[key := r.(state := Deleting, updatedAt := now)],
                            previous[key := r], deleting, session, now)
  {
    hide PartDoomed;
    StillLeft(was, left, records, previous, deleting, session, now, key);
    if SessionOf(was[key]) != session || was[key].state.Deleting? {
      NotDoomedHere(was, left, records, previous, deleting, session, now, key);
    } else {
      DoomedHere(was, left, records, previous, deleting, session, now, key);
    }
  }

  lemma StillLeft(was: Records, left: set<Key>, records: Records, previous: Records, deleting: bool,
                  session: string, now: Time, key: Key)
    requires PartDoomed(was, left, records, previous, deleting, session, now) && key in left
    ensures key in records && key in was && records[key] == was[key] && |left - {key}| < |left|
  {
    hide Doomed, ToDoom, IsDoomed;
  }

  lemma NotDoomedHere(was: Records, left: set<Key>, records: Records, previous: Records, deleting: bool,
                      session: string, now: Time, key: Key)
    requires PartDoomed(was, left, records, previous, deleting, session, now) && key in left && key in was
    requires SessionOf(was[key]) != session || was[key].state.Deleting?
    ensures PartDoomed(was, left - {key}, records, previous, deleting || SessionOf(was[key]) == session, session, now)
  {
    hide SessionOf;
  }

  lemma DoomedHere(was: Records, left: set<Key>, records: Records, previous: Records, deleting: bool,
                   session: string, now: Time, key: Key)
    requires PartDoomed(was, left, records, previous, deleting, session, now) && key in left && key in was
    requires SessionOf(was[key]) == session && !was[key].state.Deleting?
    ensures PartDoomed(was, left - {key}, records[key := was[key].(state := Deleting, updatedAt := now)],
                       previous[key := was[key]], deleting, session, now)
  {
    hide SessionOf;
  }

  lemma EveryOneDoomed(was: Records, records: Records, previous: Records, deleting: bool, session: string, now: Time)
    requires PartDoomed(was, {}, records, previous, deleting, session, now)
    ensures records == AllDoomed(was, session, now) && previous == ToDoom(was, session)
    ensures deleting == AnyDoomed(was, session)
  {
  }

  /** The file as the store sees it; `None` is no file. The versions are those a power
      loss may bring back. */
  class LedgerFile {
    var content: Option<seq<Entry>>
    ghost var versions: set<Records>

    constructor (content: Option<seq<Entry>>, ghost versions: set<Records>)
      ensures this.content == content && this.versions == versions
    {
      this.content := content;
      this.versions := versions;
    }

    ghost function Visible(): (records: Records)
      reads this
    {
      if content.None? then map[] else RecordsIn(content.value)
    }
  }

  class Store {
    var records: Records
    var broken: bool
    const file: LedgerFile

    ghost function AsLedger(): (l: Ledger)
      reads this, file
    {
      Ledger(records, file.Visible(), file.versions, broken)
    }

    /** newSessionCreateStore and load. */
    constructor (file: LedgerFile, readable: bool, now: Time)
      ensures this.file == file
      ensures broken <==> !readable || (file.content.Some? && !Loadable(file.content.value))
      ensures !broken ==> records == Marked(file.Visible(), now)
      ensures !broken && RecordsOk(file.Visible()) ==> AsLedger() == Opened(file.Visible(), file.versions, true, now)
    {
      this.file := file;
      this.records := map[];
      this.broken := !readable;
      new;
      if readable && file.content.Some? {
        var entries := file.content.value;
        broken := |entries| > MAX_SESSION_CREATE_RECORDS;
        var i := 0;
        while !broken && i < |entries|
          invariant 0 <= i <= |entries| && this.file == file
          invariant !broken ==> |entries| <= MAX_SESSION_CREATE_RECORDS
          invariant !broken ==> Lists(entries[..i], records)
          invariant !broken ==> forall j :: 0 <= j < i ==> ValidRecord(entries[j].key, entries[j].record)
          invariant broken ==> !Loadable(entries)
          decreases |entries| - i, !broken
        {
          var e := entries[i];
          if !ValidRecord(e.key, e.record) {
            broken := true;
          } else if e.key in records {
            SeenBefore(entries, i, records);
            broken := true;
          } else {
            InsertedLists(entries[..i], e, i, records);
            assert entries[..i + 1] == entries[..i][..i] + [e] + entries[..i][i..];
            records := records[e.key := e.record];
            i := i + 1;
          }
        }
        if !broken {
          assert entries[..i] == entries;
          ListedIsExact(entries, records);
        }
      }
      if !broken {
        MarkInterrupted(now);
      }
    }

    /** markInterruptedSessionCreateRecords. */
    method MarkInterrupted(now: Time)
      modifies this`records
      ensures records == Marked(old(records), now)
    {
      var left := records.Keys;
      while left != {}
        invariant left <= records.Keys == old(records).Keys
        invariant forall k :: k in records ==>
                    records[k] == if k in left then old(records)[k] else MarkedRecord(old(records)[k], now)
        decreases |left|
      {
        var key :| key in left;
        var record := records[key];
        if record.state.Reserved? || record.state.ThreadCreated? {
          records := records[key := record.(state := InDoubt, updatedAt := now)];
        }
        left := left - {key};
      }
    }

    /** The records as lines of the index, oldest first. */
    method Encode() returns (entries: seq<Entry>)
      ensures Ordered(entries) && Lists(entries, records)
    {
      hide Lists, Ordered, PartWritten;
      entries := [];
      var left := records.Keys;
      ghost var written: Records := map[];
      NothingWritten(records);
      while left != {}
        invariant Ordered(entries) && Lists(entries, written)
        invariant PartWritten(written, left, records)
        decreases |left|
      {
        var key :| key in left;
        WriteOne(written, left, records, key);
        var e := Entry(key, records[key]);
        entries := InsertByTime(entries, e, written);
        written := written[key := e.record];
        left := left - {key};
      }
      AllWritten(written, records);
    }

    /** saveLocked. */
    method SaveLocked(save: Save, now: Time) returns (committed: bool, failed: bool)
      modifies this`records, file
      ensures AsLedger() == Saved(old(AsLedger()), save, now)
      ensures committed == !save.NotCommitted? && failed == !save.Synced?
      ensures committed ==> file.content.Some? && Ordered(file.content.value) && Lists(file.content.value, old(records))
    {
      if save.NotCommitted? {
        return false, true;
      }
      var entries := Encode();
      ListedIsExact(entries, records);
      file.content := Some(entries);
      file.versions := if save.Unsynced? then file.versions + {records} else {records};
      if save.Unsynced? {
        MarkInterrupted(now);
        return true, true;
      }
      return true, false;
    }

    method Begin(key: Key, hash: Hash, legacy: seq<Hash>, save: Save, now: Time) returns (b: Begun)
      modifies this`records, file
      ensures AsLedger() == SessionLedger.Begin(old(AsLedger()), key, hash, legacy, save, now).0
      ensures b == SessionLedger.Begin(old(AsLedger()), key, hash, legacy, save, now).1
    {
      if broken {
        return BeginUnavailable;
      }
      if !ValidRecord(key, NewReservation(hash, now)) {
        return BeginInvalid;
      }
      if key in records {
        var current := records[key];
        if current.hash != hash {
          var isLegacy := IsLegacy(current.hash, legacy);
          if !isLegacy {
            return BeginConflict;
          }
          records := records[key := current.(hash := hash, updatedAt := now)];
          var committed, failed := SaveLocked(save, now);
          if failed {
            if !committed {
              Restore(key, current);
            }
            return BeginNotSaved;
          }
        }
        return Answer(current);
      }
      if |records| >= MAX_SESSION_CREATE_RECORDS {
        return BeginFull;
      }
      records := records[key := NewReservation(hash, now)];
      var committed, failed := SaveLocked(save, now);
      if failed {
        if !committed {
          records := records - {key};
          assert records == old(records);
        }
        return BeginNotSaved;
      }
      return Proceed;
    }

    method IsLegacy(hash: Hash, legacy: seq<Hash>) returns (found: bool)
      ensures found <==> hash != "" && hash in legacy
    {
      for i := 0 to |legacy|
        invariant hash == "" || hash !in legacy[..i]
      {
        if legacy[i] != "" && hash == legacy[i] {
          return true;
        }
      }
      return false;
    }

    method Restore(key: Key, record: Record)
      modifies this`records
      ensures records == old(records)[key := record]
    {
      records := records[key := record];
    }

    method SetAttempt(key: Key, attempt: Attempt, save: Save, now: Time) returns (o: Outcome)
      modifies this`records, file
      ensures AsLedger() == SessionLedger.SetAttempt(old(AsLedger()), key, attempt, save, now).0
      ensures o == SessionLedger.SetAttempt(old(AsLedger()), key, attempt, save, now).1
    {
      if broken {
        return Unavailable;
      }
      if key !in records || !records[key].state.Reserved? {
        return Missing;
      }
      var record := records[key];
      if record.attempt.Some? {
        return if record.attempt.value == attempt then Done else Conflict;
      }
      var changed := record.(attempt := Some(attempt), updatedAt := now);
      if !ValidRecord(key, changed) {
        return Invalid;
      }
      records := records[key := changed];
      var committed, failed := SaveLocked(save, now);
      if failed {
        if !committed {
          Restore(key, record);
          assert records == old(records);
        }
        return NotSaved;
      }
      return Done;
    }

    method Update(key: Key, state: State, result: Option<Result>, save: Save, now: Time) returns (o: Outcome)
      modifies this`records, file
      ensures AsLedger() == SessionLedger.Update(old(AsLedger()), key, state, result, save, now).0
      ensures o == SessionLedger.Update(old(AsLedger()), key, state, result, save, now).1
    {
      if broken {
        return Unavailable;
      }
      if key !in records {
        return Missing;
      }
      var previous := records[key];
      var record := Changed(previous, state, result, now);
      if !ValidRecord(key, record) {
        return Invalid;
      }
      records := records[key := record];
      var committed, failed := SaveLocked(save, now);
      if failed {
        if !committed && !state.InDoubt? {
          Restore(key, previous);
          assert records == old(records);
        }
        return NotSaved;
      }
      return Done;
    }

    method Abort(key: Key, save: Save, now: Time) returns (o: Outcome)
      modifies this`records, file
      ensures AsLedger() == SessionLedger.Abort(old(AsLedger()), key, save, now).0
      ensures o == SessionLedger.Abort(old(AsLedger()), key, save, now).1
    {
      if broken {
        return Unavailable;
      }
      if key !in records {
        return Nothing;
      }
      var record := records[key];
      if !record.state.Reserved? {
        return Conflict;
      }
      o := Drop(key, save, now);
    }

    method ReleaseUnresolved(key: Key, save: Save, now: Time) returns (o: Outcome)
      modifies this`records, file
      ensures AsLedger() == SessionLedger.ReleaseUnresolved(old(AsLedger()), key, save, now).0
      ensures o == SessionLedger.ReleaseUnresolved(old(AsLedger()), key, save, now).1
    {
      if broken {
        return Unavailable;
      }
      if key !in records {
        return Nothing;
      }
      var record := records[key];
      if !record.state.InDoubt? || record.result.Some? {
        return Conflict;
      }
      o := Drop(key, save, now);
    }

    /** Delete one record and save, or put it back. */
    method Drop(key: Key, save: Save, now: Time) returns (o: Outcome)
      requires key in records
      modifies this`records, file
      ensures AsLedger() == SavedOrTakenBack(old(AsLedger()), old(records) - {key}, save, now)
      ensures o == SaveOutcome(save)
    {
      var record := records[key];
      records := records - {key};
      var committed, failed := SaveLocked(save, now);
      if failed {
        if !committed {
          Restore(key, record);
          assert records == old(records);
        }
        return NotSaved;
      }
      return Done;
    }

    /** The marking loop of prepareSessionDelete. */
    method Doom(session: string, now: Time) returns (previous: Records, deleting: bool)
      modifies this`records
      ensures records == AllDoomed(old(records), session, now)
      ensures previous == ToDoom(old(records), session)
      ensures deleting == AnyDoomed(old(records), session)
    {
      hide PartDoomed;
      previous := map[];
      deleting := false;
      var left := records.Keys;
      ghost var was := records;
      NothingDoomed(was, session, now);
      while left != {}
        invariant PartDoomed(was, left, records, previous, deleting, session, now)
        decreases |left|
      {
        var key :| key in left;
        DoomOne(was, left, records, previous, deleting, session, now, key);
        var record := records[key];
        if SessionOf(record) == session {
          if record.state.Deleting? {
            deleting := true;
          } else {
            previous := previous[key := record];
            records := records[key := record.(state := Deleting, updatedAt := now)];
          }
        }
        left := left - {key};
      }
      EveryOneDoomed(was, records, previous, deleting, session, now);
    }

    method PrepareSessionDelete(raw: string, save: Save, now: Time) returns (o: Outcome)
      modifies this`records, file
      ensures AsLedger() == PrepareDelete(old(AsLedger()), raw, save, now).0
      ensures o == PrepareDelete(old(AsLedger()), raw, save, now).1
    {
      var session := Trim(raw);
      if session == "" {
        return Nothing;
      }
      if broken {
        return Unavailable;
      }
      hide AllDoomed, ToDoom, AnyDoomed, AnyToDoom, Trim;
      var previous, deleting := Doom(session, now);
      DoomingSome(old(records), session, now);
      if previous == map[] {
        return if deleting then Done else Nothing;
      }
      var committed, failed := SaveLocked(save, now);
      if failed {
        if !committed {
          records := records + previous;
        }
        return NotSaved;
      }
      return Done;
    }

    /** The removing loop of finalizeSessionDelete. */
    method Remove(session: string) returns (removed: Records)
      modifies this`records
      ensures records == WithoutDoomed(old(records), session)
      ensures removed == AlreadyDoomed(old(records), session)
    {
      hide IsDoomed;
      removed := map[];
      var left := records.Keys;
      while left != {}
        invariant left <= records.Keys <= old(records).Keys && removed.Keys <= old(records).Keys
        invariant forall k :: k in old(records) ==> (k in records <==> k in left || !IsDoomed(old(records)[k], session))
        invariant forall k :: k in old(records) ==> (k in removed <==> k !in left && IsDoomed(old(records)[k], session))
        invariant forall k :: k in records ==> records[k] == old(records)[k]
        invariant forall k :: k in removed ==> removed[k] == old(records)[k]
        decreases |left|
      {
        var key :| key in left;
        var record := records[key];
        if IsDoomed(record, session) {
          removed := removed[key := record];
          records := records - {key};
        }
        left := left - {key};
      }
    }

    method FinalizeSessionDelete(raw: string, save: Save, now: Time) returns (o: Outcome)
      modifies this`records, file
      ensures AsLedger() == FinalizeDelete(old(AsLedger()), raw, save, now).0
      ensures o == FinalizeDelete(old(AsLedger()), raw, save, now).1
    {
      var session := Trim(raw);
      if session == "" {
        return Nothing;
      }
      if broken {
        return Unavailable;
      }
      hide WithoutDoomed, AlreadyDoomed, AnyDoomed, Trim;
      var removed := Remove(session);
      RemovingSome(old(records), session);
      if removed == map[] {
        return Nothing;
      }
      var committed, failed := SaveLocked(save, now);
      if failed {
        if !committed {
          records := records + removed;
        }
        return NotSaved;
      }
      return Done;
    }
  }

  lemma SeenBefore(entries: seq<Entry>, i: nat, records: Records)
    requires i < |entries| && Lists(entries[..i], records) && entries[i].key in records
    ensures !Loadable(entries)
  {
    ListedIsExact(entries[..i], records);
    RecordsInOnly(entries[..i], entries[i].key);
    var j :| 0 <= j < |entries[..i]| && entries[..i][j].key == entries[i].key;
    assert entries[j].key == entries[i].key;
  }

  ghost function ToDoom(records: Records, session: string): (r: Records) {
    map k | k in records && SessionOf(records[k]) == session && !records[k].state.Deleting? :: records[k]
  }

  ghost function AlreadyDoomed(records: Records, session: string): (r: Records) {
    map k | k in records && IsDoomed(records[k], session) :: records[k]
  }

  /** The records set aside before marking restore the old records, and there are some
      exactly when there was something to mark. */
  lemma DoomingSome(records: Records, session: string, now: Time)
    ensures ToDoom(records, session) != map[] <==> AnyToDoom(records, session)
    ensures AllDoomed(records, session, now) + ToDoom(records, session) == records
    ensures ToDoom(records, session) == map[] ==> AllDoomed(records, session, now) == records
  {
    if AnyToDoom(records, session) {
      var k :| k in records && SessionOf(records[k]) == session && !records[k].state.Deleting?;
      assert k in ToDoom(records, session);
    } else {
      assert ToDoom(records, session).Keys == {};
    }
  }

  lemma RemovingSome(records: Records, session: string)
    ensures AlreadyDoomed(records, session) != map[] <==> AnyDoomed(records, session)
    ensures WithoutDoomed(records, session) + AlreadyDoomed(records, session) == records
    ensures AlreadyDoomed(records, session) == map[] ==> WithoutDoomed(records, session) == records
  {
    if AnyDoomed(records, session) {
      var k :| k in records && IsDoomed(records[k], session);
      assert k in AlreadyDoomed(records, session);
    } else {
      assert AlreadyDoomed(records, session).Keys == {};
    }
  }
}
