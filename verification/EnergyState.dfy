/**
 The live Energy Saving state, the row it is stored in, and what a restart
 rebuilds from that row.
 */
module EnergyState {
  import opened Documents
  import opened Wrappers
  import opened EnergyConfig

  const MAX_SOURCE_LENGTH := 64

  /** A device someone took back by hand. */
  datatype Release = Release(roomId: Option<string>, releasedAt: nat, source: string)

  datatype Occupancy = Occupancy(occupied: Option<bool>, available: bool, changedAt: nat)

  datatype State = State(
    level: Option<Level>,
    activatedAt: Option<nat>,
    lastAppliedAt: Option<nat>,
    lockout: bool,
    released: seq<string>,
    details: map<string, Release>,
    occupancy: map<string, Occupancy>,
    revision: nat)

  const DEFAULT_STATE := State(None, None, None, false, [], map[], map[], 0)

  // -- the stored row ---------------------------------------------------------------

  /** A record's fields as they came; Null stands for a missing one. */
  datatype ReleaseDoc = NoRelease | ReleaseDoc(roomId: Json, releasedAt: Json, source: Json)

  datatype OccupancyDoc = NoOccupancy | OccupancyDoc(occupied: Json, available: Json, changedAt: Json)

  datatype Dict<V> = NotADict | Dict(keys: seq<string>, at: map<string, V>)

  datatype Row = NotARow | Row(
    activeLevel: Option<Level>,     // None for anything that is not a level's name
    activatedAt: Json,
    lastAppliedAt: Json,
    lockout: Json,
    released: Json,
    details: Dict<ReleaseDoc>,
    occupancy: Dict<OccupancyDoc>,
    revision: Json)

  /** A non-negative number as whole seconds. */
  function Seconds(v: Json): Option<nat> {
    if v.Int? && v.n >= 0 then Some(v.n)
    else if v.Float? && v.r >= 0.0 then Some(v.r.Floor)
    else None
  }

  function CoerceRelease(doc: ReleaseDoc): Release {
    if doc.NoRelease? then Release(None, 0, "unknown")
    else Release(
      if doc.roomId.Str? && !Blank(doc.roomId.s) then Some(doc.roomId.s) else None,
      if Seconds(doc.releasedAt).Some? then Seconds(doc.releasedAt).value else 0,
      // Checked for blank before it is cut.
      if doc.source.Str? && !Blank(doc.source.s) then Cut(doc.source.s) else "unknown")
  }

  function Cut(s: string): string { if |s| <= MAX_SOURCE_LENGTH then s else s[..MAX_SOURCE_LENGTH] }

  /** The record an occupancy row gives, if it gives one. */
  function CoerceOccupancy(doc: OccupancyDoc): Option<Occupancy> {
    if doc.NoOccupancy? || !doc.available.Bool? || (doc.available.b && !doc.occupied.Bool?) then None
    else Some(Occupancy(
      if doc.available.b then Some(doc.occupied.b) else None,
      doc.available.b,
      if Seconds(doc.changedAt).Some? then Seconds(doc.changedAt).value else 0))
  }

  /** The room map the rows give, in order; a later key that cleans alike wins. */
  function CollectRooms(keys: seq<string>, at: map<string, OccupancyDoc>): map<string, Occupancy> {
    if keys == [] then map[]
    else
      var key := keys[|keys| - 1];
      var before := CollectRooms(keys[..|keys| - 1], at);
      var room := Clean(Str(key), false);
      var record := if key in at then CoerceOccupancy(at[key]) else None;
      if room.Ok? && record.Some? then before[room.value := record.value] else before
  }

  ghost function ReleasedIn(doc: Json): seq<string> {
    var list := CleanList(if doc.Arr? then doc else Arr([]), true);
    if list.Ok? then list.value else []
  }

  function DetailsOf(ids: seq<string>, docs: Dict<ReleaseDoc>): map<string, Release> {
    map e | e in ids :: CoerceRelease(DocOf(docs, e))
  }

  function DocOf(docs: Dict<ReleaseDoc>, e: string): ReleaseDoc {
    if docs.Dict? && e in docs.at then docs.at[e] else NoRelease
  }

  function RoomsOf(rooms: Dict<OccupancyDoc>): map<string, Occupancy> {
    if rooms.Dict? then CollectRooms(rooms.keys, rooms.at) else map[]
  }

  /** The state the coerced parts make; without a level only the times and revision stay. */
  function Build(level: Option<Level>, activatedAt: Option<nat>, lastAppliedAt: Option<nat>, lockout: Json,
                 details: map<string, Release>, rooms: map<string, Occupancy>, revision: nat): State {
    if level.None? then DEFAULT_STATE.(activatedAt := activatedAt, lastAppliedAt := lastAppliedAt, revision := revision)
    else State(level, activatedAt, lastAppliedAt,
      if level.value.Smart? && lockout.Bool? then lockout.b else true,
      Sorted(details.Keys), details, if level.value.Smart? then rooms else map[], revision)
  }

  /** _coerce_state: fields that fail fall back one by one. */
  ghost function Coerce(row: Row): State {
    if row.NotARow? then DEFAULT_STATE
    else Build(row.activeLevel, Seconds(row.activatedAt), Seconds(row.lastAppliedAt), row.lockout,
               DetailsOf(ReleasedIn(row.released), row.details), RoomsOf(row.occupancy),
               if row.revision.Int? && row.revision.n >= 0 then row.revision.n else 0)
  }

  function Maybe(v: Option<nat>): Json { if v.Some? then Int(v.value) else Null }

  function ReleaseRow(r: Release): ReleaseDoc {
    ReleaseDoc(if r.roomId.Some? then Str(r.roomId.value) else Null, Int(r.releasedAt), Str(r.source))
  }

  function OccupancyRow(o: Occupancy): OccupancyDoc {
    OccupancyDoc(if o.occupied.Some? then Bool(o.occupied.value) else Null, Bool(o.available), Int(o.changedAt))
  }

  function DetailsDoc(d: map<string, Release>): Dict<ReleaseDoc> {
    Dict(Sorted(d.Keys), map e | e in d :: ReleaseRow(d[e]))
  }

  function RoomsDoc(rooms: map<string, Occupancy>): Dict<OccupancyDoc> {
    Dict(Sorted(rooms.Keys), map r | r in rooms :: OccupancyRow(rooms[r]))
  }

  /** The row _commit_state writes. */
  function RowOf(st: State): Row {
    Row(st.level,
        Maybe(st.activatedAt),
        Maybe(st.lastAppliedAt),
        Bool(st.lockout),
        Strings(st.released),
        DetailsDoc(st.details),
        RoomsDoc(st.occupancy),
        Int(st.revision))
  }

  // -- what every reachable state is -----------------------------------------------------

  predicate SoundRelease(r: Release) {
    |r.source| <= MAX_SOURCE_LENGTH && (r.roomId.Some? ==> !Blank(r.roomId.value))
  }

  predicate SoundOccupancy(o: Occupancy) { o.available <==> o.occupied.Some? }

  ghost predicate SoundDetails(d: map<string, Release>) {
    forall e :: e in d ==> CleanItem(e, true) && SoundRelease(d[e])
  }

  ghost predicate SoundRooms(rooms: map<string, Occupancy>) {
    forall r :: r in rooms ==> CleanId(r) && SoundOccupancy(rooms[r])
  }

  ghost predicate Sound(st: State) {
    && st.released == Sorted(st.details.Keys)
    && SoundDetails(st.details)
    && SoundRooms(st.occupancy)
    && (st.level.None? ==> !st.lockout && st.details == map[])
    && (st.level.Some? && !st.level.value.Smart? ==> st.lockout)
    && (st.level != Some(Smart) ==> st.occupancy == map[])
  }

  /** A restart forgets every release past the list bound, and a source cut to blanks. */
  function Restarted(st: State): State {
    if |st.released| > MAX_LIST_ITEMS then st.(released := [], details := map[])
    else st.(details := RereadAll(st.details))
  }

  function RereadAll(d: map<string, Release>): map<string, Release> { map e | e in d :: Reread(d[e]) }

  function Reread(r: Release): Release { if Blank(r.source) then r.(source := "unknown") else r }

  predicate SurvivesRestart(st: State) {
    |st.released| <= MAX_LIST_ITEMS && (forall e :: e in st.details ==> !Blank(st.details[e].source))
  }

  // -- proofs -------------------------------------------------------------------------------

  lemma {:induction false} CollectRoomsSound(keys: seq<string>, at: map<string, OccupancyDoc>)
    ensures SoundRooms(CollectRooms(keys, at))
  {
    if keys != [] { CollectRoomsSound(keys[..|keys| - 1], at); }
  }

  lemma ReleasedInClean(doc: Json)
    ensures forall e :: e in ReleasedIn(doc) ==> CleanItem(e, true)
  {
    var ids := ReleasedIn(doc);
    forall e | e in ids ensures CleanItem(e, true) {
      var i :| 0 <= i < |ids| && ids[i] == e;
    }
  }

  lemma DetailsSound(ids: seq<string>, docs: Dict<ReleaseDoc>)
    requires forall e :: e in ids ==> CleanItem(e, true)
    ensures SoundDetails(DetailsOf(ids, docs))
  {
    forall e | e in DetailsOf(ids, docs) ensures SoundRelease(DetailsOf(ids, docs)[e]) {
      assert DetailsOf(ids, docs)[e] == CoerceRelease(DocOf(docs, e));
    }
  }

  lemma BuildSound(level: Option<Level>, at: Option<nat>, last: Option<nat>, lockout: Json,
                   details: map<string, Release>, rooms: map<string, Occupancy>, revision: nat)
    requires SoundDetails(details) && SoundRooms(rooms)
    ensures Sound(Build(level, at, last, lockout, details, rooms, revision))
  {
    var none: map<string, Release> := map[];
    assert none.Keys == {};
  }

  lemma DefaultSound()
    ensures Sound(DEFAULT_STATE)
  {
    BuildSound(None, None, None, Null, map[], map[], 0);
  }

  /** Whatever the row held, a start comes up sound. */
  lemma {:induction false} CoerceIsSound(row: Row)
    ensures Sound(Coerce(row))
  {
    if row.NotARow? {
      DefaultSound();
    } else {
      var details := DetailsOf(ReleasedIn(row.released), row.details);
      var rooms := RoomsOf(row.occupancy);
      assert SoundDetails(details) by {
        ReleasedInClean(row.released);
        DetailsSound(ReleasedIn(row.released), row.details);
      }
      assert SoundRooms(rooms) by {
        if row.occupancy.Dict? { CollectRoomsSound(row.occupancy.keys, row.occupancy.at); }
      }
      BuildSound(row.activeLevel, Seconds(row.activatedAt), Seconds(row.lastAppliedAt), row.lockout, details, rooms,
                 if row.revision.Int? && row.revision.n >= 0 then row.revision.n else 0);
    }
  }

  lemma OneRoomRoundTrip(key: string, o: Occupancy)
    requires CleanId(key) && SoundOccupancy(o)
    ensures Clean(Str(key), false) == Ok(key)
    ensures CoerceOccupancy(OccupancyRow(o)) == Some(o)
  {}

  lemma {:induction false} CollectRoomsRoundTrip(rooms: map<string, Occupancy>, docs: map<string, OccupancyDoc>, keys: seq<string>)
    requires forall k :: k in keys ==> k in rooms && k in docs && Clean(Str(k), false) == Ok(k) && CoerceOccupancy(docs[k]) == Some(rooms[k])
    ensures forall r :: r in CollectRooms(keys, docs) <==> r in keys
    ensures forall r :: r in keys ==> CollectRooms(keys, docs)[r] == rooms[r]
  {
    if keys != [] {
      CollectRoomsRoundTrip(rooms, docs, keys[..|keys| - 1]);
      assert keys == keys[..|keys| - 1] + [keys[|keys| - 1]];
    }
  }

  lemma OccupancyRoundTrip(rooms: map<string, Occupancy>)
    requires SoundRooms(rooms)
    ensures RoomsOf(RoomsDoc(rooms)) == rooms
  {
    forall r | r in rooms ensures Clean(Str(r), false) == Ok(r) && CoerceOccupancy(OccupancyRow(rooms[r])) == Some(rooms[r]) {
      OneRoomRoundTrip(r, rooms[r]);
    }
    CollectRoomsRoundTrip(rooms, RoomsDoc(rooms).at, RoomsDoc(rooms).keys);
  }

  lemma ReleasedRoundTrip(q: seq<string>)
    requires Distinct(q) && forall e :: e in q ==> CleanItem(e, true)
    ensures ReleasedIn(Strings(q)) == (if |q| <= MAX_LIST_ITEMS then q else [])
  {
    if |q| <= MAX_LIST_ITEMS {
      forall i | 0 <= i < |q| ensures CleanItem(q[i], true) {
        assert q[i] in q;
      }
      CleanListRoundTrip(q, true);
    } else {
      assert |CleanedItems(Strings(q).items, true)| == |q|;
    }
  }

  lemma OneReleaseRoundTrip(r: Release)
    requires SoundRelease(r)
    ensures CoerceRelease(ReleaseRow(r)) == Reread(r)
  {}

  lemma DetailsRoundTrip(d: map<string, Release>)
    requires SoundDetails(d)
    ensures DetailsOf(Sorted(d.Keys), DetailsDoc(d)) == RereadAll(d)
  {
    forall e | e in d ensures CoerceRelease(DocOf(DetailsDoc(d), e)) == Reread(d[e]) {
      assert DocOf(DetailsDoc(d), e) == ReleaseRow(d[e]);
      OneReleaseRoundTrip(d[e]);
    }
  }

  lemma BuildRoundTrip(st: State, details: map<string, Release>)
    requires Sound(st)
    requires |st.released| <= MAX_LIST_ITEMS ==> details == RereadAll(st.details)
    requires |st.released| > MAX_LIST_ITEMS ==> details == map[]
    ensures Build(st.level, st.activatedAt, st.lastAppliedAt, Bool(st.lockout), details, st.occupancy, st.revision) == Restarted(st)
  {
    var none: map<string, Release> := map[];
    assert none.Keys == {} && Sorted({}) == [];
    assert RereadAll(st.details).Keys == st.details.Keys;
    if st.level.None? {
      assert st.released == [] && RereadAll(st.details) == map[];
    }
  }

  lemma TimesRoundTrip(t: Option<nat>)
    ensures Seconds(Maybe(t)) == t
  {}

  /** Exactly what a start rebuilds from the row a reachable state was committed to. */
  lemma {:induction false} RestartRebuilds(st: State)
    requires Sound(st)
    ensures Coerce(RowOf(st)) == Restarted(st)
  {
    var details := DetailsOf(ReleasedIn(Strings(st.released)), DetailsDoc(st.details));
    assert RoomsOf(RoomsDoc(st.occupancy)) == st.occupancy by { OccupancyRoundTrip(st.occupancy); }
    assert details == (if |st.released| <= MAX_LIST_ITEMS then RereadAll(st.details) else map[]) by {
      ReleasedRoundTrip(st.released);
      if |st.released| <= MAX_LIST_ITEMS { DetailsRoundTrip(st.details); }
    }
    BuildRoundTrip(st, details);
    TimesRoundTrip(st.activatedAt);
    TimesRoundTrip(st.lastAppliedAt);
  }

  /** Times are kept in whole seconds, rounded down. */
  lemma SecondsAre(v: Json, n: nat)
    ensures Seconds(v) == Some(n) <==> v == Int(n) || (v.Float? && n as real <= v.r < n as real + 1.0)
  {}

  // -- a damaged row ----------------------------------------------------------------------

  /** Not a whole or fractional number of seconds from zero up. */
  predicate NoTime(v: Json) { !(v.Int? && v.n >= 0) && !(v.Float? && v.r >= 0.0) }

  /** In any row a damaged field falls back alone: what the others give stays. */
  lemma DamageStaysLocal(row: Row, junk: Json)
    requires row.Row?
    ensures NoTime(junk) ==> Coerce(row.(activatedAt := junk)) == Coerce(row).(activatedAt := None)
    ensures NoTime(junk) ==> Coerce(row.(lastAppliedAt := junk)) == Coerce(row).(lastAppliedAt := None)
    ensures !(junk.Int? && junk.n >= 0) ==> Coerce(row.(revision := junk)) == Coerce(row).(revision := 0)
    ensures !junk.Bool? ==> Coerce(row.(lockout := junk)) == Coerce(row).(lockout := row.activeLevel != None)
    ensures Coerce(row.(occupancy := NotADict)) == Coerce(row).(occupancy := map[])
  {
    hide DetailsOf, ReleasedIn, CollectRooms, Sorted;
  }

  lemma DamagedReleases(row: Row, junk: Json)
    requires row.Row? && !junk.Arr?
    ensures Coerce(row.(released := junk)) == Coerce(row).(released := [], details := map[])
  {
    NothingReleased(row, junk);
    hide DetailsOf, ReleasedIn, RoomsOf;
  }

  lemma NothingReleased(row: Row, junk: Json)
    requires row.Row? && !junk.Arr?
    ensures DetailsOf(ReleasedIn(junk), row.details) == map[] && Sorted(DetailsOf(ReleasedIn(junk), row.details).Keys) == []
  {
    hide Clean;
    assert CleanList(Arr([]), true) == Ok([]);
    assert ReleasedIn(junk) == [];
    var none: map<string, Release> := map[];
    assert none.Keys == {};
  }

  lemma RestartedIsSame(st: State)
    requires st.released == Sorted(st.details.Keys)
    ensures Restarted(st) == st <==> SurvivesRestart(st)
  {
    hide Strip, StripLeft, StripRight, IsSpace;
    if SurvivesRestart(st) {
      assert RereadAll(st.details) == st.details;
    } else if |st.released| <= MAX_LIST_ITEMS {
      var e :| e in st.details && Blank(st.details[e].source);
      RereadDiffers(st.details[e]);
      assert RereadAll(st.details)[e] == Reread(st.details[e]);
    } else {
      assert Restarted(st).released == [];
    }
  }

  /** A restart is invisible exactly up to 1024 releases, none from a source cut to blanks. */
  lemma {:induction false} RestartIsIdentity(st: State)
    requires Sound(st)
    ensures Coerce(RowOf(st)) == st <==> SurvivesRestart(st)
  {
    RestartRebuilds(st);
    RestartedIsSame(st);
  }

  lemma RereadDiffers(r: Release)
    requires Blank(r.source)
    ensures Reread(r) != r
  {
    assert !IsSpace("unknown"[0]) && !IsSpace("unknown"[6]);
    assert !Blank("unknown");
  }

  /** Coercing is not idempotent: a long source that starts with blanks is cut to blanks first. */
  lemma {:induction false} CoerceTwiceCanDiffer(tail: string, doc: ReleaseDoc)
    requires tail != "" && Trimmed(tail)
    requires doc == ReleaseDoc(Null, Int(0), Str(Blanks(MAX_SOURCE_LENGTH) + tail))
    ensures SoundRelease(CoerceRelease(doc))
    ensures CoerceRelease(ReleaseRow(CoerceRelease(doc))) != CoerceRelease(doc)
  {
    BlanksAreBlank(MAX_SOURCE_LENGTH, tail);
    hide Strip, StripLeft, StripRight, IsSpace;
    var r := CoerceRelease(doc);
    assert (Blanks(MAX_SOURCE_LENGTH) + tail)[..MAX_SOURCE_LENGTH] == Blanks(MAX_SOURCE_LENGTH);
    assert r.source == Blanks(MAX_SOURCE_LENGTH);
    OneReleaseRoundTrip(r);
    RereadDiffers(r);
  }

  function Blanks(n: nat): (s: string)
    ensures |s| == n
  {
    if n == 0 then "" else " " + Blanks(n - 1)
  }

  lemma {:induction false} StripLeftBlanks(n: nat, tail: string)
    requires tail == "" || !IsSpace(tail[0])
    ensures StripLeft(Blanks(n) + tail) == tail
  {
    if n == 0 {
      assert Blanks(0) + tail == tail;
    } else {
      StripLeftBlanks(n - 1, tail);
      var s := Blanks(n) + tail;
      assert IsSpace(s[0]) && s[1..] == Blanks(n - 1) + tail;
    }
  }

  lemma BlanksAreBlank(n: nat, tail: string)
    requires tail != "" && Trimmed(tail)
    ensures Blank(Blanks(n)) && !Blank(Blanks(n) + tail)
  {
    StripLeftBlanks(n, tail);
    StripLeftBlanks(n, "");
    assert Blanks(n) + "" == Blanks(n);
  }
}
