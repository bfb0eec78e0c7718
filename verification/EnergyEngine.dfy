/**
 The Energy Saving engine over its two tables. Every method writes a table
 before memory, and any write may fail; whatever happens, a restart would
 rebuild the configurations and the state the engine holds.
 */
module EnergyEngine {
  import opened Documents
  import opened Wrappers
  import opened EnergyConfig
  import opened EnergyState

  /** Which write of a call raises, should the call reach it. */
  datatype Faults = Faults(config: bool, state: bool, event: bool)

  datatype Refusal = UnknownInput | SetupRequired | AlreadyActive | Inactive

  datatype Outcome<+T> = Returned(value: T) | Refused(why: Refusal) | WriteFailed

  predicate GoodActor(actor: Option<Json>) { actor.None? || Clean(actor.value, false).Ok? }

  // -- the transitions on values -------------------------------------------------------

  function Activated(st: State, level: Level, lockout: bool, now: nat): State {
    State(Some(level), Some(now), Some(now), lockout, [], map[], map[], st.revision + 1)
  }

  function Deactivated(st: State): State { DEFAULT_STATE.(revision := st.revision + 1) }

  function Reapplied(st: State, now: nat): State {
    st.(released := [], details := map[], lastAppliedAt := Some(now), revision := st.revision + 1)
  }

  function WithDetails(st: State, details: map<string, Release>): State {
    st.(released := Sorted(details.Keys), details := details, revision := st.revision + 1)
  }

  function InRoom(st: State, room: string): set<string> {
    set e | e in st.details && st.details[e].roomId == Some(room)
  }

  function Seen(st: State, room: string, o: Occupancy): State {
    st.(occupancy := st.occupancy[room := o], revision := st.revision + 1)
  }

  lemma NoReleases()
    ensures Sorted({}) == []
  {}

  /** Every transition leads from a sound state to a sound one. */
  lemma TransitionsKeepSound(st: State, level: Level, lockout: bool, now: nat)
    requires Sound(st)
    requires !level.Smart? ==> lockout
    ensures Sound(Activated(st, level, lockout, now))
    ensures Sound(Deactivated(st))
    ensures Sound(Reapplied(st, now))
  {
    var none: map<string, Release> := map[];
    assert none.Keys == {};
    NoReleases();
  }

  lemma DetailsKeepSound(st: State, details: map<string, Release>)
    requires Sound(st) && st.level.Some? && SoundDetails(details)
    ensures Sound(WithDetails(st, details))
  {}

  lemma SeenKeepsSound(st: State, room: string, o: Occupancy)
    requires Sound(st) && st.level == Some(Smart) && CleanId(room) && SoundOccupancy(o)
    ensures Sound(Seen(st, room, o))
  {}

  // -- loading ----------------------------------------------------------------------------

  /** What a start makes of a level's stored document, if there is one. */
  ghost function LoadConfig(level: Level, doc: Option<Document>): Config {
    if doc.None? || Validate(level, doc.value).Rejected? then DefaultConfig(level) else Validate(level, doc.value).value
  }

  ghost function LoadState(row: Option<Row>): State {
    if row.None? then DEFAULT_STATE else Coerce(row.value)
  }

  lemma LoadedConfigIsValid(level: Level, doc: Option<Document>)
    ensures ValidConfig(level, LoadConfig(level, doc))
  {
    if doc.Some? && Validate(level, doc.value).Ok? { ValidateMakesValid(level, doc.value); } else { DefaultIsValid(level); }
  }

  lemma LoadedStateIsSound(row: Option<Row>)
    ensures Sound(LoadState(row))
  {
    if row.Some? { CoerceIsSound(row.value); } else { DefaultSound(); }
  }

  function Stored(table: map<Level, Document>, level: Level): Option<Document> {
    if level in table then Some(table[level]) else None
  }

  /** A wizard step laid over a stored document. */
  function Merge(base: Document, patch: Document): Document
    requires base.Document? && patch.Document?
  {
    Document(
      Over(base.schemaVersion, patch.schemaVersion), Over(base.excludedRooms, patch.excludedRooms),
      Over(base.gangKeepers, patch.gangKeepers), Over(base.lightKeepers, patch.lightKeepers),
      Over(base.plugOffs, patch.plugOffs), Over(base.heaters, patch.heaters), Over(base.acKeepers, patch.acKeepers),
      Over(base.setupComplete, patch.setupComplete), Over(base.lockoutEnabled, patch.lockoutEnabled),
      base.others + patch.others)
  }

  function Over(old_: Option<Json>, new_: Option<Json>): Option<Json> { if new_.Some? then new_ else old_ }

  /** An empty wizard step changes nothing. */
  lemma {:induction false} EmptyPatchIsIdentity(level: Level, c: Config)
    requires ValidConfig(level, c)
    ensures Validate(level, Merge(ConfigDoc(c), Document(None, None, None, None, None, None, None, None, None, {}))) == Ok(c)
  {
    var none := Document(None, None, None, None, None, None, None, None, None, {});
    assert Merge(ConfigDoc(c), none) == ConfigDoc(c);
    ValidateRoundTrip(level, c);
  }

  /** A missing field means the level's default. */
  lemma MissingMeansDefault(level: Level, doc: Document)
    requires doc.Document?
    ensures Validate(level, Merge(ConfigDoc(DefaultConfig(level)), doc)) == Validate(level, doc)
  {
    var full := Merge(ConfigDoc(DefaultConfig(level)), doc);
    var none: Picks := map[];
    EmptyPicksDoc(none);
    assert Strings([]) == Arr([]) && HeatersDoc([]) == Arr([]);
    assert full.others == doc.others;
    if KnownFieldsOnly(level, doc) { assert FieldsOf(level, full) == FieldsOf(level, doc); }
  }

  /** Which settings a wizard step sends. */
  datatype Step = Step(excludedRooms: bool, gangKeepers: bool, lightKeepers: bool, plugOffs: bool, heaters: bool, acKeepers: bool, setupComplete: bool, lockout: bool)

  function Only(doc: Document, step: Step): Document
    requires doc.Document?
  {
    Document(None,
      if step.excludedRooms then doc.excludedRooms else None, if step.gangKeepers then doc.gangKeepers else None,
      if step.lightKeepers then doc.lightKeepers else None, if step.plugOffs then doc.plugOffs else None,
      if step.heaters then doc.heaters else None, if step.acKeepers then doc.acKeepers else None,
      if step.setupComplete then doc.setupComplete else None, if step.lockout then doc.lockoutEnabled else None, {})
  }

  function Mixed(c: Config, sent: Config, step: Step): Config {
    Config(
      if step.excludedRooms then sent.excludedRooms else c.excludedRooms, if step.gangKeepers then sent.gangKeepers else c.gangKeepers,
      if step.lightKeepers then sent.lightKeepers else c.lightKeepers, if step.plugOffs then sent.plugOffs else c.plugOffs,
      if step.heaters then sent.heaters else c.heaters, if step.acKeepers then sent.acKeepers else c.acKeepers,
      if step.setupComplete then sent.setupComplete else c.setupComplete,
      if step.lockout && sent.lockout.Some? then sent.lockout else c.lockout)
  }

  /** A wizard step replaces the settings it sends and no others, and is taken exactly when the result is valid. */
  lemma {:induction false} PatchReplacesExactly(level: Level, c: Config, sent: Config, step: Step)
    ensures Validate(level, Merge(ConfigDoc(c), Only(ConfigDoc(sent), step))) == Ok(Mixed(c, sent, step)) <==> ValidConfig(level, Mixed(c, sent, step))
  {
    hide Validate, ValidConfig, Strings, PicksDoc, HeatersDoc;
    assert Merge(ConfigDoc(c), Only(ConfigDoc(sent), step)) == ConfigDoc(Mixed(c, sent, step));
    ValidateRoundTrip(level, Mixed(c, sent, step));
  }

  method CoerceState(row: Option<Row>) returns (st: State)
    ensures st == LoadState(row)
  {
    if row.None? || row.value.NotARow? {
      return DEFAULT_STATE;
    }
    var r := row.value;
    var ids := CleanUniqueList(if r.released.Arr? then r.released else Arr([]), true);
    var details := DetailsOf(if ids.Ok? then ids.value else [], r.details);
    return Build(r.activeLevel, Seconds(r.activatedAt), Seconds(r.lastAppliedAt), r.lockout, details, RoomsOf(r.occupancy),
                 if r.revision.Int? && r.revision.n >= 0 then r.revision.n else 0);
  }

  /** A level's live configuration is what its row loads to. */
  ghost predicate Matches(level: Level, table: map<Level, Document>, configs: map<Level, Config>) {
    level in configs && configs[level] == LoadConfig(level, Stored(table, level))
  }

  lemma MatchesIsValid(level: Level, table: map<Level, Document>, configs: map<Level, Config>)
    requires Matches(level, table, configs)
    ensures ValidConfig(level, configs[level])
  {
    LoadedConfigIsValid(level, Stored(table, level));
  }

  lemma StoredConfigLoads(level: Level, c: Config)
    requires ValidConfig(level, c)
    ensures LoadConfig(level, Some(ConfigDoc(c))) == c
  {
    ValidateRoundTrip(level, c);
  }

  ghost predicate AllMatch(table: map<Level, Document>, configs: map<Level, Config>) {
    Matches(Low, table, configs) && Matches(Medium, table, configs) && Matches(Smart, table, configs)
  }

  lemma StoringKeepsMatches(table: map<Level, Document>, configs: map<Level, Config>, level: Level, c: Config)
    requires ValidConfig(level, c) && AllMatch(table, configs)
    ensures AllMatch(table[level := ConfigDoc(c)], configs[level := c])
  {
    StoredConfigLoads(level, c);
    hide ConfigDoc, LoadConfig, ValidConfig;
  }

  /** Only the releases differ, and the revision is the next one. */
  ghost predicate OnlyReleases(was: State, now: State) {
    && now == was.(released := now.released, details := now.details, revision := was.revision + 1)
    && (forall e :: e in now.released <==> e in now.details) && Distinct(now.released)
  }

  /** Gone are the releases in this room and no others. */
  ghost predicate RoomCleared(was: map<string, Release>, now: map<string, Release>, room: string) {
    && (forall e :: e in now ==> e in was && now[e] == was[e])
    && (forall e :: e in was ==> (e in now <==> was[e].roomId != Some(room)))
  }

  lemma ClearingRoom(st: State, room: string)
    ensures RoomCleared(st.details, st.details - InRoom(st, room), room)
    ensures InRoom(st, room) == {} ==> RoomCleared(st.details, st.details, room)
    ensures OnlyReleases(st, WithDetails(st, st.details - InRoom(st, room)))
  {}

  /** A level just activated starts with no releases and no occupancy. */
  predicate Fresh(was: State, now: State, level: Level, lockout: bool, at: nat) {
    && now.level == Some(level) && now.activatedAt == now.lastAppliedAt == Some(at) && now.lockout == lockout
    && now.released == [] && now.details == map[] && now.occupancy == map[] && now.revision == was.revision + 1
  }

  class Engine {
    var configTable: map<Level, Document>
    var stateTable: Option<Row>
    var configs: map<Level, Config>
    var state: State

    /** Restarting on the tables now would rebuild the configurations. */
    ghost predicate ConfigsMatch()
      reads this
    {
      AllMatch(configTable, configs)
    }

    /** The state is what its row holds: written from it, or loaded from it. */
    ghost predicate StateMatches()
      reads this
    {
      Sound(state) && (stateTable == Some(RowOf(state)) || state == LoadState(stateTable))
    }

    ghost predicate Valid()
      reads this
    {
      ConfigsMatch() && StateMatches()
    }

    /** Defaults in memory until warm_up reads the tables. */
    constructor (configTable: map<Level, Document>, stateTable: Option<Row>)
      ensures this.configTable == configTable && this.stateTable == stateTable
      ensures state == DEFAULT_STATE && configs == map[Low := DefaultConfig(Low), Medium := DefaultConfig(Medium), Smart := DefaultConfig(Smart)]
    {
      this.configTable := configTable;
      this.stateTable := stateTable;
      this.configs := map[Low := DefaultConfig(Low), Medium := DefaultConfig(Medium), Smart := DefaultConfig(Smart)];
      this.state := DEFAULT_STATE;
    }

    /** Load the tables; a damaged document falls back to that level's defaults. */
    method WarmUp()
      modifies `configs, `state
      ensures Valid()
      ensures state == LoadState(stateTable)
    {
      var levels := [Low, Medium, Smart];
      var loaded: map<Level, Config> := map[];
      var i := 0;
      while i < |levels|
        invariant i <= |levels|
        invariant forall k :: 0 <= k < i ==> Matches(levels[k], configTable, loaded)
      {
        var config := LoadOne(levels[i]);
        loaded := loaded[levels[i] := config];
        i := i + 1;
      }
      configs := loaded;
      state := CoerceState(stateTable);
      LoadedStateIsSound(stateTable);
      assert levels[0] == Low && levels[1] == Medium && levels[2] == Smart;
    }

    method LoadOne(level: Level) returns (c: Config)
      ensures c == LoadConfig(level, Stored(configTable, level))
    {
      if level !in configTable {
        return DefaultConfig(level);
      }
      var checked := ValidateLevelConfig(level, configTable[level]);
      return if checked.Ok? then checked.value else DefaultConfig(level);
    }

    /** Write the row, then make it the live state; a write that raises changes neither. */
    method CommitState(next: State, fails: bool) returns (ok: bool)
      requires Valid() && Sound(next)
      modifies `stateTable, `state
      ensures Valid() && ok == !fails
      ensures ok ==> state == next && stateTable == Some(RowOf(next))
      ensures !ok ==> state == old(state) && stateTable == old(stateTable)
    {
      if fails {
        return false;
      }
      stateTable := Some(RowOf(next));
      state := next;
      return true;
    }

    /** Write a level's document, then memory. */
    method CommitConfig(level: Level, c: Config, fails: bool) returns (ok: bool)
      requires Valid() && ValidConfig(level, c)
      modifies `configTable, `configs
      ensures Valid() && ok == !fails
      ensures ok ==> configs == old(configs)[level := c] && configTable == old(configTable)[level := ConfigDoc(c)]
      ensures !ok ==> configs == old(configs) && configTable == old(configTable)
    {
      hide ValidConfig, AllMatch, Sound, LoadState, RowOf, ConfigDoc;
      if fails {
        return false;
      }
      StoringKeepsMatches(configTable, configs, level, c);
      configTable := configTable[level := ConfigDoc(c)];
      configs := configs[level := c];
      return true;
    }

    method ReplaceConfig(level: Level, doc: Document, actor: Option<Json>, f: Faults) returns (out: Outcome<Config>)
      requires Valid()
      modifies `configTable, `configs
      ensures Valid()
      ensures out.Refused? <==> Validate(level, doc).Rejected? || !GoodActor(actor)
      ensures out.Refused? || (out.WriteFailed? && f.config) ==> configs == old(configs)
      ensures !out.Refused? && !f.config ==> configs == old(configs)[level := Validate(level, doc).value]
      ensures out.Returned? ==> out.value == Validate(level, doc).value
      ensures out.Returned? <==> Validate(level, doc).Ok? && GoodActor(actor) && !f.config && !f.event
    {
      var normalized := ValidateLevelConfig(level, doc);
      if normalized.Rejected? || !GoodActor(actor) {
        return Refused(UnknownInput);
      }
      ValidateMakesValid(level, doc);
      var ok := CommitConfig(level, normalized.value, f.config);
      return if !ok || f.event then WriteFailed else Returned(normalized.value);
    }

    method PatchConfig(level: Level, patch: Document, actor: Option<Json>, f: Faults) returns (out: Outcome<Config>)
      requires Valid() && level in configs
      modifies `configTable, `configs
      ensures Valid()
      ensures var merged := if patch.Document? && KnownFieldsOnly(level, patch) then Validate(level, Merge(ConfigDoc(old(configs[level])), patch)) else Rejected;
        && (out.Refused? <==> merged.Rejected? || !GoodActor(actor))
        && (out.Refused? || (out.WriteFailed? && f.config) ==> configs == old(configs))
        && (!out.Refused? && !f.config ==> configs == old(configs)[level := merged.value])
        && (out.Returned? ==> out.value == merged.value && !f.config && !f.event)
    {
      if patch.NotAnObject? || !KnownFieldsOnly(level, patch) || !GoodActor(actor) {
        return Refused(UnknownInput);
      }
      var normalized := ValidateLevelConfig(level, Merge(ConfigDoc(configs[level]), patch));
      if normalized.Rejected? {
        return Refused(UnknownInput);
      }
      ValidateMakesValid(level, Merge(ConfigDoc(configs[level]), patch));
      var ok := CommitConfig(level, normalized.value, f.config);
      return if !ok || f.event then WriteFailed else Returned(normalized.value);
    }

    method ResetConfig(level: Level, actor: Option<Json>, f: Faults) returns (out: Outcome<Config>)
      requires Valid()
      modifies `configTable, `configs
      ensures Valid()
      ensures out.Refused? <==> !GoodActor(actor)
      ensures out.Refused? || (out.WriteFailed? && f.config) ==> configs == old(configs)
      ensures !out.Refused? && !f.config ==> configs == old(configs)[level := DefaultConfig(level)]
      ensures out.Returned? ==> out.value == DefaultConfig(level) && !f.config && !f.event
    {
      if !GoodActor(actor) {
        return Refused(UnknownInput);
      }
      DefaultIsValid(level);
      var ok := CommitConfig(level, DefaultConfig(level), f.config);
      return if !ok || f.event then WriteFailed else Returned(DefaultConfig(level));
    }

    /** The Smart lockout choice is stored, if it differs, before the level goes live. */
    method StoreLockout(level: Level, choice: bool, fails: bool) returns (ok: bool)
      requires Valid() && level.Smart? && level in configs
      modifies `configTable, `configs
      ensures Valid()
      ensures ok ==> configs == old(configs)[level := old(configs)[level].(lockout := Some(choice))]
      ensures !ok ==> fails && configs == old(configs) && configTable == old(configTable)
    {
      MatchesIsValid(level, configTable, configs);
      if configs[level].lockout == Some(choice) {
        assert configs[level].(lockout := Some(choice)) == configs[level];
        assert configs[level := configs[level]] == configs;
        return true;
      }
      ok := CommitConfig(level, configs[level].(lockout := Some(choice)), fails);
    }

    predicate Activatable(level: Level, lockoutChoice: Option<Json>, actor: Option<Json>)
      requires level in configs
      reads this
    {
      && GoodActor(actor) && state.level.None? && configs[level].setupComplete
      && (lockoutChoice.Some? ==> level.Smart? && lockoutChoice.value.Bool?)
    }

    /** The lockout a level goes live with: always for Low and Medium, the choice or the stored one for Smart. */
    function LockoutFor(level: Level, lockoutChoice: Option<Json>): bool
      requires level in configs
      reads this
    {
      if !level.Smart? then true
      else if lockoutChoice.Some? && lockoutChoice.value.Bool? then lockoutChoice.value.b
      else configs[level].lockout == Some(true)
    }

    method Activate(level: Level, lockoutChoice: Option<Json>, actor: Option<Json>, now: nat, f: Faults)
        returns (out: Outcome<State>)
      requires Valid() && level in configs
      modifies this
      ensures Valid()
      ensures out.Refused? <==> !old(Activatable(level, lockoutChoice, actor))
      ensures out.Refused? ==> configs == old(configs) && state == old(state)
      ensures state == old(state) || state == Activated(old(state), level, old(LockoutFor(level, lockoutChoice)), now)
      ensures out.Returned? ==> out.value == state != old(state)
      ensures state != old(state) ==>
        Fresh(old(state), state, level,
          if level != Smart then true
          else if lockoutChoice != None && lockoutChoice.value.Bool? then lockoutChoice.value.b
          else old(configs[level]).lockout == Some(true), now)
      ensures out.Returned? && lockoutChoice.Some? ==>
        configs == old(configs)[level := old(configs)[level].(lockout := Some(lockoutChoice.value.b))]
      ensures out.Returned? && lockoutChoice.None? ==> configs == old(configs)
      ensures out.WriteFailed? && state == old(state) ==> f.config || f.state
    {
      hide Coerce, RowOf, Sound, ValidConfig, Validate, ConfigDoc;
      if !GoodActor(actor) {
        return Refused(UnknownInput);
      }
      if state.level.Some? {
        return Refused(AlreadyActive);
      }
      if !configs[level].setupComplete {
        return Refused(SetupRequired);
      }
      if lockoutChoice.Some? && (!level.Smart? || !lockoutChoice.value.Bool?) {
        return Refused(UnknownInput);
      }
      var lockout := LockoutFor(level, lockoutChoice);
      if lockoutChoice.Some? {
        var stored := StoreLockout(level, lockoutChoice.value.b, f.config);
        if !stored {
          return WriteFailed;
        }
      }
      TransitionsKeepSound(state, level, lockout, now);
      var ok := CommitState(Activated(state, level, lockout, now), f.state);
      return if !ok || f.event then WriteFailed else Returned(state);
    }

    method Deactivate(actor: Option<Json>, f: Faults) returns (out: Outcome<State>)
      requires Valid()
      modifies `stateTable, `state
      ensures Valid()
      ensures out.Refused? <==> !GoodActor(actor)
      ensures state == (if GoodActor(actor) && old(state.level).Some? && !f.state then Deactivated(old(state)) else old(state))
      ensures out.Returned? ==> out.value == state && state.level == None
      ensures state != old(state) ==> state == State(None, None, None, false, [], map[], map[], old(state.revision) + 1)
      ensures out.WriteFailed? ==> old(state.level).Some? && (f.state || f.event)
    {
      if !GoodActor(actor) {
        return Refused(UnknownInput);
      }
      if state.level.None? {
        return Returned(state);
      }
      TransitionsKeepSound(state, Smart, true, 0);
      var ok := CommitState(Deactivated(state), f.state);
      return if !ok || f.event then WriteFailed else Returned(state);
    }

    method Reapply(actor: Option<Json>, now: nat, f: Faults) returns (out: Outcome<State>)
      requires Valid()
      modifies `stateTable, `state
      ensures Valid()
      ensures out.Refused? <==> !GoodActor(actor) || old(state.level).None?
      ensures state == (if !out.Refused? && !f.state then Reapplied(old(state), now) else old(state))
      ensures out.Returned? ==> out.value == state && state.released == [] && state.level == old(state.level)
      ensures state != old(state) ==>
        OnlyReleases(old(state).(lastAppliedAt := Some(now)), state) && state.details == map[]
    {
      if !GoodActor(actor) {
        return Refused(UnknownInput);
      }
      if state.level.None? {
        return Refused(Inactive);
      }
      TransitionsKeepSound(state, Smart, true, now);
      var ok := CommitState(Reapplied(state, now), f.state);
      return if !ok || f.event then WriteFailed else Returned(state);
    }

    method MarkReleased(entity: Json, room: Option<Json>, source: Json, now: nat, f: Faults) returns (out: Outcome<bool>)
      requires Valid()
      modifies `stateTable, `state
      ensures Valid()
      ensures out.Refused? <==>
        Clean(entity, true).Rejected? || (room.Some? && Clean(room.value, false).Rejected?)
        || Clean(source, false).Rejected? || |Clean(source, false).value| > MAX_SOURCE_LENGTH
      ensures out.Refused? ==> state == old(state)
      ensures !out.Refused? ==>
        var e := Clean(entity, true).value;
        var r := Release(if room.Some? then Some(Clean(room.value, false).value) else None, now, Clean(source, false).value);
        var isNew := old(state.level).Some? && e !in old(state.details);
        && state == (if isNew && !f.state then WithDetails(old(state), old(state.details)[e := r]) else old(state))
        && (out.Returned? ==> out.value == isNew)
        && (out.Returned? && old(state.level).Some? ==> e in state.details)
        && (state != old(state) ==> OnlyReleases(old(state), state) && isNew && state.details == old(state.details)[e := r])
    {
      var e := Clean(entity, true);
      var cleanRoom: Option<Checked<string>> := if room.Some? then Some(Clean(room.value, false)) else None;
      var cleanSource := Clean(source, false);
      if e.Rejected? || (cleanRoom.Some? && cleanRoom.value.Rejected?) || cleanSource.Rejected?
         || |cleanSource.value| > MAX_SOURCE_LENGTH
      {
        return Refused(UnknownInput);
      }
      if state.level.None? || e.value in state.details {
        return Returned(false);
      }
      var r := Release(if cleanRoom.Some? then Some(cleanRoom.value.value) else None, now, cleanSource.value);
      DetailsKeepSound(state, state.details[e.value := r]);
      var ok := CommitState(WithDetails(state, state.details[e.value := r]), f.state);
      return if !ok || f.event then WriteFailed else Returned(true);
    }

    method ClearRoomReleases(room: Json, f: Faults) returns (out: Outcome<seq<string>>)
      requires Valid()
      modifies `stateTable, `state
      ensures Valid()
      ensures out.Refused? <==> Clean(room, false).Rejected?
      ensures out.Refused? ==> state == old(state)
      ensures !out.Refused? ==>
        var cleared := if old(state.level) == Some(Smart) then InRoom(old(state), Clean(room, false).value) else {};
        && state == (if cleared != {} && !f.state then WithDetails(old(state), old(state.details) - cleared) else old(state))
        && (out.Returned? ==> out.value == Sorted(cleared))
        && (state != old(state) ==> OnlyReleases(old(state), state))
        && (out.Returned? && old(state.level) == Some(Smart) ==> RoomCleared(old(state.details), state.details, Clean(room, false).value))
    {
      var r := Clean(room, false);
      if r.Rejected? {
        return Refused(UnknownInput);
      }
      if state.level != Some(Smart) {
        return Returned([]);
      }
      ClearingRoom(state, r.value);
      hide Coerce, RowOf, RoomCleared, OnlyReleases, AllMatch, Clean;
      var cleared := InRoom(state, r.value);
      if cleared == {} {
        return Returned([]);
      }
      DetailsKeepSound(state, state.details - cleared);
      var ok := CommitState(WithDetails(state, state.details - cleared), f.state);
      return if !ok || f.event then WriteFailed else Returned(Sorted(cleared));
    }

    /** occupied is absent exactly when the sensors are unavailable. */
    method SetRoomOccupancy(room: Json, occupied: Option<bool>, available: bool, now: nat, f: Faults)
        returns (out: Outcome<bool>)
      requires Valid()
      modifies `stateTable, `state
      ensures Valid()
      ensures out.Refused? <==> Clean(room, false).Rejected? || (available <==> occupied.None?)
      ensures out.Refused? ==> state == old(state)
      ensures !out.Refused? ==>
        var key := Clean(room, false).value;
        var was := old(state.occupancy);
        var changes := old(state.level) == Some(Smart)
          && !(key in was && was[key].occupied == occupied && was[key].available == available);
        && state == (if changes && !f.state then Seen(old(state), key, Occupancy(occupied, available, now)) else old(state))
        && (out.Returned? ==> out.value == changes)
        && (state != old(state) ==>
              state == old(state).(occupancy := was[key := Occupancy(occupied, available, now)], revision := old(state.revision) + 1))
    {
      var key := Clean(room, false);
      if key.Rejected? || (available && occupied.None?) || (!available && occupied.Some?) {
        return Refused(UnknownInput);
      }
      if state.level != Some(Smart) {
        return Returned(false);
      }
      if key.value in state.occupancy && state.occupancy[key.value].occupied == occupied
         && state.occupancy[key.value].available == available
      {
        return Returned(false);
      }
      SeenKeepsSound(state, key.value, Occupancy(occupied, available, now));
      var ok := CommitState(Seen(state, key.value, Occupancy(occupied, available, now)), f.state);
      return if !ok || f.event then WriteFailed else Returned(true);
    }
  }

  /**
   At every moment between calls, a restart on the tables rebuilds every
   configuration exactly, and the state too unless it holds over 1024 releases
   or one whose source is blank.
   */
  lemma RestartRebuildsEngine(e: Engine, level: Level)
    requires e.Valid()
    ensures level in e.configs && LoadConfig(level, Stored(e.configTable, level)) == e.configs[level]
    ensures LoadState(e.stateTable) == e.state || LoadState(e.stateTable) == Restarted(e.state)
    ensures SurvivesRestart(e.state) ==> LoadState(e.stateTable) == e.state
  {
    if e.stateTable == Some(RowOf(e.state)) {
      RestartRebuilds(e.state);
      RestartIsIdentity(e.state);
    }
  }
}
