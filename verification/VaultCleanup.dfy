/**
  The cleanup of old Vault secret versions: classification of every version, the re-read just before
  the delete request, and the verification after it. Reads of the state file and of Vault, the lease
  and the clock are parameters; a read that fails or does not validate is `None`.
 */
module VaultCleanup {
  import opened Common
  import opened Amounts
  import opened Sorting

  datatype State = State(
    current: Option<int>, previous: Option<int>, recovery: Option<int>,
    rotation: bool, canary: bool, incidentHold: bool, legalHold: bool,
    held: seq<int>, signed: seq<int>, lastFetch: map<string, int>)

  datatype Item = Item(created: int, destroyed: bool, deletionTime: bool)

  /** The versions object, keyed by digit strings. */
  type Versions = map<string, Item>

  datatype Snapshot = Snapshot(state: State, versions: Versions)
  datatype Config = Config(retention: int, grace: int, apply: bool)

  /** Every key is a digit string, as the metadata reader demands. */
  predicate WellKeyed(versions: Versions) {
    forall k :: k in versions ==> k != [] && AllDigits(k)
  }

  // ---------------------------------------------------------------- decimal keys

  /** The decimal text of a version, as it is looked up. */
  function Decimal(n: nat): (s: string)
    ensures s != [] && AllDigits(s)
  {
    var last := [('0' as int + n % 10) as char];
    if n < 10 then last else Decimal(n / 10) + last
  }

  lemma {:induction false} DecimalValue(n: nat)
    ensures Value(Decimal(n)) == n
  {
    var s := Decimal(n);
    var last := [('0' as int + n % 10) as char];
    if n >= 10 {
      DecimalValue(n / 10);
      assert s[..|s| - 1] == Decimal(n / 10);
    }
    assert s[|s| - 1] == last[0];
  }

  // ---------------------------------------------------------------- classification

  function Set(o: Option<int>): set<int> { if o.Some? then {o.value} else {} }

  function Protected(state: State): set<int> {
    Set(state.current) + Set(state.previous) + Set(state.recovery) + (set v | v in state.held)
      + (set v | v in state.signed)
  }

  datatype Group = Selected | AlreadyDeleted | Guarded | Young | RecentlyFetched

  predicate Gone(item: Item) { item.destroyed || item.deletionTime }

  predicate OldEnough(cfg: Config, item: Item, now: int) { now - item.created >= cfg.retention }

  /** No fetch is recorded under the version's decimal text, or it lies at least the grace back. */
  predicate Unfetched(cfg: Config, state: State, version: nat, now: int) {
    Decimal(version) in state.lastFetch ==> now - state.lastFetch[Decimal(version)] >= cfg.grace
  }

  /** The group of a version, each by its own condition. */
  ghost predicate Belongs(cfg: Config, state: State, version: nat, item: Item, now: int, g: Group) {
    match g
    case AlreadyDeleted => Gone(item)
    case Guarded => !Gone(item) && version in Protected(state)
    case Young => !Gone(item) && version !in Protected(state) && !OldEnough(cfg, item, now)
    case RecentlyFetched =>
      !Gone(item) && version !in Protected(state) && OldEnough(cfg, item, now) && !Unfetched(cfg, state, version, now)
    case Selected =>
      !Gone(item) && version !in Protected(state) && OldEnough(cfg, item, now) && Unfetched(cfg, state, version, now)
  }

  /** A fetch is recorded under the key within the grace. */
  ghost predicate FetchedUnder(cfg: Config, state: State, key: string, now: int) {
    key in state.lastFetch && now - state.lastFetch[key] < cfg.grace
  }

  /** The fetch record is keyed by digit strings, as the state validation demands; leading zeros are admitted. */
  predicate FetchKeyed(state: State) {
    forall k :: k in state.lastFetch ==> k != [] && AllDigits(k) && Value(k) >= 1
  }

  /** Some key that spells the version shows a fetch within the grace. */
  ghost predicate RecentlyFetchedAnyhow(cfg: Config, state: State, version: nat, now: int)
    requires FetchKeyed(state)
  {
    exists k :: k in state.lastFetch && Value(k) == version && FetchedUnder(cfg, state, k, now)
  }

  /** A key other than the version's plain decimal text spells the version and shows a fetch within the grace. */
  ghost predicate FetchedUnderAlias(cfg: Config, state: State, version: nat, now: int)
    requires FetchKeyed(state)
  {
    exists k :: k in state.lastFetch && k != Decimal(version) && Value(k) == version && FetchedUnder(cfg, state, k, now)
  }

  /**
    A selected version has no fetch within the grace under any spelling exactly when none is recorded
    under another spelling than its plain decimal text, which is the only one looked up.
   */
  lemma SelectedUnfetchedExactly(cfg: Config, state: State, version: nat, item: Item, now: int)
    requires FetchKeyed(state) && Belongs(cfg, state, version, item, now, Selected)
    ensures !RecentlyFetchedAnyhow(cfg, state, version, now) <==> !FetchedUnderAlias(cfg, state, version, now)
  {
    DecimalValue(version);
    if RecentlyFetchedAnyhow(cfg, state, version, now) {
      var k :| k in state.lastFetch && Value(k) == version && FetchedUnder(cfg, state, k, now);
      assert k != Decimal(version);
    }
    if FetchedUnderAlias(cfg, state, version, now) {
      var k :| k in state.lastFetch && k != Decimal(version) && Value(k) == version && FetchedUnder(cfg, state, k, now);
      assert k in state.lastFetch && Value(k) == version && FetchedUnder(cfg, state, k, now);
    }
  }

  /** Version 7, fetched one second ago and so recorded under "07", is selected all the same. */
  lemma AliasMissed(item: Item, now: int)
    requires !Gone(item) && now - item.created >= 100
    ensures var cfg := Config(100, 50, true);
            var state := State(None, None, None, false, false, false, false, [], [], map["07" := now - 1]);
            && FetchKeyed(state) && !Held(state) && FetchedUnderAlias(cfg, state, 7, now)
            && Belongs(cfg, state, 7, item, now, Selected)
  {
    var cfg := Config(100, 50, true);
    var state := State(None, None, None, false, false, false, false, [], [], map["07" := now - 1]);
    SpellSeven();
    assert Decimal(7) == "7" && |"07"| != |"7"|;
    assert "07" in state.lastFetch && FetchedUnder(cfg, state, "07", now);
  }

  /** The versions of the keys whose group is g, in the order of the keys. */
  ghost function Grouped(cfg: Config, s: Snapshot, keys: seq<string>, now: int, g: Group): seq<int>
    requires WellKeyed(s.versions) && forall k :: k in keys ==> k in s.versions
  {
    if keys == [] then [] else
    var n := |keys| - 1;
    assert keys[n] in s.versions;
    Grouped(cfg, s, keys[..n], now, g) +
    if Belongs(cfg, s.state, Value(keys[n]), s.versions[keys[n]], now, g) then [Value(keys[n])] else []
  }

  function ValuesOf(keys: seq<string>): seq<int>
    requires forall k :: k in keys ==> AllDigits(k)
  {
    if keys == [] then [] else ValuesOf(keys[..|keys| - 1]) + [Value(keys[|keys| - 1])]
  }

  ghost predicate Held(state: State) {
    state.rotation || state.canary || state.incidentHold || state.legalHold
  }

  datatype Excluded = Excluded(guarded: seq<int>, young: seq<int>, fetched: seq<int>, deleted: seq<int>)

  /** The exclusions are exactly the four groups; the selection is the fifth. */
  ghost predicate Sorted(cfg: Config, s: Snapshot, keys: seq<string>, now: int, selected: seq<int>, e: Excluded)
    requires WellKeyed(s.versions) && forall k :: k in keys ==> k in s.versions
  {
    && selected == Grouped(cfg, s, keys, now, Selected)
    && e == Excluded(Grouped(cfg, s, keys, now, Guarded), Grouped(cfg, s, keys, now, Young),
                     Grouped(cfg, s, keys, now, RecentlyFetched), Grouped(cfg, s, keys, now, AlreadyDeleted))
  }

  /** Files one version under its group. */
  method FileVersion(cfg: Config, state: State, version: nat, item: Item, now: int, selected: seq<int>, e: Excluded)
    returns (selected': seq<int>, e': Excluded)
    ensures selected' == selected + if Belongs(cfg, state, version, item, now, Selected) then [version] else []
    ensures e' == Excluded(
      e.guarded + if Belongs(cfg, state, version, item, now, Guarded) then [version] else [],
      e.young + if Belongs(cfg, state, version, item, now, Young) then [version] else [],
      e.fetched + if Belongs(cfg, state, version, item, now, RecentlyFetched) then [version] else [],
      e.deleted + if Belongs(cfg, state, version, item, now, AlreadyDeleted) then [version] else [])
  {
    selected', e' := selected, e;
    if item.destroyed || item.deletionTime {
      e' := e.(deleted := e.deleted + [version]);
    } else if version in Protected(state) {
      e' := e.(guarded := e.guarded + [version]);
    } else if now - item.created < cfg.retention {
      e' := e.(young := e.young + [version]);
    } else {
      var key := Decimal(version);
      if key in state.lastFetch && now - state.lastFetch[key] < cfg.grace {
        e' := e.(fetched := e.fetched + [version]);
      } else {
        selected' := selected + [version];
      }
    }
  }

  /** Refused under a rotation, canary or hold; otherwise the ascending selection and the exclusions. */
  method Candidates(cfg: Config, s: Snapshot, keys: seq<string>, now: int)
    returns (r: Result<(seq<int>, Excluded), bool>)
    requires WellKeyed(s.versions) && multiset(keys) == multiset(s.versions.Keys)
    ensures r.Err? <==> Held(s.state)
    ensures r.Ok? ==>
      && (forall k :: k in keys ==> k in s.versions)
      && Ascending(r.value.0) && multiset(r.value.0) == multiset(Grouped(cfg, s, keys, now, Selected))
      && Sorted(cfg, s, keys, now, Grouped(cfg, s, keys, now, Selected), r.value.1)
  {
    KeysKnown(s.versions, keys);
    if s.state.rotation || s.state.canary || s.state.incidentHold || s.state.legalHold {
      return Err(true);
    }
    var selected, e := [], Excluded([], [], [], []);
    for i := 0 to |keys|
      invariant Sorted(cfg, s, keys[..i], now, selected, e)
    {
      assert keys[..i + 1][..i] == keys[..i];
      assert keys[i] in s.versions;
      selected, e := FileVersion(cfg, s.state, Value(keys[i]), s.versions[keys[i]], now, selected, e);
    }
    assert keys[..|keys|] == keys;
    var ascending := Sort(selected);
    r := Ok((ascending, e));
  }

  lemma KeysKnown(versions: Versions, keys: seq<string>)
    requires multiset(keys) == multiset(versions.Keys)
    ensures forall k :: k in keys <==> k in versions
  {
    forall k
      ensures k in keys <==> k in versions
    {
      assert k in keys <==> k in multiset(keys);
      assert k in versions.Keys <==> k in multiset(versions.Keys);
    }
  }

  /** How often the version stands in the group. */
  ghost function Times(cfg: Config, s: Snapshot, keys: seq<string>, now: int, g: Group, v: int): nat
    requires WellKeyed(s.versions) && forall k :: k in keys ==> k in s.versions
  {
    multiset(Grouped(cfg, s, keys, now, g))[v]
  }

  /** How often the entry of a key adds v to a group. */
  ghost function Adds(cfg: Config, s: Snapshot, k: string, now: int, g: Group, v: int): nat
    requires WellKeyed(s.versions) && k in s.versions
  {
    if v == Value(k) && Belongs(cfg, s.state, Value(k), s.versions[k], now, g) then 1 else 0
  }

  lemma TimesStep(cfg: Config, s: Snapshot, keys: seq<string>, now: int, g: Group, v: int)
    requires WellKeyed(s.versions) && keys != [] && forall k :: k in keys ==> k in s.versions
    ensures var n := |keys| - 1;
            Times(cfg, s, keys, now, g, v) == Times(cfg, s, keys[..n], now, g, v) + Adds(cfg, s, keys[n], now, g, v)
  {
  }

  /** Exactly one group holds of each entry. */
  lemma AddsOnce(cfg: Config, s: Snapshot, k: string, now: int, v: int)
    requires WellKeyed(s.versions) && k in s.versions
    ensures Adds(cfg, s, k, now, Selected, v) + Adds(cfg, s, k, now, AlreadyDeleted, v)
              + Adds(cfg, s, k, now, Guarded, v) + Adds(cfg, s, k, now, Young, v)
              + Adds(cfg, s, k, now, RecentlyFetched, v)
            == if v == Value(k) then 1 else 0
  {
  }

  /** Together the five groups hold each version as often as it has keys. */
  lemma {:induction false} Partition(cfg: Config, s: Snapshot, keys: seq<string>, now: int, v: int)
    requires WellKeyed(s.versions) && forall k :: k in keys ==> k in s.versions
    ensures multiset(ValuesOf(keys))[v] ==
            Times(cfg, s, keys, now, Selected, v) + Times(cfg, s, keys, now, AlreadyDeleted, v)
              + Times(cfg, s, keys, now, Guarded, v) + Times(cfg, s, keys, now, Young, v)
              + Times(cfg, s, keys, now, RecentlyFetched, v)
  {
    if keys != [] {
      var k := keys[|keys| - 1];
      Partition(cfg, s, keys[..|keys| - 1], now, v);
      TimesStep(cfg, s, keys, now, Selected, v);
      TimesStep(cfg, s, keys, now, AlreadyDeleted, v);
      TimesStep(cfg, s, keys, now, Guarded, v);
      TimesStep(cfg, s, keys, now, Young, v);
      TimesStep(cfg, s, keys, now, RecentlyFetched, v);
      AddsOnce(cfg, s, k, now, v);
      assert multiset(ValuesOf(keys))[v] ==
             multiset(ValuesOf(keys[..|keys| - 1]))[v] + if v == Value(k) then 1 else 0;
    }
  }

  /** A version is in a group exactly when one of its keys belongs there. */
  lemma {:induction false} GroupedExact(cfg: Config, s: Snapshot, keys: seq<string>, now: int, g: Group, v: int)
    requires WellKeyed(s.versions) && forall k :: k in keys ==> k in s.versions
    ensures v in Grouped(cfg, s, keys, now, g) <==>
            exists k :: k in keys && Value(k) == v && Belongs(cfg, s.state, Value(k), s.versions[k], now, g)
  {
    if keys != [] {
      var n := |keys| - 1;
      assert keys[n] in s.versions;
      GroupedExact(cfg, s, keys[..n], now, g, v);
      assert keys == keys[..n] + [keys[n]];
    }
  }

  /** No two keys spell one version. */
  ghost predicate OneSpelling(versions: Versions)
    requires WellKeyed(versions)
  {
    forall j, k :: j in versions && k in versions && Value(j) == Value(k) ==> j == k
  }

  /** The group whose condition holds. */
  ghost function GroupOf(cfg: Config, state: State, version: nat, item: Item, now: int): (g: Group)
    ensures forall h :: Belongs(cfg, state, version, item, now, h) <==> h == g
  {
    if Gone(item) then AlreadyDeleted
    else if version in Protected(state) then Guarded
    else if !OldEnough(cfg, item, now) then Young
    else if !Unfetched(cfg, state, version, now) then RecentlyFetched
    else Selected
  }

  /** When no two keys spell one version, each version is in exactly one group, that of its entry. */
  lemma OneGroupEach(cfg: Config, s: Snapshot, keys: seq<string>, now: int, k: string, g: Group)
    requires WellKeyed(s.versions) && OneSpelling(s.versions) && (forall j :: j in keys ==> j in s.versions)
    requires k in keys
    ensures Value(k) in Grouped(cfg, s, keys, now, g) <==> g == GroupOf(cfg, s.state, Value(k), s.versions[k], now)
  {
    GroupedExact(cfg, s, keys, now, g, Value(k));
  }

  /** With two spellings a version can stand in two groups: one entry is old enough to be posted, the other is young. */
  lemma TwoSpellingsTwoGroups(now: int)
    ensures var cfg := Config(100, 50, true);
            var state := State(None, None, None, false, false, false, false, [], [], map[]);
            var s := Snapshot(state, map["7" := Item(now - 100, false, false), "07" := Item(now, false, false)]);
            && WellKeyed(s.versions) && !Held(state) && LetGo(cfg, s, now, 7)
            && 7 in Grouped(cfg, s, ["7", "07"], now, Selected) && 7 in Grouped(cfg, s, ["7", "07"], now, Young)
  {
    var cfg := Config(100, 50, true);
    var state := State(None, None, None, false, false, false, false, [], [], map[]);
    var s := Snapshot(state, map["7" := Item(now - 100, false, false), "07" := Item(now, false, false)]);
    SpellSeven();
    var keys := ["7", "07"];
    assert keys[0] == "7" && keys[1] == "07";
    assert Belongs(cfg, state, 7, s.versions["7"], now, Selected)
      && Belongs(cfg, state, 7, s.versions["07"], now, Young);
    assert "7" in keys && "07" in keys;
    GroupedExact(cfg, s, keys, now, Selected, 7);
    GroupedExact(cfg, s, keys, now, Young, 7);
  }

  lemma SpellSeven()
    ensures AllDigits("7") && AllDigits("07") && Value("7") == 7 && Value("07") == 7
  {
    assert "07"[..1] == "0" && "0"[..0] == [] && "7"[..0] == [] && Value([]) == 0;
    assert Value("0") == 0;
  }

  // ---------------------------------------------------------------- a run

  type Digester = Snapshot -> string

  ghost predicate CollisionFree(digest: Digester) {
    forall a, b {:trigger digest(a), digest(b)} :: digest(a) == digest(b) ==> a == b
  }

  /** What a run meets: the lease, its reads in order, the clock, and the fate of its requests. */
  datatype World = World(
    leaseFree: bool, before: Option<Snapshot>, keys: seq<string>, now: int, after: Option<Snapshot>,
    postFails: bool, verify: Option<Versions>, finalRead: bool)

  ghost predicate Readable(s: Option<Snapshot>) { s.Some? ==> WellKeyed(s.value.versions) }

  datatype Denial = LeaseUnavailable | UnreadableState | HoldActive | StateChanged | RequestFailed | VerificationFailed

  /** The version shows a deletion time in the metadata. */
  predicate Verified(versions: Versions, v: int) {
    v >= 0 && Decimal(v) in versions && versions[Decimal(v)].deletionTime
  }

  ghost predicate AllVerified(versions: Versions, selected: seq<int>) {
    forall v :: v in selected ==> Verified(versions, v)
  }

  method VerifyDeleted(versions: Versions, selected: seq<int>) returns (ok: bool)
    ensures ok <==> AllVerified(versions, selected)
  {
    for i := 0 to |selected|
      invariant forall j :: 0 <= j < i ==> Verified(versions, selected[j])
    {
      if !Verified(versions, selected[i]) {
        return false;
      }
    }
    return true;
  }

  /** The version is one that the snapshot lets go: unprotected, old, not recently fetched, not gone. */
  ghost predicate LetGo(cfg: Config, s: Snapshot, now: int, v: int)
    requires WellKeyed(s.versions)
  {
    exists k :: k in s.versions && Value(k) == v && Belongs(cfg, s.state, Value(k), s.versions[k], now, Selected)
  }

  /** Nothing stands in the way of the request: lease, readings, holds and digest. */
  ghost predicate Unhindered(digest: Digester, w: World) {
    && w.leaseFree && w.before.Some? && !Held(w.before.value.state)
    && w.after.Some? && digest(w.after.value) == digest(w.before.value)
  }

  /** Up to the request: the versions the first reading lets go, unless something stands in the way. */
  method Plan(cfg: Config, digest: Digester, w: World) returns (r: Result<seq<int>, Denial>)
    requires Readable(w.before)
    requires w.before.Some? ==> multiset(w.keys) == multiset(w.before.value.versions.Keys)
    ensures r.Ok? <==> Unhindered(digest, w)
    ensures r.Ok? ==> Ascending(r.value) && forall v :: v in r.value <==> LetGo(cfg, w.before.value, w.now, v)
  {
    if !w.leaseFree {
      return Err(LeaseUnavailable);
    }
    if w.before.None? {
      return Err(UnreadableState);
    }
    var before := w.before.value;
    var c := Candidates(cfg, before, w.keys, w.now);
    if c.Err? {
      return Err(HoldActive);
    }
    KeysKnown(before.versions, w.keys);
    SelectedLetGo(cfg, before, w.keys, w.now, c.value.0);
    if w.after.None? {
      return Err(UnreadableState);
    }
    if digest(w.after.value) != digest(before) {
      return Err(StateChanged);
    }
    r := Ok(c.value.0);
  }

  /**
    One run. A request is posted exactly in apply mode, unhindered and with something to delete, and
    names exactly the versions the first reading lets go, in ascending order. The run succeeds exactly
    when nothing had to be posted, or the request and the reads after it succeeded and every posted
    version showed a deletion time; then exactly those are reported deleted.
   */
  method Run(cfg: Config, digest: Digester, w: World)
    returns (result: Result<seq<int>, Denial>, posted: Option<seq<int>>)
    requires Readable(w.before)
    requires w.before.Some? ==> multiset(w.keys) == multiset(w.before.value.versions.Keys)
    ensures posted.Some? <==> cfg.apply && Unhindered(digest, w) && exists v :: LetGo(cfg, w.before.value, w.now, v)
    ensures posted.Some? ==>
      Ascending(posted.value) && forall v :: v in posted.value <==> LetGo(cfg, w.before.value, w.now, v)
    ensures result.Ok? ==> result.value == if posted.Some? then posted.value else []
    ensures result.Ok? <==>
      && Unhindered(digest, w)
      && (posted.Some? ==> !w.postFails && w.verify.Some? && w.finalRead && AllVerified(w.verify.value, posted.value))
  {
    var plan := Plan(cfg, digest, w);
    if plan.Err? {
      return Err(plan.error), None;
    }
    var selected := plan.value;
    if !cfg.apply || selected == [] {
      return Ok([]), None;
    }
    assert selected[0] in selected;
    posted := Some(selected);
    if w.postFails || w.verify.None? {
      return Err(RequestFailed), posted;
    }
    var ok := VerifyDeleted(w.verify.value, selected);
    if !ok {
      return Err(VerificationFailed), posted;
    }
    result := if w.finalRead then Ok(selected) else Err(RequestFailed);
  }

  lemma SelectedLetGo(cfg: Config, s: Snapshot, keys: seq<string>, now: int, selected: seq<int>)
    requires WellKeyed(s.versions) && (forall k :: k in keys <==> k in s.versions)
    requires multiset(selected) == multiset(Grouped(cfg, s, keys, now, Selected))
    ensures forall v :: v in selected <==> LetGo(cfg, s, now, v)
  {
    forall v
      ensures v in selected <==> LetGo(cfg, s, now, v)
    {
      GroupedExact(cfg, s, keys, now, Selected, v);
      assert v in selected <==> v in multiset(selected);
      assert v in Grouped(cfg, s, keys, now, Selected) <==> v in multiset(Grouped(cfg, s, keys, now, Selected));
    }
  }

  /**
    With a collision-free digest the state re-read just before the request still lets every posted version
    go, and shows a recent fetch of it only under another spelling than its plain decimal text.
   */
  lemma PostedStillLetGo(cfg: Config, digest: Digester, before: Snapshot, after: Snapshot, now: int, posted: seq<int>)
    requires CollisionFree(digest) && digest(after) == digest(before) && WellKeyed(before.versions)
    requires !Held(before.state)
    requires forall v :: v in posted <==> LetGo(cfg, before, now, v)
    ensures WellKeyed(after.versions) && !Held(after.state)
    ensures forall v :: v in posted ==> LetGo(cfg, after, now, v) && v >= 0 && v !in Protected(after.state)
    ensures FetchKeyed(after.state) ==> forall v :: v in posted ==>
      (RecentlyFetchedAnyhow(cfg, after.state, v, now) <==> FetchedUnderAlias(cfg, after.state, v, now))
  {
    assert after == before;
    if FetchKeyed(after.state) {
      forall v | v in posted
        ensures RecentlyFetchedAnyhow(cfg, after.state, v, now) <==> FetchedUnderAlias(cfg, after.state, v, now)
      {
        var k :| k in after.versions && Value(k) == v
          && Belongs(cfg, after.state, Value(k), after.versions[k], now, Selected);
        SelectedUnfetchedExactly(cfg, after.state, v, after.versions[k], now);
      }
    }
  }
}
