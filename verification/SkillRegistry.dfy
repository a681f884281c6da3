/** The release lifecycle of Skills and the deterministic canary routing over it. */
module SkillRegistry {
  import opened Wrappers
  import opened Sequences

  datatype State = Draft | Canary | Active | Retired

  /** A release: a Skill name with a version. */
  datatype Key = Key(name: string, version: string)

  datatype RegistryError = UnknownRelease | UnknownSkill | BadPercent | NotCanaryable | IsRetired | Ambiguous | NoRoute | PercentMissing | Duplicate

  /** The registry's mutable state; `order` lists the releases as they were registered. */
  datatype Registry = Registry(order: seq<Key>, states: map<Key, State>, percents: map<Key, int>)

  // ---------------------------------------------------------------- the invariant

  ghost predicate OneActive(states: map<Key, State>) {
    forall a, b :: a in states && b in states && a.name == b.name && states[a].Active? && states[b].Active? ==> a == b
  }

  ghost predicate PercentsMatch(states: map<Key, State>, percents: map<Key, int>) {
    && (forall k :: k in percents <==> k in states && states[k].Canary?)
    && (forall k :: k in percents ==> 1 <= percents[k] <= 50)
  }

  /** The releases are listed once each; percentages belong to listed releases. */
  ghost predicate Listed(r: Registry) {
    && Distinct(r.order) && (forall k :: k in r.states <==> k in r.order)
    && (forall k :: k in r.percents ==> k in r.states && 1 <= r.percents[k] <= 50)
  }

  /** At most one active release a name, and a percentage for exactly the canaries. */
  ghost predicate Ok(r: Registry) {
    Listed(r) && OneActive(r.states) && PercentsMatch(r.states, r.percents)
  }

  // ---------------------------------------------------------------- lifecycle operations

  datatype LifeOp =
    | SetCanary(key: Key, percent: int)
    | Activate(key: Key)
    | Retire(key: Key)
    | Rollback(key: Key)

  function Without(percents: map<Key, int>, key: Key): map<Key, int> {
    percents - {key}
  }

  /** Activating a release retires the active release of the same name. */
  function Promoted(states: map<Key, State>, key: Key): map<Key, State> {
    map k | k in states :: if k == key then Active else if k.name == key.name && states[k].Active? then Retired else states[k]
  }

  function Activated(r: Registry, key: Key): Registry {
    r.(states := Promoted(r.states, key), percents := Without(r.percents, key))
  }

  function LifeOutcome(r: Registry, op: LifeOp): Result<Registry, RegistryError> {
    match op
    case SetCanary(key, percent) =>
      if percent < 1 || percent > 50 then Failure(BadPercent)
      else if key !in r.states then Failure(UnknownRelease)
      else if !r.states[key].Draft? && !r.states[key].Canary? then Failure(NotCanaryable)
      else Success(r.(states := r.states[key := Canary], percents := r.percents[key := percent]))
    case Activate(key) =>
      if key !in r.states then Failure(UnknownRelease)
      else if r.states[key].Retired? then Failure(IsRetired)
      else Success(Activated(r, key))
    case Retire(key) =>
      if key !in r.states then Failure(UnknownRelease)
      else Success(r.(states := r.states[key := Retired], percents := Without(r.percents, key)))
    case Rollback(key) =>
      if key !in r.states then Failure(UnknownRelease) else Success(Activated(r, key))
  }

  function Apply(r: Registry, op: LifeOp): Registry {
    var o := LifeOutcome(r, op);
    if o.Success? then o.value else r
  }

  function Run(r: Registry, ops: seq<LifeOp>): Registry {
    if ops == [] then r else Apply(Run(r, ops[..|ops| - 1]), ops[|ops| - 1])
  }

  lemma OpKeepsListed(r: Registry, op: LifeOp)
    requires Listed(r)
    ensures Listed(Apply(r, op)) && Apply(r, op).order == r.order
  {
  }

  lemma OpKeepsOneActive(r: Registry, op: LifeOp)
    requires OneActive(r.states)
    ensures OneActive(Apply(r, op).states)
  {
    var states' := Apply(r, op).states;
    forall a, b | a in states' && b in states' && a.name == b.name && states'[a].Active? && states'[b].Active? ensures a == b {
      assert a in r.states && b in r.states;
    }
  }

  lemma OpKeepsPercents(r: Registry, op: LifeOp)
    requires PercentsMatch(r.states, r.percents)
    ensures PercentsMatch(Apply(r, op).states, Apply(r, op).percents)
  {
  }

  lemma OpKeepsOk(r: Registry, op: LifeOp)
    requires Ok(r)
    ensures Ok(Apply(r, op)) && Apply(r, op).order == r.order
  {
    hide Listed, OneActive, PercentsMatch, Apply, LifeOutcome;
    OpKeepsListed(r, op);
    OpKeepsOneActive(r, op);
    OpKeepsPercents(r, op);
  }

  /** A retired release may be made a draft again; activating it then is the rollback. */
  lemma Unretired(r: Registry, key: Key)
    requires Listed(r) && key in r.states && r.states[key].Retired?
    ensures var r' := r.(states := r.states[key := Draft]);
      Listed(r') && LifeOutcome(r', Activate(key)) == LifeOutcome(r, Rollback(key))
  {
    assert Promoted(r.states[key := Draft], key) == Promoted(r.states, key);
  }

  /** Every lifecycle sequence keeps the invariant. */
  lemma {:induction false} EverySequenceKeepsOk(r: Registry, ops: seq<LifeOp>)
    requires Ok(r)
    ensures Ok(Run(r, ops))
  {
    if ops != [] {
      EverySequenceKeepsOk(r, ops[..|ops| - 1]);
      OpKeepsOk(Run(r, ops[..|ops| - 1]), ops[|ops| - 1]);
    }
  }

  // ---------------------------------------------------------------- routing

  /** Code-point order of strings. */
  predicate Before(a: string, b: string) {
    if a == "" then b != ""
    else if b == "" then false
    else a[0] < b[0] || (a[0] == b[0] && Before(a[1..], b[1..]))
  }

  function InsertDescending(key: Key, keys: seq<Key>): seq<Key> {
    if keys == [] || Before(keys[0].version, key.version) then [key] + keys
    else [keys[0]] + InsertDescending(key, keys[1..])
  }

  /** The releases of one name in descending order of their versions. */
  function Descending(keys: seq<Key>): seq<Key> {
    if keys == [] then [] else InsertDescending(keys[|keys| - 1], Descending(keys[..|keys| - 1]))
  }

  lemma {:induction false} BeforeChains(a: string, b: string, c: string)
    requires !Before(a, b) && !Before(b, c)
    ensures !Before(a, c)
  {
    if a != "" && b != "" && c != "" && a[0] == b[0] == c[0] {
      BeforeChains(a[1..], b[1..], c[1..]);
    }
  }

  lemma {:induction false} BeforeOneWay(a: string, b: string)
    requires Before(a, b)
    ensures !Before(b, a)
  {
    if a != "" && a[0] == b[0] {
      BeforeOneWay(a[1..], b[1..]);
    }
  }

  ghost predicate IsDescending(keys: seq<Key>) {
    forall i, j :: 0 <= i < j < |keys| ==> !Before(keys[i].version, keys[j].version)
  }

  lemma {:induction false} InsertKeepsDescending(key: Key, keys: seq<Key>)
    requires IsDescending(keys)
    ensures IsDescending(InsertDescending(key, keys))
  {
    if keys != [] {
      var head, rest := keys[0], keys[1..];
      if Before(head.version, key.version) {
        BeforeOneWay(head.version, key.version);
        forall j | 0 <= j < |keys| ensures !Before(key.version, keys[j].version) {
          if j > 0 { BeforeChains(key.version, head.version, keys[j].version); }
        }
      } else {
        InsertKeepsDescending(key, rest);
        var more := InsertDescending(key, rest);
        forall j | 0 <= j < |more| ensures !Before(head.version, more[j].version) {
          InsertElements(key, rest, more[j]);
          if more[j] != key { var m :| 0 <= m < |rest| && rest[m] == more[j]; assert keys[m + 1] == more[j]; }
        }
      }
    }
  }

  /** The canaries are tried from the highest version down. */
  lemma {:induction false} DescendingIsDescending(keys: seq<Key>)
    ensures IsDescending(Descending(keys))
  {
    if keys != [] {
      DescendingIsDescending(keys[..|keys| - 1]);
      InsertKeepsDescending(keys[|keys| - 1], Descending(keys[..|keys| - 1]));
    }
  }

  /** The releases of a name in a state, in registration order. */
  function InState(r: Registry, name: string, state: State): seq<Key> {
    Filtered(r.order, r.states, name, state)
  }

  function Filtered(order: seq<Key>, states: map<Key, State>, name: string, state: State): (keys: seq<Key>)
    ensures forall k :: k in keys <==> k in order && k in states && k.name == name && states[k] == state
  {
    if order == [] then []
    else
      var k := order[|order| - 1];
      assert order == order[..|order| - 1] + [k];
      Filtered(order[..|order| - 1], states, name, state)
        + (if k in states && k.name == name && states[k] == state then [k] else [])
  }

  /** The first release whose percentage exceeds the bucket; every release on the way must have a percentage. */
  function FirstHit(keys: seq<Key>, percents: map<Key, int>, bucket: int): Result<Option<Key>, RegistryError> {
    if keys == [] then Success(None)
    else if keys[0] !in percents then Failure(PercentMissing)
    else if bucket < percents[keys[0]] then Success(Some(keys[0]))
    else FirstHit(keys[1..], percents, bucket)
  }

  predicate Known(order: seq<Key>, name: string) {
    exists i :: 0 <= i < |order| && order[i].name == name
  }

  /** The release that serves a correlation id which falls into the given bucket. */
  function Resolved(r: Registry, name: string, bucket: int): Result<Key, RegistryError> {
    if !Known(r.order, name) then Failure(UnknownSkill)
    else
      var hit := FirstHit(Descending(InState(r, name, Canary)), r.percents, bucket);
      if hit.Failure? then Failure(hit.error)
      else if hit.value.Some? then Success(hit.value.value)
      else Fallback(r, name)
  }

  /** The release that serves an id which no canary takes. */
  function Fallback(r: Registry, name: string): Result<Key, RegistryError> {
    var canaries, active, drafts := InState(r, name, Canary), InState(r, name, Active), InState(r, name, Draft);
    if |active| == 1 then Success(active[0])
    else if |active| > 1 then Failure(Ambiguous)
    else if |canaries| == 1 then Success(canaries[0])
    else if |drafts| == 1 then Success(drafts[0])
    else Failure(NoRoute)
  }

  lemma {:induction false} DescendingElements(keys: seq<Key>, k: Key)
    ensures k in Descending(keys) <==> k in keys
  {
    if keys != [] {
      var n := |keys| - 1;
      DescendingElements(keys[..n], k);
      InsertElements(keys[n], Descending(keys[..n]), k);
      assert keys == keys[..n] + [keys[n]];
    }
  }

  lemma {:induction false} InsertElements(key: Key, keys: seq<Key>, k: Key)
    ensures k in InsertDescending(key, keys) <==> k == key || k in keys
  {
    if keys != [] && !Before(keys[0].version, key.version) {
      InsertElements(key, keys[1..], k);
    }
  }

  lemma {:induction false} HitIsListed(keys: seq<Key>, percents: map<Key, int>, bucket: int)
    ensures var hit := FirstHit(keys, percents, bucket);
      && (hit.Success? && hit.value.Some? ==> hit.value.value in keys && hit.value.value in percents)
      && ((forall k :: k in keys ==> k in percents) ==> hit.Success?)
  {
    if keys != [] && keys[0] in percents && bucket >= percents[keys[0]] {
      HitIsListed(keys[1..], percents, bucket);
    }
  }

  /** No percentage catches bucket 99, so that bucket meets every canary. */
  lemma {:induction false} LastBucketMeetsAll(keys: seq<Key>, percents: map<Key, int>)
    requires forall k :: k in percents ==> percents[k] <= 50
    ensures FirstHit(keys, percents, 99).Success? ==> forall k :: k in keys ==> k in percents
  {
    if keys != [] && keys[0] in percents {
      LastBucketMeetsAll(keys[1..], percents);
    }
  }

  lemma {:induction false} CanariesTried(r: Registry, name: string, k: Key)
    requires Listed(r)
    ensures k in Descending(InState(r, name, Canary)) <==> k in r.states && k.name == name && r.states[k].Canary?
  {
    hide Distinct;
    DescendingElements(InState(r, name, Canary), k);
  }

  lemma MissingMeansUntold(r: Registry, name: string, bucket: int)
    ensures Resolved(r, name, bucket) == Failure(PercentMissing) <==>
      Known(r.order, name) && FirstHit(Descending(InState(r, name, Canary)), r.percents, bucket).Failure?
  {
    hide Known, FirstHit, Descending, InState;
    OnlyMissing(Descending(InState(r, name, Canary)), r.percents, bucket);
  }

  /** Each canary of the name has a percentage. */
  ghost predicate AllTold(r: Registry, name: string) {
    forall k :: k in r.states && k.name == name && r.states[k].Canary? ==> k in r.percents
  }

  lemma NeverMissing(r: Registry, name: string, bucket: int)
    requires Listed(r) && AllTold(r, name)
    ensures Resolved(r, name, bucket) != Failure(PercentMissing)
  {
    hide Listed, Descending, InState, FirstHit, Resolved, Known;
    var keys := Descending(InState(r, name, Canary));
    forall k | k in keys ensures k in r.percents { CanariesTried(r, name, k); }
    HitIsListed(keys, r.percents, bucket);
    MissingMeansUntold(r, name, bucket);
  }

  lemma MissingAtTheLastBucket(r: Registry, name: string)
    requires Listed(r) && !AllTold(r, name)
    ensures Resolved(r, name, 99) == Failure(PercentMissing)
  {
    hide Descending, InState, FirstHit, Resolved, Known, Distinct;
    var k :| k in r.states && k.name == name && r.states[k].Canary? && k !in r.percents;
    CanariesTried(r, name, k);
    LastBucketMeetsAll(Descending(InState(r, name, Canary)), r.percents);
    KnownReleases(r, name);
    MissingMeansUntold(r, name, 99);
  }

  /** Routing a name is free of missing percentages for every bucket exactly when each of its canaries has one. */
  lemma PercentNeverMissingIff(r: Registry, name: string)
    requires Listed(r)
    ensures (forall bucket :: 0 <= bucket < 100 ==> Resolved(r, name, bucket) != Failure(PercentMissing)) <==> AllTold(r, name)
  {
    hide Listed, Resolved, AllTold;
    if AllTold(r, name) {
      forall bucket | 0 <= bucket < 100 ensures Resolved(r, name, bucket) != Failure(PercentMissing) {
        NeverMissing(r, name, bucket);
      }
    } else {
      MissingAtTheLastBucket(r, name);
    }
  }

  /**
   The concrete failure: a registry whose only release was declared a canary by its
   manifest has no percentage for it, and routes no correlation id at all.
   */
  lemma {:induction false} CanaryManifestIsNotRouted(key: Key, bucket: int)
    requires 0 <= bucket < 100
    ensures var r := Registry([key], map[key := Canary], map[]);
      Listed(r) && OneActive(r.states) && !PercentsMatch(r.states, r.percents)
      && Resolved(r, key.name, bucket) == Failure(PercentMissing)
  {
    var r := Registry([key], map[key := Canary], map[]);
    assert r.order[0] == key && key in r.order;
    assert [key][..0] == [];
    assert Filtered([], r.states, key.name, Canary) == [];
    assert Filtered([key], r.states, key.name, Canary) == [] + [key];
    assert Descending([key]) == [key];
  }

  lemma {:induction false} OnlyMissing(keys: seq<Key>, percents: map<Key, int>, bucket: int)
    ensures FirstHit(keys, percents, bucket).Failure? ==> FirstHit(keys, percents, bucket).error == PercentMissing
  {
    if keys != [] {
      OnlyMissing(keys[1..], percents, bucket);
    }
  }

  lemma KnownReleases(r: Registry, name: string)
    requires Listed(r)
    ensures Known(r.order, name) <==> exists k :: k in r.states && k.name == name
  {
    if k :| k in r.states && k.name == name {
      var i :| 0 <= i < |r.order| && r.order[i] == k;
    }
    if Known(r.order, name) {
      var i :| 0 <= i < |r.order| && r.order[i].name == name;
      assert r.order[i] in r.states;
    }
  }

  lemma {:induction false} FilteredDistinct(order: seq<Key>, states: map<Key, State>, name: string, state: State)
    requires Distinct(order)
    ensures Distinct(Filtered(order, states, name, state))
  {
    if order != [] {
      FilteredDistinct(order[..|order| - 1], states, name, state);
    }
  }

  lemma ActivesAreOne(r: Registry, name: string, a: Key, b: Key)
    requires Ok(r) && a in InState(r, name, Active) && b in InState(r, name, Active)
    ensures a == b
  {
  }

  lemma ListsAreDistinct(r: Registry, name: string, state: State)
    requires Ok(r)
    ensures Distinct(InState(r, name, state))
  {
    FilteredDistinct(r.order, r.states, name, state);
  }

  lemma AtMostOneActiveListed(r: Registry, name: string)
    requires Ok(r)
    ensures |InState(r, name, Active)| <= 1
  {
    hide Ok, InState;
    var active := InState(r, name, Active);
    ListsAreDistinct(r, name, Active);
    if |active| > 1 { ActivesAreOne(r, name, active[0], active[1]); }
  }

  /** A release of the name that is not retired. */
  predicate Servable(r: Registry, name: string, k: Key) {
    k in r.states && k.name == name && !r.states[k].Retired?
  }

  lemma {:induction false} InStateServable(r: Registry, name: string, state: State, i: nat)
    requires i < |InState(r, name, state)| && !state.Retired?
    ensures Servable(r, name, InState(r, name, state)[i])
  {
    assert InState(r, name, state)[i] in InState(r, name, state);
  }

  lemma FallbackIsSafe(r: Registry, name: string)
    requires Ok(r)
    ensures Fallback(r, name) != Failure(Ambiguous) && Fallback(r, name) != Failure(PercentMissing)
    ensures Fallback(r, name).Success? ==> Servable(r, name, Fallback(r, name).value)
    ensures InState(r, name, Active) != [] ==> Fallback(r, name).Success?
  {
    hide Ok, InState, Servable;
    AtMostOneActiveListed(r, name);
    if |InState(r, name, Active)| == 1 { InStateServable(r, name, Active, 0); }
    if |InState(r, name, Canary)| == 1 { InStateServable(r, name, Canary, 0); }
    if |InState(r, name, Draft)| == 1 { InStateServable(r, name, Draft, 0); }
  }

  lemma {:induction false} OkMeansTold(r: Registry, name: string)
    requires Ok(r)
    ensures AllTold(r, name)
  {
    hide Listed, OneActive;
  }

  lemma HitIsServable(r: Registry, name: string, bucket: int)
    requires Listed(r)
    ensures var hit := FirstHit(Descending(InState(r, name, Canary)), r.percents, bucket);
      hit.Success? && hit.value.Some? ==> Servable(r, name, hit.value.value)
  {
    hide Listed, Descending, InState, FirstHit;
    var keys := Descending(InState(r, name, Canary));
    HitIsListed(keys, r.percents, bucket);
    var hit := FirstHit(keys, r.percents, bucket);
    if hit.Success? && hit.value.Some? { CanariesTried(r, name, hit.value.value); }
  }

  lemma {:induction false} ActiveIsKnown(r: Registry, name: string)
    requires Listed(r)
    ensures (exists k :: k in r.states && k.name == name && r.states[k].Active?) ==> Known(r.order, name) && InState(r, name, Active) != []
  {
    hide Distinct, Known;
    KnownReleases(r, name);
    if k :| k in r.states && k.name == name && r.states[k].Active? {
      assert k in InState(r, name, Active);
    }
  }

  /**
   Routing never finds two active releases and never serves a retired one or one
   of another name, and it always serves something while a release is active.
   */
  lemma ResolveIsSafe(r: Registry, name: string, bucket: int)
    requires Ok(r)
    ensures Resolved(r, name, bucket) != Failure(Ambiguous) && Resolved(r, name, bucket) != Failure(PercentMissing)
    ensures Resolved(r, name, bucket).Success? ==> Servable(r, name, Resolved(r, name, bucket).value)
    ensures (exists k :: k in r.states && k.name == name && r.states[k].Active?) ==> Resolved(r, name, bucket).Success?
  {
    assert Listed(r);
    hide Ok, Listed, AllTold, Descending, FirstHit, Known, Fallback, Servable, InState;
    OkMeansTold(r, name);
    NeverMissing(r, name, bucket);
    OnlyMissing(Descending(InState(r, name, Canary)), r.percents, bucket);
    HitIsServable(r, name, bucket);
    FallbackIsSafe(r, name);
    ActiveIsKnown(r, name);
  }

  lemma {:induction false} RaisedHit(keys: seq<Key>, percents: map<Key, int>, key: Key, percent: int, bucket: int)
    requires key in percents && percents[key] <= percent
    ensures var before, after := FirstHit(keys, percents, bucket), FirstHit(keys, percents[key := percent], bucket);
      && (after == before || after == Success(Some(key)))
      && (before == Success(Some(key)) ==> after == Success(Some(key)))
  {
    if keys != [] {
      RaisedHit(keys[1..], percents, key, percent, bucket);
    }
  }

  /**
   Raising the percentage of a canary never routes a correlation id away from it,
   and moves no other id to any release but this one.
   */
  lemma RaisingOnlyAttracts(r: Registry, key: Key, percent: int, name: string, bucket: int)
    requires Ok(r) && key in r.percents && r.percents[key] <= percent <= 50
    ensures var r' := Apply(r, SetCanary(key, percent));
      && (Resolved(r', name, bucket) == Resolved(r, name, bucket) || Resolved(r', name, bucket) == Success(key))
      && (Resolved(r, name, bucket) == Success(key) ==> Resolved(r', name, bucket) == Success(key))
  {
    hide Ok, Apply, Filtered, Descending, FirstHit, Known;
    PercentOnly(r, key, percent);
    RaisedHit(Descending(InState(r, name, Canary)), r.percents, key, percent, bucket);
  }

  lemma PercentOnly(r: Registry, key: Key, percent: int)
    requires Ok(r) && key in r.percents && r.percents[key] <= percent <= 50
    ensures Apply(r, SetCanary(key, percent)) == r.(percents := r.percents[key := percent])
  {
    assert r.states[key := Canary] == r.states;
  }

  /** The states after the active releases among `seen` that share the key's name have been retired. */
  ghost function Demoted(states: map<Key, State>, seen: seq<Key>, key: Key): map<Key, State> {
    map k | k in states :: if k in seen && k != key && k.name == key.name && states[k].Active? then Retired else states[k]
  }

  lemma DemoteNone(states: map<Key, State>, key: Key)
    ensures Demoted(states, [], key) == states
  {
  }

  lemma {:induction false} DemoteNext(states: map<Key, State>, seen: seq<Key>, k: Key, key: Key)
    requires k in states
    ensures k in Demoted(states, seen, key)
    ensures var now := Demoted(states, seen, key);
      Demoted(states, seen + [k], key) == if k.name == key.name && k != key && now[k].Active? then now[k := Retired] else now
    ensures Demoted(states, seen + [k], key).Keys == states.Keys
  {
  }

  lemma ListedAt(r: Registry, i: nat)
    requires Listed(r) && i < |r.order|
    ensures r.order[i] in r.states
  {
    assert r.order[i] in r.order;
  }

  lemma DemoteAll(r: Registry, key: Key)
    requires Listed(r) && key in r.states
    ensures Demoted(r.states, r.order, key)[key := Active] == Promoted(r.states, key)
  {
  }

  // ---------------------------------------------------------------- the registry object

  function KeysOf(releases: seq<(Key, State)>): (keys: seq<Key>)
    ensures |keys| == |releases| && forall i :: 0 <= i < |releases| ==> keys[i] == releases[i].0
  {
    seq(|releases|, i requires 0 <= i < |releases| => releases[i].0)
  }

  /** The state of every release; the first entry of a release counts, and there is no second. */
  function StatesOf(releases: seq<(Key, State)>): map<Key, State> {
    if releases == [] then map[]
    else StatesOf(releases[..|releases| - 1])[releases[|releases| - 1].0 := releases[|releases| - 1].1]
  }

  /** The registry right after the releases were registered. */
  function Registered(releases: seq<(Key, State)>): Registry {
    Registry(KeysOf(releases), StatesOf(releases), map[])
  }

  lemma {:induction false} KeysSnoc(releases: seq<(Key, State)>, i: nat)
    requires i < |releases|
    ensures KeysOf(releases[..i + 1]) == KeysOf(releases[..i]) + [releases[i].0]
    ensures Distinct(KeysOf(releases[..i])) ==>
      (Distinct(KeysOf(releases[..i + 1])) <==> releases[i].0 !in Elements(KeysOf(releases[..i])))
    ensures Elements(KeysOf(releases[..i + 1])) == Elements(KeysOf(releases[..i])) + {releases[i].0}
    ensures Distinct(KeysOf(releases)) ==> Distinct(KeysOf(releases[..i + 1]))
  {
    var before, more := KeysOf(releases[..i]), KeysOf(releases[..i + 1]);
    assert more == before + [releases[i].0];
    if releases[i].0 in before {
      var k :| 0 <= k < i && before[k] == releases[i].0;
      assert more[k] == more[i];
    }
    if Distinct(KeysOf(releases)) {
      forall a, b | 0 <= a < b < |more| ensures more[a] != more[b] {
        assert more[a] == KeysOf(releases)[a] && more[b] == KeysOf(releases)[b];
      }
    }
  }

  lemma {:induction false} StatesAreThose(releases: seq<(Key, State)>)
    requires Distinct(KeysOf(releases))
    ensures forall k :: k in StatesOf(releases) <==> k in KeysOf(releases)
    ensures forall i :: 0 <= i < |releases| ==> StatesOf(releases)[releases[i].0] == releases[i].1
  {
    if releases != [] {
      var n := |releases| - 1;
      KeysSnoc(releases, n);
      assert releases[..n + 1] == releases;
      forall a, b | 0 <= a < b < n ensures KeysOf(releases[..n])[a] != KeysOf(releases[..n])[b] {
        assert KeysOf(releases)[a] != KeysOf(releases)[b];
      }
      StatesAreThose(releases[..n]);
      forall i | 0 <= i < n ensures StatesOf(releases)[releases[i].0] == releases[i].1 {
        assert releases[..n][i] == releases[i] && KeysOf(releases)[i] != KeysOf(releases)[n];
        assert releases[i].0 in KeysOf(releases[..n]);
      }
    }
  }

  lemma {:induction false} RegisteredIsListed(releases: seq<(Key, State)>)
    requires Distinct(KeysOf(releases))
    ensures Listed(Registered(releases))
  {
    StatesAreThose(releases);
  }

  /** A new registry meets the whole invariant exactly when no manifest declares a canary and none competes for active. */
  lemma {:induction false} RegisteredOk(releases: seq<(Key, State)>)
    requires Distinct(KeysOf(releases))
    ensures Ok(Registered(releases)) <==>
      OneActive(StatesOf(releases)) && forall i :: 0 <= i < |releases| ==> !releases[i].1.Canary?
  {
    RegisteredIsListed(releases);
    StatesAreThose(releases);
    hide KeysOf, StatesOf, OneActive;
    var states := StatesOf(releases);
    if exists i :: 0 <= i < |releases| && releases[i].1.Canary? {
      var i :| 0 <= i < |releases| && releases[i].1.Canary?;
      assert KeysOf(releases)[i] == releases[i].0;
      assert releases[i].0 in states && states[releases[i].0].Canary?;
    } else {
      forall k | k in states ensures !states[k].Canary? {
        var i :| 0 <= i < |releases| && KeysOf(releases)[i] == k;
        assert releases[i].0 == k;
      }
    }
  }

  class SkillRegistry {
    const order: seq<Key>
    const bucketOf: (string, string) -> int
    var states: map<Key, State>
    var percents: map<Key, int>

    ghost function Contents(): Registry
      reads this
    {
      Registry(order, states, percents)
    }

    ghost predicate Valid()
      reads this
    {
      Listed(Contents())
    }

    /** The registry of releases that are listed once each. */
    constructor (releases: seq<(Key, State)>, bucketOf: (string, string) -> int)
      requires Distinct(KeysOf(releases))
      ensures Valid() && Contents() == Registered(releases) && this.bucketOf == bucketOf
    {
      this.order := KeysOf(releases);
      this.bucketOf := bucketOf;
      this.states, this.percents := StatesOf(releases), map[];
      new;
      RegisteredIsListed(releases);
    }

    /**
     Register the discovered releases; a release that occurs twice is refused.  A
     canary manifest brings no percentage with it.
     */
    static method Create(releases: seq<(Key, State)>, bucketOf: (string, string) -> int)
      returns (r: Result<SkillRegistry, RegistryError>)
      ensures r.Success? <==> Distinct(KeysOf(releases))
      ensures r.Failure? ==> r.error == Duplicate
      ensures r.Success? ==> fresh(r.value) && r.value.Valid() && r.value.Contents() == Registered(releases)
      ensures r.Success? ==>
        (Ok(r.value.Contents()) <==>
         OneActive(StatesOf(releases)) && forall i :: 0 <= i < |releases| ==> !releases[i].1.Canary?)
    {
      var seen: set<Key> := {};
      for i := 0 to |releases|
        invariant Distinct(KeysOf(releases[..i])) && seen == Elements(KeysOf(releases[..i]))
      {
        KeysSnoc(releases, i);
        if releases[i].0 in seen { return Failure(Duplicate); }
        seen := seen + {releases[i].0};
      }
      assert releases[..|releases|] == releases;
      var registry := new SkillRegistry(releases, bucketOf);
      RegisteredOk(releases);
      r := Success(registry);
    }

    method SetCanary(name: string, version: string, percent: int) returns (r: Result<(), RegistryError>)
      requires Valid()
      modifies this
      ensures Valid() && Contents() == Apply(old(Contents()), LifeOp.SetCanary(Key(name, version), percent))
      ensures r.Success? <==> LifeOutcome(old(Contents()), LifeOp.SetCanary(Key(name, version), percent)).Success?
    {
      var key := Key(name, version);
      OpKeepsListed(Contents(), LifeOp.SetCanary(key, percent));
      if percent < 1 || percent > 50 { return Failure(BadPercent); }
      if key !in states { return Failure(UnknownRelease); }
      if !states[key].Draft? && !states[key].Canary? { return Failure(NotCanaryable); }
      states := states[key := Canary];
      percents := percents[key := percent];
      r := Success(());
    }

    /** Retire the other active releases of the key's name, one release at a time. */
    method DemoteOthers(key: Key)
      requires Valid()
      modifies this`states
      ensures states == Demoted(old(states), order, key)
    {
      hide Demoted, Listed;
      ghost var before := states;
      ghost var registry := Contents();
      DemoteNone(before, key);
      for i := 0 to |order|
        invariant states == Demoted(before, order[..i], key)
      {
        ListedAt(registry, i);
        DemoteNext(before, order[..i], order[i], key);
        assert order[..i + 1] == order[..i] + [order[i]];
        if order[i].name == key.name && order[i] != key && states[order[i]].Active? {
          states := states[order[i] := Retired];
        }
      }
      assert order[..|order|] == order;
    }

    method Promote(key: Key)
      requires Valid() && key in states
      modifies this`states, this`percents
      ensures Contents() == Activated(old(Contents()), key)
    {
      hide Demoted, Promoted, Listed;
      DemoteAll(Contents(), key);
      DemoteOthers(key);
      states := states[key := Active];
      percents := percents - {key};
    }

    method Activate(name: string, version: string) returns (r: Result<(), RegistryError>)
      requires Valid()
      modifies this
      ensures Valid() && Contents() == Apply(old(Contents()), LifeOp.Activate(Key(name, version)))
      ensures r.Success? <==> LifeOutcome(old(Contents()), LifeOp.Activate(Key(name, version))).Success?
      ensures r.Success? ==> Key(name, version) in states && states[Key(name, version)].Active?
    {
      var key := Key(name, version);
      OpKeepsListed(Contents(), LifeOp.Activate(key));
      if key !in states { return Failure(UnknownRelease); }
      if states[key].Retired? { return Failure(IsRetired); }
      hide Listed;
      Promote(key);
      r := Success(());
    }

    method Retire(name: string, version: string) returns (r: Result<(), RegistryError>)
      requires Valid()
      modifies this
      ensures Valid() && Contents() == Apply(old(Contents()), LifeOp.Retire(Key(name, version)))
      ensures r.Success? <==> LifeOutcome(old(Contents()), LifeOp.Retire(Key(name, version))).Success?
    {
      var key := Key(name, version);
      OpKeepsListed(Contents(), LifeOp.Retire(key));
      if key !in states { return Failure(UnknownRelease); }
      states := states[key := Retired];
      percents := percents - {key};
      r := Success(());
    }

    /** Roll back to a release, retired or not: a retired one is a draft for a moment. */
    method Rollback(name: string, version: string) returns (r: Result<(), RegistryError>)
      requires Valid()
      modifies this
      ensures Valid() && Contents() == Apply(old(Contents()), LifeOp.Rollback(Key(name, version)))
      ensures r.Success? <==> Key(name, version) in old(states)
      ensures r.Success? ==> Key(name, version) in states && states[Key(name, version)].Active?
    {
      var key := Key(name, version);
      if key !in states { return Failure(UnknownRelease); }
      if states[key].Retired? {
        Unretired(Contents(), key);
        hide Listed, Promoted;
        states := states[key := Draft];
        r := Activate(name, version);
      } else {
        hide Listed, Promoted;
        r := Activate(name, version);
      }
    }

    method Resolve(name: string, correlation: string) returns (r: Result<Key, RegistryError>)
      requires Valid()
      ensures r == Resolved(Contents(), name, bucketOf(correlation, name))
      ensures Ok(Contents()) ==> r != Failure(Ambiguous) && r != Failure(PercentMissing)
      ensures Ok(Contents()) && r.Success? ==> Servable(Contents(), name, r.value)
    {
      var bucket := bucketOf(correlation, name);
      if Ok(Contents()) { ResolveIsSafe(Contents(), name, bucket); }
      hide Ok, Listed, Descending, Filtered, Servable, FirstHit;
      if !(exists i :: 0 <= i < |order| && order[i].name == name) { return Failure(UnknownSkill); }
      var canaries := Filtered(order, states, name, Canary);
      var hit :- TryCanaries(Descending(canaries), bucket);
      if hit.Some? { return Success(hit.value); }
      var active := Filtered(order, states, name, Active);
      if |active| == 1 { return Success(active[0]); }
      if |active| > 1 { return Failure(Ambiguous); }
      if |canaries| == 1 { return Success(canaries[0]); }
      var drafts := Filtered(order, states, name, Draft);
      r := if |drafts| == 1 then Success(drafts[0]) else Failure(NoRoute);
    }

    /** The first canary whose percentage catches the bucket. */
    method TryCanaries(sorted: seq<Key>, bucket: int) returns (hit: Result<Option<Key>, RegistryError>)
      ensures hit == FirstHit(sorted, percents, bucket)
    {
      for i := 0 to |sorted|
        invariant FirstHit(sorted, percents, bucket) == FirstHit(sorted[i..], percents, bucket)
      {
        if sorted[i] !in percents { return Failure(PercentMissing); }
        if bucket < percents[sorted[i]] { return Success(Some(sorted[i])); }
      }
      hit := Success(None);
    }
  }
}
