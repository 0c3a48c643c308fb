/** `plan` and `validate_plan` of core_shards.py: the producer of a shard plan and its verifier. */
module ShardPlan {
  import opened Results
  import opened Sorting
  import opened NodeIds
  import opened Scheduler
  import SchedulerFacts

  datatype Refusal =
    | WrongPurpose | InvalidContext | PurposeRefusesCount | InvalidInventory | InventoryDiffers
    | InvalidFallback | InvalidTimings | InvalidRecord | NotPartitionable(why: Scheduler.Refusal) | ShardsDiffer

  datatype Purpose = Shadow | Qualification

  /** `runnerImage` is provenance only; every other field binds the execution. */
  datatype Context = Context(lane: string, profile: string, source: string, runnerImage: string)

  datatype LaneTimings = LaneTimings(profile: string, filesMs: map<string, int>, filesSha: map<string, string>)

  datatype History = History(hashed: bool, lanes: map<string, LaneTimings>)

  /** The field-shape checks the program imports: contexts, JUnit selectors and SHA-256 strings. */
  datatype Rules = Rules(context: Context -> bool, selector: string -> bool, sha256: string -> bool)

  /** A digest is modelled by the value it commits to. */
  datatype Plan = Plan(
    legacy: bool, purpose: Purpose, context: Context,
    inventory: seq<string>, inventoryDigest: seq<string>, historyDigest: Option<History>,
    usedFiles: seq<string>, freshFiles: seq<string>, staleFiles: seq<string>,
    fallbackMs: int, weights: map<string, int>, count: int, shards: seq<Shard>)

  const WINDOWS_LANE := "core-windows-3.13"
  const UBUNTU_LANE := "core-ubuntu-3.11"
  const WINDOWS_SHARDS := 2
  const FALLBACK_MS := 60_000

  predicate CoreNode(node: string, rules: Rules) {
    rules.selector(node) && "tests/" <= node && HasSeparator(node)
  }

  predicate NoDuplicates(s: seq<string>) {
    |Elements(s)| == |s|
  }

  /** `inventory(nodes)` returns normally. */
  predicate ValidInventory(nodes: seq<string>, rules: Rules) {
    0 < |nodes| <= 100_000 && NoDuplicates(nodes) && forall node :: node in nodes ==> CoreNode(node, rules)
  }

  predicate PurposeAllows(purpose: Purpose, context: Context, count: int) {
    purpose == Qualification ==> context.lane in {WINDOWS_LANE, UBUNTU_LANE} && count == WINDOWS_SHARDS
  }

  predicate TimingFile(name: string, rules: Rules) {
    rules.selector(name) && "tests/" <= name && !HasSeparator(name)
  }

  predicate ValidTimings(history: History, timings: LaneTimings, rules: Rules) {
    && (history.hashed ==>
          timings.filesSha.Keys == timings.filesMs.Keys
          && forall name :: name in timings.filesSha ==> rules.sha256(timings.filesSha[name]))
    && (forall name :: name in timings.filesMs ==> TimingFile(name, rules) && timings.filesMs[name] > 0)
  }

  /** The lane's recorded timings that still apply: same profile, file still present. */
  function Timings(history: Option<History>, context: Context, files: set<string>): map<string, int> {
    if history.Some? && context.lane in history.value.lanes
       && history.value.lanes[context.lane].profile == context.profile then
      var recorded := history.value.lanes[context.lane].filesMs;
      map name | name in recorded && name in files :: recorded[name]
    else map[]
  }

  function Fresh(history: Option<History>, context: Context, timings: map<string, int>,
      hashes: map<string, string>): set<string>
  {
    if history.Some? && history.value.hashed && context.lane in history.value.lanes then
      var recorded := history.value.lanes[context.lane].filesSha;
      set name | name in timings && name in hashes && name in recorded && hashes[name] == recorded[name]
    else {}
  }

  /** The weight given to a file never timed: a 90th percentile, at least a minute. */
  function Fallback(timings: map<string, int>): int {
    var values := ValuesOf(timings);
    var ordered := SortList(values, NumberLeq);
    SortSorts(values, NumberLeq);
    var percentile := if ordered == [] then FALLBACK_MS else ordered[(|ordered| - 1) * 9 / 10];
    if percentile < FALLBACK_MS then FALLBACK_MS else percentile
  }

  /** How many files took less than v, and how many no more than v. */
  ghost function Quicker(timings: map<string, int>, v: int): nat {
    |set name | name in timings && timings[name] < v|
  }

  ghost function NoSlower(timings: map<string, int>, v: int): nat {
    |set name | name in timings && timings[name] <= v|
  }

  ghost function Where(names: seq<string>, timings: map<string, int>, f: int -> bool): set<string> {
    set name | name in names && f(Weight(timings, name))
  }

  function ValuesAt(names: seq<string>, timings: map<string, int>): seq<int> {
    seq(|names|, i requires 0 <= i < |names| => Weight(timings, names[i]))
  }

  lemma WhereFirst(names: seq<string>, timings: map<string, int>, f: int -> bool)
    requires Distinct(names) && names != []
    ensures names[0] !in Where(names[1..], timings, f) && Distinct(names[1..])
    ensures Where(names, timings, f)
         == Where(names[1..], timings, f) + if f(Weight(timings, names[0])) then {names[0]} else {}
  {
    hide Weight;
    assert names == [names[0]] + names[1..];
  }

  lemma {:induction false} CountNames(names: seq<string>, timings: map<string, int>, f: int -> bool)
    requires Distinct(names)
    ensures CountIf(ValuesAt(names, timings), f) == |Where(names, timings, f)|
  {
    hide Weight, Distinct;
    if names == [] {
      assert Where(names, timings, f) == {};
    } else {
      WhereFirst(names, timings, f);
      CountNames(names[1..], timings, f);
      assert ValuesAt(names, timings)[1..] == ValuesAt(names[1..], timings);
    }
  }

  function Below(v: int): int -> bool { x => x < v }

  function UpTo(v: int): int -> bool { x => x <= v }

  lemma CountBelow(s: seq<int>, r: nat)
    requires r < |s| && InOrder(s, NumberLeq)
    ensures CountIf(s, Below(s[r])) <= r && CountIf(s, UpTo(s[r])) > r
  {
    CountSplit(s, r, Below(s[r]));
    CountSplit(s, r + 1, UpTo(s[r]));
    assert forall x :: x in s[r..] ==> !Below(s[r])(x);
    assert forall x :: x in s[..r + 1] ==> UpTo(s[r])(x);
    CountNone(s[r..], Below(s[r]));
    CountAll(s[..r + 1], UpTo(s[r]));
  }

  function ValuesOf(timings: map<string, int>): seq<int> {
    ValuesAt(Sorted(timings.Keys), timings)
  }

  lemma AllNames(timings: map<string, int>)
    ensures var names := Sorted(timings.Keys);
            && Distinct(names) && |names| == |timings| && forall name :: name in names <==> name in timings
  {
    hide Leq;
    var names := Sorted(timings.Keys);
    assert |timings.Keys| == |timings|;
    assert forall name :: name in names <==> name in Elements(names);
  }

  lemma ValuesCount(timings: map<string, int>, v: int)
    ensures CountIf(ValuesOf(timings), Below(v)) == Quicker(timings, v)
    ensures CountIf(ValuesOf(timings), UpTo(v)) == NoSlower(timings, v)
  {
    hide CountIf, Sorted, Distinct;
    var names := Sorted(timings.Keys);
    AllNames(timings);
    CountNames(names, timings, Below(v));
    CountNames(names, timings, UpTo(v));
    assert Where(names, timings, Below(v)) == set name | name in timings && timings[name] < v;
    assert Where(names, timings, UpTo(v)) == set name | name in timings && timings[name] <= v;
  }

  lemma ValuesTimed(timings: map<string, int>)
    ensures |ValuesOf(timings)| == |timings|
    ensures forall v :: v in ValuesOf(timings) ==> exists name :: name in timings && timings[name] == v
  {
    hide Sorted, Distinct;
    var names := Sorted(timings.Keys);
    AllNames(timings);
    forall v | v in ValuesOf(timings) ensures exists name :: name in timings && timings[name] == v {
      var i :| 0 <= i < |names| && ValuesOf(timings)[i] == v;
      assert names[i] in names && names[i] in timings;
    }
  }

  /**
   The weight of a file never timed: a minute, or more when the 90th percentile of the timings is
   more.  Of n timings, at most nine tenths of n - 1 are below that one, and more are not above it.
   */
  lemma FallbackIsPercentile(timings: map<string, int>)
    ensures |timings| == 0 ==> Fallback(timings) == 60_000
    ensures |timings| > 0 ==>
              exists name :: name in timings
                && Fallback(timings) == (if timings[name] < 60_000 then 60_000 else timings[name])
                && Quicker(timings, timings[name]) <= (|timings| - 1) * 9 / 10 < NoSlower(timings, timings[name])
  {
    hide CountIf, SortList, Quicker, NoSlower, Below, UpTo, ValuesOf;
    var values := ValuesOf(timings);
    var ordered := SortList(values, NumberLeq);
    ValuesTimed(timings);
    SortSorts(values, NumberLeq);
    if |timings| > 0 {
      var r := (|ordered| - 1) * 9 / 10;
      RankCounts(values, r);
      ValuesCount(timings, ordered[r]);
      assert ordered[r] in multiset(ordered) && ordered[r] in multiset(values);
      assert ordered[r] in values;
    }
  }

  lemma RankCounts(values: seq<int>, r: nat)
    requires r < |values|
    ensures r < |SortList(values, NumberLeq)|
    ensures var v := SortList(values, NumberLeq)[r]; CountIf(values, Below(v)) <= r < CountIf(values, UpTo(v))
  {
    hide CountIf, SortList, Below, UpTo;
    var ordered := SortList(values, NumberLeq);
    SortSorts(values, NumberLeq);
    NumbersInOrder();
    CountBelow(ordered, r);
    SortCounts(values, NumberLeq, Below(ordered[r]));
    SortCounts(values, NumberLeq, UpTo(ordered[r]));
  }

  lemma NumbersInOrder()
    ensures TotalOrder(NumberLeq)
  {
  }

  function Weights(files: set<string>, timings: map<string, int>): map<string, int> {
    map name | name in files :: if name in timings then timings[name] else Fallback(timings)
  }

  predicate AscendingNames(s: seq<string>) {
    s == Sorted(Elements(s))
  }

  predicate ValidMembership(value: Plan) {
    && AscendingNames(value.usedFiles) && (forall name | name in value.usedFiles :: name in value.weights)
    && (!value.legacy ==>
          && AscendingNames(value.freshFiles) && AscendingNames(value.staleFiles)
          && (forall name | name in value.freshFiles :: name !in value.staleFiles)
          && (forall name | name in value.freshFiles :: name in value.usedFiles)
          && (forall name | name in value.staleFiles :: name in value.usedFiles)
          && (forall name | name in value.usedFiles :: name in value.freshFiles || name in value.staleFiles))
  }

  predicate ValidRecord(shard: Shard, index: nat) {
    shard.index == index && shard.estimatedMs > 0
  }

  /** Everything `validate_plan` requires. */
  ghost predicate ValidPlan(value: Plan, purpose: Purpose, rules: Rules) {
    && value.purpose == purpose
    && rules.context(value.context)
    && PurposeAllows(purpose, value.context, value.count)
    && ValidInventory(value.inventory, rules) && AscendingNames(value.inventory)
    && value.inventoryDigest == value.inventory
    && value.fallbackMs > 0
    && ValidMembership(value)
    && (forall i :: 0 <= i < |value.shards| ==> ValidRecord(value.shards[i], i))
    && Partitionable(value.inventory, value.weights, value.count)
    && value.shards == Parts(value.inventory, value.weights, value.count)
  }

  method ValidatePlan(value: Plan, purpose: Purpose, rules: Rules) returns (r: Result<Plan, Refusal>)
    ensures r.Ok? <==> ValidPlan(value, purpose, rules)
    ensures r.Ok? ==> r.value == value
  {
    hide ValidRecord, ValidMembership, ValidInventory, PurposeAllows, Parts, Partitionable, AscendingNames;
    if value.purpose != purpose { return Err(WrongPurpose); }
    if !rules.context(value.context) { return Err(InvalidContext); }
    if !PurposeAllows(purpose, value.context, value.count) {
      return Err(PurposeRefusesCount);
    }
    if !ValidInventory(value.inventory, rules) { return Err(InvalidInventory); }
    if !AscendingNames(value.inventory) || value.inventoryDigest != value.inventory {
      return Err(InventoryDiffers);
    }
    if value.fallbackMs <= 0 { return Err(InvalidFallback); }
    if !ValidMembership(value) { return Err(InvalidTimings); }
    for index := 0 to |value.shards|
      invariant forall i :: 0 <= i < index ==> ValidRecord(value.shards[i], i)
    {
      if !ValidRecord(value.shards[index], index) { return Err(InvalidRecord); }
    }
    var parts := Partition(value.inventory, value.weights, value.count);
    if parts.Err? { return Err(NotPartitionable(parts.error)); }
    if value.shards != parts.value {
      return Err(ShardsDiffer);
    }
    r := Ok(value);
  }

  predicate ValidHistory(history: Option<History>, context: Context, rules: Rules) {
    history.Some? && context.lane in history.value.lanes ==>
      ValidTimings(history.value, history.value.lanes[context.lane], rules)
  }

  /** The inputs for which `plan` returns. */
  ghost predicate Plannable(nodes: seq<string>, context: Context, count: int, history: Option<History>,
      purpose: Purpose, rules: Rules)
  {
    && rules.context(context) && PurposeAllows(purpose, context, count)
    && ValidInventory(nodes, rules)
    && ValidHistory(history, context, rules)
    && 2 <= count <= 4 && count <= |Files(nodes)|
  }

  /** What a plan records of its inputs. */
  ghost predicate PlanFor(value: Plan, nodes: seq<string>, context: Context, count: int, history: Option<History>,
      hashes: map<string, string>)
  {
    && multiset(value.inventory) == multiset(nodes)
    && value.context == context && value.count == count && value.historyDigest == history
    && var timings := Timings(history, context, Files(nodes));
       && value.weights == Weights(Files(nodes), timings) && Elements(value.usedFiles) == timings.Keys
       && value.fallbackMs == Fallback(timings)
       && Elements(value.freshFiles) == Fresh(history, context, timings, hashes)
  }

  /** The file has a timing that was recorded in this lane under this profile. */
  predicate Timed(history: Option<History>, context: Context, f: string) {
    && history.Some? && context.lane in history.value.lanes
    && history.value.lanes[context.lane].profile == context.profile && f in history.value.lanes[context.lane].filesMs
  }

  /** What a plan says of each file: a timed one has its time for a weight and is listed as used, and
      as fresh when its source still has the recorded hash; any other has the fallback. */
  lemma PlanTold(value: Plan, nodes: seq<string>, context: Context, count: int, history: Option<History>,
      hashes: map<string, string>, f: string)
    requires PlanFor(value, nodes, context, count, history, hashes) && f in Files(nodes)
    ensures f in value.weights && (f in value.usedFiles <==> Timed(history, context, f))
    ensures value.weights[f] == if Timed(history, context, f) then history.value.lanes[context.lane].filesMs[f]
                                else value.fallbackMs
    ensures f in value.freshFiles <==>
              && Timed(history, context, f) && history.value.hashed
              && var recorded := history.value.lanes[context.lane].filesSha;
                 f in hashes && f in recorded && hashes[f] == recorded[f]
  {
    hide Fallback, Files;
    assert f in value.usedFiles <==> f in Elements(value.usedFiles);
    assert f in value.freshFiles <==> f in Elements(value.freshFiles);
  }

  method MakePlan(nodes: seq<string>, context: Context, count: int, history: Option<History>, purpose: Purpose,
                  hashes: map<string, string>, rules: Rules)
    returns (r: Result<Plan, Refusal>)
    ensures r.Ok? <==> Plannable(nodes, context, count, history, purpose, rules)
    // the verifier accepts every plan the planner makes, whatever the timing history
    ensures r.Ok? ==> ValidPlan(r.value, purpose, rules)
    ensures r.Ok? ==> PlanFor(r.value, nodes, context, count, history, hashes)
  {
    if !rules.context(context) { return Err(InvalidContext); }
    if !PurposeAllows(purpose, context, count) { return Err(PurposeRefusesCount); }
    if !ValidInventory(nodes, rules) { return Err(InvalidInventory); }
    if !ValidHistory(history, context, rules) { return Err(InvalidTimings); }
    var inventory := Sorted(Elements(nodes));
    var files := Files(inventory);
    var weights := Weights(files, Timings(history, context, files));
    PlannableIsPartitionable(nodes, context, count, history, purpose, rules);
    var shards := Partition(inventory, weights, count);
    if shards.Err? { return Err(NotPartitionable(shards.error)); }
    PlanIsValid(nodes, context, count, history, purpose, hashes, rules);
    r := Ok(Assemble(inventory, context, count, history, purpose, hashes, shards.value));
  }

  /** Past the input checks, only the shard count can still refuse a plan. */
  lemma PlannableIsPartitionable(nodes: seq<string>, context: Context, count: int, history: Option<History>,
                                 purpose: Purpose, rules: Rules)
    requires rules.context(context) && PurposeAllows(purpose, context, count)
    requires ValidInventory(nodes, rules) && ValidHistory(history, context, rules)
    ensures var inventory := Sorted(Elements(nodes));
            var files := Files(inventory);
            && files == Files(nodes)
            && (Plannable(nodes, context, count, history, purpose, rules)
                <==> Partitionable(inventory, Weights(files, Timings(history, context, files)), count))
  {
    SortedInventory(nodes, Sorted(Elements(nodes)), rules);
    TimingsPositive(history, context, Files(nodes), rules);
  }

  function Assemble(inventory: seq<string>, context: Context, count: int, history: Option<History>, purpose: Purpose,
                    hashes: map<string, string>, shards: seq<Shard>): Plan
  {
    var files := Files(inventory);
    var timings := Timings(history, context, files);
    var matching := Fresh(history, context, timings, hashes);
    Plan(false, purpose, context, inventory, inventory, history,
         Sorted(timings.Keys), Sorted(matching), Sorted(timings.Keys - matching),
         Fallback(timings), Weights(files, timings), count, shards)
  }

  lemma PlanIsValid(nodes: seq<string>, context: Context, count: int, history: Option<History>, purpose: Purpose,
                    hashes: map<string, string>, rules: Rules)
    requires Plannable(nodes, context, count, history, purpose, rules)
    ensures var inventory := Sorted(Elements(nodes));
            var weights := Weights(Files(nodes), Timings(history, context, Files(nodes)));
            && Partitionable(inventory, weights, count)
            && var shards := Parts(inventory, weights, count);
               var value := Assemble(inventory, context, count, history, purpose, hashes, shards);
               ValidPlan(value, purpose, rules) && PlanFor(value, nodes, context, count, history, hashes)
  {
    hide Parts, ValidRecord, ValidMembership, ValidInventory, AscendingNames, Timings, Fresh, Weights, Fallback, Files;
    hide Sorted, Elements;
    var inventory := Sorted(Elements(nodes));
    SortedInventory(nodes, inventory, rules);
    var files := Files(inventory);
    var timings := Timings(history, context, files);
    TimingsPositive(history, context, files, rules);
    var weights := Weights(files, timings);
    RecordsValid(inventory, weights, count);
    MembershipOf(inventory, context, count, history, purpose, hashes, Parts(inventory, weights, count), rules);
  }

  lemma MembershipOf(inventory: seq<string>, context: Context, count: int, history: Option<History>, purpose: Purpose,
                     hashes: map<string, string>, shards: seq<Shard>, rules: Rules)
    requires ValidHistory(history, context, rules)
    ensures ValidMembership(Assemble(inventory, context, count, history, purpose, hashes, shards))
    ensures var value := Assemble(inventory, context, count, history, purpose, hashes, shards);
            var timings := Timings(history, context, Files(inventory));
            && Elements(value.usedFiles) == timings.Keys
            && Elements(value.freshFiles) == Fresh(history, context, timings, hashes)
  {
    hide ValidMembership, AscendingNames, Timings, Weights, Fallback, Files;
    var timings := Timings(history, context, Files(inventory));
    TimingsPositive(history, context, Files(inventory), rules);
    MembershipValid(Assemble(inventory, context, count, history, purpose, hashes, shards),
                    timings.Keys, Fresh(history, context, timings, hashes));
  }

  lemma RecordsValid(inventory: seq<string>, weights: map<string, int>, count: nat)
    requires Partitionable(inventory, weights, count)
    ensures forall i :: 0 <= i < count ==> ValidRecord(Parts(inventory, weights, count)[i], i)
  {
    forall i | 0 <= i < count ensures ValidRecord(Parts(inventory, weights, count)[i], i) {
      SchedulerFacts.NoEmptyShard(inventory, weights, count, i);
    }
  }

  lemma MembershipValid(value: Plan, timed: set<string>, matching: set<string>)
    requires value.usedFiles == Sorted(timed) && timed <= value.weights.Keys && matching <= timed
    requires value.freshFiles == Sorted(matching) && value.staleFiles == Sorted(timed - matching)
    ensures ValidMembership(value)
  {
    SortedTwice(timed);
    SortedTwice(matching);
    SortedTwice(timed - matching);
  }

  lemma SortedTwice(s: set<string>)
    ensures AscendingNames(Sorted(s))
    ensures forall x :: x in Sorted(s) <==> x in s
  {
  }

  lemma TimingsPositive(history: Option<History>, context: Context, files: set<string>, rules: Rules)
    requires history.Some? && context.lane in history.value.lanes ==>
               ValidTimings(history.value, history.value.lanes[context.lane], rules)
    ensures var timings := Timings(history, context, files);
            && timings.Keys <= files == Weights(files, timings).Keys && Fallback(timings) >= FALLBACK_MS
            && PositiveWeights(Weights(files, timings))
  {
  }

  /** Sorting a duplicate-free inventory rearranges it and keeps it valid. */
  lemma SortedInventory(nodes: seq<string>, inventory: seq<string>, rules: Rules)
    requires ValidInventory(nodes, rules) && inventory == Sorted(Elements(nodes))
    ensures ValidInventory(inventory, rules) && AscendingNames(inventory)
    ensures multiset(inventory) == multiset(nodes)
    ensures Files(inventory) == Files(nodes)
  {
    var s := Elements(nodes);
    SortedTwice(s);
    assert Elements(inventory) == s;
    DistinctMultiset(nodes);
    DistinctMultiset(inventory);
  }

  lemma {:induction false} DistinctMultiset(s: seq<string>)
    requires NoDuplicates(s)
    ensures multiset(s) == multiset(Elements(s))
  {
    var all := Elements(s);
    if s != [] {
      var init, last := s[..|s| - 1], s[|s| - 1];
      var some := Elements(init);
      assert s == init + [last];
      assert all == some + {last};
      SizeAtMost(init);
      assert last !in some;
      DistinctMultiset(init);
    } else {
      assert all == {};
    }
  }

  lemma {:induction false} SizeAtMost(s: seq<string>)
    ensures |Elements(s)| <= |s|
  {
    if s != [] {
      var init := s[..|s| - 1];
      SizeAtMost(init);
      assert Elements(s) == Elements(init) + {s[|s| - 1]};
    }
  }
}
