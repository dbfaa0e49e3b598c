/**
 Model of the mock task generator of a map-dispatch demo: `generateMockData(count)`
 builds `count` synthetic delivery tasks around a fixed centre (Wuhan), each with
 labels drawn from four fixed vocabularies, a start point near the centre and an
 end point near the start.

 The two outside dependencies are injected:
 - `Math.random` is a `RandomSource`: the k-th call made during one generation
   (counting from 0) returns `random(k)`, a real in [0, 1);
 - `Number.prototype.toFixed` is a `Formatter`: `toFixed(x, digits)` is the
   decimal rendering of `x`, which the model does not interpret.
 Coordinates are exact reals, not IEEE-754 doubles.
 */
module MockData {

  /** One value returned by `Math.random`. */
  type Draw = r: real | 0.0 <= r < 1.0

  /** The random source: the k-th call to `Math.random` returns `random(k)`. */
  type RandomSource = nat -> Draw

  /** `x.toFixed(digits)`, left uninterpreted. */
  type Formatter = (real, nat) -> string

  /** The value of `count` when the caller omits it. */
  const DefaultCount: int := 20

  /** Wuhan, the centre around which start points are scattered. */
  const CenterLng: real := 114.305393
  const CenterLat: real := 30.593099

  /** Each iteration calls `Math.random` exactly this many times. */
  const DrawsPerTask: nat := 9

  const Provinces: seq<string> := ["湖北省", "广西壮族自治区", "安徽省", "江苏省"]
  const Cities: seq<string> := ["黄冈市", "河池市", "淮南市", "泰州市", "泉州市"]
  const Districts: seq<string> := ["蕲春县", "罗田县", "武穴市", "黄梅县", "红安县", "宜州区", "南丹县"]
  const Titles: seq<string> := ["[营销]10元快剪(商业大楼店)", "[营销]白玉兰酒店", "[营销]畅游钢铁", "[营销]非凡摄影", "[营销]古茗(红安店)", "[营销]100%感觉"]

  /** The placeholder street appended to the address. */
  const StreetSuffix: string := " xxx路xxx号"
  /** Suffixes that turn the district into the start and end point names. */
  const StartMarker: string := " (起点)"
  const EndMarker: string := " (终点)"

  /** The `type` field of a point: 'start' or 'end'. */
  datatype PointType = Start | End

  /** A `[longitude, latitude]` pair. */
  datatype Position = Position(lng: real, lat: real)

  datatype Point = Point(position: Position, name: string, kind: PointType)

  /** One generated task record, field for field as pushed onto `tasks`. */
  datatype Task = Task(
    id: int,
    name: string,
    province: string,
    city: string,
    district: string,
    address: string,
    fullAddress: string,
    start: Point,
    end: Point,
    distance: string,
    coordsStr: string
  )

  // ---------------------------------------------------------------------------
  // getRandom: arr[Math.floor(Math.random() * arr.length)]
  // ---------------------------------------------------------------------------

  /** The index `Math.floor(r * len)` that `getRandom` reads. */
  function RandomIndex(len: nat, r: Draw): (i: int)
    ensures len > 0 ==> 0 <= i < len
    ensures len == 0 ==> i == 0
  {
    var x := r * len as real;
    assert x < len as real || len == 0 by {
      if len > 0 { assert r * len as real < 1.0 * len as real; }
    }
    x.Floor
  }

  /** The element of `arr` that `getRandom(arr)` returns for the draw `r`. */
  function GetRandom<T>(arr: seq<T>, r: Draw): (x: T)
    requires |arr| > 0
    ensures x in arr
  {
    arr[RandomIndex(|arr|, r)]
  }

  /**
   Index `k` is chosen exactly when the draw lies in [k/len, (k+1)/len): the
   draws are split into `len` intervals of equal width, one per element.
   */
  lemma RandomIndexInterval(len: nat, r: Draw, k: int)
    requires len > 0
    ensures RandomIndex(len, r) == k <==> k as real / len as real <= r < (k + 1) as real / len as real
  {
  }

  /** Dividing by a positive number keeps the order: a <= b <==> a / n <= b / n. */
  lemma DivideMonotone(a: real, b: real, n: real)
    requires n > 0.0
    ensures a <= b <==> a / n <= b / n
  {
    assert a == (a / n) * n && b == (b / n) * n;
    if a / n <= b / n {
      assert (a / n) * n <= (b / n) * n;
    }
  }

  /** Every element of a non-empty array can come out of `getRandom`. */
  lemma GetRandomReachesEvery<T>(arr: seq<T>, k: nat)
    requires k < |arr|
    ensures exists r: Draw :: GetRandom(arr, r) == arr[k]
  {
    var n := |arr| as real;
    var r := k as real / n;
    assert 0.0 <= r < 1.0 by {
      DivideMonotone(k as real, n, n);
      DivideMonotone(0.0, k as real, n);
    }
    RandomIndexInterval(|arr|, r, k);
    assert GetRandom(arr, r) == arr[k];
  }

  // ---------------------------------------------------------------------------
  // The arithmetic on draws (lines 14-15, 22-23, 26)
  // ---------------------------------------------------------------------------

  /** `(Math.random() - 0.5) * 2`: the offset of the start point from the centre. */
  function StartOffset(r: Draw): (o: real)
    ensures -1.0 <= o < 1.0
  {
    (r - 0.5) * 2.0
  }

  /** `(Math.random() - 0.5) * 0.1`: the offset of the end point from the start. */
  function EndOffset(r: Draw): (o: real)
    ensures -0.05 <= o < 0.05
  {
    (r - 0.5) * 0.1
  }

  /** `Math.random() * 50`: the distance value before it is formatted. */
  function DistanceValue(r: Draw): (v: real)
    ensures 0.0 <= v < 50.0
  {
    r * 50.0
  }

  /** Every offset in [-1, 1) is produced by some draw: the bounds are exact. */
  lemma StartOffsetOnto(o: real)
    requires -1.0 <= o < 1.0
    ensures exists r: Draw :: StartOffset(r) == o
  {
    var r: Draw := o / 2.0 + 0.5;
    assert StartOffset(r) == o;
  }

  /** Every offset in [-0.05, 0.05) is produced by some draw: the bounds are exact. */
  lemma EndOffsetOnto(o: real)
    requires -0.05 <= o < 0.05
    ensures exists r: Draw :: EndOffset(r) == o
  {
    var r: Draw := o * 10.0 + 0.5;
    assert EndOffset(r) == o;
  }

  /** Every distance value in [0, 50) is produced by some draw. */
  lemma DistanceValueOnto(v: real)
    requires 0.0 <= v < 50.0
    ensures exists r: Draw :: DistanceValue(r) == v
  {
    var r: Draw := v / 50.0;
    assert DistanceValue(r) == v;
  }

  // ---------------------------------------------------------------------------
  // One record (the body of the loop, lines 13-53)
  // ---------------------------------------------------------------------------

  /**
   The consistency every generated record has: labels from their vocabularies,
   address strings and point names built from those labels, the start point
   within [-1, 1) of the centre and the end point within [-0.05, 0.05) of the
   start on each axis, a distance rendered from a value in [0, 50), and the
   start coordinates rendered as "lat, lng".
   */
  ghost predicate WellFormed(t: Task, toFixed: Formatter)
  {
    && t.province in Provinces
    && t.city in Cities
    && t.district in Districts
    && t.name in Titles
    && t.address == t.province + " " + t.city + " " + t.district
    && t.fullAddress == t.address + StreetSuffix
    && t.start.name == t.district + StartMarker
    && t.start.kind == Start
    && t.end.name == t.district + EndMarker
    && t.end.kind == End
    && -1.0 <= t.start.position.lng - CenterLng < 1.0
    && -1.0 <= t.start.position.lat - CenterLat < 1.0
    && -0.05 <= t.end.position.lng - t.start.position.lng < 0.05
    && -0.05 <= t.end.position.lat - t.start.position.lat < 0.05
    && (exists v: real :: 0.0 <= v < 50.0 && t.distance == toFixed(v, 2))
    && t.coordsStr == toFixed(t.start.position.lat, 6) + ", " + toFixed(t.start.position.lng, 6)
  }

  /** The nine values one iteration takes from `Math.random`, in call order. */
  datatype IterationDraws = IterationDraws(
    lngOffset: Draw,
    latOffset: Draw,
    endLng: Draw,
    endLat: Draw,
    distance: Draw,
    province: Draw,
    city: Draw,
    district: Draw,
    title: Draw
  )

  /** The nine consecutive draws that start with call number `first`. */
  function DrawsFrom(random: RandomSource, first: nat): (d: IterationDraws)
  {
    IterationDraws(
      random(first), random(first + 1), random(first + 2), random(first + 3), random(first + 4),
      random(first + 5), random(first + 6), random(first + 7), random(first + 8))
  }

  /** The record built from its draws: the object literal pushed at line 33. */
  function BuildTask(id: int, u: IterationDraws, toFixed: Formatter): (t: Task)
  {
    var startLng := CenterLng + StartOffset(u.lngOffset);
    var startLat := CenterLat + StartOffset(u.latOffset);
    var endLng := startLng + EndOffset(u.endLng);
    var endLat := startLat + EndOffset(u.endLat);
    var dist := toFixed(DistanceValue(u.distance), 2);
    var p := GetRandom(Provinces, u.province);
    var c := GetRandom(Cities, u.city);
    var d := GetRandom(Districts, u.district);
    var name := GetRandom(Titles, u.title);
    Task(
      id,
      name,
      p,
      c,
      d,
      p + " " + c + " " + d,
      p + " " + c + " " + d + StreetSuffix,
      Point(Position(startLng, startLat), d + StartMarker, Start),
      Point(Position(endLng, endLat), d + EndMarker, End),
      dist,
      toFixed(startLat, 6) + ", " + toFixed(startLng, 6)
    )
  }

  /** The record pushed by iteration `i` (0-based). */
  function MakeTask(i: nat, random: RandomSource, toFixed: Formatter): (t: Task)
    ensures t.id == i + 1
  {
    BuildTask(i + 1, DrawsFrom(random, DrawsPerTask * i), toFixed)
  }

  /** Whatever the draws, the record built from them is well formed. */
  lemma BuildTaskWellFormed(id: int, u: IterationDraws, toFixed: Formatter)
    ensures WellFormed(BuildTask(id, u, toFixed), toFixed)
  {
  }

  /** `fullAddress` extends `address`, and both point names begin with the district. */
  lemma WellFormedPrefixes(t: Task, toFixed: Formatter)
    requires WellFormed(t, toFixed)
    ensures t.address <= t.fullAddress
    ensures t.district <= t.start.name && t.district <= t.end.name
    ensures t.start.name != t.end.name
  {
    assert t.start.name[|t.district| + 2] != t.end.name[|t.district| + 2];
  }

  /** Record `i` depends on the draws 9i .. 9i + 8 and on no other draw. */
  lemma {:induction false} TaskDependsOnlyOnItsDraws(i: nat, r1: RandomSource, r2: RandomSource, toFixed: Formatter)
    requires forall j: nat :: DrawsPerTask * i <= j < DrawsPerTask * (i + 1) ==> r1(j) == r2(j)
    ensures MakeTask(i, r1, toFixed) == MakeTask(i, r2, toFixed)
  {
    assert DrawsFrom(r1, DrawsPerTask * i) == DrawsFrom(r2, DrawsPerTask * i);
  }

  // ---------------------------------------------------------------------------
  // The whole batch (the loop, lines 12-54)
  // ---------------------------------------------------------------------------

  /** `tasks` after `n` iterations: each iteration appends one record. */
  function MockTasks(random: RandomSource, toFixed: Formatter, n: nat): (ts: seq<Task>)
    ensures |ts| == n
  {
    if n == 0 then [] else MockTasks(random, toFixed, n - 1) + [MakeTask(n - 1, random, toFixed)]
  }

  /** Record k of the batch is the one iteration k builds. */
  lemma {:induction false} MockTasksAt(random: RandomSource, toFixed: Formatter, n: nat, k: nat)
    requires k < n
    ensures MockTasks(random, toFixed, n)[k] == MakeTask(k, random, toFixed)
  {
    var prev := MockTasks(random, toFixed, n - 1);
    assert MockTasks(random, toFixed, n) == prev + [MakeTask(n - 1, random, toFixed)];
    if k < n - 1 {
      MockTasksAt(random, toFixed, n - 1, k);
      assert MockTasks(random, toFixed, n)[k] == prev[k];
    }
  }

  /** Later iterations only append: the first m records are never changed. */
  lemma {:induction false} MockTasksPrefix(random: RandomSource, toFixed: Formatter, m: nat, n: nat)
    requires m <= n
    ensures MockTasks(random, toFixed, m) == MockTasks(random, toFixed, n)[..m]
  {
    if m < n {
      MockTasksPrefix(random, toFixed, m, n - 1);
      assert MockTasks(random, toFixed, n)[..n - 1] == MockTasks(random, toFixed, n - 1);
    }
  }

  /** The ids are 1 .. n in push order. */
  lemma MockTasksIds(random: RandomSource, toFixed: Formatter, n: nat)
    ensures forall k :: 0 <= k < n ==> MockTasks(random, toFixed, n)[k].id == k + 1
  {
    forall k | 0 <= k < n
      ensures MockTasks(random, toFixed, n)[k].id == k + 1
    {
      MockTasksAt(random, toFixed, n, k);
    }
  }

  /** Every record of the batch is well formed. */
  lemma MockTasksWellFormed(random: RandomSource, toFixed: Formatter, n: nat)
    ensures forall k :: 0 <= k < n ==> WellFormed(MockTasks(random, toFixed, n)[k], toFixed)
  {
    forall k | 0 <= k < n
      ensures WellFormed(MockTasks(random, toFixed, n)[k], toFixed)
    {
      MockTasksAt(random, toFixed, n, k);
      BuildTaskWellFormed(k + 1, DrawsFrom(random, DrawsPerTask * k), toFixed);
    }
  }

  /** The first n records use only the first 9n draws. */
  lemma {:induction false} MockTasksDependOnlyOnFirstDraws(r1: RandomSource, r2: RandomSource, toFixed: Formatter, n: nat)
    requires forall j: nat :: j < DrawsPerTask * n ==> r1(j) == r2(j)
    ensures MockTasks(r1, toFixed, n) == MockTasks(r2, toFixed, n)
  {
    if n > 0 {
      MockTasksDependOnlyOnFirstDraws(r1, r2, toFixed, n - 1);
      TaskDependsOnlyOnItsDraws(n - 1, r1, r2, toFixed);
      assert MockTasks(r1, toFixed, n) == MockTasks(r1, toFixed, n - 1) + [MakeTask(n - 1, r1, toFixed)];
      assert MockTasks(r2, toFixed, n) == MockTasks(r2, toFixed, n - 1) + [MakeTask(n - 1, r2, toFixed)];
    }
  }

  // ---------------------------------------------------------------------------
  // generateMockData
  // ---------------------------------------------------------------------------

  /**
   One iteration of the loop body (lines 13-53): the nine calls to `Math.random`,
   made in source order starting with call number `calls`, and the record they
   shape. Returns the record and the number of calls made so far.
   */
  method NextTask(random: RandomSource, toFixed: Formatter, i: nat, calls: int)
    returns (task: Task, calls': int)
    requires calls == DrawsPerTask * i
    ensures task == MakeTask(i, random, toFixed)
    ensures calls' == DrawsPerTask * (i + 1)
  {
    calls' := calls;
    var lngDraw := random(calls');  // line 14
    calls' := calls' + 1;
    var latDraw := random(calls');  // line 15
    calls' := calls' + 1;
    var endLngDraw := random(calls');  // line 22
    calls' := calls' + 1;
    var endLatDraw := random(calls');  // line 23
    calls' := calls' + 1;
    var distanceDraw := random(calls');  // line 26
    calls' := calls' + 1;
    var provinceDraw := random(calls');  // line 28
    calls' := calls' + 1;
    var cityDraw := random(calls');  // line 29
    calls' := calls' + 1;
    var districtDraw := random(calls');  // line 30
    calls' := calls' + 1;
    var titleDraw := random(calls');  // line 31
    calls' := calls' + 1;
    var draws := IterationDraws(
      lngDraw, latDraw, endLngDraw, endLatDraw, distanceDraw,
      provinceDraw, cityDraw, districtDraw, titleDraw);
    assert draws == DrawsFrom(random, calls);
    task := BuildTask(i + 1, draws, toFixed);
  }

  /**
   `generateMockData(count)`: runs `for (i = 0; i < count; i++)`, each iteration
   pushing one record onto `tasks`. A `count` of zero or less runs no iteration.
   */
  method GenerateMockData(random: RandomSource, toFixed: Formatter, count: int := DefaultCount)
    returns (tasks: seq<Task>)
    ensures count >= 0 ==> |tasks| == count
    ensures count <= 0 ==> tasks == []
    ensures tasks == MockTasks(random, toFixed, if count > 0 then count else 0)
    ensures forall k :: 0 <= k < |tasks| ==> tasks[k].id == k + 1
  {
    tasks := [];
    var calls := 0;  // how many times Math.random has been called
    var i := 0;
    while i < count
      invariant 0 <= i <= if count > 0 then count else 0
      invariant calls == DrawsPerTask * i
      invariant tasks == MockTasks(random, toFixed, i)
    {
      var task;
      task, calls := NextTask(random, toFixed, i, calls);
      tasks := tasks + [task];
      i := i + 1;
    }
    MockTasksIds(random, toFixed, i);
  }

  /** `generateMockData()` with `count` omitted produces 20 records. */
  method GenerateWithDefaultCount(random: RandomSource, toFixed: Formatter) returns (tasks: seq<Task>)
    ensures |tasks| == 20
    ensures forall k :: 0 <= k < |tasks| ==> tasks[k].id == k + 1 && WellFormed(tasks[k], toFixed)
  {
    tasks := GenerateMockData(random, toFixed);
    MockTasksWellFormed(random, toFixed, 20);
  }
}
