/**
 * The latency-breakdown sweep: for each image size in turn, Azure and then
 * OpenFaaS are asked to process a picture of that size. Each call that
 * answers 200 with a JSON object appends one entry, whose durations are the
 * object's fields where present and empty where not; the list is written
 * out as a CSV table at the end.
 */
module LatencyBreakdown {
  import opened Wrappers
  import opened Decimal
  import opened Probe
  import opened ResultSet
  import opened Sweep

  datatype Size = Size(width: nat, height: nat)

  /** The sizes the sweep visits, in order. */
  const ImageSizes: seq<Size> := [
    Size(256, 256), Size(512, 512), Size(1024, 1024), Size(1280, 1280), Size(1920, 1920),
    Size(2160, 2160), Size(2560, 2560), Size(2880, 2880), Size(3200, 3200)]

  /** Nine square sizes from 256 to 3200, each wider than the one before. */
  lemma ImageSizesShape()
    ensures |ImageSizes| == 9
    ensures ImageSizes[0] == Size(256, 256) && ImageSizes[8] == Size(3200, 3200)
    ensures forall i :: 0 <= i < |ImageSizes| ==> ImageSizes[i].width == ImageSizes[i].height
    ensures forall i, j :: 0 <= i < j < |ImageSizes| ==> ImageSizes[i].width < ImageSizes[j].width
  {
  }

  /** The Picsum address of a random picture of the given size. */
  function ImageUrl(size: Size): string {
    "https://picsum.photos/" + Show(size.width) + "/" + Show(size.height)
  }

  /** The `image_size` column: width, `x`, height. */
  function Label(size: Size): string {
    Show(size.width) + "x" + Show(size.height)
  }

  const Fieldnames: seq<string> :=
    ["platform", "image_size", "elapsed_time", "overall_duration", "network_duration", "cpu_duration", "ml_duration"]

  const DurationKeys: seq<string> := ["overall_duration", "network_duration", "cpu_duration", "ml_duration"]

  /** One result entry; a duration the handler did not report is `None`. */
  datatype Entry<V> = Entry(
    platform: Platform,
    imageSize: string,
    elapsedTime: real,
    overallDuration: Option<V>,
    networkDuration: Option<V>,
    cpuDuration: Option<V>,
    mlDuration: Option<V>)

  /** A call appends an entry: status 200 and a body that is a JSON object, whatever its keys. */
  predicate Succeeds<V>(o: Outcome<V>) {
    o.Response? && o.status == 200 && o.body.Object?
  }

  /**
   * The body of the `try` around one call: the entry it appends, or `None`
   * when the call raised, answered another status, or its body is not a
   * JSON object (`response.json()` or `data.get` raises).
   */
  function Attempt<V>(platform: Platform, size: Size, o: Outcome<V>): (r: Option<Entry<V>>)
    ensures r.Some? <==> Succeeds(o)
    ensures r.Some? ==>
      && r.value.platform == platform
      && r.value.imageSize == Label(size)
      && r.value.elapsedTime == o.elapsed
      && (r.value.overallDuration.Some? <==> "overall_duration" in o.body.fields)
      && (r.value.networkDuration.Some? <==> "network_duration" in o.body.fields)
      && (r.value.cpuDuration.Some? <==> "cpu_duration" in o.body.fields)
      && (r.value.mlDuration.Some? <==> "ml_duration" in o.body.fields)
      && (r.value.overallDuration.Some? ==> r.value.overallDuration.value == o.body.fields["overall_duration"])
      && (r.value.networkDuration.Some? ==> r.value.networkDuration.value == o.body.fields["network_duration"])
      && (r.value.cpuDuration.Some? ==> r.value.cpuDuration.value == o.body.fields["cpu_duration"])
      && (r.value.mlDuration.Some? ==> r.value.mlDuration.value == o.body.fields["ml_duration"])
  {
    match o
    case Raised => None
    case Response(status, elapsed, body) =>
      if status != 200 then None
      else
        match body
        case NotObject => None
        case Object(data) =>
          Some(Entry(platform, Label(size), elapsed, Lookup(data, "overall_duration"),
                     Lookup(data, "network_duration"), Lookup(data, "cpu_duration"), Lookup(data, "ml_duration")))
  }

  /** The calls the sweep makes: for each size, a GET to Azure, then to OpenFaaS. */
  function Trace(sizes: seq<Size>): (t: seq<Effect>)
    ensures |t| == 2 * |sizes|
  {
    if sizes == [] then []
    else
      var n := |sizes| - 1;
      Trace(sizes[..n]) + Gets(ImageUrl(sizes[n]))
  }

  /**
   * Position by position: two GETs per size, Azure first, each passing that
   * size's picture; no sleeps, and no outcome stops the sweep.
   */
  lemma {:induction false} TraceShape(sizes: seq<Size>)
    ensures var t := Trace(sizes);
      && |t| == 2 * |sizes|
      && forall k :: 0 <= k < |t| ==> t[k] == Get(Targets[k % 2].1, ImageUrl(sizes[k / 2]))
    decreases |sizes|
  {
    if sizes != [] {
      var n := |sizes| - 1;
      TraceShape(sizes[..n]);
      var t, t0 := Trace(sizes), Trace(sizes[..n]);
      assert t == t0 + Gets(ImageUrl(sizes[n]));
      forall k | 0 <= k < |t| ensures t[k] == Get(Targets[k % 2].1, ImageUrl(sizes[k / 2])) {
        if k < |t0| {
          assert sizes[..n][k / 2] == sizes[k / 2];
        } else {
          assert k / 2 == n;
        }
      }
    }
  }

  /** One more pass of the outer loop adds that size's two GETs. */
  lemma TraceStep(sizes: seq<Size>, size: Size)
    ensures Trace(sizes + [size]) == Trace(sizes) + Gets(ImageUrl(size))
  {
  }

  /** One pass of the outer loop: the sizes before `sizes[i]` are done, `sizes[i]` is next. */
  method SizeRound<V>(sizes: seq<Size>, outcomes: seq<Outcome<V>>, i: nat, results0: seq<Entry<V>>, trace0: seq<Effect>)
      returns (results: seq<Entry<V>>, trace: seq<Effect>)
    requires |outcomes| == 2 * |sizes| && i < |sizes|
    requires results0 == Kept(Attempts(Attempt, sizes[..i], outcomes[..2 * i]))
    requires trace0 == Trace(sizes[..i])
    ensures results == Kept(Attempts(Attempt, sizes[..i + 1], outcomes[..2 * i + 2]))
    ensures trace == Trace(sizes[..i + 1])
  {
    var gets;
    results, gets := CallTargets(Attempt, sizes[i], ImageUrl(sizes[i]), outcomes[2 * i..2 * i + 2], results0);
    KeptThroughRound(Attempt, sizes[..i], outcomes[..2 * i], sizes[i], outcomes[2 * i..2 * i + 2]);
    TraceStep(sizes[..i], sizes[i]);
    assert sizes[..i] + [sizes[i]] == sizes[..i + 1];
    assert outcomes[..2 * i] + outcomes[2 * i..2 * i + 2] == outcomes[..2 * i + 2];
    trace := trace0 + gets;
  }

  /**
   * The whole sweep over `sizes` (the script runs it over `ImageSizes`):
   * the calls it makes, the entries it collects and the table it writes.
   */
  method MeasureLatencyBreakdown<V>(sizes: seq<Size>, outcomes: seq<Outcome<V>>)
      returns (results: seq<Entry<V>>, trace: seq<Effect>, table: Table<V>)
    requires |outcomes| == 2 * |sizes|
    ensures trace == Trace(sizes)
    ensures results == Kept(Attempts(Attempt, sizes, outcomes))
    ensures table == WriteTable(Fieldnames, RowOf, results)
  {
    results, trace := [], [];
    for i := 0 to |sizes|
      invariant results == Kept(Attempts(Attempt, sizes[..i], outcomes[..2 * i]))
      invariant trace == Trace(sizes[..i])
    {
      results, trace := SizeRound(sizes, outcomes, i, results, trace);
    }
    assert sizes[..|sizes|] == sizes;
    assert outcomes[..2 * |sizes|] == outcomes;
    table := WriteTable(Fieldnames, RowOf, results);
  }

  /**
   * Over the script's nine sizes the sweep makes 18 calls: at most 18
   * entries, 18 exactly when every call succeeds, and none, leaving a table
   * with the header only, exactly when every call fails.
   */
  lemma DefaultResultCount<V>(outcomes: seq<Outcome<V>>)
    requires |outcomes| == 18
    ensures |outcomes| == 2 * |ImageSizes|
    ensures var results := Kept(Attempts(Attempt, ImageSizes, outcomes));
      && |results| <= 18
      && (|results| == 18 <==> forall k :: 0 <= k < 18 ==> Succeeds(outcomes[k]))
      && (results == [] <==> forall k :: 0 <= k < 18 ==> !Succeeds(outcomes[k]))
      && (results == [] ==> WriteTable(Fieldnames, RowOf, results).rows == [])
  {
    Sweep.ResultCount(Attempt, Succeeds, ImageSizes, outcomes);
  }

  /**
   * Entry `j` of the list came from call `KeptIndices(..)[j]`: the label of
   * that call's size and the platform of its target.
   */
  lemma EntryOrigin<V>(sizes: seq<Size>, outcomes: seq<Outcome<V>>, j: nat)
    requires |outcomes| == 2 * |sizes| && j < |Kept(Attempts(Attempt, sizes, outcomes))|
    ensures var k := KeptIndices(Attempts(Attempt, sizes, outcomes))[j];
      var e := Kept(Attempts(Attempt, sizes, outcomes))[j];
      && k < |outcomes|
      && e.imageSize == Label(sizes[k / 2])
      && e.platform == Targets[k % 2].0
  {
    Sweep.EntryOrigin(Attempt, sizes, outcomes, j);
  }

  /** A 200 answer whose object lacks every duration key still yields an entry, with all four empty. */
  lemma MissingDurationsAreEmpty<V>(platform: Platform, size: Size, elapsed: real, data: map<string, V>)
    requires forall key :: key in DurationKeys ==> key !in data
    ensures Attempt(platform, size, Response(200, elapsed, Object(data)))
         == Some(Entry(platform, Label(size), elapsed, None, None, None, None))
  {
    assert DurationKeys[0] !in data && DurationKeys[1] !in data;
    assert DurationKeys[2] !in data && DurationKeys[3] !in data;
  }

  /** A duration is written as its JSON value, or as an empty cell when it is `None`. */
  function DurationCell<V>(d: Option<V>): (c: Cell<V>)
    ensures c.Blank? <==> d.None?
  {
    match d
    case None => Blank
    case Some(v) => Json(v)
  }

  function DurationOfCell<V>(c: Cell<V>): (r: Option<Option<V>>)
    ensures r.Some? ==> DurationCell(r.value) == c
  {
    match c
    case Blank => Some(None)
    case Json(v) => Some(Some(v))
    case _ => None
  }

  /** One data row: a cell per column of `Fieldnames`, the `image_size` label as text. */
  function RowOf<V>(e: Entry<V>): (row: seq<Cell<V>>)
    ensures |row| == |Fieldnames|
  {
    [Text(Name(e.platform)), Text(e.imageSize), Real(e.elapsedTime), DurationCell(e.overallDuration),
     DurationCell(e.networkDuration), DurationCell(e.cpuDuration), DurationCell(e.mlDuration)]
  }

  /** Reads one data row back into the entry it was written from. */
  function ParseRow<V>(row: seq<Cell<V>>): (r: Option<Entry<V>>)
    ensures r.Some? ==> RowOf(r.value) == row
  {
    if && |row| == 7
       && row[0].Text? && PlatformNamed(row[0].text).Some?
       && row[1].Text?
       && row[2].Real?
       && DurationOfCell(row[3]).Some? && DurationOfCell(row[4]).Some?
       && DurationOfCell(row[5]).Some? && DurationOfCell(row[6]).Some?
    then
      Some(Entry(PlatformNamed(row[0].text).value, row[1].text, row[2].x,
                 DurationOfCell(row[3]).value, DurationOfCell(row[4]).value,
                 DurationOfCell(row[5]).value, DurationOfCell(row[6]).value))
    else None
  }

  /** Writing an entry as a row and reading the row back gives the entry. */
  lemma RowRoundTrip<V>(e: Entry<V>)
    ensures ParseRow(RowOf(e)) == Some(e)
  {
  }

  /** The written file holds exactly the result list, empty durations included, in order. */
  // This script's instance of `ResultSet.TableRoundTrip`, for its own fieldnames and row layout.
  lemma TableRoundTrip<V>(results: seq<Entry<V>>)
    ensures ReadTable(Fieldnames, ParseRow, WriteTable(Fieldnames, RowOf, results)) == Some(results)
  {
    forall e: Entry<V> ensures ParseRow(RowOf(e)) == Some(e) {
      RowRoundTrip(e);
    }
    ResultSet.TableRoundTrip(Fieldnames, RowOf, ParseRow, results);
  }
}
