/**
 * The Xively "datastreams" document: the field table that selects what is
 * uploaded, the payload it becomes, and a reference definition of the payload
 * built from one weather record, with the properties the upload relies on.
 *
 * Weather values are never computed with, so their type is a parameter `V`.
 * The JSON text of the document is not modelled: the structure stops where
 * `json.dumps` would begin.
 */
module Datastreams {
  import opened Outcomes

  /**
   * The recognised fields, each with the format string the table pairs it
   * with. The format strings are carried along but never applied: the payload
   * holds each raw value as the record has it. `inTemp` and `inHumidity` are
   * commented out of the table and are therefore absent here.
   */
  const Formats: map<string, string> := map[
    "barometer"   := "barometer %.3f",
    "outTemp"     := "temperature_out %.1f",
    "outHumidity" := "humidity_out %03.0f",
    "windSpeed"   := "windSpeed %.2f",
    "windDir"     := "windDir %03.0f",
    "windGust"    := "windGust %.2f",
    "dewpoint"    := "dewpoint %.1f",
    "rain24"      := "rain24 %.2f",
    "hourRain"    := "hourRain %.2f",
    "dayRain"     := "dayRain %.2f",
    "radiation"   := "radiation %.2f",
    "UV"          := "UV %.2f"
  ]

  const Version: string := "1.0.0"

  /** A weather record: field name to value, where a value may be `None`. */
  type Record<V> = map<string, Option<V>>

  /** One observation in a stream: when (`at`) and what (`value`). */
  datatype Datapoint<V> = Datapoint(at: string, value: V)

  /** A named time series. */
  datatype Stream<V> = Stream(id: string, datapoints: seq<Datapoint<V>>)

  /**
   * The uploaded document. The `datastreams` list is filled from a dict's key
   * order, which is unspecified, so it is kept as a multiset: the list up to
   * reordering.
   */
  datatype Payload<V(==)> = Payload(version: string, datastreams: multiset<Stream<V>>)

  /** `record[k]` on a record lacking the key `k`. */
  datatype KeyError = KeyError(key: string)

  /** The stream id of field `field`: bare, or prefixed by the quoted station name and `_`. */
  function StreamId(prefix: Option<string>, field: string): (id: string)
    ensures prefix.None? ==> id == field
    ensures |id| == (if prefix.Some? then |prefix.value| + 1 else 0) + |field|
  {
    match prefix
    case None => field
    case Some(p) => p + "_" + field
  }

  /** The prefix in force: the station name passed through `quote`, when a station is configured. */
  function StationPrefix(station: Option<string>, quote: string -> string): (prefix: Option<string>)
    ensures prefix.Some? <==> station.Some?
    ensures station.Some? ==> prefix == Some(quote(station.value))
  {
    match station
    case None => None
    case Some(s) => Some(quote(s))
  }

  /** A field's stream id is the quoted station name, `_` and the field, or the bare field without a station. */
  lemma StationStreamId(station: Option<string>, quote: string -> string, field: string)
    ensures StreamId(StationPrefix(station, quote), field) ==
      if station.Some? then quote(station.value) + "_" + field else field
  {
  }

  /** A prefixed stream id splits back into the prefix, `_` and the field. */
  lemma StreamIdParts(prefix: Option<string>, field: string)
    requires prefix.Some?
    ensures var id := StreamId(prefix, field);
      id[..|prefix.value|] == prefix.value && id[|prefix.value|] == '_' && id[|prefix.value| + 1..] == field
  {
  }

  /** Distinct fields get distinct stream ids, whatever the prefix. */
  lemma StreamIdInjective(prefix: Option<string>, f: string, g: string)
    ensures StreamId(prefix, f) == StreamId(prefix, g) ==> f == g
  {
    if prefix.Some? && StreamId(prefix, f) == StreamId(prefix, g) {
      StreamIdParts(prefix, f);
      StreamIdParts(prefix, g);
    }
  }

  /** The recognised fields that the record holds with a value other than `None`. */
  function Present<V>(record: Record<V>): (fields: set<string>)
    ensures fields <= Formats.Keys
  {
    set k | k in Formats && k in record && record[k].Some?
  }

  /** The one-datapoint stream the upload makes for a present field. */
  function StreamOf<V>(record: Record<V>, prefix: Option<string>, at: string, k: string): Stream<V>
    requires k in record && record[k].Some?
  {
    Stream(StreamId(prefix, k), [Datapoint(at, record[k].value)])
  }

  /** The streams of the present fields, before they are gathered into a document. */
  function StreamSet<V(==)>(record: Record<V>, prefix: Option<string>, at: string): set<Stream<V>>
  {
    set k | k in Present(record) :: StreamOf(record, prefix, at, k)
  }

  /**
   * Reference definition of the upload document for one record: one stream
   * per present recognised field, or no document at all when no field is
   * present.
   */
  function PayloadOf<V(==)>(record: Record<V>, prefix: Option<string>, at: string): (r: Option<Payload<V>>)
    ensures r.None? <==> forall k :: k in Formats && k in record ==> record[k].None?
    ensures r.Some? ==> r.value.version == "1.0.0"
  {
    var fields := Present(record);
    assert forall k :: k in Formats && k in record && record[k].Some? ==> k in fields;
    if fields == {} then None
    else
      Some(Payload(Version, multiset(StreamSet(record, prefix, at))))
  }

  /** The ids of the streams in a payload. */
  function Ids<V(==)>(p: Payload<V>): set<string>
  {
    set s | s in p.datastreams :: s.id
  }

  /**
   * Every stream in the document belongs to a present recognised field, is
   * named by that field's id, and holds exactly one datapoint: the record's
   * raw value for the field, stamped with the shared time string.
   */
  lemma StreamContent<V>(record: Record<V>, prefix: Option<string>, at: string, s: Stream<V>, k: string)
    requires PayloadOf(record, prefix, at).Some?
    requires s in PayloadOf(record, prefix, at).value.datastreams
    requires k in Formats && s.id == StreamId(prefix, k)
    ensures k in record && record[k].Some?
    ensures s.datapoints == [Datapoint(at, record[k].value)]
  {
    var j :| j in Present(record) && s == StreamOf(record, prefix, at, j);
    StreamIdInjective(prefix, j, k);
  }

  /**
   * The stream ids are exactly the ids of the present recognised fields; a
   * field outside the table never names a stream.
   */
  lemma StreamIds<V>(record: Record<V>, prefix: Option<string>, at: string)
    requires PayloadOf(record, prefix, at).Some?
    ensures Ids(PayloadOf(record, prefix, at).value) == set k | k in Present(record) :: StreamId(prefix, k)
    ensures forall k :: k !in Formats ==> StreamId(prefix, k) !in Ids(PayloadOf(record, prefix, at).value)
  {
    var p := PayloadOf(record, prefix, at).value;
    var wanted := set k | k in Present(record) :: StreamId(prefix, k);
    forall id | id in Ids(p) ensures id in wanted {
      var s :| s in p.datastreams && s.id == id;
      var j :| j in Present(record) && s == StreamOf(record, prefix, at, j);
    }
    forall id | id in wanted ensures id in Ids(p) {
      var j :| j in Present(record) && id == StreamId(prefix, j);
      assert StreamOf(record, prefix, at, j) in p.datastreams;
    }
    forall k | k !in Formats ensures StreamId(prefix, k) !in Ids(p) {
      if StreamId(prefix, k) in Ids(p) {
        var j :| j in Present(record) && StreamId(prefix, j) == StreamId(prefix, k);
        StreamIdInjective(prefix, j, k);
      }
    }
  }

  /** No two streams of a record share an id. */
  lemma StreamSetIdsDistinct<V>(record: Record<V>, prefix: Option<string>, at: string)
    ensures forall s, t :: s in StreamSet(record, prefix, at) && t in StreamSet(record, prefix, at) && s.id == t.id ==> s == t
  {
    var streams := StreamSet(record, prefix, at);
    forall s, t | s in streams && t in streams && s.id == t.id ensures s == t {
      var i :| i in Present(record) && s == StreamOf(record, prefix, at, i);
      var j :| j in Present(record) && t == StreamOf(record, prefix, at, j);
      StreamIdInjective(prefix, i, j);
    }
  }

  /** Any set of present fields yields as many streams as it has fields. */
  lemma {:induction false} StreamCount<V>(record: Record<V>, prefix: Option<string>, at: string, fields: set<string>)
    requires fields <= Present(record)
    ensures |set k | k in fields :: StreamOf(record, prefix, at, k)| == |fields|
    decreases |fields|
  {
    if fields != {} {
      var x :| x in fields;
      var rest := fields - {x};
      StreamCount(record, prefix, at, rest);
      var restStreams := set k | k in rest :: StreamOf(record, prefix, at, k);
      assert x !in rest;
      if StreamOf(record, prefix, at, x) in restStreams {
        var j :| j in rest && StreamOf(record, prefix, at, j) == StreamOf(record, prefix, at, x);
        StreamIdInjective(prefix, j, x);
        assert false;
      }
      assert (set k | k in fields :: StreamOf(record, prefix, at, k)) == restStreams + {StreamOf(record, prefix, at, x)};
    }
  }

  /**
   * Each stream occurs exactly once, no two streams share an id, and there are
   * as many streams as present recognised fields.
   */
  lemma StreamsOnce<V>(record: Record<V>, prefix: Option<string>, at: string)
    requires PayloadOf(record, prefix, at).Some?
    ensures var ds := PayloadOf(record, prefix, at).value.datastreams;
      && (forall s :: s in ds ==> ds[s] == 1)
      && (forall s, t :: s in ds && t in ds && s.id == t.id ==> s == t)
      && |ds| == |Present(record)|
  {
    var streams := StreamSet(record, prefix, at);
    assert PayloadOf(record, prefix, at).value.datastreams == multiset(streams);
    StreamSetIdsDistinct(record, prefix, at);
    StreamCount(record, prefix, at, Present(record));
  }

  /** The indoor readings are commented out of the table, so no record ever uploads them. */
  lemma IndoorFieldsNeverUploaded<V>(record: Record<V>, prefix: Option<string>, at: string)
    requires PayloadOf(record, prefix, at).Some?
    ensures StreamId(prefix, "inTemp") !in Ids(PayloadOf(record, prefix, at).value)
    ensures StreamId(prefix, "inHumidity") !in Ids(PayloadOf(record, prefix, at).value)
  {
    StreamIds(record, prefix, at);
  }

  /**
   * The dict of streams that the upload builds from the fields in `done`,
   * keyed by stream id.
   */
  ghost function StreamMap<V>(record: Record<V>, prefix: Option<string>, at: string, done: set<string>): (m: map<string, Stream<V>>)
    ensures forall id :: id in m ==> m[id].id == id
  {
    forall f, g ensures StreamId(prefix, f) == StreamId(prefix, g) ==> f == g {
      StreamIdInjective(prefix, f, g);
    }
    map k | k in done && k in record && record[k].Some? :: StreamId(prefix, k) := StreamOf(record, prefix, at, k)
  }

  /** Adding one more field to `done` adds its stream when the field is present, under an id not yet used. */
  lemma StreamMapStep<V>(record: Record<V>, prefix: Option<string>, at: string, done: set<string>, k: string)
    requires k !in done && k in record
    ensures StreamId(prefix, k) !in StreamMap(record, prefix, at, done)
    ensures StreamMap(record, prefix, at, done + {k}) ==
      if record[k].Some?
      then StreamMap(record, prefix, at, done)[StreamId(prefix, k) := StreamOf(record, prefix, at, k)]
      else StreamMap(record, prefix, at, done)
  {
    var m := StreamMap(record, prefix, at, done);
    if StreamId(prefix, k) in m {
      var j :| j in done && j in record && record[j].Some? && StreamId(prefix, j) == StreamId(prefix, k);
      StreamIdInjective(prefix, j, k);
      assert false;
    }
  }

  /** Once every recognised field is done, the dict is empty exactly when no recognised field is present. */
  lemma StreamMapEmpty<V>(record: Record<V>, prefix: Option<string>, at: string)
    requires Formats.Keys <= record.Keys
    ensures |StreamMap(record, prefix, at, Formats.Keys)| == 0 <==> Present(record) == {}
  {
    var m := StreamMap(record, prefix, at, Formats.Keys);
    if Present(record) != {} {
      var k :| k in Present(record);
      assert StreamId(prefix, k) in m;
    }
    if |m| != 0 {
      var id :| id in m;
      var k :| k in Formats.Keys && k in record && record[k].Some? && StreamId(prefix, k) == id;
      assert k in Present(record);
    }
  }

  /** Once every recognised field is done, the dict holds exactly the streams of the document. */
  lemma StreamMapValues<V>(record: Record<V>, prefix: Option<string>, at: string)
    requires Formats.Keys <= record.Keys
    ensures StreamMap(record, prefix, at, Formats.Keys).Values == StreamSet(record, prefix, at)
  {
    var m := StreamMap(record, prefix, at, Formats.Keys);
    forall s | s in StreamSet(record, prefix, at) ensures s in m.Values {
      var k :| k in Present(record) && s == StreamOf(record, prefix, at, k);
      assert k in Formats.Keys && k in record && record[k].Some?;
      assert StreamId(prefix, k) in m;
      var j :| j in Formats.Keys && j in record && record[j].Some? && StreamId(prefix, j) == StreamId(prefix, k)
        && m[StreamId(prefix, k)] == StreamOf(record, prefix, at, j);
      StreamIdInjective(prefix, j, k);
    }
    forall s | s in m.Values ensures s in StreamSet(record, prefix, at) {
      var id :| id in m && m[id] == s;
      var k :| k in Formats.Keys && k in record && record[k].Some? && StreamId(prefix, k) == id;
      assert k in Present(record);
    }
  }
}
