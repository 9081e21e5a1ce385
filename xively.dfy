/**
 * The Xively uploader: the startup gate of the service, and the upload
 * thread's request construction, response check and payload building.
 *
 * What lies outside this file's reach is passed in: `quote` stands for
 * URL quoting of the station name, `utcText` for formatting a Unix time as
 * `YYYY-MM-DDTHH:MM:SSZ`, `augment` for the record enrichment done by the
 * thread's base class, and `weewxVersion` for the host's version string.
 * A `Posted` outcome stands for the hand-over of a request to the base
 * class's retrying post routine.
 */
module Xively {
  import opened Outcomes
  import opened Datastreams

  /** The default server, used when the configuration names none. */
  const DefaultServerUrl: string := "http://api.cosm.com/v2/feeds"

  /** The host configuration: section, then subsection, then option name to value. */
  type Config = map<string, map<string, map<string, string>>>

  /** A missing configuration entry; the upload does not start. */
  datatype MissingOption = MissingOption(option: string)

  /** The server's complaint in a non-empty response body. */
  datatype FailedPost = FailedPost(message: string)

  /** The settings the upload thread hands to its retrying base class. */
  datatype RestSettings = RestSettings(
    protocolName: string,
    logSuccess: bool,
    logFailure: bool,
    maxBacklog: int,
    stale: Option<int>,
    maxTries: int,
    postInterval: Option<int>,
    timeout: int)

  /** An HTTP request: target, body (absent when there is no document), headers and verb. */
  datatype Request<V(==)> = Request(url: string, data: Option<Payload<V>>, headers: map<string, string>, verb: string)

  /** What handling one record comes to. */
  datatype Upload<V(==)> =
    | Raised(error: KeyError)       // building the document raised
    | UploadSkipped                 // the debugging switch held the request back
    | Posted(request: Request<V>)   // the request went to the retrying post routine

  /**
   * The options of the `[StdRESTful] [[Xively]]` section, looked up in the
   * order the service does: the section, its subsection, `feed`, `token`.
   */
  function SiteOptions(config: Config): (r: Result<map<string, string>, MissingOption>)
    ensures r.Success? <==>
      && "StdRESTful" in config && "Xively" in config["StdRESTful"]
      && "feed" in config["StdRESTful"]["Xively"] && "token" in config["StdRESTful"]["Xively"]
    ensures r.Success? ==> r.value == config["StdRESTful"]["Xively"]
    ensures r.Failure? ==> r.error.option in ["StdRESTful", "Xively", "feed", "token"]
    ensures "StdRESTful" in config && "Xively" in config["StdRESTful"]
      && "feed" in config["StdRESTful"]["Xively"] && "token" !in config["StdRESTful"]["Xively"]
      ==> r == Failure(MissingOption("token"))
  {
    if "StdRESTful" !in config then Failure(MissingOption("StdRESTful"))
    else if "Xively" !in config["StdRESTful"] then Failure(MissingOption("Xively"))
    else
      var site := config["StdRESTful"]["Xively"];
      if "feed" !in site then Failure(MissingOption("feed"))
      else if "token" !in site then Failure(MissingOption("token"))
      else Success(site)
  }

  /** A configuration option, or its default when absent. */
  function Get(site: map<string, string>, option: string, default: string): string
  {
    if option in site then site[option] else default
  }

  /** The service object the host creates at startup. */
  class Xively {
    /**
     * `None` while the attribute has not been set. `station` is `None` both
     * when startup stopped early and when no station is configured; only
     * `uploading` tells those cases apart.
     */
    var serverUrl: Option<string>
    var station: Option<string>
    /** The queue exists, the upload thread runs and new archive records are routed to it. */
    var uploading: bool

    constructor(config: Config)
      ensures uploading <==> SiteOptions(config).Success?
      ensures !uploading ==> serverUrl == None && station == None
      ensures uploading ==>
        var site := SiteOptions(config).value;
        && serverUrl == Some(Get(site, "url", DefaultServerUrl))
        && station == (if "station" in site then Some(site["station"]) else None)
    {
      var options := SiteOptions(config);
      if options.Failure? {
        // the missing option is logged and nothing is set up
        serverUrl, station, uploading := None, None, false;
      } else {
        var site := options.value;
        serverUrl := Some(Get(site, "url", DefaultServerUrl));
        station := if "station" in site then Some(site["station"]) else None;
        uploading := true;
      }
    }
  }

  /** The text after the last `/` of `s`, or all of `s` when it has none. */
  function LastSegment(s: string): (seg: string)
    ensures |seg| <= |s| && seg == s[|s| - |seg|..]
    ensures '/' !in seg
  {
    if s == [] || s[|s| - 1] == '/' then []
    else LastSegment(s[..|s| - 1]) + [s[|s| - 1]]
  }

  /**
   * Joining a server address and a slash-free segment with `/` puts that
   * segment last: the feed of an address can be read back from it.
   */
  lemma {:induction false} LastSegmentOfJoin(server: string, segment: string)
    requires '/' !in segment
    ensures LastSegment(server + "/" + segment) == segment
    decreases |segment|
  {
    var url := server + "/" + segment;
    if segment != [] {
      var shorter := segment[..|segment| - 1];
      LastSegmentOfJoin(server, shorter);
      assert url[..|url| - 1] == server + "/" + shorter;
    } else {
      assert url[|url| - 1] == '/';
    }
  }

  /** The streams of the dict entries in `keys`, as the document's list holds them. */
  function Gathered<V(==)>(streams: map<string, Stream<V>>, keys: set<string>): multiset<Stream<V>>
    requires keys <= streams.Keys
  {
    multiset(set id | id in keys :: streams[id])
  }

  /** Appending the stream of one more key adds it once, since streams are named by their keys. */
  lemma GatherStep<V>(streams: map<string, Stream<V>>, keys: set<string>, id: string)
    requires keys <= streams.Keys && id in streams && id !in keys
    requires forall i :: i in streams ==> streams[i].id == i
    ensures Gathered(streams, keys + {id}) == Gathered(streams, keys) + multiset{streams[id]}
  {
  }

  /** Appends a datapoint to the stream `id`, creating that stream empty first when the dict lacks it. */
  method AddDatapoint<V>(streams: map<string, Stream<V>>, id: string, point: Datapoint<V>)
    returns (updated: map<string, Stream<V>>)
    ensures id !in streams ==> updated == streams[id := Stream(id, [point])]
    ensures id in streams ==> updated == streams[id := Stream(id, streams[id].datapoints + [point])]
  {
    updated := streams;
    if id !in updated {
      updated := updated[id := Stream(id, [])];
      assert [] + [point] == [point];
    }
    updated := updated[id := Stream(id, updated[id].datapoints + [point])];
  }

  /** The dict's streams appended one by one, in key order, to the document's list. */
  method ListStreams<V(==)>(streams: map<string, Stream<V>>) returns (datastreams: multiset<Stream<V>>)
    requires forall id :: id in streams ==> streams[id].id == id
    ensures datastreams == multiset(streams.Values)
  {
    datastreams := multiset{};
    var rest := streams.Keys;
    while rest != {}
      invariant rest <= streams.Keys
      invariant datastreams == Gathered(streams, streams.Keys - rest)
      decreases rest
    {
      var id :| id in rest;
      GatherStep(streams, streams.Keys - rest, id);
      assert streams.Keys - (rest - {id}) == (streams.Keys - rest) + {id};
      datastreams := datastreams + multiset{streams[id]};
      rest := rest - {id};
    }
    assert (set id | id in streams.Keys :: streams[id]) == streams.Values;
  }

  /** The thread that uploads records, one at a time. */
  class XivelyThread {
    var feed: string
    var token: string
    var station: Option<string>
    var serverUrl: string
    var skipUpload: bool
    var settings: RestSettings

    constructor(feed: string, token: string, serverUrl: string := DefaultServerUrl,
                station: Option<string> := None, skipUpload: bool := true,
                logSuccess: bool := true, logFailure: bool := true, maxBacklog: int := 0,
                stale: Option<int> := None, maxTries: int := 3, postInterval: Option<int> := None,
                timeout: int := 60)
      ensures this.feed == feed && this.token == token && this.station == station
      ensures this.serverUrl == serverUrl && this.skipUpload == skipUpload
      ensures settings == RestSettings("Xively", logSuccess, logFailure, maxBacklog, stale,
                                       maxTries, postInterval, timeout)
    {
      settings := RestSettings("Xively", logSuccess, logFailure, maxBacklog, stale,
                               maxTries, postInterval, timeout);
      this.feed := feed;
      this.token := token;
      this.station := station;
      this.serverUrl := serverUrl;
      this.skipUpload := skipUpload;
    }

    /**
     * The feed's address: the server URL, a slash, and the feed name, for any
     * feed. As a corollary, a slash-free feed can be read back off the end.
     */
    function GetUrl(): (url: string)
      reads this
      ensures |url| == |serverUrl| + 1 + |feed|
      ensures url[..|serverUrl|] == serverUrl && url[|serverUrl|] == '/'
      ensures url[|serverUrl| + 1..] == feed
      ensures '/' !in feed ==> LastSegment(url) == feed
    {
      var url := serverUrl + "/" + feed;
      if '/' in feed then url
      else
        LastSegmentOfJoin(serverUrl, feed);
        url
    }

    /** A response passes exactly when its body is empty; otherwise the body is the reported failure. */
    static function CheckResponse(body: string): (r: Outcome<FailedPost>)
      ensures r.Pass? <==> |body| == 0
      ensures r.Fail? ==> r.error.message == body
    {
      if body != "" then Fail(FailedPost(body)) else Pass
    }

    /**
     * The upload document for `record`, with every datapoint stamped
     * `utcText(timeTs)`. Looking up a recognised field the record lacks
     * raises; which one is reported depends on the table's iteration order.
     */
    method GetData<V(==)>(record: Record<V>, timeTs: int, quote: string -> string, utcText: int -> string)
      returns (r: Result<Option<Payload<V>>, KeyError>)
      ensures r.Failure? <==> !(Formats.Keys <= record.Keys)
      ensures r.Failure? ==> r.error.key in Formats && r.error.key !in record
      ensures r.Success? ==> r.value == PayloadOf(record, StationPrefix(station, quote), utcText(timeTs))
    {
      var prefix := StationPrefix(station, quote);
      var at := utcText(timeTs);
      var streams: map<string, Stream<V>> := map[];
      var todo := Formats.Keys;
      while todo != {}
        invariant todo <= Formats.Keys
        invariant Formats.Keys - todo <= record.Keys
        invariant streams == StreamMap(record, prefix, at, Formats.Keys - todo)
        decreases todo
      {
        var k :| k in todo;
        if k !in record {
          return Failure(KeyError(k));
        }
        ghost var done := Formats.Keys - todo;
        StreamMapStep(record, prefix, at, done, k);
        var v := record[k];
        if v.Some? {
          streams := AddDatapoint(streams, StreamId(prefix, k), Datapoint(at, v.value));
        }
        assert Formats.Keys - (todo - {k}) == done + {k};
        todo := todo - {k};
      }
      assert Formats.Keys - todo == Formats.Keys;
      StreamMapEmpty(record, prefix, at);
      if |streams| == 0 {
        return Success(None);
      }
      var datastreams := ListStreams(streams);
      StreamMapValues(record, prefix, at);
      assert PayloadOf(record, prefix, at) == Some(Payload(Version, multiset(StreamSet(record, prefix, at))));
      return Success(Some(Payload(Version, datastreams)));
    }

    /**
     * Handles one record: augment it, build the address and the document, and
     * then either stop (debugging switch) or hand one PUT request with the
     * client and key headers to the retrying post routine. A document that
     * comes out empty is still posted, with no body.
     */
    method ProcessRecord<V(==)>(record: Record<V>, augment: Record<V> -> Record<V>, timeTs: int,
                                quote: string -> string, utcText: int -> string, weewxVersion: string)
      returns (r: Upload<V>)
      ensures var rec := augment(record);
        && (r.Raised? <==> !(Formats.Keys <= rec.Keys))
        && (r.Raised? ==> r.error.key in Formats && r.error.key !in rec)
        && (!r.Raised? ==> (r.UploadSkipped? <==> skipUpload))
        && (!r.Raised? && !skipUpload ==> r.Posted?)
        && (r.Posted? ==> r.request == Request(
              GetUrl(),
              PayloadOf(rec, StationPrefix(station, quote), utcText(timeTs)),
              map["User-Agent" := "weewx/" + weewxVersion, "X-PachubeApiKey" := token],
              "PUT"))
    {
      var rec := augment(record);
      var url := GetUrl();
      var data := GetData(rec, timeTs, quote, utcText);
      if data.Failure? {
        return Raised(data.error);
      }
      if skipUpload {
        return UploadSkipped;
      }
      var headers := map["User-Agent" := "weewx/" + weewxVersion];
      headers := headers["X-PachubeApiKey" := token];
      return Posted(Request(url, data.value, headers, "PUT"));
    }
  }
}
