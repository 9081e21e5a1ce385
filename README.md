# Xively uploader: payload and request construction

This project models the Xively (formerly COSM, formerly Pachube) uploader of
the weewx weather station software. The uploader turns each new archive
record into a "datastreams" document and sends it to the Xively feed with an
HTTP PUT. The model covers these parts:

- the field table `_FORMATS`, which decides which record fields are uploaded;
- `XivelyThread.get_data`, which builds the document: one stream per
  recognised field whose value is not `None`, each stream holding a single
  `{at, value}` datapoint;
- `get_url`, `check_response` and `process_record` of the upload thread;
- the startup gate of `Xively.__init__`, which refuses to start without
  `feed` and `token`.

Modules:

- `Outcomes` (`outcomes.dfy`): `Option`, `Result` and `Outcome`. These stand
  for Python's `None` and for raised exceptions.
- `Datastreams` (`datastreams.dfy`): the field table, the datatypes of the
  document, and `PayloadOf`. `PayloadOf` is a reference definition of the
  document built from one record. The lemmas next to it prove what the
  upload relies on: which stream ids appear, what each stream holds, and
  that each stream appears once.
- `Xively` (`xively.dfy`): the classes `Xively` and `XivelyThread`. Here
  `get_data` is an imperative method with two loops over dicts. Its
  `ensures` ties its result to `PayloadOf`.

Both loops in `get_data` go over dict keys: `_FORMATS` first, then the
streams built so far. Python 2 gives no useful order for dict keys, so each
loop picks its next key with `:|`, which can return any remaining key. The
proofs therefore hold for every order. The document's `datastreams` list is
kept as a multiset, which is the list with its order forgotten.

Weather values are never used in arithmetic, so their type is a type
parameter `V`. Functions from outside libraries are passed in as
parameters:

- `quote` stands for `urllib.quote_plus`;
- `utcText` stands for `time.strftime('%Y-%m-%dT%H:%M:%SZ', time.gmtime(..))`;
- `augment` stands for `augment_record` of the base class;
- `weewxVersion` stands for `weewx.__version__`.

Where the code differs from its comments, or cannot run as written, the
model does this:

- `get_data` reads the name `time_ts` (line 178), but nothing defines it.
  As written, every call of `get_data` stops with a `NameError`, so
  `process_record` never reaches its `skip_upload` test and never posts.
  The model departs from the code here: `GetData` and `ProcessRecord` model
  the code with `time_ts` bound, taken as an explicit integer `timeTs`.
  Everything else below follows the code.
- `record[k]` (line 181) raises `KeyError` when a recognised field is
  missing from the record. The model returns that error. It does not skip
  the field. The error names a missing field, and which one depends on the
  dict's key order.
- The table's format strings are never applied. Each datapoint holds the
  record's raw value.
- The stream id gets a prefix whenever a station is configured, even when
  the station name is empty. Only a missing station (`None`) leaves the id
  bare.
- When no recognised field has a value, `get_data` returns `None`, and
  `process_record` still builds and hands over a PUT request without a
  body. Nothing skips the request when the document is empty.
- `get_data` runs before the `skip_upload` test, so a record that lacks a
  recognised field raises even when uploads are switched off.
- `skip_upload` defaults to `True` in the thread constructor (line 134),
  even though the doc comment says `False` (line 110). `max_backlog`
  defaults to `0` there, while the comment says `sys.maxint`.
- `Xively.__init__` reads `url` for its own `server_url`. The thread is
  given the site options as keyword arguments, so it reads `server_url`
  instead.

## Model

| member | source | states |
|---|---|---|
| `Datastreams.StationPrefix` | extensions/xively/bin/user/xively.py:176-177 | there is a stream-id prefix exactly when a station is configured, and then it is `quote` of the station name |
| `Datastreams.StreamId` | extensions/xively/bin/user/xively.py:183 | without a prefix the id is the bare field; with one it is one character longer than prefix and field together |
| `Datastreams.StreamIdParts` | extensions/xively/bin/user/xively.py:183 | a prefixed id splits back into the prefix, `_`, and the field |
| `Datastreams.StationStreamId` | extensions/xively/bin/user/xively.py:176-183 | a field's id is `quote(station) + "_" + field` when a station is configured, and the bare field otherwise |
| `Datastreams.StreamIdInjective` | extensions/xively/bin/user/xively.py:183 | two different fields never get the same stream id, with or without a station prefix |
| `Datastreams.PayloadOf` | extensions/xively/bin/user/xively.py:180-195 | no document exactly when every recognised field in the record is `None`; a document always has version `1.0.0` |
| `Datastreams.StreamContent` | extensions/xively/bin/user/xively.py:180-187 | a stream whose id is a recognised field's id belongs to that field, which is present; it holds one datapoint: the record's raw value, stamped with the shared time string |
| `Datastreams.StreamIds` | extensions/xively/bin/user/xively.py:57-70 | the stream ids are exactly the ids of the recognised fields with a value; the id of a field outside the table never appears |
| `Datastreams.StreamsOnce` | extensions/xively/bin/user/xively.py:184-195 | each stream is listed once, no two streams share an id, and there are as many streams as recognised fields with a value |
| `Datastreams.IndoorFieldsNeverUploaded` | extensions/xively/bin/user/xively.py:60-61 | the commented-out `inTemp` and `inHumidity` never appear as streams |
| `Datastreams.StreamCount` | extensions/xively/bin/user/xively.py:184-187 | a set of fields with values yields one stream per field, because their ids differ |
| `Datastreams.StreamMapStep` | extensions/xively/bin/user/xively.py:181-187 | one more step of the table loop adds the field's stream under an id not yet in the dict, or leaves the dict alone when the value is `None` |
| `Datastreams.StreamMapEmpty` | extensions/xively/bin/user/xively.py:188-189 | after the table loop the dict is empty exactly when no recognised field has a value |
| `Datastreams.StreamMapValues` | extensions/xively/bin/user/xively.py:194-195 | after the table loop the dict's streams are exactly the document's streams |
| `Xively.AddDatapoint` | extensions/xively/bin/user/xively.py:184-187 | a new id gets a stream holding just the datapoint; an existing one gets the datapoint appended |
| `Xively.ListStreams` | extensions/xively/bin/user/xively.py:190-195 | appending the dict's streams in any key order yields each stream exactly once |
| `Xively.SiteOptions` | extensions/xively/bin/user/xively.py:113-119 | the options are found exactly when the section, its subsection, `feed` and `token` are all present; a missing token alone is reported as `token` |
| `Xively.Xively.constructor` | extensions/xively/bin/user/xively.py:112-127 | uploading starts exactly when the options are found; otherwise no attribute is set and nothing starts; `url` and `station` take their defaults |
| `Xively.LastSegmentOfJoin` | extensions/xively/bin/user/xively.py:171 | corollary of `GetUrl`: when a slash-free feed is joined to a server URL with `/`, the part after the last `/` is that feed |
| `Xively.XivelyThread.constructor` | extensions/xively/bin/user/xively.py:133-150 | stores feed, token, station, server URL and `skip_upload` (default `True`), and the base-class settings with their defaults |
| `Xively.XivelyThread.GetUrl` | extensions/xively/bin/user/xively.py:170-173 | for every feed, the URL is the server URL, a `/`, then the feed; a slash-free feed can also be read back as the last segment |
| `Xively.XivelyThread.CheckResponse` | extensions/xively/bin/user/xively.py:165-168 | a response passes exactly when its body is empty; otherwise `FailedPost` carries the whole body |
| `Xively.XivelyThread.GetData` | extensions/xively/bin/user/xively.py:175-198 | raises `KeyError` exactly when a recognised field is missing, naming such a field; otherwise the result is `PayloadOf` the record, whatever order the dicts give |
| `Xively.XivelyThread.ProcessRecord` | extensions/xively/bin/user/xively.py:152-163 | raises exactly when the augmented record lacks a recognised field; else skips exactly when `skip_upload` is set; else posts one PUT to `GetUrl()` with the document, even an empty one, and the `User-Agent` and `X-PachubeApiKey` headers |

## Left out

- The record queue, the thread start and the event binding (lines 123-126), and `new_archive_record` (lines 129-130). These are concurrency plumbing. In `Xively.__init__` they become the single flag `uploading`. `Queue` is never imported in the file, so as written line 123 would raise `NameError`. The model does not capture that.
- Turning the site options into thread arguments (line 124). The options go in as keyword arguments. An option the constructor does not know, such as `url`, would raise `TypeError`. Option values stay strings: `to_bool` is imported but never used, so `skip_upload = False` in the configuration is a non-empty string and still counts as true. The model takes typed constructor arguments instead.
- Retrying, backlog trimming, staleness, the post interval, `augment_record` and `post_with_retries`. These belong to the base class in `weewx.restx`, which is not part of this model. `augment_record` is a parameter, and a `Posted` outcome stands for the call to `post_with_retries`.
- HTTP: `urllib2.Request`, the transport, and `response.read()`. `CheckResponse` takes the body text. `urllib2` may change how header names are capitalised; the model does not capture that.
- Logging through syslog (lines 40-50, and the messages at lines 118, 127, 157, 172, 197).
- The JSON library fallback (lines 29-38) and `json.dumps` (line 196). The model stops at the structured document.
- `urllib.quote_plus` and `time.gmtime`/`time.strftime` are library code, so they are function parameters.
- Weather values are floats. The model treats them as opaque values of type `V`.
- `_VERSION` (line 55) is not used by any modelled operation.
- Xively.XivelyThread.GetData: when several recognised fields are missing, the model does not say which one is reported, because that depends on the order of dict keys.
