/** The Qdrant implementation of the vector store: guarded collection
    creation, mapping points to the client's PointStruct, and shaping raw
    search hits into {id, score, text, metadata} records. The Qdrant client's
    answers (existing collections, search hits) and the embedding service are
    parameters. */
module Qdrant {
  import opened Wrappers
  import opened Values
  import opened VectorBase

  /** Members of the client library's Distance enumeration, by member name. */
  datatype Distance = Cosine | Euclid | Dot | Manhattan

  const AllDistances: seq<Distance> := [Cosine, Euclid, Dot, Manhattan]

  function DistanceName(d: Distance): string
  {
    match d
    case Cosine => "COSINE"
    case Euclid => "EUCLID"
    case Dot => "DOT"
    case Manhattan => "MANHATTAN"
  }

  /** Distance[name]: lookup by exact member name; a miss is a KeyError. */
  function LookupDistance(name: string): (r: Option<Distance>)
    ensures r.Some? ==> DistanceName(r.value) == name
    ensures r.None? ==> forall d: Distance :: DistanceName(d) != name
  {
    if name == "COSINE" then Some(Cosine)
    else if name == "EUCLID" then Some(Euclid)
    else if name == "DOT" then Some(Dot)
    else if name == "MANHATTAN" then Some(Manhattan)
    else None
  }

  const DefaultDistanceFunction: string := "Cosine"

  function Join(sep: string, parts: seq<string>): string
  {
    if |parts| == 0 then "" else if |parts| == 1 then parts[0] else parts[0] + sep + Join(sep, parts[1..])
  }

  function InvalidDistanceMessage(distanceFunction: string): string
  {
    "Invalid distance function: " + distanceFunction + ". Valid options are: "
      + Join(", ", seq(|AllDistances|, k requires 0 <= k < |AllDistances| => DistanceName(AllDistances[k])))
  }

  datatype VectorParams = VectorParams(size: int, distance: Distance)

  datatype CreateCollectionRequest = CreateCollectionRequest(collectionName: string, vectorsConfig: VectorParams)

  /** The ValueError raised for an unknown distance name. */
  datatype CreateCollectionError = InvalidDistance(message: string)

  /** create_collection, given the names the client lists as existing. Ok(None)
      is the early return; Ok(Some(request)) is the one creation call made. */
  function CreateCollection(existing: seq<string>, collectionName: string, vectorSize: int, distanceFunction: string)
    : (r: Result<Option<CreateCollectionRequest>, CreateCollectionError>)
    ensures collectionName in existing ==> r == Ok(None)
    ensures collectionName !in existing ==>
      (r.Err? <==> forall d: Distance :: DistanceName(d) != Upper(distanceFunction))
    ensures r.Err? ==> r.error == InvalidDistance(InvalidDistanceMessage(distanceFunction))
    ensures collectionName !in existing && r.Ok? ==> r.value.Some?
    ensures r.Ok? && r.value.Some? ==>
      && collectionName !in existing
      && r.value.value.collectionName == collectionName
      && r.value.value.vectorsConfig.size == vectorSize
      && DistanceName(r.value.value.vectorsConfig.distance) == Upper(distanceFunction)
  {
    if collectionName in existing then Ok(None)
    else
      match LookupDistance(Upper(distanceFunction))
      case None => Err(InvalidDistance(InvalidDistanceMessage(distanceFunction)))
      case Some(distance) => Ok(Some(CreateCollectionRequest(collectionName, VectorParams(vectorSize, distance))))
  }

  /** The distance name is case-insensitive: two names with the same upper
      case create the same collection, or are both refused. */
  lemma {:induction false} DistanceCaseInsensitive(existing: seq<string>, collectionName: string, vectorSize: int, a: string, b: string)
    requires Upper(a) == Upper(b)
    ensures CreateCollection(existing, collectionName, vectorSize, a).Ok?
        <==> CreateCollection(existing, collectionName, vectorSize, b).Ok?
    ensures CreateCollection(existing, collectionName, vectorSize, a).Ok? ==>
      CreateCollection(existing, collectionName, vectorSize, a) == CreateCollection(existing, collectionName, vectorSize, b)
  {
  }

  /** The default "Cosine", and its lower-case form, name the cosine metric. */
  lemma DefaultDistanceIsCosine(existing: seq<string>, collectionName: string, vectorSize: int)
    requires collectionName !in existing
    ensures CreateCollection(existing, collectionName, vectorSize, DefaultDistanceFunction)
         == Ok(Some(CreateCollectionRequest(collectionName, VectorParams(vectorSize, Cosine))))
    ensures CreateCollection(existing, collectionName, vectorSize, "cosine")
         == CreateCollection(existing, collectionName, vectorSize, DefaultDistanceFunction)
  {
    assert Upper(DefaultDistanceFunction) == "COSINE";
    assert Upper("cosine") == "COSINE";
  }

  /** The existence check comes first: for an existing collection even a
      name that is no distance at all is not an error. */
  lemma ExistingCollectionIgnoresDistance(existing: seq<string>, collectionName: string, vectorSize: int)
    requires collectionName in existing
    ensures CreateCollection(existing, collectionName, vectorSize, "no such metric") == Ok(None)
    ensures CreateCollection([], collectionName, vectorSize, "no such metric").Err?
  {
    assert Upper("no such metric") == "NO SUCH METRIC";
  }

  // ----- str(uuid): 32 lower-case hexadecimal digits in groups 8-4-4-4-12

  function HexDigit(d: nat): (c: char)
    requires d < 16
  {
    if d < 10 then ('0' as int + d) as char else ('a' as int + d - 10) as char
  }

  function HexValue(c: char): nat
  {
    if '0' <= c <= '9' then c as int - '0' as int
    else if 'a' <= c <= 'f' then c as int - 'a' as int + 10
    else 0
  }

  /** The lowest n hexadecimal digits of v, most significant first. */
  function Hex(v: nat, n: nat): (h: string)
    ensures |h| == n
  {
    if n == 0 then [] else Hex(v / 16, n - 1) + [HexDigit(v % 16)]
  }

  function ParseHex(h: string): nat
  {
    if h == [] then 0 else 16 * ParseHex(h[..|h| - 1]) + HexValue(h[|h| - 1])
  }

  lemma {:induction false} ParseHexOfHex(v: nat, n: nat)
    requires v < Pow16(n)
    ensures ParseHex(Hex(v, n)) == v
  {
    if n > 0 {
      var h := Hex(v, n);
      assert h[..n - 1] == Hex(v / 16, n - 1);
      ParseHexOfHex(v / 16, n - 1);
    }
  }

  function UuidString(u: Uuid): (s: string)
    ensures |s| == 36
    ensures s[8] == '-' && s[13] == '-' && s[18] == '-' && s[23] == '-'
  {
    var h := Hex(u.value, 32);
    h[..8] + "-" + h[8..12] + "-" + h[12..16] + "-" + h[16..20] + "-" + h[20..]
  }

  /** Distinct UUIDs give distinct point ids: the digits can be read back. */
  lemma UuidStringInjective(u: Uuid, w: Uuid)
    requires UuidString(u) == UuidString(w)
    ensures u == w
  {
    DigitsOfUuidString(u);
    DigitsOfUuidString(w);
    ParseHexOfHex(u.value, 32);
    ParseHexOfHex(w.value, 32);
  }

  /** Dropping the four hyphens gives back the 32 digits. */
  lemma DigitsOfUuidString(u: Uuid)
    ensures var s := UuidString(u);
      s[..8] + s[9..13] + s[14..18] + s[19..23] + s[24..] == Hex(u.value, 32)
  {
    var h := Hex(u.value, 32);
    var s := UuidString(u);
    assert s == h[..8] + "-" + h[8..12] + "-" + h[12..16] + "-" + h[16..20] + "-" + h[20..];
    assert s[..8] == h[..8];
    assert s[9..13] == h[8..12];
    assert s[14..18] == h[12..16];
    assert s[19..23] == h[16..20];
    assert s[24..] == h[20..];
    assert h == h[..8] + h[8..12] + h[12..16] + h[16..20] + h[20..];
  }

  // ----- _upsert_points

  datatype PointStruct = PointStruct(id: string, vector: Embedding, payload: map<string, Value>)

  /** The one client.upsert call. */
  datatype ClientUpsert = ClientUpsert(collectionName: string, points: seq<PointStruct>)

  function ToPointStruct(p: PointData): (s: PointStruct)
    ensures s.id == UuidString(p.id) && s.vector == p.embeddings
    ensures s.payload.Keys == {"timestamp", "text"}
    ensures s.payload["timestamp"] == Str(p.payload.timestamp.iso) && s.payload["text"] == Str(p.payload.text)
  {
    PointStruct(UuidString(p.id), p.embeddings,
                map["timestamp" := Str(p.payload.timestamp.iso), "text" := Str(p.payload.text)])
  }

  /** _upsert_points: nothing is sent for an empty list; otherwise one upsert
      call with one PointStruct per point, in order. */
  function UpsertPoints(collectionName: string, points: seq<PointData>): (r: Option<ClientUpsert>)
    ensures r.None? <==> points == []
    ensures r.Some? ==>
      && r.value.collectionName == collectionName
      && |r.value.points| == |points|
      && forall k :: 0 <= k < |points| ==> r.value.points[k] == ToPointStruct(points[k])
  {
    if points == [] then None
    else Some(ClientUpsert(collectionName,
                seq(|points|, k requires 0 <= k < |points| => ToPointStruct(points[k]))))
  }

  /** The points of one upsert have pairwise distinct ids in Qdrant as soon
      as the uuid4() values were distinct. */
  lemma UpsertIdsDistinct(collectionName: string, points: seq<PointData>, i: nat, j: nat)
    requires i < j < |points| && points[i].id != points[j].id
    ensures UpsertPoints(collectionName, points).value.points[i].id
         != UpsertPoints(collectionName, points).value.points[j].id
  {
    if UuidString(points[i].id) == UuidString(points[j].id) {
      UuidStringInjective(points[i].id, points[j].id);
    }
  }

  // ----- shaping search hits

  datatype PointId = IntId(n: nat) | UuidId(s: string)

  /** A hit as the client returns it; the score is a float passed through. */
  datatype ScoredPoint = ScoredPoint(id: PointId, score: real, payload: map<string, Value>)

  datatype FormattedResult = FormattedResult(id: PointId, score: real, text: Value, metadata: map<string, Value>)

  function FormatHit(hit: ScoredPoint): (f: FormattedResult)
    ensures f.id == hit.id && f.score == hit.score
    ensures f.text == if "text" in hit.payload then hit.payload["text"] else Str("")
    ensures f.metadata.Keys == hit.payload.Keys - {"text"}
    ensures forall k :: k in f.metadata ==> f.metadata[k] == hit.payload[k]
  {
    FormattedResult(hit.id, hit.score,
                    if "text" in hit.payload then hit.payload["text"] else Str(""),
                    map k | k in hit.payload && k != "text" :: hit.payload[k])
  }

  /** The payload can be put back together from a formatted hit: the
      metadata plus the text key, when the payload had one. */
  lemma FormatHitKeepsPayload(hit: ScoredPoint)
    ensures "text" in hit.payload ==> FormatHit(hit).metadata["text" := FormatHit(hit).text] == hit.payload
    ensures "text" !in hit.payload ==> FormatHit(hit).metadata == hit.payload
  {
    var f := FormatHit(hit);
    if "text" in hit.payload {
      assert f.metadata["text" := f.text].Keys == hit.payload.Keys;
    } else {
      assert f.metadata.Keys == hit.payload.Keys;
    }
  }

  /** A hit on a point this wrapper upserted gives back its text and keeps
      only the timestamp as metadata. */
  lemma FormatUpsertedPoint(p: PointData, id: PointId, score: real)
    ensures FormatHit(ScoredPoint(id, score, ToPointStruct(p).payload))
         == FormattedResult(id, score, Str(p.payload.text), map["timestamp" := Str(p.payload.timestamp.iso)])
  {
    var f := FormatHit(ScoredPoint(id, score, ToPointStruct(p).payload));
    assert f.metadata.Keys == {"timestamp"};
  }

  /** The formatting loop shared by search and search_by_vector. */
  method FormatResults(hits: seq<ScoredPoint>) returns (formatted: seq<FormattedResult>)
    ensures |formatted| == |hits|
    ensures forall k :: 0 <= k < |hits| ==> formatted[k] == FormatHit(hits[k])
  {
    formatted := [];
    for k := 0 to |hits|
      invariant |formatted| == k
      invariant forall j :: 0 <= j < k ==> formatted[j] == FormatHit(hits[j])
    {
      formatted := formatted + [FormatHit(hits[k])];
    }
  }

  datatype SearchRequest = SearchRequest(collectionName: string, queryVector: Embedding, limit: int, scoreThreshold: real)

  /** search: embed the query text and search with the first vector; [] and
      no search at all when the embedding service gives None or nothing. The
      source's defaults for limit and score_threshold (10 and 0.7) are left to
      the caller. */
  method Search(collectionName: string, queryText: string, limit: int, scoreThreshold: real,
                embed: seq<string> -> Option<seq<Embedding>>, client: SearchRequest -> seq<ScoredPoint>)
    returns (results: seq<FormattedResult>, request: Option<SearchRequest>)
    ensures (embed([queryText]) == None || embed([queryText]) == Some([])) ==> results == [] && request == None
    ensures embed([queryText]).Some? && embed([queryText]).value != [] ==>
      && request == Some(SearchRequest(collectionName, embed([queryText]).value[0], limit, scoreThreshold))
      && |results| == |client(request.value)|
      && forall k :: 0 <= k < |results| ==> results[k] == FormatHit(client(request.value)[k])
  {
    var embeddings := embed([queryText]);
    if embeddings.None? || |embeddings.value| == 0 {
      return [], None;
    }
    var queryVector := embeddings.value[0];
    var req := SearchRequest(collectionName, queryVector, limit, scoreThreshold);
    var searchResults := client(req);
    results := FormatResults(searchResults);
    request := Some(req);
  }

  /** search_by_vector: the same formatting of the client's hits. */
  method SearchByVector(collectionName: string, queryVector: Embedding, limit: int, scoreThreshold: real,
                        client: SearchRequest -> seq<ScoredPoint>)
    returns (results: seq<FormattedResult>)
    ensures var hits := client(SearchRequest(collectionName, queryVector, limit, scoreThreshold));
      && |results| == |hits|
      && forall k :: 0 <= k < |hits| ==> results[k] == FormatHit(hits[k])
  {
    var searchResults := client(SearchRequest(collectionName, queryVector, limit, scoreThreshold));
    results := FormatResults(searchResults);
  }

  /** The whole upsert path from text to client call: an empty text sends
      nothing; otherwise the payload texts of the sent points are the text
      batches, in order, and concatenate back to the text. */
  lemma UpsertPathCoversText(collectionName: string, data: string, batchSize: nat, embed: string -> Embedding,
                             newId: nat -> Uuid, now: nat -> Timestamp)
    requires batchSize > 0
    ensures var points := PointsFor(Embedded(Chunking.Chunks(data, batchSize), embed), newId, now);
      && (UpsertPoints(collectionName, points).None? <==> data == [])
      && (data != [] ==>
            var sent := UpsertPoints(collectionName, points).value.points;
            && |sent| == |Chunking.Chunks(data, batchSize)|
            && forall k :: 0 <= k < |sent| ==> sent[k].payload["text"] == Str(Chunking.Chunks(data, batchSize)[k]))
  {
    var points := PointsFor(Embedded(Chunking.Chunks(data, batchSize), embed), newId, now);
    UpsertPointsCoverText(data, batchSize, embed, newId, now);
    if data != [] {
      var sent := UpsertPoints(collectionName, points).value.points;
      forall k | 0 <= k < |sent|
        ensures sent[k].payload["text"] == Str(Chunking.Chunks(data, batchSize)[k])
      {
        assert PayloadTexts(points)[k] == points[k].payload.text;
      }
    }
  }
}
