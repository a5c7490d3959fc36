/** The store-independent half of the vector database wrapper: cutting a text
    into fixed-width batches, embedding each batch, and turning the embedded
    batches into points for the concrete store's _upsert_points. The embedding
    service, uuid4() and datetime.now() are parameters. */
module VectorBase {
  import opened Wrappers
  import opened Chunking

  /** An embedding vector; its floats are never inspected by this code. */
  datatype Embedding = Embedding(handle: nat)

  /** A datetime.now() reading, kept as the text its isoformat() gives. */
  datatype Timestamp = Timestamp(iso: string)

  function Pow16(n: nat): (p: nat)
    ensures p > 0
  {
    if n == 0 then 1 else 16 * Pow16(n - 1)
  }

  /** A UUID is a 128-bit integer, 32 hexadecimal digits. */
  type Uuid128 = x: nat | x < Pow16(32)

  datatype Uuid = Uuid(value: Uuid128)

  /** The record types of vector_base.py. */
  datatype VectorEmbeddingsData = VectorEmbeddingsData(text: string, embeddings: Embedding)

  datatype PointPayload = PointPayload(timestamp: Timestamp, text: string)

  datatype PointData = PointData(id: Uuid, embeddings: Embedding, payload: PointPayload)

  /** The one call upsert makes to the concrete store's _upsert_points. */
  datatype UpsertPointsCall = UpsertPointsCall(collectionName: string, points: seq<PointData>)

  /** What generate_embeddings returns for the given text batches. */
  function Embedded(batches: seq<string>, embed: string -> Embedding): (r: seq<VectorEmbeddingsData>)
    ensures |r| == |batches|
  {
    seq(|batches|, k requires 0 <= k < |batches| => VectorEmbeddingsData(batches[k], embed(batches[k])))
  }

  /** The points upsert builds: the i-th embedded batch becomes the i-th point,
      with the i-th uuid4() and datetime.now() values. */
  function PointsFor(embedded: seq<VectorEmbeddingsData>, newId: nat -> Uuid, now: nat -> Timestamp): (r: seq<PointData>)
    ensures |r| == |embedded|
  {
    seq(|embedded|, i requires 0 <= i < |embedded| =>
      PointData(newId(i), embedded[i].embeddings, PointPayload(now(i), embedded[i].text)))
  }

  function Texts(embedded: seq<VectorEmbeddingsData>): (r: seq<string>)
    ensures |r| == |embedded|
  {
    seq(|embedded|, k requires 0 <= k < |embedded| => embedded[k].text)
  }

  function PayloadTexts(points: seq<PointData>): (r: seq<string>)
    ensures |r| == |points|
  {
    seq(|points|, k requires 0 <= k < |points| => points[k].payload.text)
  }

  /** generate_embeddings: one embedding request per text batch, in batch
      order; a batch size of 0 raises before any request. */
  method GenerateEmbeddings(text: string, batchSize: int, embed: string -> Embedding)
    returns (r: Result<seq<VectorEmbeddingsData>, RangeError>, requests: seq<string>)
    ensures PyChunks(text, batchSize).Err? ==> r == Err(ZeroStep) && requests == []
    ensures PyChunks(text, batchSize).Ok? ==>
      var batches := PyChunks(text, batchSize).value;
      requests == batches && r.Ok? && |r.value| == |batches| &&
      forall k :: 0 <= k < |batches| ==> r.value[k] == VectorEmbeddingsData(batches[k], embed(batches[k]))
  {
    var chunked := PyChunks(text, batchSize);
    if chunked.Err? {
      return Err(chunked.error), [];
    }
    var textBatches := chunked.value;
    var allEmbeddings: seq<VectorEmbeddingsData> := [];
    requests := [];
    for k := 0 to |textBatches|
      invariant requests == textBatches[..k]
      invariant |allEmbeddings| == k
      invariant forall j :: 0 <= j < k ==>
        allEmbeddings[j] == VectorEmbeddingsData(textBatches[j], embed(textBatches[j]))
    {
      var batch := textBatches[k];
      var embeddings := embed(batch);
      requests := requests + [batch];
      allEmbeddings := allEmbeddings + [VectorEmbeddingsData(batch, embeddings)];
    }
    r := Ok(allEmbeddings);
  }

  /** upsert: embed the text, build one point per embedded batch, and hand the
      whole list to _upsert_points once. */
  method Upsert(collectionName: string, data: string, batchSize: int, embed: string -> Embedding,
                newId: nat -> Uuid, now: nat -> Timestamp)
    returns (r: Result<UpsertPointsCall, RangeError>)
    ensures PyChunks(data, batchSize).Err? ==> r == Err(ZeroStep)
    ensures PyChunks(data, batchSize).Ok? ==>
      r == Ok(UpsertPointsCall(collectionName,
                PointsFor(Embedded(PyChunks(data, batchSize).value, embed), newId, now)))
  {
    var embeddedBatches, _ := GenerateEmbeddings(data, batchSize, embed);
    if embeddedBatches.Err? {
      return Err(embeddedBatches.error);
    }
    var batches := embeddedBatches.value;
    ghost var spec := PointsFor(batches, newId, now);
    var pointData: seq<PointData> := [];
    for i := 0 to |batches|
      invariant pointData == spec[..i]
    {
      var batch := batches[i];
      var timeStamp := now(i);
      pointData := pointData + [PointData(newId(i), batch.embeddings, PointPayload(timeStamp, batch.text))];
    }
    assert pointData == spec;
    assert batches == Embedded(PyChunks(data, batchSize).value, embed);
    r := Ok(UpsertPointsCall(collectionName, pointData));
  }

  /** The embedded batches carry the text batches themselves, in order, so
      their texts concatenate back to the input (the bounds on each batch are
      Chunking.ChunkBounds). */
  lemma EmbeddedTextsAreChunks(text: string, batchSize: nat, embed: string -> Embedding)
    requires batchSize > 0
    ensures Texts(Embedded(Chunks(text, batchSize), embed)) == Chunks(text, batchSize)
    ensures Flatten(Texts(Embedded(Chunks(text, batchSize), embed))) == text
  {
    var batches := Chunks(text, batchSize);
    assert Texts(Embedded(batches, embed)) == batches;
    ChunksFlatten(text, batchSize);
  }

  /** The points handed to _upsert_points carry, in order, exactly the text
      batches: their payload texts concatenate back to the upserted text, and
      each point keeps its batch's embedding. An empty text gives no points. */
  lemma UpsertPointsCoverText(data: string, batchSize: nat, embed: string -> Embedding,
                               newId: nat -> Uuid, now: nat -> Timestamp)
    requires batchSize > 0
    ensures var points := PointsFor(Embedded(Chunks(data, batchSize), embed), newId, now);
      && PayloadTexts(points) == Chunks(data, batchSize)
      && Flatten(PayloadTexts(points)) == data
      && (forall i :: 0 <= i < |points| ==>
            && points[i].embeddings == embed(points[i].payload.text)
            && points[i].id == newId(i)
            && points[i].payload.timestamp == now(i))
      && (points == [] <==> data == [])
  {
    var batches := Chunks(data, batchSize);
    var points := PointsFor(Embedded(batches, embed), newId, now);
    assert PayloadTexts(points) == batches;
    ChunksFlatten(data, batchSize);
    ChunksCount(data, batchSize);
  }
}
