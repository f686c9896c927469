/**
 * `create_suggestion_index`: every shingle record becomes two bulk lines, an
 * `index` action whose `_id` is the record's position and the suggestion
 * document itself; the lines are sent in batches of 100 lines (50 records),
 * and a non-empty remainder is sent at the end.
 *
 * The lines are kept as JSON values (what `json.dumps` serialises). The order
 * of `itervalues()` is the order of the `records` sequence, and
 * `metadata.values()` lists the metadata dicts in ascending key order.
 */
module IndexWriter {
  import opened Json
  import opened Aggregator
  import opened Batching

  /** `len(batch) == 100` triggers `index_batch`. */
  const BatchLines: nat := 100

  /** `{"index": {"_index": index, "_type": "suggestion", "_id": id}}`. */
  function Action(index: string, id: nat): Json
  {
    JObj(map["index" := JObj(map["_index" := JStr(index), "_type" := JStr("suggestion"), "_id" := JInt(id)])])
  }

  /** A non-empty set of keys has a smallest element. */
  lemma SmallestKey(keys: set<int>)
    requires keys != {}
    ensures exists k :: k in keys && forall j :: j in keys ==> k <= j
  {
    if forall y :: y !in keys {
      assert false;
    }
    var x :| x in keys;
    if keys == {x} {
      assert forall j :: j in keys ==> j == x;
    } else {
      SmallestKey(keys - {x});
      var k :| k in keys - {x} && forall j :: j in keys - {x} ==> k <= j;
      assert forall j :: j in keys ==> j == x || j in keys - {x};
      if x < k {
        assert forall j :: j in keys ==> x <= j;
      } else {
        assert k in keys;
      }
    }
  }

  /** The smallest key of a non-empty metadata map. */
  function FirstKey(md: map<int, Metadata>): (k: int)
    requires md != map[]
    ensures k in md && forall j :: j in md ==> k <= j
  {
    SmallestKey(md.Keys);
    var k :| k in md.Keys && forall j :: j in md.Keys ==> k <= j;
    k
  }

  /** `metadata.values()`, listed in ascending key order. */
  function MetadataValues(md: map<int, Metadata>): (r: seq<Metadata>)
    ensures |r| == |md|
    decreases |md|
  {
    if md == map[] then []
    else
      var k := FirstKey(md);
      assert (md - {k}).Keys == md.Keys - {k};
      [md[k]] + MetadataValues(md - {k})
  }

  /** `metadata.values()` holds exactly the dicts filed in the record, one entry per key. */
  lemma {:induction false} MetadataValuesListed(md: map<int, Metadata>)
    ensures |MetadataValues(md)| == |md|
    ensures forall x :: x in MetadataValues(md) <==> x in md.Values
    decreases |md|
  {
    if md != map[] {
      var k := FirstKey(md);
      var rest := md - {k};
      assert rest.Keys == md.Keys - {k};
      MetadataValuesListed(rest);
      assert MetadataValues(md) == [md[k]] + MetadataValues(rest);
      forall x ensures x in md.Values <==> x == md[k] || x in rest.Values {
        if x in md.Values {
          var j :| j in md && md[j] == x;
          if j != k {
            assert rest[j] == x;
          }
        }
        if x in rest.Values {
          var j :| j in rest && rest[j] == x;
          assert md[j] == x;
        }
      }
    }
  }

  /** The suggestion document of one record; `meta` lists its metadata dicts. */
  function Document(r: Record): Json
  {
    var metas := MetadataValues(r.metadata);
    JObj(map[
      "suggestion" := JStr(r.shingle),
      "freq" := JInt(r.freq),
      "length" := JInt(r.length),
      "meta" := JArr(seq(|metas|, i requires 0 <= i < |metas| => JObj(metas[i])))])
  }

  /**
   * The document carries the record's shingle, frequency and length, and its
   * `meta` list holds one object per filed metadata entry and nothing else.
   */
  lemma DocumentOf(r: Record)
    ensures Document(r).JObj? && Document(r).fields.Keys == {"suggestion", "freq", "length", "meta"}
    ensures Document(r).fields["suggestion"] == JStr(r.shingle)
    ensures Document(r).fields["freq"] == JInt(r.freq) && Document(r).fields["length"] == JInt(r.length)
    ensures Document(r).fields["meta"].JArr? && |Document(r).fields["meta"].items| == |r.metadata|
    ensures forall md :: JObj(md) in Document(r).fields["meta"].items <==> md in r.metadata.Values
  {
    var metas := MetadataValues(r.metadata);
    MetadataValuesListed(r.metadata);
    var items := Document(r).fields["meta"].items;
    forall md ensures JObj(md) in items <==> md in r.metadata.Values {
      if JObj(md) in items {
        var i :| 0 <= i < |items| && items[i] == JObj(md);
        assert metas[i] == md;
      }
      if md in r.metadata.Values {
        var i :| 0 <= i < |metas| && metas[i] == md;
        assert items[i] == JObj(md);
      }
    }
  }

  /** The suggestion documents of the records, in `itervalues()` order. */
  function Documents(records: seq<Record>): seq<Json>
  {
    seq(|records|, i requires 0 <= i < |records| => Document(records[i]))
  }

  /** The lines of the first `n` documents, two per record, in order. */
  function Lines(docs: seq<Json>, n: nat, index: string): seq<Json>
    requires n <= |docs|
  {
    if n == 0 then [] else Lines(docs, n - 1, index) + [Action(index, n - 1), docs[n - 1]]
  }

  lemma {:induction false} LinesLength(docs: seq<Json>, n: nat, index: string)
    requires n <= |docs|
    ensures |Lines(docs, n, index)| == 2 * n
  {
    if n > 0 {
      LinesLength(docs, n - 1, index);
    }
  }

  /** Line `2 i` is the action of record `i`, with `_id` `i`; line `2 i + 1` is its document. */
  lemma {:induction false} LinesAt(docs: seq<Json>, n: nat, index: string, i: nat)
    requires i < n <= |docs|
    ensures |Lines(docs, n, index)| == 2 * n
    ensures Lines(docs, n, index)[2 * i] == Action(index, i)
    ensures Lines(docs, n, index)[2 * i + 1] == docs[i]
  {
    LinesLength(docs, n, index);
    LinesLength(docs, n - 1, index);
    if i < n - 1 {
      LinesAt(docs, n - 1, index, i);
    }
  }

  /**
   * The batches `index_batch` receives, in order: the lines cut into chunks
   * of 100, the last one shorter when 50 does not divide the record count.
   */
  method CreateSuggestionIndex(records: seq<Record>, index: string) returns (sent: seq<seq<Json>>)
    ensures sent == Chunks(Lines(Documents(records), |records|, index), BatchLines)
  {
    ghost var docs := Documents(records);
    sent := [];
    var batch: seq<Json> := [];
    for id := 0 to |records|
      invariant Flatten(sent) + batch == Lines(docs, id, index)
      invariant |batch| < BatchLines && |batch| % 2 == 0
      invariant forall i :: 0 <= i < |sent| ==> |sent[i]| == BatchLines
    {
      var doc := Document(records[id]);
      assert doc == docs[id];
      sent, batch := AddRecord(sent, batch, index, id, doc);
    }
    ChunksOfFull(sent, batch, BatchLines);
    if |batch| > 0 {
      sent := sent + [batch];
    }
  }

  /** One iteration: append the record's action and document, and send the batch once it holds 100 lines. */
  method AddRecord(sent: seq<seq<Json>>, batch: seq<Json>, index: string, id: nat, doc: Json) returns (sent': seq<seq<Json>>, batch': seq<Json>)
    requires |batch| < BatchLines && |batch| % 2 == 0
    requires forall i :: 0 <= i < |sent| ==> |sent[i]| == BatchLines
    ensures Flatten(sent') + batch' == Flatten(sent) + batch + [Action(index, id), doc]
    ensures |batch'| < BatchLines && |batch'| % 2 == 0
    ensures forall i :: 0 <= i < |sent'| ==> |sent'[i]| == BatchLines
  {
    sent' := sent;
    batch' := batch + [Action(index, id)];
    batch' := batch' + [doc];
    assert batch' == batch + [Action(index, id), doc];
    if |batch'| == BatchLines {
      FlattenAppend(sent', batch');
      sent' := sent' + [batch'];
      batch' := [];
    }
  }

  /** Cutting an even number of lines into even-sized chunks keeps every chunk even. */
  lemma {:induction false} ChunksEven<T>(xs: seq<T>, k: nat)
    requires 0 < k && k % 2 == 0 && |xs| % 2 == 0
    ensures forall i :: 0 <= i < |Chunks(xs, k)| ==> |Chunks(xs, k)[i]| % 2 == 0
    decreases |xs|
  {
    if |xs| > k {
      ChunksEven(xs[k..], k);
    }
  }

  /**
   * What the batches sent promise: together they are all the lines in order;
   * none is empty; all but the last hold exactly 100 lines; and no record's
   * action is separated from its document.
   */
  lemma SentBatches(docs: seq<Json>, index: string)
    ensures Flatten(Chunks(Lines(docs, |docs|, index), BatchLines)) == Lines(docs, |docs|, index)
    ensures forall i :: 0 <= i < |Chunks(Lines(docs, |docs|, index), BatchLines)| ==>
              0 < |Chunks(Lines(docs, |docs|, index), BatchLines)[i]| <= BatchLines
              && |Chunks(Lines(docs, |docs|, index), BatchLines)[i]| % 2 == 0
    ensures forall i :: 0 <= i < |Chunks(Lines(docs, |docs|, index), BatchLines)| - 1 ==>
              |Chunks(Lines(docs, |docs|, index), BatchLines)[i]| == BatchLines
  {
    var lines := Lines(docs, |docs|, index);
    LinesLength(docs, |docs|, index);
    FlattenChunks(lines, BatchLines);
    ChunkSizes(lines, BatchLines);
    ChunksEven(lines, BatchLines);
  }
}
