/**
 * The test-index loader: a SAX content handler that turns every `row`
 * element of a Stack Exchange `Posts.xml` dump into two bulk lines, an
 * `index` action and the post's indexed fields, and posts them in batches of
 * 2000 lines, the remainder when `posts` closes.
 *
 * The POST to the bulk endpoint is the append to `sent`. The ghost `rows`
 * records every line the handler has produced, so that the invariant
 * "what was sent, then what is pending, is every line in order" can be
 * stated and kept.
 */
module PostLoader {
  import opened Json
  import opened Text
  import opened Batching

  const IndexName: string := "music"
  const IndexType: string := "post"
  const IndexFields: seq<string> := ["Body", "Title", "CreationDate", "Score", "ViewCount", "AnswerCount", "CommentCount", "FavoriteCount"]
  const BatchSize: nat := 2000

  /** `{"index": {"_index": "music", "_type": "post", "_id": id}}`. */
  function Action(id: string): Json
  {
    JObj(map["index" := JObj(map["_index" := JStr(IndexName), "_type" := JStr(IndexType), "_id" := JStr(id)])])
  }

  /** The lower-cased names of the first `n` indexed fields that the row carries. */
  ghost function Carried(attrs: map<string, string>, n: nat): set<string>
    requires n <= |IndexFields|
  {
    if n == 0 then {}
    else Carried(attrs, n - 1) + (if IndexFields[n - 1] in attrs then {Lower(IndexFields[n - 1])} else {})
  }

  /** No two indexed fields fold to the same key. */
  lemma LoweredDistinct(i: nat, j: nat)
    requires i < j < |IndexFields|
    ensures Lower(IndexFields[i]) != Lower(IndexFields[j])
  {
    var a, b := IndexFields[i], IndexFields[j];
    if |a| == |b| {
      if a == "Title" {
        assert Lower(a)[0] == 't' && Lower(b)[0] == 's';
      } else {
        assert Lower(a)[1] == 'r' && Lower(b)[1] == 'o';
      }
    }
  }

  /**
   * The dict comprehension over the first `n` indexed fields: the field's
   * lower-cased name maps to the row's attribute, for exactly the fields the
   * row carries.
   */
  function BodyFields(attrs: map<string, string>, n: nat): (r: map<string, Json>)
    requires n <= |IndexFields|
    ensures r.Keys == Carried(attrs, n)
    ensures forall i :: 0 <= i < n ==> (Lower(IndexFields[i]) in r <==> IndexFields[i] in attrs)
    ensures forall i :: 0 <= i < n && IndexFields[i] in attrs ==> r[Lower(IndexFields[i])] == JStr(attrs[IndexFields[i]])
  {
    if n == 0 then map[]
    else
      var r := BodyFields(attrs, n - 1);
      var f := IndexFields[n - 1];
      forall i | 0 <= i < n - 1
        ensures Lower(IndexFields[i]) != Lower(f)
      {
        LoweredDistinct(i, n - 1);
      }
      assert Lower(f) !in r by {
        if Lower(f) in r {
          var j := CarriedFrom(attrs, n - 1, Lower(f));
        }
      }
      if f in attrs then r[Lower(f) := JStr(attrs[f])] else r
  }

  /** The body line of a row: its indexed fields under lower-cased names. */
  function Body(attrs: map<string, string>): Json
  {
    JObj(BodyFields(attrs, |IndexFields|))
  }

  /** The two lines a row contributes, action first. */
  function RowLines(attrs: map<string, string>): seq<Json>
    requires "Id" in attrs
  {
    [Action(attrs["Id"]), Body(attrs)]
  }

  /** A key of the body is the lower-cased name of an indexed field the row carries; no other attribute is kept. */
  lemma {:induction false} CarriedFrom(attrs: map<string, string>, n: nat, k: string) returns (i: nat)
    requires n <= |IndexFields| && k in Carried(attrs, n)
    ensures i < n && IndexFields[i] in attrs && k == Lower(IndexFields[i])
  {
    if k in Carried(attrs, n - 1) {
      i := CarriedFrom(attrs, n - 1, k);
    } else {
      i := n - 1;
    }
  }

  /** A key of the body is the lower-cased name of an indexed field the row carries; no other attribute is kept. */
  lemma BodyKeys(attrs: map<string, string>, k: string) returns (i: nat)
    requires k in Body(attrs).fields
    ensures i < |IndexFields| && IndexFields[i] in attrs && k == Lower(IndexFields[i])
  {
    i := CarriedFrom(attrs, |IndexFields|, k);
  }

  class StreamHandler {
    /** The lines not posted yet. */
    var batch: seq<Json>
    /** The batches posted, in order. */
    var sent: seq<seq<Json>>
    /** Every line produced so far, in order. */
    ghost var rows: seq<Json>

    /** Sent lines, then pending lines, are all lines; both are whole rows and no batch exceeds the batch size. */
    ghost predicate Logged()
      reads this
    {
      && Flatten(sent) + batch == rows
      && |batch| <= BatchSize && |batch| % 2 == 0
      && forall i :: 0 <= i < |sent| ==> |sent[i]| <= BatchSize && |sent[i]| % 2 == 0
    }

    /** The state between two events: the batch is below the flush size. */
    ghost predicate Valid()
      reads this
    {
      Logged() && |batch| < BatchSize
    }

    /** Only full batches have been sent so far (`posts` has not closed early). */
    ghost predicate Streaming()
      reads this
    {
      forall i :: 0 <= i < |sent| ==> |sent[i]| == BatchSize
    }

    constructor ()
      ensures batch == [] && sent == [] && rows == []
      ensures Valid() && Streaming()
    {
      batch := [];
      sent := [];
      rows := [];
    }

    /**
     * `startElement(name, attrs)`. A `row` appends its action and body and
     * posts the batch when it reaches 2000 lines; a `row` without `Id`
     * fails (`ok` false) before anything is appended; any other element
     * changes nothing.
     */
    method StartElement(name: string, attrs: map<string, string>) returns (ok: bool)
      requires Valid()
      modifies this
      ensures Valid()
      ensures ok <==> name != "row" || "Id" in attrs
      ensures name != "row" || !ok ==> batch == old(batch) && sent == old(sent) && rows == old(rows)
      ensures name == "row" && ok ==> rows == old(rows) + RowLines(attrs)
      ensures name == "row" && ok ==>
        if |old(batch)| + 2 == BatchSize then sent == old(sent) + [old(batch) + RowLines(attrs)] && batch == []
        else sent == old(sent) && batch == old(batch) + RowLines(attrs)
      ensures old(Streaming()) ==> Streaming()
    {
      if name != "row" {
        return true;
      }
      if "Id" !in attrs {
        return false;
      }
      batch := batch + [Action(attrs["Id"])];
      batch := batch + [Body(attrs)];
      rows := rows + RowLines(attrs);
      assert batch == old(batch) + RowLines(attrs);
      if |batch| == BatchSize {
        IndexBatch();
      }
      ok := true;
    }

    /** `endElement(name)`: closing `posts` posts what is pending, if anything; every other tag changes nothing. */
    method EndElement(name: string)
      requires Valid()
      modifies this
      ensures Valid()
      ensures rows == old(rows)
      ensures if name == "posts" && |old(batch)| > 0 then sent == old(sent) + [old(batch)] && batch == []
              else sent == old(sent) && batch == old(batch)
      ensures name == "posts" && old(Streaming()) ==> sent == Chunks(rows, BatchSize)
    {
      if name == "posts" && old(Streaming()) {
        ChunksOfFull(sent, batch, BatchSize);
      }
      if name == "posts" && |batch| > 0 {
        IndexBatch();
      }
    }

    /** `indexBatch()`: the pending lines are posted as one batch, in order, and the batch is emptied. */
    method IndexBatch()
      requires Logged()
      modifies this
      ensures Valid()
      ensures sent == old(sent) + [old(batch)] && batch == [] && rows == old(rows)
      ensures old(Streaming()) && |old(batch)| == BatchSize ==> Streaming()
    {
      FlattenAppend(sent, batch);
      sent := sent + [batch];
      batch := [];
    }

    /**
     * Mid-stream, the batches sent and the pending batch are exactly the
     * lines so far cut into chunks of 2000.
     */
    lemma PendingChunks()
      requires Valid() && Streaming()
      ensures Chunks(rows, BatchSize) == sent + (if batch == [] then [] else [batch])
    {
      ChunksOfFull(sent, batch, BatchSize);
    }
  }
}
