/**
 * Aggregation of shingles over the documents of the source index
 * (`ShingleData`, `process_documents`): every shingle of the lower-cased,
 * HTML-stripped body and title of a document adds its count to the shingle's
 * record, and the document's metadata is filed under its key unless a
 * metadata dict with the same key is already there.
 *
 * The key of a metadata dict (`hash(json.dumps(metadata, sort_keys=True))`)
 * and `stripHTML` are parameters: the model assumes nothing about them.
 */
module Aggregator {
  import opened Json
  import opened Text
  import opened Shingles

  /** The metadata dict of one document: field name to its (truthy) value. */
  type Metadata = map<string, Json>

  /** The state of one `ShingleData` object. */
  datatype Record = Record(shingle: string, length: nat, freq: nat, metadata: map<int, Metadata>)

  const TextFields: seq<string> := ["body", "title"]
  const MetaFields: seq<string> := ["viewcount", "answercount"]

  /** A record as `ShingleData(shingle)` creates it. */
  function NewRecord(s: string): (r: Record)
    ensures r.shingle == s && r.length == |s| && r.freq == 0 && r.metadata == map[]
  {
    Record(s, |s|, 0, map[])
  }

  /**
   * `update(freq, metadata)`: the frequency grows by `f`; the metadata is
   * filed under its key only when that key is still free (`setdefault`).
   */
  function Updated(r: Record, f: nat, md: Metadata, k: int): (u: Record)
  {
    Record(r.shingle, r.length, r.freq + f, if k in r.metadata then r.metadata else r.metadata[k := md])
  }

  class ShingleData {
    var shingle: string
    var length: nat
    var freq: nat
    var metadata: map<int, Metadata>

    function Snapshot(): Record
      reads this
    {
      Record(shingle, length, freq, metadata)
    }

    constructor (s: string)
      ensures Snapshot() == NewRecord(s)
    {
      shingle := s;
      length := |s|;
      freq := 0;
      metadata := map[];
    }

    method Update(f: nat, md: Metadata, key: Metadata -> int)
      modifies this
      ensures Snapshot() == Updated(old(Snapshot()), f, md, key(md))
    {
      freq := freq + f;
      var k := key(md);
      if k !in metadata {
        metadata := metadata[k := md];
      }
    }
  }

  /**
   * `update(f, md)` never touches `shingle` or `length`, adds exactly `f` to
   * the frequency, and files `md` under `k` only when `k` is free: an entry
   * already there is never overwritten.
   */
  lemma UpdatedKeeps(r: Record, f: nat, md: Metadata, k: int)
    ensures Updated(r, f, md, k).shingle == r.shingle && Updated(r, f, md, k).length == r.length
    ensures Updated(r, f, md, k).freq == r.freq + f
    ensures Updated(r, f, md, k).metadata.Keys == r.metadata.Keys + {k}
    ensures forall j :: j in r.metadata ==> Updated(r, f, md, k).metadata[j] == r.metadata[j]
    ensures k !in r.metadata ==> Updated(r, f, md, k).metadata[k] == md
  {
  }

  /** Updating twice with the same metadata files it once: the metadata map does not grow the second time. */
  lemma UpdatedTwice(r: Record, f: nat, g: nat, md: Metadata, k: int)
    ensures Updated(Updated(r, f, md, k), g, md, k).metadata == Updated(r, f, md, k).metadata
    ensures |Updated(Updated(r, f, md, k), g, md, k).metadata| == |Updated(r, f, md, k).metadata|
    ensures Updated(Updated(r, f, md, k), g, md, k).freq == r.freq + f + g
  {
  }

  // ------------------------------------------------------------ documents

  /**
   * What `process_documents` needs of a hit to run without an exception:
   * `doc["_source"]` is a dict, and every text field it holds is a string
   * (`.lower()` is called on it).
   */
  predicate DocOk(doc: Json)
  {
    && doc.JObj? && "_source" in doc.fields && doc.fields["_source"].JObj?
    && forall f :: f in TextFields && f in doc.fields["_source"].fields ==> doc.fields["_source"].fields[f].JStr?
  }

  /** `doc['_source']`; a hit without one reads as an empty dict here, where the source raises. */
  function Source(doc: Json): map<string, Json>
  {
    if doc.JObj? && "_source" in doc.fields && doc.fields["_source"].JObj? then doc.fields["_source"].fields else map[]
  }

  /** `{field: source.get(field) for field in META_FIELDS if source.get(field)}`. */
  function MetadataOf(source: map<string, Json>): Metadata
  {
    map f | f in MetaFields && f in source && Truthy(source[f]) :: source[f]
  }

  /** `stripHTML(source.get(field, '').lower())`. */
  function FieldText(source: map<string, Json>, field: string, strip: string -> string): string
  {
    strip(Lower(if field in source && source[field].JStr? then source[field].s else ""))
  }

  /**
   * What the loop body of `process_documents` takes from one hit: its
   * metadata dict and its normalised text fields, in the order of TEXT_FIELDS.
   */
  datatype Hit = Hit(md: Metadata, texts: seq<string>)

  function Digest(doc: Json, strip: string -> string): (h: Hit)
    ensures |h.texts| == |TextFields|
  {
    var source := Source(doc);
    Hit(MetadataOf(source), [FieldText(source, TextFields[0], strip), FieldText(source, TextFields[1], strip)])
  }

  function Digests(docs: seq<Json>, strip: string -> string): (hs: seq<Hit>)
    ensures |hs| == |docs|
  {
    seq(|docs|, i requires 0 <= i < |docs| => Digest(docs[i], strip))
  }

  /**
   * The metadata keeps exactly the META_FIELDS whose value is truthy, so a
   * count of 0 or an empty string is dropped, and nothing else.
   */
  lemma MetadataOfFields(source: map<string, Json>)
    ensures MetadataOf(source).Keys <= {"viewcount", "answercount"}
    ensures forall f :: f in MetadataOf(source) <==> f in MetaFields && f in source && Truthy(source[f])
    ensures forall f :: f in MetadataOf(source) ==> MetadataOf(source)[f] == source[f]
    ensures "viewcount" in source && source["viewcount"] == JInt(0) ==> "viewcount" !in MetadataOf(source)
  {
  }

  /** A text field that the hit's `_source` lacks is read as the empty text (`source.get(field, '')`). */
  lemma MissingFieldIsEmpty(doc: Json, strip: string -> string, f: nat)
    requires DocOk(doc)
    requires f < |TextFields| && TextFields[f] !in doc.fields["_source"].fields
    ensures Digest(doc, strip).texts[f] == strip("")
  {
  }

  /** `get_shingles` with a fixed stopword set, as a function of the text. */
  function Shingler(stopwords: set<string>): string -> map<string, nat>
  {
    t => ShingleCounts(t, stopwords)
  }

  /** Every count `get_shingles` returns is at least 1. */
  lemma ShinglerPositive(stopwords: set<string>)
    ensures forall t :: Positive(Shingler(stopwords)(t))
  {
    forall t {
      ShingleCountsPositive(t, stopwords);
    }
  }

  // ------------------------------------------------------- the table, as values

  /** `shingle_data.get(s)`, or the record a fresh `ShingleData(s)` starts from. */
  function Entry(v: map<string, Record>, s: string): Record
  {
    if s in v then v[s] else NewRecord(s)
  }

  /**
   * One `for shin, freq in counts.iteritems()` loop: each counted shingle's
   * record is updated once, the other records are left alone. Each shingle is
   * visited once, so the order of the dict does not matter.
   */
  function AddCounts(v: map<string, Record>, counts: map<string, nat>, md: Metadata, k: int): (r: map<string, Record>)
    ensures r.Keys == v.Keys + counts.Keys
  {
    map s | s in v.Keys + counts.Keys :: if s in counts then Updated(Entry(v, s), counts[s], md, k) else v[s]
  }

  /** The first `n` text fields of one hit, each counted by `shingles`, with the hit's metadata filed under `k`. */
  function AddTexts(v: map<string, Record>, texts: seq<string>, n: nat, shingles: string -> map<string, nat>, md: Metadata, k: int): map<string, Record>
    requires n <= |texts|
  {
    if n == 0 then v
    else AddCounts(AddTexts(v, texts, n - 1, shingles, md, k), shingles(texts[n - 1]), md, k)
  }

  /** One iteration of `for doc in docs`. */
  function AddHit(v: map<string, Record>, h: Hit, shingles: string -> map<string, nat>, key: Metadata -> int): map<string, Record>
  {
    AddTexts(v, h.texts, |h.texts|, shingles, h.md, key(h.md))
  }

  /** The first `n` hits, in order. */
  function AddHits(v: map<string, Record>, hits: seq<Hit>, n: nat, shingles: string -> map<string, nat>, key: Metadata -> int): map<string, Record>
    requires n <= |hits|
  {
    if n == 0 then v
    else AddHit(AddHits(v, hits, n - 1, shingles, key), hits[n - 1], shingles, key)
  }

  // ------------------------------------------------------ the table, in place

  /**
   * The `shingle_data` dict: shingle text to its `ShingleData` object. The
   * ghost field `view` is the dict's content as values.
   */
  class ShingleTable {
    var records: map<string, ShingleData>
    ghost var view: map<string, Record>
    /** The `ShingleData` objects the table owns. */
    ghost var Repr: set<ShingleData>

    /**
     * Every object sits under its own shingle, so no two keys share an
     * object, and `view` is what the objects hold.
     */
    ghost predicate Valid()
      reads this, Repr
    {
      && records.Keys == view.Keys
      && forall s :: s in records ==> records[s] in Repr && records[s].shingle == s && records[s].Snapshot() == view[s]
    }

    constructor ()
      ensures Valid() && view == map[]
    {
      records := map[];
      view := map[];
      Repr := {};
    }

    /** `shingle_data.setdefault(s, ShingleData(s)).update(f, md)`. */
    method Add(s: string, f: nat, md: Metadata, key: Metadata -> int)
      requires Valid()
      modifies this, Repr
      ensures Valid()
      ensures fresh(Repr - old(Repr))
      ensures view == old(view)[s := Updated(Entry(old(view), s), f, md, key(md))]
    {
      var d: ShingleData;
      if s in records {
        d := records[s];
      } else {
        d := new ShingleData(s);
        records := records[s := d];
        Repr := Repr + {d};
      }
      d.Update(f, md, key);
      view := view[s := Updated(Entry(view, s), f, md, key(md))];
      forall t | t in records && t != s
        ensures records[t].shingle == t && records[t].Snapshot() == view[t]
      {
        assert records[t] != d;
      }
    }

    /** The `for shin, freq in get_shingles(text).iteritems()` loop. */
    method AddAll(counts: map<string, nat>, md: Metadata, key: Metadata -> int)
      requires Valid()
      modifies this, Repr
      ensures Valid()
      ensures fresh(Repr - old(Repr))
      ensures view == AddCounts(old(view), counts, md, key(md))
    {
      ghost var done: set<string> := {};
      var todo := counts.Keys;
      while todo != {}
        invariant done !! todo && done + todo == counts.Keys
        invariant Valid()
        invariant fresh(Repr - old(Repr))
        invariant PartlyAdded(view, old(view), counts, done, md, key(md))
        decreases todo
      {
        var s :| s in todo;
        ghost var before := view;
        Add(s, counts[s], md, key);
        PartlyAddedStep(before, view, old(view), counts, done, s, md, key(md));
        todo := todo - {s};
        done := done + {s};
      }
      PartlyAddedAll(view, old(view), counts, done, md, key(md));
    }

    /** One iteration of the `for doc in docs` loop: both text fields of one hit. */
    method AddDocumentFields(doc: Json, stopwords: set<string>, strip: string -> string, key: Metadata -> int)
      requires Valid() && DocOk(doc)
      modifies this, Repr
      ensures Valid()
      ensures fresh(Repr - old(Repr))
      ensures view == AddHit(old(view), Digest(doc, strip), Shingler(stopwords), key)
    {
      var source := doc.fields["_source"].fields;
      var md := MetadataOf(source);
      ghost var h := Digest(doc, strip);
      for field := 0 to |TextFields|
        invariant Valid()
        invariant fresh(Repr - old(Repr))
        invariant view == AddTexts(old(view), h.texts, field, Shingler(stopwords), md, key(md))
      {
        var name := TextFields[field];
        var text := strip(Lower(if name in source then source[name].s else ""));
        assert text == h.texts[field];
        var counts := GetShingles(text, stopwords);
        AddAll(counts, md, key);
      }
    }

    /** `process_documents(docs, shingle_data)`, with the stopwords, `stripHTML` and the metadata key as parameters. */
    method ProcessDocuments(docs: seq<Json>, stopwords: set<string>, strip: string -> string, key: Metadata -> int)
      requires Valid()
      requires forall doc :: doc in docs ==> DocOk(doc)
      modifies this, Repr
      ensures Valid()
      ensures fresh(Repr - old(Repr))
      ensures view == AddHits(old(view), Digests(docs, strip), |docs|, Shingler(stopwords), key)
    {
      for n := 0 to |docs|
        invariant Valid()
        invariant fresh(Repr - old(Repr))
        invariant view == AddHits(old(view), Digests(docs, strip), n, Shingler(stopwords), key)
      {
        AddNext(docs, n, stopwords, strip, key, old(view));
      }
    }

    /** Hit `n` of `docs` on top of the first `n`. */
    method AddNext(docs: seq<Json>, n: nat, stopwords: set<string>, strip: string -> string, key: Metadata -> int, ghost v: map<string, Record>)
      requires n < |docs| && forall doc :: doc in docs ==> DocOk(doc)
      requires Valid() && view == AddHits(v, Digests(docs, strip), n, Shingler(stopwords), key)
      modifies this, Repr
      ensures Valid()
      ensures fresh(Repr - old(Repr))
      ensures view == AddHits(v, Digests(docs, strip), n + 1, Shingler(stopwords), key)
    {
      assert docs[n] in docs;
      AddDocumentFields(docs[n], stopwords, strip, key);
    }
  }

  /** The shingles in `done` have been added to `v`, the others not yet. */
  ghost predicate PartlyAdded(view: map<string, Record>, v: map<string, Record>, counts: map<string, nat>, done: set<string>, md: Metadata, k: int)
  {
    && done <= counts.Keys
    && view.Keys == v.Keys + done
    && (forall t :: t in done ==> view[t] == Updated(Entry(v, t), counts[t], md, k))
    && (forall t :: t in v && t !in done ==> view[t] == v[t])
  }

  /** One more shingle of the `iteritems()` loop. */
  lemma PartlyAddedStep(before: map<string, Record>, after: map<string, Record>, v: map<string, Record>, counts: map<string, nat>,
                        done: set<string>, s: string, md: Metadata, k: int)
    requires PartlyAdded(before, v, counts, done, md, k)
    requires s in counts && s !in done
    requires after == before[s := Updated(Entry(before, s), counts[s], md, k)]
    ensures PartlyAdded(after, v, counts, done + {s}, md, k)
  {
    assert Entry(before, s) == Entry(v, s);
  }

  /** When every shingle is done, the table is `AddCounts` of the old one. */
  lemma PartlyAddedAll(view: map<string, Record>, v: map<string, Record>, counts: map<string, nat>, done: set<string>, md: Metadata, k: int)
    requires PartlyAdded(view, v, counts, done, md, k) && done == counts.Keys
    ensures view == AddCounts(v, counts, md, k)
  {
    var expected := AddCounts(v, counts, md, k);
    assert forall t :: t in view ==> view[t] == expected[t];
  }

  // ------------------------------------------------------ what the fold promises

  /**
   * One `counts` loop, seen from one shingle: a counted shingle's record
   * (a fresh one on first sight) is updated with its count, any other is
   * left as it was.
   */
  lemma AddCountsEntry(v: map<string, Record>, counts: map<string, nat>, md: Metadata, k: int, s: string)
    ensures Entry(AddCounts(v, counts, md, k), s) == if s in counts then Updated(Entry(v, s), counts[s], md, k) else Entry(v, s)
  {
  }

  /** How often `s` occurs among the shingles of the first `n` texts. */
  ghost function TextOccurrences(texts: seq<string>, n: nat, s: string, shingles: string -> map<string, nat>): nat
    requires n <= |texts|
  {
    if n == 0 then 0 else TextOccurrences(texts, n - 1, s, shingles) + CountOf(shingles(texts[n - 1]), s)
  }

  /** How often `s` occurs among the shingles of all text fields of the first `n` hits. */
  ghost function Occurrences(hits: seq<Hit>, n: nat, s: string, shingles: string -> map<string, nat>): nat
    requires n <= |hits|
  {
    if n == 0 then 0 else Occurrences(hits, n - 1, s, shingles) + TextOccurrences(hits[n - 1].texts, |hits[n - 1].texts|, s, shingles)
  }

  lemma {:induction false} AddTextsFreq(v: map<string, Record>, texts: seq<string>, n: nat, shingles: string -> map<string, nat>, md: Metadata, k: int, s: string)
    requires n <= |texts|
    ensures Entry(AddTexts(v, texts, n, shingles, md, k), s).freq == Entry(v, s).freq + TextOccurrences(texts, n, s, shingles)
  {
    if n > 0 {
      AddTextsFreq(v, texts, n - 1, shingles, md, k, s);
      AddCountsEntry(AddTexts(v, texts, n - 1, shingles, md, k), shingles(texts[n - 1]), md, k, s);
    }
  }

  /**
   * Frequencies are sums: after the first `n` hits a shingle's freq is what it
   * was plus its count in every text field of every one of those hits.
   */
  lemma {:induction false} AddHitsFreq(v: map<string, Record>, hits: seq<Hit>, n: nat, shingles: string -> map<string, nat>, key: Metadata -> int, s: string)
    requires n <= |hits|
    ensures Entry(AddHits(v, hits, n, shingles, key), s).freq == Entry(v, s).freq + Occurrences(hits, n, s, shingles)
  {
    if n > 0 {
      var h := hits[n - 1];
      AddHitsFreq(v, hits, n - 1, shingles, key, s);
      AddTextsFreq(AddHits(v, hits, n - 1, shingles, key), h.texts, |h.texts|, shingles, h.md, key(h.md), s);
    }
  }

  /** `shingles` counts every shingle it returns at least once, as `get_shingles` does. */
  ghost predicate Counting(shingles: string -> map<string, nat>)
  {
    forall t :: Positive(shingles(t))
  }

  lemma {:induction false} AddTextsKeys(v: map<string, Record>, texts: seq<string>, n: nat, shingles: string -> map<string, nat>, md: Metadata, k: int, s: string)
    requires n <= |texts| && Counting(shingles)
    ensures s in AddTexts(v, texts, n, shingles, md, k) <==> s in v || TextOccurrences(texts, n, s, shingles) > 0
  {
    if n > 0 {
      AddTextsKeys(v, texts, n - 1, shingles, md, k, s);
      assert Positive(shingles(texts[n - 1]));
    }
  }

  /**
   * The table holds a record for a shingle exactly when it had one before or
   * some text field of one of the first `n` hits produces it.
   */
  lemma {:induction false} AddHitsKeys(v: map<string, Record>, hits: seq<Hit>, n: nat, shingles: string -> map<string, nat>, key: Metadata -> int, s: string)
    requires n <= |hits| && Counting(shingles)
    ensures s in AddHits(v, hits, n, shingles, key) <==> s in v || Occurrences(hits, n, s, shingles) > 0
  {
    if n > 0 {
      var h := hits[n - 1];
      AddHitsKeys(v, hits, n - 1, shingles, key, s);
      AddTextsKeys(AddHits(v, hits, n - 1, shingles, key), h.texts, |h.texts|, shingles, h.md, key(h.md), s);
    }
  }

  /** Records of shingles that none of the first `n` texts produce are left exactly as they were. */
  lemma {:induction false} AddTextsUntouched(v: map<string, Record>, texts: seq<string>, n: nat, shingles: string -> map<string, nat>, md: Metadata, k: int, s: string)
    requires n <= |texts| && forall f :: 0 <= f < n ==> s !in shingles(texts[f])
    ensures s in AddTexts(v, texts, n, shingles, md, k) <==> s in v
    ensures Entry(AddTexts(v, texts, n, shingles, md, k), s) == Entry(v, s)
  {
    if n > 0 {
      AddTextsUntouched(v, texts, n - 1, shingles, md, k, s);
      assert s !in shingles(texts[n - 1]);
      AddCountsEntry(AddTexts(v, texts, n - 1, shingles, md, k), shingles(texts[n - 1]), md, k, s);
    }
  }

  /** One `counts` loop keeps every filed metadata dict and files `md` under `k` for every counted shingle. */
  lemma AddCountsMetadata(v: map<string, Record>, counts: map<string, nat>, md: Metadata, k: int, s: string, j: int)
    ensures j in Entry(v, s).metadata ==>
              (j in Entry(AddCounts(v, counts, md, k), s).metadata && Entry(AddCounts(v, counts, md, k), s).metadata[j] == Entry(v, s).metadata[j])
    ensures s in counts ==> k in Entry(AddCounts(v, counts, md, k), s).metadata
  {
    AddCountsEntry(v, counts, md, k, s);
  }

  lemma {:induction false} AddTextsKeepsMetadata(v: map<string, Record>, texts: seq<string>, n: nat, shingles: string -> map<string, nat>, md: Metadata, k: int, s: string, j: int)
    requires n <= |texts| && j in Entry(v, s).metadata
    ensures j in Entry(AddTexts(v, texts, n, shingles, md, k), s).metadata
    ensures Entry(AddTexts(v, texts, n, shingles, md, k), s).metadata[j] == Entry(v, s).metadata[j]
  {
    if n > 0 {
      AddTextsKeepsMetadata(v, texts, n - 1, shingles, md, k, s, j);
      AddCountsMetadata(AddTexts(v, texts, n - 1, shingles, md, k), shingles(texts[n - 1]), md, k, s, j);
    }
  }

  /** Metadata once filed under a key is never replaced by a later hit. */
  lemma {:induction false} AddHitsKeepsMetadata(v: map<string, Record>, hits: seq<Hit>, n: nat, shingles: string -> map<string, nat>, key: Metadata -> int, s: string, j: int)
    requires n <= |hits| && j in Entry(v, s).metadata
    ensures j in Entry(AddHits(v, hits, n, shingles, key), s).metadata
    ensures Entry(AddHits(v, hits, n, shingles, key), s).metadata[j] == Entry(v, s).metadata[j]
  {
    if n > 0 {
      var h := hits[n - 1];
      AddHitsKeepsMetadata(v, hits, n - 1, shingles, key, s, j);
      AddTextsKeepsMetadata(AddHits(v, hits, n - 1, shingles, key), h.texts, |h.texts|, shingles, h.md, key(h.md), s, j);
    }
  }

  /** One more text field: a filed key stays filed, and a field that produces `s` files `k`. */
  lemma AddTextsFilesStep(v: map<string, Record>, texts: seq<string>, n: nat, shingles: string -> map<string, nat>, md: Metadata, k: int, s: string)
    requires 0 < n <= |texts|
    ensures k in Entry(AddTexts(v, texts, n - 1, shingles, md, k), s).metadata || s in shingles(texts[n - 1]) ==>
              k in Entry(AddTexts(v, texts, n, shingles, md, k), s).metadata
  {
    AddCountsMetadata(AddTexts(v, texts, n - 1, shingles, md, k), shingles(texts[n - 1]), md, k, s, k);
  }

  lemma {:induction false} AddTextsFiles(v: map<string, Record>, texts: seq<string>, n: nat, shingles: string -> map<string, nat>, md: Metadata, k: int, s: string, f: nat)
    requires f < n <= |texts| && s in shingles(texts[f])
    ensures k in Entry(AddTexts(v, texts, n, shingles, md, k), s).metadata
  {
    if f < n - 1 {
      AddTextsFiles(v, texts, n - 1, shingles, md, k, s, f);
    }
    AddTextsFilesStep(v, texts, n, shingles, md, k, s);
  }

  /** Every hit that produces a shingle has its metadata key in that shingle's record. */
  lemma {:induction false} AddHitsFiles(v: map<string, Record>, hits: seq<Hit>, n: nat, shingles: string -> map<string, nat>, key: Metadata -> int, s: string, i: nat, f: nat)
    requires i < n <= |hits| && f < |hits[i].texts| && s in shingles(hits[i].texts[f])
    ensures key(hits[i].md) in Entry(AddHits(v, hits, n, shingles, key), s).metadata
  {
    var h := hits[n - 1];
    var prev := AddHits(v, hits, n - 1, shingles, key);
    if i == n - 1 {
      AddTextsFiles(prev, h.texts, |h.texts|, shingles, h.md, key(h.md), s, f);
    } else {
      AddHitsFiles(v, hits, n - 1, shingles, key, s, i, f);
      AddTextsKeepsMetadata(prev, h.texts, |h.texts|, shingles, h.md, key(h.md), s, key(hits[i].md));
    }
  }

  /** A metadata key a shingle gains from one more text field is `k`, filed with `md`, and that field produces it. */
  lemma AddTextsFromStep(v: map<string, Record>, texts: seq<string>, n: nat, shingles: string -> map<string, nat>, md: Metadata, k: int, s: string, j: int)
    requires 0 < n <= |texts|
    ensures j in Entry(AddTexts(v, texts, n, shingles, md, k), s).metadata && j !in Entry(AddTexts(v, texts, n - 1, shingles, md, k), s).metadata ==>
              s in shingles(texts[n - 1]) && j == k && Entry(AddTexts(v, texts, n, shingles, md, k), s).metadata[j] == md
  {
    AddCountsEntry(AddTexts(v, texts, n - 1, shingles, md, k), shingles(texts[n - 1]), md, k, s);
  }

  lemma {:induction false} AddTextsFrom(v: map<string, Record>, texts: seq<string>, n: nat, shingles: string -> map<string, nat>, md: Metadata, k: int, s: string, j: int)
    returns (f: nat)
    requires n <= |texts|
    requires j in Entry(AddTexts(v, texts, n, shingles, md, k), s).metadata && j !in Entry(v, s).metadata
    ensures f < n && s in shingles(texts[f]) && j == k && Entry(AddTexts(v, texts, n, shingles, md, k), s).metadata[j] == md
  {
    AddTextsFromStep(v, texts, n, shingles, md, k, s, j);
    if j in Entry(AddTexts(v, texts, n - 1, shingles, md, k), s).metadata {
      f := AddTextsFrom(v, texts, n - 1, shingles, md, k, s, j);
      AddCountsMetadata(AddTexts(v, texts, n - 1, shingles, md, k), shingles(texts[n - 1]), md, k, s, j);
    } else {
      f := n - 1;
    }
  }

  /**
   * Every metadata dict a shingle's record gains comes from a hit that
   * produces the shingle, filed under that hit's key.
   */
  lemma {:induction false} AddHitsFrom(v: map<string, Record>, hits: seq<Hit>, n: nat, shingles: string -> map<string, nat>, key: Metadata -> int, s: string, j: int)
    returns (i: nat, f: nat)
    requires n <= |hits|
    requires j in Entry(AddHits(v, hits, n, shingles, key), s).metadata && j !in Entry(v, s).metadata
    ensures i < n && f < |hits[i].texts| && s in shingles(hits[i].texts[f])
    ensures j == key(hits[i].md) && Entry(AddHits(v, hits, n, shingles, key), s).metadata[j] == hits[i].md
  {
    var h := hits[n - 1];
    var prev := AddHits(v, hits, n - 1, shingles, key);
    if j in Entry(prev, s).metadata {
      i, f := AddHitsFrom(v, hits, n - 1, shingles, key, s, j);
      AddTextsKeepsMetadata(prev, h.texts, |h.texts|, shingles, h.md, key(h.md), s, j);
    } else {
      i := n - 1;
      f := AddTextsFrom(prev, h.texts, |h.texts|, shingles, h.md, key(h.md), s, j);
    }
  }

  /**
   * What the record of `s` satisfies (a missing record reads as a fresh one):
   * it carries `s` itself and its character length, holds no more metadata
   * dicts than its frequency (every update adds at least 1 and files at most
   * one dict), and once in the table it holds at least one.
   */
  ghost predicate Sound(v: map<string, Record>, s: string)
  {
    var r := Entry(v, s);
    && r.shingle == s && r.length == |s| && |r.metadata| <= r.freq
    && (s in v ==> 1 <= |r.metadata|)
  }

  /** Every record of the table is sound. */
  ghost predicate WellFormed(v: map<string, Record>)
  {
    forall s :: s in v ==> Sound(v, s)
  }

  lemma UpdatedSound(r: Record, f: nat, md: Metadata, k: int)
    requires |r.metadata| <= r.freq && 1 <= f
    ensures 1 <= |Updated(r, f, md, k).metadata| <= Updated(r, f, md, k).freq
  {
    if k !in r.metadata {
      assert |r.metadata[k := md]| == |r.metadata| + 1;
    }
  }

  lemma AddCountsSound(v: map<string, Record>, counts: map<string, nat>, md: Metadata, k: int, s: string)
    requires Sound(v, s) && (s in counts ==> 1 <= counts[s])
    ensures Sound(AddCounts(v, counts, md, k), s)
  {
    AddCountsEntry(v, counts, md, k, s);
    if s in counts {
      UpdatedSound(Entry(v, s), counts[s], md, k);
    }
  }

  lemma {:induction false} AddTextsSound(v: map<string, Record>, texts: seq<string>, n: nat, shingles: string -> map<string, nat>, md: Metadata, k: int, s: string)
    requires n <= |texts| && Sound(v, s) && Counting(shingles)
    ensures Sound(AddTexts(v, texts, n, shingles, md, k), s)
  {
    if n > 0 {
      AddTextsSound(v, texts, n - 1, shingles, md, k, s);
      assert Positive(shingles(texts[n - 1]));
      AddCountsSound(AddTexts(v, texts, n - 1, shingles, md, k), shingles(texts[n - 1]), md, k, s);
    }
  }

  lemma {:induction false} AddHitsSound(v: map<string, Record>, hits: seq<Hit>, n: nat, shingles: string -> map<string, nat>, key: Metadata -> int, s: string)
    requires n <= |hits| && Sound(v, s) && Counting(shingles)
    ensures Sound(AddHits(v, hits, n, shingles, key), s)
  {
    if n > 0 {
      var h := hits[n - 1];
      AddHitsSound(v, hits, n - 1, shingles, key, s);
      AddTextsSound(AddHits(v, hits, n - 1, shingles, key), h.texts, |h.texts|, shingles, h.md, key(h.md), s);
    }
  }

  /** `process_documents` keeps every record well formed, starting from an empty table or any well-formed one. */
  lemma ProcessedWellFormed(v: map<string, Record>, docs: seq<Json>, stopwords: set<string>, strip: string -> string, key: Metadata -> int)
    requires WellFormed(v)
    ensures WellFormed(AddHits(v, Digests(docs, strip), |docs|, Shingler(stopwords), key))
  {
    ShinglerPositive(stopwords);
    var r := AddHits(v, Digests(docs, strip), |docs|, Shingler(stopwords), key);
    forall s | s in r
      ensures Sound(r, s)
    {
      assert Sound(v, s);
      AddHitsSound(v, Digests(docs, strip), |docs|, Shingler(stopwords), key, s);
    }
  }
}
