/** The pure part of one monitor run: how the run is classified, how catalog entries
    become records, which of them are new, and what the durable table looks like once
    they are upserted. */
module Delta {
  import opened Wrappers

  /** The `source` that events from the scheduled rule carry. */
  const ScheduledSource: string := "aws.events"

  /** The invocation event; only its `source` field is read. */
  datatype Event = Event(source: Option<string>)

  /** True when the run is a manual test: `source` is missing, empty, or not the scheduled one. */
  function IsManualTest(event: Event): (manual: bool)
    ensures manual <==> event.source != Some(ScheduledSource)
  {
    match event.source
    case None => true
    case Some(s) => s == "" || s != ScheduledSource
  }

  /** One entry of the foundation-model catalog, as the catalog call returns it. */
  datatype ModelSummary = ModelSummary(
    modelId: string,
    modelName: string,
    providerName: string,
    inputModalities: seq<string>,
    outputModalities: seq<string>,
    responseStreamingSupported: bool,
    customizationsSupported: bool,
    inferenceTypesSupported: seq<string>)

  /** A model record: a catalog entry stamped with the time it was observed. */
  datatype ModelRecord = ModelRecord(
    modelId: string,
    modelName: string,
    providerName: string,
    inputModalities: seq<string>,
    outputModalities: seq<string>,
    responseStreamingSupported: bool,
    customizationsSupported: bool,
    inferenceTypesSupported: seq<string>,
    detectedAt: string)

  /** The catalog fields of a record. */
  function Summary(m: ModelRecord): ModelSummary
  {
    ModelSummary(m.modelId, m.modelName, m.providerName, m.inputModalities, m.outputModalities,
                 m.responseStreamingSupported, m.customizationsSupported, m.inferenceTypesSupported)
  }

  /** The record made of a catalog entry: every catalog field kept, `detectedAt` added. */
  function ToRecord(s: ModelSummary, detectedAt: string): (m: ModelRecord)
    ensures Summary(m) == s && m.detectedAt == detectedAt
  {
    ModelRecord(s.modelId, s.modelName, s.providerName, s.inputModalities, s.outputModalities,
                s.responseStreamingSupported, s.customizationsSupported, s.inferenceTypesSupported,
                detectedAt)
  }

  /** The current models: the catalog mapped entry by entry to records, in catalog order. */
  function Records(summaries: seq<ModelSummary>, detectedAt: string): (ms: seq<ModelRecord>)
    ensures |ms| == |summaries|
    ensures forall i :: 0 <= i < |ms| ==> Summary(ms[i]) == summaries[i] && ms[i].detectedAt == detectedAt
  {
    seq(|summaries|, i requires 0 <= i < |summaries| => ToRecord(summaries[i], detectedAt))
  }

  /** The known ids: the set of the ids on the one scanned page. */
  function KnownIds(page: seq<string>): (known: set<string>)
    ensures forall id :: id in known <==> id in page
  {
    set id | id in page
  }

  /** The new models: those current models whose id is not known, in catalog order,
      duplicates included. */
  function NewModels(current: seq<ModelRecord>, known: set<string>): (delta: seq<ModelRecord>)
    ensures |delta| <= |current|
    ensures forall m :: m in delta <==> m in current && m.modelId !in known
    ensures forall m :: multiset(delta)[m] == if m.modelId in known then 0 else multiset(current)[m]
  {
    if current == [] then []
    else
      assert current == [current[0]] + current[1..];
      if current[0].modelId in known then NewModels(current[1..], known)
      else [current[0]] + NewModels(current[1..], known)
  }

  /** `sub` is `s` with some elements deleted and the rest in their original order. */
  predicate IsSubsequence<T(==)>(sub: seq<T>, s: seq<T>)
    decreases |s|
  {
    if sub == [] then true
    else if s == [] then false
    else (sub[0] == s[0] && IsSubsequence(sub[1..], s[1..])) || IsSubsequence(sub, s[1..])
  }

  /** The filter keeps the catalog order. */
  lemma {:induction false} NewModelsIsSubsequence(current: seq<ModelRecord>, known: set<string>)
    ensures IsSubsequence(NewModels(current, known), current)
  {
    if current != [] {
      NewModelsIsSubsequence(current[1..], known);
      var rest := NewModels(current[1..], known);
      if current[0].modelId !in known {
        assert NewModels(current, known) == [current[0]] + rest;
        assert ([current[0]] + rest)[1..] == rest;
      } else if rest != [] {
        assert NewModels(current, known) == rest;
      }
    }
  }

  /** The filter works entry by entry: the new models of a concatenation are the
      concatenation of the new models of the parts. */
  lemma {:induction false} NewModelsAppend(a: seq<ModelRecord>, b: seq<ModelRecord>, known: set<string>)
    ensures NewModels(a + b, known) == NewModels(a, known) + NewModels(b, known)
  {
    if a == [] {
      assert a + b == b;
    } else {
      assert (a + b)[0] == a[0];
      assert (a + b)[1..] == a[1..] + b;
      NewModelsAppend(a[1..], b, known);
    }
  }

  /** Filtering a second time against the same known ids removes nothing more. */
  lemma {:induction false} NewModelsIdempotent(current: seq<ModelRecord>, known: set<string>)
    ensures NewModels(NewModels(current, known), known) == NewModels(current, known)
  {
    if current != [] {
      NewModelsIdempotent(current[1..], known);
      if current[0].modelId !in known {
        var rest := NewModels(current[1..], known);
        assert ([current[0]] + rest)[0] == current[0];
        assert ([current[0]] + rest)[1..] == rest;
      }
    }
  }

  /** The ids of a list of records, in order. */
  function Ids(ms: seq<ModelRecord>): (ids: seq<string>)
    ensures |ids| == |ms| && forall i :: 0 <= i < |ms| ==> ids[i] == ms[i].modelId
  {
    seq(|ms|, i requires 0 <= i < |ms| => ms[i].modelId)
  }

  /** The store's invariant: every record sits under its own id. */
  ghost predicate Keyed(table: map<string, ModelRecord>)
  {
    forall k :: k in table ==> table[k].modelId == k
  }

  /** The ids whose put the store accepts. */
  function AcceptedIds(models: seq<ModelRecord>, rejected: set<string>): set<string>
  {
    set m | m in models && m.modelId !in rejected :: m.modelId
  }

  /** True when the store accepts the put of every one of `models`. */
  predicate AllAccepted(models: seq<ModelRecord>, rejected: set<string>)
  {
    forall i :: 0 <= i < |models| ==> models[i].modelId !in rejected
  }

  /** The table after putting `models` one after another, each keyed by its id; a put
      whose id the store rejects leaves the table as it was. */
  function Upserts(table: map<string, ModelRecord>, models: seq<ModelRecord>, rejected: set<string>): (saved: map<string, ModelRecord>)
    ensures table.Keys <= saved.Keys
    decreases |models|
  {
    if models == [] then table
    else
      var m := models[0];
      Upserts(if m.modelId in rejected then table else table[m.modelId := m], models[1..], rejected)
  }

  /** No later model in the list has the same id as `models[i]`. */
  ghost predicate LastWithId(models: seq<ModelRecord>, i: int)
    requires 0 <= i < |models|
  {
    forall j :: i < j < |models| ==> models[j].modelId != models[i].modelId
  }

  /** What the puts do to the table: accepted ids are added, every other key keeps its
      record, an accepted id holds one of the models with that id, and the last accepted
      put of an id wins. */
  lemma {:induction false} UpsertsSpec(table: map<string, ModelRecord>, models: seq<ModelRecord>, rejected: set<string>)
    ensures Upserts(table, models, rejected).Keys == table.Keys + AcceptedIds(models, rejected)
    ensures forall k :: k in table && k !in AcceptedIds(models, rejected) ==>
                          Upserts(table, models, rejected)[k] == table[k]
    ensures forall k :: k in AcceptedIds(models, rejected) ==>
                          Upserts(table, models, rejected)[k] in models && Upserts(table, models, rejected)[k].modelId == k
    ensures forall i :: 0 <= i < |models| && models[i].modelId !in rejected && LastWithId(models, i) ==>
                          Upserts(table, models, rejected)[models[i].modelId] == models[i]
    decreases |models|
  {
    if models != [] {
      var m := models[0];
      var t := if m.modelId in rejected then table else table[m.modelId := m];
      var rest := models[1..];
      UpsertsSpec(t, rest, rejected);
      assert models == [m] + rest;
      assert AcceptedIds(models, rejected) ==
             (if m.modelId in rejected then {} else {m.modelId}) + AcceptedIds(rest, rejected);
      forall i | 0 <= i < |models| && models[i].modelId !in rejected && LastWithId(models, i)
        ensures Upserts(table, models, rejected)[models[i].modelId] == models[i]
      {
        if i > 0 {
          assert rest[i - 1] == models[i];
          assert LastWithId(rest, i - 1);
        } else {
          assert m.modelId !in AcceptedIds(rest, rejected);
        }
      }
    }
  }

  /** Upserting keeps every record under its own id. */
  lemma UpsertsKeyed(table: map<string, ModelRecord>, models: seq<ModelRecord>, rejected: set<string>)
    requires Keyed(table)
    ensures Keyed(Upserts(table, models, rejected))
  {
    UpsertsSpec(table, models, rejected);
  }
}
