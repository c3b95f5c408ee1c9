/** The module-level AI history of components/ai_memory.py: a `deque(maxlen=200)` of
    prediction summaries, each stamped with the time it was saved. */
module AiMemory {
  import opened Common
  import AiPredictor

  const Capacity: nat := 200

  /** One saved prediction; `time` is the value `time.time()` returned when it was saved. */
  datatype Record = Record(time: real, direction: string, confidence: real,
                           probUp: real, probDown: real)

  /** The record `save_ai_result` builds from a predictor result. */
  function RecordOf(result: AiPredictor.Prediction, now: real): (r: Record)
    ensures r.time == now
    ensures r.direction == result.direction && r.confidence == result.confidence
    ensures r.probUp == result.probUp && r.probDown == result.probDown
  { Record(now, result.direction, result.confidence, result.probUp, result.probDown) }

  /** The history after saving a sequence of records one by one, oldest first. */
  function SavedAll(h: seq<Record>, rs: seq<Record>): seq<Record>
  { AppendAll(h, rs, Capacity) }

  /** However many results are saved, the history holds the newest 200 of them in
      insertion order, and never more than 200. */
  lemma {:induction false} HistoryKeepsNewest(h: seq<Record>, rs: seq<Record>)
    requires |h| <= Capacity
    ensures SavedAll(h, rs) == LastN(h + rs, Capacity)
    ensures |SavedAll(h, rs)| <= Capacity
    ensures |rs| > 0 ==> SavedAll(h, rs)[|SavedAll(h, rs)| - 1] == rs[|rs| - 1]
  {
    AppendAllIsLastN(h, rs, Capacity);
  }

  class AiHistory {
    var records: seq<Record>

    ghost predicate Valid()
      reads this
    {
      |records| <= Capacity
    }

    constructor()
      ensures Valid() && records == []
    {
      records := [];
    }

    /** `save_ai_result`: append the summary; a full buffer evicts its oldest record. */
    method SaveAiResult(result: AiPredictor.Prediction, now: real)
      requires Valid()
      modifies this
      ensures Valid()
      ensures records == BoundedAppend(old(records), RecordOf(result, now), Capacity)
      ensures records == LastN(old(records) + [RecordOf(result, now)], Capacity)
      ensures records[|records| - 1] == RecordOf(result, now)
      ensures |old(records)| < Capacity ==> records == old(records) + [RecordOf(result, now)]
      ensures |old(records)| == Capacity ==> records == old(records)[1..] + [RecordOf(result, now)]
    {
      var r := RecordOf(result, now);
      BoundedAppendIsLastN(records, r, Capacity);
      records := records + [r];
      if |records| > Capacity {
        records := records[1..];
      }
    }

    /** `get_history`: a copy of the buffer, oldest first; the buffer is left as it was. */
    method GetHistory() returns (h: seq<Record>)
      requires Valid()
      ensures h == records && |h| <= Capacity
    {
      h := records;
    }
  }
}
