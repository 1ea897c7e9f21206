/**
 * A generated bracket as the browser receives it from
 * `GET /tournament/{id}/brackets`: JSON fields, with `picks` rounds that are
 * JSON objects or arrays and any field that may be null.
 */
module Records {
  import opened Wrappers
  import opened Text
  import opened Simulator
  import opened Batch

  /** A round of picks as JSON: an object (entries in insertion order) or an array. */
  datatype RoundValue = Obj(entries: seq<(string, string)>) | Arr(items: seq<string>)

  /** The `picks` object; `None` is a key that is absent or null. */
  datatype PickSet = PickSet(round64: Option<RoundValue>, round32: Option<RoundValue>, sweet16: Option<RoundValue>,
                             elite8: Option<RoundValue>, championship: Option<RoundValue>)

  const NoPicks: PickSet := PickSet(None, None, None, None, None)

  datatype BracketRecord = BracketRecord(id: int, strategy: string, poolTag: Option<string>, champion: Option<string>,
                                         finalFour: seq<string>, expectedScore: int, upsetCount: int,
                                         picks: Option<PickSet>)

  /** A picks dictionary as a JSON object: the keys rendered as `"<region>_<i>"`. */
  function PicksObject(p: Picks): (v: RoundValue)
    ensures v.Obj? && |v.entries| == |p|
    ensures forall k :: 0 <= k < |p| ==> v.entries[k] == (KeyString(p[k].0), p[k].1)
  {
    Obj(seq(|p|, k requires 0 <= k < |p| => (KeyString(p[k].0), p[k].1)))
  }

  /** The JSON record the brackets endpoint returns for a stored bracket. */
  function RecordOf(id: int, b: StoredBracket): (r: BracketRecord)
    ensures r.id == id && r.strategy == b.strategy && r.poolTag == Some(b.poolTag)
    ensures r.champion == b.champion && r.finalFour == b.finalFour
    ensures r.expectedScore == b.expectedScore && r.upsetCount == b.upsetCount
    ensures r.picks.Some?
    ensures r.picks.value.round64 == Some(PicksObject(b.picks.round64))
    ensures r.picks.value.round32 == Some(PicksObject(b.picks.round32))
    ensures r.picks.value.sweet16 == Some(PicksObject(b.picks.sweet16))
    ensures r.picks.value.elite8 == Some(Obj(b.picks.elite8))
    ensures r.picks.value.championship.Some? <==> b.picks.championship.Some?
    ensures b.picks.championship.Some? ==>
      r.picks.value.championship.value == Arr([b.picks.championship.value.0, b.picks.championship.value.1])
  {
    var p := b.picks;
    BracketRecord(id, b.strategy, Some(b.poolTag), b.champion, b.finalFour, b.expectedScore, b.upsetCount,
      Some(PickSet(Some(PicksObject(p.round64)), Some(PicksObject(p.round32)), Some(PicksObject(p.sweet16)),
                   Some(Obj(p.elite8)),
                   if p.championship.Some? then Some(Arr([p.championship.value.0, p.championship.value.1])) else None)))
  }
}
