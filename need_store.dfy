/** The need collection and its service (server/src/services/need.services.js):
    `createNeed` saves a new record, `getAllNeeds` reads them all back. Each
    catches every failure and answers SERVER_ERROR with a fixed message. */
module Needs {
  import opened Common
  import opened Schemas

  const CreateFailedMessage := "Failed to create need."
  const ReadFailedMessage := "Failed to retrieve needs."

  /** `new Need(data).save()`: the saved record, or the fixed failure message,
      whether the schema refused the data or the database failed (`saveFails`). */
  function CreateResult(id: Id, now: nat, input: NeedInput, saveFails: bool): (r: ServiceResult<Need>)
    ensures r.status == Success <==> !saveFails && NewNeed(id, now, input).Valid?
    ensures r.status == Success ==>
      r.data.Some? && r.data.value == NewNeed(id, now, input).doc && WellFormedNeed(r.data.value)
    ensures r.status != Success ==> r == Fail(ServerError, CreateFailedMessage)
  {
    var v := NewNeed(id, now, input);
    if !saveFails && v.Valid? then Ok(v.doc) else Fail(ServerError, CreateFailedMessage)
  }

  /** A status the caller supplies is stored as given; only an absent one defaults to PENDING. */
  lemma CreateKeepsGivenStatus(id: Id, now: nat, input: NeedInput)
    requires CreateResult(id, now, input, false).status == Success
    ensures var n := CreateResult(id, now, input, false).data.value;
      (input.status.Some? ==> n.status == input.status.value)
      && (input.status.None? ==> n.status == "PENDING")
      && n.fulfilledDate == input.fulfilledDate
  {
  }

  /** `getAllNeeds`: every stored need in stored order, or the fixed failure message. */
  function GetAll(s: seq<Need>, readFails: bool): (r: ServiceResult<seq<Need>>)
    ensures readFails <==> r.status != Success
    ensures !readFails ==> r.data == Some(s)
    ensures readFails ==> r == Fail(ServerError, ReadFailedMessage)
  {
    if readFails then Fail(ServerError, ReadFailedMessage) else Ok(s)
  }

  class NeedStore {
    var needs: seq<Need>
    var nextId: nat
    var clock: nat

    /** Every stored need passed the schema, ids are fresh and stamps increase. */
    ghost predicate Valid()
      reads this
    {
      (forall k :: 0 <= k < |needs| ==> WellFormedNeed(needs[k]) && needs[k].id < nextId && needs[k].createdAt < clock)
      && (forall i, j :: 0 <= i < j < |needs| ==> needs[i].id != needs[j].id && needs[i].createdAt < needs[j].createdAt)
    }

    constructor()
      ensures Valid() && needs == []
    {
      needs := [];
      nextId := 0;
      clock := 0;
    }

    /** `createNeed`: on success the record is appended; on failure nothing is stored. */
    method Create(input: NeedInput, saveFails: bool) returns (r: ServiceResult<Need>)
      requires Valid()
      modifies this
      ensures Valid()
      ensures r == CreateResult(old(nextId), old(clock), input, saveFails)
      ensures r.status == Success ==> needs == old(needs) + [r.data.value]
      ensures r.status != Success ==> needs == old(needs)
    {
      var v := NewNeed(nextId, clock, input);
      if saveFails || v.Invalid? {
        r := Fail(ServerError, CreateFailedMessage);
        return;
      }
      needs := needs + [v.doc];
      nextId := nextId + 1;
      clock := clock + 1;
      r := Ok(v.doc);
    }
  }
}
