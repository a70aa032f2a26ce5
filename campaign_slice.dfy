/**
 * The client's campaign state and the case reducers that update it when a
 * campaign request starts, succeeds or fails. The requests themselves are
 * not modelled; their results arrive as the reducers' arguments.
 */
module CampaignSlice {
  import opened Wrappers

  datatype Status = Draft | Active | Completed | Cancelled

  /** A campaign as the client holds it (its optional child lists are not modelled). */
  datatype Campaign = Campaign(
    id: string, userId: string, title: string, description: string,
    fundingGoal: real, currentAmount: real, startDate: string, endDate: string,
    status: Status, bannerImageUrl: Option<string>, createdAt: string, updatedAt: string)

  /** `campaigns.map(c => c.id === p.id ? p : c)` */
  function ReplaceById(cs: seq<Campaign>, p: Campaign): seq<Campaign> {
    if cs == [] then []
    else [if cs[0].id == p.id then p else cs[0]] + ReplaceById(cs[1..], p)
  }

  /** `campaigns.filter(c => c.id !== id)` */
  function RemoveById(cs: seq<Campaign>, id: string): seq<Campaign> {
    if cs == [] then []
    else if cs[0].id != id then [cs[0]] + RemoveById(cs[1..], id)
    else RemoveById(cs[1..], id)
  }

  /** Replacing keeps the length and position of every entry; only entries with the payload's id change. */
  lemma {:induction false} ReplaceByIdAt(cs: seq<Campaign>, p: Campaign)
    ensures |ReplaceById(cs, p)| == |cs|
    ensures forall i :: 0 <= i < |cs| ==>
              ReplaceById(cs, p)[i] == if cs[i].id == p.id then p else cs[i]
  {
    if cs != [] {
      ReplaceByIdAt(cs[1..], p);
    }
  }

  /** When no entry has the payload's id, nothing is replaced and nothing is added. */
  lemma ReplaceByIdNoMatch(cs: seq<Campaign>, p: Campaign)
    requires forall i :: 0 <= i < |cs| ==> cs[i].id != p.id
    ensures ReplaceById(cs, p) == cs
  {
    ReplaceByIdAt(cs, p);
  }

  /** The list of ids, and so the order of the entries, is unchanged by a replace. */
  lemma ReplaceByIdKeepsIds(cs: seq<Campaign>, p: Campaign)
    ensures |ReplaceById(cs, p)| == |cs|
    ensures forall i :: 0 <= i < |cs| ==> ReplaceById(cs, p)[i].id == cs[i].id
  {
    ReplaceByIdAt(cs, p);
  }

  /** Applying the same update twice is applying it once. */
  lemma ReplaceByIdIdempotent(cs: seq<Campaign>, p: Campaign)
    ensures ReplaceById(ReplaceById(cs, p), p) == ReplaceById(cs, p)
  {
    ReplaceByIdAt(cs, p);
    ReplaceByIdAt(ReplaceById(cs, p), p);
  }

  /** After a remove no entry has the removed id, and every other entry keeps its number of copies. */
  lemma {:induction false} RemoveByIdSpec(cs: seq<Campaign>, id: string)
    ensures forall c :: c in RemoveById(cs, id) ==> c.id != id && c in cs
    ensures forall c: Campaign :: c.id != id ==> multiset(RemoveById(cs, id))[c] == multiset(cs)[c]
  {
    if cs != [] {
      RemoveByIdSpec(cs[1..], id);
      assert cs == [cs[0]] + cs[1..];
    }
  }

  /** Removing works piecewise, so the kept entries stay in their order. */
  lemma {:induction false} RemoveByIdAppend(a: seq<Campaign>, b: seq<Campaign>, id: string)
    ensures RemoveById(a + b, id) == RemoveById(a, id) + RemoveById(b, id)
  {
    if a != [] {
      RemoveByIdAppend(a[1..], b, id);
      assert (a + b)[1..] == a[1..] + b;
    } else {
      assert a + b == b;
    }
  }

  /** With no entry of that id, removing changes nothing. */
  lemma {:induction false} RemoveByIdNoMatch(cs: seq<Campaign>, id: string)
    requires forall i :: 0 <= i < |cs| ==> cs[i].id != id
    ensures RemoveById(cs, id) == cs
  {
    if cs != [] {
      RemoveByIdNoMatch(cs[1..], id);
    }
  }

  /** A second delete of the same id does nothing. */
  lemma RemoveByIdIdempotent(cs: seq<Campaign>, id: string)
    ensures RemoveById(RemoveById(cs, id), id) == RemoveById(cs, id)
  {
    var r := RemoveById(cs, id);
    RemoveByIdSpec(cs, id);
    assert forall i :: 0 <= i < |r| ==> r[i] in r;
    RemoveByIdNoMatch(r, id);
  }

  /** The slice's draft state. */
  class CampaignState {
    var campaigns: seq<Campaign>
    var currentCampaign: Option<Campaign>
    var isLoading: bool
    var error: Option<string>

    /** No error is shown while a request is in flight. */
    ghost predicate Valid()
      reads this
    {
      isLoading ==> error == None
    }

    /** initialState */
    constructor ()
      ensures Valid()
      ensures campaigns == [] && currentCampaign == None && !isLoading && error == None
    {
      campaigns := [];
      currentCampaign := None;
      isLoading := false;
      error := None;
    }

    /** clearCurrentCampaign: only the current campaign changes, to none. */
    method ClearCurrentCampaign()
      requires Valid()
      modifies this
      ensures Valid()
      ensures currentCampaign == None
      ensures campaigns == old(campaigns) && isLoading == old(isLoading) && error == old(error)
    {
      currentCampaign := None;
    }

    /** The pending case, identical for all five campaign requests. */
    method Pending()
      modifies this
      ensures Valid()
      ensures isLoading && error == None
      ensures campaigns == old(campaigns) && currentCampaign == old(currentCampaign)
    {
      isLoading := true;
      error := None;
    }

    /** The rejected case, identical for all five campaign requests: the payload is the message. */
    method Rejected(message: string)
      modifies this
      ensures Valid()
      ensures !isLoading && error == Some(message)
      ensures campaigns == old(campaigns) && currentCampaign == old(currentCampaign)
    {
      isLoading := false;
      error := Some(message);
    }

    /** getUserCampaigns.fulfilled: the list is replaced by the payload. */
    method UserCampaignsFulfilled(payload: seq<Campaign>)
      modifies this
      ensures Valid()
      ensures campaigns == payload && !isLoading && error == None
      ensures currentCampaign == old(currentCampaign)
    {
      isLoading := false;
      campaigns := payload;
      error := None;
    }

    /** getCampaign.fulfilled: only the current campaign is set; the list is untouched. */
    method CampaignFulfilled(payload: Campaign)
      modifies this
      ensures Valid()
      ensures currentCampaign == Some(payload) && !isLoading && error == None
      ensures campaigns == old(campaigns)
    {
      isLoading := false;
      currentCampaign := Some(payload);
      error := None;
    }

    /** createCampaign.fulfilled: the payload is appended at the end and becomes current. */
    method CreateFulfilled(payload: Campaign)
      modifies this
      ensures Valid()
      ensures campaigns == old(campaigns) + [payload]
      ensures |campaigns| == |old(campaigns)| + 1 && campaigns[..|old(campaigns)|] == old(campaigns)
      ensures currentCampaign == Some(payload) && !isLoading && error == None
    {
      isLoading := false;
      campaigns := campaigns + [payload];
      currentCampaign := Some(payload);
      error := None;
    }

    /**
     * updateCampaign.fulfilled: every entry with the payload's id is
     * replaced by it, in place; the payload becomes current.
     */
    method UpdateFulfilled(payload: Campaign)
      modifies this
      ensures Valid()
      ensures |campaigns| == |old(campaigns)|
      ensures forall i :: 0 <= i < |campaigns| ==>
                campaigns[i] == if old(campaigns)[i].id == payload.id then payload else old(campaigns)[i]
      ensures currentCampaign == Some(payload) && !isLoading && error == None
    {
      isLoading := false;
      ReplaceByIdAt(campaigns, payload);
      campaigns := ReplaceById(campaigns, payload);
      currentCampaign := Some(payload);
      error := None;
    }

    /**
     * deleteCampaign.fulfilled: entries with the deleted id are dropped,
     * the others kept in order; the current campaign is cleared exactly
     * when it has that id.
     */
    method DeleteFulfilled(id: string)
      modifies this
      ensures Valid()
      ensures campaigns == RemoveById(old(campaigns), id)
      ensures forall c :: c in campaigns ==> c.id != id
      ensures forall c: Campaign :: c.id != id ==> multiset(campaigns)[c] == multiset(old(campaigns))[c]
      ensures currentCampaign == if old(currentCampaign).Some? && old(currentCampaign).value.id == id
                                 then None else old(currentCampaign)
      ensures !isLoading && error == None
    {
      isLoading := false;
      RemoveByIdSpec(campaigns, id);
      campaigns := RemoveById(campaigns, id);
      if currentCampaign.Some? && currentCampaign.value.id == id {
        currentCampaign := None;
      }
      error := None;
    }
  }
}
