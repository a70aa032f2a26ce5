/**
 * The campaign handlers of the server: create, list by owner, get (through
 * a read-through cache), update and delete. The relational store is a set
 * of tables (maps from primary key to row); the key/value cache maps
 * `campaign:<id>` to the composite view that was read for that campaign.
 * Cached values are kept as views (their JSON encoding is taken to round
 * trip) and never expire in the model.
 */
module CampaignController {
  import opened Wrappers
  import opened Errors
  import opened Query
  import opened Schema

  /** Decimal money columns; the handlers only copy them. */
  type Amount = real

  const Draft := "draft"
  const CachePrefix := "campaign:"
  const NotFound := ApiError(404, "Campaign not found")
  const NotFoundOrUnauthorized := ApiError(404, "Campaign not found or unauthorized")
  const DeletedMessage := "Campaign deleted successfully"

  datatype Campaign = Campaign(
    id: Id, userId: Id, title: string, description: string,
    fundingGoal: Amount, currentAmount: Amount,
    startDate: Timestamp, endDate: Timestamp, status: Option<string>,
    bannerImageUrl: Option<string>, createdAt: Timestamp, updatedAt: Timestamp)

  datatype Milestone = Milestone(
    id: Id, campaignId: Id, title: string, description: Option<string>,
    targetAmount: Amount, reachedAt: Option<Timestamp>,
    createdAt: Timestamp, updatedAt: Timestamp)

  datatype RewardTier = RewardTier(
    id: Id, campaignId: Id, title: string, description: string,
    minimumAmount: Amount, estimatedDeliveryDate: Option<Timestamp>,
    maxClaims: Option<int>, currentClaims: int,
    createdAt: Timestamp, updatedAt: Timestamp)

  datatype Update = Update(
    id: Id, campaignId: Id, title: string, content: string,
    publishedAt: Option<Timestamp>, createdAt: Timestamp, updatedAt: Timestamp)

  /** The tables these handlers read but never write. */
  datatype ChildTables = ChildTables(
    milestones: map<Id, Milestone>, rewardTiers: map<Id, RewardTier>, updates: map<Id, Update>)

  /** A campaign row spread together with its children, as cached and returned by get. */
  datatype CampaignView = CampaignView(
    campaign: Campaign, milestones: seq<Milestone>, rewardTiers: seq<RewardTier>, updates: seq<Update>)

  datatype Source = FromCache | FromDatabase
  datatype Served = Served(data: CampaignView, source: Source)

  /** The body of a create request. */
  datatype CampaignInput = CampaignInput(
    title: string, description: string, fundingGoal: Amount,
    startDate: Timestamp, endDate: Timestamp, bannerImageUrl: Option<string>)

  /**
   * The body of an update request: every column it writes. The status
   * column is nullable, so a body without a status writes NULL.
   */
  datatype CampaignChanges = CampaignChanges(
    title: string, description: string, fundingGoal: Amount,
    startDate: Timestamp, endDate: Timestamp, status: Option<string>, bannerImageUrl: Option<string>)

  function CacheKey(id: Id): string {
    CachePrefix + id
  }

  /** Distinct campaigns never share a cache key. */
  lemma CacheKeyInjective(a: Id, b: Id)
    ensures CacheKey(a) == CacheKey(b) ==> a == b
  {
    if CacheKey(a) == CacheKey(b) {
      assert a == CacheKey(a)[|CachePrefix|..];
      assert b == CacheKey(b)[|CachePrefix|..];
    }
  }

  /** A character as the store's uuid input reads it: hex digits are the same in either case. */
  function LowerAscii(ch: char): char {
    if 'A' <= ch <= 'Z' then (ch as int + 32) as char else ch
  }

  /**
   * The campaign id the store compares when a handler looks one up: an id
   * column is a uuid, and the uuid input reads upper- and lower-case hex
   * digits alike. Ids the server generates are already in this form.
   */
  function Canon(id: Id): Id {
    seq(|id|, i requires 0 <= i < |id| => LowerAscii(id[i]))
  }

  /**
   * Two ids name the same campaign exactly when they have the same length
   * and differ, position by position, in ASCII letter case at most.
   */
  lemma SameCampaignIff(a: Id, b: Id)
    ensures Canon(a) == Canon(b) <==>
              |a| == |b| && forall i :: 0 <= i < |a| ==> LowerAscii(a[i]) == LowerAscii(b[i])
  {
    if Canon(a) == Canon(b) {
      assert forall i :: 0 <= i < |a| ==> LowerAscii(a[i]) == Canon(a)[i] == Canon(b)[i] == LowerAscii(b[i]);
    } else if |a| == |b| {
      var i :| 0 <= i < |a| && Canon(a)[i] != Canon(b)[i];
      assert LowerAscii(a[i]) != LowerAscii(b[i]);
    }
  }

  /** An upper-case spelling of an id names the same campaign as the id itself. */
  lemma UpperCaseSpellingSameCampaign()
    ensures Canon("C1") == Canon("c1") == "c1"
    ensures "C1" != "c1"
  {
    SameCampaignIff("C1", "c1");
    assert Canon("c1")[0] == 'c' && Canon("c1")[1] == '1';
  }

  // Primary keys and the WHERE / ORDER BY clauses of the handlers' queries.

  function CampaignKey(c: Campaign): Id { c.id }
  function MilestoneKey(m: Milestone): Id { m.id }
  function RewardTierKey(t: RewardTier): Id { t.id }
  function UpdateKey(u: Update): Id { u.id }

  /** `WHERE user_id = owner` */
  function OwnedBy(owner: Id): Campaign -> bool { (c: Campaign) => c.userId == owner }
  /** `WHERE campaign_id = id` on each child table */
  function MilestoneOf(id: Id): Milestone -> bool { (m: Milestone) => m.campaignId == id }
  function RewardTierOf(id: Id): RewardTier -> bool { (t: RewardTier) => t.campaignId == id }
  function UpdateOf(id: Id): Update -> bool { (u: Update) => u.campaignId == id }

  /** `ORDER BY created_at DESC` */
  predicate NewestFirst(a: Campaign, b: Campaign) { a.createdAt >= b.createdAt }
  /** `ORDER BY target_amount ASC` */
  predicate ByTargetAmount(a: Milestone, b: Milestone) { a.targetAmount <= b.targetAmount }
  /** `ORDER BY minimum_amount ASC` */
  predicate ByMinimumAmount(a: RewardTier, b: RewardTier) { a.minimumAmount <= b.minimumAmount }
  /** `ORDER BY published_at DESC`; PostgreSQL sorts NULLs first in descending order. */
  predicate LatestPublishedFirst(a: Update, b: Update) {
    match (a.publishedAt, b.publishedAt)
    case (None, _) => true
    case (Some(_), None) => false
    case (Some(x), Some(y)) => x >= y
  }

  lemma OrdersArePreorders()
    ensures TotalPreorder(NewestFirst)
    ensures TotalPreorder(ByTargetAmount)
    ensures TotalPreorder(ByMinimumAmount)
    ensures TotalPreorder(LatestPublishedFirst)
  {
  }

  ghost predicate WellKeyed(campaigns: map<Id, Campaign>, children: ChildTables) {
    && KeyedBy(campaigns, CampaignKey)
    && KeyedBy(children.milestones, MilestoneKey)
    && KeyedBy(children.rewardTiers, RewardTierKey)
    && KeyedBy(children.updates, UpdateKey)
  }

  /** `v` is what a cache miss on `id` would read from the tables now. */
  ghost predicate IsViewOf(campaigns: map<Id, Campaign>, children: ChildTables, id: Id, v: CampaignView) {
    && id in campaigns
    && v.campaign == campaigns[id]
    && IsSelection(children.milestones, MilestoneKey, MilestoneOf(id), ByTargetAmount, v.milestones)
    && IsSelection(children.rewardTiers, RewardTierKey, RewardTierOf(id), ByMinimumAmount, v.rewardTiers)
    && IsSelection(children.updates, UpdateKey, UpdateOf(id), LatestPublishedFirst, v.updates)
  }

  /**
   * The foreign keys of the child tables: every milestone, reward tier and
   * update refers to a stored campaign. None of them has an ON DELETE rule,
   * so the store refuses to delete a campaign that is still referred to.
   */
  ghost predicate ChildrenReferToCampaigns(campaigns: map<Id, Campaign>, children: ChildTables) {
    && (forall k :: k in children.milestones ==> children.milestones[k].campaignId in campaigns)
    && (forall k :: k in children.rewardTiers ==> children.rewardTiers[k].campaignId in campaigns)
    && (forall k :: k in children.updates ==> children.updates[k].campaignId in campaigns)
  }

  /** Some milestone, reward tier or update still refers to campaign `id`. */
  predicate HasChildren(children: ChildTables, id: Id) {
    || (exists k :: k in children.milestones && children.milestones[k].campaignId == id)
    || (exists k :: k in children.rewardTiers && children.rewardTiers[k].campaignId == id)
    || (exists k :: k in children.updates && children.updates[k].campaignId == id)
  }

  /**
   * Removing a campaign leaves every foreign key valid exactly when no
   * child row refers to it, which is why the store refuses the other case.
   */
  lemma DeleteKeepsReferencesIff(campaigns: map<Id, Campaign>, children: ChildTables, id: Id)
    requires ChildrenReferToCampaigns(campaigns, children)
    ensures ChildrenReferToCampaigns(campaigns - {id}, children) <==> !HasChildren(children, id)
  {
    if HasChildren(children, id) {
      if k :| k in children.milestones && children.milestones[k].campaignId == id {
        assert children.milestones[k].campaignId !in campaigns - {id};
      } else if k :| k in children.rewardTiers && children.rewardTiers[k].campaignId == id {
        assert children.rewardTiers[k].campaignId !in campaigns - {id};
      } else {
        var k :| k in children.updates && children.updates[k].campaignId == id;
        assert children.updates[k].campaignId !in campaigns - {id};
      }
    }
  }

  /** The cache holds no stale entry: every cached campaign is a view of the current tables. */
  ghost predicate Coherent(campaigns: map<Id, Campaign>, children: ChildTables, cache: map<string, CampaignView>) {
    forall id :: CacheKey(id) in cache ==> IsViewOf(campaigns, children, id, cache[CacheKey(id)])
  }

  /** Storing a freshly read view keeps the cache coherent. */
  lemma CoherentAfterFill(campaigns: map<Id, Campaign>, children: ChildTables,
                          cache: map<string, CampaignView>, id: Id, v: CampaignView)
    requires Coherent(campaigns, children, cache)
    requires IsViewOf(campaigns, children, id, v)
    ensures Coherent(campaigns, children, cache[CacheKey(id) := v])
  {
    forall other | CacheKey(other) in cache[CacheKey(id) := v]
      ensures IsViewOf(campaigns, children, other, cache[CacheKey(id) := v][CacheKey(other)])
    {
      CacheKeyInjective(id, other);
    }
  }

  /** Inserting a row under an unused key leaves every cached view current. */
  lemma CoherentAfterInsert(campaigns: map<Id, Campaign>, children: ChildTables,
                            cache: map<string, CampaignView>, id: Id, row: Campaign)
    requires Coherent(campaigns, children, cache)
    requires id !in campaigns
    ensures Coherent(campaigns[id := row], children, cache)
  {
    forall other | CacheKey(other) in cache
      ensures IsViewOf(campaigns[id := row], children, other, cache[CacheKey(other)])
    {
      assert IsViewOf(campaigns, children, other, cache[CacheKey(other)]);
    }
  }

  /**
   * Rewriting a row is safe for the cache only together with dropping that
   * row's key: the other entries stay current and the rewritten one is gone.
   */
  lemma CoherentAfterInvalidate(campaigns: map<Id, Campaign>, children: ChildTables,
                                cache: map<string, CampaignView>, id: Id, row: Campaign)
    requires Coherent(campaigns, children, cache)
    ensures Coherent(campaigns[id := row], children, cache - {CacheKey(id)})
  {
    forall other | CacheKey(other) in cache - {CacheKey(id)}
      ensures IsViewOf(campaigns[id := row], children, other, (cache - {CacheKey(id)})[CacheKey(other)])
    {
      assert other != id;
      assert IsViewOf(campaigns, children, other, cache[CacheKey(other)]);
    }
  }

  /**
   * The handlers as written build the cache key from the id as the URL
   * spells it. A read under one spelling caches the view under that
   * spelling; an update through another spelling of the same campaign
   * drops only its own key, and the first key goes on serving the old row.
   * A delete through the other spelling likewise leaves the first key
   * serving a campaign that no longer exists.
   */
  lemma StaleAcrossSpellingsAsWritten(campaigns: map<Id, Campaign>, children: ChildTables,
                                      cache: map<string, CampaignView>, read: Id, write: Id, row: Campaign)
    requires Canon(read) == Canon(write) && read != write
    requires CacheKey(read) in cache && IsViewOf(campaigns, children, Canon(read), cache[CacheKey(read)])
    requires row != campaigns[Canon(read)]
    ensures CacheKey(read) in cache - {CacheKey(write)}
    ensures !IsViewOf(campaigns[Canon(write) := row], children, Canon(read),
                      (cache - {CacheKey(write)})[CacheKey(read)])
    ensures !IsViewOf(campaigns - {Canon(write)}, children, Canon(read),
                      (cache - {CacheKey(write)})[CacheKey(read)])
  {
    CacheKeyInjective(read, write);
  }

  /** Without the invalidation the cached view of a rewritten row goes stale. */
  lemma StaleWithoutInvalidate(campaigns: map<Id, Campaign>, children: ChildTables,
                               cache: map<string, CampaignView>, id: Id, row: Campaign)
    requires CacheKey(id) in cache && IsViewOf(campaigns, children, id, cache[CacheKey(id)])
    requires row != campaigns[id]
    ensures !Coherent(campaigns[id := row], children, cache)
  {
    assert !IsViewOf(campaigns[id := row], children, id, cache[CacheKey(id)]);
  }

  /** Deleting a row together with its key keeps the cache coherent. */
  lemma CoherentAfterDelete(campaigns: map<Id, Campaign>, children: ChildTables,
                            cache: map<string, CampaignView>, id: Id)
    requires Coherent(campaigns, children, cache)
    ensures Coherent(campaigns - {id}, children, cache - {CacheKey(id)})
  {
    forall other | CacheKey(other) in cache - {CacheKey(id)}
      ensures IsViewOf(campaigns - {id}, children, other, (cache - {CacheKey(id)})[CacheKey(other)])
    {
      assert other != id;
      assert IsViewOf(campaigns, children, other, cache[CacheKey(other)]);
    }
  }

  class CampaignService {
    /** The `campaigns` table. */
    var campaigns: map<Id, Campaign>
    /** The milestones, reward_tiers and updates tables. */
    var children: ChildTables
    /** The key/value cache. */
    var cache: map<string, CampaignView>

    ghost predicate Valid()
      reads this
    {
      && WellKeyed(campaigns, children)
      && ChildrenReferToCampaigns(campaigns, children)
      && (forall id :: id in campaigns ==> Canon(id) == id)
      && Coherent(campaigns, children, cache)
    }

    /** A service over existing tables and an empty cache. */
    constructor (campaigns: map<Id, Campaign>, children: ChildTables)
      requires WellKeyed(campaigns, children) && ChildrenReferToCampaigns(campaigns, children)
      requires forall id :: id in campaigns ==> Canon(id) == id
      ensures Valid()
      ensures this.campaigns == campaigns && this.children == children && cache == map[]
    {
      this.campaigns := campaigns;
      this.children := children;
      this.cache := map[];
    }

    /**
     * createCampaign: inserts one row owned by the caller, in status
     * "draft" with nothing raised yet. A key collision makes the INSERT
     * fail, and the handler turns any failure into a 500.
     */
    method CreateCampaign(userId: Id, input: CampaignInput, newId: Id, now: Timestamp)
      returns (r: Result<Campaign, Error>)
      requires Valid()
      requires Canon(newId) == newId
      modifies this`campaigns
      ensures Valid()
      ensures newId in old(campaigns) ==>
                r == Failure(ApiError(500, "Error creating campaign")) && campaigns == old(campaigns)
      ensures newId !in old(campaigns) ==>
                && r.Success?
                && campaigns == old(campaigns)[newId := r.value]
                && r.value.id == newId && r.value.userId == userId
                && r.value.status == Some(Draft) && r.value.currentAmount == 0.0
                && r.value.title == input.title && r.value.description == input.description
                && r.value.fundingGoal == input.fundingGoal
                && r.value.startDate == input.startDate && r.value.endDate == input.endDate
                && r.value.bannerImageUrl == input.bannerImageUrl
                && r.value.createdAt == now && r.value.updatedAt == now
    {
      if newId in campaigns {
        return Failure(ApiError(500, "Error creating campaign"));
      }
      var row := Campaign(newId, userId, input.title, input.description, input.fundingGoal, 0.0,
                          input.startDate, input.endDate, Some(Draft), input.bannerImageUrl, now, now);
      CoherentAfterInsert(campaigns, children, cache, newId, row);
      campaigns := campaigns[newId := row];
      r := Success(row);
    }

    /** getUserCampaigns: the caller's campaigns, newest first. */
    method GetUserCampaigns(userId: Id) returns (rows: seq<Campaign>)
      requires Valid()
      ensures IsSelection(campaigns, CampaignKey, OwnedBy(userId), NewestFirst, rows)
    {
      OrdersArePreorders();
      rows := Select(campaigns, CampaignKey, OwnedBy(userId), NewestFirst);
    }

    /**
     * getCampaign: a cache hit is returned as stored and touches nothing
     * else; a miss reads the row and its children, stores that view under
     * the campaign's cache key and returns it; a missing row is a 404. Because the
     * cache is coherent, whatever is returned is the current row.
     */
    method GetCampaign(id: Id) returns (r: Result<Served, Error>)
      requires Valid()
      modifies this`cache
      ensures Valid()
      ensures CacheKey(Canon(id)) in old(cache) ==>
                r == Success(Served(old(cache)[CacheKey(Canon(id))], FromCache)) && cache == old(cache)
      ensures CacheKey(Canon(id)) !in old(cache) && Canon(id) !in campaigns ==>
                r == Failure(NotFound) && cache == old(cache)
      ensures CacheKey(Canon(id)) !in old(cache) && Canon(id) in campaigns ==>
                && r.Success? && r.value.source == FromDatabase
                && cache == old(cache)[CacheKey(Canon(id)) := r.value.data]
      ensures r.Success? ==> IsViewOf(campaigns, children, Canon(id), r.value.data)
    {
      var key := CacheKey(Canon(id));
      if key in cache {
        return Success(Served(cache[key], FromCache));
      }
      if Canon(id) !in campaigns {
        return Failure(Rethrow(NotFound, "Error fetching campaign"));
      }
      OrdersArePreorders();
      var ms := Select(children.milestones, MilestoneKey, MilestoneOf(Canon(id)), ByTargetAmount);
      var ts := Select(children.rewardTiers, RewardTierKey, RewardTierOf(Canon(id)), ByMinimumAmount);
      var us := Select(children.updates, UpdateKey, UpdateOf(Canon(id)), LatestPublishedFirst);
      var view := CampaignView(campaigns[Canon(id)], ms, ts, us);
      CoherentAfterFill(campaigns, children, cache, Canon(id), view);
      cache := cache[key := view];
      r := Success(Served(view, FromDatabase));
    }

    /**
     * updateCampaign: only the owner may update; otherwise (or when the
     * row is missing) a 404 and no change. On success every column in the
     * body is overwritten, updated_at is refreshed, the rest of the row is
     * kept, and the cache entry is dropped.
     */
    method UpdateCampaign(id: Id, userId: Id, changes: CampaignChanges, now: Timestamp)
      returns (r: Result<Campaign, Error>)
      requires Valid()
      modifies this`campaigns, this`cache
      ensures Valid()
      ensures Canon(id) !in old(campaigns) || old(campaigns)[Canon(id)].userId != userId ==>
                && r == Failure(NotFoundOrUnauthorized)
                && campaigns == old(campaigns) && cache == old(cache)
      ensures Canon(id) in old(campaigns) && old(campaigns)[Canon(id)].userId == userId ==>
                && r.Success?
                && campaigns == old(campaigns)[Canon(id) := r.value]
                && cache == old(cache) - {CacheKey(Canon(id))}
                && r.value == old(campaigns)[Canon(id)].(
                     title := changes.title, description := changes.description,
                     fundingGoal := changes.fundingGoal, startDate := changes.startDate,
                     endDate := changes.endDate, status := changes.status,
                     bannerImageUrl := changes.bannerImageUrl, updatedAt := now)
    {
      if Canon(id) !in campaigns || campaigns[Canon(id)].userId != userId {
        return Failure(Rethrow(NotFoundOrUnauthorized, "Error updating campaign"));
      }
      var row := campaigns[Canon(id)].(
        title := changes.title, description := changes.description,
        fundingGoal := changes.fundingGoal, startDate := changes.startDate,
        endDate := changes.endDate, status := changes.status,
        bannerImageUrl := changes.bannerImageUrl, updatedAt := now);
      CoherentAfterInvalidate(campaigns, children, cache, Canon(id), row);
      campaigns := campaigns[Canon(id) := row];
      cache := cache - {CacheKey(Canon(id))};
      r := Success(row);
    }

    /**
     * deleteCampaign: same ownership check as update. While a milestone,
     * reward tier or update still refers to the campaign, the DELETE
     * violates that row's foreign key: the handler answers 500 and nothing
     * changes, the cache key included. Otherwise the row and its cache key
     * are removed.
     */
    method DeleteCampaign(id: Id, userId: Id) returns (r: Result<string, Error>)
      requires Valid()
      modifies this`campaigns, this`cache
      ensures Valid()
      ensures children == old(children)
      ensures Canon(id) !in old(campaigns) || old(campaigns)[Canon(id)].userId != userId ==>
                && r == Failure(NotFoundOrUnauthorized)
                && campaigns == old(campaigns) && cache == old(cache)
      ensures Canon(id) in old(campaigns) && old(campaigns)[Canon(id)].userId == userId && HasChildren(children, Canon(id)) ==>
                && r == Failure(ApiError(500, "Error deleting campaign"))
                && campaigns == old(campaigns) && cache == old(cache)
      ensures Canon(id) in old(campaigns) && old(campaigns)[Canon(id)].userId == userId && !HasChildren(children, Canon(id)) ==>
                && r == Success(DeletedMessage)
                && campaigns == old(campaigns) - {Canon(id)}
                && cache == old(cache) - {CacheKey(Canon(id))}
    {
      if Canon(id) !in campaigns || campaigns[Canon(id)].userId != userId {
        return Failure(Rethrow(NotFoundOrUnauthorized, "Error deleting campaign"));
      }
      if HasChildren(children, Canon(id)) {
        return Failure(Rethrow(InternalError("violates foreign key constraint"), "Error deleting campaign"));
      }
      DeleteKeepsReferencesIff(campaigns, children, Canon(id));
      CoherentAfterDelete(campaigns, children, cache, Canon(id));
      campaigns := campaigns - {Canon(id)};
      cache := cache - {CacheKey(Canon(id))};
      r := Success(DeletedMessage);
    }
  }

  /**
   * A campaign created with a funding goal of 1000 is read (filling the
   * cache), updated to 2000 and read again: the second read returns 2000,
   * not the cached 1000. The first read of the fresh campaign has no
   * children, status "draft" and nothing raised.
   */
  method UpdateThenGetScenario() returns (first: CampaignView, goal: Amount)
    ensures first.campaign.status == Some(Draft) && first.campaign.currentAmount == 0.0
    ensures first.campaign.fundingGoal == 1000.0
    ensures first.milestones == [] && first.rewardTiers == [] && first.updates == []
    ensures goal == 2000.0
  {
    var children := ChildTables(map[], map[], map[]);
    var service := new CampaignService(map[], children);
    var created := service.CreateCampaign("artist", CampaignInput("Album", "Debut album", 1000.0, 1, 2, None), "c1", 0);
    var read := service.GetCampaign("c1");
    first := read.value.data;
    SelectionOfNoMatch(children.milestones, MilestoneKey, MilestoneOf("c1"), ByTargetAmount, first.milestones);
    SelectionOfNoMatch(children.rewardTiers, RewardTierKey, RewardTierOf("c1"), ByMinimumAmount, first.rewardTiers);
    SelectionOfNoMatch(children.updates, UpdateKey, UpdateOf("c1"), LatestPublishedFirst, first.updates);
    var changes := CampaignChanges("Album", "Debut album", 2000.0, 1, 2, Some("active"), None);
    var updated := service.UpdateCampaign("c1", "artist", changes, 5);
    var reread := service.GetCampaign("c1");
    goal := reread.value.data.campaign.fundingGoal;
  }

  /**
   * An owned campaign with one milestone cannot be deleted: its owner gets
   * a 500, and the campaign is still served afterwards.
   */
  method DeleteWithMilestoneScenario() returns (deleted: Result<string, Error>, after: Result<Served, Error>)
    ensures deleted == Failure(ApiError(500, "Error deleting campaign"))
    ensures after.Success? && after.value.data.campaign.id == "c1"
  {
    var c := Campaign("c1", "artist", "Album", "Debut album", 1000.0, 0.0, 1, 2, Some(Draft), None, 0, 0);
    var m := Milestone("m1", "c1", "Mixing", None, 500.0, None, 0, 0);
    var children := ChildTables(map["m1" := m], map[], map[]);
    var service := new CampaignService(map["c1" := c], children);
    assert children.milestones["m1"].campaignId == "c1";
    deleted := service.DeleteCampaign("c1", "artist");
    after := service.GetCampaign("c1");
  }

  /**
   * The same campaign read under an upper-case spelling of its id, updated
   * under the stored spelling and read again under the upper-case one: the
   * second read returns the new goal, because both spellings share one
   * cache key.
   */
  method UpdateThenGetOtherSpellingScenario() returns (before: Amount, after: Amount)
    ensures before == 1000.0
    ensures after == 2000.0
  {
    var children := ChildTables(map[], map[], map[]);
    var service := new CampaignService(map[], children);
    UpperCaseSpellingSameCampaign();
    var created := service.CreateCampaign("artist", CampaignInput("Album", "Debut album", 1000.0, 1, 2, None), "c1", 0);
    var read := service.GetCampaign("C1");
    before := read.value.data.campaign.fundingGoal;
    var changes := CampaignChanges("Album", "Debut album", 2000.0, 1, 2, Some("active"), None);
    var updated := service.UpdateCampaign("c1", "artist", changes, 5);
    var reread := service.GetCampaign("C1");
    after := reread.value.data.campaign.fundingGoal;
  }
}
