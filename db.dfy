/**
 * The database the handlers work on: one collection per model. Records the
 * handlers update in place are objects; the ledger, the file records and the
 * blocklist hold values. Calls are kept in insertion order, because the
 * handlers look a call up by its provider call id and take the first match.
 */
module Db {
  import opened Util
  import UserModel
  import CampaignModel
  import CallModel
  import BillingModel
  import CallerIdModel
  import FileModel
  import BlocklistModel
  import NotificationModel
  import SettingModel

  class Database {
    var users: map<Id, UserModel.User>
    var campaigns: map<Id, CampaignModel.Campaign>
    var calls: seq<CallModel.Call>
    var ledger: seq<BillingModel.Billing>
    var callerIds: map<Id, CallerIdModel.CallerId>
    var files: map<Id, FileModel.FileRecord>
    var blocklist: seq<BlocklistModel.BlockedWord>
    var notifications: map<Id, NotificationModel.Notification>
    const settings: SettingModel.SettingStore

    constructor (settings: SettingModel.SettingStore)
      ensures this.settings == settings
      ensures users == map[] && campaigns == map[] && calls == [] && ledger == []
      ensures callerIds == map[] && files == map[] && blocklist == [] && notifications == map[]
    {
      this.settings := settings;
      users := map[];
      campaigns := map[];
      calls := [];
      ledger := [];
      callerIds := map[];
      files := map[];
      blocklist := [];
      notifications := map[];
    }

    /** The user with this id, if any (`User.findById`). */
    function UserById(id: Id): (u: Option<UserModel.User>)
      reads this
      ensures u.Some? <==> id in users
      ensures u.Some? ==> u.value == users[id]
    {
      if id in users then Some(users[id]) else None
    }

    /** The frame of a handler that may change one user: that user, when there is one. */
    function UserFrame(id: Id): set<UserModel.User>
      reads this
    {
      if id in users then {users[id]} else {}
    }

    /** The campaign with this id owned by this user (`findOne({_id, user})`). */
    function OwnedCampaign(id: Id, user: Id): (c: Option<CampaignModel.Campaign>)
      reads this
      ensures c.Some? <==> id in campaigns && campaigns[id].user == user
      ensures c.Some? ==> c.value == campaigns[id]
    {
      if id in campaigns && campaigns[id].user == user then Some(campaigns[id]) else None
    }

    function OwnedCampaignFrame(id: Id, user: Id): set<CampaignModel.Campaign>
      reads this
    {
      if id in campaigns && campaigns[id].user == user then {campaigns[id]} else {}
    }

    /** The number of this user's campaigns that are active. */
    function ActiveCampaignsOf(user: Id): nat
      reads this, campaigns.Values
    {
      |set k | k in campaigns && campaigns[k].user == user && campaigns[k].status == CampaignModel.Active|
    }
  }

  /** The index of the first call with this provider call id (`Call.findOne({callId})`). */
  function FindCall(calls: seq<CallModel.Call>, callId: string): (k: Option<nat>)
    ensures k.Some? ==> k.value < |calls| && calls[k.value].callId == callId
    ensures k.Some? ==> forall j :: 0 <= j < k.value ==> calls[j].callId != callId
    ensures k.None? ==> forall j :: 0 <= j < |calls| ==> calls[j].callId != callId
  {
    if calls == [] then None
    else if calls[0].callId == callId then Some(0)
    else
      var k := FindCall(calls[1..], callId);
      if k.Some? then Some(k.value + 1) else None
  }
}
