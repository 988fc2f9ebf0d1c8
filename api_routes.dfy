/**
 * The provider-facing part of the back end: the two endpoints that apply a
 * call-status event to a Call (and, for terminal events, to its campaign's
 * progress), the test call, and campaign dispatch, which creates one Call
 * per contact in batches and settles the cost once the last batch is out.
 *
 * Request fields the client leaves out are "" (strings) or 0 (numbers), which
 * is how the handlers' `||` and truthiness tests see them. Money is in cents.
 * The clock, the generated call ids and the simulated outcomes are inputs.
 */
module ApiRoutes {
  import opened Util
  import opened Http
  import opened CampaignModel
  import opened CallModel
  import BillingModel
  import opened SettingModel
  import UserModel
  import CallerIdModel
  import opened Contacts
  import opened Batching
  import opened Db

  // ---------------------------------------------------------------------------
  // Call-status events
  // ---------------------------------------------------------------------------

  /** The statuses after which a call counts as processed for its campaign. */
  predicate Terminal(status: string)
  {
    status == "completed" || status == "failed" || status == "busy" || status == "no-answer" || status == Transfer
  }

  /** The body of a status event: call id, status, duration in seconds and pressed digits. */
  datatype CallEvent = CallEvent(callId: string, status: string, duration: int, dtmfDigits: string)

  /** The part of a Call that events change. */
  datatype CallState = CallState(status: string, duration: int, dtmfDigits: string, updatedAt: int)

  function StateOf(call: Call): CallState
    reads call
  {
    CallState(call.status, call.duration, call.dtmfDigits, call.updatedAt)
  }

  /** The caller pressed the transfer key of the call's campaign. */
  predicate PressedTransferKey(ev: CallEvent, transferKey: Option<string>)
  {
    ev.dtmfDigits != "" && transferKey == Some(ev.dtmfDigits)
  }

  /**
   * /call/process: the reported status replaces the call's status as it is,
   * duration and digits only when reported; a pressed transfer key turns the
   * status into "transfer".
   */
  function ProcessUpdate(c: CallState, ev: CallEvent, transferKey: Option<string>, now: int): (r: CallState)
    ensures !PressedTransferKey(ev, transferKey) ==> r.status == ev.status
    ensures ev.duration == 0 ==> r.duration == c.duration
    ensures ev.dtmfDigits == "" ==> r.dtmfDigits == c.dtmfDigits
    ensures r.updatedAt == now
  {
    CallState(
      if PressedTransferKey(ev, transferKey) then Transfer else ev.status,
      if ev.duration != 0 then ev.duration else c.duration,
      if ev.dtmfDigits != "" then ev.dtmfDigits else c.dtmfDigits,
      now)
  }

  /** The webhook: as /call/process, except that a missing status keeps the call's status. */
  function WebhookUpdate(c: CallState, ev: CallEvent, transferKey: Option<string>, now: int): (r: CallState)
    ensures r.status == (if ev.status != "" then ProcessUpdate(c, ev, transferKey, now).status
                         else if PressedTransferKey(ev, transferKey) then Transfer else c.status)
    ensures r.duration == ProcessUpdate(c, ev, transferKey, now).duration
    ensures r.dtmfDigits == ProcessUpdate(c, ev, transferKey, now).dtmfDigits
    ensures r.updatedAt == now
  {
    CallState(
      if PressedTransferKey(ev, transferKey) then Transfer
      else if ev.status != "" then ev.status else c.status,
      if ev.duration != 0 then ev.duration else c.duration,
      if ev.dtmfDigits != "" then ev.dtmfDigits else c.dtmfDigits,
      now)
  }

  /** The transfer key overrides whatever status the event reports, at both endpoints. */
  lemma TransferKeyOverrides(c: CallState, ev: CallEvent, transferKey: Option<string>, now: int)
    ensures PressedTransferKey(ev, transferKey) ==>
      ProcessUpdate(c, ev, transferKey, now).status == Transfer
      && WebhookUpdate(c, ev, transferKey, now).status == Transfer
    ensures !PressedTransferKey(ev, transferKey) ==>
      ProcessUpdate(c, ev, transferKey, now).status == ev.status
      && WebhookUpdate(c, ev, transferKey, now).status == (if ev.status != "" then ev.status else c.status)
  {
  }

  /** Fields the webhook event leaves out keep the call's previous values. */
  lemma WebhookKeepsMissingFields(c: CallState, ev: CallEvent, transferKey: Option<string>, now: int)
    ensures var r := WebhookUpdate(c, ev, transferKey, now);
      (ev.status == "" && !PressedTransferKey(ev, transferKey) ==> r.status == c.status)
      && (ev.duration == 0 ==> r.duration == c.duration)
      && (ev.dtmfDigits == "" ==> r.dtmfDigits == c.dtmfDigits && r.status == (if ev.status != "" then ev.status else c.status))
      && r.updatedAt == now
  {
  }

  /** The part of a Campaign that processed contacts change. */
  datatype Tally = Tally(processed: int, status: CampaignStatus, endTime: Option<int>)

  function TallyOf(campaign: Campaign): Tally
    reads campaign
  {
    Tally(campaign.processedContacts, campaign.status, campaign.endTime)
  }

  /**
   * One more processed contact: the count goes up by one, and once it reaches
   * the campaign's total the campaign is completed and its end time set.
   */
  function CountOne(t: Tally, total: int, now: int): Tally
  {
    var p := t.processed + 1;
    if p >= total then Tally(p, Completed, Some(now)) else t.(processed := p)
  }

  /**
   * What counting a contact does: exactly one more, completion exactly when
   * the total is reached (or the campaign was already completed), and the end
   * time moves only on completion.
   */
  lemma CountOneEffect(t: Tally, total: int, now: int)
    ensures CountOne(t, total, now).processed == t.processed + 1
    ensures CountOne(t, total, now).status == Completed <==> t.processed + 1 >= total || t.status == Completed
    ensures t.processed + 1 >= total ==> CountOne(t, total, now).endTime == Some(now)
    ensures t.processed + 1 < total ==> CountOne(t, total, now).endTime == t.endTime
  {
  }

  /**
   * The save that follows an event: the call with its event-changed part set
   * to `s` passes the schema's validation. Nothing else decides it, since the
   * event changes no required field.
   */
  predicate SaveAccepts(call: Call, s: CallState)
    reads call
  {
    Validates(call.campaign, call.user, call.callerId, call.phoneNumber, s.status)
  }

  /**
   * The webhook's effect on the call, for a call whose required fields are
   * set: the update when the save accepts it, and no change when the save
   * rejects it.
   */
  function WebhookNext(c: CallState, ev: CallEvent, transferKey: Option<string>, now: int): CallState
  {
    var c' := WebhookUpdate(c, ev, transferKey, now);
    if StatusAccepted(c'.status) then c' else c
  }

  /** The webhook counts the event: the save accepts the update and the updated status is terminal. */
  predicate WebhookCounts(c: CallState, ev: CallEvent, transferKey: Option<string>, now: int)
  {
    var c' := WebhookUpdate(c, ev, transferKey, now);
    StatusAccepted(c'.status) && Terminal(c'.status)
  }

  /**
   * A pressed transfer key stores nothing and counts nothing at either
   * endpoint: the "transfer" it sets is outside the schema's enumeration.
   */
  lemma TransferKeyRejected(c: CallState, ev: CallEvent, transferKey: Option<string>, now: int)
    requires PressedTransferKey(ev, transferKey)
    ensures !StatusAccepted(ProcessUpdate(c, ev, transferKey, now).status)
    ensures WebhookNext(c, ev, transferKey, now) == c && !WebhookCounts(c, ev, transferKey, now)
  {
    TransferKeyOverrides(c, ev, transferKey, now);
    HandlerStatusesOutsideSchema();
  }

  /** The state and count a run of webhook events leaves, for a call whose required fields are set. */
  function WebhookRun(c: CallState, t: Tally, evs: seq<CallEvent>, transferKey: Option<string>, total: int, now: int)
    : (CallState, Tally)
    decreases |evs|
  {
    if evs == [] then (c, t)
    else
      var t' := if WebhookCounts(c, evs[0], transferKey, now) then CountOne(t, total, now) else t;
      WebhookRun(WebhookNext(c, evs[0], transferKey, now), t', evs[1..], transferKey, total, now)
  }

  /** The number of events in a run that the webhook counts. */
  function TerminalEvents(c: CallState, evs: seq<CallEvent>, transferKey: Option<string>, now: int): nat
    decreases |evs|
  {
    if evs == [] then 0
    else
      (if WebhookCounts(c, evs[0], transferKey, now) then 1 else 0)
      + TerminalEvents(WebhookNext(c, evs[0], transferKey, now), evs[1..], transferKey, now)
  }

  /**
   * There is no guard against counting a call twice: over a run of webhook
   * events for one call, processedContacts rises by the number of events
   * whose update is saved with a terminal status, however many were for the
   * same call; and once a run completes the campaign, later events never
   * undo it.
   */
  lemma {:induction false} WebhookRunCounts(c: CallState, t: Tally, evs: seq<CallEvent>, transferKey: Option<string>, total: int, now: int)
    ensures WebhookRun(c, t, evs, transferKey, total, now).1.processed == t.processed + TerminalEvents(c, evs, transferKey, now)
    ensures t.status == Completed ==> WebhookRun(c, t, evs, transferKey, total, now).1.status == Completed
    decreases |evs|
  {
    if evs != [] {
      var t' := if WebhookCounts(c, evs[0], transferKey, now) then CountOne(t, total, now) else t;
      WebhookRunCounts(WebhookNext(c, evs[0], transferKey, now), t', evs[1..], transferKey, total, now);
    }
  }

  /**
   * The same event delivered twice counts the call twice when it reports a
   * terminal status the schema accepts and no transfer key; otherwise it is
   * not counted at all.
   */
  lemma RepeatedTerminalEventCountsTwice(c: CallState, t: Tally, ev: CallEvent, transferKey: Option<string>, total: int, now: int)
    requires Terminal(ev.status)
    ensures WebhookRun(c, t, [ev, ev], transferKey, total, now).1.processed
            == t.processed + (if StatusAccepted(ev.status) && !PressedTransferKey(ev, transferKey) then 2 else 0)
  {
    WebhookRunCounts(c, t, [ev, ev], transferKey, total, now);
    var c' := WebhookNext(c, ev, transferKey, now);
    assert [ev, ev][1..] == [ev] && [ev][1..] == [];
    assert TerminalEvents(WebhookNext(c', ev, transferKey, now), [], transferKey, now) == 0;
    if PressedTransferKey(ev, transferKey) {
      TransferKeyRejected(c, ev, transferKey, now);
      TransferKeyRejected(c', ev, transferKey, now);
    }
  }

  /**
   * The two endpoints decide "terminal" on different statuses: /call/process
   * on the reported one, the webhook on the call's status after the update.
   * An event with no status for a call already "completed" is counted again
   * by the webhook, which keeps the status; /call/process clears the status
   * and does not count it.
   */
  lemma EndpointsDisagreeOnMissingStatus(c: CallState, callId: string, key: Option<string>, now: int)
    requires c.status == "completed"
    ensures var ev := CallEvent(callId, "", 0, "");
      ProcessUpdate(c, ev, key, now).status == "" && StatusAccepted("") && !Terminal(ev.status)
      && WebhookNext(c, ev, key, now).status == "completed" && WebhookCounts(c, ev, key, now)
  {
  }

  // ---------------------------------------------------------------------------
  // The two event endpoints
  // ---------------------------------------------------------------------------

  /** The call's campaign, when the call has one and it still exists (`Campaign.findById`). */
  function CampaignOf(db: Database, campaign: Option<Id>): Option<Campaign>
    reads db
  {
    if campaign.Some? && campaign.value in db.campaigns then Some(db.campaigns[campaign.value]) else None
  }

  function TransferKeyOf(db: Database, campaign: Option<Id>): Option<string>
    reads db, db.campaigns.Values
  {
    var c := CampaignOf(db, campaign);
    if c.Some? then Some(c.value.transferKey) else None
  }

  /** What an event for this call id may change: the call, and its campaign. */
  function CallFrame(db: Database, callId: string): set<Call>
    reads db
  {
    var k := FindCall(db.calls, callId);
    if k.Some? then {db.calls[k.value]} else {}
  }

  function CampaignFrame(db: Database, callId: string): set<Campaign>
    reads db
  {
    var k := FindCall(db.calls, callId);
    if k.None? then {} else CampaignSet(db, db.calls[k.value].campaign)
  }

  /** processedContacts += 1, and completion once the total is reached. */
  method CountContact(campaign: Campaign, now: int)
    modifies campaign`processedContacts, campaign`status, campaign`endTime
    ensures TallyOf(campaign) == CountOne(old(TallyOf(campaign)), campaign.totalContacts, now)
  {
    campaign.processedContacts := campaign.processedContacts + 1;
    if campaign.processedContacts >= campaign.totalContacts {
      campaign.status := Completed;
      campaign.endTime := Some(now);
    }
  }

  /** Writes an event-changed part into a call. */
  method Store(call: Call, s: CallState)
    modifies call`status, call`duration, call`dtmfDigits, call`updatedAt
    ensures StateOf(call) == s
  {
    call.status := s.status;
    call.duration := s.duration;
    call.dtmfDigits := s.dtmfDigits;
    call.updatedAt := s.updatedAt;
  }

  /**
   * POST /call/process: 404 for an unknown call id; a 500 when the save of
   * the updated call fails validation, which leaves the call and its
   * campaign as they were; otherwise the first call with that id takes the
   * event, and its campaign counts one more processed contact when the
   * REPORTED status is terminal.
   *
   * The handler assigns the fields before it saves; the model computes the
   * new values first and writes them only once the save passes, which is
   * what the database ends up holding.
   */
  method ProcessCall(db: Database, ev: CallEvent, now: int) returns (r: Result<Call>)
    modifies CallFrame(db, ev.callId), CampaignFrame(db, ev.callId)
    ensures FindCall(db.calls, ev.callId).None? ==> r == Err(NotFound("Call not found"))
    ensures FindCall(db.calls, ev.callId).Some? ==>
      var call := db.calls[FindCall(db.calls, ev.callId).value];
      var next := ProcessUpdate(old(StateOf(call)), ev, old(TransferKeyOf(db, call.campaign)), now);
      var c := CampaignOf(db, call.campaign);
      (r.Ok? <==> SaveAccepts(call, next))
      && (!SaveAccepts(call, next) ==>
            r == Err(ServerError("Error processing call")) && StateOf(call) == old(StateOf(call))
            && (c.Some? ==> TallyOf(c.value) == old(TallyOf(c.value))))
      && (SaveAccepts(call, next) ==>
            r == Ok(call) && StateOf(call) == next
            && (c.Some? ==>
                  TallyOf(c.value) == if Terminal(ev.status) then CountOne(old(TallyOf(c.value)), c.value.totalContacts, now)
                                      else old(TallyOf(c.value))))
  {
    var k := FindCall(db.calls, ev.callId);
    if k.None? {
      return Err(NotFound("Call not found"));
    }
    var call := db.calls[k.value];
    var status := ev.status;
    if ev.dtmfDigits != "" && call.campaign.Some? {
      var campaign := CampaignOf(db, call.campaign);
      if campaign.Some? && ev.dtmfDigits == campaign.value.transferKey {
        status := Transfer;
      }
    }
    var next := CallState(status,
                          if ev.duration != 0 then ev.duration else call.duration,
                          if ev.dtmfDigits != "" then ev.dtmfDigits else call.dtmfDigits,
                          now);
    if !SaveAccepts(call, next) {
      return Err(ServerError("Error processing call"));
    }
    Store(call, next);
    if call.campaign.Some? && Terminal(ev.status) {
      var campaign := CampaignOf(db, call.campaign);
      if campaign.Some? {
        CountContact(campaign.value, now);
      }
    }
    return Ok(call);
  }

  /**
   * POST /infobip/webhook: 200 unless the save fails. With a call id that
   * names a call, the first such call takes the event when the save of the
   * updated call passes validation, and its campaign counts one more
   * processed contact when the call's status AFTER the update is terminal;
   * when the save fails the answer is a 500 and nothing changes. Without a
   * call id, or with one that names no call, nothing changes.
   */
  method Webhook(db: Database, ev: CallEvent, now: int) returns (r: Result<()>)
    modifies if ev.callId != "" then CallFrame(db, ev.callId) else {}
    modifies if ev.callId != "" then CampaignFrame(db, ev.callId) else {}
    ensures (ev.callId == "" || FindCall(db.calls, ev.callId).None?) ==> r == Ok(())
    ensures ev.callId != "" && FindCall(db.calls, ev.callId).Some? ==>
      var call := db.calls[FindCall(db.calls, ev.callId).value];
      var next := WebhookUpdate(old(StateOf(call)), ev, old(TransferKeyOf(db, call.campaign)), now);
      var c := CampaignOf(db, call.campaign);
      (r == if SaveAccepts(call, next) then Ok(()) else Err(ServerError("Error processing webhook")))
      && StateOf(call) == (if SaveAccepts(call, next) then next else old(StateOf(call)))
      && (c.Some? ==>
            TallyOf(c.value) == if SaveAccepts(call, next) && Terminal(next.status)
                                then CountOne(old(TallyOf(c.value)), c.value.totalContacts, now)
                                else old(TallyOf(c.value)))
  {
    r := Ok(());
    if ev.callId != "" {
      var k := FindCall(db.calls, ev.callId);
      if k.Some? {
        var saved := WebhookApply(db, db.calls[k.value], ev, now);
        if !saved {
          r := Err(ServerError("Error processing webhook"));
        }
      }
    }
  }

  /**
   * The webhook's update of the call it found, and of that call's campaign;
   * returns whether the save passed. For a call whose required fields are
   * set this is one step of WebhookRun.
   */
  method WebhookApply(db: Database, call: Call, ev: CallEvent, now: int) returns (saved: bool)
    modifies call, CampaignSet(db, call.campaign)
    ensures var next := WebhookUpdate(old(StateOf(call)), ev, old(TransferKeyOf(db, call.campaign)), now);
      (saved <==> SaveAccepts(call, next))
      && StateOf(call) == if saved then next else old(StateOf(call))
    ensures var c := CampaignOf(db, call.campaign);
      c.Some? ==>
        TallyOf(c.value) == if saved && Terminal(call.status) then CountOne(old(TallyOf(c.value)), c.value.totalContacts, now)
                            else old(TallyOf(c.value))
    ensures call.RequiredFieldsSet() ==>
      var c := CampaignOf(db, call.campaign);
      var key := old(TransferKeyOf(db, call.campaign));
      StateOf(call) == WebhookNext(old(StateOf(call)), ev, key, now)
      && (c.Some? ==>
            TallyOf(c.value) == if WebhookCounts(old(StateOf(call)), ev, key, now)
                                then CountOne(old(TallyOf(c.value)), c.value.totalContacts, now)
                                else old(TallyOf(c.value)))
  {
    var status := if ev.status != "" then ev.status else call.status;
    if ev.dtmfDigits != "" && call.campaign.Some? {
      var campaign := CampaignOf(db, call.campaign);
      if campaign.Some? && ev.dtmfDigits == campaign.value.transferKey {
        status := Transfer;
      }
    }
    var next := CallState(status,
                          if ev.duration != 0 then ev.duration else call.duration,
                          if ev.dtmfDigits != "" then ev.dtmfDigits else call.dtmfDigits,
                          now);
    saved := SaveAccepts(call, next);
    if !saved {
      return;
    }
    Store(call, next);
    if call.campaign.Some? && Terminal(call.status) {
      var campaign := CampaignOf(db, call.campaign);
      if campaign.Some? {
        CountContact(campaign.value, now);
      }
    }
  }

  /** The campaign a call belongs to, as a frame. */
  function CampaignSet(db: Database, campaign: Option<Id>): set<Campaign>
    reads db
  {
    var c := CampaignOf(db, campaign);
    if c.Some? then {c.value} else {}
  }

  // ---------------------------------------------------------------------------
  // Ledger records the handlers write
  // ---------------------------------------------------------------------------

  /**
   * A completed debit for `calls` calls at `rate` each: amount and credits
   * are the total cost, profit is what is left after the provider's rate.
   */
  function DebitRecord(id: Id, user: Id, description: string, campaign: Option<Id>,
                       calls: int, rate: int, providerRate: int): (b: BillingModel.Billing)
    ensures b.id == id && b.user == user && b.description == description && b.campaign == campaign
    ensures b.kind == BillingModel.Debit && b.status == BillingModel.Completed
    ensures b.calls == calls && b.callRate == b.platformRate == rate
    ensures b.amount == b.credits == calls * rate && b.profit == calls * rate - calls * providerRate
  {
    BillingModel.NewBilling(id, user, BillingModel.Debit, calls * rate, calls * rate, description)
      .(status := BillingModel.Completed, campaign := campaign, calls := calls,
        callRate := rate, platformRate := rate, profit := (rate - providerRate) * calls)
  }

  /** A debit splits its amount into the provider's share and the platform's profit. */
  lemma DebitBalances(id: Id, user: Id, description: string, campaign: Option<Id>,
                      calls: int, rate: int, providerRate: int)
    ensures var b := DebitRecord(id, user, description, campaign, calls, rate, providerRate);
      b.kind == BillingModel.Debit && b.status == BillingModel.Completed
      && b.paymentMethod == BillingModel.SystemPayment
      && b.amount == b.credits == calls * b.callRate
      && b.profit + calls * providerRate == b.amount
      && (calls == 1 ==> b.amount == rate && b.profit == rate - providerRate)
  {
    assert (rate - providerRate) * calls == rate * calls - providerRate * calls;
  }

  /** `getByKey('call_rate.platform') || 0.05`, in cents. */
  function PlatformRate(db: Database): (rate: int)
    reads db.settings
    ensures var v := db.settings.GetByKey(PlatformRateKey);
      rate == if v.Some? && v.value.Num? && v.value.n != 0 then v.value.n else DefaultPlatformRate
  {
    NumberSetting(db.settings.GetByKey(PlatformRateKey), DefaultPlatformRate)
  }

  /** `getByKey('call_rate.provider') || 0.03`, in cents. */
  function ProviderRate(db: Database): (rate: int)
    reads db.settings
    ensures var v := db.settings.GetByKey(ProviderRateKey);
      rate == if v.Some? && v.value.Num? && v.value.n != 0 then v.value.n else DefaultProviderRate
  {
    NumberSetting(db.settings.GetByKey(ProviderRateKey), DefaultProviderRate)
  }

  // ---------------------------------------------------------------------------
  // Test call
  // ---------------------------------------------------------------------------

  datatype TestCallRequest = TestCallRequest(phoneNumber: string, messageScript: string, callerIdId: string)

  /** A caller ID a user may call from: theirs, verified and active. */
  predicate Usable(c: CallerIdModel.CallerId, user: Id)
    reads c
  {
    c.user == user && c.isVerified && c.isActive
  }

  predicate HasUsableCallerId(db: Database, user: Id)
    reads db, db.callerIds.Values
  {
    exists k :: k in db.callerIds && Usable(db.callerIds[k], user)
  }

  /** The first check of a test call: both fields present. */
  predicate TestFieldsGiven(req: TestCallRequest)
  {
    req.phoneNumber != "" && req.messageScript != ""
  }

  /** The second check: the named caller ID usable, or, when none is named, some caller ID usable. */
  predicate TestCallerIdPasses(db: Database, user: Id, req: TestCallRequest)
    reads db, db.callerIds.Values
  {
    if req.callerIdId != "" then req.callerIdId in db.callerIds && Usable(db.callerIds[req.callerIdId], user)
    else HasUsableCallerId(db, user)
  }

  /**
   * POST /call/test. Checks, in order: phone number and script present; the
   * named caller ID (or, when none is named, some caller ID) usable by the
   * user; the user's credits cover one call at the platform rate; the
   * provider key configured. Then it builds the test call, without a
   * campaign and with status "initiated", and saves it; the save fails
   * validation, so the answer is a 500 and neither the credits nor the
   * ledger change.
   */
  method TestCall(db: Database, user: Id, req: TestCallRequest, callId: string, now: int)
    returns (r: Result<Call>)
    ensures r.Err?
    ensures (req.phoneNumber == "" || req.messageScript == "") ==>
      r == Err(BadRequest("Phone number and message script are required"))
    ensures (req.phoneNumber != "" && req.messageScript != "" && req.callerIdId != ""
             && !(req.callerIdId in db.callerIds && Usable(db.callerIds[req.callerIdId], user))) ==>
      r == Err(BadRequest("Invalid or unverified caller ID"))
    ensures (req.phoneNumber != "" && req.messageScript != "" && req.callerIdId == ""
             && !HasUsableCallerId(db, user)) ==>
      r == Err(BadRequest("No verified caller ID found"))
    ensures r.error.InsufficientCredits? ==>
      user in db.users && r.error == InsufficientCredits(PlatformRate(db), db.users[user].credits)
      && db.users[user].credits < PlatformRate(db)
    ensures TestFieldsGiven(req) && TestCallerIdPasses(db, user, req) && user !in db.users ==>
      r == Err(ServerError("Error making test call"))
    ensures TestFieldsGiven(req) && TestCallerIdPasses(db, user, req) && user in db.users
            && db.users[user].credits < PlatformRate(db) ==>
      r == Err(InsufficientCredits(PlatformRate(db), db.users[user].credits))
    ensures TestFieldsGiven(req) && TestCallerIdPasses(db, user, req) && user in db.users
            && db.users[user].credits >= PlatformRate(db) && !Configured(db.settings.GetByKey(ApiKeyKey)) ==>
      r == Err(ServerError("Infobip API key not configured"))
    ensures TestFieldsGiven(req) && TestCallerIdPasses(db, user, req) && user in db.users
            && db.users[user].credits >= PlatformRate(db) && Configured(db.settings.GetByKey(ApiKeyKey)) ==>
      r == Err(ServerError("Error making test call"))
  {
    if req.phoneNumber == "" || req.messageScript == "" {
      return Err(BadRequest("Phone number and message script are required"));
    }
    var callerId: Id;
    if req.callerIdId != "" {
      if !(req.callerIdId in db.callerIds && Usable(db.callerIds[req.callerIdId], user)) {
        return Err(BadRequest("Invalid or unverified caller ID"));
      }
      callerId := req.callerIdId;
    } else {
      if !HasUsableCallerId(db, user) {
        return Err(BadRequest("No verified caller ID found"));
      }
      callerId :| callerId in db.callerIds && Usable(db.callerIds[callerId], user);
    }
    if user !in db.users {
      return Err(ServerError("Error making test call"));
    }
    var u := db.users[user];
    var rate := PlatformRate(db);
    if u.credits < rate {
      return Err(InsufficientCredits(rate, u.credits));
    }
    if !Configured(db.settings.GetByKey(ApiKeyKey)) {
      return Err(ServerError("Infobip API key not configured"));
    }
    var call := new Call(callId, None, user, callerId, Trim(req.phoneNumber), Initiated, req.messageScript, true, map[], now);
    TestCallRejected(call);
    return Err(ServerError("Error making test call"));
  }

  /**
   * The test call's save always fails: the schema requires a campaign, which
   * a test call does not have, and "initiated" is not a declared status.
   */
  lemma TestCallRejected(call: Call)
    requires call.campaign.None? || call.status == Initiated
    ensures !call.SchemaValid()
  {
    HandlerStatusesOutsideSchema();
  }

  // ---------------------------------------------------------------------------
  // Campaign dispatch
  // ---------------------------------------------------------------------------

  /** The phone numbers the contacts' calls are stored with: trimmed by the schema's setter. */
  function StoredPhones(contacts: seq<Contact>): (phones: seq<string>)
    ensures |phones| == |contacts|
    ensures forall k :: 0 <= k < |contacts| ==> phones[k] == Trim(contacts[k].phoneNumber)
  {
    seq(|contacts|, k requires 0 <= k < |contacts| => Trim(contacts[k].phoneNumber))
  }

  /**
   * Whether the call built for a contact, stored with `phone`, is saved: the
   * campaign's caller ID still exists (`campaign.callerId._id` throws on a
   * deleted one), and the call with the given status passes the schema's
   * validation.
   */
  predicate ContactSaves(callerIds: map<Id, CallerIdModel.CallerId>, campaign: Campaign, phone: string, status: string)
  {
    campaign.callerId in callerIds && Validates(Some(campaign.id), campaign.user, campaign.callerId, phone, status)
  }

  /** The call created for a contact of a campaign: its fixed fields. */
  predicate DispatchedCall(call: Call, campaign: Campaign, contact: Contact, phone: string, callId: string)
    reads campaign
  {
    call.callId == callId && call.campaign == Some(campaign.id) && call.user == campaign.user
    && call.callerId == campaign.callerId && call.phoneNumber == phone
    && call.messageScript == campaign.messageScript && !call.isTest && call.contactData == contact.data
  }

  /** A new call's changing fields: the status it was created with, no duration and no digits. */
  predicate Unprocessed(call: Call, status: string)
    reads call
  {
    call.status == status && call.duration == 0 && call.dtmfDigits == ""
  }

  /** What the dispatch request answers with. */
  datatype DispatchSummary = DispatchSummary(id: Id, name: string, totalContacts: nat, maxCallsPerMinute: int)

  /** `getByKey('system.max_calls_per_minute') || 10`: the batch size. */
  function BatchSize(db: Database): int
    reads db.settings
  {
    NumberSetting(db.settings.GetByKey(MaxCallsPerMinuteKey), DefaultMaxCallsPerMinute)
  }

  /** The user a dispatch may charge: the campaign's owner. */
  function OwnerFrame(db: Database, campaignId: Id): set<UserModel.User>
    reads db
  {
    if campaignId in db.campaigns then db.UserFrame(db.campaigns[campaignId].user) else {}
  }

  /**
   * When every contact's call is saved, the settlement happens exactly when
   * the last batch goes out: with a positive batch size and at least one
   * contact. With no contacts the first batch returns at once; with a size
   * that is not positive the last batch never comes. A positive size walks
   * through every contact, in order.
   */
  lemma {:induction false} SettlementHappens(contacts: seq<Contact>, size: int)
    ensures StopCount(|contacts|, 0, size) == |contacts| && |contacts| > 0 <==> size > 0 && |contacts| > 0
    ensures size > 0 ==> Flatten(Batches(contacts, 0, size)) == contacts
  {
    if size > 0 {
      PositiveSizeReachesEnd(|contacts|, 0, size);
      BatchesReachStop(contacts, 0, size);
      assert contacts[0..|contacts|] == contacts;
    } else if |contacts| > 0 {
      NonPositiveSizeStalls(|contacts|, 0, size);
    }
  }

  /**
   * POST /campaign/:id/process. Checks, in order: the campaign exists and is
   * active; its owner exists; the owner's credits cover totalContacts calls
   * at the platform rate; the provider key is configured; the contacts file
   * record exists. `rows` are that file's parsed rows and `callIds(j)` the id
   * generated for the j-th contact.
   *
   * It then answers 200 with the summary and starts the batches, which it
   * does not wait for. The batches create each call with status
   * "initiated", whose save fails validation, so the first contact stops
   * the dispatch: no call is stored, and the settlement after the last batch
   * never comes. The credits and the ledger stay as they were.
   */
  method ProcessCampaign(db: Database, campaignId: Id, rows: seq<Row>, callIds: nat -> string,
                         billingId: Id, now: int) returns (r: Result<DispatchSummary>)
    modifies db`calls, db`ledger, OwnerFrame(db, campaignId)
    ensures campaignId !in db.campaigns ==> r == Err(NotFound("Campaign not found"))
    ensures campaignId in db.campaigns && db.campaigns[campaignId].status != Active ==>
      r == Err(BadRequest("Campaign is not active"))
    ensures db.calls == old(db.calls) && db.ledger == old(db.ledger)
    ensures forall u :: u in OwnerFrame(db, campaignId) ==> u.credits == old(u.credits)
    ensures r.Err? && r.error.InsufficientCredits? ==>
      campaignId in db.campaigns && db.campaigns[campaignId].user in db.users
      && r.error == InsufficientCredits(db.campaigns[campaignId].totalContacts * PlatformRate(db),
                                        db.users[db.campaigns[campaignId].user].credits)
      && r.error.available < r.error.required
    ensures r.Ok? ==>
      campaignId in db.campaigns && db.campaigns[campaignId].status == Active
      && db.campaigns[campaignId].user in db.users
      && r.value == DispatchSummary(campaignId, db.campaigns[campaignId].name, |ContactsOf(rows)|, BatchSize(db))
    ensures campaignId in db.campaigns && db.campaigns[campaignId].status == Active
            && db.campaigns[campaignId].user !in db.users ==>
      r == Err(NotFound("User not found"))
    ensures campaignId in db.campaigns && db.campaigns[campaignId].status == Active
            && db.campaigns[campaignId].user in db.users
            && old(db.users[db.campaigns[campaignId].user].credits)
               < db.campaigns[campaignId].totalContacts * PlatformRate(db) ==>
      r == Err(InsufficientCredits(db.campaigns[campaignId].totalContacts * PlatformRate(db),
                                   old(db.users[db.campaigns[campaignId].user].credits)))
    ensures campaignId in db.campaigns && db.campaigns[campaignId].status == Active
            && db.campaigns[campaignId].user in db.users
            && old(db.users[db.campaigns[campaignId].user].credits)
               >= db.campaigns[campaignId].totalContacts * PlatformRate(db)
            && !Configured(db.settings.GetByKey(ApiKeyKey)) ==>
      r == Err(ServerError("Infobip API key not configured"))
    ensures campaignId in db.campaigns && db.campaigns[campaignId].status == Active
            && db.campaigns[campaignId].user in db.users
            && old(db.users[db.campaigns[campaignId].user].credits)
               >= db.campaigns[campaignId].totalContacts * PlatformRate(db)
            && Configured(db.settings.GetByKey(ApiKeyKey))
            && db.campaigns[campaignId].contactsFile !in db.files ==>
      r == Err(ServerError("Error processing campaign"))
    ensures r.Ok? <==>
      campaignId in db.campaigns && db.campaigns[campaignId].status == Active
      && db.campaigns[campaignId].user in db.users
      && old(db.users[db.campaigns[campaignId].user].credits)
         >= db.campaigns[campaignId].totalContacts * PlatformRate(db)
      && Configured(db.settings.GetByKey(ApiKeyKey))
      && db.campaigns[campaignId].contactsFile in db.files
    ensures r.Ok? ==>
      Dispatched(db, old(db.calls), db.campaigns[campaignId], ContactsOf(rows), StoredPhones(ContactsOf(rows)),
                 BatchSize(db), callIds, Initiated)
  {
    if campaignId !in db.campaigns {
      return Err(NotFound("Campaign not found"));
    }
    var campaign := db.campaigns[campaignId];
    if campaign.status != Active {
      return Err(BadRequest("Campaign is not active"));
    }
    if campaign.user !in db.users {
      return Err(NotFound("User not found"));
    }
    var user := db.users[campaign.user];
    var rate := PlatformRate(db);
    var required := campaign.totalContacts * rate;
    if user.credits < required {
      return Err(InsufficientCredits(required, user.credits));
    }
    if !Configured(db.settings.GetByKey(ApiKeyKey)) {
      return Err(ServerError("Infobip API key not configured"));
    }
    var batchSize := BatchSize(db);
    if campaign.contactsFile !in db.files {
      return Err(ServerError("Error processing campaign"));
    }
    var contacts := ReadContacts(rows);
    var phones := StoredPhones(contacts);
    var total := DispatchAndSettle(db, campaign, user, contacts, phones, callIds, Initiated, billingId, now);
    InitiatedStoresNothing(db, campaign, contacts, phones, callIds, old(db.calls), db.calls);
    return Ok(DispatchSummary(campaignId, campaign.name, total, batchSize));
  }

  /** A dispatch that creates "initiated" calls stores none of them. */
  lemma InitiatedStoresNothing(db: Database, campaign: Campaign, contacts: seq<Contact>, phones: seq<string>,
                               callIds: nat -> string, before: seq<Call>, calls: seq<Call>)
    requires |before| <= |calls| && calls[..|before|] == before
    requires CallsFor(db.callerIds, calls[|before|..], campaign, contacts, phones, callIds, Initiated)
    ensures calls == before
  {
    HandlerStatusesOutsideSchema();
    SavedCallsAccepted(db.callerIds, calls[|before|..], campaign, contacts, phones, callIds, Initiated);
    assert calls == calls[..|before|];
  }

  /** Calls saved for a dispatch exist only when the status they are created with passes validation. */
  lemma SavedCallsAccepted(callerIds: map<Id, CallerIdModel.CallerId>, calls: seq<Call>, campaign: Campaign,
                           contacts: seq<Contact>, phones: seq<string>, callIds: nat -> string, status: string)
    requires CallsFor(callerIds, calls, campaign, contacts, phones, callIds, status)
    ensures calls == [] || StatusAccepted(status)
  {
    if calls != [] {
      assert ContactSaves(callerIds, campaign, phones[0], status);
    }
  }

  /**
   * The part of the dispatch after the checks and the reading of the
   * contacts: run the batches, with calls created with `status` and stored
   * with `phones`, and charge the owner once the last batch has gone out
   * with every call saved. Returns the number of contacts.
   */
  method DispatchAndSettle(db: Database, campaign: Campaign, user: UserModel.User, contacts: seq<Contact>,
                           phones: seq<string>, callIds: nat -> string, status: string, billingId: Id, now: int)
    returns (total: nat)
    requires |phones| == |contacts|
    modifies db`calls, db`ledger, user
    ensures total == |contacts|
    ensures Dispatched(db, old(db.calls), campaign, contacts, phones, BatchSize(db), callIds, status)
    ensures
      var rate := PlatformRate(db);
      if |db.calls| - |old(db.calls)| == total && total > 0 then
        user.credits == old(user.credits) - total * rate
        && db.ledger == old(db.ledger) + [DebitRecord(billingId, campaign.user, "Campaign: " + campaign.name,
                                                       Some(campaign.id), total, rate, ProviderRate(db))]
      else user.credits == old(user.credits) && db.ledger == old(db.ledger)
  {
    var stored := RunBatches(db, campaign, contacts, phones, BatchSize(db), callIds, status, now);
    total := |contacts|;
    if stored == |contacts| && |contacts| > 0 {
      Settle(db, campaign, user, total, billingId);
    }
  }

  /** The settlement after the last batch: charge contacts × rate and write one completed debit. */
  method Settle(db: Database, campaign: Campaign, user: UserModel.User, total: nat, billingId: Id)
    modifies db`ledger, user
    ensures user.credits == old(user.credits) - total * PlatformRate(db)
    ensures db.ledger == old(db.ledger) + [DebitRecord(billingId, campaign.user, "Campaign: " + campaign.name,
                                                        Some(campaign.id), total, PlatformRate(db), ProviderRate(db))]
  {
    var rate := PlatformRate(db);
    var totalCost := total * rate;
    user.credits := user.credits - totalCost;
    var providerRate := ProviderRate(db);
    db.ledger := db.ledger + [DebitRecord(billingId, campaign.user, "Campaign: " + campaign.name, Some(campaign.id),
                                          total, rate, providerRate)];
  }

  /**
   * The calls saved for the first |calls| contacts, one per contact, in
   * contact order, each stored with its contact's phone and each passing
   * validation.
   */
  predicate CallsFor(callerIds: map<Id, CallerIdModel.CallerId>, calls: seq<Call>, campaign: Campaign,
                     contacts: seq<Contact>, phones: seq<string>, callIds: nat -> string, status: string)
    reads campaign
  {
    |calls| <= |contacts| == |phones|
    && forall k :: 0 <= k < |calls| ==>
         DispatchedCall(calls[k], campaign, contacts[k], phones[k], callIds(k))
         && ContactSaves(callerIds, campaign, phones[k], status)
  }

  /** One more call, saved for the next contact, keeps the calls saved so far in contact order. */
  lemma CallsForAppend(callerIds: map<Id, CallerIdModel.CallerId>, calls: seq<Call>, call: Call, campaign: Campaign,
                       contacts: seq<Contact>, phones: seq<string>, callIds: nat -> string, status: string)
    requires CallsFor(callerIds, calls, campaign, contacts, phones, callIds, status) && |calls| < |contacts|
    requires DispatchedCall(call, campaign, contacts[|calls|], phones[|calls|], callIds(|calls|))
    requires ContactSaves(callerIds, campaign, phones[|calls|], status)
    ensures CallsFor(callerIds, calls + [call], campaign, contacts, phones, callIds, status)
  {
    var all := calls + [call];
    forall k | 0 <= k < |all|
      ensures DispatchedCall(all[k], campaign, contacts[k], phones[k], callIds(k))
    {
      if k < |calls| {
        assert all[k] == calls[k];
      }
    }
  }

  /**
   * The calls appended to the database since `before` are new objects, saved
   * for the first contacts the batches reached, in contact order; when they
   * stop short of the contacts reached, the next contact's call was
   * rejected.
   */
  twostate predicate Dispatched(db: Database, before: seq<Call>, campaign: Campaign, contacts: seq<Contact>,
                                phones: seq<string>, batchSize: int, callIds: nat -> string, status: string)
    reads db, db.calls, campaign
  {
    |before| <= |db.calls|
    && db.calls[..|before|] == before
    && CallsFor(db.callerIds, db.calls[|before|..], campaign, contacts, phones, callIds, status)
    && StoppedAt(db.callerIds, campaign, contacts, phones, batchSize, status, |db.calls| - |before|)
    && forall k :: |before| <= k < |db.calls| ==> fresh(db.calls[k]) && Unprocessed(db.calls[k], status)
  }

  /**
   * The `stored` calls cover contacts the batches reach, and when the
   * batches reach further, the next contact's call fails validation.
   */
  predicate StoppedAt(callerIds: map<Id, CallerIdModel.CallerId>, campaign: Campaign, contacts: seq<Contact>,
                      phones: seq<string>, batchSize: int, status: string, stored: nat)
  {
    var reached := StopCount(|contacts|, 0, batchSize);
    stored <= reached
    && (stored < reached ==> stored < |phones| && !ContactSaves(callerIds, campaign, phones[stored], status))
  }

  /**
   * processBatch, batch after batch: each batch appends one call per contact
   * in it while the saves pass; the run ends after the last contact, at the
   * first empty batch, or at the first save that fails, which rejects
   * processBatch and so stops every later contact and batch. Returns the
   * number of calls stored.
   */
  method RunBatches(db: Database, campaign: Campaign, contacts: seq<Contact>, phones: seq<string>, batchSize: int,
                    callIds: nat -> string, status: string, now: int) returns (stored: nat)
    requires |phones| == |contacts|
    modifies db`calls
    ensures stored == |db.calls| - |old(db.calls)| && db.calls[..|old(db.calls)|] == old(db.calls)
    ensures CallsFor(db.callerIds, db.calls[|old(db.calls)|..], campaign, contacts, phones, callIds, status)
    ensures StoppedAt(db.callerIds, campaign, contacts, phones, batchSize, status, stored)
    ensures forall k :: |old(db.calls)| <= k < |db.calls| ==> fresh(db.calls[k]) && Unprocessed(db.calls[k], status)
  {
    var start := |db.calls|;
    var processedCount := 0;
    while processedCount < |contacts|
      invariant processedCount <= |contacts|
      invariant StopCount(|contacts|, 0, batchSize) == StopCount(|contacts|, processedCount, batchSize)
      invariant |db.calls| == start + processedCount && db.calls[..start] == old(db.calls)
      invariant CallsFor(db.callerIds, db.calls[start..], campaign, contacts, phones, callIds, status)
      invariant forall k :: start <= k < |db.calls| ==> fresh(db.calls[k]) && Unprocessed(db.calls[k], status)
      decreases |contacts| - processedCount
    {
      // the length of contacts.slice(processedCount, processedCount + batchSize)
      var taken := SliceSize(|contacts|, processedCount, processedCount + batchSize);
      if taken == 0 {
        break;
      }
      var saved := DispatchBatch(db, campaign, contacts, phones, start, processedCount, taken, callIds, status, now);
      if saved < taken {
        stored := processedCount + saved;
        return;
      }
      processedCount := processedCount + taken;
    }
    stored := processedCount;
  }

  /**
   * The loop over one batch: a new call for each of
   * contacts[from..from + count], appended after the calls saved for the
   * contacts before `from`, which start at index `start`, until a save
   * fails. Returns how many were saved.
   */
  method DispatchBatch(db: Database, campaign: Campaign, contacts: seq<Contact>, phones: seq<string>, start: nat,
                       from: nat, count: nat, callIds: nat -> string, status: string, now: int) returns (saved: nat)
    requires from + count <= |contacts| == |phones| && |db.calls| == start + from
    requires CallsFor(db.callerIds, db.calls[start..], campaign, contacts, phones, callIds, status)
    modifies db`calls
    ensures saved <= count
    ensures |db.calls| == |old(db.calls)| + saved && db.calls[..|old(db.calls)|] == old(db.calls)
    ensures CallsFor(db.callerIds, db.calls[start..], campaign, contacts, phones, callIds, status)
    ensures saved < count ==> !ContactSaves(db.callerIds, campaign, phones[from + saved], status)
    ensures forall k :: |old(db.calls)| <= k < |db.calls| ==> fresh(db.calls[k]) && Unprocessed(db.calls[k], status)
  {
    saved := 0;
    while saved < count
      invariant 0 <= saved <= count
      invariant |db.calls| == start + from + saved && db.calls[..start + from] == old(db.calls)
      invariant CallsFor(db.callerIds, db.calls[start..], campaign, contacts, phones, callIds, status)
      invariant forall k :: start + from <= k < |db.calls| ==> fresh(db.calls[k]) && Unprocessed(db.calls[k], status)
    {
      var ok := DispatchContact(db, campaign, contacts, phones, start, callIds, status, now);
      if !ok {
        return;
      }
      saved := saved + 1;
    }
  }

  /**
   * One call record for the next contact of the campaign, created with
   * `status` and saved: appended to the calls when it passes validation,
   * nothing stored when it does not.
   */
  method DispatchContact(db: Database, campaign: Campaign, contacts: seq<Contact>, phones: seq<string>, start: nat,
                         callIds: nat -> string, status: string, now: int) returns (saved: bool)
    requires start <= |db.calls| < start + |contacts|
    requires CallsFor(db.callerIds, db.calls[start..], campaign, contacts, phones, callIds, status)
    modifies db`calls
    ensures saved <==> ContactSaves(db.callerIds, campaign, phones[|old(db.calls)| - start], status)
    ensures !saved ==> db.calls == old(db.calls)
    ensures saved ==>
      |db.calls| == |old(db.calls)| + 1 && db.calls[..|old(db.calls)|] == old(db.calls)
      && fresh(db.calls[|old(db.calls)|]) && Unprocessed(db.calls[|old(db.calls)|], status)
    ensures CallsFor(db.callerIds, db.calls[start..], campaign, contacts, phones, callIds, status)
  {
    var next := |db.calls| - start;
    if campaign.callerId !in db.callerIds {
      return false;
    }
    var call := new Call(callIds(next), Some(campaign.id), campaign.user, campaign.callerId,
                         phones[next], status, campaign.messageScript, false, contacts[next].data, now);
    saved := call.SchemaValid();
    if !saved {
      return;
    }
    CallsForAppend(db.callerIds, db.calls[start..], call, campaign, contacts, phones, callIds, status);
    assert (db.calls + [call])[start..] == db.calls[start..] + [call];
    db.calls := db.calls + [call];
  }

  // ---------------------------------------------------------------------------
  // Simulated call outcomes
  // ---------------------------------------------------------------------------

  /**
   * The outcome the dispatch simulation draws for a call: one of four
   * statuses with equal chance; an answered call lasts 10 to 129 seconds and
   * is transferred one time in five.
   */
  datatype Outcome = Answered(seconds: int, transferred: bool) | CallFailed | LineBusy | NoAnswer

  predicate PossibleOutcome(o: Outcome)
  {
    o.Answered? ==> 10 <= o.seconds <= 129
  }

  function OutcomeStatus(o: Outcome): string
  {
    match o
    case Answered(_, transferred) => if transferred then Transfer else "answered"
    case CallFailed => "failed"
    case LineBusy => "busy"
    case NoAnswer => "no-answer"
  }

  /**
   * The simulation counts every outcome whose save passes, answered or not,
   * whereas the event endpoints do not count an "answered" status; the
   * transferred outcome's save fails, so it is never counted.
   */
  lemma SimulationCountsAnsweredCalls(seconds: int)
    ensures !Terminal(OutcomeStatus(Answered(seconds, false)))
    ensures forall o: Outcome :: !(o.Answered? && !o.transferred) ==> Terminal(OutcomeStatus(o))
    ensures forall o: Outcome :: StatusAccepted(OutcomeStatus(o)) <==> !(o.Answered? && o.transferred)
  {
    HandlerStatusesOutsideSchema();
  }

  /**
   * The timer a saved call ends with: its status (and, when answered,
   * duration; when transferred, the campaign's transfer key as its digits)
   * is saved, then the campaign counts one more processed contact. When the
   * save fails nothing is stored and nothing counted. Returns whether the
   * save passed.
   */
  method SimulateOutcome(campaign: Campaign, call: Call, o: Outcome, now: int) returns (saved: bool)
    requires PossibleOutcome(o)
    modifies call`status, call`duration, call`dtmfDigits, call`updatedAt
    modifies campaign`processedContacts, campaign`status, campaign`endTime
    ensures saved <==> call.RequiredFieldsSet() && StatusAccepted(OutcomeStatus(o))
    ensures saved ==>
      call.status == OutcomeStatus(o) && call.updatedAt == now
      && call.duration == (if o.Answered? then o.seconds else old(call.duration))
      && call.dtmfDigits == (if o.Answered? && o.transferred then campaign.transferKey else old(call.dtmfDigits))
      && TallyOf(campaign) == CountOne(old(TallyOf(campaign)), campaign.totalContacts, now)
    ensures !saved ==> StateOf(call) == old(StateOf(call)) && TallyOf(campaign) == old(TallyOf(campaign))
  {
    var next := CallState(OutcomeStatus(o),
                          if o.Answered? then o.seconds else call.duration,
                          if o.Answered? && o.transferred then campaign.transferKey else call.dtmfDigits,
                          now);
    saved := SaveAccepts(call, next);
    if !saved {
      return;
    }
    Store(call, next);
    CountContact(campaign, now);
  }
}
