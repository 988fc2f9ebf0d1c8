/**
 * The Call record: one outbound call to one contact, as the schema declares it
 * and as the dispatch and webhook handlers write it.
 *
 * Statuses are kept as strings because the handlers assign whatever the
 * provider reports. Every save runs the schema's validation first, and a
 * record that fails it is not written: two of the values the handlers assign
 * themselves ("initiated" and "transfer") lie outside the enumeration, so
 * saves of calls holding them are rejected.
 */
module CallModel {
  import opened Util

  /** The status values the schema declares. */
  const Statuses: set<string> :=
    {"pending", "in-progress", "answered", "busy", "no-answer", "failed", "transferred", "completed"}

  const DefaultStatus: string := "pending"

  /** The status the handlers give a call when they create it. */
  const Initiated: string := "initiated"

  /** The status the handlers give a call whose caller pressed the transfer key. */
  const Transfer: string := "transfer"

  /** isSuccessful */
  predicate IsSuccessful(status: string): (b: bool)
    ensures b ==> status in Statuses && status != Transfer
  {
    status == "answered" || status == "transferred" || status == "completed"
  }

  /**
   * What the enum validator lets through: a declared status, or no status at
   * all ("" here), which validators other than `required` skip.
   */
  predicate StatusAccepted(status: string)
  {
    status == "" || status in Statuses
  }

  /**
   * The schema's validation of a call record: the three required references
   * and the phone number present (the phone number as stored, after `trim`),
   * and the status accepted.
   */
  predicate Validates(campaign: Option<Id>, user: Id, callerId: Id, phoneNumber: string, status: string)
  {
    RequiredPresent(campaign, user, callerId, phoneNumber) && StatusAccepted(status)
  }

  predicate RequiredPresent(campaign: Option<Id>, user: Id, callerId: Id, phoneNumber: string)
  {
    campaign.Some? && user != "" && callerId != "" && phoneNumber != ""
  }

  /** The statuses the handlers assign themselves are not statuses the schema accepts. */
  lemma HandlerStatusesOutsideSchema()
    ensures DefaultStatus in Statuses
    ensures !StatusAccepted(Initiated) && !StatusAccepted(Transfer)
    ensures !IsSuccessful(Transfer) && IsSuccessful("transferred")
    ensures forall s :: IsSuccessful(s) ==> s in Statuses
  {
  }

  /** durationMinutes: whole minutes of a duration in seconds, to the nearest; 0 for no duration. */
  function DurationMinutes(duration: int): (m: int)
    ensures duration == 0 ==> m == 0
    ensures 60 * (2 * m - 1) <= 2 * duration < 60 * (2 * m + 1)
  {
    if duration != 0 then RoundDiv(duration, 60) else 0
  }

  /** A call shorter than half a minute rounds to no minutes; a 30-second call to one. */
  lemma DurationMinutesExamples()
    ensures forall d :: 0 <= d < 30 ==> DurationMinutes(d) == 0
    ensures DurationMinutes(30) == 1 && DurationMinutes(89) == 1 && DurationMinutes(90) == 2
  {
    forall d | 0 <= d < 30 ensures DurationMinutes(d) == 0 {
      if d != 0 { RoundDivUnique(d, 60, 0); }
    }
    RoundDivUnique(30, 60, 1);
    RoundDivUnique(89, 60, 1);
    RoundDivUnique(90, 60, 2);
  }

  class Call {
    /** The identifier the provider reports events under. */
    const callId: string
    const campaign: Option<Id>
    const user: Id
    const callerId: Id
    const phoneNumber: string
    const messageScript: string
    const isTest: bool
    const contactData: map<string, string>
    const cost: int
    const retryCount: int
    var status: string
    /** Seconds. */
    var duration: int
    var dtmfDigits: string
    var updatedAt: int

    /** The record passes the schema's validation, so a save of it is written. */
    predicate SchemaValid()
      reads this
    {
      Validates(campaign, user, callerId, phoneNumber, status)
    }

    /** The fields `required` applies to are present. */
    predicate RequiredFieldsSet()
      reads this
    {
      RequiredPresent(campaign, user, callerId, phoneNumber)
    }

    /**
     * A new call, with the phone number as stored (the schema's setter trims
     * it); duration, cost and retry count start at their default 0.
     */
    constructor (callId: string, campaign: Option<Id>, user: Id, callerId: Id, phoneNumber: string,
                 status: string, messageScript: string, isTest: bool,
                 contactData: map<string, string>, now: int)
      ensures this.callId == callId && this.campaign == campaign && this.user == user
      ensures this.callerId == callerId && this.phoneNumber == phoneNumber
      ensures this.status == status && this.messageScript == messageScript
      ensures this.isTest == isTest && this.contactData == contactData
      ensures duration == 0 && cost == 0 && retryCount == 0 && dtmfDigits == ""
      ensures updatedAt == now
    {
      this.callId := callId;
      this.campaign := campaign;
      this.user := user;
      this.callerId := callerId;
      this.phoneNumber := phoneNumber;
      this.status := status;
      this.messageScript := messageScript;
      this.isTest := isTest;
      this.contactData := contactData;
      duration := 0;
      cost := 0;
      retryCount := 0;
      dtmfDigits := "";
      updatedAt := now;
    }

    function Successful(): (b: bool)
      reads this
      ensures b ==> status in Statuses
      ensures b <==> status == "answered" || status == "transferred" || status == "completed"
    {
      IsSuccessful(status)
    }

    function Minutes(): (m: int)
      reads this
      ensures duration == 0 ==> m == 0
      ensures 60 * (2 * m - 1) <= 2 * duration < 60 * (2 * m + 1)
    {
      DurationMinutes(duration)
    }
  }
}
