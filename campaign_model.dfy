/**
 * The Campaign record: a voice broadcast of one message script to the
 * contacts of one uploaded file, with its lifecycle status, its progress
 * counters and the two derived values the views show (progress percentage
 * and duration in minutes).
 */
module CampaignModel {
  import opened Util

  datatype CampaignStatus = Pending | Active | Paused | Completed | Failed

  const DefaultTransferKey: string := "1"
  const DefaultCallsPerMinute: int := 10
  const MinCallsPerMinute: int := 1
  const MaxCallsPerMinute: int := 20

  /** Per-status call counters; the handlers never update them. */
  datatype CallStats = CallStats(
    answered: int, failed: int, inProgress: int, busy: int,
    noAnswer: int, transferred: int, completed: int)

  const ZeroStats: CallStats := CallStats(0, 0, 0, 0, 0, 0, 0)

  /** `transferKey || '1'`: the key a caller presses to be transferred. */
  function TransferKeyOrDefault(requested: string): (k: string)
    ensures k != ""
    ensures requested != "" ==> k == requested
  {
    if requested == "" then DefaultTransferKey else requested
  }

  /**
   * The schema's `required` validators on a campaign as it would be stored:
   * the name (after its `trim` setter), the owner, the caller ID, the
   * contacts file and the message script are all present. Mongoose runs the
   * required validators on every save, so a save with any of them missing
   * fails.
   */
  predicate CampaignSaves(name: string, user: Id, callerId: Id, contactsFile: Id, messageScript: string)
  {
    name != "" && user != "" && callerId != "" && contactsFile != "" && messageScript != ""
  }

  // ---------------------------------------------------------------------------
  // Derived values
  // ---------------------------------------------------------------------------

  /**
   * progressPercentage: 0 for a campaign without contacts, otherwise the
   * percentage of processed contacts rounded to the nearest integer.
   */
  function Progress(processed: int, total: int): (p: int)
    ensures total == 0 ==> p == 0
    ensures total > 0 ==> total * (2 * p - 1) <= 200 * processed < total * (2 * p + 1)
  {
    if total == 0 then 0 else RoundQuotient(100 * processed, total)
  }

  /** A campaign whose every contact is processed is at 100%. */
  lemma ProgressComplete(total: int)
    requires total > 0
    ensures Progress(total, total) == 100
  {
    RoundDivUnique(100 * total, total, 100);
  }

  /** Progress stays within 0..100 while no more contacts are processed than there are. */
  lemma ProgressBounds(processed: int, total: int)
    requires 0 <= processed <= total
    ensures 0 <= Progress(processed, total) <= 100
  {
    if total > 0 {
      var p := Progress(processed, total);
      if p < 0 {
        MulMonotone(total, 2 * p + 1, -1);
        assert false;
      }
      if p > 100 {
        MulMonotone(total, 201, 2 * p - 1);
        assert false;
      }
    }
  }

  /** Processing more contacts never lowers the progress. */
  lemma ProgressMonotone(p1: int, p2: int, total: int)
    requires p1 <= p2 && total > 0
    ensures Progress(p1, total) <= Progress(p2, total)
  {
    var a := Progress(p1, total);
    var b := Progress(p2, total);
    if a > b {
      MulMonotone(total, 2 * b + 1, 2 * a - 1);
      assert false;
    }
  }

  /**
   * durationMinutes: 0 before the campaign starts; otherwise the minutes from
   * the start to the end (to now while there is no end), rounded to the
   * nearest integer. Times are in milliseconds.
   */
  function Duration(start: Option<int>, end: Option<int>, now: int): (m: int)
    ensures start.None? ==> m == 0
    ensures start.Some? ==>
      var e := if end.Some? then end.value else now;
      60000 * (2 * m - 1) <= 2 * (e - start.value) < 60000 * (2 * m + 1)
  {
    match start
    case None => 0
    case Some(s) =>
      var e := if end.Some? then end.value else now;
      RoundDiv(e - s, 60000)
  }

  // ---------------------------------------------------------------------------
  // The record
  // ---------------------------------------------------------------------------

  class Campaign {
    const id: Id
    const user: Id
    const callerId: Id
    const contactsFile: Id
    const callsPerMinute: int
    const totalContacts: int
    const callStats: CallStats
    var name: string
    var messageScript: string
    var transferKey: string
    var status: CampaignStatus
    var processedContacts: int
    var startTime: Option<int>
    var endTime: Option<int>

    /** The schema's constraints on the stored fields. */
    predicate Valid()
      reads this
    {
      MinCallsPerMinute <= callsPerMinute <= MaxCallsPerMinute
      && totalContacts >= 0 && processedContacts >= 0
    }

    /** A new campaign, with every field the caller does not give at its schema default. */
    constructor (id: Id, user: Id, callerId: Id, contactsFile: Id,
                 name: string, messageScript: string, transferKey: string, totalContacts: nat)
      ensures this.id == id && this.user == user && this.callerId == callerId
      ensures this.contactsFile == contactsFile && this.name == name
      ensures this.messageScript == messageScript && this.transferKey == transferKey
      ensures this.totalContacts == totalContacts
      ensures status == Pending && callsPerMinute == DefaultCallsPerMinute
      ensures processedContacts == 0 && callStats == ZeroStats
      ensures startTime.None? && endTime.None?
      ensures Valid()
    {
      this.id := id;
      this.user := user;
      this.callerId := callerId;
      this.contactsFile := contactsFile;
      this.name := name;
      this.messageScript := messageScript;
      this.transferKey := transferKey;
      this.totalContacts := totalContacts;
      status := Pending;
      callsPerMinute := DefaultCallsPerMinute;
      processedContacts := 0;
      callStats := ZeroStats;
      startTime := None;
      endTime := None;
    }

    function ProgressPercentage(): (p: int)
      reads this
      ensures totalContacts > 0 && processedContacts == totalContacts ==> p == 100
      ensures 0 <= processedContacts <= totalContacts ==> 0 <= p <= 100
    {
      if totalContacts > 0 && processedContacts == totalContacts then
        ProgressComplete(totalContacts);
        Progress(processedContacts, totalContacts)
      else if 0 <= processedContacts <= totalContacts then
        ProgressBounds(processedContacts, totalContacts);
        Progress(processedContacts, totalContacts)
      else Progress(processedContacts, totalContacts)
    }

    function DurationMinutes(now: int): (m: int)
      reads this
      ensures startTime.None? ==> m == 0
      ensures startTime.Some? ==>
        var e := if endTime.Some? then endTime.value else now;
        60000 * (2 * m - 1) <= 2 * (e - startTime.value) < 60000 * (2 * m + 1)
    {
      Duration(startTime, endTime, now)
    }
  }
}
