/**
 * The Notification record: a message to a list of recipients, each with a
 * read flag, and the "age" text the views show for it.
 */
module NotificationModel {
  import opened Util

  datatype NotificationType = Info | Success | Warning | Error

  datatype Recipient = Recipient(user: Id, read: bool, readAt: Option<int>)

  /** A recipient entry as the handlers create it: unread. */
  function Unread(user: Id): (r: Recipient)
    ensures r.user == user && !r.read && r.readAt.None?
  {
    Recipient(user, false, None)
  }

  // ---------------------------------------------------------------------------
  // Age
  // ---------------------------------------------------------------------------

  datatype AgeUnit = Minute | Hour | Day

  function UnitName(u: AgeUnit): string
  {
    match u
    case Minute => "minute"
    case Hour => "hour"
    case Day => "day"
  }

  /**
   * The count and unit of the age: minutes rounded from the milliseconds
   * elapsed, hours rounded from the minutes once there are 60 or more, days
   * rounded from the hours once there are 24 or more. A record without a
   * creation time counts as created now.
   */
  function AgeParts(createdAt: Option<int>, now: int): (p: (int, AgeUnit))
  {
    var created := if createdAt.Some? then createdAt.value else now;
    var mins := RoundDiv(now - created, 60000);
    if mins < 60 then (mins, Minute)
    else
      var hours := RoundDiv(mins, 60);
      if hours < 24 then (hours, Hour)
      else (RoundDiv(hours, 24), Day)
  }

  /** "N unit ago", with the unit in the plural unless N is exactly 1. */
  function AgeText(n: int, u: AgeUnit): (s: string)
    ensures StartsWith(s, IntToString(n) + " " + UnitName(u))
    ensures EndsWith(s, " ago")
    ensures EndsWith(s, "s ago") <==> n != 1
  {
    var s := IntToString(n) + " " + UnitName(u) + (if n != 1 then "s" else "") + " ago";
    assert s[|s| - 4..] == " ago";
    assert n != 1 ==> s[|s| - 5..] == "s ago";
    assert n == 1 ==> s[|s| - 5] == UnitName(u)[|UnitName(u)| - 1] != 's';
    s
  }

  /** The `age` virtual: "N unit ago", with the count and unit AgeParts computes. */
  function Age(createdAt: Option<int>, now: int): (s: string)
    ensures StartsWith(s, IntToString(AgeParts(createdAt, now).0) + " " + UnitName(AgeParts(createdAt, now).1))
    ensures EndsWith(s, " ago")
    ensures EndsWith(s, "s ago") <==> AgeParts(createdAt, now).0 != 1
  {
    var p := AgeParts(createdAt, now);
    AgeText(p.0, p.1)
  }

  /**
   * Which unit the age is given in depends only on the time elapsed:
   * minutes below 59.5 minutes, hours below 1409.5 minutes, days from then on.
   */
  lemma AgeUnitThresholds(created: int, now: int)
    ensures var ms := now - created; var u := AgeParts(Some(created), now).1;
      (u == Minute <==> ms < 3570000)
      && (u == Hour <==> 3570000 <= ms < 84570000)
      && (u == Day <==> 84570000 <= ms)
  {
    var ms := now - created;
    var mins := RoundDiv(ms, 60000);
    if ms < 3570000 {
      if mins >= 60 {
        MulMonotone(60000, 119, 2 * mins - 1);
        assert false;
      }
    } else {
      if mins < 60 {
        MulMonotone(60000, 2 * mins + 1, 119);
        assert false;
      }
      var hours := RoundDiv(mins, 60);
      if ms < 84570000 {
        if mins >= 1410 {
          MulMonotone(60000, 2819, 2 * mins - 1);
          assert false;
        }
        if hours >= 24 {
          MulMonotone(60, 47, 2 * hours - 1);
          assert false;
        }
      } else {
        if mins < 1410 {
          MulMonotone(60000, 2 * mins + 1, 2819);
          assert false;
        }
        if hours < 24 {
          MulMonotone(60, 2 * hours + 1, 47);
          assert false;
        }
      }
    }
  }

  /**
   * The count in the age, bounded in milliseconds: minutes are the elapsed
   * time rounded to the nearest minute (halves up), hours are those minutes
   * rounded to the nearest hour, and days those hours rounded to the nearest
   * day, so each unit's count covers the window below.
   */
  lemma AgeCountBounds(created: int, now: int)
    ensures var ms := now - created; var p := AgeParts(Some(created), now);
      (p.1 == Minute ==> 60000 * (2 * p.0 - 1) <= 2 * ms < 60000 * (2 * p.0 + 1))
      && (p.1 == Hour ==> 60000 * (120 * p.0 - 61) <= 2 * ms < 60000 * (120 * p.0 + 59))
      && (p.1 == Day ==> 60000 * (2880 * p.0 - 1501) <= 2 * ms < 60000 * (2880 * p.0 + 1379))
  {
    var ms := now - created;
    var mins := RoundDiv(ms, 60000);
    var hours := RoundDiv(mins, 60);
    assert 60000 * mins - 30000 <= ms < 60000 * mins + 30000;
    assert 60 * hours - 30 <= mins <= 60 * hours + 29;
    var days := RoundDiv(hours, 24);
    assert 24 * days - 12 <= hours <= 24 * days + 11;
  }

  /** A record without a creation time is "0 minutes ago". */
  lemma AgeWithoutCreation(now: int)
    ensures Age(None, now) == "0 minutes ago"
  {
    RoundDivUnique(0, 60000, 0);
  }

  // ---------------------------------------------------------------------------
  // The record
  // ---------------------------------------------------------------------------

  /** The first entry of the user that is unread: the entry marking read is meant for. */
  function FirstUnreadOf(recipients: seq<Recipient>, user: Id): (k: Option<nat>)
    ensures k.Some? ==> k.value < |recipients| && recipients[k.value].user == user && !recipients[k.value].read
    ensures k.Some? ==> forall j :: 0 <= j < k.value ==> !(recipients[j].user == user && !recipients[j].read)
    ensures k.None? ==> forall j :: 0 <= j < |recipients| ==> !(recipients[j].user == user && !recipients[j].read)
  {
    if recipients == [] then None
    else if recipients[0].user == user && !recipients[0].read then Some(0)
    else
      var k := FirstUnreadOf(recipients[1..], user);
      if k.Some? then Some(k.value + 1) else None
  }

  /** The first entry that is unread, whoever it belongs to. */
  function FirstUnread(recipients: seq<Recipient>): (k: Option<nat>)
    ensures k.Some? ==> k.value < |recipients| && !recipients[k.value].read
    ensures k.Some? ==> forall j :: 0 <= j < k.value ==> recipients[j].read
    ensures k.None? ==> forall j :: 0 <= j < |recipients| ==> recipients[j].read
  {
    if recipients == [] then None
    else if !recipients[0].read then Some(0)
    else
      var k := FirstUnread(recipients[1..]);
      if k.Some? then Some(k.value + 1) else None
  }

  /** Some entry belongs to the user. */
  predicate HasEntry(recipients: seq<Recipient>, user: Id)
  {
    exists i :: 0 <= i < |recipients| && recipients[i].user == user
  }

  /**
   * The query of markAsRead: its two conditions on the recipients are given
   * separately, so one entry may satisfy the first (it is the user's) and
   * another the second (it is unread).
   */
  predicate QueryMatches(recipients: seq<Recipient>, user: Id)
  {
    HasEntry(recipients, user) && FirstUnread(recipients).Some?
  }

  /**
   * The recipients after markAsRead as written: when the query matches, the
   * positional operator's entry, the first unread one, is marked read at
   * `now`; its user stays whatever it was.
   */
  function MarkedAsWritten(recipients: seq<Recipient>, user: Id, now: int): (after: seq<Recipient>)
    ensures |after| == |recipients|
    ensures forall j :: 0 <= j < |recipients| ==> after[j].user == recipients[j].user
    ensures after == recipients <==> !QueryMatches(recipients, user)
    ensures QueryMatches(recipients, user) ==>
      var k := FirstUnread(recipients).value;
      after[k].read && after[k].readAt == Some(now)
      && forall j :: 0 <= j < |recipients| && j != k ==> after[j] == recipients[j]
  {
    if QueryMatches(recipients, user) then
      var k := FirstUnread(recipients).value;
      var after := recipients[k := recipients[k].(read := true, readAt := Some(now))];
      assert after[k] != recipients[k];
      after
    else recipients
  }

  /**
   * What markAsRead is evidently meant to do: mark the user's own first
   * unread entry read at `now`, and leave everything else alone.
   */
  function MarkedOwnEntry(recipients: seq<Recipient>, user: Id, now: int): (after: seq<Recipient>)
    ensures |after| == |recipients|
    ensures forall j :: 0 <= j < |recipients| && recipients[j].user != user ==> after[j] == recipients[j]
    ensures after == recipients <==> FirstUnreadOf(recipients, user).None?
    ensures FirstUnreadOf(recipients, user).Some? ==>
      var k := FirstUnreadOf(recipients, user).value;
      after[k] == Recipient(user, true, Some(now))
      && forall j :: 0 <= j < |recipients| && j != k ==> after[j] == recipients[j]
  {
    var k := FirstUnreadOf(recipients, user);
    if k.Some? then
      var after := recipients[k.value := Recipient(user, true, Some(now))];
      assert after[k.value] != recipients[k.value];
      after
    else recipients
  }

  class Notification {
    const id: Id
    const title: string
    const message: string
    const kind: NotificationType
    const sender: Id
    const isGlobal: bool
    var recipients: seq<Recipient>

    constructor (id: Id, title: string, message: string, kind: NotificationType,
                 sender: Id, isGlobal: bool, recipients: seq<Recipient>)
      ensures this.id == id && this.title == title && this.message == message
      ensures this.kind == kind && this.sender == sender && this.isGlobal == isGlobal
      ensures this.recipients == recipients
    {
      this.id := id;
      this.title := title;
      this.message := message;
      this.kind := kind;
      this.sender := sender;
      this.isGlobal := isGlobal;
      this.recipients := recipients;
    }

    /**
     * markAsRead: when the query matches, the positional entry is marked read
     * at `now` and one document is reported modified; otherwise nothing
     * changes and none is.
     */
    method MarkAsRead(user: Id, now: int) returns (modified: nat)
      modifies this`recipients
      ensures recipients == MarkedAsWritten(old(recipients), user, now)
      ensures modified == (if QueryMatches(old(recipients), user) then 1 else 0)
    {
      if !QueryMatches(recipients, user) {
        return 0;
      }
      var k := FirstUnread(recipients).value;
      recipients := recipients[k := recipients[k].(read := true, readAt := Some(now))];
      modified := 1;
    }
  }

  /**
   * markAsRead as written does what it is meant to exactly when the user has
   * no entry, nothing is unread, or the first unread entry is the user's.
   */
  lemma AsWrittenMeetsIntentIff(recipients: seq<Recipient>, user: Id, now: int)
    ensures MarkedAsWritten(recipients, user, now) == MarkedOwnEntry(recipients, user, now)
      <==> !QueryMatches(recipients, user) || recipients[FirstUnread(recipients).value].user == user
  {
    var k := FirstUnread(recipients);
    var own := FirstUnreadOf(recipients, user);
    if own.Some? {
      assert recipients[own.value].user == user;
    }
    if QueryMatches(recipients, user) {
      var a := MarkedAsWritten(recipients, user, now);
      var b := MarkedOwnEntry(recipients, user, now);
      if recipients[k.value].user == user {
        assert own == k by {
          FirstUnreadOfIsFirstUnread(recipients, user);
        }
        assert a == b;
      } else {
        assert a[k.value] != b[k.value];
      }
    }
  }

  /** When the first unread entry is the user's, it is also the user's first unread entry. */
  lemma FirstUnreadOfIsFirstUnread(recipients: seq<Recipient>, user: Id)
    requires FirstUnread(recipients).Some?
    requires recipients[FirstUnread(recipients).value].user == user
    ensures FirstUnreadOf(recipients, user) == FirstUnread(recipients)
  {
    var k := FirstUnread(recipients).value;
    assert recipients[k].user == user && !recipients[k].read;
  }

  /**
   * With user `a`'s entry read and user `b`'s unread, a's markAsRead matches
   * and marks b's entry read, where nothing of a's is left to mark.
   */
  lemma MarkAsReadMarksOtherUsersEntry(a: Id, b: Id, now: int)
    requires a != b
    ensures var rs := [Recipient(a, true, Some(0)), Unread(b)];
      QueryMatches(rs, a)
      && MarkedAsWritten(rs, a, now)[1] == Recipient(b, true, Some(now))
      && MarkedOwnEntry(rs, a, now) == rs
  {
    var rs := [Recipient(a, true, Some(0)), Unread(b)];
    assert rs[0].user == a;
    assert FirstUnread(rs[1..]) == Some(0);
    assert FirstUnread(rs) == Some(1);
  }
}
