/**
 * The notification panel: a local copy of the tracker's notifications,
 * shown five at a time unless expanded, with labels, style classes and icons
 * per status and an "n units ago" line per notification.
 */
module TransactionNotifications {
  import opened Wrappers
  import opened Decimal
  import AllocateStatus

  /** The names of constellations 0 to 23, in id order. */
  const ConstellationNames: seq<string> := [
    "Aries", "Taurus", "Gemini", "Cancer", "Leo", "Virgo", "Libra", "Scorpio",
    "Sagittarius", "Capricorn", "Aquarius", "Pisces", "Ophiuchus", "Orion",
    "Andromeda", "Pegasus", "Cassiopeia", "Phoenix", "Cygnus", "Lyra",
    "Draco", "Hydra", "Crux", "Corona Borealis"
  ]

  /** How many notifications the collapsed panel shows. */
  const MaxNotifications: nat := 5

  /** The id-to-name map the panel builds: id `i` names the `i`-th constellation. */
  function NameMap(): (m: map<int, string>)
    ensures forall id :: id in m <==> 0 <= id < |ConstellationNames|
  {
    map i | 0 <= i < |ConstellationNames| :: ConstellationNames[i]
  }

  // ------------------------------------------------------------ status text

  /** The label of a status; an unknown status is shown as it is. */
  function FormatStatus(status: string): (text: string)
    ensures status == AllocateStatus.Success ==> text == "Successful"
    ensures status == AllocateStatus.Pending ==> text == "Pending"
    ensures status == AllocateStatus.AbortByPostCondition ==> text == "Failed (Post Condition)"
    ensures status == AllocateStatus.AbortByResponse ==> text == "Failed (Response)"
    ensures text != status ==> KnownStatus(status)
  {
    if status == AllocateStatus.Success then "Successful"
    else if status == AllocateStatus.Pending then "Pending"
    else if status == AllocateStatus.AbortByPostCondition then "Failed (Post Condition)"
    else if status == AllocateStatus.AbortByResponse then "Failed (Response)"
    else status
  }

  predicate KnownStatus(status: string) {
    status in {AllocateStatus.Success, AllocateStatus.Pending, AllocateStatus.AbortByPostCondition, AllocateStatus.AbortByResponse}
  }

  predicate IsAbort(status: string) {
    status == AllocateStatus.AbortByPostCondition || status == AllocateStatus.AbortByResponse
  }

  /** The style class of a status: `success`, `pending`, `error` for both aborts, none for an unknown status. */
  function GetStatusClass(status: string): (cls: string)
    ensures status == AllocateStatus.Success <==> cls == "success"
    ensures status == AllocateStatus.Pending <==> cls == "pending"
    ensures IsAbort(status) <==> cls == "error"
    ensures !KnownStatus(status) <==> cls == ""
  {
    if status == AllocateStatus.Success then "success"
    else if status == AllocateStatus.Pending then "pending"
    else if IsAbort(status) then "error"
    else ""
  }

  /** The icon of a status: a check mark, an hourglass, `error` for both aborts, `info` for an unknown status. */
  function GetStatusIcon(status: string): (icon: string)
    ensures status == AllocateStatus.Success <==> icon == "check_circle"
    ensures status == AllocateStatus.Pending <==> icon == "hourglass_empty"
    ensures IsAbort(status) <==> icon == "error"
    ensures !KnownStatus(status) <==> icon == "info"
  {
    if status == AllocateStatus.Success then "check_circle"
    else if status == AllocateStatus.Pending then "hourglass_empty"
    else if IsAbort(status) then "error"
    else "info"
  }

  /** The class and the icon agree on which statuses are errors. */
  lemma ClassAndIconAgree(status: string)
    ensures GetStatusClass(status) == "error" <==> GetStatusIcon(status) == "error"
    ensures GetStatusClass(status) == "" <==> GetStatusIcon(status) == "info"
  {
  }

  // ---------------------------------------------------------- relative time

  /** `<count> <unit>[s] ago`, with the `s` exactly when the count is not 1. */
  function Phrase(count: int, unit: string): (s: string)
    ensures |s| > |IntToString(count)|
    ensures s[..|IntToString(count)|] == IntToString(count) && s[|IntToString(count)|] == ' '
    ensures |s| >= 4 && s[|s| - 4..] == " ago"
    ensures |s| >= |IntToString(count)| + 1 + |unit| + 4
    ensures s[|IntToString(count)| + 1..|IntToString(count)| + 1 + |unit|] == unit
  {
    IntToString(count) + " " + unit + (if count != 1 then "s" else "") + " ago"
  }

  /** `parseInt` of a phrase reads its count back. */
  lemma PhraseCountReadsBack(count: int, unit: string)
    ensures ParseInt(Phrase(count, unit)) == Some(count)
  {
    var s := Phrase(count, unit);
    var c := IntToString(count);
    var rest := s[|c|..];
    assert s == c + rest && rest[0] == ' ';
    ParseIntPrefix(count, rest);
  }

  /** The plural `s` is there exactly when the count is not one; a count of one reads `1 <unit> ago`. */
  lemma PhrasePlural(count: int, unit: string)
    ensures var s := Phrase(count, unit);
      (count != 1 <==> s == IntToString(count) + " " + unit + "s ago")
    ensures count == 1 ==> Phrase(count, unit) == "1 " + unit + " ago"
  {
    if count == 1 {
      var p := IntToString(count) + " " + unit;
      assert Phrase(count, unit) == p + " ago";
      assert |p + " ago"| < |p + "s ago"|;
    }
  }

  /**
   * `getRelativeTime` with the elapsed milliseconds as its argument: whole
   * seconds under a minute, then whole minutes under an hour, then whole
   * hours under a day, then whole days, each by floor division of the one
   * before.
   */
  function RelativeTime(elapsedMs: int): (s: string)
    ensures |s| >= 4 && s[|s| - 4..] == " ago"
  {
    var seconds := elapsedMs / 1000;
    if seconds < 60 then Phrase(seconds, "second")
    else
      var minutes := seconds / 60;
      if minutes < 60 then Phrase(minutes, "minute")
      else
        var hours := minutes / 60;
        if hours < 24 then Phrase(hours, "hour")
        else Phrase(hours / 24, "day")
  }

  /** Each unit covers a fixed range of elapsed time, and its count is the elapsed time divided by the unit. */
  lemma RelativeTimeBuckets(elapsedMs: int)
    ensures elapsedMs < 60000 ==> RelativeTime(elapsedMs) == Phrase(elapsedMs / 1000, "second")
    ensures 60000 <= elapsedMs < 3600000 ==> RelativeTime(elapsedMs) == Phrase(elapsedMs / 60000, "minute")
    ensures 3600000 <= elapsedMs < 86400000 ==> RelativeTime(elapsedMs) == Phrase(elapsedMs / 3600000, "hour")
    ensures 86400000 <= elapsedMs ==> RelativeTime(elapsedMs) == Phrase(elapsedMs / 86400000, "day")
    ensures ParseInt(RelativeTime(elapsedMs)) == Some(
      if elapsedMs < 60000 then elapsedMs / 1000
      else if elapsedMs < 3600000 then elapsedMs / 60000
      else if elapsedMs < 86400000 then elapsedMs / 3600000
      else elapsedMs / 86400000)
  {
    var seconds := elapsedMs / 1000;
    var minutes := seconds / 60;
    var hours := minutes / 60;
    if elapsedMs < 60000 {
      PhraseCountReadsBack(seconds, "second");
    } else {
      assert minutes == elapsedMs / 60000;
      if elapsedMs < 3600000 {
        PhraseCountReadsBack(minutes, "minute");
      } else {
        assert hours == elapsedMs / 3600000;
        if elapsedMs < 86400000 {
          PhraseCountReadsBack(hours, "hour");
        } else {
          assert hours / 24 == elapsedMs / 86400000;
          PhraseCountReadsBack(hours / 24, "day");
        }
      }
    }
  }

  // ------------------------------------------------------------------ panel

  class TransactionNotificationsComponent {
    const constellationsMap: map<int, string>
    var notificationsSignal: seq<AllocateStatus.TransactionNotification>
    var expanded: bool

    ghost predicate Valid() {
      constellationsMap == NameMap()
    }

    /** Fills the name map one id at a time and takes the tracker's notifications. */
    constructor(tracker: AllocateStatus.AllocateStatusService)
      ensures Valid()
      ensures notificationsSignal == tracker.notifications && !expanded
    {
      var names := ConstellationNames;
      var m: map<int, string> := map[];
      var i := 0;
      while i < |names|
        invariant 0 <= i <= |names|
        invariant m == map k | 0 <= k < i :: names[k]
      {
        m := m[i := names[i]];
        i := i + 1;
      }
      constellationsMap := m;
      notificationsSignal := tracker.notifications;
      expanded := false;
    }

    /** The tracker's notifications changed: the panel takes the new list. */
    method SyncFromTracker(tracker: AllocateStatus.AllocateStatusService)
      modifies this`notificationsSignal
      ensures notificationsSignal == tracker.notifications
    {
      notificationsSignal := tracker.notifications;
    }

    /** The shown notifications: all when expanded, else the first five in arrival order. */
    function Notifications(): (shown: seq<AllocateStatus.TransactionNotification>)
      reads this
      ensures shown <= notificationsSignal
      ensures expanded ==> shown == notificationsSignal
      ensures !expanded ==> |shown| == if |notificationsSignal| < MaxNotifications then |notificationsSignal| else MaxNotifications
    {
      if expanded then notificationsSignal
      else notificationsSignal[..if |notificationsSignal| < MaxNotifications then |notificationsSignal| else MaxNotifications]
    }

    function NotificationCount(): (n: nat)
      reads this
      ensures n == |notificationsSignal|
      ensures n >= |Notifications()|
    {
      |notificationsSignal|
    }

    /** The name of constellation `id`, or `Constellation <id>` for an id outside 0..23. */
    function GetConstellationName(id: int): (name: string)
      requires Valid()
      ensures 0 <= id < |ConstellationNames| ==> name == ConstellationNames[id]
      ensures !(0 <= id < |ConstellationNames|) ==> name == "Constellation " + IntToString(id)
    {
      if id in constellationsMap && constellationsMap[id] != "" then constellationsMap[id]
      else "Constellation " + IntToString(id)
    }

    method ToggleExpanded()
      modifies this`expanded
      ensures expanded == !old(expanded)
    {
      expanded := !expanded;
    }

    /** Drops the panel's notifications about `txid`, keeping the others in order; the tracker is not told. */
    method DismissNotification(txid: string)
      modifies this`notificationsSignal
      ensures notificationsSignal == AllocateStatus.WithoutTxid(old(notificationsSignal), txid)
      ensures forall n :: n in notificationsSignal <==> n in old(notificationsSignal) && n.txid != txid
    {
      notificationsSignal := AllocateStatus.WithoutTxid(notificationsSignal, txid);
    }

    /** Empties the panel and collapses it. */
    method ClearAllNotifications()
      modifies this`notificationsSignal, this`expanded
      ensures notificationsSignal == [] && !expanded
    {
      notificationsSignal := [];
      expanded := false;
    }
  }
}
