/**
 * The safety beacon: while active it shares the user's position with up to five chosen
 * contacts for at most four hours, counted down one second per tick.
 */
module LocationBeacon {
  import opened Wrappers
  import opened Text

  /** The beacon's lifetime: 4 hours, in seconds. */
  const BeaconSeconds: nat := 14400

  /** At most this many contacts can be selected. */
  const MaxContacts: nat := 5

  predicate NoDuplicates(ids: seq<string>) {
    forall i, j :: 0 <= i < j < |ids| ==> ids[i] != ids[j]
  }

  /** The ids other than `id`, in order (Array.prototype.filter). */
  function Without(ids: seq<string>, id: string): (r: seq<string>)
    ensures |r| <= |ids|
    ensures forall x :: x in r <==> x in ids && x != id
    ensures id !in ids ==> r == ids
  {
    if ids == [] then []
    else if ids[0] == id then Without(ids[1..], id)
    else [ids[0]] + Without(ids[1..], id)
  }

  lemma {:induction false} WithoutKeepsNoDuplicates(ids: seq<string>, id: string)
    requires NoDuplicates(ids)
    ensures NoDuplicates(Without(ids, id))
  {
    if ids != [] {
      assert NoDuplicates(ids[1..]) by {
        forall i, j | 0 <= i < j < |ids[1..]| ensures ids[1..][i] != ids[1..][j] {
          assert ids[1..][i] == ids[i + 1] && ids[1..][j] == ids[j + 1];
        }
      }
      WithoutKeepsNoDuplicates(ids[1..], id);
      assert ids[0] !in ids[1..];
    }
  }

  /** A selected contact is removed; an unselected one is added only while fewer than five are selected. */
  function ToggledContacts(selected: seq<string>, contactId: string): (r: seq<string>)
    ensures contactId in r <==> contactId !in selected && |selected| < MaxContacts
    ensures forall x :: x != contactId ==> (x in r <==> x in selected)
    ensures contactId !in selected && |selected| >= MaxContacts ==> r == selected
  {
    if contactId in selected then Without(selected, contactId)
    else if |selected| < MaxContacts then selected + [contactId]
    else selected
  }

  /** The selection stays within five distinct contacts. */
  lemma ToggleKeepsSelectionValid(selected: seq<string>, contactId: string)
    requires |selected| <= MaxContacts && NoDuplicates(selected)
    ensures |ToggledContacts(selected, contactId)| <= MaxContacts
    ensures NoDuplicates(ToggledContacts(selected, contactId))
  {
    if contactId in selected {
      WithoutKeepsNoDuplicates(selected, contactId);
    }
  }

  /** Toggling an unselected contact twice gives back the selection. */
  lemma ToggleTwiceRestores(selected: seq<string>, contactId: string)
    requires contactId !in selected
    ensures ToggledContacts(ToggledContacts(selected, contactId), contactId) == selected
  {
    if |selected| < MaxContacts {
      WithoutAppend(selected, contactId);
    }
  }

  lemma {:induction false} WithoutAppend(ids: seq<string>, id: string)
    requires id !in ids
    ensures Without(ids + [id], id) == ids
  {
    if ids == [] {
      assert [] + [id] == [id];
    } else {
      assert (ids + [id])[0] == ids[0];
      assert (ids + [id])[1..] == ids[1..] + [id];
      WithoutAppend(ids[1..], id);
    }
  }

  /** Hours, minutes and seconds of a number of seconds (integer division). */
  datatype ClockParts = ClockParts(hours: nat, minutes: nat, seconds: nat)

  function Split(totalSeconds: nat): (p: ClockParts)
    ensures p.minutes < 60 && p.seconds < 60
    ensures p.hours * 3600 + p.minutes * 60 + p.seconds == totalSeconds
  {
    ClockParts(totalSeconds / 3600, (totalSeconds % 3600) / 60, totalSeconds % 60)
  }

  /** formatTime: "{h}h {m}m {s}s". */
  function FormatTime(totalSeconds: nat): string {
    var p := Split(totalSeconds);
    NatToString(p.hours) + "h " + NatToString(p.minutes) + "m " + NatToString(p.seconds) + "s"
  }

  /** A full beacon period reads "4h 0m 0s". */
  lemma FormatFullPeriod()
    ensures FormatTime(BeaconSeconds) == "4h 0m 0s"
  {
    assert Split(14400) == ClockParts(4, 0, 0);
  }

  class Beacon {
    var isBeaconActive: bool
    var selectedContacts: seq<string>
    var timeLeft: nat
    var showPermissionPrompt: bool
    /** When the beacon was switched on (milliseconds), if it is on. */
    var beaconStartTime: Option<real>

    /** At most five distinct contacts; the countdown stays within 1 second to 4 hours. */
    ghost predicate Valid()
      reads this
    {
      && |selectedContacts| <= MaxContacts && NoDuplicates(selectedContacts)
      && 1 <= timeLeft <= BeaconSeconds
    }

    constructor()
      ensures Valid()
      ensures !isBeaconActive && selectedContacts == [] && timeLeft == BeaconSeconds
      ensures !showPermissionPrompt && beaconStartTime.None?
    {
      isBeaconActive := false;
      selectedContacts := [];
      timeLeft := BeaconSeconds;
      showPermissionPrompt := false;
      beaconStartTime := None;
    }

    /** Switching on only asks for permission; switching off clears contacts, countdown and start time. */
    method BeaconToggle()
      requires Valid()
      modifies this
      ensures Valid()
      ensures !old(isBeaconActive) ==>
        && showPermissionPrompt && !isBeaconActive
        && selectedContacts == old(selectedContacts) && timeLeft == old(timeLeft)
        && beaconStartTime == old(beaconStartTime)
      ensures old(isBeaconActive) ==>
        && !isBeaconActive && selectedContacts == [] && timeLeft == BeaconSeconds
        && beaconStartTime.None? && showPermissionPrompt == old(showPermissionPrompt)
    {
      if !isBeaconActive {
        showPermissionPrompt := true;
      } else {
        isBeaconActive := false;
        selectedContacts := [];
        timeLeft := BeaconSeconds;
        beaconStartTime := None;
      }
    }

    /** Permission given at time `now`: the beacon is on, started now, and the prompt closed. */
    method PermissionGranted(now: real)
      requires Valid()
      modifies this
      ensures Valid()
      ensures isBeaconActive && beaconStartTime == Some(now) && !showPermissionPrompt
      ensures selectedContacts == old(selectedContacts) && timeLeft == old(timeLeft)
    {
      isBeaconActive := true;
      beaconStartTime := Some(now);
      showPermissionPrompt := false;
    }

    /** The permission dialog opened or dismissed. */
    method SetPermissionPromptOpen(open: bool)
      requires Valid()
      modifies this
      ensures Valid()
      ensures showPermissionPrompt == open
      ensures isBeaconActive == old(isBeaconActive) && selectedContacts == old(selectedContacts)
      ensures timeLeft == old(timeLeft) && beaconStartTime == old(beaconStartTime)
    {
      showPermissionPrompt := open;
    }

    method ContactToggle(contactId: string)
      requires Valid()
      modifies this
      ensures Valid()
      ensures selectedContacts == ToggledContacts(old(selectedContacts), contactId)
      ensures isBeaconActive == old(isBeaconActive) && timeLeft == old(timeLeft)
      ensures showPermissionPrompt == old(showPermissionPrompt) && beaconStartTime == old(beaconStartTime)
    {
      ToggleKeepsSelectionValid(selectedContacts, contactId);
      if contactId in selectedContacts {
        selectedContacts := Without(selectedContacts, contactId);
      } else if |selectedContacts| < MaxContacts {
        selectedContacts := selectedContacts + [contactId];
      }
    }

    /**
     * One second of the countdown, while active: the last second switches the beacon off,
     * clears the contacts and restarts the countdown (the start time is kept).
     */
    method Tick()
      requires Valid()
      modifies this
      ensures Valid()
      ensures !old(isBeaconActive) ==>
        isBeaconActive == old(isBeaconActive) && selectedContacts == old(selectedContacts) && timeLeft == old(timeLeft)
      ensures old(isBeaconActive) && old(timeLeft) > 1 ==>
        isBeaconActive && timeLeft == old(timeLeft) - 1 && selectedContacts == old(selectedContacts)
      ensures old(isBeaconActive) && old(timeLeft) <= 1 ==>
        !isBeaconActive && timeLeft == BeaconSeconds && selectedContacts == []
      ensures showPermissionPrompt == old(showPermissionPrompt) && beaconStartTime == old(beaconStartTime)
    {
      if !isBeaconActive {
        return;
      }
      if timeLeft <= 1 {
        isBeaconActive := false;
        selectedContacts := [];
        timeLeft := BeaconSeconds;
      } else {
        timeLeft := timeLeft - 1;
      }
    }
  }
}
