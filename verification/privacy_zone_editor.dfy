/**
 * The dialog that creates or edits a privacy zone: a name field, a radius slider and an
 * error line; saving validates the fields, hands the zone to the parent and resets.
 */
module PrivacyZoneEditor {
  import opened Wrappers
  import opened PrivacySettings

  const NameRequired: string := "Zone name is required"
  const RadiusOutOfRange: string := "Le rayon doit être entre 50 et 1000 mètres"

  /** The radius the fields fall back to, in metres. */
  const DefaultRadius: real := 100.0

  /** The characters String.prototype.trim removes: white space and line terminators. */
  predicate IsJsWhitespace(c: char) {
    || c == '\t' || c == '\n' || c == '\U{000B}' || c == '\U{000C}' || c == '\r' || c == ' '
    || c == '\U{00A0}' || c == '\U{1680}' || ('\U{2000}' <= c <= '\U{200A}')
    || c == '\U{2028}' || c == '\U{2029}' || c == '\U{202F}' || c == '\U{205F}'
    || c == '\U{3000}' || c == '\U{FEFF}'
  }

  /** `!name.trim()`: the name is empty once trimmed. */
  predicate IsBlank(name: string) {
    forall i :: 0 <= i < |name| ==> IsJsWhitespace(name[i])
  }

  /** The name field's starting value: the zone's name, or empty. */
  function InitialName(zone: Option<PrivacyZone>): (name: string)
    ensures zone.None? ==> name == ""
    ensures zone.Some? ==> name == zone.value.name
  {
    if zone.Some? && zone.value.name != "" then zone.value.name else ""
  }

  /** The radius field's starting value: the zone's radius, or 100 when there is no zone or it is 0. */
  function InitialRadius(zone: Option<PrivacyZone>): (radius: real)
    ensures zone.None? || zone.value.radius == 0.0 ==> radius == DefaultRadius
    ensures zone.Some? && zone.value.radius != 0.0 ==> radius == zone.value.radius
  {
    if zone.Some? && zone.value.radius != 0.0 then zone.value.radius else DefaultRadius
  }

  /** The error handleSave reports, if any: the name is checked before the radius. */
  function ValidationError(name: string, radius: real): (error: Option<string>)
    ensures error.None? <==> !IsBlank(name) && 50.0 <= radius <= 1000.0
    ensures IsBlank(name) ==> error == Some(NameRequired)
    ensures !IsBlank(name) && (radius < 50.0 || radius > 1000.0) ==> error == Some(RadiusOutOfRange)
  {
    if IsBlank(name) then Some(NameRequired)
    else if radius < 50.0 || radius > 1000.0 then Some(RadiusOutOfRange)
    else None
  }

  /** The zone handed to onSave: the name untrimmed, the radius, the edited zone's position or (0, 0). */
  function SavedData(zone: Option<PrivacyZone>, name: string, radius: real): (data: ZoneData)
    ensures data.name == name && data.radius == radius
    ensures data.coordinates == (if zone.Some? then zone.value.coordinates else Coordinates(0.0, 0.0))
  {
    ZoneData(name, radius, if zone.Some? then zone.value.coordinates else Coordinates(0.0, 0.0))
  }

  /** A padded name passes validation and is saved with its padding. */
  lemma PaddedNameKeptAsTyped(radius: real)
    requires 50.0 <= radius <= 1000.0
    ensures ValidationError(" Gym ", radius).None?
    ensures SavedData(None, " Gym ", radius).name == " Gym "
  {
    assert !IsJsWhitespace(" Gym "[1]);
  }

  class Editor {
    /** The zone prop: the zone being edited, or none for a new one. */
    var zone: Option<PrivacyZone>
    var name: string
    var radius: real
    var error: string

    constructor(zone: Option<PrivacyZone>)
      ensures this.zone == zone && name == InitialName(zone) && radius == InitialRadius(zone) && error == ""
    {
      this.zone := zone;
      name := InitialName(zone);
      radius := InitialRadius(zone);
      error := "";
    }

    /** The parent passes another zone; the fields keep their values (state is initialised once). */
    method SetZone(z: Option<PrivacyZone>)
      modifies this
      ensures zone == z && name == old(name) && radius == old(radius) && error == old(error)
    {
      zone := z;
    }

    /** Typing in the name field clears the error. */
    method EditName(value: string)
      modifies this
      ensures name == value && error == "" && radius == old(radius) && zone == old(zone)
    {
      name := value;
      error := "";
    }

    /** Moving the slider. */
    method EditRadius(value: real)
      modifies this
      ensures radius == value && name == old(name) && error == old(error) && zone == old(zone)
    {
      radius := value;
    }

    /**
     * handleSave: on a validation error, record it and save nothing; otherwise return the zone
     * for onSave, reset the fields and ask the parent to close the dialog.
     */
    method Save() returns (saved: Option<ZoneData>, closeRequested: bool)
      modifies this
      ensures zone == old(zone)
      ensures ValidationError(old(name), old(radius)).Some? ==>
        && saved.None? && !closeRequested
        && error == ValidationError(old(name), old(radius)).value
        && name == old(name) && radius == old(radius)
      ensures ValidationError(old(name), old(radius)).None? ==>
        && saved == Some(SavedData(zone, old(name), old(radius))) && closeRequested
        && name == "" && radius == DefaultRadius && error == ""
    {
      var problem := ValidationError(name, radius);
      if problem.Some? {
        error := problem.value;
        return None, false;
      }
      saved := Some(SavedData(zone, name, radius));
      name := "";
      radius := DefaultRadius;
      error := "";
      closeRequested := true;
    }

    /** handleOpenChange: closing restores the fields from the zone prop; the change is passed on. */
    method OpenChange(open: bool) returns (forwarded: bool)
      modifies this
      ensures forwarded == open && zone == old(zone)
      ensures !open ==> name == InitialName(zone) && radius == InitialRadius(zone) && error == ""
      ensures open ==> name == old(name) && radius == old(radius) && error == old(error)
    {
      if !open {
        name := InitialName(zone);
        radius := InitialRadius(zone);
        error := "";
      }
      forwarded := open;
    }
  }
}
