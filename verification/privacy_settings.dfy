/**
 * The privacy-zone settings screen: a list of zones around which the user's position is
 * hidden, with add, edit, delete and save, and the state of the zone editor dialog.
 */
module PrivacySettings {
  import opened Wrappers
  import opened Text

  datatype Coordinates = Coordinates(lat: real, lng: real)

  /** A privacy zone; `radius` in metres, `createdAtMs` in milliseconds since the epoch. */
  datatype PrivacyZone = PrivacyZone(id: string, name: string, radius: real, coordinates: Coordinates, createdAtMs: real)

  /** What the editor hands back on save: a zone without id and creation time. */
  datatype ZoneData = ZoneData(name: string, radius: real, coordinates: Coordinates)

  /** The two zones the screen starts with (created 2024-01-01 and 2024-01-05, UTC midnight). */
  const MockZones: seq<PrivacyZone> := [
    PrivacyZone("1", "Domicile", 300.0, Coordinates(47.4780, -0.5640), 1704067200000.0),
    PrivacyZone("2", "Bureau", 200.0, Coordinates(47.4788, -0.5625), 1704412800000.0)
  ]

  /** handleDeleteZone's filter: every zone with another id, in order. */
  function WithoutZone(zones: seq<PrivacyZone>, id: string): (r: seq<PrivacyZone>)
    ensures |r| <= |zones|
    ensures forall z :: z in r <==> z in zones && z.id != id
  {
    if zones == [] then []
    else if zones[0].id == id then WithoutZone(zones[1..], id)
    else [zones[0]] + WithoutZone(zones[1..], id)
  }

  /** Deletion distributes over concatenation: the remaining zones keep their order. */
  lemma {:induction false} WithoutZoneAppend(a: seq<PrivacyZone>, b: seq<PrivacyZone>, id: string)
    ensures WithoutZone(a + b, id) == WithoutZone(a, id) + WithoutZone(b, id)
  {
    if a == [] {
      assert a + b == b;
    } else {
      assert (a + b)[0] == a[0];
      assert (a + b)[1..] == a[1..] + b;
      WithoutZoneAppend(a[1..], b, id);
    }
  }

  /** The zone with the editor's data laid over it: name, radius and position replaced. */
  function Overwrite(zone: PrivacyZone, data: ZoneData): (z: PrivacyZone)
    ensures z.id == zone.id && z.createdAtMs == zone.createdAtMs
    ensures z.name == data.name && z.radius == data.radius && z.coordinates == data.coordinates
  {
    zone.(name := data.name, radius := data.radius, coordinates := data.coordinates)
  }

  /** Saving in edit mode: the zones with the edited id are overwritten, the others kept. */
  function EditedZones(zones: seq<PrivacyZone>, id: string, data: ZoneData): (r: seq<PrivacyZone>)
    ensures |r| == |zones|
    ensures forall i :: 0 <= i < |r| ==> r[i].id == zones[i].id && r[i].createdAtMs == zones[i].createdAtMs
    ensures forall i :: 0 <= i < |r| && zones[i].id != id ==> r[i] == zones[i]
    ensures forall i :: 0 <= i < |r| && zones[i].id == id ==>
      r[i].name == data.name && r[i].radius == data.radius && r[i].coordinates == data.coordinates
  {
    seq(|zones|, i requires 0 <= i < |zones| => if zones[i].id == id then Overwrite(zones[i], data) else zones[i])
  }

  /** A zone created from the editor's data: its id is the creation time in decimal. */
  function NewZone(data: ZoneData, idTime: nat, createdAtMs: real): (z: PrivacyZone)
    ensures z.id == NatToString(idTime) && z.createdAtMs == createdAtMs
    ensures z.name == data.name && z.radius == data.radius && z.coordinates == data.coordinates
  {
    PrivacyZone(NatToString(idTime), data.name, data.radius, data.coordinates, createdAtMs)
  }

  /** handleSaveZone: overwrite the zone being edited, or append a new one. */
  function SavedZones(zones: seq<PrivacyZone>, editing: Option<PrivacyZone>, data: ZoneData, idTime: nat, createdAtMs: real): (r: seq<PrivacyZone>)
    ensures editing.Some? ==> r == EditedZones(zones, editing.value.id, data)
    ensures editing.None? ==> |r| == |zones| + 1 && r[..|zones|] == zones && r[|zones|] == NewZone(data, idTime, createdAtMs)
  {
    if editing.Some? then EditedZones(zones, editing.value.id, data)
    else zones + [NewZone(data, idTime, createdAtMs)]
  }

  /** Editing a zone that is no longer listed (deleted meanwhile) changes nothing. */
  lemma EditOfDeletedZone(zones: seq<PrivacyZone>, id: string, data: ZoneData)
    requires forall i :: 0 <= i < |zones| ==> zones[i].id != id
    ensures EditedZones(zones, id, data) == zones
  {
  }

  /** Deleting a zone and saving a new one leaves no zone with the deleted id unless the new id equals it. */
  lemma DeleteThenAdd(zones: seq<PrivacyZone>, id: string, data: ZoneData, idTime: nat, createdAtMs: real)
    ensures var r := SavedZones(WithoutZone(zones, id), None, data, idTime, createdAtMs);
      forall i :: 0 <= i < |r| && r[i].id == id ==> i == |r| - 1 && NatToString(idTime) == id
  {
  }

  class Settings {
    var zones: seq<PrivacyZone>
    var editorOpen: bool
    var editingZone: Option<PrivacyZone>

    constructor()
      ensures zones == MockZones && !editorOpen && editingZone.None?
    {
      zones := MockZones;
      editorOpen := false;
      editingZone := None;
    }

    /** handleAddZone: an empty editor, opened. */
    method AddZone()
      modifies this
      ensures editingZone.None? && editorOpen && zones == old(zones)
    {
      editingZone := None;
      editorOpen := true;
    }

    /** handleEditZone: the editor opened on the chosen zone. */
    method EditZone(zone: PrivacyZone)
      modifies this
      ensures editingZone == Some(zone) && editorOpen && zones == old(zones)
    {
      editingZone := Some(zone);
      editorOpen := true;
    }

    /** The editor's onOpenChange. */
    method SetEditorOpen(open: bool)
      modifies this
      ensures editorOpen == open && editingZone == old(editingZone) && zones == old(zones)
    {
      editorOpen := open;
    }

    method DeleteZone(id: string)
      modifies this
      ensures zones == WithoutZone(old(zones), id)
      ensures editorOpen == old(editorOpen) && editingZone == old(editingZone)
    {
      zones := WithoutZone(zones, id);
    }

    /** handleSaveZone at clock time `idTime` (for the id) and `createdAtMs` (for the date). */
    method SaveZone(zoneData: ZoneData, idTime: nat, createdAtMs: real)
      modifies this
      ensures zones == SavedZones(old(zones), old(editingZone), zoneData, idTime, createdAtMs)
      ensures editorOpen == old(editorOpen) && editingZone == old(editingZone)
    {
      if editingZone.Some? {
        zones := EditedZones(zones, editingZone.value.id, zoneData);
      } else {
        var newZone := NewZone(zoneData, idTime, createdAtMs);
        zones := zones + [newZone];
      }
    }
  }
}
