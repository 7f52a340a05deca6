/**
 * The Odin flashing screen: four firmware slots, each filled with a fixed
 * package by its button, and the log pane that reports every pick.
 */
module Odin {
  import opened Types

  datatype Slot = BL | AP | CP | CSC

  /** `FIRMWARE_FILES`: the package each slot button picks. */
  function FirmwareFile(slot: Slot): string
  {
    match slot
    case BL => "BL_S918BXXU1AWBD_CL26239105_QB62758151_REV00_user_low_ship_meta_os13.tar.md5"
    case AP => "AP_S918BXXU1AWBD_CL26239105_QB62758151_REV00_user_low_ship_meta_os13.tar.md5"
    case CP => "CP_S918BXXU1AWBD_CP23883313_CL26239105_QB62758151_REV00_user_low_ship.tar.md5"
    case CSC => "CSC_OXM_S918BOXM1AWBD_CL26239105_QB62758151_REV00_user_low_ship.tar.md5"
  }

  /** The log line announcing a picked package. */
  function ValidLine(slot: Slot): string
  {
    "<OSM> " + FirmwareFile(slot) + " is valid."
  }

  /** The slot map after picking `slot`: that slot holds its package, the
      others are as before. */
  function Select(files: map<Slot, string>, slot: Slot): (r: map<Slot, string>)
    ensures slot in r && r[slot] == FirmwareFile(slot)
    ensures forall s :: s != slot ==> (s in r <==> s in files)
    ensures forall s :: s in files && s != slot ==> r[s] == files[s]
  {
    files[slot := FirmwareFile(slot)]
  }

  /** Picking the same slot again leaves the map as it is. */
  lemma SelectIdempotent(files: map<Slot, string>, slot: Slot)
    ensures Select(Select(files, slot), slot) == Select(files, slot)
  {
  }

  /** Every slot holds its own fixed package. */
  predicate Consistent(files: map<Slot, string>)
  {
    forall s :: s in files ==> files[s] == FirmwareFile(s)
  }

  class OdinScreen {
    var selectedFiles: map<Slot, string>
    var log: seq<string>

    /** Each filled slot holds its package, and the log has reported it. */
    predicate Valid()
      reads this
    {
      Consistent(selectedFiles) && forall s :: s in selectedFiles ==> ValidLine(s) in log
    }

    constructor()
      ensures Valid() && selectedFiles == map[] && log == []
    {
      selectedFiles := map[];
      log := [];
    }

    /** The first step of the simulated device connection. */
    method DeviceAdded()
      requires Valid()
      modifies this
      ensures Valid()
      ensures log == old(log) + ["<ID:0/005> Added!!"] && selectedFiles == old(selectedFiles)
    {
      log := log + ["<ID:0/005> Added!!"];
    }

    /** The second step of the simulated device connection. */
    method DeviceChecked()
      requires Valid()
      modifies this
      ensures Valid()
      ensures log == old(log) + ["<OSM> Enter CS for MD5..", "<OSM> Check MD5.. Do not unplug the cable..",
                                 "<OSM> Please wait.."]
      ensures selectedFiles == old(selectedFiles)
    {
      log := log + ["<OSM> Enter CS for MD5.."];
      log := log + ["<OSM> Check MD5.. Do not unplug the cable.."];
      log := log + ["<OSM> Please wait.."];
    }

    /** `handleFileSelect`: fills the slot and logs one line, even when the
        slot was already filled. */
    method HandleFileSelect(slot: Slot)
      requires Valid()
      modifies this
      ensures Valid()
      ensures selectedFiles == Select(old(selectedFiles), slot)
      ensures log == old(log) + [ValidLine(slot)]
    {
      selectedFiles := Select(selectedFiles, slot);
      log := log + [ValidLine(slot)];
    }

    /** `canStart`: at least one slot is filled. */
    function CanStart(): (b: bool)
      reads this
      ensures b <==> exists s :: s in selectedFiles
    {
      if |selectedFiles| > 0 then
        var s :| s in selectedFiles; true
      else
        assert forall s :: s !in selectedFiles;
        false
    }

    /** START: disabled until a slot is filled, then it passes the slots. */
    function Start(): (payload: Option<map<Slot, string>>)
      requires Valid()
      reads this
      ensures payload.None? <==> !CanStart()
      ensures payload.Some? ==> payload.value == selectedFiles && Consistent(payload.value)
    {
      if CanStart() then Some(selectedFiles) else None
    }
  }
}
