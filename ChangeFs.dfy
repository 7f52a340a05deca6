/**
 * The change-file-system screen: pick a partition, then repair it or
 * change it to another file system, optionally forcing the run to fail.
 */
module ChangeFs {
  import opened Types

  const PartitionNames: seq<string> := ["Data", "Cache", "System", "MicroSD Card"]
  const FsTypes: seq<string> := ["ext4", "f2fs", "btrfs (exotic)", "vfat"]

  datatype FsAction = Repair | Change

  /** The `fsType` field of the request: left out (`undefined`) for a
      repair, otherwise the chosen target, which may still be `null`. */
  datatype FsTypeField = Undefined | Null | Named(fs: string)

  /** What `onConfirm` receives. */
  datatype FsRequest = FsRequest(partition: string, fsType: FsTypeField, repair: bool, forceError: bool)

  /** `handleConfirmAction`: nothing without a partition and an action;
      otherwise the request, with a file system only for a change. */
  function Request(selectedPartition: Option<string>, targetFs: Option<string>,
                   action: Option<FsAction>, forceError: bool): (r: Option<FsRequest>)
    ensures r.Some? <==> Truthy(selectedPartition) && action.Some?
    ensures r.Some? ==>
      && r.value.partition == selectedPartition.value
      && (r.value.fsType != Undefined <==> action == Some(Change))
      && (r.value.repair <==> action == Some(Repair))
      && r.value.forceError == forceError
    ensures r.Some? && action == Some(Change) && targetFs.Some? ==> r.value.fsType == Named(targetFs.value)
  {
    if !Truthy(selectedPartition) || action.None? then None
    else
      var fsType := if action == Some(Change) then (if targetFs.Some? then Named(targetFs.value) else Null)
                    else Undefined;
      Some(FsRequest(selectedPartition.value, fsType, action == Some(Repair), forceError))
  }

  /** The confirm button is shown for a repair, or for a change once a
      target file system is picked. */
  function ShowsConfirm(targetFs: Option<string>, action: Option<FsAction>): (b: bool)
    ensures b ==> action.Some?
    ensures action == Some(Repair) ==> b
    ensures action == Some(Change) ==> (b <==> Truthy(targetFs))
  {
    action == Some(Repair) || (action == Some(Change) && Truthy(targetFs))
  }

  class ChangeFsScreen {
    var selectedPartition: Option<string>
    var targetFs: Option<string>
    var action: Option<FsAction>
    var forceError: bool

    /** The action buttons appear only once a partition is picked, and the
        file-system buttons only for a change. */
    predicate Valid()
      reads this
    {
      && (action.Some? ==> Truthy(selectedPartition))
      && (targetFs.Some? ==> action == Some(Change))
    }

    constructor()
      ensures Valid()
      ensures selectedPartition == None && targetFs == None && action == None && !forceError
    {
      selectedPartition := None;
      targetFs := None;
      action := None;
      forceError := false;
    }

    /** `handlePartitionSelect`: a new partition drops the action and the
        target picked for the previous one. */
    method SelectPartition(partitionName: string)
      requires partitionName in PartitionNames
      modifies this
      ensures Valid()
      ensures selectedPartition == Some(partitionName) && targetFs == None && action == None
      ensures forceError == old(forceError)
    {
      selectedPartition := Some(partitionName);
      targetFs := None;
      action := None;
    }

    /** The repair button. */
    method ChooseRepair()
      requires Valid() && Truthy(selectedPartition)
      modifies this
      ensures Valid()
      ensures action == Some(Repair) && targetFs == None
      ensures selectedPartition == old(selectedPartition) && forceError == old(forceError)
    {
      action := Some(Repair);
      targetFs := None;
    }

    /** The change button: the target must be picked again. */
    method ChooseChange()
      requires Valid() && Truthy(selectedPartition)
      modifies this
      ensures Valid()
      ensures action == Some(Change) && targetFs == None
      ensures selectedPartition == old(selectedPartition) && forceError == old(forceError)
    {
      action := Some(Change);
      targetFs := None;
    }

    /** A file-system button, shown while the action is a change. */
    method SelectFs(fs: string)
      requires Valid() && action == Some(Change) && fs in FsTypes
      modifies this
      ensures Valid()
      ensures targetFs == Some(fs)
      ensures selectedPartition == old(selectedPartition) && action == old(action)
      ensures forceError == old(forceError)
    {
      targetFs := Some(fs);
    }

    /** The "Simulate 100% Error" checkbox. */
    method SetForceError(checked: bool)
      requires Valid()
      modifies this
      ensures Valid()
      ensures forceError == checked
      ensures selectedPartition == old(selectedPartition) && action == old(action)
      ensures targetFs == old(targetFs)
    {
      forceError := checked;
    }

    /** Whenever the confirm button is on screen, pressing it sends a
        request: a repair without a file system, or a change to the target
        shown as picked. */
    lemma ConfirmSends()
      requires Valid() && ShowsConfirm(targetFs, action)
      ensures var r := Request(selectedPartition, targetFs, action, forceError);
        && r.Some?
        && r.value.partition == selectedPartition.value
        && (action == Some(Repair) ==> r.value.repair && r.value.fsType == Undefined)
        && (action == Some(Change) ==> !r.value.repair && r.value.fsType == Named(targetFs.value))
    {
    }
  }
}
